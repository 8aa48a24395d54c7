/** The bet record (PlayerBet.java): three fields fixed at construction and a payout set later. */
module Bets {
  import opened Wrappers

  /** The value of a bet object at one moment. */
  datatype BetRecord = BetRecord(nickname: string, betAmount: real, pickedNumber: int, winAmount: real)

  class PlayerBet {
    var nickname: string
    var betAmount: real
    var pickedNumber: int
    var winAmount: real

    /** The four fields as a value. */
    function Record(): BetRecord
      reads this
    {
      BetRecord(nickname, betAmount, pickedNumber, winAmount)
    }

    /** The constructor once its non-null checks have passed: stores the three fields, payout 0. */
    constructor (nickname: string, betAmount: real, pickedNumber: int)
      ensures Record() == BetRecord(nickname, betAmount, pickedNumber, 0.0)
    {
      this.nickname := nickname;
      this.betAmount := betAmount;
      this.pickedNumber := pickedNumber;
      this.winAmount := 0.0;
    }

    /**
     * The constructor with its non-null checks: a missing nickname or picked
     * number throws, and no bet exists.
     */
    static method TryNew(nickname: Option<string>, betAmount: real, pickedNumber: Option<int>)
      returns (bet: Option<PlayerBet>)
      ensures bet.None? <==> nickname.None? || pickedNumber.None?
      ensures bet.Some? ==> fresh(bet.value)
      ensures bet.Some? ==> bet.value.Record() == BetRecord(nickname.value, betAmount, pickedNumber.value, 0.0)
    {
      if nickname.None? || pickedNumber.None? {
        return None;
      }
      var b := new PlayerBet(nickname.value, betAmount, pickedNumber.value);
      bet := Some(b);
    }

    /** The payout setter: changes the payout and nothing else. */
    method SetWinAmount(amount: real)
      modifies this`winAmount
      ensures Record() == old(Record()).(winAmount := amount)
    {
      winAmount := amount;
    }
  }
}
