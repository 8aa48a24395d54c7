/**
 * The payout rule of a round: a bet that picked the drawn number wins its
 * stake times the fixed multiplier, every other bet wins nothing. The draw
 * is uniform over 1..10, so the multiplier 9.9 gives a return to player of
 * 99% (a 1% house edge).
 */
module Payouts {

  /** The multiplier 9.9, exact as a real. */
  const Multiplier: real := 99.0 / 10.0

  /** The smallest and the largest value of the draw. */
  const LowestDraw: int := 1
  const HighestDraw: int := 10

  /** The amount a bet of `stake` on `picked` wins when `draw` comes up. */
  function Payout(stake: real, picked: int, draw: int): real
  {
    if picked == draw then stake * Multiplier else 0.0
  }

  /** Total payout to one bet over the draws lo..hi-1, each counted once. */
  function PayoutOverDraws(stake: real, picked: int, lo: int, hi: int): real
    decreases hi - lo
  {
    if hi <= lo then 0.0 else Payout(stake, picked, lo) + PayoutOverDraws(stake, picked, lo + 1, hi)
  }

  /** A bet wins something exactly when it picked the draw and staked a positive amount. */
  lemma WinsIffPickedDraw(stake: real, picked: int, draw: int)
    ensures Payout(stake, picked, draw) > 0.0 <==> picked == draw && stake > 0.0
    ensures picked != draw ==> Payout(stake, picked, draw) == 0.0
  {
    if picked == draw {
      assert stake * Multiplier > 0.0 <==> stake > 0.0;
    }
  }

  /** Over a range of draws, only the draw equal to the pick pays. */
  lemma {:induction false} PayoutOverDrawsValue(stake: real, picked: int, lo: int, hi: int)
    ensures PayoutOverDraws(stake, picked, lo, hi)
            == if lo <= picked < hi then stake * Multiplier else 0.0
    decreases hi - lo
  {
    if lo < hi {
      PayoutOverDrawsValue(stake, picked, lo + 1, hi);
    }
  }

  /**
   * Return to player: averaged over the ten equally likely draws, a bet on
   * any number of the range gets back 99% of its stake; a bet on a number
   * outside the range gets nothing back.
   */
  lemma ReturnToPlayer(stake: real, picked: int)
    ensures LowestDraw <= picked <= HighestDraw ==>
              PayoutOverDraws(stake, picked, LowestDraw, HighestDraw + 1) / 10.0 == stake * (99.0 / 100.0)
    ensures !(LowestDraw <= picked <= HighestDraw) ==>
              PayoutOverDraws(stake, picked, LowestDraw, HighestDraw + 1) == 0.0
  {
    PayoutOverDrawsValue(stake, picked, LowestDraw, HighestDraw + 1);
  }
}
