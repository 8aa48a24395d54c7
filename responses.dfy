/** Outbound events (Response.java) and the texts the engine puts in them. */
module Responses {
  import opened Wrappers

  /** One entry of a winners list: a display name and the amount won. */
  datatype Winner = Winner(nickname: string, winning: real)

  /**
   * An outbound event. The optional fields are the ones left null (and so
   * omitted from the serialised form) unless a setter fills them;
   * `timeRemaining` is a primitive int and is 0 unless set.
   */
  datatype Response = Response(
    kind: string,
    message: string,
    winningNumber: Option<int>,
    winning: Option<real>,
    winners: Option<seq<Winner>>,
    timeRemaining: int)

  /** One send: `msg` handed to the connection whose id is `to`. */
  datatype Delivery = Delivery(to: string, msg: Response)

  /** The two-argument constructor: only the tag and the text are set. */
  function Plain(kind: string, message: string): (r: Response)
  {
    Response(kind, message, None, None, None, 0)
  }

  /** Decimal text of an integer, as Java's string concatenation renders it. */
  function DecimalText(n: int): string
  {
    if n < 0 then "-" + Digits(-n) else Digits(n)
  }

  function Digits(n: nat): string
    decreases n
  {
    if n < 10 then [DigitChar(n)] else Digits(n / 10) + [DigitChar(n % 10)]
  }

  function DigitChar(d: nat): char
    requires d < 10
  {
    "0123456789"[d]
  }

  /** ROUND_START, broadcast when betting opens; carries the whole round time. */
  function RoundStart(roundTime: int): Response
  {
    Plain("ROUND_START", "Round has started! " + DecimalText(roundTime) + " seconds until the result.")
      .(timeRemaining := roundTime)
  }

  /** COUNTDOWN, broadcast by the timer at even elapsed seconds. */
  function Countdown(secondsLeft: int): Response
  {
    Plain("COUNTDOWN", "Time remaining: " + DecimalText(secondsLeft) + " seconds")
      .(timeRemaining := secondsLeft)
  }

  /** COUNTDOWN sent to a connection that joins while betting is open. */
  function JoinCountdown(timeRemaining: int): Response
  {
    Plain("COUNTDOWN", "Welcome! Round is running! Time remaining: " + DecimalText(timeRemaining) + " seconds")
      .(timeRemaining := timeRemaining)
  }

  /** WELCOME, sent to a connection that joins while betting is closed. */
  function Welcome(): Response
  {
    Plain("WELCOME", "Welcome! Please wait for the next round.")
  }

  /** ROUND_END, broadcast after the personal results. */
  function RoundEnd(): Response
  {
    Plain("ROUND_END", "End of round! Please wait for the next round to start.")
  }

  /** ERROR, sent to a player who bets while betting is closed. */
  function BettingClosed(): Response
  {
    Plain("ERROR", "Betting phase is over. Please wait for the next round.")
  }

  /** The global ROUND_RESULT built by the resolution step. */
  function RoundResult(winningNumber: int, winners: seq<Winner>): Response
  {
    Plain("ROUND_RESULT", "").(winningNumber := Some(winningNumber), winners := Some(winners))
  }

  /** The receivers of a run of sends, in sending order. */
  function Recipients(sent: seq<Delivery>): seq<string>
  {
    seq(|sent|, k requires 0 <= k < |sent| => sent[k].to)
  }

  /** `sent` reaches every id of `ids` exactly once and nobody else. */
  ghost predicate OnceEach(sent: seq<Delivery>, ids: set<string>)
  {
    multiset(Recipients(sent)) == multiset(ids)
  }
}
