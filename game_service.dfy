/**
 * The round engine (GameService.java): the phase flags, the registries of
 * connections and bets, payout and ranking, and the fan-out of events.
 *
 * Sending is modelled as appending a Delivery to `outbox`. A send can throw
 * (the connection broke, serialisation failed); the engine catches that and
 * carries on, so every sending operation takes the set `failing` of
 * connection ids whose send throws during that call: those are skipped and
 * nothing else changes.
 */
module Game {
  import opened Wrappers
  import opened Responses
  import opened Payouts
  import opened Bets
  import opened Ranking
  import opened Schedule

  /** Round time of the default constructor, in seconds. */
  const DefaultRoundTime: int := 10

  /** A connection as the engine sees it when it arrives: its id and whether it is open. */
  datatype Connection = Connection(id: string, open: bool)

  /** A decoded bet submission (PlayerBetDTO); a field may be missing (null). */
  datatype BetRequest = BetRequest(nickname: Option<string>, betAmount: Option<real>, pickedNumber: Option<int>)

  /** The bets after the payout step: every payout set for the draw, nothing else touched. */
  function Settle(view: map<string, BetRecord>, draw: int): (r: map<string, BetRecord>)
    ensures r.Keys == view.Keys
    ensures forall id :: id in r ==>
              && r[id].nickname == view[id].nickname
              && r[id].betAmount == view[id].betAmount
              && r[id].pickedNumber == view[id].pickedNumber
    ensures forall id :: id in r ==>
              r[id].winAmount == if view[id].pickedNumber == draw then view[id].betAmount * Multiplier else 0.0
  {
    map id | id in view :: view[id].(winAmount := Payout(view[id].betAmount, view[id].pickedNumber, draw))
  }

  /**
   * After the payout step, the winners list holds exactly the bets that
   * picked the draw with a positive stake, each winning stake * 9.9.
   */
  lemma SettledWinners(ws: seq<Winner>, view: map<string, BetRecord>, draw: int)
    requires IsRanking(ws, Settle(view, draw))
    ensures forall w :: w in ws <==>
              exists id :: id in view && view[id].pickedNumber == draw && view[id].betAmount > 0.0
                           && w == Winner(view[id].nickname, view[id].betAmount * Multiplier)
  {
    var settled := Settle(view, draw);
    RankingMembers(ws, settled);
    forall id | id in view
      ensures settled[id].winAmount > 0.0 <==> view[id].pickedNumber == draw && view[id].betAmount > 0.0
      ensures settled[id].winAmount > 0.0 ==>
                WinnerOf(settled[id]) == Winner(view[id].nickname, view[id].betAmount * Multiplier)
    {
      WinsIffPickedDraw(view[id].betAmount, view[id].pickedNumber, draw);
    }
  }

  /** The ids a broadcast reaches: registered, open, and not failing. */
  function OpenIds(sessions: map<string, bool>, failing: set<string>): set<string>
  {
    set id | id in sessions && sessions[id] && id !in failing
  }

  /** The ids the personal results reach: holding a bet, registered, open, and not failing. */
  function ResultIds(betIds: set<string>, sessions: map<string, bool>, failing: set<string>): set<string>
  {
    set id | id in betIds && id in sessions && sessions[id] && id !in failing
  }

  /** `sent` delivers `msg` once to each id of `ids` and to no one else. */
  ghost predicate BroadcastOf(sent: seq<Delivery>, msg: Response, ids: set<string>)
  {
    && OnceEach(sent, ids)
    && forall k :: 0 <= k < |sent| ==> sent[k].msg == msg
  }

  /** The greeting of a personal result: congratulations for a positive payout, sympathy otherwise. */
  function ResultText(bet: BetRecord): string
  {
    if bet.winAmount > 0.0 then "Congratulations " + bet.nickname + "! You won: "
    else "Sorry " + bet.nickname + ", better luck next time!"
  }

  /** The personal ROUND_RESULT for one bet: the global result plus that bet's own payout. */
  function PersonalResult(result: Response, bet: BetRecord): Response
  {
    Response("ROUND_RESULT", ResultText(bet), result.winningNumber, Some(bet.winAmount), result.winners, 0)
  }

  /** Every send of `sent` is the personal result for the receiver's bet in `view`. */
  ghost predicate PersonalResults(sent: seq<Delivery>, result: Response, view: map<string, BetRecord>)
  {
    forall k :: 0 <= k < |sent| ==> sent[k].to in view && sent[k].msg == PersonalResult(result, view[sent[k].to])
  }

  /** `sent` gives each id of `ids` exactly once the personal result for its bet in `view`. */
  ghost predicate ResultsOf(sent: seq<Delivery>, result: Response, view: map<string, BetRecord>, ids: set<string>)
  {
    OnceEach(sent, ids) && PersonalResults(sent, result, view)
  }

  lemma PersonalResultsAdd(sent: seq<Delivery>, result: Response, view: map<string, BetRecord>, d: Delivery)
    requires PersonalResults(sent, result, view)
    requires d.to in view && d.msg == PersonalResult(result, view[d.to])
    ensures PersonalResults(sent + [d], result, view)
  {
  }

  lemma OnceEachAdd(sent: seq<Delivery>, ids: set<string>, d: Delivery)
    requires OnceEach(sent, ids)
    requires d.to !in ids
    ensures OnceEach(sent + [d], ids + {d.to})
  {
    assert Recipients(sent + [d]) == Recipients(sent) + [d.to];
  }

  /** Taking `id` off the ids still to visit adds it to the visited part of `all`, if it is in `all`. */
  lemma VisitOne(all: set<string>, remaining: set<string>, id: string)
    requires id in remaining
    ensures id !in all - remaining
    ensures all - (remaining - {id}) == if id in all then (all - remaining) + {id} else all - remaining
  {
  }

  /**
   * The sends of one broadcast over the connection registry: `message` to
   * every open connection, in the registry's iteration order, skipping the
   * ones whose send throws.
   */
  method FanOut(message: Response, sessions: map<string, bool>, failing: set<string>) returns (sent: seq<Delivery>)
    ensures BroadcastOf(sent, message, OpenIds(sessions, failing))
  {
    sent := [];
    ghost var all := OpenIds(sessions, failing);
    var remaining := sessions.Keys;
    while remaining != {}
      invariant remaining <= sessions.Keys
      invariant BroadcastOf(sent, message, all - remaining)
      decreases remaining
    {
      var id :| id in remaining;
      VisitOne(all, remaining, id);
      if sessions[id] && id !in failing {
        OnceEachAdd(sent, all - remaining, Delivery(id, message));
        sent := sent + [Delivery(id, message)];
      }
      remaining := remaining - {id};
    }
  }

  /**
   * The sends of the personal results over the bet registry: for each bet
   * whose connection is registered and open, that bet's result, skipping
   * the connections whose send throws.
   */
  method PersonalFanOut(result: Response, view: map<string, BetRecord>, sessions: map<string, bool>, failing: set<string>)
    returns (sent: seq<Delivery>)
    ensures ResultsOf(sent, result, view, ResultIds(view.Keys, sessions, failing))
  {
    sent := [];
    ghost var all := ResultIds(view.Keys, sessions, failing);
    var remaining := view.Keys;
    while remaining != {}
      invariant remaining <= view.Keys
      invariant OnceEach(sent, all - remaining)
      invariant PersonalResults(sent, result, view)
      decreases remaining
    {
      var id :| id in remaining;
      var message := PersonalResult(result, view[id]);
      VisitOne(all, remaining, id);
      if id in sessions && sessions[id] && id !in failing {
        OnceEachAdd(sent, all - remaining, Delivery(id, message));
        PersonalResultsAdd(sent, result, view, Delivery(id, message));
        sent := sent + [Delivery(id, message)];
      }
      remaining := remaining - {id};
    }
  }

  /**
   * The winners list of the bets in `view`: the stream reads the bets in
   * the map's iteration order, then filters, maps and sorts them.
   */
  method RankBets(view: map<string, BetRecord>) returns (winners: seq<Winner>)
    ensures IsRanking(winners, view)
  {
    var records: seq<BetRecord> := [];
    ghost var order: seq<string> := [];
    var remaining := view.Keys;
    while remaining != {}
      invariant remaining <= view.Keys
      invariant forall i, j :: 0 <= i < j < |order| ==> order[i] != order[j]
      invariant forall k :: k in order <==> k in view.Keys && k !in remaining
      invariant records == Along(order, view)
      decreases remaining
    {
      var id :| id in remaining;
      records := records + [view[id]];
      order := order + [id];
      remaining := remaining - {id};
    }
    winners := RankWinners(records);
    assert IsEnumeration(order, view.Keys);
  }

  /** A submission whose three fields are all present; any other makes the bet's construction throw. */
  predicate Complete(request: BetRequest)
  {
    request.nickname.Some? && request.betAmount.Some? && request.pickedNumber.Some?
  }

  class GameService {
    /** Round length in seconds; negative selects the diagnostic mode. */
    const roundTime: int
    /** Whether the repeating round timer was started. */
    const gameLoopStarted: bool
    /** Start of the current round, in milliseconds of the wall clock. */
    var gameStartTime: int
    var bettingPhase: bool
    var isGameInProgress: bool
    /** Registered connections by id; the value is whether the connection is open. */
    var sessions: map<string, bool>
    /** The bets of the round by connection id. */
    var bets: map<string, PlayerBet>
    /** Every event sent so far, in order. */
    var outbox: seq<Delivery>

    /** Each bet of the registry is its own object. */
    ghost predicate Valid()
      reads this
    {
      forall a, b :: a in bets && b in bets && a != b ==> bets[a] != bets[b]
    }

    /** The bet registry as values. */
    function BetView(): map<string, BetRecord>
      reads this`bets, bets.Values
    {
      map id | id in bets :: bets[id].Record()
    }

    /** The default constructor: a ten-second round and the timer started. */
    constructor Default()
      ensures Valid()
      ensures roundTime == DefaultRoundTime && gameLoopStarted
      ensures gameStartTime == 0
      ensures !bettingPhase && !isGameInProgress
      ensures sessions == map[] && bets == map[] && outbox == []
    {
      roundTime := DefaultRoundTime;
      gameLoopStarted := true;
      gameStartTime := 0;
      bettingPhase := false;
      isGameInProgress := false;
      sessions := map[];
      bets := map[];
      outbox := [];
    }

    /**
     * The constructor with a round time. From 0 upwards the timer is
     * started and nothing is open yet; below 0 no timer is started and
     * betting is open at once, without a round in progress.
     */
    constructor (roundTime: int)
      ensures Valid()
      ensures this.roundTime == roundTime
      ensures gameLoopStarted <==> roundTime >= 0
      ensures gameStartTime == 0
      ensures bettingPhase <==> roundTime < 0
      ensures !isGameInProgress
      ensures sessions == map[] && bets == map[] && outbox == []
    {
      this.roundTime := roundTime;
      gameLoopStarted := roundTime >= 0;
      gameStartTime := 0;
      bettingPhase := roundTime < 0;
      isGameInProgress := false;
      sessions := map[];
      bets := map[];
      outbox := [];
    }

    /** sendJson to a registered connection: delivered unless it is closed or its send fails. */
    method Deliver(id: string, msg: Response, failing: set<string>)
      requires id in sessions
      modifies this`outbox
      ensures outbox == old(outbox) + (if sessions[id] && id !in failing then [Delivery(id, msg)] else [])
    {
      if sessions[id] && id !in failing {
        outbox := outbox + [Delivery(id, msg)];
      }
    }

    /** The transport reports that a connection has closed; it stays registered. */
    method MarkClosed(id: string)
      modifies this`sessions
      ensures sessions == if id in old(sessions) then old(sessions)[id := false] else old(sessions)
    {
      if id in sessions {
        sessions := sessions[id := false];
      }
    }

    /** Opens betting, marks a round in progress and announces ROUND_START with the round time. */
    method StartBettingPhase(failing: set<string>) returns (sent: seq<Delivery>)
      modifies this`bettingPhase, this`isGameInProgress, this`outbox
      ensures bettingPhase && isGameInProgress
      ensures outbox == old(outbox) + sent
      ensures BroadcastOf(sent, RoundStart(roundTime), OpenIds(sessions, failing))
    {
      bettingPhase := true;
      isGameInProgress := true;
      sent := BroadcastMessage(RoundStart(roundTime), failing);
    }

    /** Closes betting; the round stays in progress. */
    method EndBettingPhase()
      modifies this`bettingPhase
      ensures !bettingPhase
    {
      bettingPhase := false;
    }

    /** Announces ROUND_END, drops every bet and ends the round. */
    method EndOfRound(failing: set<string>) returns (sent: seq<Delivery>)
      modifies this`outbox, this`bets, this`isGameInProgress
      ensures Valid()
      ensures bets == map[] && !isGameInProgress
      ensures outbox == old(outbox) + sent
      ensures BroadcastOf(sent, RoundEnd(), OpenIds(sessions, failing))
    {
      sent := BroadcastMessage(RoundEnd(), failing);
      bets := map[];
      isGameInProgress := false;
    }

    /** Sets every bet's payout for the draw; the registry keeps the same bets. */
    method SetWins(draw: int)
      requires Valid()
      modifies bets.Values
      ensures BetView() == Settle(old(BetView()), draw)
    {
      ghost var before := BetView();
      var remaining := bets.Keys;
      while remaining != {}
        invariant remaining <= bets.Keys
        invariant forall id :: id in bets ==>
                    bets[id].Record() == if id in remaining then before[id] else Settle(before, draw)[id]
        decreases remaining
      {
        var id :| id in remaining;
        var bet := bets[id];
        bet.SetWinAmount(Payout(bet.betAmount, bet.pickedNumber, draw));
        remaining := remaining - {id};
      }
    }

    /** The winners list of the current bets. */
    method CalculateWinners() returns (winners: seq<Winner>)
      ensures IsRanking(winners, BetView())
    {
      winners := RankBets(BetView());
    }

    /**
     * The payout step of a round for a draw in 1..10: sets the payouts and
     * returns the global ROUND_RESULT with the draw and the winners list.
     */
    method ProcessResults(draw: int) returns (result: Response)
      requires Valid()
      requires LowestDraw <= draw <= HighestDraw
      modifies bets.Values
      ensures BetView() == Settle(old(BetView()), draw)
      ensures result.winners.Some? && result == RoundResult(draw, result.winners.value)
      ensures IsRanking(result.winners.value, BetView())
    {
      SetWins(draw);
      var winners := CalculateWinners();
      result := RoundResult(draw, winners);
    }

    /**
     * Registers a connection. A missing or closed connection, or an id
     * already registered, changes nothing and sends nothing. Otherwise the
     * connection is stored and gets one message: a COUNTDOWN with the
     * seconds left while betting is open, a WELCOME otherwise.
     */
    method AddSession(session: Option<Connection>, nowMs: int, failing: set<string>)
      modifies this`sessions, this`outbox
      ensures session.None? || !session.value.open || session.value.id in old(sessions) ==>
                sessions == old(sessions) && outbox == old(outbox)
      ensures session.Some? && session.value.open && session.value.id !in old(sessions) ==>
                var id := session.value.id;
                var greeting := if bettingPhase then JoinCountdown(TimeLeft(roundTime, gameStartTime, nowMs)) else Welcome();
                && sessions == old(sessions)[id := true]
                && outbox == old(outbox) + (if id in failing then [] else [Delivery(id, greeting)])
    {
      if session.None? || !session.value.open {
        return;
      }
      var id := session.value.id;
      if id in sessions {
        return;
      }
      sessions := sessions[id := true];
      if bettingPhase {
        var timeRemaining := TimeLeft(roundTime, gameStartTime, nowMs);
        Deliver(id, JoinCountdown(timeRemaining), failing);
      } else {
        Deliver(id, Welcome(), failing);
      }
    }

    /** Unregisters a connection and forfeits its bet; every other entry stays. */
    method RemoveSession(id: string)
      requires Valid()
      modifies this`sessions, this`bets
      ensures Valid()
      ensures sessions == old(sessions) - {id}
      ensures bets == old(bets) - {id}
    {
      sessions := sessions - {id};
      bets := bets - {id};
    }

    /**
     * A bet submission. A missing id or submission changes nothing. While
     * betting is closed the bet is dropped and the sender gets one ERROR.
     * While betting is open a complete submission becomes a new bet that
     * replaces any earlier one of the same connection; an incomplete one
     * makes the construction throw, which is caught, and nothing changes.
     */
    method ProcessPlayerBet(sessionId: Option<string>, request: Option<BetRequest>, failing: set<string>)
      requires Valid()
      requires sessionId.Some? && request.Some? && !bettingPhase ==> sessionId.value in sessions
      modifies this`bets, this`outbox
      ensures Valid()
      ensures sessionId.None? || request.None? ==> bets == old(bets) && outbox == old(outbox)
      ensures sessionId.Some? && request.Some? && !bettingPhase ==>
                var id := sessionId.value;
                && bets == old(bets)
                && outbox == old(outbox) + (if sessions[id] && id !in failing then [Delivery(id, BettingClosed())] else [])
      ensures sessionId.Some? && request.Some? && bettingPhase ==> outbox == old(outbox)
      ensures sessionId.Some? && request.Some? && bettingPhase && !Complete(request.value) ==> bets == old(bets)
      ensures sessionId.Some? && request.Some? && bettingPhase && Complete(request.value) ==>
                var id := sessionId.value;
                var r := request.value;
                && id in bets && fresh(bets[id])
                && bets == old(bets)[id := bets[id]]
                && BetView() == old(BetView())[id := BetRecord(r.nickname.value, r.betAmount.value, r.pickedNumber.value, 0.0)]
    {
      if sessionId.None? || request.None? {
        return;
      }
      var id := sessionId.value;
      var r := request.value;
      if !bettingPhase {
        Deliver(id, BettingClosed(), failing);
        return;
      }
      if r.betAmount.None? {
        // unboxing the missing stake throws before the constructor runs
        return;
      }
      var made := PlayerBet.TryNew(r.nickname, r.betAmount.value, r.pickedNumber);
      if made.Some? {
        bets := bets[id := made.value];
      }
    }

    /** Sends `message` once to every registered open connection; a connection whose send throws is skipped. */
    method BroadcastMessage(message: Response, failing: set<string>) returns (sent: seq<Delivery>)
      modifies this`outbox
      ensures outbox == old(outbox) + sent
      ensures BroadcastOf(sent, message, OpenIds(sessions, failing))
    {
      sent := FanOut(message, sessions, failing);
      outbox := outbox + sent;
    }

    /**
     * Sends each bet's personal result to its connection, when that is
     * registered and open; a connection whose send throws is skipped.
     */
    method BroadcastResult(result: Response, failing: set<string>) returns (sent: seq<Delivery>)
      modifies this`outbox
      ensures outbox == old(outbox) + sent
      ensures ResultsOf(sent, result, BetView(), ResultIds(bets.Keys, sessions, failing))
    {
      sent := PersonalFanOut(result, BetView(), sessions, failing);
      outbox := outbox + sent;
    }

    /**
     * The start of a timer round: records the start time, opens betting and
     * yields the countdown tasks the round schedules.
     */
    method BeginRound(nowMs: int, failing: set<string>) returns (tasks: seq<CountdownTask>, sent: seq<Delivery>)
      modifies this`gameStartTime, this`bettingPhase, this`isGameInProgress, this`outbox
      ensures gameStartTime == nowMs && bettingPhase && isGameInProgress
      ensures tasks == CountdownTasks(roundTime)
      ensures outbox == old(outbox) + sent
      ensures BroadcastOf(sent, RoundStart(roundTime), OpenIds(sessions, failing))
    {
      gameStartTime := nowMs;
      sent := StartBettingPhase(failing);
      tasks := ScheduleCountdowns(roundTime);
    }

    /** A countdown task firing: a COUNTDOWN broadcast on an even second while betting is open. */
    method FireCountdown(task: CountdownTask, failing: set<string>) returns (sent: seq<Delivery>)
      modifies this`outbox
      ensures outbox == old(outbox) + sent
      ensures CountdownFor(task, bettingPhase).None? ==> sent == []
      ensures CountdownFor(task, bettingPhase).Some? ==>
                BroadcastOf(sent, CountdownFor(task, bettingPhase).value, OpenIds(sessions, failing))
    {
      if bettingPhase && task.second % 2 == 0 {
        sent := BroadcastMessage(Countdown(task.secondsLeft), failing);
      } else {
        sent := [];
      }
    }

    /**
     * The first half of a round's resolution: close betting, pay out for the
     * draw and send every bettor their personal result.
     */
    method SettleRound(draw: int, failing: set<string>) returns (result: Response, sent: seq<Delivery>)
      requires Valid()
      requires LowestDraw <= draw <= HighestDraw
      modifies this`bettingPhase, this`outbox, bets.Values
      ensures !bettingPhase
      ensures BetView() == Settle(old(BetView()), draw)
      ensures result.winners.Some? && result == RoundResult(draw, result.winners.value)
      ensures IsRanking(result.winners.value, BetView())
      ensures outbox == old(outbox) + sent
      ensures ResultsOf(sent, result, Settle(old(BetView()), draw), ResultIds(bets.Keys, sessions, failing))
    {
      ghost var before := BetView();
      EndBettingPhase();
      assert BetView() == before;
      result := ProcessResults(draw);
      sent := BroadcastResult(result, failing);
    }

    /**
     * The resolution task of a round: close betting, pay out for the draw,
     * send the personal results, announce ROUND_END, drop the bets and end
     * the round.
     */
    method ResolveRound(draw: int, resultFailing: set<string>, endFailing: set<string>)
      returns (result: Response, resultsSent: seq<Delivery>, endSent: seq<Delivery>)
      requires Valid()
      requires LowestDraw <= draw <= HighestDraw
      modifies this`bettingPhase, this`isGameInProgress, this`bets, this`outbox, bets.Values
      ensures Valid()
      ensures !bettingPhase && !isGameInProgress && bets == map[]
      ensures result.winners.Some? && result == RoundResult(draw, result.winners.value)
      ensures IsRanking(result.winners.value, Settle(old(BetView()), draw))
      ensures outbox == old(outbox) + resultsSent + endSent
      ensures ResultsOf(resultsSent, result, Settle(old(BetView()), draw), ResultIds(old(bets).Keys, sessions, resultFailing))
      ensures BroadcastOf(endSent, RoundEnd(), OpenIds(sessions, endFailing))
    {
      result, resultsSent := SettleRound(draw, resultFailing);
      endSent := EndOfRound(endFailing);
    }
  }
}
