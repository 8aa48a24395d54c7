/**
 * The timing of a round (runGameRound, getTimeRemaining). The scheduler
 * itself is not modelled: a round's delayed countdown tasks are values, and
 * the wall clock is a parameter in milliseconds.
 */
module Schedule {
  import opened Wrappers
  import opened Responses

  /** Java's `/` on integers: the quotient truncated toward zero. */
  function JavaDiv(a: int, b: int): (q: int)
    requires b > 0
  {
    if a >= 0 then a / b else -((-a) / b)
  }

  /**
   * Seconds of betting left at `nowMs` in a round of `roundTime` seconds
   * that started at `startMs`: the round time less the whole seconds
   * elapsed, where a partial second does not count.
   */
  function TimeLeft(roundTime: int, startMs: int, nowMs: int): (r: int)
    ensures nowMs >= startMs ==>
              var elapsed := roundTime - r;
              0 <= elapsed && elapsed * 1000 <= nowMs - startMs < (elapsed + 1) * 1000
    ensures nowMs < startMs ==>
              var elapsed := roundTime - r;
              elapsed <= 0 && (elapsed - 1) * 1000 < nowMs - startMs <= elapsed * 1000
  {
    roundTime - JavaDiv(nowMs - startMs, 1000)
  }

  /**
   * One delayed countdown task: it fires `second` seconds after the round
   * starts and announces `secondsLeft`.
   */
  datatype CountdownTask = CountdownTask(second: int, secondsLeft: int)

  /** The tasks a round of `roundTime` seconds schedules, one per second 1..roundTime. */
  function CountdownTasks(roundTime: int): (ts: seq<CountdownTask>)
  {
    if roundTime <= 0 then []
    else seq(roundTime, k => CountdownTask(k + 1, roundTime - (k + 1)))
  }

  /** What a task broadcasts when it fires: a COUNTDOWN on even seconds while betting is open. */
  function CountdownFor(t: CountdownTask, betting: bool): Option<Response>
  {
    if betting && t.second % 2 == 0 then Some(Countdown(t.secondsLeft)) else None
  }

  /** The scheduling loop of a round: one task per second 1..roundTime. */
  method ScheduleCountdowns(roundTime: int) returns (tasks: seq<CountdownTask>)
    ensures tasks == CountdownTasks(roundTime)
  {
    tasks := [];
    if roundTime > 0 {
      var i := 1;
      while i <= roundTime
        invariant 1 <= i <= roundTime + 1
        invariant |tasks| == i - 1
        invariant forall k :: 0 <= k < |tasks| ==> tasks[k] == CountdownTask(k + 1, roundTime - (k + 1))
      {
        var secondsLeft := roundTime - i;
        tasks := tasks + [CountdownTask(i, secondsLeft)];
        i := i + 1;
      }
    }
  }

  /**
   * A round's COUNTDOWN events: one comes only from a task at an even second
   * i with 1 <= i <= roundTime, only while betting is open, and carries
   * roundTime - i; while betting is open every such second has one.
   */
  lemma CountdownTiming(roundTime: int, betting: bool)
    ensures forall t, m :: t in CountdownTasks(roundTime) && CountdownFor(t, betting) == Some(m) ==>
              && betting
              && 1 <= t.second <= roundTime
              && t.second % 2 == 0
              && m.kind == "COUNTDOWN"
              && m.timeRemaining == roundTime - t.second
    ensures betting ==> forall i :: 1 <= i <= roundTime && i % 2 == 0 ==>
              exists t :: t in CountdownTasks(roundTime) && t.second == i && CountdownFor(t, betting).Some?
  {
    var ts := CountdownTasks(roundTime);
    if betting {
      forall i | 1 <= i <= roundTime && i % 2 == 0
        ensures exists t :: t in ts && t.second == i && CountdownFor(t, betting).Some?
      {
        assert ts[i - 1] in ts;
      }
    }
  }

  /** The number of tasks of `ts` that broadcast a COUNTDOWN when they fire. */
  function Broadcasts(ts: seq<CountdownTask>, betting: bool): nat
  {
    if ts == [] then 0
    else Broadcasts(ts[..|ts| - 1], betting) + (if CountdownFor(ts[|ts| - 1], betting).Some? then 1 else 0)
  }

  /** Of the first m tasks of a schedule, m / 2 broadcast while betting is open, none otherwise. */
  lemma {:induction false} BroadcastsOfPrefix(ts: seq<CountdownTask>, betting: bool, m: nat)
    requires m <= |ts|
    requires forall k :: 0 <= k < |ts| ==> ts[k].second == k + 1
    ensures Broadcasts(ts[..m], betting) == if betting then m / 2 else 0
  {
    if m > 0 {
      BroadcastsOfPrefix(ts, betting, m - 1);
      assert ts[..m][..m - 1] == ts[..m - 1];
    }
  }

  /**
   * A round whose betting stays open to the end broadcasts roundTime / 2
   * countdowns; with betting closed throughout it broadcasts none.
   */
  lemma CountdownCount(roundTime: nat, betting: bool)
    ensures Broadcasts(CountdownTasks(roundTime), betting) == if betting then roundTime / 2 else 0
  {
    var ts := CountdownTasks(roundTime);
    BroadcastsOfPrefix(ts, betting, |ts|);
    assert ts[..|ts|] == ts;
  }
}
