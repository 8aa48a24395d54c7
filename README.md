# Number-guess round engine, modelled in Dafny

This project models the round engine of a real-time number-guessing game, `GameService`, together with the bet record `PlayerBet` that it manages.

Players connect and bet a stake on a number from 1 to 10 while a timed betting window is open. When the window closes, a number is drawn. A bet on the drawn number wins its stake times 9.9, and every other bet wins nothing. Each bettor then gets a personal result that also carries the winners list, sorted from largest win to smallest. Everyone connected gets an end-of-round notice, and the bets are cleared.

The model has seven modules:

- `Wrappers`: an `Option` type, standing in for Java's nullable references.
- `Responses`: the outbound `Response` event, a `Winner` entry, and one `Delivery` record per send. It also holds the exact texts of the ROUND_START, COUNTDOWN, WELCOME, ROUND_END and ERROR events, and the global ROUND_RESULT. The text of the personal ROUND_RESULT is `Game.ResultText`, and it stops before the amount won.
- `Payouts`: the payout rule and the constant multiplier 9.9, written as the exact real `99/10`.
- `Bets`: the `PlayerBet` class. Its three fields are set at construction, and its payout is overwritten later through a setter.
- `Ranking`: the winners list (`calculateWinners`). It filters the bets to positive payouts, maps them to `(nickname, winning)` entries and sorts those by winning, largest first.
- `Schedule`: round timing. It covers the per-second countdown tasks and the seconds left at a given wall-clock time.
- `Game`: the `GameService` class. Its fields are:
  - the phase flags `bettingPhase` and `isGameInProgress`;
  - the round time and the round start time;
  - the registry of connections, as a map from id to "is open";
  - the registry of bets, as a map from id to `PlayerBet` objects;
  - `outbox`, the log of every event sent.

Sending is modelled as appending a `Delivery` to `outbox`. Every sending operation takes the set `failing`: the connections whose send throws during that call. Broadcasts and the personal results catch any exception from a send, so those connections are skipped and nothing else changes. `addSession` catches only an I/O failure of its greeting; the model treats every greeting failure as that case. The ERROR send in `processPlayerBet` catches nothing, and the exception reaches the caller. Nothing happens after that send, so the model records it as not delivered, which leaves the same state.

The timer-driven round is split into three steps:

- `BeginRound`: record the start time, open betting and announce ROUND_START. It yields the countdown tasks of the round.
- `FireCountdown`: one countdown task firing.
- `ResolveRound`: the resolution task. It closes betting, pays out for the draw, sends the personal results, announces ROUND_END, drops the bets and ends the round.

Hash-map iteration order is not specified. Broadcasts are therefore specified as "exactly once to each eligible connection", as a multiset of recipients. The winners list is specified as sorted and a permutation of the positive-payout entries, read in some iteration order of the bet map. Equal winnings have no defined order.

The constructor starts the round timer for any round time of 0 or more, including 0. Only a negative round time selects the manual "diagnostic" mode: no timer is started, betting is open at once, and no round is in progress (GameService.java:51-55). So "betting implies a round in progress" is not an invariant of the model. The start time stays 0 until a round begins, so a connection that joins in diagnostic mode is told the time left measured from time 0.

The winners list is sorted non-increasingly, so equal winnings are allowed. The engine checks neither that a stake is positive nor that a pick lies in 1..10, and the model does not either.

## Model

| member | source | states |
|---|---|---|
| Bets.PlayerBet.constructor | src/main/java/com/yolo/guessnumber/playerBet/PlayerBet.java:12-16 | A new bet holds the given nickname, stake and pick exactly, and its payout is 0 |
| Bets.PlayerBet.TryNew | src/main/java/com/yolo/guessnumber/playerBet/PlayerBet.java:12 | No bet is made exactly when the nickname or the pick is null. Otherwise a fresh bet holds the given values with payout 0 |
| Bets.PlayerBet.SetWinAmount | src/main/java/com/yolo/guessnumber/playerBet/PlayerBet.java:5-10 | The setter changes the payout only; nickname, stake and pick stay as they were |
| Payouts.WinsIffPickedDraw | src/main/java/com/yolo/guessnumber/service/GameService.java:120-130 | A bet wins a positive amount if and only if it picked the draw with a positive stake; a bet on any other number wins 0 |
| Payouts.PayoutOverDrawsValue | src/main/java/com/yolo/guessnumber/gamelogic/GuessNumber.java:9-15 | Summed over a range of draws, a bet is paid stake × 9.9 once if its pick is in the range, and nothing otherwise |
| Payouts.ReturnToPlayer | src/main/java/com/yolo/guessnumber/gamelogic/GuessNumber.java:9-15 | Averaged over the ten draws 1..10, a bet on any number in 1..10 gets back 99% of its stake (a 1% house edge). A bet outside 1..10 gets nothing back |
| Ranking.Insert | src/main/java/com/yolo/guessnumber/service/GameService.java:136 | Insertion adds exactly the one entry to the list's multiset, and the head is either the new entry or the old head |
| Ranking.InsertSorted | src/main/java/com/yolo/guessnumber/service/GameService.java:136 | Inserting into a list sorted by winning (largest first) keeps it sorted |
| Ranking.ConsSorted | src/main/java/com/yolo/guessnumber/service/GameService.java:136 | Putting in front of a sorted list an entry that wins at least as much as its head keeps it sorted |
| Ranking.SortByWinning | src/main/java/com/yolo/guessnumber/service/GameService.java:136 | The sort by winning in reverse order yields a list that is sorted largest first and is a permutation of its input |
| Ranking.RankWinners | src/main/java/com/yolo/guessnumber/service/GameService.java:132-138 | Over the bets as read, the stream yields a list sorted largest first that is a permutation of the positive-payout (nickname, winning) entries |
| Ranking.WinnersOfMembers | src/main/java/com/yolo/guessnumber/service/GameService.java:133-135 | An entry survives the filter-and-map if and only if some bet with a positive payout yields it |
| Ranking.Along | src/main/java/com/yolo/guessnumber/service/GameService.java:133 | Reading the bet map along a key order gives one bet per key, at the key's position |
| Ranking.AlongMembers | src/main/java/com/yolo/guessnumber/service/GameService.java:133 | A bet is read along a key order if and only if its key is in that order |
| Ranking.RankingMember | src/main/java/com/yolo/guessnumber/service/GameService.java:132-138 | An entry is in a winners list of a bet map if and only if some bet of the map with a positive payout yields it |
| Ranking.RankingMembers | src/main/java/com/yolo/guessnumber/service/GameService.java:132-138 | A winners list holds only positive winnings, each from a bet of the map, and holds every bet with a positive payout |
| Schedule.TimeLeft | src/main/java/com/yolo/guessnumber/service/GameService.java:196-199 | The time left is the round time less the elapsed whole seconds. A partial second does not count, and Java's division truncates toward zero for a clock that runs behind the start time |
| Schedule.ScheduleCountdowns | src/main/java/com/yolo/guessnumber/service/GameService.java:68-80 | The scheduling loop yields one task per second i from 1 to roundTime, announcing roundTime − i, and none when roundTime ≤ 0 |
| Schedule.CountdownTiming | src/main/java/com/yolo/guessnumber/service/GameService.java:68-80 | A COUNTDOWN comes only while betting is open, from a task at an even second 1 ≤ i ≤ roundTime, carrying roundTime − i. While betting is open, every such second has one |
| Schedule.BroadcastsOfPrefix | src/main/java/com/yolo/guessnumber/service/GameService.java:69-78 | Of the first m tasks of the schedule, m / 2 broadcast a COUNTDOWN while betting is open, and none do while it is closed |
| Schedule.CountdownCount | src/main/java/com/yolo/guessnumber/service/GameService.java:68-80 | A round whose betting stays open to the end broadcasts roundTime / 2 countdowns; with betting closed throughout it broadcasts none |
| Game.Settle | src/main/java/com/yolo/guessnumber/service/GameService.java:120-130 | Setting the payouts adds and removes no bet and keeps each bet's nickname, stake and pick. Each payout is stake × 9.9 for a bet on the draw and 0 otherwise |
| Game.SettledWinners | src/main/java/com/yolo/guessnumber/service/GameService.java:111-138 | After the payout step, the winners list holds exactly the bets that picked the draw with a positive stake, each winning stake × 9.9 |
| Game.FanOut | src/main/java/com/yolo/guessnumber/service/GameService.java:226-236 | One broadcast sends the message exactly once to each registered open connection whose send does not fail, and to no one else |
| Game.PersonalFanOut | src/main/java/com/yolo/guessnumber/service/GameService.java:202-223 | The personal results go exactly once to each bettor whose connection is registered, open and not failing. Each is that bet's own ROUND_RESULT: winning = its payout, plus the global draw and winners list |
| Game.RankBets | src/main/java/com/yolo/guessnumber/service/GameService.java:132-138 | Reading the bets in the map's iteration order and ranking them yields a winners list of the bet map |
| Game.GameService.Default | src/main/java/com/yolo/guessnumber/service/GameService.java:39-45 | The default engine has a ten-second round, the timer started, start time 0, both flags clear and empty registries |
| Game.GameService.constructor | src/main/java/com/yolo/guessnumber/service/GameService.java:47-56 | The timer is started if and only if roundTime ≥ 0, and betting is open if and only if roundTime < 0. The start time is 0, no round is in progress and the registries are empty |
| Game.GameService.Deliver | src/main/java/com/yolo/guessnumber/service/GameService.java:156-167 | A single send reaches the connection only if it is open and its send does not fail; nothing else changes |
| Game.GameService.MarkClosed | src/main/java/com/yolo/guessnumber/service/GameService.java:227-228 | A connection closed by the transport stays registered and is seen as not open |
| Game.GameService.StartBettingPhase | src/main/java/com/yolo/guessnumber/service/GameService.java:90-97 | Both flags are set, and ROUND_START with timeRemaining = roundTime is broadcast to each open connection once |
| Game.GameService.EndBettingPhase | src/main/java/com/yolo/guessnumber/service/GameService.java:99-101 | Only the betting flag is cleared |
| Game.GameService.EndOfRound | src/main/java/com/yolo/guessnumber/service/GameService.java:103-108 | ROUND_END is broadcast to each open connection once, the bets are cleared and the round is no longer in progress |
| Game.GameService.SetWins | src/main/java/com/yolo/guessnumber/service/GameService.java:120-130 | The bet registry afterwards is the settled registry: same bets and same fields, with each payout set for the draw |
| Game.GameService.CalculateWinners | src/main/java/com/yolo/guessnumber/service/GameService.java:132-138 | The result is a winners list of the current bets: sorted largest first, and a permutation of their positive-payout entries |
| Game.GameService.ProcessResults | src/main/java/com/yolo/guessnumber/service/GameService.java:111-118 | For a draw in 1..10 the bets are settled, and the ROUND_RESULT carries that draw and a winners list of the settled bets |
| Game.GameService.AddSession | src/main/java/com/yolo/guessnumber/service/GameService.java:141-169 | A null, closed or already-registered connection changes nothing. Otherwise it is registered as open and is sent exactly one message, unless its send fails: a COUNTDOWN with the time left while betting is open, a WELCOME otherwise |
| Game.GameService.RemoveSession | src/main/java/com/yolo/guessnumber/service/GameService.java:171-174 | The id is removed from both registries and every other entry stays |
| Game.GameService.ProcessPlayerBet | src/main/java/com/yolo/guessnumber/service/GameService.java:176-194 | A null id or submission changes nothing. Outside betting, no bet is stored and the sender gets one ERROR. During betting, a complete submission becomes a fresh bet under that id that replaces any earlier one, and an incomplete one changes nothing |
| Game.GameService.BroadcastMessage | src/main/java/com/yolo/guessnumber/service/GameService.java:226-236 | The event goes once to each registered open connection whose send does not fail, and is appended to the log; the registries stay as they were |
| Game.GameService.BroadcastResult | src/main/java/com/yolo/guessnumber/service/GameService.java:202-223 | Each bettor whose connection is registered and open gets, exactly once, a personal ROUND_RESULT carrying its own payout and the global draw and winners list |
| Game.GameService.BeginRound | src/main/java/com/yolo/guessnumber/service/GameService.java:64-80 | The start time is recorded, betting opens with ROUND_START broadcast, and the round's countdown tasks are scheduled |
| Game.GameService.FireCountdown | src/main/java/com/yolo/guessnumber/service/GameService.java:72-78 | A task broadcasts its COUNTDOWN only on an even second while betting is open; otherwise it sends nothing |
| Game.GameService.SettleRound | src/main/java/com/yolo/guessnumber/service/GameService.java:82-85 | Betting is closed and the bet objects now hold the payouts settled for the draw. The result carries the draw and a winners list of the settled bets, and each bettor gets their personal result |
| Game.GameService.ResolveRound | src/main/java/com/yolo/guessnumber/service/GameService.java:82-87 | After resolution both flags are false and no bets remain. The personal results reflect the bets settled for the draw. ROUND_END went once to each open connection, and a failed personal send does not affect the ROUND_END send |

## Left out

- The scheduler is not modelled: the executor, `startGameLoop`, the fixed-delay repetition of rounds and the real delays. A round is modelled as explicit steps (`BeginRound`, `FireCountdown`, `ResolveRound`), and its countdown tasks are values.
- Concurrency between inbound bets, connection events and the timer thread is not modelled, and neither is the weak consistency of concurrent-map iteration. The registries are plain maps changed one operation at a time.
- The wall clock is a parameter (`nowMs`), and the random draw is a parameter in 1..10.
- IEEE `double` rounding of `betAmount * 9.9` is not modelled; amounts are exact reals.
- Game.GameService.AddSession: the narrowing `(int)` cast of the `long` time left is not modelled. The model's integers are unbounded.
- Game.GameService.BroadcastResult: the congratulation text (`Game.ResultText`) stops before the amount. Java's decimal rendering of a `double` is not modelled; the amount itself travels in the `winning` field.
- Game.GameService.ProcessPlayerBet: requires that a submitter outside betting is registered. The code passes a null session to the send in that case and throws. It does not state that an exception from the ERROR send reaches the caller; the model records the send as not delivered, which leaves the same state.
- Transport and serialisation are not modelled: JSON encoding of events and the socket write, the transport callbacks, the request validator and the greeting controller. A decoded bet submission is the model's `BetRequest`. A connection is its id plus an "open" flag, and `MarkClosed` stands for the transport closing it.
- Removing a session takes its id; the null-pointer failure of a null session object is not modelled.
- Console logging is not modelled.
- The statistical return-to-player simulation test is not modelled; `Payouts.ReturnToPlayer` states the exact expectation instead.
