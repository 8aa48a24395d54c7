/**
 * The winners list of a round (calculateWinners): the bets with a positive
 * payout, as (nickname, winning) pairs, ordered by winning from largest to
 * smallest. The order among equal winnings is left open, because the bets
 * are read in the unspecified iteration order of a hash map.
 */
module Ranking {
  import opened Responses
  import opened Bets

  /** The winners-list entry of one bet. */
  function WinnerOf(b: BetRecord): Winner
  {
    Winner(b.nickname, b.winAmount)
  }

  /** Filter to positive payouts, then map to entries, keeping the encounter order. */
  function WinnersOf(bets: seq<BetRecord>): seq<Winner>
  {
    if bets == [] then []
    else if bets[0].winAmount > 0.0 then [WinnerOf(bets[0])] + WinnersOf(bets[1..])
    else WinnersOf(bets[1..])
  }

  /** Non-increasing by winning. */
  ghost predicate Sorted(ws: seq<Winner>)
  {
    forall i, j :: 0 <= i < j < |ws| ==> ws[i].winning >= ws[j].winning
  }

  /** Places `w` ahead of the first entry that does not win more than it. */
  function Insert(w: Winner, ws: seq<Winner>): (r: seq<Winner>)
    ensures multiset(r) == multiset(ws) + multiset{w}
    ensures r != [] && (r[0] == w || (ws != [] && r[0] == ws[0]))
  {
    if ws == [] || w.winning >= ws[0].winning then
      [w] + ws
    else
      assert ws == [ws[0]] + ws[1..];
      [ws[0]] + Insert(w, ws[1..])
  }

  /** A sorted list stays sorted under an entry that wins at least as much as its head. */
  lemma ConsSorted(a: Winner, rest: seq<Winner>)
    requires Sorted(rest)
    requires rest != [] ==> a.winning >= rest[0].winning
    ensures Sorted([a] + rest)
  {
    var r := [a] + rest;
    forall i, j | 0 <= i < j < |r|
      ensures r[i].winning >= r[j].winning
    {
      if i == 0 && j > 1 {
        assert rest[0].winning >= rest[j - 1].winning;
      }
    }
  }

  /** Inserting into a sorted list keeps it sorted. */
  lemma {:induction false} InsertSorted(w: Winner, ws: seq<Winner>)
    requires Sorted(ws)
    ensures Sorted(Insert(w, ws))
  {
    if ws == [] || w.winning >= ws[0].winning {
      ConsSorted(w, ws);
    } else {
      var rest := Insert(w, ws[1..]);
      InsertSorted(w, ws[1..]);
      assert rest[0] == w || rest[0] == ws[1];
      ConsSorted(ws[0], rest);
    }
  }

  /** A stable sort by winning, largest first. */
  function SortByWinning(ws: seq<Winner>): (r: seq<Winner>)
    ensures Sorted(r)
    ensures multiset(r) == multiset(ws)
  {
    if ws == [] then []
    else
      var rest := SortByWinning(ws[1..]);
      InsertSorted(ws[0], rest);
      assert ws == [ws[0]] + ws[1..];
      Insert(ws[0], rest)
  }

  /** The stream pipeline over the bets in the order they are read. */
  function RankWinners(bets: seq<BetRecord>): (r: seq<Winner>)
    ensures Sorted(r)
    ensures multiset(r) == multiset(WinnersOf(bets))
  {
    SortByWinning(WinnersOf(bets))
  }

  /** An entry is in WinnersOf exactly when some bet with a positive payout yields it. */
  lemma {:induction false} WinnersOfMembers(bets: seq<BetRecord>, w: Winner)
    ensures w in WinnersOf(bets) <==> exists b :: b in bets && b.winAmount > 0.0 && w == WinnerOf(b)
  {
    if bets != [] {
      WinnersOfMembers(bets[1..], w);
      assert bets == [bets[0]] + bets[1..];
      assert forall b :: b in bets <==> b == bets[0] || b in bets[1..];
    }
  }

  /** `order` lists each key of a map exactly once. */
  ghost predicate IsEnumeration(order: seq<string>, keys: set<string>)
  {
    && (forall i, j :: 0 <= i < j < |order| ==> order[i] != order[j])
    && (forall k :: k in order <==> k in keys)
  }

  /** The values of `view` read in the key order `order`. */
  function Along(order: seq<string>, view: map<string, BetRecord>): (r: seq<BetRecord>)
    requires forall k :: k in order ==> k in view
    ensures |r| == |order|
    ensures forall i :: 0 <= i < |order| ==> r[i] == view[order[i]]
  {
    if order == [] then [] else [view[order[0]]] + Along(order[1..], view)
  }

  /**
   * `ws` is a winners list of the bets in `view`: sorted by winning, largest
   * first, and a permutation of the positive-payout entries read in some
   * iteration order of the map.
   */
  ghost predicate IsRanking(ws: seq<Winner>, view: map<string, BetRecord>)
  {
    && Sorted(ws)
    && exists order :: IsEnumeration(order, view.Keys) && multiset(ws) == multiset(WinnersOf(Along(order, view)))
  }

  /** A bet is read along `order` exactly when its key is in `order`. */
  lemma AlongMembers(order: seq<string>, view: map<string, BetRecord>, b: BetRecord)
    requires forall k :: k in order ==> k in view
    ensures b in Along(order, view) <==> exists id :: id in order && view[id] == b
  {
    var bets := Along(order, view);
    if b in bets {
      var i :| 0 <= i < |bets| && bets[i] == b;
      assert order[i] in order && view[order[i]] == b;
    }
  }

  /** An entry is in a winners list exactly when some bet of the map with a positive payout yields it. */
  lemma RankingMember(ws: seq<Winner>, view: map<string, BetRecord>, w: Winner)
    requires IsRanking(ws, view)
    ensures w in ws <==> exists id :: id in view && view[id].winAmount > 0.0 && w == WinnerOf(view[id])
  {
    var order :| IsEnumeration(order, view.Keys) && multiset(ws) == multiset(WinnersOf(Along(order, view)));
    var bets := Along(order, view);
    assert w in ws <==> w in WinnersOf(bets) by {
      assert w in ws <==> w in multiset(ws);
      assert w in WinnersOf(bets) <==> w in multiset(WinnersOf(bets));
    }
    WinnersOfMembers(bets, w);
    if w in ws {
      var b :| b in bets && b.winAmount > 0.0 && w == WinnerOf(b);
      AlongMembers(order, view, b);
      var id :| id in order && view[id] == b;
      assert id in view && view[id].winAmount > 0.0 && w == WinnerOf(view[id]);
    } else {
      forall id | id in view && view[id].winAmount > 0.0
        ensures w != WinnerOf(view[id])
      {
        AlongMembers(order, view, view[id]);
      }
    }
  }

  /**
   * What a winners list holds: every entry comes from a bet of the map with
   * a positive payout and carries that payout, and every bet with a positive
   * payout is in it.
   */
  lemma RankingMembers(ws: seq<Winner>, view: map<string, BetRecord>)
    requires IsRanking(ws, view)
    ensures forall w :: w in ws ==> w.winning > 0.0
    ensures forall id :: id in view && view[id].winAmount > 0.0 ==> WinnerOf(view[id]) in ws
    ensures forall w :: w in ws ==> exists id :: id in view && view[id].winAmount > 0.0 && w == WinnerOf(view[id])
  {
    forall w | w in ws
      ensures w.winning > 0.0
      ensures exists id :: id in view && view[id].winAmount > 0.0 && w == WinnerOf(view[id])
    {
      RankingMember(ws, view, w);
    }
    forall id | id in view && view[id].winAmount > 0.0
      ensures WinnerOf(view[id]) in ws
    {
      RankingMember(ws, view, WinnerOf(view[id]));
    }
  }
}
