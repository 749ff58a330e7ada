/** History pages: a transcript cut at its user turns, and the rendering of a page with the whole transcript's lookups. */
module HistoryPages {
  const DEFAULT_TURNS := 60
  const MAX_TURNS := 200

  function Limit(limit: int): (n: nat)
    ensures 1 <= n <= MAX_TURNS && (1 <= limit <= MAX_TURNS ==> n == limit)
    ensures limit <= 0 ==> n == DEFAULT_TURNS
    ensures limit > MAX_TURNS ==> n == MAX_TURNS
  {
    if limit <= 0 then DEFAULT_TURNS else if limit > MAX_TURNS then MAX_TURNS else limit
  }

  // ---- Cutting at user turns ----

  /** User messages among the first `n`. */
  function Users<T>(user: T -> bool, items: seq<T>, n: nat): (k: nat)
    requires n <= |items|
    ensures k <= n
  {
    if n == 0 then 0 else Users(user, items, n - 1) + if user(items[n - 1]) then 1 else 0
  }

  function Total<T>(user: T -> bool, items: seq<T>): nat {
    Users(user, items, |items|)
  }

  /** The turn a message belongs to; what comes before the first user message goes with turn 0. */
  function TurnOf<T>(user: T -> bool, items: seq<T>, i: nat): nat
    requires i < |items|
  {
    var k := Users(user, items, i + 1);
    if k == 0 then 0 else k - 1
  }

  /** The messages of turns `start` up to but not including `end`. */
  function Range<T>(user: T -> bool, items: seq<T>, start: nat, end: nat, n: nat): seq<T>
    requires n <= |items|
  {
    if n == 0 then []
    else Range(user, items, start, end, n - 1) + if start <= TurnOf(user, items, n - 1) < end then [items[n - 1]] else []
  }

  /** `transcriptMessagesForVisibleTurnRange` and `historyMessagesForTurnRange`, for a range that is not empty. */
  method TurnRange<T>(user: T -> bool, items: seq<T>, start: nat, end: nat) returns (out: seq<T>)
    requires start < end
    ensures out == Range(user, items, start, end, |items|)
  {
    out := [];
    var turn := -1;
    for i := 0 to |items|
      invariant turn == Users(user, items, i) - 1
      invariant out == Range(user, items, start, end, i)
    {
      var item := items[i];
      if user(item) {
        turn := turn + 1;
      }
      if turn < 0 {
        if start == 0 {
          out := out + [item];
        }
      } else if turn >= start && turn < end {
        out := out + [item];
      }
    }
  }

  /** Where the messages of a turn begin. */
  function Cut<T>(user: T -> bool, items: seq<T>, turn: nat, n: nat): (c: nat)
    requires n <= |items|
    ensures c <= n
  {
    if n == 0 then 0
    else if TurnOf(user, items, n - 1) < turn then n
    else Cut(user, items, turn, n - 1)
  }

  function CutAt<T>(user: T -> bool, items: seq<T>, turn: nat): (c: nat)
    ensures c <= |items|
  {
    Cut(user, items, turn, |items|)
  }

  lemma {:induction false} TurnsGrow<T>(user: T -> bool, items: seq<T>, i: nat, j: nat)
    requires i <= j < |items|
    ensures TurnOf(user, items, i) <= TurnOf(user, items, j)
    decreases j
  {
    if i < j {
      TurnsGrow(user, items, i, j - 1);
    }
  }

  lemma {:induction false} CutSplits<T>(user: T -> bool, items: seq<T>, turn: nat, n: nat, i: nat)
    requires i < n <= |items|
    ensures i < Cut(user, items, turn, n) <==> TurnOf(user, items, i) < turn
  {
    TurnsGrow(user, items, i, n - 1);
    if TurnOf(user, items, n - 1) >= turn && i < n - 1 {
      CutSplits(user, items, turn, n - 1, i);
    }
  }

  /** A range of turns is a slice of the transcript. */
  lemma {:induction false} RangeIsSlice<T>(user: T -> bool, items: seq<T>, start: nat, end: nat, n: nat)
    requires start <= end && n <= |items|
    ensures Cut(user, items, start, n) <= Cut(user, items, end, n)
    ensures Range(user, items, start, end, n) == items[Cut(user, items, start, n)..Cut(user, items, end, n)]
  {
    if n > 0 {
      RangeIsSlice(user, items, start, end, n - 1);
      var a, b := Cut(user, items, start, n - 1), Cut(user, items, end, n - 1);
      if n > 1 {
        CutSplits(user, items, start, n - 1, n - 2);
        CutSplits(user, items, end, n - 1, n - 2);
        TurnsGrow(user, items, n - 2, n - 1);
      }
      if start <= TurnOf(user, items, n - 1) < end {
        assert b == n - 1;
        assert items[a..n - 1] + [items[n - 1]] == items[a..n];
      }
    }
  }

  lemma {:induction false} TurnsBelowTotal<T>(user: T -> bool, items: seq<T>, i: nat)
    requires i < |items| && Total(user, items) > 0
    ensures TurnOf(user, items, i) < Total(user, items)
  {
    TurnsGrow(user, items, i, |items| - 1);
  }

  lemma CutEnds<T>(user: T -> bool, items: seq<T>)
    ensures CutAt(user, items, 0) == 0
    ensures Total(user, items) > 0 ==> CutAt(user, items, Total(user, items)) == |items|
  {
    if items != [] {
      CutSplits(user, items, 0, |items|, 0);
      if Total(user, items) > 0 {
        TurnsBelowTotal(user, items, |items| - 1);
      }
    }
  }

  function UserPlaces<T>(user: T -> bool, items: seq<T>, n: nat): set<nat>
    requires n <= |items|
  {
    set i: nat | i < n && user(items[i])
  }

  lemma {:induction false} UsersCounted<T>(user: T -> bool, items: seq<T>, n: nat)
    requires n <= |items|
    ensures Users(user, items, n) == |UserPlaces(user, items, n)|
  {
    if n > 0 {
      UsersCounted(user, items, n - 1);
      var before, last := UserPlaces(user, items, n - 1), if user(items[n - 1]) then {n - 1} else {};
      assert UserPlaces(user, items, n) == before + last && before !! last;
    }
  }

  /** A turn begins at a user message with as many before it as its number says. */
  lemma CutIsUser<T>(user: T -> bool, items: seq<T>, turn: nat)
    requires turn <= Total(user, items)
    ensures var c := CutAt(user, items, turn);
      && Users(user, items, c) == turn
      && (0 < turn < Total(user, items) ==> c < |items| && user(items[c]))
  {
    var c := CutAt(user, items, turn);
    CutEnds(user, items);
    if 0 < turn < Total(user, items) {
      TurnsBelowTotal(user, items, |items| - 1);
      CutSplits(user, items, turn, |items|, |items| - 1);
      CutSplits(user, items, turn, |items|, 0);
      CutSplits(user, items, turn, |items|, c);
      CutSplits(user, items, turn, |items|, c - 1);
    }
  }

  lemma {:induction false} SliceUsers<T>(user: T -> bool, items: seq<T>, a: nat, b: nat)
    requires a <= b <= |items|
    ensures Total(user, items[a..b]) == Users(user, items, b) - Users(user, items, a)
    decreases b
  {
    if a < b {
      SliceUsers(user, items, a, b - 1);
      assert items[a..b] == items[a..b - 1] + [items[b - 1]];
      UsersOfPrefix(user, items[a..b], items[a..b - 1], b - a - 1);
    }
  }

  lemma {:induction false} UsersOfPrefix<T>(user: T -> bool, items: seq<T>, prefix: seq<T>, n: nat)
    requires n <= |prefix| && prefix <= items
    ensures Users(user, items, n) == Users(user, prefix, n)
  {
    if n > 0 {
      UsersOfPrefix(user, items, prefix, n - 1);
    }
  }

  // ---- Pages ----

  datatype Page<T> = Page(startTurn: nat, endTurn: nat, totalTurns: nat, hasOlder: bool, messages: seq<T>)

  function EndTurn(total: nat, beforeTurn: int): (e: nat)
    ensures e <= total && (0 < beforeTurn <= total ==> e == beforeTurn)
  {
    if beforeTurn <= 0 || beforeTurn > total then total else beforeTurn
  }

  function StartTurn(end: nat, limit: int): (s: nat)
    ensures s <= end && (end > 0 ==> s < end)
  {
    if end > Limit(limit) then end - Limit(limit) else 0
  }

  /** The transcript page before a turn. */
  function PageOf<T>(user: T -> bool, items: seq<T>, beforeTurn: int, limit: int): Page<T> {
    var end := EndTurn(Total(user, items), beforeTurn);
    var start := StartTurn(end, limit);
    var messages := if items == [] || start >= end then [] else Range(user, items, start, end, |items|);
    Page(start, end, Total(user, items), start > 0, messages)
  }

  /** Paging back from a turn until there is nothing older, oldest page first. */
  function Walk<T>(user: T -> bool, items: seq<T>, beforeTurn: int, limit: int): (pages: seq<Page<T>>)
    ensures |pages| > 0
    decreases EndTurn(Total(user, items), beforeTurn)
  {
    var page := PageOf(user, items, beforeTurn, limit);
    if page.hasOlder then Walk(user, items, page.startTurn, limit) + [page] else [page]
  }

  function Joined<T>(pages: seq<Page<T>>): seq<T> {
    if pages == [] then [] else Joined(pages[..|pages| - 1]) + pages[|pages| - 1].messages
  }

  lemma PageSlice<T>(user: T -> bool, items: seq<T>, beforeTurn: int, limit: int)
    requires Total(user, items) > 0
    ensures var p := PageOf(user, items, beforeTurn, limit);
      && CutAt(user, items, p.startTurn) <= CutAt(user, items, p.endTurn)
      && p.messages == items[CutAt(user, items, p.startTurn)..CutAt(user, items, p.endTurn)]
  {
    var p := PageOf(user, items, beforeTurn, limit);
    RangeIsSlice(user, items, p.startTurn, p.endTurn, |items|);
  }

  /** A page holds as many user turns as its bounds say, at least one and no more than were asked for; unless it is the
      oldest it begins with a user message. */
  lemma PageHoldsTurns<T>(user: T -> bool, items: seq<T>, beforeTurn: int, limit: int)
    requires Total(user, items) > 0
    ensures var p := PageOf(user, items, beforeTurn, limit);
      && p.totalTurns == |UserPlaces(user, items, |items|)|
      && |UserPlaces(user, p.messages, |p.messages|)| == p.endTurn - p.startTurn
      && 0 < p.endTurn - p.startTurn <= Limit(limit)
      && p.endTurn == (if 0 < beforeTurn <= p.totalTurns then beforeTurn else p.totalTurns)
      && (p.hasOlder <==> p.startTurn > 0)
      && (p.hasOlder ==> p.endTurn - p.startTurn == Limit(limit) && user(p.messages[0]))
  {
    var p := PageOf(user, items, beforeTurn, limit);
    UsersCounted(user, items, |items|);
    UsersCounted(user, p.messages, |p.messages|);
    PageSlice(user, items, beforeTurn, limit);
    CutIsUser(user, items, p.startTurn);
    CutIsUser(user, items, p.endTurn);
    var a, b := CutAt(user, items, p.startTurn), CutAt(user, items, p.endTurn);
    SliceUsers(user, items, a, b);
    hide CutAt, Range, UserPlaces;
    assert a < b;
  }

  /** Walking back collects exactly the transcript up to where the walk began. */
  lemma {:induction false} WalkJoins<T>(user: T -> bool, items: seq<T>, beforeTurn: int, limit: int)
    requires Total(user, items) > 0
    ensures var end := EndTurn(Total(user, items), beforeTurn);
            Joined(Walk(user, items, beforeTurn, limit)) == items[..CutAt(user, items, end)]
    decreases EndTurn(Total(user, items), beforeTurn)
  {
    var page := PageOf(user, items, beforeTurn, limit);
    PageSlice(user, items, beforeTurn, limit);
    CutEnds(user, items);
    if page.hasOlder {
      WalkJoins(user, items, page.startTurn, limit);
      var older := Walk(user, items, page.startTurn, limit);
      assert (older + [page])[..|older|] == older;
    } else {
      assert [page][..0] == [];
    }
  }

  /** The pages from the latest to the oldest are the whole transcript, and there are no more of them than needed. */
  lemma WholeWalk<T>(user: T -> bool, items: seq<T>, limit: int)
    requires Total(user, items) > 0
    ensures Joined(Walk(user, items, 0, limit)) == items
    ensures var pages := |Walk(user, items, 0, limit)|;
            (pages - 1) * Limit(limit) < Total(user, items) <= pages * Limit(limit)
  {
    WalkJoins(user, items, 0, limit);
    CutEnds(user, items);
    WalkLength(user, items, 0, limit);
  }

  lemma {:induction false} WalkLength<T>(user: T -> bool, items: seq<T>, beforeTurn: int, limit: int)
    requires Total(user, items) > 0
    ensures var pages := |Walk(user, items, beforeTurn, limit)|;
            (pages - 1) * Limit(limit) < EndTurn(Total(user, items), beforeTurn) <= pages * Limit(limit)
    decreases EndTurn(Total(user, items), beforeTurn)
  {
    var page, n := PageOf(user, items, beforeTurn, limit), Limit(limit);
    hide Range, Total;
    if page.hasOlder {
      WalkLength(user, items, page.startTurn, limit);
      var older := |Walk(user, items, page.startTurn, limit)|;
      OneMore(older, n, page.startTurn);
    }
  }

  lemma OneMore(pages: nat, n: nat, turns: nat)
    requires (pages - 1) * n < turns <= pages * n
    ensures pages * n < turns + n <= (pages + 1) * n
  {
    assert (pages + 1) * n == pages * n + n;
    assert (pages - 1) * n == pages * n - n;
  }

  /** A transcript without a single user turn has an empty page, whatever it holds. */
  lemma NoUserTurnShowsNothing<T>(user: T -> bool, items: seq<T>, beforeTurn: int, limit: int)
    requires Total(user, items) == 0
    ensures Joined(Walk(user, items, beforeTurn, limit)) == []
  {
    var page := PageOf(user, items, beforeTurn, limit);
    assert [page][..0] == [];
  }
}
