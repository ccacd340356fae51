/** The parts of the page logic that carry rules: the countdown text and its
    colour class, and the five-entry leaderboard ordered by time. */
module Display {
  import opened Text
  import opened Clock

  // ----- the countdown -----

  /** The class the countdown carries: none, `warning` or `danger`. */
  datatype TimerStyle = Plain | Warning | Danger

  function Severity(s: TimerStyle): nat {
    match s
    case Plain => 0
    case Warning => 1
    case Danger => 2
  }

  /** The class for a number of remaining seconds: danger at 30 or less,
      warning up to two minutes, none above. */
  function StyleFor(seconds: int): (r: TimerStyle)
    ensures r == Danger <==> seconds <= 30
    ensures r == Warning <==> 30 < seconds <= 120
    ensures r == Plain <==> 120 < seconds
  {
    if seconds <= 30 then Danger else if seconds <= 120 then Warning else Plain
  }

  /** As the countdown runs down the class only ever escalates. */
  lemma StyleEscalates(later: int, earlier: int)
    requires later <= earlier
    ensures Severity(StyleFor(earlier)) <= Severity(StyleFor(later))
  {
  }

  /** The countdown element and the page container's danger flag. */
  class TimerDisplay {
    var text: string
    var style: TimerStyle
    var containerDanger: bool

    constructor ()
      ensures text == "" && style == Plain && !containerDanger
    {
      text := "";
      style := Plain;
      containerDanger := false;
    }

    /** Shows the remaining time as "m:ss" and sets the class afresh; the
        container's danger flag is raised at 30 seconds or less and never
        cleared here. */
    method UpdateTimer(seconds: int)
      modifies this
      ensures text == FormatClock(seconds)
      ensures style == StyleFor(seconds)
      ensures containerDanger == (old(containerDanger) || seconds <= 30)
    {
      var minutes := seconds / 60;
      var secs := JsRem60(seconds);
      text := IntToString(minutes) + ":" + PadStart2(IntToString(secs));
      style := Plain;
      if seconds <= 30 {
        style := Danger;
        containerDanger := true;
      } else if seconds <= 120 {
        style := Warning;
      }
    }

    /** The game's reset removes the container's danger class. */
    method ClearContainerDanger()
      modifies this
      ensures !containerDanger && text == old(text) && style == old(style)
    {
      containerDanger := false;
    }
  }

  // ----- the leaderboard -----

  /** One stored result: the "m:ss" time to freedom, the message count, the
      persona's name and the date it was recorded. */
  datatype Entry = Entry(time: string, messages: nat, personality: string, date: string)

  /** The entry's time reads as a number of seconds. */
  predicate Timed(e: Entry) {
    ParseClock(e.time).Some?
  }

  predicate AllTimed(s: seq<Entry>) {
    forall i :: 0 <= i < |s| ==> Timed(s[i])
  }

  /** The sort key, `timeToSeconds` of the entry's time (only ever applied to
      timed entries). */
  function Seconds(e: Entry): nat {
    match ParseClock(e.time)
    case Some(v) => v
    case None => 0
  }

  // The ordering facts below hold for any numeric key; the board uses Seconds.

  /** Ascending by key. */
  predicate Sorted(s: seq<Entry>, key: Entry -> nat) {
    forall i, j :: 0 <= i < j < |s| ==> key(s[i]) <= key(s[j])
  }

  /** Places x after every entry whose key is not greater than its own, which
      is where a stable sort leaves an element that comes after all of them. */
  function InsertBy(x: Entry, s: seq<Entry>, key: Entry -> nat): (r: seq<Entry>)
    ensures |r| == |s| + 1
  {
    if s == [] then [x]
    else if key(x) < key(s[0]) then [x] + s
    else [s[0]] + InsertBy(x, s[1..], key)
  }

  /** Insertion adds x and nothing else. */
  lemma {:induction false} InsertByPermutes(x: Entry, s: seq<Entry>, key: Entry -> nat)
    ensures multiset(InsertBy(x, s, key)) == multiset(s) + multiset{x}
    decreases |s|
  {
    if s != [] && key(x) >= key(s[0]) {
      InsertByPermutes(x, s[1..], key);
      assert s == [s[0]] + s[1..];
    }
  }

  predicate AllAtLeast(s: seq<Entry>, key: Entry -> nat, b: nat) {
    forall i :: 0 <= i < |s| ==> b <= key(s[i])
  }

  /** A bound below x and below every entry of s stays below the insertion. */
  lemma {:induction false} InsertKeepsBound(x: Entry, s: seq<Entry>, key: Entry -> nat, b: nat)
    requires b <= key(x) && AllAtLeast(s, key, b)
    ensures AllAtLeast(InsertBy(x, s, key), key, b)
    decreases |s|
  {
    if s != [] && key(x) >= key(s[0]) {
      InsertKeepsBound(x, s[1..], key, b);
    }
  }

  /** Insertion into an ordered list keeps it ordered. */
  lemma {:induction false} InsertKeepsSorted(x: Entry, s: seq<Entry>, key: Entry -> nat)
    requires Sorted(s, key)
    ensures Sorted(InsertBy(x, s, key), key)
    decreases |s|
  {
    if s != [] && key(x) >= key(s[0]) {
      InsertKeepsSorted(x, s[1..], key);
      InsertKeepsBound(x, s[1..], key, key(s[0]));
      var rest := InsertBy(x, s[1..], key);
      var r := [s[0]] + rest;
      forall i, j | 0 <= i < j < |r|
        ensures key(r[i]) <= key(r[j])
      {
        if i > 0 { assert r[i] == rest[i - 1]; }
        assert r[j] == rest[j - 1];
      }
    }
  }

  /** The stable sort by key, as `sort` with the comparator `key(a) - key(b)`:
      each element in turn is placed after the ones before it that it does not
      precede. */
  function SortBy(s: seq<Entry>, key: Entry -> nat): (r: seq<Entry>)
    ensures |r| == |s|
  {
    if s == [] then [] else InsertBy(s[|s| - 1], SortBy(s[..|s| - 1], key), key)
  }

  /** The sorted list is in order. */
  lemma {:induction false} SortBySorted(s: seq<Entry>, key: Entry -> nat)
    ensures Sorted(SortBy(s, key), key)
    decreases |s|
  {
    if s != [] {
      SortBySorted(s[..|s| - 1], key);
      InsertKeepsSorted(s[|s| - 1], SortBy(s[..|s| - 1], key), key);
    }
  }

  /** The sorted list is a rearrangement of the original: nothing is added or lost. */
  lemma {:induction false} SortByPermutes(s: seq<Entry>, key: Entry -> nat)
    ensures multiset(SortBy(s, key)) == multiset(s)
    decreases |s|
  {
    if s != [] {
      var init := s[..|s| - 1];
      SortByPermutes(init, key);
      InsertByPermutes(s[|s| - 1], SortBy(init, key), key);
      assert init + [s[|s| - 1]] == s;
    }
  }

  /** The entries of s whose key is k, in their order in s. */
  function WithKey(s: seq<Entry>, key: Entry -> nat, k: nat): seq<Entry> {
    if s == [] then []
    else (if key(s[0]) == k then [s[0]] else []) + WithKey(s[1..], key, k)
  }

  lemma {:induction false} WithKeySnoc(s: seq<Entry>, x: Entry, key: Entry -> nat, k: nat)
    ensures WithKey(s + [x], key, k) == WithKey(s, key, k) + (if key(x) == k then [x] else [])
    decreases |s|
  {
    if s == [] {
      var one: seq<Entry> := [x];
      assert one[1..] == [];
      assert [] + [x] == [x];
    } else {
      var head: seq<Entry> := if key(s[0]) == k then [s[0]] else [];
      var tail: seq<Entry> := if key(x) == k then [x] else [];
      assert (s + [x])[0] == s[0];
      assert (s + [x])[1..] == s[1..] + [x];
      WithKeySnoc(s[1..], x, key, k);
      assert WithKey(s + [x], key, k) == head + (WithKey(s[1..], key, k) + tail);
      assert head + (WithKey(s[1..], key, k) + tail) == (head + WithKey(s[1..], key, k)) + tail;
    }
  }

  /** Among the entries of one key, insertion puts x last. */
  lemma {:induction false} WithKeyInsert(x: Entry, s: seq<Entry>, key: Entry -> nat, k: nat)
    requires Sorted(s, key)
    ensures WithKey(InsertBy(x, s, key), key, k) == WithKey(s, key, k) + (if key(x) == k then [x] else [])
    decreases |s|
  {
    if s == [] {
      var one: seq<Entry> := [x];
      assert one[1..] == [];
    } else if key(x) < key(s[0]) {
      assert ([x] + s)[1..] == s;
      if key(x) == k {
        NoneBelowHead(s, key, k);
      }
    } else {
      var rest := InsertBy(x, s[1..], key);
      var head: seq<Entry> := if key(s[0]) == k then [s[0]] else [];
      var tail: seq<Entry> := if key(x) == k then [x] else [];
      assert ([s[0]] + rest)[1..] == rest;
      WithKeyInsert(x, s[1..], key, k);
      assert WithKey(rest, key, k) == WithKey(s[1..], key, k) + tail;
      assert head + (WithKey(s[1..], key, k) + tail) == (head + WithKey(s[1..], key, k)) + tail;
    }
  }

  /** In a sorted list headed by an entry with a larger key, nothing has key k. */
  lemma {:induction false} NoneBelowHead(s: seq<Entry>, key: Entry -> nat, k: nat)
    requires Sorted(s, key) && s != [] && k < key(s[0])
    ensures WithKey(s, key, k) == []
    decreases |s|
  {
    if |s| > 1 {
      NoneBelowHead(s[1..], key, k);
    }
  }

  /** Stability: the sort keeps the relative order of entries with equal keys. */
  lemma {:induction false} SortKeepsTies(s: seq<Entry>, key: Entry -> nat, k: nat)
    ensures WithKey(SortBy(s, key), key, k) == WithKey(s, key, k)
    decreases |s|
  {
    if s != [] {
      var init := s[..|s| - 1];
      SortKeepsTies(init, key, k);
      SortBySorted(init, key);
      WithKeyInsert(s[|s| - 1], SortBy(init, key), key, k);
      WithKeySnoc(init, s[|s| - 1], key, k);
      assert init + [s[|s| - 1]] == s;
    }
  }

  /** A list already in order is left as it is. */
  lemma {:induction false} SortSortedIsIdentity(s: seq<Entry>, key: Entry -> nat)
    requires Sorted(s, key)
    ensures SortBy(s, key) == s
    decreases |s|
  {
    if s != [] {
      var init := s[..|s| - 1];
      SortSortedIsIdentity(init, key);
      AppendLargest(init, s[|s| - 1], key);
      assert init + [s[|s| - 1]] == s;
    }
  }

  lemma {:induction false} AppendLargest(s: seq<Entry>, x: Entry, key: Entry -> nat)
    requires forall i :: 0 <= i < |s| ==> key(s[i]) <= key(x)
    ensures InsertBy(x, s, key) == s + [x]
    decreases |s|
  {
    if s != [] {
      AppendLargest(s[1..], x, key);
      assert [s[0]] + (s[1..] + [x]) == s + [x];
    }
  }

  const BoardSize: nat := 5

  /** `slice(0, 5)`. */
  function Top(s: seq<Entry>): (r: seq<Entry>)
    ensures r <= s
    ensures |r| == if |s| < BoardSize then |s| else BoardSize
  {
    if |s| < BoardSize then s else s[..BoardSize]
  }

  /** The record made of a finished game's statistics. */
  function NewEntry(timeToFreedom: string, messagesSent: nat, personality: string, date: string): Entry {
    Entry(timeToFreedom, messagesSent, personality, date)
  }

  /** Appends the new result to the stored list, sorts by time and keeps the
      five fastest. `stored` is what local storage held and `date` the day's
      date; the returned list is what is written back and shown. */
  method UpdateLeaderboard(stored: seq<Entry>, timeToFreedom: string, messagesSent: nat,
                           personality: string, date: string) returns (board: seq<Entry>)
    requires AllTimed(stored) && ParseClock(timeToFreedom).Some?
    ensures board == Top(SortBy(stored + [NewEntry(timeToFreedom, messagesSent, personality, date)], Seconds))
    ensures |board| == if |stored| + 1 < BoardSize then |stored| + 1 else BoardSize
  {
    var leaderboard := stored + [NewEntry(timeToFreedom, messagesSent, personality, date)];
    leaderboard := SortBy(leaderboard, Seconds);
    leaderboard := Top(leaderboard);
    board := leaderboard;
  }

  /** What the board holds: at most five entries, fastest first, every one of
      them taken from the stored list or the new result, all of them while
      fewer than five were stored, and none slower than an entry cut off. */
  lemma BoardIsFrontOfSortedWhole(stored: seq<Entry>, x: Entry)
    ensures var all := SortBy(stored + [x], Seconds);
            var board := Top(all);
            && |board| <= BoardSize
            && Sorted(board, Seconds)
            && multiset(board) <= multiset(stored) + multiset{x}
            && (|stored| < BoardSize ==> multiset(board) == multiset(stored) + multiset{x})
            && forall i, j :: 0 <= i < |board| <= j < |all| ==> Seconds(board[i]) <= Seconds(all[j])
  {
    var all := SortBy(stored + [x], Seconds);
    SortBySorted(stored + [x], Seconds);
    SortByPermutes(stored + [x], Seconds);
    FrontOfSorted(all, Seconds);
  }

  /** The first five of an ordered list are ordered, are drawn from it, and
      precede the rest. */
  lemma FrontOfSorted(all: seq<Entry>, key: Entry -> nat)
    requires Sorted(all, key)
    ensures var board := Top(all);
            && Sorted(board, key)
            && multiset(board) <= multiset(all)
            && (|all| <= BoardSize ==> board == all)
            && forall i, j :: 0 <= i < |board| <= j < |all| ==> key(board[i]) <= key(all[j])
  {
    var board := Top(all);
    var rest := all[|board|..];
    assert board + rest == all;
    assert multiset(all) == multiset(board) + multiset(rest);
  }

  /** A new result tied with stored ones is ranked after all of them. */
  lemma NewEntryAfterTies(stored: seq<Entry>, x: Entry)
    ensures WithKey(SortBy(stored + [x], Seconds), Seconds, Seconds(x)) == WithKey(stored, Seconds, Seconds(x)) + [x]
  {
    SortKeepsTies(stored + [x], Seconds, Seconds(x));
    WithKeySnoc(stored, x, Seconds, Seconds(x));
  }

  /** When the stored list is already in order (as every list this method
      writes is), the update is the insertion of the new result followed by
      the cut to five. */
  lemma UpdateOfSortedBoard(stored: seq<Entry>, x: Entry)
    requires Sorted(stored, Seconds)
    ensures Top(SortBy(stored + [x], Seconds)) == Top(InsertBy(x, stored, Seconds))
  {
    var all := stored + [x];
    assert all[..|all| - 1] == stored;
    SortSortedIsIdentity(stored, Seconds);
  }

  /** Every time the game records reads back, so its statistics can always be
      ranked, by the number of seconds they stand for. */
  lemma RecordedTimeIsTimed(elapsed: nat, messagesSent: nat, personality: string, date: string)
    ensures Timed(NewEntry(FormatClock(elapsed), messagesSent, personality, date))
    ensures Seconds(NewEntry(FormatClock(elapsed), messagesSent, personality, date)) == elapsed
  {
    ClockRoundTrip(elapsed);
  }
}
