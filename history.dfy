/** The list of recent check-ins: newest first, at most five entries. */
module History {
  import opened Types

  /** How many check-ins the page keeps. */
  const MaxHistory: nat := 5

  function Min(a: int, b: int): int { if a <= b then a else b }

  /** JavaScript's `s.slice(0, n)`: the first `n` elements, or all of `s` when it is shorter. */
  function Take<T>(s: seq<T>, n: nat): (r: seq<T>)
    ensures |r| == Min(|s|, n)
    ensures r == s[..|r|]
  {
    if |s| <= n then s else s[..n]
  }

  /** The history after a successful check-in: the new entry in front of the old list,
      cut back to `MaxHistory` entries. */
  function PushHistory(entry: CheckInData, history: seq<CheckInData>): (r: seq<CheckInData>)
    ensures |r| == Min(|history| + 1, MaxHistory)
    ensures r[0] == entry
    ensures r[1..] == history[..Min(|history|, MaxHistory - 1)]
  {
    Take([entry] + history, MaxHistory)
  }

  /** The newest entry leads, and only the oldest of the old entries are dropped. */
  lemma PushHistoryMembers(entry: CheckInData, history: seq<CheckInData>, x: CheckInData)
    ensures x in PushHistory(entry, history) <==>
              x == entry || x in history[..Min(|history|, MaxHistory - 1)]
  {
  }

  /** `s` read back to front. */
  function Reverse<T>(s: seq<T>): seq<T>
    decreases |s|
  {
    if s == [] then [] else [s[|s| - 1]] + Reverse(s[..|s| - 1])
  }

  lemma {:induction false} ReverseLength<T>(s: seq<T>)
    ensures |Reverse(s)| == |s|
    decreases |s|
  {
    if s != [] {
      ReverseLength(s[..|s| - 1]);
    }
  }

  /** The history after the check-ins `entries`, oldest first, have each succeeded in turn. */
  function PushAll(history: seq<CheckInData>, entries: seq<CheckInData>): seq<CheckInData>
    decreases |entries|
  {
    if entries == [] then history
    else PushHistory(entries[|entries| - 1], PushAll(history, entries[..|entries| - 1]))
  }

  /** Cutting a list back before putting one more element in front changes nothing once the
      result is cut back again. */
  lemma TakeConsTake<T>(x: T, s: seq<T>, n: nat)
    requires n > 0
    ensures Take([x] + Take(s, n), n) == Take([x] + s, n)
  {
  }

  /** Successive check-ins leave the newest `MaxHistory` records, newest first, followed by
      what is left of the starting list. (With no check-in at all the starting list stays as it
      was, even when a loaded list is longer than the cap.) */
  lemma {:induction false} PushAllNewestFirst(history: seq<CheckInData>, entries: seq<CheckInData>)
    requires entries != []
    ensures PushAll(history, entries) == Take(Reverse(entries) + history, MaxHistory)
    decreases |entries|
  {
    var last, earlier := entries[|entries| - 1], entries[..|entries| - 1];
    assert [last] + (Reverse(earlier) + history) == Reverse(entries) + history;
    if earlier == [] {
      assert PushAll(history, earlier) == Reverse(earlier) + history;
    } else {
      PushAllNewestFirst(history, earlier);
      TakeConsTake(last, Reverse(earlier) + history, MaxHistory);
    }
  }

  /** Cutting back a list that starts with at least `n` elements of `a` keeps just those. */
  lemma TakeLongPrefix<T>(a: seq<T>, b: seq<T>, n: nat)
    requires n <= |a|
    ensures Take(a + b, n) == a[..n]
  {
  }

  /** The first `m` elements of a reversed list are the last `m` of the list, reversed. */
  lemma {:induction false} ReversePrefix<T>(s: seq<T>, m: nat)
    requires m <= |s|
    ensures |Reverse(s)| == |s| && Reverse(s)[..m] == Reverse(s[|s| - m..])
    decreases |s|
  {
    ReverseLength(s);
    if m > 0 {
      var init := s[..|s| - 1];
      ReversePrefix(init, m - 1);
      assert s[|s| - m..][..m - 1] == init[|init| - (m - 1)..];
      assert Reverse(s)[..m] == [s[|s| - 1]] + Reverse(init)[..m - 1];
    }
  }

  /** After five or more check-ins, exactly the five newest remain, newest first; nothing of
      the starting list survives. */
  lemma EvictsOldest(history: seq<CheckInData>, entries: seq<CheckInData>)
    requires |entries| >= MaxHistory
    ensures PushAll(history, entries) == Reverse(entries[|entries| - MaxHistory..])
  {
    PushAllNewestFirst(history, entries);
    ReversePrefix(entries, MaxHistory);
    TakeLongPrefix(Reverse(entries), history, MaxHistory);
  }

  /** However the history started, one check-in brings it within the cap, and every further
      check-in keeps it there. */
  lemma {:induction false} PushAllBounded(history: seq<CheckInData>, entries: seq<CheckInData>)
    requires entries != [] || |history| <= MaxHistory
    ensures |PushAll(history, entries)| <= MaxHistory
  {
  }
}
