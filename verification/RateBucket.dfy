/**
 * The sliding-window send counter of one agent (internal/gateway/limiter.go).
 *
 * `Bucket` is the slice the source prunes in place. The reference is a limiter that
 * keeps every timestamp forever; the bucket is proved to answer exactly like it.
 */
module RateBucket {
  /** One minute, in nanoseconds. */
  const MINUTE: int := 60_000_000_000

  /** The timestamps after `cutoff`, in order. */
  function Newer(times: seq<int>, cutoff: int): (r: seq<int>)
    ensures |r| <= |times|
  {
    if times == [] then []
    else
      var init, last := times[..|times| - 1], times[|times| - 1];
      if last > cutoff then Newer(init, cutoff) + [last] else Newer(init, cutoff)
  }

  /** One tryRecord: the time read for the cutoff, the time read for the record, and the limit. */
  datatype Call = Call(checkedAt: int, recordedAt: int, limit: int)

  predicate Admits(recent: nat, limit: int) {
    limit <= 0 || recent < limit
  }

  /** What tryRecord leaves in the bucket, and whether it accepts. */
  function Try(sends: seq<int>, c: Call): (seq<int>, bool) {
    var kept := Newer(sends, c.checkedAt - MINUTE);
    if Admits(|kept|, c.limit) then (kept + [c.recordedAt], true) else (kept, false)
  }

  class Bucket {
    var data: array<int>
    var len: nat

    ghost predicate Valid()
      reads this
    {
      len <= data.Length
    }

    /** The slice rb.sends. */
    ghost function Sends(): seq<int>
      requires Valid()
      reads this, data
    {
      data[..len]
    }

    constructor ()
      ensures Valid() && fresh(data) && Sends() == []
    {
      data := new int[0];
      len := 0;
    }

    /** The filter loop: `fresh` shares the array being read, its write index never ahead of the read index. */
    method Compact(cutoff: int)
      requires Valid()
      modifies this`len, data
      ensures Valid() && data == old(data)
      ensures Sends() == Newer(old(Sends()), cutoff)
    {
      var w := 0;
      ghost var before := data[..];
      for r := 0 to len
        invariant 0 <= w <= r <= len <= data.Length && len == old(len)
        invariant data[..w] == Newer(before[..r], cutoff)
        invariant forall k :: r <= k < data.Length ==> data[k] == before[k]
      {
        var t := data[r];
        assert before[..r + 1][..r] == before[..r];
        if t > cutoff {
          data[w] := t;
          w := w + 1;
          assert data[..w] == data[..w - 1] + [t];
        }
      }
      assert before[..len] == old(data[..len]);
      len := w;
    }

    /** append: in place while the array has room, else into a larger copy. */
    method Append(t: int)
      requires Valid()
      modifies this, data
      ensures Valid() && (data == old(data) || fresh(data))
      ensures Sends() == old(Sends()) + [t]
    {
      if len == data.Length {
        var grown := new int[2 * data.Length + 1];
        for i := 0 to len
          invariant data == old(data) && len == old(len) && fresh(grown)
          invariant forall k :: 0 <= k < i ==> grown[k] == data[k]
          modifies grown
        {
          grown[i] := data[i];
        }
        data := grown;
      }
      data[len] := t;
      len := len + 1;
    }

    method TryRecord(c: Call) returns (ok: bool)
      requires Valid()
      modifies this, data
      ensures Valid() && (data == old(data) || fresh(data))
      ensures Sends() == Try(old(Sends()), c).0 && ok == Try(old(Sends()), c).1
    {
      Compact(c.checkedAt - MINUTE);
      if c.limit > 0 && len >= c.limit { return false; }
      Append(c.recordedAt);
      return true;
    }
  }

  // ---------------------------------------------------------------------
  // The reference limiter, which keeps its whole history
  // ---------------------------------------------------------------------

  /** A recorded send: when, and under which limit it was admitted. */
  datatype Send = Send(at: int, limit: int)

  function Times(history: seq<Send>): (r: seq<int>)
    ensures |r| == |history|
    ensures forall i :: 0 <= i < |r| ==> r[i] == history[i].at
  {
    seq(|history|, i requires 0 <= i < |history| => history[i].at)
  }

  predicate FullAdmits(history: seq<Send>, c: Call) {
    Admits(|Newer(Times(history), c.checkedAt - MINUTE)|, c.limit)
  }

  /** The whole history after a run of calls. */
  function History(calls: seq<Call>): seq<Send> {
    if calls == [] then []
    else
      var init, c := calls[..|calls| - 1], calls[|calls| - 1];
      var h := History(init);
      if FullAdmits(h, c) then h + [Send(c.recordedAt, c.limit)] else h
  }

  /** The bucket after the same run. */
  function Pruned(calls: seq<Call>): seq<int> {
    if calls == [] then [] else Try(Pruned(calls[..|calls| - 1]), calls[|calls| - 1]).0
  }

  /** The clock never goes back: within a call, and from one call to the next. */
  ghost predicate Monotone(calls: seq<Call>) {
    && (forall i :: 0 <= i < |calls| ==> calls[i].checkedAt <= calls[i].recordedAt)
    && (forall i, j :: 0 <= i < j < |calls| ==> calls[i].recordedAt <= calls[j].checkedAt)
  }

  lemma {:induction false} NewerOfAppend(times: seq<int>, t: int, cutoff: int)
    ensures Newer(times + [t], cutoff) == if t > cutoff then Newer(times, cutoff) + [t] else Newer(times, cutoff)
  {
    assert (times + [t])[..|times|] == times;
  }

  /** Pruning at an earlier cutoff loses nothing a later cutoff would keep. */
  lemma {:induction false} NewerOfNewer(times: seq<int>, earlier: int, later: int)
    requires earlier <= later
    ensures Newer(Newer(times, earlier), later) == Newer(times, later)
  {
    if times != [] {
      var init, last := times[..|times| - 1], times[|times| - 1];
      NewerOfNewer(init, earlier, later);
      if last > earlier { NewerOfAppend(Newer(init, earlier), last, later); }
    }
  }

  lemma TimesOfAppend(history: seq<Send>, s: Send)
    ensures Times(history + [s]) == Times(history) + [s.at]
  {
  }

  /** After every run, the bucket is the history pruned at the last cutoff. */
  lemma {:induction false} PrunedIsRecentHistory(calls: seq<Call>)
    requires Monotone(calls) && calls != []
    ensures Pruned(calls) == Newer(Times(History(calls)), calls[|calls| - 1].checkedAt - MINUTE)
    decreases |calls|, 0
  {
    var init, c := calls[..|calls| - 1], calls[|calls| - 1];
    var cutoff := c.checkedAt - MINUTE;
    var h := History(init);
    assert Monotone(init);
    if init != [] { assert init[|init| - 1] == calls[|calls| - 2]; }
    SameRecentPart(init, cutoff);
    TimesOfAppend(h, Send(c.recordedAt, c.limit));
    NewerOfAppend(Times(h), c.recordedAt, cutoff);
  }

  /** The bucket and the history agree on everything newer than any later cutoff. */
  lemma {:induction false} SameRecentPart(calls: seq<Call>, cutoff: int)
    requires Monotone(calls) && (calls != [] ==> calls[|calls| - 1].checkedAt - MINUTE <= cutoff)
    ensures Newer(Pruned(calls), cutoff) == Newer(Times(History(calls)), cutoff)
    decreases |calls|, 1
  {
    if calls != [] {
      PrunedIsRecentHistory(calls);
      NewerOfNewer(Times(History(calls)), calls[|calls| - 1].checkedAt - MINUTE, cutoff);
    }
  }

  /** tryRecord on the pruned bucket accepts exactly when the full-history limiter would. */
  lemma BucketRefinesFullHistory(calls: seq<Call>)
    requires Monotone(calls) && calls != []
    ensures var init, c := calls[..|calls| - 1], calls[|calls| - 1];
            Try(Pruned(init), c).1 <==> FullAdmits(History(init), c)
  {
    var init, c := calls[..|calls| - 1], calls[|calls| - 1];
    assert Monotone(init);
    if init != [] { assert init[|init| - 1] == calls[|calls| - 2]; }
    SameRecentPart(init, c.checkedAt - MINUTE);
  }

  /** How many of the times lie after `t`. */
  function CountAfter(times: seq<int>, t: int): nat {
    if times == [] then 0 else (if times[0] > t then 1 else 0) + CountAfter(times[1..], t)
  }

  lemma {:induction false} CountAfterAppend(times: seq<int>, x: int, t: int)
    ensures CountAfter(times + [x], t) == CountAfter(times, t) + if x > t then 1 else 0
  {
    if times == [] {
      assert times + [x] == [x];
    } else {
      assert (times + [x])[1..] == times[1..] + [x];
      CountAfterAppend(times[1..], x, t);
    }
  }

  /** Pruning keeps every time after the cutoff, as often as it was there, and no other. */
  lemma {:induction false} NewerKeepsExactly(times: seq<int>, cutoff: int, x: int)
    ensures multiset(Newer(times, cutoff))[x] == if x > cutoff then multiset(times)[x] else 0
    ensures |Newer(times, cutoff)| == CountAfter(times, cutoff)
  {
    if times != [] {
      var init, last := times[..|times| - 1], times[|times| - 1];
      assert times == init + [last];
      NewerKeepsExactly(init, cutoff, x);
      CountAfterAppend(init, last, cutoff);
    }
  }

  /** After tryRecord, the times after any later cutoff are those before, and the new one if it was recorded. */
  lemma TryAddsOne(times: seq<int>, c: Call, t: int)
    requires t >= c.checkedAt - MINUTE
    ensures CountAfter(Try(times, c).0, t) ==
            CountAfter(times, t) + if Try(times, c).1 && c.recordedAt > t then 1 else 0
  {
    PruningCountsTheSame(times, c.checkedAt - MINUTE, t);
    CountAfterAppend(Newer(times, c.checkedAt - MINUTE), c.recordedAt, t);
  }

  lemma PruningCountsTheSame(times: seq<int>, cutoff: int, t: int)
    requires cutoff <= t
    ensures CountAfter(Newer(times, cutoff), t) == CountAfter(times, t)
  {
    NewerOfNewer(times, cutoff, t);
    NewerKeepsExactly(times, t, 0);
    NewerKeepsExactly(Newer(times, cutoff), t, 0);
  }

  /**
   * tryRecord, without a word about pruning: a send is refused exactly when a positive limit
   * of sends was recorded in the 60 seconds before the check.
   */
  lemma RefusedExactlyWhenFull(calls: seq<Call>)
    requires Monotone(calls) && calls != []
    ensures var init, c := calls[..|calls| - 1], calls[|calls| - 1];
            Try(Pruned(init), c).1 <==>
            c.limit <= 0 || CountAfter(Times(History(init)), c.checkedAt - 60_000_000_000) < c.limit
  {
    var init, c := calls[..|calls| - 1], calls[|calls| - 1];
    BucketRefinesFullHistory(calls);
    NewerKeepsExactly(Times(History(init)), c.checkedAt - MINUTE, 0);
  }

  // ---------------------------------------------------------------------
  // No minute holds more sends than the limit allows
  // ---------------------------------------------------------------------

  /** How many sends fall in the window (from, from + 60s]. */
  function CountIn(history: seq<Send>, from: int): nat {
    if history == [] then 0
    else CountIn(history[..|history| - 1], from) + (if from < history[|history| - 1].at <= from + MINUTE then 1 else 0)
  }

  /** The n-th send, if limited, had at most its limit in the minute before it, itself included. */
  ghost predicate WithinLimit(history: seq<Send>, n: nat)
    requires n < |history|
  {
    history[n].limit > 0 ==> |Newer(Times(history[..n + 1]), history[n].at - MINUTE)| <= history[n].limit
  }

  ghost predicate EachWithinLimit(history: seq<Send>) {
    forall n :: 0 <= n < |history| ==> WithinLimit(history, n)
  }

  lemma {:induction false} FewerAreNewer(times: seq<int>, earlier: int, later: int)
    requires earlier <= later
    ensures |Newer(times, later)| <= |Newer(times, earlier)|
  {
    if times != [] { FewerAreNewer(times[..|times| - 1], earlier, later); }
  }

  lemma {:induction false} HistoryWithinLimit(calls: seq<Call>)
    requires Monotone(calls)
    ensures EachWithinLimit(History(calls))
  {
    if calls != [] {
      var init, c := calls[..|calls| - 1], calls[|calls| - 1];
      assert Monotone(init);
      HistoryWithinLimit(init);
      var h := History(init);
      if FullAdmits(h, c) { RecordKeepsLimit(h, c); }
    }
  }

  lemma RecordKeepsLimit(h: seq<Send>, c: Call)
    requires EachWithinLimit(h) && FullAdmits(h, c) && c.checkedAt <= c.recordedAt
    ensures EachWithinLimit(h + [Send(c.recordedAt, c.limit)])
  {
    var h' := h + [Send(c.recordedAt, c.limit)];
    forall n | 0 <= n < |h'| ensures WithinLimit(h', n) {
      if n < |h| {
        assert h'[..n + 1] == h[..n + 1];
        assert WithinLimit(h, n);
      } else {
        NewRecordWithinLimit(h, c);
      }
    }
  }

  lemma NewRecordWithinLimit(h: seq<Send>, c: Call)
    requires FullAdmits(h, c) && c.checkedAt <= c.recordedAt
    ensures WithinLimit(h + [Send(c.recordedAt, c.limit)], |h|)
  {
    var s := Send(c.recordedAt, c.limit);
    assert (h + [s])[..|h| + 1] == h + [s];
    TimesOfAppend(h, s);
    NewerOfAppend(Times(h), c.recordedAt, c.recordedAt - MINUTE);
    FewerAreNewer(Times(h), c.checkedAt - MINUTE, c.recordedAt - MINUTE);
  }

  /** Sends after the last one in the window do not count. */
  lemma {:induction false} CountUpToLast(history: seq<Send>, from: int, n: nat)
    requires n < |history|
    requires forall k :: n < k < |history| ==> !(from < history[k].at <= from + MINUTE)
    ensures CountIn(history, from) == CountIn(history[..n + 1], from)
  {
    if n + 1 < |history| {
      var init := history[..|history| - 1];
      CountUpToLast(init, from, n);
      assert init[..n + 1] == history[..n + 1];
    } else {
      assert history[..n + 1] == history;
    }
  }

  lemma {:induction false} CountBoundedByNewer(history: seq<Send>, from: int)
    ensures CountIn(history, from) <= |Newer(Times(history), from)|
  {
    if history != [] {
      var init, last := history[..|history| - 1], history[|history| - 1];
      CountBoundedByNewer(init, from);
      assert history == init + [last];
      TimesOfAppend(init, last);
      NewerOfAppend(Times(init), last.at, from);
    }
  }

  lemma CountInTighterWindow(history: seq<Send>, from: int, cutoff: int)
    requires cutoff <= from
    ensures CountIn(history, from) <= |Newer(Times(history), cutoff)|
  {
    CountBoundedByNewer(history, from);
    FewerAreNewer(Times(history), cutoff, from);
  }

  /** `n` is the last send in the window (from, from + 60s]. */
  ghost predicate LastInWindow(h: seq<Send>, from: int, n: int) {
    && 0 <= n < |h| && from < h[n].at <= from + MINUTE
    && (forall k :: n < k < |h| ==> !(from < h[k].at <= from + MINUTE))
  }

  lemma WindowOfHistory(h: seq<Send>, from: int, n: nat)
    requires LastInWindow(h, from, n) && WithinLimit(h, n) && h[n].limit > 0
    ensures CountIn(h, from) <= h[n].limit
  {
    CountUpToLast(h, from, n);
    CountInTighterWindow(h[..n + 1], from, h[n].at - MINUTE);
  }

  /**
   * For every run of tryRecord under a monotone clock and any sequence of limits, the
   * sends recorded in any 60-second window of the whole history number at most the limit
   * in force at the last record of that window (when that limit is not 0, "unlimited").
   */
  lemma WindowNeverExceedsLimit(calls: seq<Call>, from: int, n: nat)
    requires Monotone(calls)
    requires LastInWindow(History(calls), from, n) && History(calls)[n].limit > 0
    ensures CountIn(History(calls), from) <= History(calls)[n].limit
  {
    HistoryWithinLimit(calls);
    WindowOfHistory(History(calls), from, n);
  }
}
