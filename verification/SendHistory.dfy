/**
 * The rate limit over whole runs of CheckSend by many agents (internal/gateway/limiter.go):
 * agents share the map of buckets, whose ceiling leaves later agents without one.
 */
module SendHistory {
  import opened Wrappers
  import opened Limiter
  import RateBucket

  /** The records after a run of CheckSend calls. */
  function RecordsAfter(calls: seq<SendCall>): Records {
    if calls == [] then map[] else AfterSend(RecordsAfter(calls[..|calls| - 1]), calls[|calls| - 1])
  }

  /** The calls of an agent that reached its bucket, stored or throwaway. */
  function BucketCalls(calls: seq<SendCall>, agent: string): seq<RateBucket.Call> {
    if calls == [] then []
    else
      var init, c := calls[..|calls| - 1], calls[|calls| - 1];
      BucketCalls(init, agent)
      + if c.agent == agent && Counts(c) then [CallOf(c.limits.value, c.x)] else []
  }

  /** The sends of an agent let through under a rate limit. */
  function LimitedSends(calls: seq<SendCall>, agent: string): seq<RateBucket.Send> {
    if calls == [] then []
    else
      var init, c := calls[..|calls| - 1], calls[|calls| - 1];
      LimitedSends(init, agent)
      + if c.agent == agent && Counts(c) && Verdict(RecordsAfter(init), c).None?
        then [RateBucket.Send(c.x.recordedAt, c.limits.value.maxSendPerMin)] else []
  }

  /**
   * An agent with a stored bucket has the record its own calls alone would give it; an
   * agent without one has made no counted call, or the map is full.
   */
  lemma {:induction false} RecordsArePruned(calls: seq<SendCall>, agent: string)
    ensures var records := RecordsAfter(calls);
            && (agent in records ==> records[agent] == RateBucket.Pruned(BucketCalls(calls, agent)))
            && (agent !in records ==> BucketCalls(calls, agent) == [] || |records| >= MAX_MAP_ENTRIES)
  {
    if calls != [] {
      var init, c := calls[..|calls| - 1], calls[|calls| - 1];
      RecordsArePruned(init, agent);
      SendKeepsPruned(RecordsAfter(init), c, agent, BucketCalls(init, agent));
    }
  }

  lemma SendKeepsPruned(records: Records, c: SendCall, agent: string, own: seq<RateBucket.Call>)
    requires agent in records ==> records[agent] == RateBucket.Pruned(own)
    requires agent !in records ==> own == [] || |records| >= MAX_MAP_ENTRIES
    ensures var records' := AfterSend(records, c);
            var own' := own + if c.agent == agent && Counts(c) then [CallOf(c.limits.value, c.x)] else [];
            && (agent in records' ==> records'[agent] == RateBucket.Pruned(own'))
            && (agent !in records' ==> own' == [] || |records'| >= MAX_MAP_ENTRIES)
  {
    if Counts(c) {
      var call := CallOf(c.limits.value, c.x);
      UpdateSize(records, c.agent, RateBucket.Try(RecordOf(records, c.agent), call).0);
      assert (own + [call])[..|own|] == own;
    }
    assert own + [] == own;
  }

  lemma {:induction false} NoCallsNoSends(calls: seq<SendCall>, agent: string)
    requires BucketCalls(calls, agent) == []
    ensures LimitedSends(calls, agent) == []
  {
    if calls != [] { NoCallsNoSends(calls[..|calls| - 1], agent); }
  }

  lemma MonotonePrefix(own: seq<RateBucket.Call>, c: RateBucket.Call)
    requires RateBucket.Monotone(own + [c])
    ensures RateBucket.Monotone(own)
  {
    var longer := own + [c];
    assert forall i :: 0 <= i < |own| ==> longer[i] == own[i];
  }

  /** Before the call that found or made its bucket, the agent's record was that of its own calls too. */
  lemma RecordBeforeIsPruned(calls: seq<SendCall>, agent: string)
    requires calls != [] && agent in RecordsAfter(calls)
    ensures var init := calls[..|calls| - 1];
            && RecordOf(RecordsAfter(init), agent) == RateBucket.Pruned(BucketCalls(init, agent))
            && (agent !in RecordsAfter(init) ==> BucketCalls(init, agent) == [])
  {
    RecordsArePruned(calls[..|calls| - 1], agent);
  }

  /** What is let through under a limit, for an agent with a stored bucket, is what the full-history limiter records. */
  lemma {:induction false} LimitedSendsAreHistory(calls: seq<SendCall>, agent: string)
    requires agent in RecordsAfter(calls) && RateBucket.Monotone(BucketCalls(calls, agent))
    ensures LimitedSends(calls, agent) == RateBucket.History(BucketCalls(calls, agent))
    decreases |calls|, 1
  {
    var init, c := calls[..|calls| - 1], calls[|calls| - 1];
    var own := BucketCalls(init, agent);
    if c.agent == agent && Counts(c) {
      var call := CallOf(c.limits.value, c.x);
      assert BucketCalls(calls, agent) == own + [call];
      MonotonePrefix(own, call);
      LimitedSendsSoFar(calls, agent);
      RecordBeforeIsPruned(calls, agent);
      HistoryGrows(own, call);
    } else {
      assert BucketCalls(calls, agent) == own;
      LimitedSendsSoFar(calls, agent);
    }
  }

  lemma HistoryGrows(own: seq<RateBucket.Call>, call: RateBucket.Call)
    requires RateBucket.Monotone(own + [call])
    ensures RateBucket.History(own + [call]) ==
            RateBucket.History(own)
            + if RateBucket.Try(RateBucket.Pruned(own), call).1
              then [RateBucket.Send(call.recordedAt, call.limit)] else []
  {
    assert (own + [call])[..|own|] == own;
    RateBucket.BucketRefinesFullHistory(own + [call]);
  }

  /** The induction step of LimitedSendsAreHistory: the calls before the last. */
  lemma LimitedSendsSoFar(calls: seq<SendCall>, agent: string)
    requires calls != [] && agent in RecordsAfter(calls)
    requires RateBucket.Monotone(BucketCalls(calls[..|calls| - 1], agent))
    ensures var init := calls[..|calls| - 1];
            LimitedSends(init, agent) == RateBucket.History(BucketCalls(init, agent))
    decreases |calls|, 0
  {
    var init := calls[..|calls| - 1];
    if agent in RecordsAfter(init) {
      LimitedSendsAreHistory(init, agent);
    } else {
      RecordsArePruned(init, agent);
      NoCallsNoSends(init, agent);
    }
  }

  /**
   * However many agents send, however their calls interleave and the limits change: for an
   * agent with a stored bucket, the sends let through under a rate limit in any 60-second
   * window number at most the limit in force at the last of them.
   */
  lemma NoMinuteExceedsTheLimit(calls: seq<SendCall>, agent: string, from: int, n: nat)
    requires Orderly(calls, agent) && RateBucket.LastInWindow(LimitedSends(calls, agent), from, n)
    ensures RateBucket.CountIn(LimitedSends(calls, agent), from) <= LimitedSends(calls, agent)[n].limit
  {
    LimitedSendsAreHistory(calls, agent);
    LimitsArePositive(calls, agent, n);
    RateBucket.WindowNeverExceedsLimit(BucketCalls(calls, agent), from, n);
  }

  /** The agent has a stored bucket, and its clock readings never go back. */
  ghost predicate Orderly(calls: seq<SendCall>, agent: string) {
    agent in RecordsAfter(calls) && RateBucket.Monotone(BucketCalls(calls, agent))
  }

  lemma {:induction false} LimitsArePositive(calls: seq<SendCall>, agent: string, n: nat)
    requires n < |LimitedSends(calls, agent)|
    ensures LimitedSends(calls, agent)[n].limit > 0
  {
    var init := calls[..|calls| - 1];
    if n < |LimitedSends(init, agent)| { LimitsArePositive(init, agent, n); }
  }

  /** The record a send would make if it were let through. */
  function SendsOf(own: seq<RateBucket.Call>): (r: seq<RateBucket.Send>)
    ensures |r| == |own|
  {
    if own == [] then []
    else
      SendsOf(own[..|own| - 1]) + [RateBucket.Send(own[|own| - 1].recordedAt, own[|own| - 1].limit)]
  }

  /**
   * Past the ceiling nothing is limited: an agent without a stored bucket has had every
   * single call that reached a bucket let through.
   */
  lemma {:induction false} WithoutABucketNothingIsLimited(calls: seq<SendCall>, agent: string)
    requires agent !in RecordsAfter(calls)
    ensures LimitedSends(calls, agent) == SendsOf(BucketCalls(calls, agent))
  {
    if calls != [] {
      var init, c := calls[..|calls| - 1], calls[|calls| - 1];
      assert agent !in RecordsAfter(init);
      WithoutABucketNothingIsLimited(init, agent);
      var own := BucketCalls(init, agent);
      if c.agent == agent && Counts(c) {
        assert BucketCalls(calls, agent) == own + [CallOf(c.limits.value, c.x)];
        assert BucketCalls(calls, agent)[..|own|] == own;
        EmptyRecordAdmits(c);
      } else {
        assert BucketCalls(calls, agent) == own && LimitedSends(calls, agent) == LimitedSends(init, agent);
      }
    }
  }

  lemma EmptyRecordAdmits(c: SendCall)
    requires Counts(c)
    ensures VerdictOn([], c).None?
  {
  }

  /** So an agent that first reaches a bucket when the map is full is never limited, whatever it sends. */
  lemma {:induction false} CeilingIsForever(calls: seq<SendCall>, n: nat, agent: string)
    requires n <= |calls| && agent !in RecordsAfter(calls[..n]) && |RecordsAfter(calls[..n])| >= 10_000
    ensures agent !in RecordsAfter(calls) && |RecordsAfter(calls)| >= MAX_MAP_ENTRIES
    ensures LimitedSends(calls, agent) == SendsOf(BucketCalls(calls, agent))
    decreases |calls|
  {
    if n < |calls| {
      var init, c := calls[..|calls| - 1], calls[|calls| - 1];
      assert init[..n] == calls[..n];
      CeilingIsForever(init, n, agent);
      if Counts(c) {
        UpdateSize(RecordsAfter(init), c.agent,
                   RateBucket.Try(RecordOf(RecordsAfter(init), c.agent), CallOf(c.limits.value, c.x)).0);
      }
    } else {
      assert calls[..n] == calls;
    }
    WithoutABucketNothingIsLimited(calls, agent);
  }

  // ---------------------------------------------------------------------
  // Sends that no rate limit applied to
  // ---------------------------------------------------------------------

  /**
   * All sends of an agent that were let through, each with the rate limit it was under: 0
   * where there was none, because the store had no row, failed, or set no rate.
   */
  function AllSends(calls: seq<SendCall>, agent: string): seq<RateBucket.Send> {
    if calls == [] then []
    else
      var init, c := calls[..|calls| - 1], calls[|calls| - 1];
      AllSends(init, agent)
      + if c.agent == agent && Verdict(RecordsAfter(init), c).None?
        then [RateBucket.Send(c.x.recordedAt, if Counts(c) then c.limits.value.maxSendPerMin else 0)] else []
  }

  /** The sends under a limit, in order. */
  function Limited(sends: seq<RateBucket.Send>): seq<RateBucket.Send> {
    if sends == [] then []
    else
      var init, last := sends[..|sends| - 1], sends[|sends| - 1];
      Limited(init) + if last.limit > 0 then [last] else []
  }

  /** The sends under none, in order. */
  function Unlimited(sends: seq<RateBucket.Send>): seq<RateBucket.Send> {
    if sends == [] then []
    else
      var init, last := sends[..|sends| - 1], sends[|sends| - 1];
      Unlimited(init) + if last.limit > 0 then [] else [last]
  }

  lemma LimitedOfAppend(sends: seq<RateBucket.Send>, s: RateBucket.Send)
    ensures Limited(sends + [s]) == Limited(sends) + if s.limit > 0 then [s] else []
    ensures Unlimited(sends + [s]) == Unlimited(sends) + if s.limit > 0 then [] else [s]
  {
    assert (sends + [s])[..|sends|] == sends;
  }

  lemma {:induction false} LimitedOfAllSends(calls: seq<SendCall>, agent: string)
    ensures Limited(AllSends(calls, agent)) == LimitedSends(calls, agent)
  {
    if calls != [] {
      var init, c := calls[..|calls| - 1], calls[|calls| - 1];
      LimitedOfAllSends(init, agent);
      if c.agent == agent && Verdict(RecordsAfter(init), c).None? {
        var s := RateBucket.Send(c.x.recordedAt, if Counts(c) then c.limits.value.maxSendPerMin else 0);
        assert AllSends(calls, agent) == AllSends(init, agent) + [s];
        LimitedOfAppend(AllSends(init, agent), s);
      } else {
        assert AllSends(calls, agent) == AllSends(init, agent);
      }
    }
  }

  lemma CountOfAppend(sends: seq<RateBucket.Send>, s: RateBucket.Send, from: int)
    ensures RateBucket.CountIn(sends + [s], from) ==
            RateBucket.CountIn(sends, from) + if from < s.at <= from + RateBucket.MINUTE then 1 else 0
  {
    assert (sends + [s])[..|sends|] == sends;
  }

  lemma {:induction false} CountSplits(sends: seq<RateBucket.Send>, from: int)
    ensures RateBucket.CountIn(sends, from) ==
            RateBucket.CountIn(Limited(sends), from) + RateBucket.CountIn(Unlimited(sends), from)
  {
    if sends != [] {
      var init, last := sends[..|sends| - 1], sends[|sends| - 1];
      CountSplits(init, from);
      if last.limit > 0 {
        CountOfAppend(Limited(init), last, from);
        assert Unlimited(sends) == Unlimited(init);
      } else {
        CountOfAppend(Unlimited(init), last, from);
        assert Limited(sends) == Limited(init);
      }
    }
  }

  /**
   * All sends let through in a 60-second window: at most the limit at the last limited one,
   * plus the sends in the window that no limit applied to.
   */
  lemma AllSendsInAMinute(calls: seq<SendCall>, agent: string, from: int, n: nat)
    requires Orderly(calls, agent) && RateBucket.LastInWindow(LimitedSends(calls, agent), from, n)
    ensures RateBucket.CountIn(AllSends(calls, agent), from) <=
            LimitedSends(calls, agent)[n].limit + RateBucket.CountIn(Unlimited(AllSends(calls, agent)), from)
  {
    NoMinuteExceedsTheLimit(calls, agent, from, n);
    LimitedOfAllSends(calls, agent);
    CountSplits(AllSends(calls, agent), from);
  }

  /** At most `f` sends of the agent in any 60-second window were under no limit. */
  ghost predicate FewUnlimited(calls: seq<SendCall>, agent: string, f: nat) {
    forall from :: RateBucket.CountIn(Unlimited(AllSends(calls, agent)), from) <= f
  }

  /** The last limited send in the window was under `limit`. */
  ghost predicate MinuteUnder(calls: seq<SendCall>, agent: string, from: int, limit: int) {
    var sends := LimitedSends(calls, agent);
    exists n :: RateBucket.LastInWindow(sends, from, n) && sends[n].limit == limit
  }

  ghost predicate Watched(calls: seq<SendCall>, agent: string, from: int, limit: int, f: nat) {
    Orderly(calls, agent) && FewUnlimited(calls, agent, f) && MinuteUnder(calls, agent, from, limit)
  }

  // A run at one instant: sends under no limit, then sends under a limit

  const AT_ONCE: Inputs := Inputs(0, None, 0, 0, 0)

  function FreeCall(agent: string): SendCall {
    SendCall(agent, None, 0, AT_ONCE)
  }

  function LimitedCall(agent: string, limit: int): SendCall {
    SendCall(agent, Some(Limits(0, limit, 0, 0)), 0, AT_ONCE)
  }

  function FreeCalls(agent: string, f: nat): seq<SendCall> {
    seq(f, _ => FreeCall(agent))
  }

  /** `n` sends at instant 0 under one limit. */
  function Burst(limit: int, n: nat): seq<RateBucket.Send> {
    seq(n, _ => RateBucket.Send(0, limit))
  }

  lemma BurstGrows(limit: int, n: nat)
    ensures Burst(limit, n + 1) == Burst(limit, n) + [RateBucket.Send(0, limit)]
  {
  }

  lemma {:induction false} CountOfBurst(limit: int, n: nat, from: int)
    ensures RateBucket.CountIn(Burst(limit, n), from) <= n
    ensures from == -1 ==> RateBucket.CountIn(Burst(limit, n), from) == n
  {
    if n > 0 {
      CountOfBurst(limit, n - 1, from);
      BurstGrows(limit, n - 1);
      CountOfAppend(Burst(limit, n - 1), RateBucket.Send(0, limit), from);
    }
  }

  lemma {:induction false} FreeCallsPass(agent: string, f: nat)
    ensures RecordsAfter(FreeCalls(agent, f)) == map[] && BucketCalls(FreeCalls(agent, f), agent) == []
    ensures AllSends(FreeCalls(agent, f), agent) == Burst(0, f)
    ensures Unlimited(Burst(0, f)) == Burst(0, f)
  {
    if f > 0 {
      FreeCallsPass(agent, f - 1);
      assert FreeCalls(agent, f)[..f - 1] == FreeCalls(agent, f - 1);
      BurstGrows(0, f - 1);
      LimitedOfAppend(Burst(0, f - 1), RateBucket.Send(0, 0));
    }
  }

  function Instants(m: nat): seq<int> {
    seq(m, _ => 0)
  }

  lemma {:induction false} InstantsAreNew(m: nat)
    ensures RateBucket.Newer(Instants(m), -RateBucket.MINUTE) == Instants(m)
  {
    if m > 0 {
      InstantsAreNew(m - 1);
      assert Instants(m)[..m - 1] == Instants(m - 1);
    }
  }

  /** One more limited call passes while fewer than `limit` are on record. */
  lemma OneMorePasses(records: Records, agent: string, limit: int, m: nat)
    requires limit > 0 && m < limit && RecordOf(records, agent) == Instants(m) && Kept(records, agent)
    ensures var c := LimitedCall(agent, limit);
            && Counts(c) && Verdict(records, c).None?
            && AfterSend(records, c) == records[agent := Instants(m + 1)]
  {
    InstantsAreNew(m);
    assert Instants(m) + [0] == Instants(m + 1);
  }

  function Tries(limit: int, m: nat): seq<RateBucket.Call> {
    seq(m, _ => RateBucket.Call(0, 0, limit))
  }

  lemma TriesAreMonotone(limit: int, m: nat)
    ensures RateBucket.Monotone(Tries(limit, m))
    ensures Tries(limit, m + 1) == Tries(limit, m) + [RateBucket.Call(0, 0, limit)]
  {
  }

  /** What `f` sends under no limit and then `m` under one leave behind. */
  ghost predicate Passed(calls: seq<SendCall>, agent: string, f: nat, limit: int, m: nat) {
    && RecordsAfter(calls) == (if m == 0 then map[] else map[agent := Instants(m)])
    && BucketCalls(calls, agent) == Tries(limit, m)
    && LimitedSends(calls, agent) == Burst(limit, m)
    && Unlimited(AllSends(calls, agent)) == Burst(0, f)
  }

  lemma AppendCall(calls: seq<SendCall>, c: SendCall)
    requires Counts(c) && Verdict(RecordsAfter(calls), c).None?
    ensures var agent, limit := c.agent, c.limits.value.maxSendPerMin;
            var longer, s := calls + [c], RateBucket.Send(c.x.recordedAt, limit);
            && RecordsAfter(longer) == AfterSend(RecordsAfter(calls), c)
            && BucketCalls(longer, agent) == BucketCalls(calls, agent) + [CallOf(c.limits.value, c.x)]
            && LimitedSends(longer, agent) == LimitedSends(calls, agent) + [s]
            && AllSends(longer, agent) == AllSends(calls, agent) + [s]
  {
    assert (calls + [c])[..|calls|] == calls;
  }

  lemma OneMorePassed(calls: seq<SendCall>, agent: string, f: nat, limit: int, m: nat)
    requires m < limit && Passed(calls, agent, f, limit, m)
    ensures Passed(calls + [LimitedCall(agent, limit)], agent, f, limit, m + 1)
  {
    OneMorePasses(RecordsAfter(calls), agent, limit, m);
    AppendCall(calls, LimitedCall(agent, limit));
    BurstGrows(limit, m);
    TriesAreMonotone(limit, m);
    LimitedOfAppend(AllSends(calls, agent), RateBucket.Send(0, limit));
  }

  lemma {:induction false} MixedCallsPass(agent: string, f: nat, limit: int, m: nat) returns (calls: seq<SendCall>)
    requires m <= limit
    ensures Passed(calls, agent, f, limit, m)
  {
    if m == 0 {
      calls := FreeCalls(agent, f);
      FreeCallsPass(agent, f);
      NoCallsNoSends(calls, agent);
    } else {
      var shorter := MixedCallsPass(agent, f, limit, m - 1);
      OneMorePassed(shorter, agent, f, limit, m - 1);
      calls := shorter + [LimitedCall(agent, limit)];
    }
  }

  lemma PassedIsWatched(calls: seq<SendCall>, agent: string, f: nat, limit: int)
    requires limit > 0 && Passed(calls, agent, f, limit, limit)
    ensures Watched(calls, agent, -1, limit, f)
  {
    TriesAreMonotone(limit, limit);
    forall from ensures RateBucket.CountIn(Unlimited(AllSends(calls, agent)), from) <= f {
      CountOfBurst(0, f, from);
    }
    assert RateBucket.LastInWindow(LimitedSends(calls, agent), -1, limit - 1);
  }

  /**
   * The limit does not bound all sends: for every limit L and every f some run lets through
   * L + f sends of an agent in one window, f of them under no limit and the last under L.
   */
  lemma UnlimitedSendsAddUp(agent: string, limit: int, f: nat) returns (calls: seq<SendCall>)
    requires limit > 0
    ensures Watched(calls, agent, -1, limit, f) && RateBucket.CountIn(AllSends(calls, agent), -1) == limit + f
  {
    calls := MixedCallsPass(agent, f, limit, limit);
    PassedIsWatched(calls, agent, f, limit);
    LimitedOfAllSends(calls, agent);
    CountSplits(AllSends(calls, agent), -1);
    CountOfBurst(limit, limit, -1);
    CountOfBurst(0, f, -1);
  }

  /** For every n, n + 1 sends pass in one window although the limit at the last of them is 1. */
  lemma OneIsNotTheLimit(agent: string, n: nat) returns (calls: seq<SendCall>)
    ensures Orderly(calls, agent) && MinuteUnder(calls, agent, -1, 1)
    ensures RateBucket.CountIn(AllSends(calls, agent), -1) == n + 1
  {
    calls := UnlimitedSendsAddUp(agent, 1, n);
  }

  /**
   * The bound on all sends, exactly: runs with at most f sends of the agent per window under
   * no limit stay within L + k in every window whose last limited send was under L, if and
   * only if f <= k.
   */
  lemma BudgetIsExact(agent: string, limit: int, f: nat, k: nat)
    requires limit > 0
    ensures (forall calls, from :: Watched(calls, agent, from, limit, f) ==>
               RateBucket.CountIn(AllSends(calls, agent), from) <= limit + k)
            <==> f <= k
  {
    if f <= k {
      forall calls, from | Watched(calls, agent, from, limit, f)
        ensures RateBucket.CountIn(AllSends(calls, agent), from) <= limit + k
      {
        var n :| RateBucket.LastInWindow(LimitedSends(calls, agent), from, n)
                 && LimitedSends(calls, agent)[n].limit == limit;
        AllSendsInAMinute(calls, agent, from, n);
      }
    } else {
      var calls := UnlimitedSendsAddUp(agent, limit, f);
    }
  }
}
