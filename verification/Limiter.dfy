/** The in-process limit enforcer and its cache of store answers (internal/gateway/limiter.go). */
module Limiter {
  import opened Wrappers
  import RateBucket

  const MAX_MAP_ENTRIES: nat := 10_000

  /** Limits of one agent; 0 means unlimited in every field. */
  datatype Limits = Limits(maxBodyBytes: int, maxSendPerMin: int, maxPendingTasks: int, maxStreamLen: int)

  datatype CacheEntry = CacheEntry(limits: Option<Limits>, fetchAt: int)

  type Cache = map<string, CacheEntry>

  datatype LimitError = BodyTooLarge | RateExceeded | TooManyPending

  predicate Hit(cache: Cache, agent: string, now: int, ttl: int) {
    agent in cache && now - cache[agent].fetchAt < ttl
  }

  /** The cache after a commit: a full cache takes no entry, not even a replacement. */
  function Committed(cache: Cache, agent: string, limits: Option<Limits>, now: int): Cache {
    if |cache| < MAX_MAP_ENTRIES then cache[agent := CacheEntry(limits, now)] else cache
  }

  /** GetEffectiveLimits of the store: the agent's row, else the default row "*", else none. */
  function Effective(rows: map<string, Limits>, agent: string): Option<Limits> {
    if agent in rows then Some(rows[agent]) else if "*" in rows then Some(rows["*"]) else None
  }

  predicate PendingAllowed(limits: Option<Limits>, current: int) {
    limits.Some? && limits.value.maxPendingTasks > 0 ==> current <= limits.value.maxPendingTasks
  }

  /** The clock readings and the store answer one CheckSend may consume. */
  datatype Inputs = Inputs(lookupAt: int, answer: Option<Limits>, commitAt: int, checkedAt: int, recordedAt: int)

  class Enforcer {
    const cacheTTL: int
    var cache: Cache
    var rate: map<string, RateBucket.Bucket>

    /** The stored buckets and the arrays behind them. */
    ghost function Repr(): set<object>
      reads this`rate, rate.Values
    {
      rate.Values + set a | a in rate :: rate[a].data
    }

    /** No two agents share a bucket or its array. */
    ghost predicate Separate()
      reads this`rate, rate.Values
    {
      && |rate| <= MAX_MAP_ENTRIES
      && (forall a :: a in rate ==> rate[a].Valid())
      && (forall a, b :: a in rate && b in rate && a != b ==> rate[a] != rate[b] && rate[a].data != rate[b].data)
    }

    ghost predicate Valid()
      reads this, rate.Values
    {
      |cache| <= MAX_MAP_ENTRIES && Separate()
    }

    /** The sends on record for an agent. */
    ghost function Recorded(agent: string): seq<int>
      requires Separate()
      reads this`rate, rate.Values, Repr()
    {
      if agent in rate then rate[agent].Sends() else []
    }

    /** The sends each stored bucket holds. */
    ghost function View(): (r: Records)
      requires Separate()
      reads this`rate, rate.Values, Repr()
      ensures r.Keys == rate.Keys && forall a :: RecordOf(r, a) == Recorded(a)
    {
      map a | a in rate :: rate[a].Sends()
    }

    /** The limits a check uses: the cached ones while fresh, else what the store answers. */
    ghost function Used(agent: string, x: Inputs): Option<Limits>
      reads this`cache
    {
      UsedOf(cache, agent, x, cacheTTL)
    }

    constructor (ttl: int)
      ensures Valid() && cacheTTL == ttl && cache == map[] && rate == map[] && Repr() == {}
    {
      cacheTTL, cache, rate := ttl, map[], map[];
    }

    /** First critical section of effectiveLimits. */
    method Lookup(agent: string, now: int) returns (r: Option<Option<Limits>>)
      ensures r == if Hit(cache, agent, now, cacheTTL) then Some(cache[agent].limits) else None
    {
      if agent in cache && now - cache[agent].fetchAt < cacheTTL { return Some(cache[agent].limits); }
      return None;
    }

    /** Second critical section of effectiveLimits. */
    method Commit(agent: string, limits: Option<Limits>, now: int)
      requires Valid()
      modifies this`cache
      ensures Valid() && cache == Committed(old(cache), agent, limits, now)
    {
      if |cache| < MAX_MAP_ENTRIES {
        UpdateSize(cache, agent, CacheEntry(limits, now));
        cache := cache[agent := CacheEntry(limits, now)];
      }
    }

    method EffectiveLimits(agent: string, x: Inputs) returns (l: Option<Limits>)
      requires Valid()
      modifies this`cache
      ensures Valid() && l == old(Used(agent, x))
      ensures cache == CacheAfter(old(cache), agent, x, cacheTTL)
    {
      var cached := Lookup(agent, x.lookupAt);
      if cached.Some? {
        l := cached.value;
      } else {
        l := x.answer;  // fetched with the lock released
        Commit(agent, l, x.commitAt);
      }
    }

    /** Whether the map has a bucket for the agent, or room for one. */
    ghost predicate Keeps(agent: string)
      reads this`rate
    {
      agent in rate || |rate| < MAX_MAP_ENTRIES
    }

    /** Whether a CheckSend leaves its mark on the agent's record. */
    ghost predicate Stores(c: SendCall)
      reads this`rate
    {
      Counts(c) && Keeps(c.agent)
    }

    /** No stored bucket but the agent's shares anything with `b`. */
    ghost predicate Apart(agent: string, b: RateBucket.Bucket)
      reads this`rate, rate.Values, b
    {
      && (agent in rate ==> rate[agent] == b)
      && forall a :: a in rate && a != agent ==> rate[a] != b && rate[a].data != b.data
    }

    /** bucket: the stored bucket, a new stored one, or a throwaway one once the map is full. */
    method BucketFor(agent: string) returns (b: RateBucket.Bucket)
      requires Separate()
      modifies this`rate
      ensures Separate() && b.Valid() && Apart(agent, b) && cache == old(cache)
      ensures b.Sends() == old(Recorded(agent))
      ensures (fresh(b) && fresh(b.data)) || (b in old(Repr()) && b.data in old(Repr()))
      ensures rate.Keys == if old(Keeps(agent)) then old(rate.Keys) + {agent} else old(rate.Keys)
      ensures forall a :: a != agent ==> Recorded(a) == old(Recorded(a))
    {
      if agent in rate { return rate[agent]; }
      b := new RateBucket.Bucket();
      if |rate| >= MAX_MAP_ENTRIES { return b; }
      UpdateSize(rate, agent, b);
      rate := rate[agent := b];
    }

    /** tryRecord on the bucket found: no other agent's record changes. */
    method RecordIn(b: RateBucket.Bucket, agent: string, c: RateBucket.Call) returns (ok: bool)
      requires Separate() && b.Valid() && Apart(agent, b)
      modifies b, b.data
      ensures Separate() && cache == old(cache)
      ensures ok == RateBucket.Try(old(b.Sends()), c).1
      ensures agent in rate ==> Recorded(agent) == RateBucket.Try(old(b.Sends()), c).0
      ensures forall a :: a != agent ==> Recorded(a) == old(Recorded(a))
    {
      ok := b.TryRecord(c);
    }

    /** bucket(agent).tryRecord. */
    method TryRecordFor(agent: string, c: RateBucket.Call) returns (ok: bool)
      requires Separate()
      modifies this`rate, Repr()
      ensures Separate() && cache == old(cache)
      ensures ok == RateBucket.Try(old(Recorded(agent)), c).1
      ensures old(Keeps(agent)) ==> Recorded(agent) == RateBucket.Try(old(Recorded(agent)), c).0
      ensures !old(Keeps(agent)) ==> Recorded(agent) == []
      ensures forall a :: a != agent ==> Recorded(a) == old(Recorded(a))
      ensures rate.Keys == if old(Keeps(agent)) then old(rate.Keys) + {agent} else old(rate.Keys)
    {
      var b := BucketFor(agent);
      ok := RecordIn(b, agent, c);
    }

    /** What the cache holds has no bearing on the records. */
    twostate lemma SameRecords()
      requires old(Separate()) && rate == old(rate)
      requires forall a :: a in rate ==> unchanged(rate[a]) && unchanged(rate[a].data)
      ensures Separate() && Repr() == old(Repr()) && forall a :: Recorded(a) == old(Recorded(a))
    {
    }

    twostate lemma SameView()
      requires old(Separate()) && Separate() && rate == old(rate)
      requires forall a :: Recorded(a) == old(Recorded(a))
      ensures View() == old(View())
    {
      SameRecordsSameMap(old(View()), View());
    }

    /** CheckSend once it has the limits. */
    method CheckAgainst(l: Option<Limits>, agent: string, bodySize: int, x: Inputs) returns (err: Option<LimitError>)
      requires Separate()
      modifies this`rate, Repr()
      ensures Separate() && cache == old(cache)
      ensures err == VerdictOn(old(Recorded(agent)), SendCall(agent, l, bodySize, x))
      ensures old(Stores(SendCall(agent, l, bodySize, x))) ==>
                && Recorded(agent) == RateBucket.Try(old(Recorded(agent)), CallOf(l.value, x)).0
                && rate.Keys == old(rate.Keys) + {agent}
      ensures !old(Stores(SendCall(agent, l, bodySize, x))) ==>
                Recorded(agent) == old(Recorded(agent)) && rate.Keys == old(rate.Keys)
      ensures forall a :: a != agent ==> Recorded(a) == old(Recorded(a))
    {
      if l.None? { return None; }
      if l.value.maxBodyBytes > 0 && bodySize > l.value.maxBodyBytes { return Some(BodyTooLarge); }
      if l.value.maxSendPerMin > 0 {
        var ok := TryRecordFor(agent, CallOf(l.value, x));
        if !ok { return Some(RateExceeded); }
      }
      return None;
    }

    /** CheckSend once it has the limits, on the records of all agents. */
    method CheckOnRecords(l: Option<Limits>, agent: string, bodySize: int, x: Inputs) returns (err: Option<LimitError>)
      requires Separate()
      modifies this`rate, Repr()
      ensures Separate() && cache == old(cache)
      ensures err == Verdict(old(View()), SendCall(agent, l, bodySize, x))
      ensures View() == AfterSend(old(View()), SendCall(agent, l, bodySize, x))
    {
      ghost var before := View();
      err := CheckAgainst(l, agent, bodySize, x);
      AfterSendIs(before, View(), SendCall(agent, l, bodySize, x));
    }

    method CheckSend(agent: string, bodySize: int, x: Inputs) returns (err: Option<LimitError>)
      requires Valid()
      modifies this`cache, this`rate, Repr()
      ensures Valid()
      ensures cache == CacheAfter(old(cache), agent, x, cacheTTL)
      ensures err == Verdict(old(View()), SendCall(agent, old(Used(agent, x)), bodySize, x))
      ensures View() == AfterSend(old(View()), SendCall(agent, old(Used(agent, x)), bodySize, x))
    {
      var l := EffectiveLimits(agent, x);
      SameRecords();
      SameView();
      err := CheckOnRecords(l, agent, bodySize, x);
    }

    /** The stream length cap a publish uses. */
    method GetStreamMaxLen(agent: string, x: Inputs) returns (maxLen: int)
      requires Valid()
      modifies this`cache
      ensures Valid()
      ensures cache == CacheAfter(old(cache), agent, x, cacheTTL)
      ensures maxLen == match old(Used(agent, x)) case Some(l) => l.maxStreamLen case None => 0
    {
      var l := EffectiveLimits(agent, x);
      if l.None? { return 0; }
      return l.value.maxStreamLen;
    }

    method CheckPendingTasks(agent: string, current: int, x: Inputs) returns (err: Option<LimitError>)
      requires Valid()
      modifies this`cache
      ensures Valid()
      ensures cache == CacheAfter(old(cache), agent, x, cacheTTL)
      ensures err == if PendingAllowed(old(Used(agent, x)), current) then None else Some(TooManyPending)
    {
      var l := EffectiveLimits(agent, x);
      if l.None? { return None; }
      if l.value.maxPendingTasks > 0 && current > l.value.maxPendingTasks { return Some(TooManyPending); }
      return None;
    }
  }

  /** What effectiveLimits returns. */
  function UsedOf(cache: Cache, agent: string, x: Inputs, ttl: int): Option<Limits> {
    if Hit(cache, agent, x.lookupAt, ttl) then cache[agent].limits else x.answer
  }

  /** The cache after effectiveLimits. */
  function CacheAfter(cache: Cache, agent: string, x: Inputs, ttl: int): Cache {
    if Hit(cache, agent, x.lookupAt, ttl) then cache else Committed(cache, agent, x.answer, x.commitAt)
  }

  // ---------------------------------------------------------------------
  // The records of all agents
  // ---------------------------------------------------------------------

  /** The sends on record, for the agents that have a stored bucket. */
  type Records = map<string, seq<int>>

  function RecordOf(records: Records, agent: string): seq<int> {
    if agent in records then records[agent] else []
  }

  /** Whether there is a bucket for the agent, or room for one. */
  predicate Kept(records: Records, agent: string) {
    agent in records || |records| < MAX_MAP_ENTRIES
  }

  /** The records after one tryRecord; a throwaway bucket leaves none. */
  function AfterRecord(records: Records, agent: string, c: RateBucket.Call): Records {
    if Kept(records, agent) then records[agent := RateBucket.Try(RecordOf(records, agent), c).0] else records
  }

  /** One CheckSend, with the limits it used. */
  datatype SendCall = SendCall(agent: string, limits: Option<Limits>, bodySize: int, x: Inputs)

  function CallOf(l: Limits, x: Inputs): RateBucket.Call {
    RateBucket.Call(x.checkedAt, x.recordedAt, l.maxSendPerMin)
  }

  /** Whether CheckSend reaches the bucket at all. */
  predicate Counts(c: SendCall) {
    && c.limits.Some? && c.limits.value.maxSendPerMin > 0
    && !(c.limits.value.maxBodyBytes > 0 && c.bodySize > c.limits.value.maxBodyBytes)
  }

  /** The answer to a CheckSend of an agent with these sends on record. */
  function VerdictOn(sends: seq<int>, c: SendCall): Option<LimitError> {
    if c.limits.None? then None
    else if c.limits.value.maxBodyBytes > 0 && c.bodySize > c.limits.value.maxBodyBytes then Some(BodyTooLarge)
    else if c.limits.value.maxSendPerMin > 0 && !RateBucket.Try(sends, CallOf(c.limits.value, c.x)).1
    then Some(RateExceeded)
    else None
  }

  function Verdict(records: Records, c: SendCall): Option<LimitError> {
    VerdictOn(RecordOf(records, c.agent), c)
  }

  function AfterSend(records: Records, c: SendCall): Records {
    if Counts(c) then AfterRecord(records, c.agent, CallOf(c.limits.value, c.x)) else records
  }

  lemma SameRecordsSameMap(before: Records, after: Records)
    requires before.Keys == after.Keys && forall a :: RecordOf(after, a) == RecordOf(before, a)
    ensures before == after
  {
    forall a | a in before ensures a in after && before[a] == after[a] {
      assert a in after.Keys;
      assert RecordOf(after, a) == RecordOf(before, a);
    }
  }

  /** Keys and records, agent by agent, determine the map. */
  lemma AfterSendIs(before: Records, after: Records, c: SendCall)
    requires forall a :: a != c.agent ==> RecordOf(after, a) == RecordOf(before, a)
    requires Counts(c) && Kept(before, c.agent) ==>
               && RecordOf(after, c.agent) == RateBucket.Try(RecordOf(before, c.agent), CallOf(c.limits.value, c.x)).0
               && after.Keys == before.Keys + {c.agent}
    requires !(Counts(c) && Kept(before, c.agent)) ==>
               RecordOf(after, c.agent) == RecordOf(before, c.agent) && after.Keys == before.Keys
    ensures after == AfterSend(before, c)
  {
    var expected := AfterSend(before, c);
    assert after.Keys == expected.Keys;
    forall a | a in after ensures after[a] == expected[a] {
      assert a in before.Keys + {c.agent};
      assert RecordOf(after, a) == after[a];
    }
  }

  /** An agent's own row decides alone; the default row serves exactly the agents without one. */
  lemma OwnRowFirst(rows: map<string, Limits>, agent: string, own: Limits, default: Limits)
    requires agent != "*"
    ensures Effective(rows[agent := own], agent) == Some(own)
    ensures Effective((rows - {agent})["*" := default], agent) == Some(default)
    ensures Effective(rows - {agent} - {"*"}, agent) == None
  {
  }

  /** A count is refused exactly when it is above a positive limit; the limit itself still passes. */
  lemma RefusedExactlyAbove(l: Limits, current: int)
    ensures PendingAllowed(None, current)
    ensures !PendingAllowed(Some(l), current) <==> 0 < l.maxPendingTasks < current
    ensures PendingAllowed(Some(l), l.maxPendingTasks)
  {
  }

  /** A send larger than its limits' positive body cap. */
  predicate Oversize(c: SendCall) {
    c.limits.Some? && 0 < c.limits.value.maxBodyBytes < c.bodySize
  }

  /** A send under a positive rate limit. */
  predicate RateLimited(c: SendCall) {
    c.limits.Some? && c.limits.value.maxSendPerMin > 0
  }

  /**
   * CheckSend's answer: too large, else too many in the 60 seconds before the check, else
   * nothing to object to. Without limits nothing is refused.
   */
  lemma VerdictExactlyWhen(records: Records, c: SendCall)
    ensures Verdict(records, c) == Some(BodyTooLarge) <==> Oversize(c)
    ensures Verdict(records, c) == Some(RateExceeded) <==>
            && RateLimited(c) && !Oversize(c)
            && RateBucket.CountAfter(RecordOf(records, c.agent), c.x.checkedAt - 60_000_000_000)
               >= c.limits.value.maxSendPerMin
    ensures Verdict(records, c) in {None, Some(BodyTooLarge), Some(RateExceeded)}
  {
    RateBucket.NewerKeepsExactly(RecordOf(records, c.agent), c.x.checkedAt - RateBucket.MINUTE, 0);
  }

  /**
   * What CheckSend records: nothing for a send without a rate limit, too large, or of an
   * agent the full map has no bucket for; else, newer than the check's cutoff, one more
   * exactly when it is let through. Other agents' records never change.
   */
  lemma RecordsExactlyWhen(records: Records, c: SendCall, t: int)
    ensures !RateLimited(c) || Oversize(c) || (c.agent !in records && |records| >= 10_000) ==>
              AfterSend(records, c) == records
    ensures RateLimited(c) && !Oversize(c) && (c.agent in records || |records| < 10_000)
            && t >= c.x.checkedAt - 60_000_000_000 ==>
              RateBucket.CountAfter(RecordOf(AfterSend(records, c), c.agent), t) ==
              RateBucket.CountAfter(RecordOf(records, c.agent), t)
              + if Verdict(records, c).None? && c.x.recordedAt > t then 1 else 0
    ensures forall a :: a != c.agent ==> RecordOf(AfterSend(records, c), a) == RecordOf(records, a)
  {
    if RateLimited(c) && t >= c.x.checkedAt - RateBucket.MINUTE {
      RateBucket.TryAddsOne(RecordOf(records, c.agent), CallOf(c.limits.value, c.x), t);
    }
  }

  lemma UpdateSize<K, V>(m: map<K, V>, k: K, v: V)
    ensures |m[k := v]| == if k in m then |m| else |m| + 1
  {
    assert m[k := v].Keys == m.Keys + {k};
    assert |m[k := v].Keys| == |m[k := v]|;
    assert |m.Keys| == |m|;
  }
}
