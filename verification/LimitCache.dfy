/**
 * How stale a cached limit can be. `effectiveLimits` checks the cache, fetches with the
 * lock released and commits; those are separate steps here, and any number of calls, store
 * writes and clock ticks interleave between them (internal/gateway/limiter.go).
 */
module LimitCache {
  import opened Wrappers
  import opened Limiter

  /** The rows of the store from `at` on. */
  datatype Version = Version(at: int, rows: map<string, Limits>)

  /** One answer of the store: `version` is the version it read, `failed` an error (counted as none). */
  datatype Answer = Answer(agent: string, value: Option<Limits>, at: int, version: nat, failed: bool)

  /** A limits value returned to a caller, with the answer it stems from and when that was committed. */
  datatype Use = Use(agent: string, value: Option<Limits>, at: int, answer: Answer, committedAt: int)

  datatype Call = Missed(agent: string) | Fetched(answer: Answer)

  /** `origins` and `uses` are history: the program keeps neither. */
  datatype State = State(
    now: int, versions: seq<Version>, cache: Cache, calls: map<nat, Call>,
    origins: map<string, Answer>, uses: seq<Use>)

  datatype Step =
    | Advance(to: int)
    | Write(rows: map<string, Limits>)
    | Begin(call: nat, agent: string)
    | Fetch(call: nat, failed: bool)
    | Commit(call: nat)

  predicate Enabled(s: State, step: Step) {
    match step
    case Advance(to) => to >= s.now
    case Write(_) => true
    case Begin(c, _) => c !in s.calls
    case Fetch(c, _) => c in s.calls && s.calls[c].Missed? && s.versions != []
    case Commit(c) => c in s.calls && s.calls[c].Fetched?
  }

  /** What the store answers now. */
  function Ask(s: State, agent: string, failed: bool): Answer
    requires s.versions != []
  {
    var v := |s.versions| - 1;
    Answer(agent, if failed then None else Effective(s.versions[v].rows, agent), s.now, v, failed)
  }

  /** The answer a cached entry was committed from. */
  function OriginOf(s: State, agent: string): Answer {
    if agent in s.origins then s.origins[agent] else Answer(agent, None, 0, 0, true)
  }

  function Apply(s: State, ttl: int, step: Step): State
    requires Enabled(s, step)
  {
    match step
    case Advance(to) => s.(now := to)
    case Write(rows) => s.(versions := s.versions + [Version(s.now, rows)])
    case Begin(c, agent) =>
      if Hit(s.cache, agent, s.now, ttl)
      then s.(uses := s.uses + [Use(agent, s.cache[agent].limits, s.now, OriginOf(s, agent), s.cache[agent].fetchAt)])
      else s.(calls := s.calls[c := Missed(agent)])
    case Fetch(c, failed) => s.(calls := s.calls[c := Fetched(Ask(s, s.calls[c].agent, failed))])
    case Commit(c) =>
      var a := s.calls[c].answer;
      s.(cache := Committed(s.cache, a.agent, a.value, s.now),
         origins := if |s.cache| < MAX_MAP_ENTRIES then s.origins[a.agent := a] else s.origins,
         calls := s.calls - {c},
         uses := s.uses + [Use(a.agent, a.value, s.now, a, s.now)])
  }

  // ---------------------------------------------------------------------
  // The invariant
  // ---------------------------------------------------------------------

  /** Version `v` is what the store held at instant `t`. */
  ghost predicate InForce(versions: seq<Version>, v: nat, t: int) {
    v < |versions| && versions[v].at <= t && (v + 1 < |versions| ==> t <= versions[v + 1].at)
  }

  /** The answer is what the store held for that agent at that instant, or an error. */
  ghost predicate Truthful(s: State, a: Answer) {
    && a.at <= s.now
    && InForce(s.versions, a.version, a.at)
    && a.value == if a.failed then None else Effective(s.versions[a.version].rows, a.agent)
  }

  /** The use returned a truthful answer for its agent, committed no later than the use and within ttl of it. */
  ghost predicate FreshUse(s: State, ttl: int, u: Use) {
    && Truthful(s, u.answer)
    && u.answer.agent == u.agent && u.answer.value == u.value
    && u.answer.at <= u.committedAt <= u.at
    && (u.at == u.committedAt || u.at - u.committedAt < ttl)
  }

  ghost predicate Traced(s: State, agent: string)
    requires agent in s.cache
  {
    && agent in s.origins
    && Truthful(s, s.origins[agent])
    && s.origins[agent].agent == agent && s.origins[agent].value == s.cache[agent].limits
    && s.origins[agent].at <= s.cache[agent].fetchAt <= s.now
  }

  ghost predicate VersionsOk(s: State) {
    && s.versions != []
    && (forall v :: 0 <= v < |s.versions| ==> s.versions[v].at <= s.now)
    && (forall v, w :: 0 <= v < w < |s.versions| ==> s.versions[v].at <= s.versions[w].at)
  }

  ghost predicate CallsOk(s: State) {
    forall c :: c in s.calls && s.calls[c].Fetched? ==> Truthful(s, s.calls[c].answer)
  }

  ghost predicate CacheOk(s: State) {
    |s.cache| <= MAX_MAP_ENTRIES && forall agent :: agent in s.cache ==> Traced(s, agent)
  }

  ghost predicate UsesOk(s: State, ttl: int) {
    forall i :: 0 <= i < |s.uses| ==> FreshUse(s, ttl, s.uses[i])
  }

  ghost predicate Inv(s: State, ttl: int) {
    VersionsOk(s) && CallsOk(s) && CacheOk(s) && UsesOk(s, ttl)
  }

  ghost predicate Init(s: State) {
    |s.versions| == 1 && s.versions[0].at <= s.now && s.cache == map[] && s.calls == map[]
    && s.origins == map[] && s.uses == []
  }

  /** A truthful answer stays one: the clock and the store's history only grow. */
  lemma TruthLasts(s: State, ttl: int, step: Step, a: Answer)
    requires VersionsOk(s) && Enabled(s, step) && Truthful(s, a)
    ensures Truthful(Apply(s, ttl, step), a)
  {
  }

  lemma VersionsKept(s: State, ttl: int, step: Step)
    requires VersionsOk(s) && Enabled(s, step)
    ensures VersionsOk(Apply(s, ttl, step))
  {
  }

  lemma CallsKept(s: State, ttl: int, step: Step)
    requires VersionsOk(s) && CallsOk(s) && Enabled(s, step)
    ensures CallsOk(Apply(s, ttl, step))
  {
    var s' := Apply(s, ttl, step);
    forall c | c in s'.calls && s'.calls[c].Fetched? ensures Truthful(s', s'.calls[c].answer) {
      if c in s.calls && s.calls[c].Fetched? { TruthLasts(s, ttl, step, s.calls[c].answer); }
    }
  }

  lemma CommitKeepsCache(s: State, ttl: int, c: nat)
    requires VersionsOk(s) && CallsOk(s) && CacheOk(s) && Enabled(s, Commit(c))
    ensures CacheOk(Apply(s, ttl, Commit(c)))
  {
    var s' := Apply(s, ttl, Commit(c));
    var a := s.calls[c].answer;
    UpdateSize(s.cache, a.agent, CacheEntry(a.value, s.now));
    assert Truthful(s, a);
    forall agent | agent in s'.cache ensures Traced(s', agent) {
      if agent in s.cache { assert Traced(s, agent); }
    }
  }

  lemma CacheKept(s: State, ttl: int, step: Step)
    requires VersionsOk(s) && CallsOk(s) && CacheOk(s) && Enabled(s, step)
    ensures CacheOk(Apply(s, ttl, step))
  {
    if step.Commit? {
      CommitKeepsCache(s, ttl, step.call);
    } else {
      var s' := Apply(s, ttl, step);
      forall agent | agent in s'.cache ensures Traced(s', agent) {
        assert Traced(s, agent);
        TruthLasts(s, ttl, step, s.origins[agent]);
      }
    }
  }

  lemma NewUseIsFresh(s: State, ttl: int, step: Step)
    requires Inv(s, ttl) && Enabled(s, step) && |Apply(s, ttl, step).uses| > |s.uses|
    ensures FreshUse(Apply(s, ttl, step), ttl, Apply(s, ttl, step).uses[|s.uses|])
  {
    if step.Begin? {
      assert Traced(s, step.agent);
      TruthLasts(s, ttl, step, s.origins[step.agent]);
    } else {
      TruthLasts(s, ttl, step, s.calls[step.call].answer);
    }
  }

  lemma UsesKept(s: State, ttl: int, step: Step)
    requires Inv(s, ttl) && Enabled(s, step)
    ensures UsesOk(Apply(s, ttl, step), ttl)
  {
    var s' := Apply(s, ttl, step);
    forall i | 0 <= i < |s'.uses| ensures FreshUse(s', ttl, s'.uses[i]) {
      if i < |s.uses| {
        assert s'.uses[i] == s.uses[i];
        assert FreshUse(s, ttl, s.uses[i]);
        TruthLasts(s, ttl, step, s.uses[i].answer);
      } else {
        NewUseIsFresh(s, ttl, step);
      }
    }
  }

  ghost predicate Next(s: State, ttl: int, s': State) {
    exists step :: Enabled(s, step) && s' == Apply(s, ttl, step)
  }

  lemma NextKeeps(s: State, ttl: int, s': State)
    requires Inv(s, ttl) && Next(s, ttl, s')
    ensures Inv(s', ttl)
  {
    var step :| Enabled(s, step) && s' == Apply(s, ttl, step);
    VersionsKept(s, ttl, step);
    CallsKept(s, ttl, step);
    CacheKept(s, ttl, step);
    UsesKept(s, ttl, step);
  }

  ghost predicate NextAt(trace: seq<State>, ttl: int, i: int)
    requires 0 < i < |trace|
  {
    Next(trace[i - 1], ttl, trace[i])
  }

  /** A run: it starts in an initial state and each state follows by some step. */
  ghost predicate IsRun(trace: seq<State>, ttl: int) {
    && trace != [] && Init(trace[0])
    && (forall i :: 0 < i < |trace| ==> NextAt(trace, ttl, i))
  }

  lemma {:induction false} RunKeepsInv(trace: seq<State>, ttl: int, i: nat)
    requires IsRun(trace, ttl) && i < |trace|
    ensures Inv(trace[i], ttl)
  {
    if i > 0 {
      RunKeepsInv(trace, ttl, i - 1);
      assert NextAt(trace, ttl, i);
      NextKeeps(trace[i - 1], ttl, trace[i]);
    }
  }

  // ---------------------------------------------------------------------
  // Staleness
  // ---------------------------------------------------------------------

  /**
   * In every run, every limits value used is what the store held (an error counting as
   * none) at an instant before the use by less than ttl plus that answer's own
   * fetch-to-commit delay; a value used by the very call that fetched it is exactly that
   * delay old.
   */
  lemma UsesAreRecentTruth(trace: seq<State>, ttl: int, i: nat, u: Use)
    requires IsRun(trace, ttl) && i < |trace| && u in trace[i].uses
    ensures Truthful(trace[i], u.answer) && u.answer.agent == u.agent && u.answer.value == u.value
    ensures u.answer.at <= u.committedAt <= u.at
    ensures u.at == u.committedAt || u.at - u.answer.at < ttl + (u.committedAt - u.answer.at)
  {
    RunKeepsInv(trace, ttl, i);
    assert FreshUse(trace[i], ttl, u);
  }

  /** The last version is the only one in force after its start. */
  lemma OnlyLastInForce(s: State, v: nat, t: int)
    requires VersionsOk(s) && InForce(s.versions, v, t) && t > s.versions[|s.versions| - 1].at
    ensures v == |s.versions| - 1
  {
  }

  /**
   * A change of limits takes effect within ttl plus the longest delay: once the current
   * rows have stood that long, every use that did not stem from a store error returns them.
   */
  lemma ChangesTakeEffect(trace: seq<State>, ttl: int, delay: int, i: nat, u: Use)
    requires IsRun(trace, ttl) && i < |trace| && u in trace[i].uses && ttl > 0
    requires !u.answer.failed && u.committedAt - u.answer.at <= delay
    requires trace[i].versions != [] && u.at >= trace[i].versions[|trace[i].versions| - 1].at + ttl + delay
    ensures u.value == Effective(trace[i].versions[|trace[i].versions| - 1].rows, u.agent)
  {
    UsesAreRecentTruth(trace, ttl, i, u);
    RunKeepsInv(trace, ttl, i);
    OnlyLastInForce(trace[i], u.answer.version, u.answer.at);
  }

  /** A full cache never changes again: it evicts nothing and takes nothing. */
  lemma {:induction false} FullCacheIsFrozen(trace: seq<State>, ttl: int, i: nat, j: nat)
    requires IsRun(trace, ttl) && i <= j < |trace| && |trace[i].cache| == 10_000
    ensures trace[j].cache == trace[i].cache && trace[j].now >= trace[i].now
  {
    if i < j {
      FullCacheIsFrozen(trace, ttl, i, j - 1);
      assert NextAt(trace, ttl, j);
    }
  }

  /** From ttl after the cache filled up, no lookup of any agent ever hits it again. */
  lemma FullCacheGoesDead(trace: seq<State>, ttl: int, i: nat, j: nat, agent: string)
    requires IsRun(trace, ttl) && i <= j < |trace| && |trace[i].cache| == 10_000
    requires trace[j].now >= trace[i].now + ttl
    ensures !Hit(trace[j].cache, agent, trace[j].now, ttl)
  {
    FullCacheIsFrozen(trace, ttl, i, j);
    RunKeepsInv(trace, ttl, i);
    if agent in trace[i].cache { assert Traced(trace[i], agent); }
  }

  lemma RunExtends(trace: seq<State>, ttl: int, step: Step, s': State)
    requires IsRun(trace, ttl) && Enabled(trace[|trace| - 1], step) && s' == Apply(trace[|trace| - 1], ttl, step)
    ensures IsRun(trace + [s'], ttl)
  {
    var longer := trace + [s'];
    forall i | 0 < i < |longer| ensures NextAt(longer, ttl, i) {
      if i < |trace| {
        assert NextAt(trace, ttl, i);
      } else {
        assert Next(trace[|trace| - 1], ttl, s');
      }
    }
  }

  /** A call misses and fetches, the rows are replaced at once, and the call is slow to commit. */
  lemma SlowFetch(rows: map<string, Limits>, rows': map<string, Limits>, agent: string, ttl: int, delay: int)
    returns (trace: seq<State>, a: Answer)
    requires delay >= 1
    ensures a.agent == agent && a.value == Effective(rows, agent)
    ensures IsRun(trace, ttl)
    ensures trace[|trace| - 1] ==
            State(delay, [Version(0, rows), Version(0, rows')], map[], map[0 := Fetched(a)], map[], [])
  {
    a := Answer(agent, Effective(rows, agent), 0, 0, false);
    var s0 := State(0, [Version(0, rows)], map[], map[], map[], []);
    var s1 := s0.(calls := map[0 := Missed(agent)]);
    var s2 := s1.(calls := map[0 := Fetched(a)]);
    var s3 := s2.(versions := [Version(0, rows), Version(0, rows')]);
    RunExtends([s0], ttl, Begin(0, agent), s1);
    RunExtends([s0] + [s1], ttl, Fetch(0, false), s2);
    assert s3.versions == s2.versions + [Version(0, rows')];
    RunExtends([s0] + [s1] + [s2], ttl, Write(rows'), s3);
    trace := [s0] + [s1] + [s2] + [s3];
    RunExtends(trace, ttl, Advance(delay), s3.(now := delay));
    trace := trace + [s3.(now := delay)];
  }

  /**
   * The delay cannot be left out of the bound: for every ttl and every delay, some run
   * still uses the old rows ttl + delay - 1 after they were replaced.
   */
  lemma DelayAddsToTheBound(rows: map<string, Limits>, rows': map<string, Limits>, agent: string, ttl: int, delay: int)
    returns (trace: seq<State>, u: Use)
    requires ttl > 0 && delay >= 1
    ensures IsRun(trace, ttl)
    ensures var s := trace[|trace| - 1];
            && u in s.uses && u.agent == agent && u.value == Effective(rows, agent)
            && |s.versions| == 2 && s.versions[1].rows == rows' && u.at - s.versions[1].at == ttl + delay - 1
  {
    var a;
    trace, a := SlowFetch(rows, rows', agent, ttl, delay);
    var s4 := trace[|trace| - 1];
    var late := delay + ttl - 1;
    u := Use(agent, a.value, late, a, delay);
    var s5 := State(delay, s4.versions, map[agent := CacheEntry(a.value, delay)], map[], map[agent := a],
                    [Use(agent, a.value, delay, a, delay)]);
    assert map[0 := Fetched(a)] - {0} == map[];
    RunExtends(trace, ttl, Commit(0), s5);
    trace := trace + [s5];
    RunExtends(trace, ttl, Advance(late), s5.(now := late));
    trace := trace + [s5.(now := late)];
    RunExtends(trace, ttl, Begin(0, agent), s5.(now := late, uses := s5.uses + [u]));
    trace := trace + [s5.(now := late, uses := s5.uses + [u])];
  }

  // ---------------------------------------------------------------------
  // One call on its own
  // ---------------------------------------------------------------------

  /** A use with this value was added to the history, and the cache is what effectiveLimits leaves. */
  ghost predicate Answers(s: State, s': State, ttl: int, agent: string, x: Inputs) {
    && |s'.uses| == |s.uses| + 1 && s'.uses[|s.uses|].value == UsedOf(s.cache, agent, x, ttl)
    && s'.cache == CacheAfter(s.cache, agent, x, ttl)
  }

  /** effectiveLimits on a hit, with nothing in between, is Begin alone. */
  lemma HitIsOneStep(s: State, ttl: int, c: nat, agent: string, x: Inputs)
    requires c !in s.calls && x.lookupAt == s.now && Hit(s.cache, agent, x.lookupAt, ttl)
    ensures Answers(s, Apply(s, ttl, Begin(c, agent)), ttl, agent, x)
  {
  }

  /** On a miss it is Begin, Fetch, Advance and Commit. */
  lemma MissIsFourSteps(s: State, ttl: int, c: nat, agent: string, x: Inputs, failed: bool)
    requires s.versions != [] && c !in s.calls && !Hit(s.cache, agent, x.lookupAt, ttl)
    requires x.lookupAt == s.now <= x.commitAt && x.answer == Ask(s, agent, failed).value
    ensures var s2 := Apply(Apply(s, ttl, Begin(c, agent)), ttl, Fetch(c, failed));
            Answers(s, Apply(Apply(s2, ttl, Advance(x.commitAt)), ttl, Commit(c)), ttl, agent, x)
  {
    assert Apply(s, ttl, Begin(c, agent)) == s.(calls := s.calls[c := Missed(agent)]);
  }

  // ---------------------------------------------------------------------
  // The cache does fill up
  // ---------------------------------------------------------------------

  /** The n-th agent of the run below. */
  function AgentName(n: nat): string {
    seq(n + 1, _ => 'a')
  }

  /** No call is under way and the cache holds `n` agents, with names of at most `n` letters. */
  ghost predicate Filled(s: State, n: nat) {
    && s.calls == map[] && s.versions != [] && |s.cache| == n
    && forall agent :: agent in s.cache ==> |agent| <= n
  }

  lemma BeginMisses(s: State, ttl: int, n: nat)
    requires Filled(s, n)
    ensures Enabled(s, Begin(0, AgentName(n)))
    ensures Apply(s, ttl, Begin(0, AgentName(n))) == s.(calls := map[0 := Missed(AgentName(n))])
  {
  }

  lemma CommitFills(s: State, ttl: int, n: nat, a: Answer)
    requires Filled(s.(calls := map[]), n) && n < MAX_MAP_ENTRIES
    requires a.agent == AgentName(n) && s.calls == map[0 := Fetched(a)]
    ensures Filled(Apply(s, ttl, Commit(0)), n + 1)
  {
    assert s.calls - {0} == map[];
    UpdateSize(s.cache, a.agent, CacheEntry(a.value, s.now));
  }

  lemma FillOne(trace: seq<State>, ttl: int, n: nat) returns (longer: seq<State>)
    requires IsRun(trace, ttl) && Filled(trace[|trace| - 1], n) && n < MAX_MAP_ENTRIES
    ensures IsRun(longer, ttl) && Filled(longer[|longer| - 1], n + 1)
  {
    var s := trace[|trace| - 1];
    var s1 := s.(calls := map[0 := Missed(AgentName(n))]);
    var a := Ask(s1, AgentName(n), false);
    var s2 := s.(calls := map[0 := Fetched(a)]);
    var s3 := Apply(s2, ttl, Commit(0));
    BeginMisses(s, ttl, n);
    CommitFills(s2, ttl, n, a);
    RunExtends(trace, ttl, Begin(0, AgentName(n)), s1);
    RunExtends(trace + [s1], ttl, Fetch(0, false), s2);
    RunExtends(trace + [s1] + [s2], ttl, Commit(0), s3);
    longer := trace + [s1] + [s2] + [s3];
  }

  /** From any rows and for every n up to the cap, some run fills the cache with n entries. */
  lemma {:induction false} CacheFillsUp(rows: map<string, Limits>, ttl: int, n: nat) returns (trace: seq<State>)
    requires n <= 10_000
    ensures IsRun(trace, ttl) && |trace[|trace| - 1].cache| == n && Filled(trace[|trace| - 1], n)
  {
    if n == 0 {
      trace := [State(0, [Version(0, rows)], map[], map[], map[], [])];
    } else {
      trace := CacheFillsUp(rows, ttl, n - 1);
      trace := FillOne(trace, ttl, n - 1);
    }
  }
}
