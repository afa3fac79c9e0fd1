/**
 * What the delivery protocol does not guarantee, and the exact conditions: when a pending
 * entry is overwritten, how far pending entries can outgrow the limit, and why calls must
 * be counted from their count and not from their check.
 */
module DeliveryLimits {
  import opened Wrappers
  import opened Delivery
  import opened DeliveryPlaces
  import opened DeliveryInv
  import opened PendingCap
  import opened DeliveryRuns
  import Wire

  // ---------------------------------------------------------------------
  // When one pending entry overwrites another
  // ---------------------------------------------------------------------

  /** From s to s', `y` takes the place of `x` in the pending map. */
  ghost predicate Overwrites(s: State, s': State, x: Item, y: Item) {
    x != y && exists id :: id in s.pending && s.pending[id] == x && id in s'.pending && s'.pending[id] == y
  }

  ghost predicate OverwritesIn(cfg: Config, trace: seq<State>, i: nat, x: Item, y: Item) {
    IsRun(cfg, trace) && 0 < i < |trace| && Overwrites(trace[i - 1], trace[i], x, y)
  }

  lemma LoopReads(cfg: Config, s: State, h: nat, step: LoopStep)
    requires LoopEnabled(cfg, s, h, step)
    ensures s.read <= LoopApply(cfg, s, h, step).read
  {
    match step
    case GroupRead(_) =>
    case ReadLost(_) =>
    case Discard(_) =>
    case Push =>
    case Cancel =>
  }

  lemma HandlersReadNothing(cfg: Config, s: State, h: nat, step: HandlerStep)
    requires HandlerEnabled(s, h, step)
    ensures HandlerApply(cfg, s, h, step).read == s.read
  {
    match step
    case Store =>
    case AckMessage(_) =>
    case _ =>
  }

  lemma OutcomesReadNothing(cfg: Config, s: State, o: nat, step: OutcomeStep)
    requires OutcomeEnabled(s, o, step)
    ensures OutcomeApply(cfg, s, o, step).read == s.read
  {
    match step
    case Take(_) =>
    case BuildFails =>
    case Publish(_) =>
    case Ack(_) =>
  }

  /** What was read stays read. */
  lemma ReadGrows(cfg: Config, s: State, step: Step)
    requires Enabled(cfg, s, step)
    ensures s.read <= Apply(cfg, s, step).read
  {
    match step
    case Append(_) =>
    case CreateGroup(_) =>
    case Loop(h, l) => LoopReads(cfg, s, h, l);
    case Handler(h, c) => HandlersReadNothing(cfg, s, h, c);
    case Outcome(o, c) => OutcomesReadNothing(cfg, s, o, c);
    case Evict(_) =>
  }

  /** Two read entries of one topic with one ID are the same entry. */
  lemma OneIdOneEntry(s: State, x: Item, y: Item)
    requires StreamsOk(s) && x in s.read && y in s.read && x.topic == y.topic && x.id == y.id
    ensures x == y
  {
    assert BeforeCursor(s, x) && BeforeCursor(s, y) && GoodLog(LogOf(s, x.topic), x.topic);
    var log := LogOf(s, x.topic);
    var i :| 0 <= i < |log| && log[i] == x;
    var j :| 0 <= j < |log| && log[j] == y;
    assert !(i < j) && !(j < i);
  }

  lemma PendingWasRead(cfg: Config, s: State, id: string)
    requires PlacesOk(s) && KindsOk(cfg, s) && id in s.pending
    ensures s.pending[id].id == id && s.pending[id] in s.read && TaskItem(cfg, s.pending[id])
  {
    assert s.pending[id].id == id;
    PlaceIsTracked(s, s.pending[id], InPending);
  }

  lemma OverwritingNeedsOneId(cfg: Config, s: State, s': State, x: Item, y: Item)
    requires Inv(cfg, s) && Inv(cfg, s') && s.read <= s'.read && Overwrites(s, s', x, y)
    ensures TwoForOneId(cfg, x, y) && x.topic != y.topic
  {
    var id :| id in s.pending && s.pending[id] == x && id in s'.pending && s'.pending[id] == y;
    PendingWasRead(cfg, s, id);
    PendingWasRead(cfg, s', id);
    assert x in s'.read;
    if x.topic == y.topic { OneIdOneEntry(s', x, y); }
  }

  lemma OverwritingInNeedsOneId(cfg: Config, trace: seq<State>, i: nat, x: Item, y: Item)
    requires BuildsAnswers(cfg) && OverwritesIn(cfg, trace, i, x, y)
    ensures TwoForOneId(cfg, x, y) && x.topic != y.topic
  {
    var s, s' := trace[i - 1], trace[i];
    assert Inv(cfg, s) by { RunKeepsInv(cfg, trace, i - 1); }
    assert Inv(cfg, s') by { RunKeepsInv(cfg, trace, i); }
    assert s.read <= s'.read by {
      NextOf(cfg, trace, i);
      var step :| Enabled(cfg, s, step) && s' == Apply(cfg, s, step);
      ReadGrows(cfg, s, step);
    }
    OverwritingNeedsOneId(cfg, s, s', x, y);
  }

  lemma CountStep(cfg: Config, trace: seq<State>, h: nat, agent: string, w: Watch, calls: set<nat>)
    returns (longer: seq<State>)
    requires WatchedRun(cfg, trace, w) && Apart(Last(trace), w, calls)
    requires h !in Last(trace).gates && h !in Last(trace).subs
    requires WillPass(Counted(agent, |PendingOf(Last(trace), agent)|), w.agent, w.bar) ==> h in calls
    ensures WatchedRun(cfg, longer, w) && Apart(Last(longer), w, calls)
    ensures var s := Last(trace); Last(longer) == s.(gates := s.gates[h := Counted(agent, |PendingOf(s, agent)|)])
  {
    var s := Last(trace);
    StepIsNext(cfg, s, Handler(h, Count(agent)));
    longer := Extend(cfg, trace, s.(gates := s.gates[h := Counted(agent, |PendingOf(s, agent)|)]), w, calls);
  }

  lemma StartWatched(cfg: Config, w: Watch, calls: set<nat>)
    requires |calls| <= w.most
    ensures WatchedRun(cfg, [Init()], w) && Apart(Init(), w, calls)
  {
    ApartAreFew(Init(), w, calls);
  }

  function BothGates(x: Item, y: Item): map<nat, Gate>
    requires x.topic.Tasks? && y.topic.Tasks?
  {
    map[0 := Counted(x.topic.agent, 0), 1 := Counted(y.topic.agent, 0)]
  }

  lemma BothCounted(cfg: Config, x: Item, y: Item, w: Watch) returns (trace: seq<State>)
    requires x.topic.Tasks? && y.topic.Tasks? && w == Watch(x.topic.agent, PAST_CHECK, 1)
    ensures WatchedRun(cfg, trace, w) && Last(trace) == Init().(gates := BothGates(x, y))
  {
    StartWatched(cfg, w, {0});
    assert PendingOf(Init(), x.topic.agent) == {} && PendingOf(Init(), y.topic.agent) == {};
    var t0 := CountStep(cfg, [Init()], 0, x.topic.agent, w, {0});
    assert PendingOf(Last(t0), y.topic.agent) == {};
    trace := CountStep(cfg, t0, 1, y.topic.agent, w, {0});
  }

  lemma FirstIsReady(cfg: Config, s: State, x: Item, y: Item, w: Watch)
    requires x.topic.Tasks? && y.topic.Tasks? && x.id != "" && w == Watch(x.topic.agent, PAST_CHECK, 1)
    requires s == Init().(gates := BothGates(x, y))
    ensures Ready(cfg, s, 0, x.topic.agent) && NewEntry(s, x) && Apart(s, w, {0})
  {
  }

  lemma SecondIsReady(cfg: Config, s: State, s': State, x: Item, y: Item, w: Watch)
    requires x.topic.Tasks? && y.topic.Tasks? && x.topic != y.topic && y.id != ""
    requires w == Watch(x.topic.agent, PAST_CHECK, 1) && s == Init().(gates := BothGates(x, y))
    requires Fetched(s, s', 0, x) && OtherStreams(s, s', x.topic.agent)
    ensures Ready(cfg, s', 1, y.topic.agent) && NewEntry(s', y) && Apart(s', w, {0}) && s'.pending == map[x.id := x]
  {
    assert LogOf(s', y.topic) == LogOf(s, y.topic) == [];
  }

  lemma SecondOverwrites(s: State, s': State, x: Item, y: Item)
    requires x != y && x.id == y.id && s.pending == map[x.id := x] && Fetched(s, s', 1, y)
    ensures s'.pending == map[x.id := y] && x in s'.fate && s'.fate[x] == Overwritten
  {
  }

  /**
   * Any two well-formed task entries of two agents with one ID: some run overwrites the
   * first by the second in the pending map.
   */
  lemma SharedIdsLoseAnEntry(cfg: Config, x: Item, y: Item) returns (trace: seq<State>)
    requires TwoForOneId(cfg, x, y) && x.topic != y.topic
    ensures IsRun(cfg, trace) && Last(trace).pending == map[x.id := y]
    ensures x in Last(trace).fate && Last(trace).fate[x] == Overwritten
    ensures |trace| >= 2 && BeforeLast(trace).pending == map[x.id := x]
  {
    var w := Watch(x.topic.agent, PAST_CHECK, 1);
    var t0 := BothCounted(cfg, x, y, w);
    FirstIsReady(cfg, Last(t0), x, y, w);
    var t1 := GetOne(cfg, t0, 0, x, w, {0});
    SecondIsReady(cfg, Last(t0), Last(t1), x, y, w);
    trace := GetOne(cfg, t1, 1, y, w, {0});
    SecondOverwrites(Last(t1), Last(trace), x, y);
  }

  /**
   * Some run overwrites `x` by `y` exactly when both are well-formed task entries, of two
   * agents, with one ID.
   */
  lemma OverwrittenExactlyWhen(cfg: Config, x: Item, y: Item)
    requires BuildsAnswers(cfg)
    ensures (exists trace, i: nat :: OverwritesIn(cfg, trace, i, x, y))
            <==> TwoForOneId(cfg, x, y) && x.topic != y.topic
  {
    if trace, i: nat :| OverwritesIn(cfg, trace, i, x, y) {
      OverwritingInNeedsOneId(cfg, trace, i, x, y);
    }
    if TwoForOneId(cfg, x, y) && x.topic != y.topic {
      var trace := SharedIdsLoseAnEntry(cfg, x, y);
      assert x.id in BeforeLast(trace).pending && x.id in Last(trace).pending;
      assert OverwritesIn(cfg, trace, |trace| - 1, x, y);
    }
  }

  // ---------------------------------------------------------------------
  // Counting and storing, one call after the other
  // ---------------------------------------------------------------------

  /** The i-th entry of the runs below. */
  function Entry(agent: string, payload: Wire.Payload, i: nat): Item {
    Item(Tasks(agent), seq(i + 1, _ => '1'), payload)
  }

  /** Of the calls 0 to n - 1, all have read a count that passes, and the first `m` have stored an entry. */
  ghost predicate Progress(cfg: Config, s: State, agent: string, n: nat, m: nat) {
    && (forall h :: h in s.gates <==> m <= h < n)
    && (forall h :: h in s.gates ==>
          s.gates[h].Counted? && s.gates[h].agent == agent && Passes(cfg, agent, s.gates[h].count))
    && (forall h :: h in s.subs ==> h < m && s.subs[h].phase.Gone?)
    && CaughtUp(s, Tasks(agent))
    && (forall y :: y in LogOf(s, Tasks(agent)) ==> |y.id| <= m)
    && (forall id :: id in s.pending ==> |id| <= m)
    && |PendingOf(s, agent)| == m
  }

  function Range(m: nat, n: nat): (r: set<nat>)
    requires m <= n
    ensures |r| == n - m && forall h :: h in r <==> m <= h < n
    decreases n - m
  {
    if m == n then {} else Range(m, n - 1) + {n - 1}
  }

  /** Whom to watch while calls m to n - 1 are outstanding: all of them, or the next if they count from the check on. */
  function Outstanding(w: Watch, n: nat, m: nat): (r: set<nat>)
    requires m <= n
  {
    if w.bar < 0 then {m} else Range(m, n)
  }

  predicate Fits(w: Watch, agent: string, n: nat, m: nat) {
    w.agent == agent && m <= n && (if w.bar < 0 then w.most >= 1 else n - m <= w.most)
  }

  lemma ProgressIsApart(cfg: Config, s: State, agent: string, n: nat, m: nat, w: Watch, n': nat)
    requires Progress(cfg, s, agent, n, m) && n <= n' && m <= n && Fits(w, agent, n', m)
    ensures Apart(s, w, Outstanding(w, n', m))
  {
  }

  lemma ProgressCounted(cfg: Config, s: State, s': State, agent: string, n: nat, m: nat)
    requires Progress(cfg, s, agent, n, m) && m <= n && Passes(cfg, agent, m)
    requires s' == s.(gates := s.gates[n := Counted(agent, |PendingOf(s, agent)|)])
    ensures Progress(cfg, s', agent, n + 1, m)
  {
    assert PendingOf(s', agent) == PendingOf(s, agent);
  }

  lemma CountMore(cfg: Config, trace: seq<State>, agent: string, n: nat, m: nat, w: Watch) returns (longer: seq<State>)
    requires WatchedRun(cfg, trace, w) && Progress(cfg, Last(trace), agent, n, m)
    requires m <= n && Fits(w, agent, n + 1, m) && Passes(cfg, agent, m)
    ensures WatchedRun(cfg, longer, w) && Progress(cfg, Last(longer), agent, n + 1, m)
  {
    ProgressIsApart(cfg, Last(trace), agent, n, m, w, n + 1);
    longer := CountStep(cfg, trace, n, agent, w, Outstanding(w, n + 1, m));
    ProgressCounted(cfg, Last(trace), Last(longer), agent, n, m);
  }

  lemma ProgressReady(cfg: Config, s: State, agent: string, n: nat, m: nat, x: Item)
    requires Progress(cfg, s, agent, n, m) && m < n && x.topic == Tasks(agent) && |x.id| == m + 1
    ensures Ready(cfg, s, m, agent) && NewEntry(s, x)
  {
  }

  lemma ProgressStored(cfg: Config, s: State, s': State, agent: string, n: nat, m: nat, x: Item)
    requires Progress(cfg, s, agent, n, m) && m < n && x.topic == Tasks(agent) && |x.id| == m + 1
    requires Fetched(s, s', m, x)
    ensures Progress(cfg, s', agent, n, m + 1)
  {
    assert LogOf(s', Tasks(agent)) == LogOf(s, Tasks(agent)) + [x];
    OneMorePending(s, s', agent, x);
  }

  lemma OneMorePending(s: State, s': State, agent: string, x: Item)
    requires x.topic == Tasks(agent) && x.id !in s.pending && s'.pending == s.pending[x.id := x]
    ensures |PendingOf(s', agent)| == |PendingOf(s, agent)| + 1
  {
    assert PendingOf(s', agent) == PendingOf(s, agent) + {x.id};
  }

  lemma StoreNext(cfg: Config, trace: seq<State>, agent: string, payload: Wire.Payload, n: nat, m: nat, w: Watch)
    returns (longer: seq<State>)
    requires cfg.parses(payload) && WatchedRun(cfg, trace, w) && Progress(cfg, Last(trace), agent, n, m)
    requires m < n && Fits(w, agent, n, m)
    ensures WatchedRun(cfg, longer, w) && Progress(cfg, Last(longer), agent, n, m + 1)
  {
    var x := Entry(agent, payload, m);
    ProgressReady(cfg, Last(trace), agent, n, m, x);
    ProgressIsApart(cfg, Last(trace), agent, n, m, w, n);
    longer := GetOne(cfg, trace, m, x, w, Outstanding(w, n, m));
    ProgressStored(cfg, Last(trace), Last(longer), agent, n, m, x);
  }

  /** Calls n0 to n - 1 all read the count m. */
  lemma {:induction false} CountUpTo(cfg: Config, trace: seq<State>, agent: string, n0: nat, n: nat, m: nat, w: Watch)
    returns (longer: seq<State>)
    requires WatchedRun(cfg, trace, w) && Progress(cfg, Last(trace), agent, n0, m)
    requires m <= n0 <= n && Fits(w, agent, n, m) && Passes(cfg, agent, m)
    ensures WatchedRun(cfg, longer, w) && Progress(cfg, Last(longer), agent, n, m)
    decreases n - n0
  {
    longer := trace;
    if n0 < n {
      longer := CountUpTo(cfg, trace, agent, n0, n - 1, m, w);
      longer := CountMore(cfg, longer, agent, n - 1, m, w);
    }
  }

  /** Calls m0 to m - 1 store, one after the other. */
  lemma {:induction false} StoreUpTo(
    cfg: Config, trace: seq<State>, agent: string, payload: Wire.Payload, n: nat, m0: nat, m: nat, w: Watch)
    returns (longer: seq<State>)
    requires cfg.parses(payload) && WatchedRun(cfg, trace, w) && Progress(cfg, Last(trace), agent, n, m0)
    requires m0 <= m <= n && Fits(w, agent, n, m0)
    ensures WatchedRun(cfg, longer, w) && Progress(cfg, Last(longer), agent, n, m)
    decreases m - m0
  {
    longer := trace;
    if m0 < m {
      longer := StoreUpTo(cfg, trace, agent, payload, n, m0, m - 1, w);
      longer := StoreNext(cfg, longer, agent, payload, n, m - 1, w);
    }
  }

  lemma StartProgress(cfg: Config, agent: string, w: Watch)
    ensures WatchedRun(cfg, [Init()], w) && Progress(cfg, Init(), agent, 0, 0)
  {
    StartWatched(cfg, w, {});
    assert PendingOf(Init(), agent) == {};
  }

  // ---------------------------------------------------------------------
  // The cap is reached
  // ---------------------------------------------------------------------

  /** One call at a time counts and stores, as long as the count passes. */
  lemma {:induction false} OneAfterTheOther(cfg: Config, agent: string, payload: Wire.Payload, m: nat, w: Watch)
    returns (trace: seq<State>)
    requires cfg.parses(payload) && w.agent == agent && w.most >= 1 && (m > 0 ==> Passes(cfg, agent, m - 1))
    ensures WatchedRun(cfg, trace, w) && Progress(cfg, Last(trace), agent, m, m)
  {
    if m == 0 {
      trace := [Init()];
      StartProgress(cfg, agent, w);
    } else {
      trace := OneAfterTheOther(cfg, agent, payload, m - 1, w);
      trace := CountMore(cfg, trace, agent, m - 1, m - 1, w);
      trace := StoreNext(cfg, trace, agent, payload, m, m - 1, w);
    }
  }

  /**
   * L + k is reached: for every limit L and every k some run has never more than k calls of
   * the agent on their way and ends with exactly L + k entries pending for it.
   */
  lemma CapIsReached(cfg: Config, agent: string, payload: Wire.Payload, limit: int, k: nat) returns (trace: seq<State>)
    requires cfg.parses(payload) && cfg.maxPending(agent) == limit > 0 && k >= 1
    ensures WatchedRun(cfg, trace, Watch(agent, limit, k)) && |PendingOf(Last(trace), agent)| == limit + k
  {
    var w := Watch(agent, limit, k);
    trace := OneAfterTheOther(cfg, agent, payload, limit, w);
    trace := CountUpTo(cfg, trace, agent, limit, limit + k, limit, w);
    trace := StoreUpTo(cfg, trace, agent, payload, limit + k, limit, limit + k, w);
  }

  lemma WatchedStaysWithinLimit(cfg: Config, trace: seq<State>, agent: string, limit: int, most: nat)
    requires BuildsAnswers(cfg) && cfg.maxPending(agent) == limit > 0
    requires WatchedRun(cfg, trace, Watch(agent, limit, most))
    ensures |PendingOf(Last(trace), agent)| <= limit + most
  {
    forall j | 0 <= j <= |trace| - 1 ensures FewAdmitted(trace[j], agent, limit, most) {
      assert FewOnTheirWay(trace[j], Watch(agent, limit, most));
    }
    PendingStaysWithinLimit(cfg, trace, agent, limit, most, |trace| - 1);
  }

  /**
   * The cap, exactly: every run with at most `most` calls of the agent on their way keeps its
   * pending entries within L + k if and only if most <= k.
   */
  lemma CapIsExact(cfg: Config, agent: string, payload: Wire.Payload, limit: int, most: nat, k: nat)
    requires BuildsAnswers(cfg) && cfg.parses(payload) && cfg.maxPending(agent) == limit > 0
    ensures (forall trace :: WatchedRun(cfg, trace, Watch(agent, limit, most)) ==>
               |PendingOf(Last(trace), agent)| <= limit + k)
            <==> most <= k
  {
    if most <= k {
      forall trace | WatchedRun(cfg, trace, Watch(agent, limit, most))
        ensures |PendingOf(Last(trace), agent)| <= limit + k
      {
        WatchedStaysWithinLimit(cfg, trace, agent, limit, most);
      }
    } else {
      var trace := CapIsReached(cfg, agent, payload, limit, most);
    }
  }

  // ---------------------------------------------------------------------
  // Stale counts
  // ---------------------------------------------------------------------

  /** The get_task calls of the agent between their check and their Store. */
  function PastCheck(s: State, agent: string): set<nat> {
    (set h | h in s.gates && s.gates[h] == Passed(agent)) + (set h | h in s.subs && MayStore(s.subs[h], agent))
  }

  /** A count is never within a bar of -1, so what is watched is the calls past their check. */
  lemma PastCheckIsWatched(s: State, agent: string)
    ensures PastCheck(s, agent) == Admitted(s, agent, PAST_CHECK)
  {
    forall h | h in s.gates ensures WillPass(s.gates[h], agent, PAST_CHECK) <==> s.gates[h] == Passed(agent) {
    }
  }

  /**
   * Counting calls only from their check on bounds nothing: whatever the limit, for every n
   * some run has never more than one call of the agent past its check, and ends with n
   * entries pending for the agent.
   */
  lemma StaleCountsPassTheCheck(cfg: Config, agent: string, payload: Wire.Payload, n: nat) returns (trace: seq<State>)
    requires cfg.parses(payload)
    ensures IsRun(cfg, trace) && (forall i :: 0 <= i < |trace| ==> |PastCheck(trace[i], agent)| <= 1)
    ensures |PendingOf(Last(trace), agent)| == n
  {
    var w := Watch(agent, PAST_CHECK, 1);
    StartProgress(cfg, agent, w);
    trace := CountUpTo(cfg, [Init()], agent, 0, n, 0, w);
    trace := StoreUpTo(cfg, trace, agent, payload, n, 0, n, w);
    forall i | 0 <= i < |trace| ensures |PastCheck(trace[i], agent)| <= 1 {
      assert FewOnTheirWay(trace[i], w);
      PastCheckIsWatched(trace[i], agent);
    }
  }
}
