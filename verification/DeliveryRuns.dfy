/**
 * Building runs of the delivery protocol: whole calls of get_task, from the count to the
 * Store, appended to a run while watching how many calls are on their way.
 */
module DeliveryRuns {
  import opened Wrappers
  import opened Delivery
  import opened PendingCap

  function Last(trace: seq<State>): State
    requires trace != []
  {
    trace[|trace| - 1]
  }

  function BeforeLast(trace: seq<State>): State
    requires |trace| >= 2
  {
    trace[|trace| - 2]
  }

  /**
   * What is watched along a run: the calls of an agent on their way, counted from a count
   * within `bar` on, of which there may be `most` at once. With a bar of -1 a call counts
   * only from its check on.
   */
  datatype Watch = Watch(agent: string, bar: int, most: nat)

  const PAST_CHECK: int := -1

  ghost predicate FewOnTheirWay(s: State, w: Watch) {
    FewAdmitted(s, w.agent, w.bar, w.most)
  }

  ghost predicate AlwaysFew(trace: seq<State>, w: Watch) {
    forall i :: 0 <= i < |trace| ==> FewOnTheirWay(trace[i], w)
  }

  /** A run with never more calls on their way than watched for. */
  ghost predicate WatchedRun(cfg: Config, trace: seq<State>, w: Watch) {
    IsRun(cfg, trace) && AlwaysFew(trace, w)
  }

  /** Only these calls of the watched agent are on their way, and they are few. */
  ghost predicate Apart(s: State, w: Watch, calls: set<nat>) {
    && |calls| <= w.most
    && (forall h :: h in s.gates && WillPass(s.gates[h], w.agent, w.bar) ==> h in calls)
    && (forall h :: h in s.subs && MayStore(s.subs[h], w.agent) ==> h in calls)
  }

  lemma ApartAreFew(s: State, w: Watch, calls: set<nat>)
    requires Apart(s, w, calls)
    ensures FewOnTheirWay(s, w)
  {
    SmallerSet(Admitted(s, w.agent, w.bar), calls);
  }

  lemma Extend(cfg: Config, trace: seq<State>, s': State, w: Watch, calls: set<nat>) returns (longer: seq<State>)
    requires WatchedRun(cfg, trace, w) && Next(cfg, Last(trace), s') && Apart(s', w, calls)
    ensures WatchedRun(cfg, longer, w) && |longer| >= 2 && Last(longer) == s' && BeforeLast(longer) == Last(trace)
  {
    longer := trace + [s'];
    ApartAreFew(s', w, calls);
    forall i | 0 < i < |longer| ensures NextAt(cfg, longer, i) {
      if i < |trace| { assert NextAt(cfg, trace, i); }
    }
  }

  lemma ExtendTwice(cfg: Config, trace: seq<State>, s1: State, s2: State, w: Watch, calls: set<nat>)
    returns (longer: seq<State>)
    requires WatchedRun(cfg, trace, w)
    requires Next(cfg, Last(trace), s1) && Apart(s1, w, calls) && Next(cfg, s1, s2) && Apart(s2, w, calls)
    ensures WatchedRun(cfg, longer, w) && Last(longer) == s2
  {
    var once := Extend(cfg, trace, s1, w, calls);
    longer := Extend(cfg, once, s2, w, calls);
  }

  lemma StepIsNext(cfg: Config, s: State, step: Step)
    requires Enabled(cfg, s, step)
    ensures Next(cfg, s, Apply(cfg, s, step))
  {
  }

  // ---------------------------------------------------------------------
  // One call of get_task, from its check to its Store
  // ---------------------------------------------------------------------

  predicate CaughtUp(s: State, t: Topic) {
    t in s.cursors ==> CursorOf(s, t) == |LogOf(s, t)|
  }

  predicate Passes(cfg: Config, agent: string, count: nat) {
    !(cfg.maxPending(agent) > 0 && count > cfg.maxPending(agent))
  }

  /** The call has read a count that passes, and is about to check it. */
  ghost predicate Ready(cfg: Config, s: State, h: nat, agent: string) {
    && h in s.gates && h !in s.subs && CaughtUp(s, Tasks(agent))
    && s.gates[h].Counted? && s.gates[h].agent == agent && Passes(cfg, agent, s.gates[h].count)
  }

  /** The call has subscribed; its channel holds `slot`. */
  ghost predicate Subscribed(s: State, s': State, h: nat, agent: string, slot: Option<Item>) {
    && s'.gates == s.gates - {h} && s'.subs == s.subs[h := Sub(Tasks(agent), [], slot, true, Waiting)]
    && s'.pending == s.pending && s'.fate == s.fate
    && Tasks(agent) in s'.cursors && CaughtUp(s', Tasks(agent))
  }

  /** Streams other than the agent's are as before. */
  ghost predicate OtherStreams(s: State, s': State, agent: string) {
    forall t :: t != Tasks(agent) ==>
      LogOf(s', t) == LogOf(s, t) && (t in s'.cursors <==> t in s.cursors) && CursorOf(s', t) == CursorOf(s, t)
  }

  lemma CheckPasses(cfg: Config, s: State, h: nat, agent: string)
    requires Ready(cfg, s, h, agent)
    ensures Next(cfg, s, s.(gates := s.gates[h := Passed(agent)]))
  {
    StepIsNext(cfg, s, Handler(h, Check));
  }

  lemma SubscribeOpens(cfg: Config, s: State, h: nat, agent: string)
    requires h in s.gates && h !in s.subs && s.gates[h] == Passed(agent)
    ensures Next(cfg, s, Open(s, h, Tasks(agent)))
  {
    StepIsNext(cfg, s, Handler(h, Subscribe));
  }

  lemma OpenSubscribes(cfg: Config, s0: State, s: State, h: nat, agent: string)
    requires Ready(cfg, s0, h, agent) && s == s0.(gates := s0.gates[h := Passed(agent)])
    ensures Subscribed(s0, Open(s, h, Tasks(agent)), h, agent, None)
    ensures OtherStreams(s0, Open(s, h, Tasks(agent)), agent) && Open(s, h, Tasks(agent)).logs == s0.logs
  {
    assert Open(s, h, Tasks(agent)).gates == s0.gates - {h};
  }

  lemma Admit(cfg: Config, trace: seq<State>, h: nat, agent: string, w: Watch, calls: set<nat>)
    returns (longer: seq<State>)
    requires WatchedRun(cfg, trace, w) && Ready(cfg, Last(trace), h, agent)
    requires Apart(Last(trace), w, calls) && (agent == w.agent ==> h in calls)
    ensures WatchedRun(cfg, longer, w) && Apart(Last(longer), w, calls)
    ensures Subscribed(Last(trace), Last(longer), h, agent, None)
    ensures OtherStreams(Last(trace), Last(longer), agent) && Last(longer).logs == Last(trace).logs
  {
    var s := Last(trace);
    var s1 := s.(gates := s.gates[h := Passed(agent)]);
    var s2 := Open(s1, h, Tasks(agent));
    CheckPasses(cfg, s, h, agent);
    SubscribeOpens(cfg, s1, h, agent);
    OpenSubscribes(cfg, s, s1, h, agent);
    longer := ExtendTwice(cfg, trace, s1, s2, w, calls);
  }

  /** An entry the stream can take: a non-empty ID it does not use yet. */
  ghost predicate NewEntry(s: State, x: Item) {
    x.id != "" && forall y :: y in LogOf(s, x.topic) ==> y.id != x.id
  }

  /** Only call `h` and the streams changed. */
  ghost predicate OnlySub(s: State, s': State, h: nat, sub: Sub) {
    s'.gates == s.gates && s'.subs == s.subs[h := sub] && s'.pending == s.pending && s'.fate == s.fate
  }

  ghost predicate SameStreams(s: State, s': State) {
    s'.logs == s.logs && s'.cursors == s.cursors
  }

  /** The entry was appended to its stream and read by the group. */
  ghost predicate ReadOne(s: State, s': State, x: Item) {
    s'.logs == s.logs[x.topic := LogOf(s, x.topic) + [x]] && s'.cursors == s.cursors[x.topic := |LogOf(s, x.topic)| + 1]
  }

  function WaitingSub(t: Topic, batch: seq<Item>, slot: Option<Item>): Sub {
    Sub(t, batch, slot, true, Waiting)
  }

  lemma ApartKept(s: State, s': State, h: nat, sub: Sub, w: Watch, calls: set<nat>)
    requires Apart(s, w, calls) && h in s.subs && sub.topic == s.subs[h].topic && !s.subs[h].phase.Gone?
    requires s'.gates == s.gates && s'.subs == s.subs[h := sub]
    ensures Apart(s', w, calls)
  {
    assert MayStore(sub, w.agent) ==> MayStore(s.subs[h], w.agent);
  }

  lemma AppendStep(cfg: Config, s: State, h: nat, x: Item) returns (s': State)
    requires NewEntry(s, x) && h in s.subs
    ensures Next(cfg, s, s') && OnlySub(s, s', h, s.subs[h])
    ensures s'.cursors == s.cursors && s'.logs == s.logs[x.topic := LogOf(s, x.topic) + [x]]
  {
    s' := AppendItem(s, x);
    assert s'.subs == s.subs[h := s.subs[h]];
    StepIsNext(cfg, s, Append(x));
  }

  /** The call's loop, idle and caught up, reads the one entry appended since. */
  lemma ReadStep(cfg: Config, s0: State, s: State, h: nat, x: Item) returns (s': State)
    requires h in s.subs && s.subs[h] == WaitingSub(x.topic, [], None)
    requires x.topic in s0.cursors && CaughtUp(s0, x.topic)
    requires s.cursors == s0.cursors && s.logs == s0.logs[x.topic := LogOf(s0, x.topic) + [x]]
    ensures Next(cfg, s, s') && OnlySub(s, s', h, WaitingSub(x.topic, [x], None)) && ReadOne(s0, s', x)
  {
    s' := Deliver(s, h, [x]);
    AppendedIsNext(s0, s, x);
    ReadIsNext(cfg, s, h, x);
    ReadEffects(s, s', h, x);
  }

  lemma AppendedIsNext(s0: State, s: State, x: Item)
    requires x.topic in s0.cursors && CaughtUp(s0, x.topic)
    requires s.cursors == s0.cursors && s.logs == s0.logs[x.topic := LogOf(s0, x.topic) + [x]]
    ensures CursorOf(s, x.topic) == |LogOf(s0, x.topic)| && LogOf(s, x.topic) == LogOf(s0, x.topic) + [x]
  {
  }

  lemma ReadEffects(s: State, s': State, h: nat, x: Item)
    requires h in s.subs && s.subs[h] == WaitingSub(x.topic, [], None) && s' == Deliver(s, h, [x])
    ensures OnlySub(s, s', h, WaitingSub(x.topic, [x], None))
    ensures s'.logs == s.logs && s'.cursors == s.cursors[x.topic := CursorOf(s, x.topic) + 1]
  {
  }

  lemma ReadIsNext(cfg: Config, s: State, h: nat, x: Item)
    requires h in s.subs && s.subs[h] == WaitingSub(x.topic, [], None) && x.topic in s.cursors
    requires CursorOf(s, x.topic) + 1 == |LogOf(s, x.topic)| && LogOf(s, x.topic)[CursorOf(s, x.topic)] == x
    ensures Next(cfg, s, Deliver(s, h, [x]))
  {
    assert NextRead(s, x.topic, 1) == [x];
    StepIsNext(cfg, s, Loop(h, GroupRead(1)));
  }

  lemma PushStep(cfg: Config, s: State, h: nat, x: Item) returns (s': State)
    requires WellFormed(cfg, x) && h in s.subs && s.subs[h] == WaitingSub(x.topic, [x], None)
    ensures Next(cfg, s, s') && OnlySub(s, s', h, WaitingSub(x.topic, [], Some(x))) && SameStreams(s, s')
  {
    s' := PushHead(s, h);
    assert [x][1..] == [];
    StepIsNext(cfg, s, Loop(h, Push));
  }

  lemma ReceiveStep(cfg: Config, s: State, h: nat, x: Item) returns (s': State)
    requires h in s.subs && s.subs[h] == WaitingSub(x.topic, [], Some(x))
    ensures Next(cfg, s, s') && OnlySub(s, s', h, Sub(x.topic, [], None, true, Holding(x))) && SameStreams(s, s')
  {
    s' := TakeFromChannel(s, h);
    StepIsNext(cfg, s, Handler(h, Receive));
  }

  /** The entry became pending, whatever was pending under its ID before. */
  ghost predicate StoredOne(s: State, s': State, h: nat, x: Item) {
    && s'.gates == s.gates && s'.subs == s.subs[h := Sub(x.topic, [], None, true, Gone)]
    && s'.pending == s.pending[x.id := x]
    && (x.id in s.pending && s.pending[x.id] != x ==> s'.fate == s.fate[s.pending[x.id] := Overwritten])
  }

  lemma StoreStep(cfg: Config, s: State, h: nat, x: Item) returns (s': State)
    requires x.topic.Tasks? && h in s.subs && s.subs[h] == Sub(x.topic, [], None, true, Holding(x))
    ensures Next(cfg, s, s') && StoredOne(s, s', h, x) && SameStreams(s, s')
  {
    s' := StoreItem(s, h);
    StepIsNext(cfg, s, Handler(h, Store));
  }

  /** The entry arrives on the agent's stream and is read. */
  lemma Arrive(cfg: Config, trace: seq<State>, h: nat, x: Item, w: Watch, calls: set<nat>) returns (longer: seq<State>)
    requires WatchedRun(cfg, trace, w) && NewEntry(Last(trace), x) && Apart(Last(trace), w, calls)
    requires h in Last(trace).subs && Last(trace).subs[h] == WaitingSub(x.topic, [], None)
    requires x.topic in Last(trace).cursors && CaughtUp(Last(trace), x.topic)
    ensures WatchedRun(cfg, longer, w) && Apart(Last(longer), w, calls)
    ensures OnlySub(Last(trace), Last(longer), h, WaitingSub(x.topic, [x], None))
            && ReadOne(Last(trace), Last(longer), x)
  {
    var s := Last(trace);
    var s1 := AppendStep(cfg, s, h, x);
    ApartKept(s, s1, h, s.subs[h], w, calls);
    var s2 := ReadStep(cfg, s, s1, h, x);
    ApartKept(s1, s2, h, WaitingSub(x.topic, [x], None), w, calls);
    longer := ExtendTwice(cfg, trace, s1, s2, w, calls);
  }

  /** The entry goes through the channel to the handler. */
  lemma PassOn(cfg: Config, trace: seq<State>, h: nat, x: Item, w: Watch, calls: set<nat>) returns (longer: seq<State>)
    requires WatchedRun(cfg, trace, w) && WellFormed(cfg, x) && Apart(Last(trace), w, calls)
    requires h in Last(trace).subs && Last(trace).subs[h] == WaitingSub(x.topic, [x], None)
    ensures WatchedRun(cfg, longer, w) && Apart(Last(longer), w, calls) && SameStreams(Last(trace), Last(longer))
    ensures OnlySub(Last(trace), Last(longer), h, Sub(x.topic, [], None, true, Holding(x)))
  {
    var s := Last(trace);
    var s1 := PushStep(cfg, s, h, x);
    ApartKept(s, s1, h, WaitingSub(x.topic, [], Some(x)), w, calls);
    var s2 := ReceiveStep(cfg, s1, h, x);
    ApartKept(s1, s2, h, Sub(x.topic, [], None, true, Holding(x)), w, calls);
    longer := ExtendTwice(cfg, trace, s1, s2, w, calls);
  }

  lemma Finish(cfg: Config, trace: seq<State>, h: nat, x: Item, w: Watch, calls: set<nat>) returns (longer: seq<State>)
    requires WatchedRun(cfg, trace, w) && x.topic.Tasks? && Apart(Last(trace), w, calls)
    requires h in Last(trace).subs && Last(trace).subs[h] == Sub(x.topic, [], None, true, Holding(x))
    ensures WatchedRun(cfg, longer, w) && |longer| >= 2 && BeforeLast(longer) == Last(trace)
    ensures StoredOne(Last(trace), Last(longer), h, x) && SameStreams(Last(trace), Last(longer))
  {
    var s' := StoreStep(cfg, Last(trace), h, x);
    ApartKept(Last(trace), s', h, Sub(x.topic, [], None, true, Gone), w, calls);
    longer := Extend(cfg, trace, s', w, calls);
  }

  /** What a whole call leaves behind. */
  ghost predicate Fetched(s: State, s': State, h: nat, x: Item) {
    && s'.gates == s.gates - {h} && s'.subs == s.subs[h := Sub(x.topic, [], None, true, Gone)]
    && s'.pending == s.pending[x.id := x] && LogOf(s', x.topic) == LogOf(s, x.topic) + [x] && CaughtUp(s', x.topic)
    && (x.id in s.pending && s.pending[x.id] != x ==> s'.fate == s.fate[s.pending[x.id] := Overwritten])
  }

  lemma Composed(s0: State, s1: State, s2: State, s3: State, s4: State, h: nat, x: Item)
    requires x.topic.Tasks? && Subscribed(s0, s1, h, x.topic.agent, None) && s1.logs == s0.logs
    requires OnlySub(s1, s2, h, WaitingSub(x.topic, [x], None)) && ReadOne(s1, s2, x)
    requires OnlySub(s2, s3, h, Sub(x.topic, [], None, true, Holding(x))) && SameStreams(s2, s3)
    requires StoredOne(s3, s4, h, x) && SameStreams(s3, s4)
    ensures Fetched(s0, s4, h, x)
  {
    assert s4.subs == s0.subs[h := Sub(x.topic, [], None, true, Gone)];
    assert s4.gates == s0.gates - {h};
    assert s3.pending == s0.pending && s3.fate == s0.fate;
  }

  lemma OthersUntouched(s0: State, s1: State, s2: State, s3: State, s4: State, x: Item)
    requires x.topic.Tasks? && OtherStreams(s0, s1, x.topic.agent)
    requires ReadOne(s1, s2, x) && SameStreams(s2, s3) && SameStreams(s3, s4)
    ensures OtherStreams(s0, s4, x.topic.agent)
  {
  }

  lemma GetOne(cfg: Config, trace: seq<State>, h: nat, x: Item, w: Watch, calls: set<nat>) returns (longer: seq<State>)
    requires WatchedRun(cfg, trace, w) && x.topic.Tasks? && WellFormed(cfg, x) && NewEntry(Last(trace), x)
    requires Ready(cfg, Last(trace), h, x.topic.agent)
    requires Apart(Last(trace), w, calls) && (x.topic.agent == w.agent ==> h in calls)
    ensures WatchedRun(cfg, longer, w) && Fetched(Last(trace), Last(longer), h, x)
    ensures OtherStreams(Last(trace), Last(longer), x.topic.agent)
    ensures |longer| >= 2 && BeforeLast(longer).pending == Last(trace).pending
  {
    var t1 := Admit(cfg, trace, h, x.topic.agent, w, calls);
    assert NewEntry(Last(t1), x);
    var t2 := Arrive(cfg, t1, h, x, w, calls);
    var t3 := PassOn(cfg, t2, h, x, w, calls);
    longer := Finish(cfg, t3, h, x, w, calls);
    Composed(Last(trace), Last(t1), Last(t2), Last(t3), Last(longer), h, x);
    OthersUntouched(Last(trace), Last(t1), Last(t2), Last(t3), Last(longer), x);
  }
}
