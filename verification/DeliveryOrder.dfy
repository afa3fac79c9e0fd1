/**
 * What the consumer group reads and in which order, and what becomes of an entry whose
 * caller is gone (pkg/transport/redis/redis.go, internal/gateway/tools.go).
 */
module DeliveryOrder {
  import opened Wrappers
  import opened Delivery
  import opened DeliveryPlaces
  import opened DeliveryInv
  import opened DeliveryRuns
  import DeliveryLimits
  import PendingCap

  // ---------------------------------------------------------------------
  // The group reads on from where it started, leaving nothing out
  // ---------------------------------------------------------------------

  /** What a step may do to a topic: the log grows, a new group starts at its end, and a group reads on in order. */
  ghost predicate ReadsOn(s: State, s': State, t: Topic) {
    && LogOf(s, t) <= LogOf(s', t)
    && (t !in s.cursors && t in s'.cursors ==> CursorOf(s', t) == |LogOf(s', t)|)
    && (t in s.cursors ==> t in s'.cursors && CursorOf(s, t) <= CursorOf(s', t) <= |LogOf(s', t)|)
    && (t in s.cursors ==> forall k :: CursorOf(s, t) <= k < CursorOf(s', t) ==> LogOf(s', t)[k] in s'.read)
  }

  lemma StreamsUntouched(s: State, s': State, t: Topic)
    requires LogsOk(s) && s'.logs == s.logs && s'.cursors == s.cursors
    ensures ReadsOn(s, s', t)
  {
    assert CursorOf(s, t) <= |LogOf(s, t)|;
  }

  lemma GroupReadsOn(s: State, s': State, u: Topic, t: Topic)
    requires LogsOk(s) && s'.logs == s.logs && s'.cursors == WithGroup(s, u)
    ensures ReadsOn(s, s', t)
  {
    assert CursorOf(s, t) <= |LogOf(s, t)|;
  }

  lemma AppendReadsOn(s: State, x: Item, t: Topic)
    requires LogsOk(s)
    ensures ReadsOn(s, AppendItem(s, x), t)
  {
    assert CursorOf(s, t) <= |LogOf(s, t)|;
  }

  lemma AdvanceReadsOn(s: State, s': State, u: Topic, n: nat, t: Topic)
    requires LogsOk(s) && u in s.cursors && CursorOf(s, u) + n <= |LogOf(s, u)|
    requires s'.logs == s.logs && s'.cursors == s.cursors[u := CursorOf(s, u) + n]
    requires s'.read == s.read + (set x | x in NextRead(s, u, n))
    ensures ReadsOn(s, s', t)
  {
    assert CursorOf(s, t) <= |LogOf(s, t)|;
    forall k | CursorOf(s, t) <= k < CursorOf(s', t) ensures LogOf(s', t)[k] in s'.read {
      assert t == u;
      assert LogOf(s', t)[k] == NextRead(s, u, n)[k - CursorOf(s, u)];
    }
  }

  lemma LoopReadsOn(cfg: Config, s: State, h: nat, step: LoopStep, t: Topic)
    requires LogsOk(s) && LoopEnabled(cfg, s, h, step)
    ensures ReadsOn(s, LoopApply(cfg, s, h, step), t)
  {
    var s' := LoopApply(cfg, s, h, step);
    match step
    case GroupRead(n) => AdvanceReadsOn(s, s', s.subs[h].topic, n, t);
    case ReadLost(n) => AdvanceReadsOn(s, s', s.subs[h].topic, n, t);
    case Discard(_) => StreamsUntouched(s, s', t);
    case Push => StreamsUntouched(s, s', t);
    case Cancel => StreamsUntouched(s, s', t);
  }

  lemma HandlerReadsOn(cfg: Config, s: State, h: nat, step: HandlerStep, t: Topic)
    requires LogsOk(s) && HandlerEnabled(s, h, step)
    ensures ReadsOn(s, HandlerApply(cfg, s, h, step), t)
  {
    var s' := HandlerApply(cfg, s, h, step);
    match step
    case Subscribe => GroupReadsOn(s, s', Tasks(s.gates[h].agent), t);
    case SubscribeMessages(agent) => GroupReadsOn(s, s', Messages(agent), t);
    case Store => StreamsUntouched(s, s', t);
    case AckMessage(_) => StreamsUntouched(s, s', t);
    case _ => StreamsUntouched(s, s', t);
  }

  lemma StepReadsOn(cfg: Config, s: State, step: Step, t: Topic)
    requires LogsOk(s) && Enabled(cfg, s, step)
    ensures ReadsOn(s, Apply(cfg, s, step), t)
  {
    match step
    case Append(x) => AppendReadsOn(s, x, t);
    case CreateGroup(u) => GroupReadsOn(s, Apply(cfg, s, step), u, t);
    case Loop(h, l) => LoopReadsOn(cfg, s, h, l, t);
    case Handler(h, c) => HandlerReadsOn(cfg, s, h, c, t);
    case Outcome(o, c) => OutcomeReadsOn(cfg, s, o, c, t);
    case Evict(_) => StreamsUntouched(s, Apply(cfg, s, step), t);
  }

  lemma OutcomeReadsOn(cfg: Config, s: State, o: nat, step: OutcomeStep, t: Topic)
    requires LogsOk(s) && OutcomeEnabled(s, o, step)
    ensures ReadsOn(s, OutcomeApply(cfg, s, o, step), t)
  {
    var s' := OutcomeApply(cfg, s, o, step);
    match step
    case Take(_) => StreamsUntouched(s, s', t);
    case BuildFails => StreamsUntouched(s, s', t);
    case Publish(_) => StreamsUntouched(s, s', t);
    case Ack(_) => StreamsUntouched(s, s', t);
  }

  lemma NextReadsOn(cfg: Config, s: State, s': State, t: Topic)
    requires LogsOk(s) && Next(cfg, s, s')
    ensures ReadsOn(s, s', t) && s.read <= s'.read
  {
    var step :| Enabled(cfg, s, step) && s' == Apply(cfg, s, step);
    StepReadsOn(cfg, s, step, t);
    DeliveryLimits.ReadGrows(cfg, s, step);
  }

  lemma ReadsOnAt(cfg: Config, trace: seq<State>, j: nat, t: Topic)
    requires BuildsAnswers(cfg) && IsRun(cfg, trace) && 0 < j < |trace|
    ensures ReadsOn(trace[j - 1], trace[j], t) && trace[j - 1].read <= trace[j].read
  {
    var s, s' := trace[j - 1], trace[j];
    assert LogsOk(s) by { RunKeepsInv(cfg, trace, j - 1); }
    assert Next(cfg, s, s') by { NextOf(cfg, trace, j); }
    NextReadsOn(cfg, s, s', t);
  }

  /**
   * Once a group exists on a topic it skips nothing: from any state of a run to any later
   * one, the log only grows at its end, the cursor never goes back, and every entry the
   * cursor passed was read.
   */
  lemma {:induction false} NothingIsSkipped(cfg: Config, trace: seq<State>, i: nat, j: nat, t: Topic)
    requires BuildsAnswers(cfg) && IsRun(cfg, trace) && i <= j < |trace| && t in trace[i].cursors
    ensures LogOf(trace[i], t) <= LogOf(trace[j], t) && t in trace[j].cursors
    ensures CursorOf(trace[i], t) <= CursorOf(trace[j], t) <= |LogOf(trace[j], t)|
    ensures forall k :: CursorOf(trace[i], t) <= k < CursorOf(trace[j], t) ==> LogOf(trace[j], t)[k] in trace[j].read
    decreases j
  {
    if i < j {
      NothingIsSkipped(cfg, trace, i, j - 1, t);
      ReadsOnAt(cfg, trace, j, t);
    } else {
      assert LogsOk(trace[i]) by { RunKeepsInv(cfg, trace, i); }
      assert CursorOf(trace[i], t) <= |LogOf(trace[i], t)|;
    }
  }

  /** A group created during a run starts at the end of its log: it reads nothing older. */
  lemma GroupsStartAtTheEnd(cfg: Config, trace: seq<State>, j: nat, t: Topic)
    requires BuildsAnswers(cfg) && IsRun(cfg, trace) && 0 < j < |trace|
    requires t !in trace[j - 1].cursors && t in trace[j].cursors
    ensures CursorOf(trace[j], t) == |LogOf(trace[j], t)|
  {
    ReadsOnAt(cfg, trace, j, t);
  }

  // ---------------------------------------------------------------------
  // A read loop hands on its entries in the order of the log
  // ---------------------------------------------------------------------

  /** `x` stands in the log before position `n`. */
  ghost predicate StandsBefore(log: seq<Item>, x: Item, n: nat) {
    exists i :: 0 <= i < n && i < |log| && log[i] == x
  }

  /** The batch is a stretch of the log from `a` on, and what was handed on before stands before it. */
  ghost predicate Stretch(log: seq<Item>, sub: Sub, a: nat) {
    && a + |sub.batch| <= |log| && sub.batch == log[a..a + |sub.batch|]
    && (sub.chan.Some? ==> StandsBefore(log, sub.chan.value, a))
    && (sub.phase.Holding? ==> StandsBefore(log, sub.phase.item, a))
  }

  ghost predicate InOrder(log: seq<Item>, sub: Sub) {
    exists a: nat :: Stretch(log, sub, a)
  }

  ghost predicate AllInOrder(s: State) {
    forall h :: h in s.subs ==> InOrder(LogOf(s, s.subs[h].topic), s.subs[h])
  }

  lemma GrowingLogKeepsOrder(log: seq<Item>, log': seq<Item>, sub: Sub)
    requires InOrder(log, sub) && log <= log'
    ensures InOrder(log', sub)
  {
    var a: nat :| Stretch(log, sub, a);
    assert log'[a..a + |sub.batch|] == log[a..a + |sub.batch|];
    assert Stretch(log', sub, a);
  }

  /** The head of the batch goes first, to the channel or away. */
  lemma HeadGoesFirst(log: seq<Item>, sub: Sub)
    requires InOrder(log, sub) && sub.batch != []
    ensures InOrder(log, sub.(batch := sub.batch[1..]))
    ensures sub.chan.None? ==> InOrder(log, sub.(batch := sub.batch[1..], chan := Some(sub.batch[0])))
  {
    var a: nat :| Stretch(log, sub, a);
    var rest := sub.(batch := sub.batch[1..]);
    assert log[a] == sub.batch[0] && StandsBefore(log, log[a], a + 1);
    assert rest.batch == log[a + 1..a + 1 + |rest.batch|];
    assert Stretch(log, rest, a + 1);
    assert sub.chan.None? ==> Stretch(log, rest.(chan := Some(sub.batch[0])), a + 1);
  }

  /** Whatever leaves the channel or the handler, or empties the batch, leaves the rest in order. */
  lemma LessIsInOrder(log: seq<Item>, sub: Sub, sub': Sub)
    requires InOrder(log, sub)
    requires sub'.batch == sub.batch || sub'.batch == []
    requires sub'.chan == sub.chan || sub'.chan == None
    requires || sub'.phase == sub.phase || !sub'.phase.Holding?
             || (sub.chan.Some? && sub'.phase == Holding(sub.chan.value))
    ensures InOrder(log, sub')
  {
    var a: nat :| Stretch(log, sub, a);
    assert Stretch(log, sub', a);
  }

  lemma OneSubInOrder(s: State, s': State, h: nat)
    requires AllInOrder(s) && s'.logs == s.logs && h in s'.subs
    requires forall g :: g in s'.subs && g != h ==> g in s.subs && s'.subs[g] == s.subs[g]
    requires InOrder(LogOf(s', s'.subs[h].topic), s'.subs[h])
    ensures AllInOrder(s')
  {
  }

  lemma FreshBatchIsInOrder(s: State, h: nat, n: nat)
    requires h in s.subs && s.subs[h].batch == [] && s.subs[h].topic in s.cursors
    requires CursorOf(s, s.subs[h].topic) + n <= |LogOf(s, s.subs[h].topic)|
    requires BehindCursor(s, s.subs[h])
    ensures InOrder(LogOf(s, s.subs[h].topic), s.subs[h].(batch := NextRead(s, s.subs[h].topic, n)))
  {
    var t := s.subs[h].topic;
    assert Stretch(LogOf(s, t), s.subs[h].(batch := NextRead(s, t, n)), CursorOf(s, t));
  }

  /** What the loop has handed on was read, so it stands before the cursor. */
  ghost predicate BehindCursor(s: State, sub: Sub) {
    && (sub.chan.Some? ==> StandsBefore(LogOf(s, sub.topic), sub.chan.value, CursorOf(s, sub.topic)))
    && (sub.phase.Holding? ==> StandsBefore(LogOf(s, sub.topic), sub.phase.item, CursorOf(s, sub.topic)))
  }

  lemma HandedOnIsBehind(cfg: Config, s: State, h: nat)
    requires StreamsOk(s) && PlacesOk(s) && SubsOk(cfg, s) && h in s.subs
    ensures BehindCursor(s, s.subs[h])
  {
    var sub := s.subs[h];
    assert SubOk(cfg, sub);
    if sub.chan.Some? {
      PlaceIsTracked(s, sub.chan.value, InChannel(h));
      assert BeforeCursor(s, sub.chan.value);
    }
    if sub.phase.Holding? {
      PlaceIsTracked(s, sub.phase.item, Held(h));
      assert BeforeCursor(s, sub.phase.item);
    }
  }

  lemma LoopKeepsOrder(cfg: Config, s: State, h: nat, step: LoopStep)
    requires AllInOrder(s) && LoopEnabled(cfg, s, h, step) && BehindCursor(s, s.subs[h])
    ensures AllInOrder(LoopApply(cfg, s, h, step))
  {
    match step
    case GroupRead(n) => DeliverKeepsOrder(s, Deliver(s, h, NextRead(s, s.subs[h].topic, n)), h, n);
    case ReadLost(_) =>
    case Discard(r) => HeadKeepsOrder(s, DiscardHead(s, h, r), h);
    case Push => HeadKeepsOrder(s, PushHead(s, h), h);
    case Cancel => CancelKeepsOrder(s, h);
  }

  lemma CancelKeepsOrder(s: State, h: nat)
    requires AllInOrder(s) && h in s.subs
    ensures AllInOrder(CancelLoop(s, h))
  {
    var s' := CancelLoop(s, h);
    assert InOrder(LogOf(s, s.subs[h].topic), s.subs[h]);
    LessIsInOrder(LogOf(s, s.subs[h].topic), s.subs[h], s'.subs[h]);
    OneSubInOrder(s, s', h);
  }

  lemma DeliverKeepsOrder(s: State, s': State, h: nat, n: nat)
    requires AllInOrder(s) && h in s.subs && CanRead(s, h, n) && BehindCursor(s, s.subs[h])
    requires s'.logs == s.logs
    requires s'.subs == s.subs[h := s.subs[h].(batch := NextRead(s, s.subs[h].topic, n))]
    ensures AllInOrder(s')
  {
    FreshBatchIsInOrder(s, h, n);
    OneSubInOrder(s, s', h);
  }

  lemma HeadKeepsOrder(s: State, s': State, h: nat)
    requires AllInOrder(s) && h in s.subs && s.subs[h].batch != [] && s'.logs == s.logs
    requires var sub := s.subs[h];
             var rest := sub.(batch := sub.batch[1..]);
             || s'.subs == s.subs[h := rest]
             || (sub.chan.None? && s'.subs == s.subs[h := rest.(chan := Some(sub.batch[0]))])
    ensures AllInOrder(s')
  {
    assert InOrder(LogOf(s, s.subs[h].topic), s.subs[h]);
    HeadGoesFirst(LogOf(s, s.subs[h].topic), s.subs[h]);
    OneSubInOrder(s, s', h);
  }

  lemma OpenedIsInOrder(s: State, h: nat, t: Topic)
    requires AllInOrder(s)
    ensures AllInOrder(Open(s, h, t))
  {
    var s' := Open(s, h, t);
    assert Stretch(LogOf(s', t), s'.subs[h], 0);
    OneSubInOrder(s, s', h);
  }

  lemma HandlerKeepsOrder(cfg: Config, s: State, h: nat, step: HandlerStep)
    requires AllInOrder(s) && HandlerEnabled(s, h, step)
    ensures AllInOrder(HandlerApply(cfg, s, h, step))
  {
    var s' := HandlerApply(cfg, s, h, step);
    match step
    case Count(_) =>
    case Check =>
    case Abort =>
    case Subscribe => OpenedIsInOrder(s, h, Tasks(s.gates[h].agent));
    case SubscribeMessages(agent) => OpenedIsInOrder(s, h, Messages(agent));
    case _ => SubChangeKeepsOrder(s, s', h);
  }

  lemma SubChangeKeepsOrder(s: State, s': State, h: nat)
    requires AllInOrder(s) && h in s.subs && h in s'.subs && s'.logs == s.logs && s'.subs == s.subs[h := s'.subs[h]]
    requires s'.subs[h].topic == s.subs[h].topic && s'.subs[h].batch == s.subs[h].batch
    requires s'.subs[h].chan == s.subs[h].chan || s'.subs[h].chan == None
    requires !s'.subs[h].phase.Holding? || (s.subs[h].chan.Some? && s'.subs[h].phase == Holding(s.subs[h].chan.value))
    ensures AllInOrder(s')
  {
    assert InOrder(LogOf(s, s.subs[h].topic), s.subs[h]);
    LessIsInOrder(LogOf(s, s.subs[h].topic), s.subs[h], s'.subs[h]);
    OneSubInOrder(s, s', h);
  }

  lemma AppendKeepsOrder(s: State, x: Item)
    requires AllInOrder(s)
    ensures AllInOrder(AppendItem(s, x))
  {
    var s' := AppendItem(s, x);
    forall h | h in s'.subs ensures InOrder(LogOf(s', s'.subs[h].topic), s'.subs[h]) {
      GrowingLogKeepsOrder(LogOf(s, s.subs[h].topic), LogOf(s', s.subs[h].topic), s.subs[h]);
    }
  }

  lemma StepKeepsOrder(cfg: Config, s: State, step: Step)
    requires AllInOrder(s) && Inv(cfg, s) && Enabled(cfg, s, step)
    ensures AllInOrder(Apply(cfg, s, step))
  {
    match step
    case Append(x) => AppendKeepsOrder(s, x);
    case CreateGroup(_) =>
    case Loop(h, l) =>
      HandedOnIsBehind(cfg, s, h);
      LoopKeepsOrder(cfg, s, h, l);
    case Handler(h, c) => HandlerKeepsOrder(cfg, s, h, c);
    case Outcome(o, c) => OutcomeKeepsOrder(cfg, s, o, c);
    case Evict(_) =>
  }

  lemma OutcomeKeepsOrder(cfg: Config, s: State, o: nat, step: OutcomeStep)
    requires AllInOrder(s) && OutcomeEnabled(s, o, step)
    ensures AllInOrder(OutcomeApply(cfg, s, o, step))
  {
    match step
    case Take(_) =>
    case BuildFails =>
    case Publish(_) =>
    case Ack(_) =>
  }

  /**
   * In every state of every run each read loop's batch is a stretch of its log, in order,
   * and what it has handed to its channel or its caller stands before that stretch.
   */
  lemma {:induction false} EntriesAreHandedOnInOrder(cfg: Config, trace: seq<State>, i: nat)
    requires BuildsAnswers(cfg) && IsRun(cfg, trace) && i < |trace|
    ensures AllInOrder(trace[i])
  {
    if i > 0 {
      var s, s' := trace[i - 1], trace[i];
      assert AllInOrder(s) by { EntriesAreHandedOnInOrder(cfg, trace, i - 1); }
      assert Inv(cfg, s) by { RunKeepsInv(cfg, trace, i - 1); }
      assert Next(cfg, s, s') by { NextOf(cfg, trace, i); }
      var step :| Enabled(cfg, s, step) && s' == Apply(cfg, s, step);
      StepKeepsOrder(cfg, s, step);
    }
  }

  // ---------------------------------------------------------------------
  // Callers that are gone
  // ---------------------------------------------------------------------

  /** The call has returned and its channel holds the entry. */
  ghost predicate Stranded(s: State, h: nat, x: Item) {
    h in s.subs && s.subs[h].phase.Gone? && s.subs[h].chan == Some(x)
  }

  lemma LoopLeavesStranded(cfg: Config, s: State, g: nat, step: LoopStep, h: nat, x: Item)
    requires Stranded(s, h, x) && LoopEnabled(cfg, s, g, step)
    ensures Stranded(LoopApply(cfg, s, g, step), h, x)
  {
    match step
    case GroupRead(_) =>
    case ReadLost(_) =>
    case Discard(_) =>
    case Push =>
    case Cancel =>
  }

  lemma HandlerLeavesStranded(cfg: Config, s: State, g: nat, step: HandlerStep, h: nat, x: Item)
    requires Stranded(s, h, x) && HandlerEnabled(s, g, step)
    ensures Stranded(HandlerApply(cfg, s, g, step), h, x)
  {
    match step
    case Store =>
    case AckMessage(_) =>
    case _ =>
  }

  lemma StepLeavesStranded(cfg: Config, s: State, step: Step, h: nat, x: Item)
    requires Stranded(s, h, x) && Enabled(cfg, s, step)
    ensures Stranded(Apply(cfg, s, step), h, x)
  {
    match step
    case Append(_) =>
    case CreateGroup(_) =>
    case Loop(g, l) => LoopLeavesStranded(cfg, s, g, l, h, x);
    case Handler(g, c) => HandlerLeavesStranded(cfg, s, g, c, h, x);
    case Outcome(o, c) => PendingCap.OutcomeFrame(cfg, s, o, c);
    case Evict(_) =>
  }

  lemma NextLeavesStranded(cfg: Config, s: State, s': State, h: nat, x: Item)
    requires Stranded(s, h, x) && Next(cfg, s, s')
    ensures Stranded(s', h, x)
  {
    var step :| Enabled(cfg, s, step) && s' == Apply(cfg, s, step);
    StepLeavesStranded(cfg, s, step, h, x);
  }

  /**
   * An entry that reaches the channel of a call that has returned stays there in every later
   * state: it never becomes pending, is never acknowledged, and no outcome is published for it.
   */
  lemma {:induction false} StrandedForever(cfg: Config, trace: seq<State>, i: nat, j: nat, h: nat, x: Item)
    requires BuildsAnswers(cfg) && IsRun(cfg, trace) && i <= j < |trace| && Stranded(trace[i], h, x)
    ensures Stranded(trace[j], h, x) && x in trace[j].unacked && x !in trace[j].fate
    ensures x.id in trace[j].pending ==> trace[j].pending[x.id] != x
    decreases j
  {
    if i < j {
      StrandedForever(cfg, trace, i, j - 1, h, x);
      NextOf(cfg, trace, j);
      NextLeavesStranded(cfg, trace[j - 1], trace[j], h, x);
    }
    StrandedIsUnacked(cfg, trace, j, h, x);
  }

  lemma StrandedIsUnacked(cfg: Config, trace: seq<State>, j: nat, h: nat, x: Item)
    requires BuildsAnswers(cfg) && IsRun(cfg, trace) && j < |trace| && Stranded(trace[j], h, x)
    ensures x in trace[j].unacked && x !in trace[j].fate
    ensures x.id in trace[j].pending ==> trace[j].pending[x.id] != x
  {
    var s := trace[j];
    assert PlacesOk(s) && AckedOk(s) by { RunKeepsInv(cfg, trace, j); }
    PlaceIsTracked(s, x, InChannel(h));
    if x.id in s.pending && s.pending[x.id] == x { PlaceIsTracked(s, x, InPending); }
  }

  lemma LeaveThenPush(cfg: Config, s: State, x: Item) returns (s1: State, s2: State)
    requires WellFormed(cfg, x) && 0 in s.subs && s.subs[0] == WaitingSub(x.topic, [x], None)
    ensures Next(cfg, s, s1) && Next(cfg, s1, s2) && Stranded(s2, 0, x)
    ensures s1.gates == s2.gates == s.gates
    ensures forall h :: h in s2.subs ==> h == 0 || h in s.subs
    ensures s1.subs == s.subs[0 := Sub(x.topic, [x], None, true, Gone)]
    ensures s2.subs == s.subs[0 := Sub(x.topic, [], Some(x), true, Gone)]
  {
    s1 := LeaveChannel(s, 0);
    StepIsNext(cfg, s, Handler(0, Leave));
    s2 := PushHead(s1, 0);
    assert [x][1..] == [];
    StepIsNext(cfg, s1, Loop(0, Push));
  }

  /** It does happen: the read loop outlives a get_task that timed out and takes the next entry of the agent. */
  lemma TimeoutsStrandEntries(cfg: Config, x: Item) returns (trace: seq<State>)
    requires TaskItem(cfg, x)
    ensures IsRun(cfg, trace) && Stranded(Last(trace), 0, x)
  {
    var w := Watch(x.topic.agent, PAST_CHECK, 1);
    DeliveryLimits.StartWatched(cfg, w, {0});
    assert PendingOf(Init(), x.topic.agent) == {};
    var t0 := DeliveryLimits.CountStep(cfg, [Init()], 0, x.topic.agent, w, {0});
    var t1 := Admit(cfg, t0, 0, x.topic.agent, w, {0});
    assert NewEntry(Last(t1), x);
    var t2 := Arrive(cfg, t1, 0, x, w, {0});
    var s1, s2 := LeaveThenPush(cfg, Last(t2), x);
    trace := ExtendTwice(cfg, t2, s1, s2, w, {0});
  }

  // ---------------------------------------------------------------------
  // Batches
  // ---------------------------------------------------------------------

  ghost predicate SmallBatches(s: State) {
    forall h :: h in s.subs ==> |s.subs[h].batch| <= 10
  }

  lemma LoopKeepsSmall(cfg: Config, s: State, h: nat, step: LoopStep)
    requires SmallBatches(s) && LoopEnabled(cfg, s, h, step)
    ensures SmallBatches(LoopApply(cfg, s, h, step))
  {
    match step
    case GroupRead(_) =>
    case ReadLost(_) =>
    case Discard(_) =>
    case Push =>
    case Cancel =>
  }

  lemma HandlerKeepsSmall(cfg: Config, s: State, h: nat, step: HandlerStep)
    requires SmallBatches(s) && HandlerEnabled(s, h, step)
    ensures SmallBatches(HandlerApply(cfg, s, h, step))
  {
    match step
    case Store =>
    case AckMessage(_) =>
    case _ =>
  }

  /** A read loop never has more than ten entries on hand. */
  lemma {:induction false} BatchesAreSmall(cfg: Config, trace: seq<State>, i: nat)
    requires IsRun(cfg, trace) && i < |trace|
    ensures SmallBatches(trace[i])
  {
    if i > 0 {
      BatchesAreSmall(cfg, trace, i - 1);
      NextOf(cfg, trace, i);
      NextKeepsSmall(cfg, trace[i - 1], trace[i]);
    }
  }

  lemma StepKeepsSmall(cfg: Config, s: State, step: Step)
    requires SmallBatches(s) && Enabled(cfg, s, step)
    ensures SmallBatches(Apply(cfg, s, step))
  {
    match step
    case Append(_) =>
    case CreateGroup(_) =>
    case Loop(h, l) => LoopKeepsSmall(cfg, s, h, l);
    case Handler(h, c) => HandlerKeepsSmall(cfg, s, h, c);
    case Outcome(o, c) => PendingCap.OutcomeFrame(cfg, s, o, c);
    case Evict(_) =>
  }

  lemma NextKeepsSmall(cfg: Config, s: State, s': State)
    requires SmallBatches(s) && Next(cfg, s, s')
    ensures SmallBatches(s')
  {
    var step :| Enabled(cfg, s, step) && s' == Apply(cfg, s, step);
    StepKeepsSmall(cfg, s, step);
  }
}
