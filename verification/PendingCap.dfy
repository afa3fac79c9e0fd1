/**
 * The cap on pending tasks under concurrency. get_task reads the agent's pending count,
 * compares it with the limit later, and stores later still; other handlers run in between.
 */
module PendingCap {
  import opened Wrappers
  import opened Delivery
  import opened DeliveryPlaces
  import opened DeliveryInv

  /** A get_task call of the agent that has subscribed and may still store. */
  predicate MayStore(sub: Sub, agent: string) {
    sub.topic == Tasks(agent) && !sub.phase.Gone?
  }

  /** A get_task call of the agent that passed the check, or will: its count is within the limit. */
  predicate WillPass(g: Gate, agent: string, limit: int) {
    g.agent == agent && (g.Counted? ==> g.count <= limit)
  }

  /** The get_task calls of the agent on their way to a Store. */
  function Admitted(s: State, agent: string, limit: int): set<nat> {
    (set h | h in s.gates && WillPass(s.gates[h], agent, limit)) + (set h | h in s.subs && MayStore(s.subs[h], agent))
  }

  function Load(s: State, agent: string, limit: int): nat {
    |PendingOf(s, agent)| + |Admitted(s, agent, limit)|
  }

  lemma SmallerSet<T>(a: set<T>, b: set<T>)
    requires a <= b
    ensures |a| <= |b|
  {
    assert b == a + (b - a);
  }

  lemma Shrinks(s: State, s': State, agent: string, limit: int)
    requires PendingOf(s', agent) <= PendingOf(s, agent) && Admitted(s', agent, limit) <= Admitted(s, agent, limit)
    ensures Load(s', agent, limit) <= Load(s, agent, limit)
  {
    SmallerSet(PendingOf(s', agent), PendingOf(s, agent));
    SmallerSet(Admitted(s', agent, limit), Admitted(s, agent, limit));
  }

  /** Nothing was stored, and no call got further on its way to a Store. */
  lemma OtherLoad(s: State, s': State, agent: string, limit: int)
    requires forall id :: id in s'.pending ==> id in s.pending && s'.pending[id] == s.pending[id]
    requires forall g :: g in s'.gates ==> g in s.gates && s'.gates[g] == s.gates[g]
    requires forall g :: g in s'.subs && MayStore(s'.subs[g], agent) ==> g in s.subs && MayStore(s.subs[g], agent)
    ensures Load(s', agent, limit) <= Load(s, agent, limit)
  {
    Shrinks(s, s', agent, limit);
  }

  /** A read loop changes neither the phase nor the topic of any call. */
  lemma LoopFrame(cfg: Config, s: State, h: nat, step: LoopStep)
    requires LoopEnabled(cfg, s, h, step)
    ensures var s' := LoopApply(cfg, s, h, step);
            && s'.gates == s.gates && s'.pending == s.pending && s'.subs.Keys == s.subs.Keys
            && (forall g :: g in s.subs ==> s'.subs[g].topic == s.subs[g].topic && s'.subs[g].phase == s.subs[g].phase)
  {
    match step
    case GroupRead(_) =>
    case ReadLost(_) =>
    case Discard(_) =>
    case Push =>
    case Cancel =>
  }

  lemma OutcomeFrame(cfg: Config, s: State, o: nat, step: OutcomeStep)
    requires OutcomeEnabled(s, o, step)
    ensures var s' := OutcomeApply(cfg, s, o, step);
            && s'.gates == s.gates && s'.subs == s.subs
            && (s'.pending == s.pending || exists id :: s'.pending == s.pending - {id})
  {
    match step
    case Take(args) =>
    case BuildFails =>
    case Publish(_) =>
    case Ack(_) =>
  }

  lemma CountLoad(s: State, s': State, h: nat, caller: string, agent: string, limit: int, k: nat)
    requires h !in s.gates && h !in s.subs
    requires s' == s.(gates := s.gates[h := Counted(caller, |PendingOf(s, caller)|)])
    requires Load(s, agent, limit) <= limit + k && |Admitted(s', agent, limit)| <= k
    ensures Load(s', agent, limit) <= limit + k
  {
    assert PendingOf(s', agent) == PendingOf(s, agent);
    if !WillPass(s'.gates[h], agent, limit) {
      Shrinks(s, s', agent, limit);
    }
  }

  lemma CheckLoad(cfg: Config, s: State, h: nat, agent: string, limit: int)
    requires h in s.gates && s.gates[h].Counted? && cfg.maxPending(agent) == limit > 0
    ensures Load(CheckGate(cfg, s, h), agent, limit) <= Load(s, agent, limit)
  {
    var s' := CheckGate(cfg, s, h);
    assert PendingOf(s', agent) == PendingOf(s, agent);
    assert Admitted(s', agent, limit) <= Admitted(s, agent, limit);
    Shrinks(s, s', agent, limit);
  }

  lemma SubscribeLoad(s: State, h: nat, agent: string, limit: int)
    requires h in s.gates && s.gates[h].Passed? && h !in s.subs
    ensures Load(Open(s, h, Tasks(s.gates[h].agent)), agent, limit) <= Load(s, agent, limit)
  {
    var s' := Open(s, h, Tasks(s.gates[h].agent));
    assert PendingOf(s', agent) == PendingOf(s, agent);
    assert Admitted(s', agent, limit) <= Admitted(s, agent, limit);
    Shrinks(s, s', agent, limit);
  }

  /** Storing trades an admitted call for a pending entry. */
  lemma StoreLoad(s: State, s': State, h: nat, x: Item, agent: string, limit: int)
    requires h in s.subs && s.subs[h].phase == Holding(x) && x.topic == s.subs[h].topic && h !in s.gates
    requires s'.subs == s.subs[h := s.subs[h].(phase := Gone)] && s'.pending == s.pending[x.id := x]
             && s'.gates == s.gates
    ensures Load(s', agent, limit) <= Load(s, agent, limit)
  {
    if x.topic == Tasks(agent) {
      StoreAddsOne(s, s', x, agent);
      StoreLeaves(s, s', h, agent, limit);
    } else {
      assert PendingOf(s', agent) <= PendingOf(s, agent);
      assert Admitted(s', agent, limit) <= Admitted(s, agent, limit);
      Shrinks(s, s', agent, limit);
    }
  }

  lemma StoreAddsOne(s: State, s': State, x: Item, agent: string)
    requires s'.pending == s.pending[x.id := x]
    ensures |PendingOf(s', agent)| <= |PendingOf(s, agent)| + 1
  {
    SmallerSet(PendingOf(s', agent), PendingOf(s, agent) + {x.id});
  }

  lemma StoreLeaves(s: State, s': State, h: nat, agent: string, limit: int)
    requires h in s.subs && MayStore(s.subs[h], agent) && h !in s.gates
    requires s'.subs == s.subs[h := s.subs[h].(phase := Gone)] && s'.gates == s.gates
    ensures |Admitted(s', agent, limit)| <= |Admitted(s, agent, limit)| - 1
  {
    assert h in Admitted(s, agent, limit);
    assert Admitted(s', agent, limit) <= Admitted(s, agent, limit) - {h};
    SmallerSet(Admitted(s', agent, limit), Admitted(s, agent, limit) - {h});
  }

  /** A handler is before its subscription or after it, not both. */
  ghost predicate GatesApart(s: State) {
    s.gates.Keys !! s.subs.Keys
  }

  lemma HandlerLoad(cfg: Config, s: State, h: nat, step: HandlerStep, agent: string, limit: int, k: nat)
    requires SubsOk(cfg, s) && GatesApart(s) && HandlerEnabled(s, h, step) && cfg.maxPending(agent) == limit > 0
    requires Load(s, agent, limit) <= limit + k && |Admitted(HandlerApply(cfg, s, h, step), agent, limit)| <= k
    ensures Load(HandlerApply(cfg, s, h, step), agent, limit) <= limit + k
  {
    var s' := HandlerApply(cfg, s, h, step);
    match step
    case Count(caller) => CountLoad(s, s', h, caller, agent, limit, k);
    case Check => CheckLoad(cfg, s, h, agent, limit);
    case Subscribe => SubscribeLoad(s, h, agent, limit);
    case Store =>
      HeldTopic(cfg, s, h);
      assert h in s.subs.Keys;
      StoreLoad(s, s', h, s.subs[h].phase.item, agent, limit);
    case _ =>
      QuietFrame(cfg, s, h, step, agent);
      OtherLoad(s, s', agent, limit);
  }

  lemma QuietFrame(cfg: Config, s: State, h: nat, step: HandlerStep, agent: string)
    requires HandlerEnabled(s, h, step)
             && (step.Abort? || step.SubscribeMessages? || step.Receive? || step.Leave? || step.AckMessage?)
    ensures var s' := HandlerApply(cfg, s, h, step);
            && s'.pending == s.pending
            && (forall g :: g in s'.gates ==> g in s.gates && s'.gates[g] == s.gates[g])
            && (forall g :: g in s'.subs && MayStore(s'.subs[g], agent) ==> g in s.subs && MayStore(s.subs[g], agent))
  {
  }

  lemma ApartFrame(cfg: Config, s: State, h: nat, step: HandlerStep)
    requires GatesApart(s) && HandlerEnabled(s, h, step)
    ensures GatesApart(HandlerApply(cfg, s, h, step))
  {
    var s' := HandlerApply(cfg, s, h, step);
    match step
    case Count(_) => assert s'.gates.Keys == s.gates.Keys + {h};
    case Check => assert s'.gates.Keys <= s.gates.Keys;
    case Abort => assert s'.gates.Keys <= s.gates.Keys;
    case Subscribe => OpenApart(s, h, Tasks(s.gates[h].agent));
    case SubscribeMessages(agent) => OpenApart(s, h, Messages(agent));
    case Receive => assert s'.subs.Keys == s.subs.Keys;
    case Leave => assert s'.subs.Keys == s.subs.Keys;
    case Store => assert s'.subs.Keys == s.subs.Keys;
    case AckMessage(_) => assert s'.subs.Keys == s.subs.Keys;
  }

  lemma OpenApart(s: State, h: nat, t: Topic)
    requires GatesApart(s)
    ensures GatesApart(Open(s, h, t))
  {
    assert Open(s, h, t).gates.Keys == s.gates.Keys - {h};
    assert Open(s, h, t).subs.Keys == s.subs.Keys + {h};
  }

  lemma GatesApartKept(cfg: Config, s: State, step: Step)
    requires GatesApart(s) && Enabled(cfg, s, step)
    ensures GatesApart(Apply(cfg, s, step))
  {
    match step
    case Append(_) =>
    case CreateGroup(_) =>
    case Loop(h, l) => LoopFrame(cfg, s, h, l);
    case Handler(h, c) => ApartFrame(cfg, s, h, c);
    case Outcome(o, c) => OutcomeFrame(cfg, s, o, c);
    case Evict(_) =>
  }

  lemma StepLoad(cfg: Config, s: State, step: Step, agent: string, limit: int, k: nat)
    requires SubsOk(cfg, s) && GatesApart(s) && Enabled(cfg, s, step) && cfg.maxPending(agent) == limit > 0
    requires Load(s, agent, limit) <= limit + k && |Admitted(Apply(cfg, s, step), agent, limit)| <= k
    ensures Load(Apply(cfg, s, step), agent, limit) <= limit + k
  {
    match step
    case Append(_) => OtherLoad(s, Apply(cfg, s, step), agent, limit);
    case CreateGroup(_) => OtherLoad(s, Apply(cfg, s, step), agent, limit);
    case Loop(h, l) =>
      LoopFrame(cfg, s, h, l);
      OtherLoad(s, LoopApply(cfg, s, h, l), agent, limit);
    case Handler(h, c) => HandlerLoad(cfg, s, h, c, agent, limit, k);
    case Outcome(o, c) =>
      OutcomeFrame(cfg, s, o, c);
      OtherLoad(s, OutcomeApply(cfg, s, o, c), agent, limit);
    case Evict(_) => OtherLoad(s, Apply(cfg, s, step), agent, limit);
  }

  ghost predicate FewAdmitted(s: State, agent: string, limit: int, k: nat) {
    |Admitted(s, agent, limit)| <= k
  }

  ghost predicate FewAdmittedSoFar(trace: seq<State>, agent: string, limit: int, k: nat, i: nat)
    requires i < |trace|
  {
    forall j :: 0 <= j <= i ==> FewAdmitted(trace[j], agent, limit, k)
  }

  ghost predicate WithinCap(s: State, agent: string, limit: int, k: nat) {
    GatesApart(s) && |PendingOf(s, agent)| + |Admitted(s, agent, limit)| <= limit + k
  }

  lemma InitWithinCap(agent: string, limit: int, k: nat)
    requires limit > 0
    ensures WithinCap(Init(), agent, limit, k)
  {
    assert PendingOf(Init(), agent) == {} && Admitted(Init(), agent, limit) == {};
  }

  /**
   * For a positive limit L of an agent and a run in which at most k of its get_task calls
   * are on their way at once (each from the moment it reads the count), the agent's
   * pending entries and those calls together never exceed L + k.
   */
  lemma {:induction false} PendingStaysWithinLimit(
    cfg: Config, trace: seq<State>, agent: string, limit: int, k: nat, i: nat)
    requires BuildsAnswers(cfg) && IsRun(cfg, trace) && i < |trace| && cfg.maxPending(agent) == limit > 0
    requires FewAdmittedSoFar(trace, agent, limit, k, i)
    ensures WithinCap(trace[i], agent, limit, k)
  {
    if i == 0 {
      InitWithinCap(agent, limit, k);
    } else {
      PendingStaysWithinLimit(cfg, trace, agent, limit, k, i - 1);
      CapAt(cfg, trace, agent, limit, k, i);
    }
  }

  lemma CapAt(cfg: Config, trace: seq<State>, agent: string, limit: int, k: nat, i: nat)
    requires BuildsAnswers(cfg) && IsRun(cfg, trace) && 0 < i < |trace| && cfg.maxPending(agent) == limit > 0
    requires FewAdmitted(trace[i], agent, limit, k) && WithinCap(trace[i - 1], agent, limit, k)
    ensures WithinCap(trace[i], agent, limit, k)
  {
    var s, s' := trace[i - 1], trace[i];
    assert SubsOk(cfg, s) by { SubsOkAt(cfg, trace, i - 1); }
    assert Next(cfg, s, s') by { NextOf(cfg, trace, i); }
    NextCap(cfg, s, s', agent, limit, k);
  }

  lemma SubsOkAt(cfg: Config, trace: seq<State>, i: nat)
    requires BuildsAnswers(cfg) && IsRun(cfg, trace) && i < |trace|
    ensures SubsOk(cfg, trace[i])
  {
    RunKeepsInv(cfg, trace, i);
  }

  lemma NextCap(cfg: Config, s: State, s': State, agent: string, limit: int, k: nat)
    requires SubsOk(cfg, s) && Next(cfg, s, s') && cfg.maxPending(agent) == limit > 0
    requires WithinCap(s, agent, limit, k) && FewAdmitted(s', agent, limit, k)
    ensures WithinCap(s', agent, limit, k)
  {
    var step :| Enabled(cfg, s, step) && s' == Apply(cfg, s, step);
    StepLoad(cfg, s, step, agent, limit, k);
    GatesApartKept(cfg, s, step);
  }

  /** One get_task call of the agent at a time: never more than one pending entry above the limit. */
  lemma SequentialUseExceedsByAtMostOne(cfg: Config, trace: seq<State>, agent: string, limit: int, i: nat)
    requires BuildsAnswers(cfg) && IsRun(cfg, trace) && i < |trace| && cfg.maxPending(agent) == limit > 0
    requires FewAdmittedSoFar(trace, agent, limit, 1, i)
    ensures |PendingOf(trace[i], agent)| <= limit + 1
  {
    PendingStaysWithinLimit(cfg, trace, agent, limit, 1, i);
  }
}
