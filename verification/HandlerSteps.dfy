/**
 * What the gateway's memory shows of the delivery protocol, and which protocol steps the
 * effects of its handlers stand for (internal/gateway/tools.go).
 */
module HandlerSteps {
  import opened Wrappers
  import opened Documents
  import opened Delivery
  import B = Builder
  import PendingMap

  type Entries = PendingMap.Entries

  // ---------------------------------------------------------------------
  // The gateway's memory and the protocol state it shows
  // ---------------------------------------------------------------------

  /** What Redis has been told, in order. */
  datatype Wired = Sent(stream: string, doc: Document) | Acked(topic: string, id: string)

  function TopicName(t: Topic): string {
    match t
    case Tasks(agent) => PendingMap.TaskTopic(agent)
    case Messages(agent) => "agent.messages." + agent
  }

  predicate ShowsEvent(w: Wired, e: Event) {
    match e
    case PublishEvent(_, stream, doc) => w == Sent(stream, doc)
    case AckEvent(x) => w == Acked(TopicName(x.topic), x.id)
  }

  ghost predicate ShowsPending(entries: Entries, s: State) {
    && entries.Keys == s.pending.Keys
    && (forall id :: id in s.pending ==>
          entries[id].topic == TopicName(s.pending[id].topic) && entries[id].msgId == s.pending[id].id)
  }

  ghost predicate ShowsEvents(wired: seq<Wired>, events: seq<Event>) {
    |wired| == |events| && forall i :: 0 <= i < |wired| ==> ShowsEvent(wired[i], events[i])
  }

  ghost predicate Shows(entries: Entries, wired: seq<Wired>, s: State) {
    ShowsPending(entries, s) && ShowsEvents(wired, s.events)
  }

  /** What Redis was told is the protocol's history, event for event. */
  lemma ToldIsHistory(entries: Entries, wired: seq<Wired>, s: State)
    requires Shows(entries, wired, s)
    ensures wired == seq(|s.events|, i requires 0 <= i < |s.events| =>
                           match s.events[i]
                           case PublishEvent(_, stream, doc) => Sent(stream, doc)
                           case AckEvent(x) => Acked(TopicName(x.topic), x.id))
  {
  }

  /** The steps, taken one after another, lead from s to s'. */
  ghost predicate Path(cfg: Config, s: State, steps: seq<Step>, s': State)
    decreases |steps|
  {
    if steps == [] then s' == s
    else Enabled(cfg, s, steps[0]) && Path(cfg, Apply(cfg, s, steps[0]), steps[1..], s')
  }

  /** From a state of a run, the path's end is a state of a longer run. */
  lemma {:induction false} PathExtendsRun(cfg: Config, trace: seq<State>, steps: seq<Step>, s': State)
    returns (longer: seq<State>)
    requires IsRun(cfg, trace) && Path(cfg, trace[|trace| - 1], steps, s')
    ensures IsRun(cfg, longer) && trace <= longer && longer[|longer| - 1] == s'
    decreases |steps|
  {
    longer := trace;
    if steps != [] {
      var s := trace[|trace| - 1];
      var next := trace + [Apply(cfg, s, steps[0])];
      forall i | 0 < i < |next| ensures NextAt(cfg, next, i) {
        if i < |trace| { assert NextAt(cfg, trace, i); }
      }
      longer := PathExtendsRun(cfg, next, steps[1..], s');
    }
  }

  lemma FirstThenPath(cfg: Config, s: State, step: Step, rest: seq<Step>, s': State)
    requires Enabled(cfg, s, step) && Path(cfg, Apply(cfg, s, step), rest, s')
    ensures Path(cfg, s, [step] + rest, s')
  {
    assert ([step] + rest)[1..] == rest;
  }

  lemma PathOne(cfg: Config, s: State, step: Step)
    requires Enabled(cfg, s, step)
    ensures Path(cfg, s, [step], Apply(cfg, s, step))
  {
    assert [step][1..] == [];
  }

  lemma {:induction false} PathThen(cfg: Config, s: State, steps: seq<Step>, s1: State, step: Step)
    requires Path(cfg, s, steps, s1) && Enabled(cfg, s1, step)
    ensures Path(cfg, s, steps + [step], Apply(cfg, s1, step))
    decreases |steps|
  {
    if steps == [] {
      PathOne(cfg, s, step);
    } else {
      PathThen(cfg, Apply(cfg, s, steps[0]), steps[1..], s1, step);
      assert (steps + [step])[1..] == steps[1..] + [step];
    }
  }

  // ---------------------------------------------------------------------
  // Effects and the steps they stand for
  // ---------------------------------------------------------------------

  function WiredAfter(wired: seq<Wired>, w: Wired, r: Reply): seq<Wired> {
    if Effect(r) then wired + [w] else wired
  }

  /** LoadAndDelete, and the document built from what it gives. */
  lemma TakeShown(cfg: Config, entries: Entries, wired: seq<Wired>, s: State, o: nat, args: BuildArgs)
    requires Shows(entries, wired, s) && args.taskId in entries && o !in s.outs && args.docId != ""
    ensures Enabled(cfg, s, Outcome(o, Take(args)))
    ensures var s' := Apply(cfg, s, Outcome(o, Take(args)));
            && Shows(entries - {args.taskId}, wired, s')
            && o in s'.outs && s'.outs[o] == Taken(s.pending[args.taskId], args.outcome, cfg.build(args))
  {
    assert args.taskId in s.pending.Keys;
    assert (entries - {args.taskId}).Keys == (s.pending - {args.taskId}).Keys;
  }

  lemma BuildFailsShown(cfg: Config, entries: Entries, wired: seq<Wired>, s: State, o: nat)
    requires Shows(entries, wired, s) && o in s.outs && s.outs[o].Taken? && s.outs[o].doc.Err?
    ensures Enabled(cfg, s, Outcome(o, BuildFails)) && Shows(entries, wired, Apply(cfg, s, Outcome(o, BuildFails)))
  {
  }

  lemma PublishShown(cfg: Config, entries: Entries, wired: seq<Wired>, s: State, o: nat, r: Reply)
    requires Shows(entries, wired, s) && o in s.outs && s.outs[o].Taken? && s.outs[o].doc.Ok?
    ensures Enabled(cfg, s, Outcome(o, Publish(r)))
    ensures var s' := Apply(cfg, s, Outcome(o, Publish(r)));
            && Shows(entries, WiredAfter(wired, Sent(OutcomeStream(s.outs[o].outcome), s.outs[o].doc.value), r), s')
            && (r == Done ==> o in s'.outs && s'.outs[o] == Published(s.outs[o].item))
  {
  }

  lemma AckShown(cfg: Config, entries: Entries, wired: seq<Wired>, s: State, o: nat, r: Reply)
    requires Shows(entries, wired, s) && o in s.outs && s.outs[o].Published?
    ensures Enabled(cfg, s, Outcome(o, Ack(r)))
    ensures var x := s.outs[o].item;
            Shows(entries, WiredAfter(wired, Acked(TopicName(x.topic), x.id), r), Apply(cfg, s, Outcome(o, Ack(r))))
  {
  }

  // ---------------------------------------------------------------------
  // complete_task and fail_task
  // ---------------------------------------------------------------------

  /** The steps of complete_task and fail_task from LoadAndDelete on. */
  function OutcomeSteps(o: nat, args: BuildArgs, built: bool, published: Reply, acked: Reply): seq<Step> {
    if !built then [Outcome(o, Take(args)), Outcome(o, BuildFails)]
    else if published != Done then [Outcome(o, Take(args)), Outcome(o, Publish(published))]
    else [Outcome(o, Take(args)), Outcome(o, Publish(published)), Outcome(o, Ack(acked))]
  }

  /** What complete_task and fail_task tell Redis once they have an entry. */
  function OutcomeWired(wired: seq<Wired>, outcome: B.Outcome, built: Result<Document, B.BuildError>,
                        topic: string, msgId: string, published: Reply, acked: Reply): seq<Wired> {
    if built.Err? then wired
    else
      var sent := WiredAfter(wired, Sent(OutcomeStream(outcome), built.value), published);
      if published == Done then WiredAfter(sent, Acked(topic, msgId), acked) else sent
  }

  lemma UnbuiltShown(cfg: Config, entries: Entries, wired: seq<Wired>, s: State, o: nat, args: BuildArgs)
    returns (s': State)
    requires Shows(entries, wired, s) && args.taskId in entries && o !in s.outs && args.docId != ""
    requires cfg.build(args).Err?
    ensures Path(cfg, s, [Outcome(o, Take(args)), Outcome(o, BuildFails)], s')
    ensures Shows(entries - {args.taskId}, wired, s')
  {
    var take := Outcome(o, Take(args));
    TakeShown(cfg, entries, wired, s, o, args);
    PathOne(cfg, s, take);
    var s1 := Apply(cfg, s, take);
    BuildFailsShown(cfg, entries - {args.taskId}, wired, s1, o);
    PathThen(cfg, s, [take], s1, Outcome(o, BuildFails));
    s' := Apply(cfg, s1, Outcome(o, BuildFails));
  }

  lemma PublishedShown(cfg: Config, entries: Entries, wired: seq<Wired>, s: State, o: nat, args: BuildArgs, r: Reply)
    returns (s': State)
    requires Shows(entries, wired, s) && args.taskId in entries && o !in s.outs && args.docId != ""
    requires cfg.build(args).Ok?
    ensures Path(cfg, s, [Outcome(o, Take(args)), Outcome(o, Publish(r))], s')
    ensures var sent := Sent(OutcomeStream(args.outcome), cfg.build(args).value);
            Shows(entries - {args.taskId}, WiredAfter(wired, sent, r), s')
    ensures r == Done ==> args.taskId in s.pending && o in s'.outs && s'.outs[o] == Published(s.pending[args.taskId])
  {
    var take := Outcome(o, Take(args));
    TakeShown(cfg, entries, wired, s, o, args);
    PathOne(cfg, s, take);
    var s1 := Apply(cfg, s, take);
    PublishShown(cfg, entries - {args.taskId}, wired, s1, o, r);
    PathThen(cfg, s, [take], s1, Outcome(o, Publish(r)));
    s' := Apply(cfg, s1, Outcome(o, Publish(r)));
  }

  lemma AcknowledgedShown(cfg: Config, entries: Entries, wired: seq<Wired>, s: State, o: nat, args: BuildArgs, r: Reply)
    returns (s': State)
    requires Shows(entries, wired, s) && args.taskId in entries && o !in s.outs && args.docId != ""
    requires cfg.build(args).Ok?
    ensures Path(cfg, s, [Outcome(o, Take(args)), Outcome(o, Publish(Done)), Outcome(o, Ack(r))], s')
    ensures var sent := wired + [Sent(OutcomeStream(args.outcome), cfg.build(args).value)];
            var ack := Acked(entries[args.taskId].topic, entries[args.taskId].msgId);
            Shows(entries - {args.taskId}, WiredAfter(sent, ack, r), s')
  {
    var s2 := PublishedShown(cfg, entries, wired, s, o, args, Done);
    var sent := wired + [Sent(OutcomeStream(args.outcome), cfg.build(args).value)];
    AckShown(cfg, entries - {args.taskId}, sent, s2, o, r);
    PathThen(cfg, s, [Outcome(o, Take(args)), Outcome(o, Publish(Done))], s2, Outcome(o, Ack(r)));
    s' := Apply(cfg, s2, Outcome(o, Ack(r)));
  }

  lemma ConcludeShown(cfg: Config, entries: Entries, wired: seq<Wired>, s: State, o: nat, args: BuildArgs,
                      published: Reply, acked: Reply) returns (s': State)
    requires Shows(entries, wired, s) && args.taskId in entries && o !in s.outs && args.docId != ""
    ensures Path(cfg, s, OutcomeSteps(o, args, cfg.build(args).Ok?, published, acked), s')
    ensures var e := entries[args.taskId];
            var wired' := OutcomeWired(wired, args.outcome, cfg.build(args), e.topic, e.msgId, published, acked);
            Shows(entries - {args.taskId}, wired', s')
  {
    if cfg.build(args).Err? {
      s' := UnbuiltShown(cfg, entries, wired, s, o, args);
    } else if published != Done {
      s' := PublishedShown(cfg, entries, wired, s, o, args, published);
    } else {
      s' := AcknowledgedShown(cfg, entries, wired, s, o, args, acked);
    }
  }

  /** Task topics are told apart by their agent, and from message topics. */
  lemma TaskTopicsDiffer(t: Topic, agent: string)
    ensures TopicName(t) == PendingMap.TaskTopic(agent) <==> t == Tasks(agent)
  {
    var name := PendingMap.TaskTopic(agent);
    assert name[12..] == agent;
    match t
    case Tasks(other) => assert TopicName(t)[12..] == other;
    case Messages(other) => assert TopicName(t)[6] == 'm' && name[6] == 't';
  }

  /** CountByAgent counts the entries the protocol holds pending for the agent. */
  lemma CountShown(entries: Entries, s: State, agent: string)
    requires ShowsPending(entries, s)
    ensures PendingMap.IdsOfTopic(entries, PendingMap.TaskTopic(agent)) == PendingOf(s, agent)
  {
    forall id ensures id in PendingMap.IdsOfTopic(entries, PendingMap.TaskTopic(agent)) <==> id in PendingOf(s, agent) {
      assert id in entries.Keys <==> id in s.pending.Keys;
      if id in s.pending { TaskTopicsDiffer(s.pending[id].topic, agent); }
    }
  }

  lemma AdmissionShown(cfg: Config, entries: Entries, wired: seq<Wired>, s: State, h: nat, agent: string, count: nat)
    returns (s': State)
    requires Shows(entries, wired, s) && h !in s.gates && h !in s.subs
    requires count == |PendingMap.IdsOfTopic(entries, PendingMap.TaskTopic(agent))|
    ensures Path(cfg, s, [Handler(h, Count(agent)), Handler(h, Check)], s') && Shows(entries, wired, s')
    ensures h in s'.gates <==> !(cfg.maxPending(agent) > 0 && count > cfg.maxPending(agent))
    ensures h in s'.gates ==> s'.gates[h] == Passed(agent)
  {
    CountShown(entries, s, agent);
    PathOne(cfg, s, Handler(h, Count(agent)));
    var s1 := Apply(cfg, s, Handler(h, Count(agent)));
    PathThen(cfg, s, [Handler(h, Count(agent))], s1, Handler(h, Check));
    s' := Apply(cfg, s1, Handler(h, Check));
  }

  lemma StoreShown(cfg: Config, entries: Entries, wired: seq<Wired>, s: State, h: nat, x: Item, now: int)
    requires Shows(entries, wired, s) && h in s.subs && s.subs[h].phase == Holding(x)
    requires x.topic.Tasks? && s.subs[h].topic == x.topic
    ensures Enabled(cfg, s, Handler(h, Store))
    ensures var e := PendingMap.PendingEntry(TopicName(x.topic), x.id, now);
            Shows(entries[x.id := e], wired, Apply(cfg, s, Handler(h, Store)))
  {
    assert Apply(cfg, s, Handler(h, Store)).pending == s.pending[x.id := x];
  }

  // ---------------------------------------------------------------------
  // The steps in between: producers, read loops, subscriptions, messages
  // ---------------------------------------------------------------------

  /** Steps that leave the pending map alone. */
  predicate Quiet(step: Step) {
    step.Append? || step.CreateGroup? || step.Loop? || (step.Handler? && !step.handler.Store?)
  }

  /** What a read loop's step tells Redis: an acknowledgement on a discard, else nothing. */
  function LoopTold(cfg: Config, s: State, h: nat, step: LoopStep): seq<Wired>
    requires LoopEnabled(cfg, s, h, step)
  {
    if step.Discard? && Effect(step.reply)
    then [Acked(TopicName(s.subs[h].batch[0].topic), s.subs[h].batch[0].id)]
    else []
  }

  /** What a handler's step tells Redis before any outcome: an acknowledgement of a message, else nothing. */
  function HandlerTold(s: State, h: nat, step: HandlerStep): seq<Wired>
    requires HandlerEnabled(s, h, step)
  {
    if step.AckMessage? && Effect(step.reply)
    then [Acked(TopicName(s.subs[h].phase.item.topic), s.subs[h].phase.item.id)]
    else []
  }

  lemma SameShown(entries: Entries, wired: seq<Wired>, s: State, s': State)
    requires Shows(entries, wired, s) && s'.pending == s.pending && s'.events == s.events
    ensures Shows(entries, wired + [], s')
  {
    assert wired + [] == wired;
  }

  lemma OneMoreAckShown(entries: Entries, wired: seq<Wired>, s: State, s': State, x: Item)
    requires Shows(entries, wired, s) && s'.pending == s.pending && s'.events == s.events + [AckEvent(x)]
    ensures Shows(entries, wired + [Acked(TopicName(x.topic), x.id)], s')
  {
  }

  lemma LoopShown(cfg: Config, entries: Entries, wired: seq<Wired>, s: State, h: nat, step: LoopStep)
    requires Shows(entries, wired, s) && LoopEnabled(cfg, s, h, step)
    ensures Shows(entries, wired + LoopTold(cfg, s, h, step), LoopApply(cfg, s, h, step))
  {
    var s' := LoopApply(cfg, s, h, step);
    match step
    case GroupRead(_) => SameShown(entries, wired, s, s');
    case ReadLost(_) => SameShown(entries, wired, s, s');
    case Discard(r) =>
      if Effect(r) {
        OneMoreAckShown(entries, wired, s, s', s.subs[h].batch[0]);
      } else {
        SameShown(entries, wired, s, s');
      }
    case Push => SameShown(entries, wired, s, s');
    case Cancel => SameShown(entries, wired, s, s');
  }

  lemma HandlerShown(cfg: Config, entries: Entries, wired: seq<Wired>, s: State, h: nat, step: HandlerStep)
    requires Shows(entries, wired, s) && HandlerEnabled(s, h, step) && !step.Store?
    ensures Shows(entries, wired + HandlerTold(s, h, step), HandlerApply(cfg, s, h, step))
  {
    var s' := HandlerApply(cfg, s, h, step);
    if step.AckMessage? && Effect(step.reply) {
      OneMoreAckShown(entries, wired, s, s', s.subs[h].phase.item);
    } else {
      SameShown(entries, wired, s, s');
    }
  }

  /** A quiet step leaves the pending map as it is and tells Redis at most one acknowledgement. */
  lemma QuietShown(cfg: Config, entries: Entries, wired: seq<Wired>, s: State, step: Step) returns (told: seq<Wired>)
    requires Shows(entries, wired, s) && Quiet(step) && Enabled(cfg, s, step)
    ensures Shows(entries, wired + told, Apply(cfg, s, step))
    ensures |told| <= 1 && forall w :: w in told ==> w.Acked?
  {
    match step
    case Append(_) => told := []; SameShown(entries, wired, s, Apply(cfg, s, step));
    case CreateGroup(_) => told := []; SameShown(entries, wired, s, Apply(cfg, s, step));
    case Loop(h, l) => told := LoopTold(cfg, s, h, l); LoopShown(cfg, entries, wired, s, h, l);
    case Handler(h, c) => told := HandlerTold(s, h, c); HandlerShown(cfg, entries, wired, s, h, c);
  }

  /** So the memory follows any path of quiet steps, from the check of get_task to its Store. */
  lemma {:induction false} QuietPathShown(
    cfg: Config, entries: Entries, wired: seq<Wired>, s: State, steps: seq<Step>, s': State) returns (told: seq<Wired>)
    requires Shows(entries, wired, s) && Path(cfg, s, steps, s') && forall step :: step in steps ==> Quiet(step)
    ensures Shows(entries, wired + told, s') && forall w :: w in told ==> w.Acked?
    decreases |steps|
  {
    told := [];
    assert wired + [] == wired;
    if steps != [] {
      var first := QuietShown(cfg, entries, wired, s, steps[0]);
      var rest := QuietPathShown(cfg, entries, wired + first, Apply(cfg, s, steps[0]), steps[1..], s');
      told := first + rest;
      assert wired + told == wired + first + rest;
    }
  }

  // ---------------------------------------------------------------------
  // The sweep
  // ---------------------------------------------------------------------

  lemma EvictShown(cfg: Config, entries: Entries, wired: seq<Wired>, s: State, id: string)
    requires Shows(entries, wired, s) && id in entries
    ensures Enabled(cfg, s, Evict(id)) && Shows(entries - {id}, wired, Apply(cfg, s, Evict(id)))
  {
    assert id in s.pending.Keys;
    assert (entries - {id}).Keys == (s.pending - {id}).Keys;
  }

  lemma RemoveOneThenRest(entries: Entries, id: string, gone: set<string>)
    requires id in gone
    ensures entries - {id} - (gone - {id}) == entries - gone
  {
  }

  /** Removing a set of entries is a path of evictions, one for each of them. */
  lemma {:induction false} EvictionsShown(cfg: Config, entries: Entries, wired: seq<Wired>, s: State, gone: set<string>)
    returns (steps: seq<Step>, s': State)
    requires Shows(entries, wired, s) && gone <= entries.Keys
    ensures Path(cfg, s, steps, s') && Shows(entries - gone, wired, s')
    ensures |steps| == |gone| && forall id :: Evict(id) in steps <==> id in gone
    decreases |gone|
  {
    if gone == {} {
      steps, s' := [], s;
      assert entries - gone == entries;
    } else {
      var id :| id in gone;
      EvictShown(cfg, entries, wired, s, id);
      var rest;
      rest, s' := EvictionsShown(cfg, entries - {id}, wired, Apply(cfg, s, Evict(id)), gone - {id});
      steps := [Evict(id)] + rest;
      RemoveOneThenRest(entries, id, gone);
      FirstThenPath(cfg, s, Evict(id), rest, s');
    }
  }

  /** Entries a sweep at `now` removes. */
  function Stale(entries: Entries, ttl: int, now: int): set<string> {
    set id | id in entries && entries[id].storedAt < now - ttl
  }

  /** A sweep is a path of evictions, of exactly the entries older than ttl. */
  lemma SweepShown(cfg: Config, entries: Entries, wired: seq<Wired>, s: State, ttl: int, now: int)
    returns (steps: seq<Step>, s': State)
    requires Shows(entries, wired, s)
    ensures Path(cfg, s, steps, s') && Shows(PendingMap.Swept(entries, ttl, now), wired, s')
    ensures |steps| == |Stale(entries, ttl, now)|
    ensures forall id :: Evict(id) in steps <==> id in entries && entries[id].storedAt < now - ttl
  {
    var gone := Stale(entries, ttl, now);
    steps, s' := EvictionsShown(cfg, entries, wired, s, gone);
    assert entries - gone == PendingMap.Swept(entries, ttl, now);
  }
}
