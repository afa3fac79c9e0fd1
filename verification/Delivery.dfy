/**
 * The gateway's delivery protocol as a state machine (internal/gateway/tools.go,
 * internal/gateway/pending.go, pkg/transport/redis/redis.go).
 *
 * Redis is a log per topic, a last-delivered cursor and the list of unacknowledged
 * entries. Every effect of a handler, a read loop or the sweep is one step, so a run
 * may interleave them in any way. Network calls carry a `Reply`, which may report an
 * error although the server acted.
 */
module Delivery {
  import opened Wrappers
  import opened Documents
  import opened FrontMatter
  import opened Validator
  import B = Builder
  import Wire

  const MAX_BATCH: nat := 10

  /** The streams read by the gateway: "agent.tasks." and "agent.messages." followed by the agent. */
  datatype Topic = Tasks(agent: string) | Messages(agent: string)

  /** A stream entry, named by its topic and the ID Redis gave it. */
  datatype Item = Item(topic: Topic, id: string, payload: Wire.Payload)

  datatype Reply = Done | ErrorAfterEffect | ErrorWithoutEffect

  /** What complete_task and fail_task give the document builder, besides the gateway's own ID. */
  datatype BuildArgs = BuildArgs(
    outcome: B.Outcome, docId: string, agent: string, taskId: string, body: seq<byte>, createdAt: string)

  /** The computations the protocol calls out to: parseMsg, the outcome builder and the pending limit of an agent. */
  datatype Config = Config(
    parses: Wire.Payload -> bool,
    build: BuildArgs -> Result<Document, B.BuildError>,
    maxPending: string -> int)

  /** What a real gateway is set up with; `loaded` is the default validator, when its schemas compile. */
  datatype Setup = Setup(codec: Wire.Codec, loaded: Option<Schemas>, gatewayId: string, maxPending: string -> int)

  /** The configuration of a real gateway. */
  function Gateway(g: Setup): Config {
    Config(
      payload => Wire.ParseMsgSpec(g.codec, payload).Some?,
      (a: BuildArgs) => B.BuildResult(
        B.OutcomeState(a.outcome, a.docId, g.gatewayId, a.agent, a.taskId, a.body), g.loaded, a.createdAt),
      g.maxPending)
  }

  /** get_task before it subscribes: the count it read, or past the limit check. */
  datatype Gate = Counted(agent: string, count: nat) | Passed(agent: string)

  datatype Phase = Waiting | Holding(item: Item) | Gone

  /** One call of get_task or receive_message with its read loop and one-slot channel. */
  datatype Sub = Sub(topic: Topic, batch: seq<Item>, chan: Option<Item>, alive: bool, phase: Phase)

  /** complete_task or fail_task once LoadAndDelete has given it an entry. */
  datatype Out =
    | Taken(item: Item, outcome: B.Outcome, doc: Result<Document, B.BuildError>)
    | Published(item: Item)

  /** What Redis was told: a document for a stream, on behalf of an entry, or that an entry is done with. */
  datatype Event = PublishEvent(item: Item, stream: string, doc: Document) | AckEvent(item: Item)

  /** The stream complete_task, respectively fail_task, publishes to. */
  function OutcomeStream(o: B.Outcome): string {
    if o == B.Completed then "agent.events.completed" else "agent.events.failed"
  }

  /** Where an entry that was read and is still in the program's hands is. */
  datatype Place = InBatch(sub: nat) | InChannel(sub: nat) | Held(sub: nat) | InPending | InOutcome(out: nat)

  /** What became of an entry that is no longer in the program's hands. */
  datatype Fate = Evicted | Discarded | Abandoned | Failed | Overwritten | Acknowledged

  datatype State = State(
    // Redis
    logs: map<Topic, seq<Item>>, cursors: map<Topic, nat>, unacked: set<Item>,
    // the gateway
    gates: map<nat, Gate>, subs: map<nat, Sub>, pending: map<string, Item>, outs: map<nat, Out>,
    // history, not kept by the program
    read: set<Item>, acked: set<Item>, where: map<Item, Place>, fate: map<Item, Fate>, events: seq<Event>)

  function Init(): State {
    State(map[], map[], {}, map[], map[], map[], map[], {}, {}, map[], map[], [])
  }

  /** What a read loop does. */
  datatype LoopStep =
    | GroupRead(n: nat)
    | ReadLost(n: nat)
    | Discard(reply: Reply)
    | Push
    | Cancel

  /** What get_task and receive_message do. */
  datatype HandlerStep =
    | Count(agent: string)
    | Check
    | Abort
    | Subscribe
    | SubscribeMessages(agent: string)
    | Receive
    | Leave
    | Store
    | AckMessage(reply: Reply)

  /** What complete_task and fail_task do. */
  datatype OutcomeStep =
    | Take(args: BuildArgs)
    | BuildFails
    | Publish(reply: Reply)
    | Ack(reply: Reply)

  datatype Step =
    | Append(item: Item)                       // a producer
    | CreateGroup(topic: Topic)                // a Subscribe that failed after it had created the group
    | Loop(sub: nat, loop: LoopStep)
    | Handler(sub: nat, handler: HandlerStep)
    | Outcome(out: nat, outcome: OutcomeStep)
    | Evict(id: string)                        // the sweep

  // ---------------------------------------------------------------------
  // Parts of a state
  // ---------------------------------------------------------------------

  predicate WellFormed(cfg: Config, x: Item) {
    cfg.parses(x.payload)
  }

  function LogOf(s: State, t: Topic): seq<Item> {
    if t in s.logs then s.logs[t] else []
  }

  function CursorOf(s: State, t: Topic): nat {
    if t in s.cursors then s.cursors[t] else 0
  }

  /** The next `n` entries the consumer group delivers on a topic. */
  function NextRead(s: State, t: Topic, n: nat): seq<Item>
    requires CursorOf(s, t) + n <= |LogOf(s, t)|
  {
    LogOf(s, t)[CursorOf(s, t)..CursorOf(s, t) + n]
  }

  /** Task IDs pending for an agent: what CountByAgent counts. */
  function PendingOf(s: State, agent: string): set<string> {
    set id | id in s.pending && s.pending[id].topic == Tasks(agent)
  }

  predicate Effect(r: Reply) {
    r != ErrorWithoutEffect
  }

  // ---------------------------------------------------------------------
  // Steps
  // ---------------------------------------------------------------------

  predicate CanRead(s: State, h: nat, n: nat)
    requires h in s.subs
  {
    && s.subs[h].alive && s.subs[h].batch == []
    && s.subs[h].topic in s.cursors
    && 1 <= n <= MAX_BATCH
    && CursorOf(s, s.subs[h].topic) + n <= |LogOf(s, s.subs[h].topic)|
  }

  predicate LoopEnabled(cfg: Config, s: State, h: nat, step: LoopStep) {
    && h in s.subs && s.subs[h].alive
    && match step
       case GroupRead(n) => CanRead(s, h, n)
       case ReadLost(n) => CanRead(s, h, n)
       case Discard(_) => s.subs[h].batch != [] && !WellFormed(cfg, s.subs[h].batch[0])
       case Push => s.subs[h].batch != [] && WellFormed(cfg, s.subs[h].batch[0]) && s.subs[h].chan.None?
       case Cancel => s.subs[h].batch == [] || WellFormed(cfg, s.subs[h].batch[0])
  }

  function LoopApply(cfg: Config, s: State, h: nat, step: LoopStep): State
    requires LoopEnabled(cfg, s, h, step)
  {
    match step
    case GroupRead(n) => Deliver(s, h, NextRead(s, s.subs[h].topic, n))
    case ReadLost(n) => Lose(s, s.subs[h].topic, NextRead(s, s.subs[h].topic, n))
    case Discard(r) => DiscardHead(s, h, r)
    case Push => PushHead(s, h)
    case Cancel => CancelLoop(s, h)
  }

  predicate HandlerEnabled(s: State, h: nat, step: HandlerStep) {
    match step
    case Count(_) => h !in s.gates && h !in s.subs
    case Check => h in s.gates && s.gates[h].Counted?
    case Abort => h in s.gates && s.gates[h].Passed?
    case Subscribe => h in s.gates && s.gates[h].Passed? && h !in s.subs
    case SubscribeMessages(_) => h !in s.gates && h !in s.subs
    case Receive => h in s.subs && s.subs[h].phase.Waiting? && s.subs[h].chan.Some?
    case Leave => h in s.subs && s.subs[h].phase.Waiting?
    case Store => h in s.subs && s.subs[h].phase.Holding? && s.subs[h].topic.Tasks?
    case AckMessage(_) => h in s.subs && s.subs[h].phase.Holding? && s.subs[h].topic.Messages?
  }

  function HandlerApply(cfg: Config, s: State, h: nat, step: HandlerStep): State
    requires HandlerEnabled(s, h, step)
  {
    match step
    case Count(agent) => s.(gates := s.gates[h := Counted(agent, |PendingOf(s, agent)|)])
    case Check => CheckGate(cfg, s, h)
    case Abort => s.(gates := s.gates - {h})
    case Subscribe => Open(s, h, Tasks(s.gates[h].agent))
    case SubscribeMessages(agent) => Open(s, h, Messages(agent))
    case Receive => TakeFromChannel(s, h)
    case Leave => LeaveChannel(s, h)
    case Store => StoreItem(s, h)
    case AckMessage(r) => AckHeld(s, h, r)
  }

  predicate OutcomeEnabled(s: State, o: nat, step: OutcomeStep) {
    match step
    // a generated document ID is never empty
    case Take(args) => o !in s.outs && args.taskId in s.pending && args.docId != ""
    case BuildFails => o in s.outs && s.outs[o].Taken? && s.outs[o].doc.Err?
    case Publish(_) => o in s.outs && s.outs[o].Taken? && s.outs[o].doc.Ok?
    case Ack(_) => o in s.outs && s.outs[o].Published?
  }

  function OutcomeApply(cfg: Config, s: State, o: nat, step: OutcomeStep): State
    requires OutcomeEnabled(s, o, step)
  {
    match step
    case Take(args) => TakePending(s, o, args, cfg.build(args))
    case BuildFails => EndOutcome(s, o, Failed)
    case Publish(r) => PublishOutcome(s, o, r)
    case Ack(r) => AckOutcome(s, o, r)
  }

  predicate Enabled(cfg: Config, s: State, step: Step) {
    match step
    // Redis gives every entry of a stream its own non-empty ID
    case Append(x) => x.id != "" && forall y :: y in LogOf(s, x.topic) ==> y.id != x.id
    case CreateGroup(_) => true
    case Loop(h, l) => LoopEnabled(cfg, s, h, l)
    case Handler(h, c) => HandlerEnabled(s, h, c)
    case Outcome(o, c) => OutcomeEnabled(s, o, c)
    case Evict(id) => id in s.pending
  }

  function Apply(cfg: Config, s: State, step: Step): State
    requires Enabled(cfg, s, step)
  {
    match step
    case Append(x) => AppendItem(s, x)
    case CreateGroup(t) => s.(cursors := WithGroup(s, t))
    case Loop(h, l) => LoopApply(cfg, s, h, l)
    case Handler(h, c) => HandlerApply(cfg, s, h, c)
    case Outcome(o, c) => OutcomeApply(cfg, s, o, c)
    case Evict(id) => RemovePending(s, id, Evicted)
  }

  function AppendItem(s: State, x: Item): State {
    s.(logs := s.logs[x.topic := LogOf(s, x.topic) + [x]])
  }

  // get_task and receive_message

  /** The limit check: a count above a positive limit is refused. */
  function CheckGate(cfg: Config, s: State, h: nat): State
    requires h in s.gates && s.gates[h].Counted?
  {
    var Counted(agent, count) := s.gates[h];
    var refused := cfg.maxPending(agent) > 0 && count > cfg.maxPending(agent);
    s.(gates := if refused then s.gates - {h} else s.gates[h := Passed(agent)])
  }

  /** XGROUP CREATE: the group starts at the end of the log, unless it exists. */
  function WithGroup(s: State, t: Topic): map<Topic, nat> {
    if t in s.cursors then s.cursors else s.cursors[t := |LogOf(s, t)|]
  }

  /** Subscribe: the group exists from now on; the loop starts empty. */
  function Open(s: State, h: nat, t: Topic): State {
    s.(gates := s.gates - {h},
       cursors := WithGroup(s, t),
       subs := s.subs[h := Sub(t, [], None, true, Waiting)])
  }

  function TakeFromChannel(s: State, h: nat): State
    requires h in s.subs && s.subs[h].chan.Some?
  {
    var x := s.subs[h].chan.value;
    s.(subs := s.subs[h := s.subs[h].(chan := None, phase := Holding(x))], where := s.where[x := Held(h)])
  }

  /** The read timeout passes, or the channel is closed and empty. */
  function LeaveChannel(s: State, h: nat): State
    requires h in s.subs
  {
    s.(subs := s.subs[h := s.subs[h].(phase := Gone)])
  }

  /** PendingMap.Store: keyed by the entry ID alone, so an entry of another topic is replaced. */
  function StoreItem(s: State, h: nat): State
    requires h in s.subs && s.subs[h].phase.Holding?
  {
    var x := s.subs[h].phase.item;
    var where := s.where[x := InPending];
    var clash := x.id in s.pending && s.pending[x.id] != x;
    s.(subs := s.subs[h := s.subs[h].(phase := Gone)],
       pending := s.pending[x.id := x],
       where := if clash then where - {s.pending[x.id]} else where,
       fate := if clash then s.fate[s.pending[x.id] := Overwritten] else s.fate)
  }

  function AckHeld(s: State, h: nat, r: Reply): State
    requires h in s.subs && s.subs[h].phase.Holding?
  {
    var x := s.subs[h].phase.item;
    var released := s.(subs := s.subs[h := s.subs[h].(phase := Gone)]);
    Settle(Xack(released, x, r), x, if r == Done then Acknowledged else Failed)
  }

  // the read loop

  /** XREADGROUP: the cursor moves on and the entries become unacknowledged. */
  function Advance(s: State, t: Topic, items: seq<Item>): State {
    var these := set x | x in items;
    s.(cursors := s.cursors[t := CursorOf(s, t) + |items|], unacked := s.unacked + these, read := s.read + these)
  }

  function Deliver(s: State, h: nat, items: seq<Item>): State
    requires h in s.subs
  {
    Advance(s, s.subs[h].topic, items)
    .(subs := s.subs[h := s.subs[h].(batch := items)], where := s.where + map x | x in items :: InBatch(h))
  }

  /** A read whose reply never arrives: Redis has delivered, nobody holds the entries. */
  function Lose(s: State, t: Topic, items: seq<Item>): State {
    Advance(s, t, items).(fate := s.fate + map x | x in items :: Abandoned)
  }

  function DiscardHead(s: State, h: nat, r: Reply): State
    requires h in s.subs && s.subs[h].batch != []
  {
    var x := s.subs[h].batch[0];
    Settle(Xack(s.(subs := s.subs[h := s.subs[h].(batch := s.subs[h].batch[1..])]), x, r), x, Discarded)
  }

  function PushHead(s: State, h: nat): State
    requires h in s.subs && s.subs[h].batch != []
  {
    var x := s.subs[h].batch[0];
    s.(subs := s.subs[h := s.subs[h].(batch := s.subs[h].batch[1..], chan := Some(x))],
       where := s.where[x := InChannel(h)])
  }

  /** The loop returns on cancellation: what is left of its batch is abandoned. */
  function CancelLoop(s: State, h: nat): State
    requires h in s.subs
  {
    var items := s.subs[h].batch;
    s.(subs := s.subs[h := s.subs[h].(alive := false, batch := [])],
       where := s.where - (set x | x in items), fate := s.fate + map x | x in items :: Abandoned)
  }

  // complete_task and fail_task

  function TakePending(s: State, o: nat, args: BuildArgs, doc: Result<Document, B.BuildError>): State
    requires args.taskId in s.pending
  {
    var x := s.pending[args.taskId];
    s.(pending := s.pending - {args.taskId}, outs := s.outs[o := Taken(x, args.outcome, doc)],
       where := s.where[x := InOutcome(o)])
  }

  function EndOutcome(s: State, o: nat, f: Fate): State
    requires o in s.outs
  {
    Settle(s.(outs := s.outs - {o}), s.outs[o].item, f)
  }

  function PublishOutcome(s: State, o: nat, r: Reply): State
    requires o in s.outs && s.outs[o].Taken? && s.outs[o].doc.Ok?
  {
    var x := s.outs[o].item;
    var event := PublishEvent(x, OutcomeStream(s.outs[o].outcome), s.outs[o].doc.value);
    s.(events := if Effect(r) then s.events + [event] else s.events,
       outs := if r == Done then s.outs[o := Published(x)] else s.outs - {o},
       where := if r == Done then s.where else s.where - {x},
       fate := if r == Done then s.fate else s.fate[x := Failed])
  }

  function AckOutcome(s: State, o: nat, r: Reply): State
    requires o in s.outs
  {
    EndOutcome(Xack(s, s.outs[o].item, r), o, if r == Done then Acknowledged else Failed)
  }

  // the sweep

  function RemovePending(s: State, id: string, f: Fate): State
    requires id in s.pending
  {
    Settle(s.(pending := s.pending - {id}), s.pending[id], f)
  }

  /** XACK, as far as the server is concerned. */
  function Xack(s: State, x: Item, r: Reply): State {
    s.(unacked := if Effect(r) then s.unacked - {x} else s.unacked,
       acked := if Effect(r) then s.acked + {x} else s.acked,
       events := if Effect(r) then s.events + [AckEvent(x)] else s.events)
  }

  /** History: an entry leaves the program's hands. */
  function Settle(s: State, x: Item, f: Fate): State {
    s.(where := s.where - {x}, fate := s.fate[x := f])
  }

  // ---------------------------------------------------------------------
  // Runs
  // ---------------------------------------------------------------------

  ghost predicate Next(cfg: Config, s: State, s': State) {
    exists step :: Enabled(cfg, s, step) && s' == Apply(cfg, s, step)
  }

  ghost predicate NextAt(cfg: Config, trace: seq<State>, i: int)
    requires 0 < i < |trace|
  {
    Next(cfg, trace[i - 1], trace[i])
  }

  /** A run: it starts in the initial state and each state follows from the one before by some step. */
  ghost predicate IsRun(cfg: Config, trace: seq<State>) {
    && trace != [] && trace[0] == Init()
    && (forall i :: 0 < i < |trace| ==> NextAt(cfg, trace, i))
  }

  lemma NextOf(cfg: Config, trace: seq<State>, i: nat)
    requires IsRun(cfg, trace) && 0 < i < |trace|
    ensures Next(cfg, trace[i - 1], trace[i])
  {
    assert NextAt(cfg, trace, i);
  }
}
