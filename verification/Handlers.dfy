/**
 * The tool handlers of the gateway, one effect after another with early exits in between
 * (internal/gateway/tools.go). Each is proved to take the delivery protocol through the
 * steps it stands for, so what holds of every run of the protocol holds of the handlers.
 */
module Handlers {
  import opened Wrappers
  import opened Protocol
  import opened Documents
  import opened FrontMatter
  import opened Validator
  import opened Delivery
  import opened HandlerSteps
  import B = Builder
  import PendingMap
  import Limiter
  import MessageLog
  import Policy
  import Wire
  import DeliveryInv
  import DeliveryTheorems

  const ORCHESTRATOR: string := "orchestrator"

  /**
   * Configuration, with the default validator (nothing when its schemas do not compile),
   * IsValidAgentID and the optional authenticator (nothing for an unknown key).
   */
  datatype Settings = Settings(
    gatewayId: string, defaultAgent: string, defaultKey: string, loaded: Option<Schemas>,
    validId: string -> bool, auth: Option<string -> Option<string>>)

  datatype Credentials = Credentials(agent: string, apiKey: string)

  /** What the policy store answers. */
  type Listed = Result<seq<Policy.Rule>, string>

  datatype Refusal =
    | InvalidAgent | AuthFailed | NotBound | PolicyError | NotAllowed
    | TooLarge | Limited(error: Limiter.LimitError) | UnknownTask
    | BuildFailed(why: B.BuildError) | PublishFailed | AckFailed

  /** Refusals that come before LoadAndDelete gives the handler an entry. */
  predicate Early(e: Refusal) {
    !e.BuildFailed? && !e.PublishFailed? && !e.AckFailed?
  }

  // ---------------------------------------------------------------------
  // The gates every tool shares
  // ---------------------------------------------------------------------

  /** applyDefaults: the default key goes with the default agent only. */
  function WithDefaults(st: Settings, c: Credentials): Credentials {
    if c.agent != "" then c
    else Credentials(st.defaultAgent, if c.apiKey == "" then st.defaultKey else c.apiKey)
  }

  /** The key presented is bound to the agent claimed, or no authenticator is configured. */
  predicate Bound(st: Settings, c: Credentials) {
    st.auth.Some? ==> st.auth.value(c.apiKey) == Some(c.agent)
  }

  /** What lets a call past the gates. */
  ghost predicate Authorised(st: Settings, c: Credentials, listed: Listed) {
    && st.validId(c.agent) && Bound(st, c)
    && listed.Ok? && Policy.Wins(listed.value, c.agent, ORCHESTRATOR, Policy.Allow)
  }

  /** What a gate may say when it refuses. */
  ghost predicate GateRefuses(st: Settings, c: Credentials, listed: Listed, e: Refusal) {
    match e
    case InvalidAgent => !st.validId(c.agent)
    case AuthFailed => st.validId(c.agent) && st.auth.Some? && st.auth.value(c.apiKey).None?
    case NotBound =>
      && st.validId(c.agent) && st.auth.Some? && st.auth.value(c.apiKey).Some?
      && st.auth.value(c.apiKey).value != c.agent
    case PolicyError => st.validId(c.agent) && Bound(st, c) && listed.Err?
    case NotAllowed =>
      && st.validId(c.agent) && Bound(st, c) && listed.Ok?
      && exists a :: a != Policy.Allow && Policy.Wins(listed.value, c.agent, ORCHESTRATOR, a)
    case _ => false
  }

  /**
   * Who is let past the gates, after the defaults: an agent named by the caller with the key
   * the caller presented, even none; or the default agent, with the default key only if the
   * caller named neither.
   */
  lemma AuthorisedExactlyWhen(st: Settings, c: Credentials, listed: Listed)
    ensures c.agent != "" ==> WithDefaults(st, c) == c
    ensures c.agent == "" && c.apiKey != "" ==> WithDefaults(st, c) == Credentials(st.defaultAgent, c.apiKey)
    ensures c.agent == "" && c.apiKey == "" ==> WithDefaults(st, c) == Credentials(st.defaultAgent, st.defaultKey)
    ensures c.agent != "" && c.apiKey == "" && st.auth.Some? && st.auth.value("") != Some(c.agent) ==>
              !Authorised(st, WithDefaults(st, c), listed)
    ensures Authorised(st, c, listed) <==>
            && st.validId(c.agent) && (st.auth.None? || st.auth.value(c.apiKey) == Some(c.agent))
            && listed.Ok? && Policy.MayDecide(listed.value, c.agent, "orchestrator", Policy.Allow)
  {
    if listed.Ok? { Policy.MayDecideIsWins(listed.value, c.agent, "orchestrator", Policy.Allow); }
  }

  method PassGates(st: Settings, c: Credentials, listed: Listed) returns (r: Option<Refusal>)
    ensures r.None? ==> Authorised(st, c, listed)
    ensures r.Some? ==> GateRefuses(st, c, listed, r.value)
  {
    if !st.validId(c.agent) { return Some(InvalidAgent); }
    if st.auth.Some? {
      var bound := st.auth.value(c.apiKey);
      if bound.None? { return Some(AuthFailed); }
      if bound.value != c.agent { return Some(NotBound); }
    }
    var allowed := Policy.Allowed(listed, c.agent, ORCHESTRATOR);
    if allowed.Err? { return Some(PolicyError); }
    if !allowed.value { return Some(NotAllowed); }
    return None;
  }

  // ---------------------------------------------------------------------
  // complete_task and fail_task
  // ---------------------------------------------------------------------

  /** What a call is answered by the world: policies, limits and clocks, the new document ID, and Redis. */
  datatype Environment = Environment(
    listed: Listed, limits: Limiter.Inputs, docId: string, createdAt: string,
    trim: Limiter.Inputs, published: Reply, acked: Reply)

  /** What lets complete_task and fail_task go on to the pending map. */
  ghost predicate Sendable(st: Settings, c: Credentials, env: Environment, size: nat,
                           verdict: Option<Limiter.LimitError>) {
    Authorised(st, c, env.listed) && size <= Wire.MAX_DOCUMENT_BYTES && verdict.None?
  }

  /** What they may say when they refuse early: the first gate that fails, in order. */
  ghost predicate Refuses(st: Settings, c: Credentials, env: Environment, size: nat,
                          verdict: Option<Limiter.LimitError>, known: bool, e: Refusal) {
    match e
    case TooLarge => Authorised(st, c, env.listed) && size > Wire.MAX_DOCUMENT_BYTES
    case Limited(l) => Authorised(st, c, env.listed) && size <= Wire.MAX_DOCUMENT_BYTES && verdict == Some(l)
    case UnknownTask => Sendable(st, c, env, size, verdict) && !known
    case _ => GateRefuses(st, c, env.listed, e)
  }

  /** Their answer from LoadAndDelete on. */
  function OutcomeAnswer(built: Result<Document, B.BuildError>, published: Reply, acked: Reply): Option<Refusal> {
    if built.Err? then Some(BuildFailed(built.error))
    else if published != Done then Some(PublishFailed)
    else if acked != Done then Some(AckFailed)
    else None
  }

  /** Past LoadAndDelete, success is exactly a document built, a publish and an acknowledgement confirmed. */
  lemma AnswerExactlyWhen(built: Result<Document, B.BuildError>, published: Reply, acked: Reply)
    ensures var r := OutcomeAnswer(built, published, acked);
            && (r == None <==> built.Ok? && published == Done && acked == Done)
            && (r == Some(AckFailed) <==> built.Ok? && published == Done && acked != Done)
            && (r == Some(PublishFailed) <==> built.Ok? && published != Done)
            && (built.Err? ==> r == Some(BuildFailed(built.error)))
  {
  }

  /** How they answer and the steps they take once past the gates. */
  ghost predicate Concluded(known: bool, o: nat, args: BuildArgs, built: Result<Document, B.BuildError>,
                            env: Environment, r: Option<Refusal>, steps: seq<Step>) {
    if known then
      && r == OutcomeAnswer(built, env.published, env.acked)
      && steps == OutcomeSteps(o, args, built.Ok?, env.published, env.acked)
    else
      r == Some(UnknownTask) && steps == []
  }

  /** How they answer, and the steps they take: none when they refuse early. */
  ghost predicate Answered(st: Settings, c: Credentials, env: Environment, verdict: Option<Limiter.LimitError>,
                           known: bool, o: nat, args: BuildArgs, built: Result<Document, B.BuildError>,
                           r: Option<Refusal>, steps: seq<Step>) {
    if r.Some? && Early(r.value) then
      steps == [] && Refuses(st, c, env, |args.body|, verdict, known, r.value)
    else
      && Sendable(st, c, env, |args.body|, verdict) && known
      && r == OutcomeAnswer(built, env.published, env.acked)
      && steps == OutcomeSteps(o, args, built.Ok?, env.published, env.acked)
  }

  /** The limiter's records after the call: a call that reached the limiter has spent its send, whatever came of it. */
  function RecordsAfterCall(records: Limiter.Records, send: Limiter.SendCall, r: Option<Refusal>): Limiter.Records {
    if Spends(r) then Limiter.AfterSend(records, send) else records
  }

  /** What Redis has been told after the call. */
  function WiredAfterCall(wired: seq<Wired>, entries: Entries, args: BuildArgs,
                          built: Result<Document, B.BuildError>, env: Environment): seq<Wired> {
    if args.taskId !in entries then wired
    else
      var e := entries[args.taskId];
      OutcomeWired(wired, args.outcome, built, e.topic, e.msgId, env.published, env.acked)
  }

  /** The same, also for a call refused early: it has told Redis nothing. */
  function ToldAfterCall(wired: seq<Wired>, entries: Entries, args: BuildArgs, built: Result<Document, B.BuildError>,
                         env: Environment, r: Option<Refusal>): seq<Wired> {
    if r.Some? && Early(r.value) then wired else WiredAfterCall(wired, entries, args, built, env)
  }

  lemma ToldLate(wired: seq<Wired>, entries: Entries, o: nat, args: BuildArgs, cfgBuilt: Result<Document, B.BuildError>,
                 built: Result<Document, B.BuildError>, env: Environment, r: Option<Refusal>, steps: seq<Step>)
    requires Concluded(args.taskId in entries, o, args, cfgBuilt, env, r, steps)
    ensures WiredAfterCall(wired, entries, args, built, env) == ToldAfterCall(wired, entries, args, built, env, r)
  {
  }

  /** The path that goes with what the call does to the memory. */
  lemma ConcludedShown(cfg: Config, entries: Entries, wired: seq<Wired>, s: State, o: nat, args: BuildArgs,
                       env: Environment) returns (steps: seq<Step>, s': State)
    requires Shows(entries, wired, s) && o !in s.outs && args.docId != ""
    ensures steps == if args.taskId !in entries then []
                     else OutcomeSteps(o, args, cfg.build(args).Ok?, env.published, env.acked)
    ensures Path(cfg, s, steps, s')
    ensures Shows(entries - {args.taskId}, WiredAfterCall(wired, entries, args, cfg.build(args), env), s')
  {
    if args.taskId in entries {
      s' := ConcludeShown(cfg, entries, wired, s, o, args, env.published, env.acked);
      steps := OutcomeSteps(o, args, cfg.build(args).Ok?, env.published, env.acked);
    } else {
      steps, s' := [], s;
      assert entries - {args.taskId} == entries;
    }
  }

  /** The log after the call: an entry for a complete success only. */
  function LogAfterCall(log: MessageLog.State, cap: nat, args: BuildArgs, built: Result<Document, B.BuildError>,
                        r: Option<Refusal>): MessageLog.State {
    if r.None? && built.Ok? then MessageLog.Logged(log, cap, OutcomeEntry(args, built.value)) else log
  }

  lemma AnsweredLate(st: Settings, c: Credentials, env: Environment, verdict: Option<Limiter.LimitError>, known: bool,
                     o: nat, args: BuildArgs, built: Result<Document, B.BuildError>,
                     r: Option<Refusal>, steps: seq<Step>)
    requires Sendable(st, c, env, |args.body|, verdict)
    requires Concluded(known, o, args, built, env, r, steps)
    ensures Answered(st, c, env, verdict, known, o, args, built, r, steps) && Spends(r)
  {
  }

  lemma AnsweredEarly(st: Settings, c: Credentials, env: Environment, verdict: Option<Limiter.LimitError>, known: bool,
                      o: nat, args: BuildArgs, built: Result<Document, B.BuildError>, r: Refusal)
    requires Refuses(st, c, env, |args.body|, verdict, true, r)
    ensures Answered(st, c, env, verdict, known, o, args, built, Some(r), [])
  {
  }

  /** The log entry of a call that succeeded. */
  function OutcomeEntry(args: BuildArgs, doc: Document): MessageLog.Entry {
    MessageLog.Entry(
      doc.envelope.id, doc.envelope.threadId, args.agent, ORCHESTRATOR, B.OutcomeType(args.outcome), "send",
      if args.outcome == B.Completed then "complete_task" else "fail_task", |args.body|, args.body)
  }

  /** The log entry of a delivery through a tool. */
  function DeliveryEntry(tool: string, agent: string, doc: Document): MessageLog.Entry {
    MessageLog.Entry(
      doc.envelope.id, doc.envelope.threadId, doc.envelope.from, agent, doc.envelope.msgType, "receive",
      tool, |doc.body|, doc.body)
  }

  /** The channel gave the call what parseMsg made of the entry it holds. */
  ghost predicate DeliveredFrom(codec: Wire.Codec, delivered: (string, Document), x: Item) {
    x.id == delivered.0 && Wire.ParseMsgSpec(codec, x.payload) == Some(delivered.1)
  }

  /** Whether a call of complete_task or fail_task got as far as the limiter, which counts its send. */
  predicate Spends(r: Option<Refusal>) {
    r.Some? && Early(r.value) ==> r.value.Limited? || r.value.UnknownTask?
  }

  /**
   * A call of complete_task or fail_task takes an entry only if it is authorised, its body is
   * at most 65536 bytes, the limiter lets it through and the entry is pending; and it says it
   * succeeded only if Redis confirmed both the report and the acknowledgement.
   */
  lemma TakesOnlyWhenAllowed(st: Settings, c: Credentials, env: Environment, verdict: Option<Limiter.LimitError>,
                             known: bool, o: nat, args: BuildArgs, built: Result<Document, B.BuildError>,
                             r: Option<Refusal>, steps: seq<Step>)
    requires Answered(st, c, env, verdict, known, o, args, built, r, steps)
    ensures steps != [] ==>
              && steps[0] == Outcome(o, Take(args))
              && st.validId(c.agent) && (st.auth.Some? ==> st.auth.value(c.apiKey) == Some(c.agent))
              && env.listed.Ok? && Policy.MayDecide(env.listed.value, c.agent, "orchestrator", Policy.Allow)
              && |args.body| <= 65536 && verdict.None? && known
    ensures r.None? ==> steps != [] && built.Ok? && env.published == Done && env.acked == Done
    ensures steps == [] ==> r.Some?
    ensures r == Some(UnknownTask) ==> !known && verdict.None? && |args.body| <= 65536
    ensures r == Some(TooLarge) ==> |args.body| > 65536
    ensures r.Some? && r.value.Limited? ==> verdict == Some(r.value.error)
  {
    AuthorisedExactlyWhen(st, c, env.listed);
    AnswerExactlyWhen(built, env.published, env.acked);
  }

  /** The log entry of a delivery is about its document, from its sender to the agent that fetched it. */
  lemma LoggedIsDelivered(tool: string, agent: string, doc: Document)
    ensures var e := DeliveryEntry(tool, agent, doc);
            && e.envelopeId == doc.envelope.id && e.threadId == doc.envelope.threadId
            && e.msgType == doc.envelope.msgType && e.fromAgent == doc.envelope.from && e.toAgent == agent
            && e.body == doc.body && e.bodySize == |doc.body| && e.direction == "receive" && e.toolName == tool
  {
  }

  function PendingLimit(l: Option<Limiter.Limits>): int {
    if l.Some? then l.value.maxPendingTasks else 0
  }

  // ---------------------------------------------------------------------
  // A real gateway
  // ---------------------------------------------------------------------

  function SetupOf(st: Settings, codec: Wire.Codec, maxPending: string -> int): Setup {
    Setup(codec, st.loaded, st.gatewayId, maxPending)
  }

  /** The outcome document this gateway builds. */
  function BuiltBy(st: Settings, a: BuildArgs): Result<Document, B.BuildError> {
    B.BuildResult(
      B.OutcomeState(a.outcome, a.docId, st.gatewayId, a.agent, a.taskId, a.body), st.loaded, a.createdAt)
  }

  /** The configuration reads entries the way this gateway's transport does. */
  ghost predicate Reads(codec: Wire.Codec, cfg: Config) {
    forall p :: cfg.parses(p) <==> Wire.ParseMsgSpec(codec, p).Some?
  }

  /** The configuration builds outcome documents the way this gateway does. */
  ghost predicate Serves(st: Settings, cfg: Config) {
    forall a: BuildArgs :: cfg.build(a) == BuiltBy(st, a)
  }

  /** What complete_task and fail_task publish: on which stream, and with what content. */
  ghost predicate Reports(st: Settings, args: BuildArgs, stream: string, doc: Document) {
    && (args.outcome.Completed? ==>
          && stream == "agent.events.completed" && doc.envelope.msgType == TaskResult
          && doc.extra == map[Protocol.Step := Text("result")])
    && (args.outcome.Failed? ==>
          && stream == "agent.events.failed" && doc.envelope.msgType == TaskFail
          && doc.extra == map[Protocol.Step := Text("fail")])
    && doc.envelope.id == args.docId && doc.envelope.from == st.gatewayId && doc.envelope.to == [args.agent]
    && doc.envelope.execId == args.taskId && doc.envelope.inReplyTo == args.taskId && doc.body == args.body
  }

  /**
   * What a call that has taken the entry `e` tells Redis: nothing if no document was built,
   * else the report, and then the acknowledgement of just that entry on its own stream if
   * the publish is confirmed; a reply that hides an effect hides nothing else.
   */
  lemma ReportsItsOutcome(st: Settings, wired: seq<Wired>, entries: Entries, args: BuildArgs, env: Environment)
    requires args.taskId in entries
    ensures var wired', e := WiredAfterCall(wired, entries, args, BuiltBy(st, args), env), entries[args.taskId];
            if st.loaded.None? || args.docId == "" || st.gatewayId == "" || args.taskId == "" then wired' == wired
            else
              var confirmed := env.published == Done && env.acked != ErrorWithoutEffect;
              var ack := if confirmed then [Acked(e.topic, e.msgId)] else [];
              exists stream, doc ::
                && Reports(st, args, stream, doc)
                && wired' == wired + (if env.published != ErrorWithoutEffect then [Sent(stream, doc)] else []) + ack
  {
    B.OutcomeBuildsExactlyWhen(
      args.outcome, args.docId, st.gatewayId, args.agent, args.taskId, args.body, st.loaded, args.createdAt);
    if BuiltBy(st, args).Ok? {
      var doc := BuiltBy(st, args).value;
      assert Reports(st, args, OutcomeStream(args.outcome), doc);
    }
  }

  /** The log entry of a success is about the document published. */
  lemma LoggedIsPublished(st: Settings, args: BuildArgs)
    requires BuiltBy(st, args).Ok?
    ensures var doc := BuiltBy(st, args).value;
            var e := OutcomeEntry(args, doc);
            && e.envelopeId == doc.envelope.id && e.threadId == doc.envelope.threadId
            && e.msgType == doc.envelope.msgType && [e.fromAgent] == doc.envelope.to
            && e.body == doc.body && e.bodySize == |doc.body|
            && e.toAgent == "orchestrator" && e.direction == "send"
            && (args.outcome.Completed? <==> e.toolName == "complete_task")
            && (args.outcome.Failed? <==> e.toolName == "fail_task")
            && forall log, cap ::
                 LogAfterCall(log, cap, args, BuiltBy(st, args), None) == MessageLog.Logged(log, cap, e)
  {
    B.OutcomeBuildsExactlyWhen(
      args.outcome, args.docId, st.gatewayId, args.agent, args.taskId, args.body, st.loaded, args.createdAt);
    assert |"complete_task"| != |"fail_task"|;
  }

  lemma GatewayServes(codec: Wire.Codec, st: Settings, maxPending: string -> int)
    ensures Serves(st, Delivery.Gateway(SetupOf(st, codec, maxPending)))
    ensures Reads(codec, Delivery.Gateway(SetupOf(st, codec, maxPending)))
  {
  }

  /**
   * A gateway with an ID of its own and a validator, in any state of any run: complete_task
   * and fail_task on a pending entry can fail to answer only because Redis did.
   */
  lemma OnlyRedisFailsAnOutcome(g: Setup, trace: seq<State>, args: BuildArgs, published: Reply, acked: Reply)
    requires g.gatewayId != "" && g.loaded.Some? && args.docId != ""
    requires IsRun(Delivery.Gateway(g), trace) && args.taskId in trace[|trace| - 1].pending
    ensures var cfg := Delivery.Gateway(g);
            && cfg.build(args).Ok?
            && (OutcomeAnswer(cfg.build(args), published, acked).None? <==> published == Done && acked == Done)
  {
    var cfg := Delivery.Gateway(g);
    DeliveryTheorems.GatewayBuildsAnswers(g);
    DeliveryInv.RunKeepsInv(cfg, trace, |trace| - 1);
    assert DeliveryInv.PendingOk(cfg, trace[|trace| - 1]);
    B.OutcomeBuildsExactlyWhen(
      args.outcome, args.docId, g.gatewayId, args.agent, args.taskId, args.body, g.loaded, args.createdAt);
  }

  /**
   * Whatever Redis holds of a gateway's reports, at the end of any run its memory shows, is a
   * result on the stream of completions or a failure on that of failures.
   */
  lemma ToldOnItsStream(g: Setup, trace: seq<State>, entries: Entries, wired: seq<Wired>, i: nat)
    requires IsRun(Delivery.Gateway(g), trace) && Shows(entries, wired, trace[|trace| - 1])
    requires i < |wired| && wired[i].Sent?
    ensures || (wired[i].stream == "agent.events.completed" && wired[i].doc.envelope.msgType == TaskResult)
            || (wired[i].stream == "agent.events.failed" && wired[i].doc.envelope.msgType == TaskFail)
  {
    DeliveryTheorems.GatewayBuildsAnswers(g);
    ToldIsHistory(entries, wired, trace[|trace| - 1]);
    DeliveryTheorems.OutcomesAreOnTheirStream(Delivery.Gateway(g), trace, |trace| - 1, i);
  }

  /**
   * What FinishTask promises, for a real gateway at the end of any run: the run goes on, and
   * a call that took the entry fails only with Redis.
   */
  lemma FinishedInRun(g: Setup, st: Settings, trace: seq<State>, c: Credentials, env: Environment,
                      verdict: Option<Limiter.LimitError>, o: nat, args: BuildArgs,
                      r: Option<Refusal>, steps: seq<Step>, s': State) returns (longer: seq<State>)
    requires g.gatewayId != "" && g.loaded.Some? && args.docId != "" && IsRun(Delivery.Gateway(g), trace)
    requires var s, cfg := trace[|trace| - 1], Delivery.Gateway(g);
             && Path(cfg, s, steps, s')
             && Answered(st, c, env, verdict, args.taskId in s.pending, o, args, cfg.build(args), r, steps)
    ensures IsRun(Delivery.Gateway(g), longer) && trace <= longer && longer[|longer| - 1] == s'
    ensures r.None? ==> Sendable(st, c, env, |args.body|, verdict) && env.published == Done && env.acked == Done
    ensures r.Some? && !Early(r.value) ==>
              if env.published == Done then r == Some(AckFailed) && env.acked != Done else r == Some(PublishFailed)
  {
    longer := PathExtendsRun(Delivery.Gateway(g), trace, steps, s');
    if args.taskId in trace[|trace| - 1].pending {
      OnlyRedisFailsAnOutcome(g, trace, args, env.published, env.acked);
    }
  }

  class Transport {
    var wired: seq<Wired>

    constructor ()
      ensures wired == []
    {
      wired := [];
    }

    method Publish(stream: string, doc: Document, reply: Reply) returns (ok: bool)
      modifies this
      ensures wired == WiredAfter(old(wired), Sent(stream, doc), reply) && ok == (reply == Done)
    {
      if reply != ErrorWithoutEffect { wired := wired + [Sent(stream, doc)]; }
      return reply == Done;
    }

    method Ack(topic: string, id: string, reply: Reply) returns (ok: bool)
      modifies this
      ensures wired == WiredAfter(old(wired), Acked(topic, id), reply) && ok == (reply == Done)
    {
      if reply != ErrorWithoutEffect { wired := wired + [Acked(topic, id)]; }
      return reply == Done;
    }
  }

  /** The limiter's buckets are apart from everything else the gateway holds. */
  lemma NotInLimiter(limiter: Limiter.Enforcer, o: object)
    requires o is PendingMap.Pending || o is Transport || o is MessageLog.Logger
    ensures o !in limiter.Repr()
  {
  }

  class Gateway {
    const st: Settings
    const codec: Wire.Codec
    const pending: PendingMap.Pending
    const limiter: Limiter.Enforcer
    const trans: Transport
    const logger: MessageLog.Logger
    /** The protocol this gateway follows. */
    ghost const cfg: Config

    /** The gateway's memory shows the protocol in state `s`. */
    ghost predicate InState(s: State)
      reads pending, trans
    {
      Shows(pending.entries, trans.wired, s)
    }

    constructor (st: Settings, cacheTTL: int, logCapacity: nat, codec: Wire.Codec, ghost maxPending: string -> int)
      ensures this.st == st && this.codec == codec && cfg == Delivery.Gateway(SetupOf(st, codec, maxPending))
      ensures Serves(st, cfg) && Reads(codec, cfg)
      ensures limiter.Valid() && logger.View() == MessageLog.Init() && InState(Init())
    {
      this.st, this.codec := st, codec;
      cfg := Delivery.Gateway(SetupOf(st, codec, maxPending));
      GatewayServes(codec, st, maxPending);
      pending := new PendingMap.Pending();
      limiter := new Limiter.Enforcer(cacheTTL);
      trans := new Transport();
      logger := new MessageLog.Logger(logCapacity);
    }

    /** complete_task and fail_task once the document is built; only a complete success is logged. */
    method PublishAndAck(args: BuildArgs, doc: Document, topic: string, msgId: string, env: Environment)
      returns (r: Option<Refusal>)
      requires limiter.Valid()
      modifies limiter`cache, trans, logger
      ensures limiter.cache == Limiter.CacheAfter(old(limiter.cache), args.agent, env.trim, limiter.cacheTTL)
      ensures |limiter.cache| <= Limiter.MAX_MAP_ENTRIES
      ensures trans.wired ==
              OutcomeWired(old(trans.wired), args.outcome, Ok(doc), topic, msgId, env.published, env.acked)
      ensures logger.View() ==
              if r.None? then MessageLog.Logged(old(logger.View()), logger.cap, OutcomeEntry(args, doc))
              else old(logger.View())
      ensures r == OutcomeAnswer(Ok(doc), env.published, env.acked)
    {
      var maxLen := limiter.GetStreamMaxLen(args.agent, env.trim);
      var ok := trans.Publish(OutcomeStream(args.outcome), doc, env.published);
      if !ok { return Some(PublishFailed); }
      ok := trans.Ack(topic, msgId, env.acked);
      if !ok { return Some(AckFailed); }
      logger.Log(OutcomeEntry(args, doc));
      return None;
    }

    /** complete_task and fail_task from LoadAndDelete on. */
    method Settle(args: BuildArgs, env: Environment) returns (r: Option<Refusal>)
      requires limiter.Valid()
      modifies limiter`cache, pending, trans, logger
      ensures pending.entries == old(pending.entries) - {args.taskId}
      ensures args.taskId !in old(pending.entries) ==> r == Some(UnknownTask)
      ensures args.taskId in old(pending.entries) ==> r == OutcomeAnswer(BuiltBy(st, args), env.published, env.acked)
      ensures trans.wired == WiredAfterCall(old(trans.wired), old(pending.entries), args, BuiltBy(st, args), env)
      ensures limiter.cache ==
              if args.taskId !in old(pending.entries) || BuiltBy(st, args).Err? then old(limiter.cache)
              else Limiter.CacheAfter(old(limiter.cache), args.agent, env.trim, limiter.cacheTTL)
      ensures |limiter.cache| <= Limiter.MAX_MAP_ENTRIES
      ensures logger.View() == LogAfterCall(old(logger.View()), logger.cap, args, BuiltBy(st, args), r)
    {
      var found := pending.LoadAndDelete(args.taskId);
      if found.None? { return Some(UnknownTask); }
      var doc := B.BuildOutcome(
        args.outcome, args.docId, st.gatewayId, args.agent, args.taskId, args.body, st.loaded, args.createdAt);
      if doc.Err? { return Some(BuildFailed(doc.error)); }
      r := PublishAndAck(args, doc.value, found.value.0, found.value.1, env);
    }

    twostate lemma BucketsUntouched()
      requires old(limiter.Valid()) && limiter.rate == old(limiter.rate)
      requires |limiter.cache| <= Limiter.MAX_MAP_ENTRIES
      requires forall a :: a in limiter.rate ==> unchanged(limiter.rate[a]) && unchanged(limiter.rate[a].data)
      ensures limiter.Valid() && limiter.View() == old(limiter.View())
    {
    }

    /** Whatever fails, the protocol takes the steps that go with the answer, and no others. */
    method Conclude(args: BuildArgs, env: Environment, ghost s: State, ghost o: nat)
      returns (r: Option<Refusal>, ghost steps: seq<Step>, ghost s': State)
      requires limiter.Valid() && Serves(st, cfg) && InState(s) && o !in s.outs && args.docId != ""
      modifies limiter`cache, pending, trans, logger
      ensures Path(cfg, s, steps, s') && InState(s')
      ensures Concluded(args.taskId in old(pending.entries), o, args, cfg.build(args), env, r, steps)
      ensures limiter.Valid() && limiter.View() == old(limiter.View())
      ensures trans.wired == ToldAfterCall(old(trans.wired), old(pending.entries), args, BuiltBy(st, args), env, r)
      ensures logger.View() == LogAfterCall(old(logger.View()), logger.cap, args, BuiltBy(st, args), r)
    {
      steps, s' := ConcludedShown(cfg, pending.entries, trans.wired, s, o, args, env);
      r := Settle(args, env);
      ToldLate(old(trans.wired), old(pending.entries), o, args, cfg.build(args), BuiltBy(st, args), env, r, steps);
      BucketsUntouched();
    }

    /** The limiter's part, on records and a send seen before: it touches nothing else of the gateway. */
    method CheckLimits(c: Credentials, size: nat, env: Environment,
                       ghost records: Limiter.Records, ghost send: Limiter.SendCall)
      returns (limited: Option<Limiter.LimitError>)
      requires limiter.Valid() && limiter.View() == records && SendOf(c, size, env) == send
      modifies limiter, limiter.Repr()
      ensures limiter.Valid() && pending.entries == old(pending.entries) && trans.wired == old(trans.wired)
      ensures logger.View() == old(logger.View())
      ensures limited == Limiter.Verdict(records, send)
      ensures limiter.View() == Limiter.AfterSend(records, send)
    {
      NotInLimiter(limiter, pending);
      NotInLimiter(limiter, trans);
      NotInLimiter(limiter, logger);
      limited := limiter.CheckSend(c.agent, size, env.limits);
    }

    /** The gates that change nothing. */
    method PassQuietGates(c: Credentials, size: nat, env: Environment) returns (r: Option<Refusal>)
      ensures r.None? ==> Authorised(st, c, env.listed) && size <= Wire.MAX_DOCUMENT_BYTES
      ensures r.Some? ==> !Spends(r) && forall v, known :: Refuses(st, c, env, size, v, known, r.value)
    {
      r := PassGates(st, c, env.listed);
      if r.Some? { return; }
      if size > Wire.MAX_DOCUMENT_BYTES { return Some(TooLarge); }
      return None;
    }

    /** The gates complete_task and fail_task pass before they touch the pending map. */
    method PassSendGates(c: Credentials, size: nat, env: Environment,
                         ghost records: Limiter.Records, ghost send: Limiter.SendCall) returns (r: Option<Refusal>)
      requires limiter.Valid() && limiter.View() == records && SendOf(c, size, env) == send
      modifies limiter, limiter.Repr()
      ensures limiter.Valid() && pending.entries == old(pending.entries) && trans.wired == old(trans.wired)
      ensures logger.View() == old(logger.View())
      ensures limiter.View() == RecordsAfterCall(records, send, r)
      ensures r.None? ==> Sendable(st, c, env, size, Limiter.Verdict(records, send))
      ensures r.Some? ==> Refuses(st, c, env, size, Limiter.Verdict(records, send), true, r.value)
    {
      r := PassQuietGates(c, size, env);
      BucketsUntouched();
      if r.None? {
        var limited := CheckLimits(c, size, env, records, send);
        if limited.Some? { r := Some(Limited(limited.value)); }
      }
    }

    /** The check a send of this call makes, with the limits it uses. */
    ghost function SendOf(c: Credentials, size: nat, env: Environment): Limiter.SendCall
      reads limiter
    {
      Limiter.SendCall(c.agent, limiter.Used(c.agent, env.limits), size, env.limits)
    }

    /** complete_task and fail_task. */
    method FinishTask(creds: Credentials, outcome: B.Outcome, taskId: string, body: seq<byte>, env: Environment,
                      ghost s: State, ghost o: nat)
      returns (r: Option<Refusal>, ghost steps: seq<Step>, ghost s': State)
      requires limiter.Valid() && Serves(st, cfg) && InState(s) && o !in s.outs && env.docId != ""
      modifies limiter, limiter.Repr(), pending, trans, logger
      ensures limiter.Valid()
      ensures Path(cfg, s, steps, s') && InState(s')
      ensures var c := WithDefaults(st, creds);
              var args := BuildArgs(outcome, env.docId, c.agent, taskId, body, env.createdAt);
              var verdict := Limiter.Verdict(old(limiter.View()), old(SendOf(c, |body|, env)));
              Answered(st, c, env, verdict, taskId in old(pending.entries), o, args, cfg.build(args), r, steps)
      ensures var c := WithDefaults(st, creds);
              var args := BuildArgs(outcome, env.docId, c.agent, taskId, body, env.createdAt);
              && trans.wired == ToldAfterCall(old(trans.wired), old(pending.entries), args, BuiltBy(st, args), env, r)
              && limiter.View() == RecordsAfterCall(old(limiter.View()), old(SendOf(c, |body|, env)), r)
              && logger.View() == LogAfterCall(old(logger.View()), logger.cap, args, BuiltBy(st, args), r)
    {
      steps, s' := [], s;
      var c := WithDefaults(st, creds);
      var args := BuildArgs(outcome, env.docId, c.agent, taskId, body, env.createdAt);
      ghost var records, send := limiter.View(), SendOf(c, |body|, env);
      ghost var verdict := Limiter.Verdict(records, send);
      ghost var known := taskId in pending.entries;
      r := PassSendGates(c, |body|, env, records, send);
      if r.Some? {
        AnsweredEarly(st, c, env, verdict, known, o, args, cfg.build(args), r.value);
        return;
      }
      r, steps, s' := Conclude(args, env, s, o);
      AnsweredLate(st, c, env, verdict, known, o, args, cfg.build(args), r, steps);
    }

    /** get_task up to its subscription. */
    method BeginGetTask(creds: Credentials, env: Environment, ghost s: State, ghost h: nat)
      returns (r: Option<Refusal>, ghost steps: seq<Step>, ghost s': State)
      requires limiter.Valid() && InState(s) && h !in s.gates && h !in s.subs
      requires var agent := WithDefaults(st, creds).agent;
               cfg.maxPending(agent) == PendingLimit(limiter.Used(agent, env.limits))
      modifies limiter`cache
      ensures limiter.Valid()
      ensures Path(cfg, s, steps, s') && InState(s')
      ensures var c := WithDefaults(st, creds);
              if r.Some? && !r.value.Limited? then steps == [] && GateRefuses(st, c, env.listed, r.value)
              else
                && Authorised(st, c, env.listed) && steps == [Handler(h, Count(c.agent)), Handler(h, Check)]
                && (r.None? <==> h in s'.gates) && (r.None? ==> s'.gates[h] == Passed(c.agent))
    {
      steps, s' := [], s;
      var c := WithDefaults(st, creds);
      r := PassGates(st, c, env.listed);
      if r.Some? { return; }
      var count := pending.CountByAgent(c.agent);
      s' := AdmissionShown(cfg, pending.entries, trans.wired, s, h, c.agent, count);
      steps := [Handler(h, Count(c.agent)), Handler(h, Check)];
      var err := limiter.CheckPendingTasks(c.agent, count, env.limits);
      if err.Some? { return Some(Limited(err.value)), steps, s'; }
      return None, steps, s';
    }

    /**
     * The read loop on the next entry of its batch: parseMsg, then the channel if it is free,
     * or an acknowledgement that clears a malformed entry, whose own failure is ignored.
     */
    method ReadEntry(topic: string, id: string, payload: Wire.Payload, reply: Reply,
                     ghost s: State, ghost h: nat, ghost x: Item)
      returns (d: Option<Document>, ghost s': State)
      requires InState(s) && Reads(codec, cfg) && h in s.subs && s.subs[h].alive && s.subs[h].chan.None?
      requires s.subs[h].batch != [] && s.subs[h].batch[0] == x
      requires topic == TopicName(x.topic) && id == x.id && payload == x.payload
      modifies trans
      ensures d == Wire.ParseMsgSpec(codec, payload) && InState(s')
      ensures Path(cfg, s, [Loop(h, if d.Some? then Push else Discard(reply))], s')
      ensures trans.wired == if d.Some? then old(trans.wired) else WiredAfter(old(trans.wired), Acked(topic, id), reply)
    {
      d := Wire.ParseMsg(codec, payload);
      ghost var step: LoopStep := if d.Some? then Push else Discard(reply);
      LoopShown(cfg, pending.entries, trans.wired, s, h, step);
      PathOne(cfg, s, Loop(h, step));
      s' := Apply(cfg, s, Loop(h, step));
      if d.None? {
        var cleared := trans.Ack(topic, id, reply);
      }
    }

    /**
     * The select of get_task. A delivery is stored under its entry ID, logged and returned;
     * a timeout or a closed channel stores and logs nothing.
     */
    method AwaitTask(agent: string, delivered: Option<(string, Document)>, now: int,
                     ghost s: State, ghost h: nat, ghost x: Item)
      returns (task: Option<(string, seq<byte>)>, ghost s': State)
      requires InState(s) && h in s.subs && s.subs[h].topic == Tasks(agent)
      requires delivered.Some? ==>
                 s.subs[h].phase == Holding(x) && x.topic == Tasks(agent) && DeliveredFrom(codec, delivered.value, x)
      requires delivered.None? ==> s.subs[h].phase == Waiting
      modifies pending, logger
      ensures Path(cfg, s, [Handler(h, if delivered.Some? then Store else Leave)], s') && InState(s')
      ensures delivered.Some? ==>
                && task == Some((x.id, Wire.ParseMsgSpec(codec, x.payload).value.body))
                && var e := PendingMap.PendingEntry("agent.tasks." + agent, x.id, now);
                   pending.entries == old(pending.entries)[x.id := e]
      ensures delivered.None? ==> task == None
      ensures logger.View() ==
              match delivered
              case Some(d) => MessageLog.Logged(old(logger.View()), logger.cap, DeliveryEntry("get_task", agent, d.1))
              case None => old(logger.View())
    {
      var topic := PendingMap.TaskTopic(agent);
      if delivered.None? {
        PathOne(cfg, s, Handler(h, Leave));
        return None, Apply(cfg, s, Handler(h, Leave));
      }
      var (id, doc) := delivered.value;
      StoreShown(cfg, pending.entries, trans.wired, s, h, x, now);
      PathOne(cfg, s, Handler(h, Store));
      pending.Store(id, topic, id, now);
      logger.Log(DeliveryEntry("get_task", agent, doc));
      return Some((id, doc.body)), Apply(cfg, s, Handler(h, Store));
    }

    /**
     * The select of receive_message. A delivery is acknowledged, then logged and returned;
     * its guard on the body size never fires.
     */
    method AwaitMessage(agent: string, delivered: Option<(string, Document)>, acked: Reply,
                        ghost s: State, ghost h: nat, ghost x: Item)
      returns (r: Result<Option<(string, seq<byte>)>, Refusal>, ghost s': State)
      requires InState(s) && h in s.subs && s.subs[h].topic == Messages(agent)
      requires delivered.Some? ==>
                 s.subs[h].phase == Holding(x) && x.topic == Messages(agent) && DeliveredFrom(codec, delivered.value, x)
      requires delivered.None? ==> s.subs[h].phase == Waiting
      modifies trans, logger
      ensures Path(cfg, s, [Handler(h, if delivered.Some? then AckMessage(acked) else Leave)], s') && InState(s')
      ensures trans.wired ==
              if delivered.None? then old(trans.wired)
              else WiredAfter(old(trans.wired), Acked("agent.messages." + agent, x.id), acked)
      ensures r == match delivered
                   case None => Ok(None)
                   case Some(d) => if acked == Done then Ok(Some((d.1.envelope.from, d.1.body))) else Err(AckFailed)
      ensures logger.View() ==
              if delivered.Some? && acked == Done then
                MessageLog.Logged(
                  old(logger.View()), logger.cap, DeliveryEntry("receive_message", agent, delivered.value.1))
              else old(logger.View())
    {
      ghost var step: HandlerStep := if delivered.Some? then AckMessage(acked) else Leave;
      HandlerShown(cfg, pending.entries, trans.wired, s, h, step);
      PathOne(cfg, s, Handler(h, step));
      s' := Apply(cfg, s, Handler(h, step));
      if delivered.None? { return Ok(None), s'; }
      var (id, doc) := delivered.value;
      var ok := trans.Ack("agent.messages." + agent, id, acked);
      if !ok { return Err(AckFailed), s'; }
      Wire.ParsedDocumentsKeepTheirBytes(codec, x.payload);
      if |doc.body| > Wire.MAX_DOCUMENT_BYTES { return Err(TooLarge), s'; }
      logger.Log(DeliveryEntry("receive_message", agent, doc));
      return Ok(Some((doc.envelope.from, doc.body))), s';
    }

    /** One tick of the cleanup: the protocol evicts exactly the entries older than ttl. */
    method Sweep(ttl: int, now: int, ghost s: State) returns (ghost steps: seq<Step>, ghost s': State)
      requires InState(s)
      modifies pending
      ensures Path(cfg, s, steps, s') && InState(s')
      ensures |steps| == |Stale(old(pending.entries), ttl, now)|
      ensures forall id :: Evict(id) in steps <==> id in Stale(old(pending.entries), ttl, now)
    {
      steps, s' := SweepShown(cfg, pending.entries, trans.wired, s, ttl, now);
      pending.Evict(ttl, now);
    }
  }
}
