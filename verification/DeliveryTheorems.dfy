/** What every run of the delivery protocol guarantees. */
module DeliveryTheorems {
  import opened Wrappers
  import opened Protocol
  import opened Documents
  import opened Validator
  import B = Builder
  import Wire
  import opened Delivery
  import opened DeliveryPlaces
  import opened DeliveryInv

  // ---------------------------------------------------------------------
  // Conservation
  // ---------------------------------------------------------------------

  /**
   * In every state of every run, an entry was read exactly when it is in hand or settled;
   * it is in at most one place, not in hand once settled, and at most once in a batch. The
   * unacknowledged list is read minus acknowledged, nothing in hand is acknowledged, and
   * "acknowledged" and "overwritten" mean what they say.
   */
  lemma EveryReadEntryIsInExactlyOnePlace(cfg: Config, trace: seq<State>, i: nat, x: Item)
    requires BuildsAnswers(cfg) && IsRun(cfg, trace) && i < |trace|
    ensures x in trace[i].read <==> x in trace[i].fate || exists p :: At(trace[i], x, p)
    ensures forall p :: At(trace[i], x, p) ==> x !in trace[i].fate
    ensures forall p, q :: At(trace[i], x, p) && At(trace[i], x, q) ==> p == q
    ensures forall h :: h in trace[i].subs ==> Distinct(trace[i].subs[h].batch)
    ensures trace[i].unacked == trace[i].read - trace[i].acked
    ensures x in trace[i].acked ==> x in trace[i].fate && MayBeAcked(trace[i].fate[x])
    ensures x in trace[i].fate ==> FateJustified(cfg, trace[i], x)
  {
    RunKeepsInv(cfg, trace, i);
    OnePlace(trace[i], x);
    forall h | h in trace[i].subs ensures Distinct(trace[i].subs[h].batch) { assert SubOk(cfg, trace[i].subs[h]); }
  }

  lemma OnePlace(s: State, x: Item)
    requires PlacesOk(s)
    ensures x in s.read <==> x in s.fate || exists p :: At(s, x, p)
    ensures forall p :: At(s, x, p) ==> x !in s.fate
    ensures forall p, q :: At(s, x, p) && At(s, x, q) ==> p == q
  {
    assert x in s.read <==> x in s.where.Keys || x in s.fate.Keys;
    if x in s.where { assert Tracked(s, x, s.where[x]); }
    forall p | At(s, x, p) ensures x in s.where && s.where[x] == p && x !in s.fate { PlaceIsTracked(s, x, p); }
  }

  lemma FatesKeptAt(cfg: Config, trace: seq<State>, j: nat)
    requires BuildsAnswers(cfg) && IsRun(cfg, trace) && 0 < j < |trace|
    ensures FatesKept(trace[j - 1], trace[j])
  {
    var s, s' := trace[j - 1], trace[j];
    assert Inv(cfg, s) by { RunKeepsInv(cfg, trace, j - 1); }
    assert Next(cfg, s, s') by { NextOf(cfg, trace, j); }
    NextKeeps(cfg, s, s');
  }

  /** Once settled, an entry keeps its fate for the rest of the run. */
  lemma {:induction false} FatesAreFinal(cfg: Config, trace: seq<State>, i: nat, j: nat, x: Item)
    requires BuildsAnswers(cfg) && IsRun(cfg, trace) && i <= j < |trace| && x in trace[i].fate
    ensures x in trace[j].fate && trace[j].fate[x] == trace[i].fate[x]
  {
    if i < j {
      FatesAreFinal(cfg, trace, i, j - 1, x);
      FatesKeptAt(cfg, trace, j);
    }
  }

  /** No two well-formed task entries that were read share an ID. */
  ghost predicate DistinctTaskIds(cfg: Config, s: State) {
    forall x, y :: x in s.read && y in s.read ==> !TwoForOneId(cfg, x, y)
  }

  /** With IDs distinct among well-formed task entries, no pending entry is ever overwritten. */
  lemma DistinctIdsLoseNothing(cfg: Config, trace: seq<State>, i: nat)
    requires BuildsAnswers(cfg) && IsRun(cfg, trace) && i < |trace| && DistinctTaskIds(cfg, trace[i])
    ensures forall x :: x in trace[i].fate ==> trace[i].fate[x] != Overwritten
  {
    var s := trace[i];
    RunKeepsInv(cfg, trace, i);
    forall x | x in s.fate ensures s.fate[x] != Overwritten {
      assert FateJustified(cfg, s, x);
      assert x in s.fate.Keys;
      assert x in s.read;
    }
  }

  // ---------------------------------------------------------------------
  // Outcomes
  // ---------------------------------------------------------------------

  /**
   * However complete, fail, eviction and repeated calls interleave, at most one outcome
   * document is published for each delivered entry, and it names that entry.
   */
  lemma AtMostOneOutcomePerEntry(cfg: Config, trace: seq<State>, i: nat)
    requires BuildsAnswers(cfg) && IsRun(cfg, trace) && i < |trace|
    ensures var e := trace[i].events;
            && (forall j :: 0 <= j < |e| && e[j].PublishEvent? ==> Answers(e[j].doc, e[j].item))
            && (forall j, k :: 0 <= j < k < |e| && e[j].PublishEvent? && e[k].PublishEvent? ==> e[j].item != e[k].item)
  {
    RunKeepsInv(cfg, trace, i);
  }

  /**
   * Whatever is published on behalf of an entry is a result on the stream of completions or
   * a failure on that of failures, and says so in its payload.
   */
  lemma OutcomesAreOnTheirStream(cfg: Config, trace: seq<State>, i: nat, j: nat)
    requires BuildsAnswers(cfg) && IsRun(cfg, trace) && i < |trace|
    requires j < |trace[i].events| && trace[i].events[j].PublishEvent?
    ensures var e := trace[i].events[j];
            || (e.stream == "agent.events.completed" && e.doc.envelope.msgType == TaskResult
                && e.doc.extra == map[Step := Text("result")])
            || (e.stream == "agent.events.failed" && e.doc.envelope.msgType == TaskFail
                && e.doc.extra == map[Step := Text("fail")])
  {
    RunKeepsInv(cfg, trace, i);
    assert Announces(trace[i].events[j].stream, trace[i].events[j].doc);
  }

  /** With IDs distinct among well-formed task entries, no two outcome documents carry the same exec_id. */
  lemma DistinctIdsDistinctOutcomes(cfg: Config, trace: seq<State>, i: nat, j: nat, k: nat)
    requires BuildsAnswers(cfg) && IsRun(cfg, trace) && i < |trace| && DistinctTaskIds(cfg, trace[i])
    requires j < k < |trace[i].events| && trace[i].events[j].PublishEvent? && trace[i].events[k].PublishEvent?
    ensures trace[i].events[j].doc.envelope.execId != trace[i].events[k].doc.envelope.execId
  {
    RunKeepsInv(cfg, trace, i);
    var x, y := trace[i].events[j].item, trace[i].events[k].item;
    PublishedWasRead(trace[i], x);
    PublishedWasRead(trace[i], y);
    assert !TwoForOneId(cfg, x, y);
  }

  lemma PublishedWasRead(s: State, x: Item)
    requires PlacesOk(s) && PastPublish(s, x)
    ensures x in s.read
  {
    if x in s.fate {
      assert x in s.fate.Keys;
    } else {
      var o :| o in s.outs && s.outs[o] == Published(x);
      PlaceIsTracked(s, x, InOutcome(o));
    }
  }

  /** A well-formed entry of a task stream is acknowledged only after an outcome naming it was published. */
  lemma AcksFollowPublishes(cfg: Config, trace: seq<State>, i: nat, k: nat)
    requires BuildsAnswers(cfg) && IsRun(cfg, trace) && i < |trace| && k < |trace[i].events|
    requires trace[i].events[k].AckEvent? && TaskItem(cfg, trace[i].events[k].item)
    ensures var e := trace[i].events;
            exists j :: 0 <= j < k && e[j].PublishEvent? && e[j].item == e[k].item && Answers(e[j].doc, e[k].item)
  {
    RunKeepsInv(cfg, trace, i);
  }

  // ---------------------------------------------------------------------
  // A real gateway
  // ---------------------------------------------------------------------

  lemma BuiltIsAnswer(g: Setup, a: BuildArgs)
    requires Gateway(g).build(a).Ok?
    ensures var doc := Gateway(g).build(a).value;
            doc.envelope.execId == a.taskId && doc.envelope.inReplyTo == a.taskId && B.IsOutcome(a.outcome, doc)
  {
    B.OutcomeBuildsExactlyWhen(a.outcome, a.docId, g.gatewayId, a.agent, a.taskId, a.body, g.loaded, a.createdAt);
  }

  lemma GatewayBuildsAnswers(g: Setup)
    ensures BuildsAnswers(Gateway(g))
  {
    forall a: BuildArgs | Gateway(g).build(a).Ok?
      ensures var doc := Gateway(g).build(a).value;
              doc.envelope.execId == a.taskId && doc.envelope.inReplyTo == a.taskId && B.IsOutcome(a.outcome, doc)
    {
      BuiltIsAnswer(g, a);
    }
  }

  /**
   * With a non-empty gateway ID and schemas that compile, every LoadAndDelete that succeeds
   * is followed by a successful Build: in no run is an entry lost because its outcome could
   * not be built.
   */
  lemma OutcomesAlwaysBuild(g: Setup, trace: seq<State>, i: nat, o: nat)
    requires g.gatewayId != "" && g.loaded.Some?
    requires IsRun(Gateway(g), trace) && i < |trace|
    ensures o in trace[i].outs && trace[i].outs[o].Taken? ==> trace[i].outs[o].doc.Ok?
    ensures !OutcomeEnabled(trace[i], o, BuildFails)
  {
    var cfg := Gateway(g);
    GatewayBuildsAnswers(g);
    GatewayBuildsAll(g);
    RunKeepsInv(cfg, trace, i);
    assert o in trace[i].outs ==> OutOk(cfg, trace[i].outs[o]);
  }

  /** Without a gateway ID or a validator no outcome document can be built, so both hypotheses are needed. */
  lemma GatewayBuildsAll(g: Setup)
    ensures BuildsAll(Gateway(g)) <==> g.gatewayId != "" && g.loaded.Some?
  {
    var cfg := Gateway(g);
    forall a: BuildArgs
      ensures cfg.build(a).Ok? <==> g.loaded.Some? && a.docId != "" && g.gatewayId != "" && a.taskId != ""
    {
      B.OutcomeBuildsExactlyWhen(a.outcome, a.docId, g.gatewayId, a.agent, a.taskId, a.body, g.loaded, a.createdAt);
    }
    var one := BuildArgs(B.Completed, "d", "a", "t", [], "");
    assert |one.docId| == 1 && |one.taskId| == 1;
    assert cfg.build(one).Ok? <==> g.gatewayId != "" && g.loaded.Some?;
  }

  /**
   * An entry the read loop cannot deliver (no document, too large, no front matter, or a
   * header the codec refuses) never reaches a handler: in no state of any run is it in a
   * channel, held, pending or with an outcome handler, and settled it is discarded or abandoned.
   */
  lemma UnreadableNeverReachesAHandler(g: Setup, trace: seq<State>, i: nat, x: Item)
    requires IsRun(Gateway(g), trace) && i < |trace| && Wire.ParseMsgSpec(g.codec, x.payload).None?
    ensures forall p :: At(trace[i], x, p) ==> p.InBatch?
    ensures x in trace[i].fate ==> trace[i].fate[x] == Discarded || trace[i].fate[x] == Abandoned
  {
    var cfg := Gateway(g);
    GatewayBuildsAnswers(g);
    RunKeepsInv(cfg, trace, i);
    assert !WellFormed(cfg, x);
    forall p | At(trace[i], x, p) ensures p.InBatch? {
      if !p.InBatch? { HandlersHoldWellFormed(cfg, trace[i], x, p); }
    }
    assert x in trace[i].fate ==> FateJustified(cfg, trace[i], x);
  }

  /** So a payload of more than 65536 bytes, whatever it holds, never reaches a handler. */
  lemma OversizeNeverReachesAHandler(g: Setup, trace: seq<State>, i: nat, x: Item)
    requires IsRun(Gateway(g), trace) && i < |trace|
    requires x.payload.Some? && |x.payload.value| > Wire.MAX_DOCUMENT_BYTES
    ensures forall p :: At(trace[i], x, p) ==> p.InBatch?
    ensures x in trace[i].fate ==> trace[i].fate[x] == Discarded || trace[i].fate[x] == Abandoned
  {
    UnreadableNeverReachesAHandler(g, trace, i, x);
  }

  lemma HandlersHoldWellFormed(cfg: Config, s: State, x: Item, p: Place)
    requires KindsOk(cfg, s) && At(s, x, p) && !p.InBatch?
    ensures WellFormed(cfg, x)
  {
    match p
    case InChannel(h) => assert SubOk(cfg, s.subs[h]);
    case Held(h) => assert SubOk(cfg, s.subs[h]);
    case InPending => assert TaskItem(cfg, s.pending[x.id]);
    case InOutcome(o) => assert OutOk(cfg, s.outs[o]);
  }
}
