/** The invariant of the delivery protocol: every step keeps it. */
module DeliveryInv {
  import opened Wrappers
  import opened Documents
  import opened Delivery
  import opened DeliveryPlaces
  import B = Builder

  // ---------------------------------------------------------------------
  // Acknowledgements
  // ---------------------------------------------------------------------

  /** Fates are final. */
  ghost predicate FatesKept(s: State, s': State) {
    forall x :: x in s.fate ==> x in s'.fate && s'.fate[x] == s.fate[x]
  }

  predicate MayBeAcked(f: Fate) {
    f == Discarded || f == Failed || f == Acknowledged
  }

  /** A well-formed entry of a task stream: the only kind that becomes pending. */
  ghost predicate TaskItem(cfg: Config, x: Item) {
    x.topic.Tasks? && x.id != "" && WellFormed(cfg, x)
  }

  /** It and another well-formed task entry that was read have the same ID. */
  ghost predicate Collides(cfg: Config, s: State, x: Item) {
    TaskItem(cfg, x) && exists y :: y in s.read && TwoForOneId(cfg, x, y)
  }

  ghost predicate TwoForOneId(cfg: Config, x: Item, y: Item) {
    TaskItem(cfg, x) && TaskItem(cfg, y) && y != x && y.id == x.id
  }

  /** Which entries may meet a fate: malformed ones are discarded and meet no handler's fate. */
  ghost predicate FateFits(cfg: Config, x: Item, f: Fate) {
    match f
    case Evicted => TaskItem(cfg, x)
    case Overwritten => TaskItem(cfg, x)
    case Discarded => !WellFormed(cfg, x)
    case Failed => WellFormed(cfg, x)
    case Acknowledged => WellFormed(cfg, x)
    case Abandoned => true
  }

  /**
   * A fate fits its entry; acknowledged means Redis was told so, overwritten that two read
   * task entries share an ID.
   */
  ghost predicate FateJustified(cfg: Config, s: State, x: Item)
    requires x in s.fate
  {
    && FateFits(cfg, x, s.fate[x])
    && (s.fate[x] == Acknowledged ==> x in s.acked)
    && (s.fate[x] == Overwritten ==> Collides(cfg, s, x))
  }

  ghost predicate FatesOk(cfg: Config, s: State) {
    forall x :: x in s.fate ==> FateJustified(cfg, s, x)
  }

  /** The unacknowledged list is read minus acknowledged, and nothing in hand has been acknowledged. */
  ghost predicate AckedOk(s: State) {
    && s.unacked == s.read - s.acked
    && (forall x :: x in s.acked ==> x in s.fate && MayBeAcked(s.fate[x]))
  }

  ghost predicate AcksOk(cfg: Config, s: State) {
    AckedOk(s) && FatesOk(cfg, s)
  }

  /** A justification stands as reads and acknowledgements grow. */
  lemma JustifiedKept(cfg: Config, s: State, s': State)
    requires FatesOk(cfg, s) && FatesKept(s, s') && s.read <= s'.read && s.acked <= s'.acked
    requires forall x :: x in s'.fate && x !in s.fate ==> FateJustified(cfg, s', x)
    ensures FatesOk(cfg, s')
  {
    forall x | x in s'.fate ensures FateJustified(cfg, s', x) {
      if x in s.fate {
        assert FateJustified(cfg, s, x);
        if Collides(cfg, s, x) {
          var y :| y in s.read && TwoForOneId(cfg, x, y);
          assert y in s'.read;
        }
      }
    }
  }

  lemma AcksSame(cfg: Config, s: State, s': State)
    requires AcksOk(cfg, s) && s'.fate == s.fate
    requires s'.unacked == s.unacked && s'.acked == s.acked && s'.read == s.read
    ensures AcksOk(cfg, s') && FatesKept(s, s')
  {
    JustifiedKept(cfg, s, s');
  }

  /** One entry gets its fate, with or without an acknowledgement. */
  lemma AcksOfSettled(cfg: Config, s: State, s': State, x: Item, f: Fate, r: Reply)
    requires AcksOk(cfg, s) && x !in s.fate && s'.fate == s.fate[x := f] && s'.read == s.read && FateFits(cfg, x, f)
    requires s'.unacked == Xack(s, x, r).unacked && s'.acked == Xack(s, x, r).acked
    requires (Effect(r) ==> MayBeAcked(f)) && (f == Acknowledged ==> Effect(r))
             && (f == Overwritten ==> Collides(cfg, s, x))
    ensures AcksOk(cfg, s') && FatesKept(s, s')
  {
    if f == Overwritten {
      var y :| y in s.read && TwoForOneId(cfg, x, y);
      assert y in s'.read;
    }
    JustifiedKept(cfg, s, s');
  }

  /** Entries are read, and possibly abandoned at once. */
  lemma AcksOfRead(cfg: Config, s: State, s': State, items: seq<Item>)
    requires AcksOk(cfg, s) && Partition(s) && FatesKept(s, s')
    requires forall x :: x in items ==> x !in s.read
    requires forall x :: x in s'.fate && x !in s.fate ==> s'.fate[x] == Abandoned
    requires s'.unacked == s.unacked + (set x | x in items) && s'.read == s.read + (set x | x in items)
    requires s'.acked == s.acked
    ensures AcksOk(cfg, s')
  {
    forall x | x in items ensures x !in s.acked {
      assert x in s.acked ==> x in s.fate.Keys;
    }
    JustifiedKept(cfg, s, s');
  }

  lemma AcksOfAbandoned(cfg: Config, s: State, s': State, items: seq<Item>)
    requires AcksOk(cfg, s) && s'.fate == s.fate + map x | x in items :: Abandoned
    requires forall x :: x in items ==> x !in s.fate
    requires s'.unacked == s.unacked && s'.acked == s.acked && s'.read == s.read
    ensures AcksOk(cfg, s') && FatesKept(s, s')
  {
    JustifiedKept(cfg, s, s');
  }

  lemma PlaceIsTracked(s: State, x: Item, p: Place)
    requires PlacesOk(s) && At(s, x, p)
    ensures x in s.where && s.where[x] == p && x !in s.fate && x in s.read
  {
    assert Tracked(s, x, p);
    assert x in s.where.Keys;
  }

  // ---------------------------------------------------------------------
  // What kind of entry is where
  // ---------------------------------------------------------------------

  ghost predicate GoodItem(cfg: Config, t: Topic, x: Item) {
    x.topic == t && x.id != "" && WellFormed(cfg, x)
  }

  ghost predicate SubOk(cfg: Config, sub: Sub) {
    && Distinct(sub.batch)
    && (forall x :: x in sub.batch ==> x.topic == sub.topic && x.id != "")
    && (sub.chan.Some? ==> GoodItem(cfg, sub.topic, sub.chan.value))
    && (sub.phase.Holding? ==> GoodItem(cfg, sub.topic, sub.phase.item))
  }

  /** The outcome document names the entry it answers. */
  ghost predicate Answers(doc: Document, x: Item) {
    doc.envelope.execId == x.id && doc.envelope.inReplyTo == x.id
  }

  /** A result is announced on the stream of completions, a failure on that of failures. */
  ghost predicate Announces(stream: string, doc: Document) {
    || (stream == "agent.events.completed" && B.IsOutcome(B.Completed, doc))
    || (stream == "agent.events.failed" && B.IsOutcome(B.Failed, doc))
  }

  /** Building never fails once the two identifiers the gateway is handed are there. */
  ghost predicate BuildsAll(cfg: Config) {
    forall args: BuildArgs :: args.docId != "" && args.taskId != "" ==> cfg.build(args).Ok?
  }

  ghost predicate OutOk(cfg: Config, out: Out) {
    && TaskItem(cfg, out.item)
    && (out.Taken? && out.doc.Ok? ==> Answers(out.doc.value, out.item) && B.IsOutcome(out.outcome, out.doc.value))
    && (out.Taken? && BuildsAll(cfg) ==> out.doc.Ok?)
  }

  ghost predicate SubsOk(cfg: Config, s: State) {
    forall h :: h in s.subs ==> SubOk(cfg, s.subs[h])
  }

  ghost predicate PendingOk(cfg: Config, s: State) {
    forall id :: id in s.pending ==> s.pending[id].id == id && TaskItem(cfg, s.pending[id])
  }

  ghost predicate OutsOk(cfg: Config, s: State) {
    forall o :: o in s.outs ==> OutOk(cfg, s.outs[o])
  }

  ghost predicate KindsOk(cfg: Config, s: State) {
    SubsOk(cfg, s) && PendingOk(cfg, s) && OutsOk(cfg, s)
  }

  // ---------------------------------------------------------------------
  // Publishing and acknowledging, in order
  // ---------------------------------------------------------------------

  predicate Concluded(f: Fate) {
    f == Failed || f == Acknowledged
  }

  /** An outcome for `x` was published: its handler is at the ack, or over. */
  ghost predicate PastPublish(s: State, x: Item) {
    || (x in s.fate && Concluded(s.fate[x]))
    || (exists o :: o in s.outs && s.outs[o] == Published(x))
  }

  ghost predicate PublishedBefore(events: seq<Event>, n: nat, x: Item)
    requires n <= |events|
  {
    exists j :: 0 <= j < n && events[j].PublishEvent? && events[j].item == x && Answers(events[j].doc, x)
  }

  ghost predicate PublishesOk(cfg: Config, s: State) {
    && (forall i :: 0 <= i < |s.events| && s.events[i].PublishEvent? ==>
          && TaskItem(cfg, s.events[i].item) && Answers(s.events[i].doc, s.events[i].item)
          && Announces(s.events[i].stream, s.events[i].doc) && PastPublish(s, s.events[i].item))
    && (forall i, j :: 0 <= i < j < |s.events| && s.events[i].PublishEvent? && s.events[j].PublishEvent? ==>
          s.events[i].item != s.events[j].item)
  }

  ghost predicate AckEventsOk(cfg: Config, events: seq<Event>) {
    forall i :: 0 <= i < |events| && events[i].AckEvent? && TaskItem(cfg, events[i].item) ==>
      PublishedBefore(events, i, events[i].item)
  }

  ghost predicate OutsPublished(s: State) {
    forall o :: o in s.outs && s.outs[o].Published? ==> PublishedBefore(s.events, |s.events|, s.outs[o].item)
  }

  ghost predicate EventsOk(cfg: Config, s: State) {
    PublishesOk(cfg, s) && AckEventsOk(cfg, s.events) && OutsPublished(s)
  }

  /** Handlers past their publish stay so, or end with a concluded fate. */
  ghost predicate OutsEvolve(s: State, s': State) {
    forall o :: o in s.outs && s.outs[o].Published? ==>
      || (o in s'.outs && s'.outs[o] == s.outs[o])
      || (s.outs[o].item in s'.fate && Concluded(s'.fate[s.outs[o].item]))
  }

  ghost predicate NoNewPublished(s: State, s': State) {
    forall o :: o in s'.outs && s'.outs[o].Published? ==> o in s.outs && s.outs[o] == s'.outs[o]
  }

  lemma PastPublishKept(s: State, s': State, x: Item)
    requires PastPublish(s, x) && FatesKept(s, s') && OutsEvolve(s, s')
    ensures PastPublish(s', x)
  {
    if o :| o in s.outs && s.outs[o] == Published(x) {
      assert s.outs[o].Published?;
    }
  }

  lemma EventsSame(cfg: Config, s: State, s': State)
    requires EventsOk(cfg, s) && s'.events == s.events
    requires FatesKept(s, s') && OutsEvolve(s, s') && NoNewPublished(s, s')
    ensures EventsOk(cfg, s')
  {
    forall i | 0 <= i < |s.events| && s.events[i].PublishEvent? ensures PastPublish(s', s.events[i].item) {
      PastPublishKept(s, s', s.events[i].item);
    }
  }

  lemma PublishedBeforeGrows(events: seq<Event>, n: nat, e: Event, x: Item)
    requires n <= |events| && PublishedBefore(events, n, x)
    ensures PublishedBefore(events + [e], n, x) && PublishedBefore(events + [e], |events| + 1, x)
  {
    var j :| 0 <= j < n && events[j].PublishEvent? && events[j].item == x && Answers(events[j].doc, x);
    assert (events + [e])[j] == events[j];
  }

  lemma AckEventsGrow(cfg: Config, events: seq<Event>, e: Event)
    requires AckEventsOk(cfg, events)
    requires e.AckEvent? && TaskItem(cfg, e.item) ==> PublishedBefore(events, |events|, e.item)
    ensures AckEventsOk(cfg, events + [e])
  {
    var events' := events + [e];
    forall i | 0 <= i < |events'| && events'[i].AckEvent? && TaskItem(cfg, events'[i].item)
      ensures PublishedBefore(events', i, events'[i].item)
    {
      PublishedBeforeGrows(events, i, e, events'[i].item);
    }
  }

  lemma OutsPublishedGrow(s: State, s': State, e: Event)
    requires OutsPublished(s) && s'.events == s.events + [e]
    requires forall o :: o in s'.outs && s'.outs[o].Published? ==>
               (o in s.outs && s.outs[o] == s'.outs[o])
               || (e.PublishEvent? && e.item == s'.outs[o].item && Answers(e.doc, e.item))
    ensures OutsPublished(s')
  {
    forall o | o in s'.outs && s'.outs[o].Published? ensures PublishedBefore(s'.events, |s'.events|, s'.outs[o].item) {
      if o in s.outs && s.outs[o] == s'.outs[o] {
        PublishedBeforeGrows(s.events, |s.events|, e, s'.outs[o].item);
      } else {
        assert s'.events[|s.events|] == e;
      }
    }
  }

  /** An acknowledgement is added: of a malformed entry, of a message, or after a publish. */
  lemma EventsPlusAck(cfg: Config, s: State, s': State, x: Item)
    requires EventsOk(cfg, s) && s'.events == s.events + [AckEvent(x)]
    requires TaskItem(cfg, x) ==> PublishedBefore(s.events, |s.events|, x)
    requires FatesKept(s, s') && OutsEvolve(s, s') && NoNewPublished(s, s')
    ensures EventsOk(cfg, s')
  {
    AckEventsGrow(cfg, s.events, AckEvent(x));
    OutsPublishedGrow(s, s', AckEvent(x));
    forall i | 0 <= i < |s'.events| && s'.events[i].PublishEvent?
      ensures TaskItem(cfg, s'.events[i].item) && Answers(s'.events[i].doc, s'.events[i].item)
      ensures Announces(s'.events[i].stream, s'.events[i].doc)
      ensures PastPublish(s', s'.events[i].item)
    {
      assert s'.events[i] == s.events[i];
      PastPublishKept(s, s', s.events[i].item);
    }
  }

  /** The first publish for an entry is added. */
  lemma EventsPlusPublish(cfg: Config, s: State, s': State, x: Item, stream: string, doc: Document)
    requires EventsOk(cfg, s) && s'.events == s.events + [PublishEvent(x, stream, doc)]
    requires TaskItem(cfg, x) && Announces(stream, doc) && Answers(doc, x) && !PastPublish(s, x) && PastPublish(s', x)
    requires FatesKept(s, s') && OutsEvolve(s, s')
    requires forall o :: o in s'.outs && s'.outs[o].Published? ==>
               (o in s.outs && s.outs[o] == s'.outs[o]) || s'.outs[o].item == x
    ensures EventsOk(cfg, s')
  {
    AckEventsGrow(cfg, s.events, PublishEvent(x, stream, doc));
    OutsPublishedGrow(s, s', PublishEvent(x, stream, doc));
    forall i | 0 <= i < |s'.events| && s'.events[i].PublishEvent?
      ensures TaskItem(cfg, s'.events[i].item) && Answers(s'.events[i].doc, s'.events[i].item)
      ensures Announces(s'.events[i].stream, s'.events[i].doc)
      ensures PastPublish(s', s'.events[i].item)
      ensures i < |s.events| ==> s'.events[i].item != x
    {
      if i < |s.events| {
        assert s'.events[i] == s.events[i];
        PastPublishKept(s, s', s.events[i].item);
      }
    }
  }

  // ---------------------------------------------------------------------
  // The invariant and its steps
  // ---------------------------------------------------------------------

  ghost predicate Inv(cfg: Config, s: State) {
    StreamsOk(s) && PlacesOk(s) && AcksOk(cfg, s) && KindsOk(cfg, s) && EventsOk(cfg, s)
  }

  /** Outcome documents are about the entry they were built for, and say what came of it. */
  ghost predicate BuildsAnswers(cfg: Config) {
    forall args :: cfg.build(args).Ok? ==>
      var doc := cfg.build(args).value;
      doc.envelope.execId == args.taskId && doc.envelope.inReplyTo == args.taskId && B.IsOutcome(args.outcome, doc)
  }

  lemma InitInv(cfg: Config)
    ensures Inv(cfg, Init())
  {
    var s := Init();
    forall x, p ensures Tracked(s, x, p) {}
    forall t ensures GoodLog(LogOf(s, t), t) && CursorOf(s, t) <= |LogOf(s, t)| {}
  }

  // What a step that settles one entry does to acknowledgements and events

  lemma OutsUntouched(s: State, s': State)
    requires s'.outs == s.outs
    ensures OutsEvolve(s, s') && NoNewPublished(s, s')
  {
  }

  /** An entry that is not with an outcome handler is settled, with or without an acknowledgement. */
  lemma SettleKeeps(cfg: Config, s: State, s': State, x: Item, f: Fate, r: Reply)
    requires AcksOk(cfg, s) && EventsOk(cfg, s) && x !in s.fate && FateFits(cfg, x, f)
    requires s'.fate == s.fate[x := f] && s'.outs == s.outs && s'.read == s.read
    requires s'.unacked == Xack(s, x, r).unacked && s'.acked == Xack(s, x, r).acked && s'.events == Xack(s, x, r).events
    requires Effect(r) ==> MayBeAcked(f) && !TaskItem(cfg, x)
    requires (f == Acknowledged ==> Effect(r)) && (f == Overwritten ==> Collides(cfg, s, x))
    ensures AcksOk(cfg, s') && EventsOk(cfg, s') && FatesKept(s, s')
  {
    AcksOfSettled(cfg, s, s', x, f, r);
    OutsUntouched(s, s');
    if Effect(r) { EventsPlusAck(cfg, s, s', x); } else { EventsSame(cfg, s, s'); }
  }

  lemma OutsShrink(s: State, s': State, o: nat)
    requires o in s.outs && s'.outs == s.outs - {o} && s.outs[o].item in s'.fate && Concluded(s'.fate[s.outs[o].item])
    ensures OutsEvolve(s, s') && NoNewPublished(s, s')
  {
  }

  /** An outcome handler ends, with or without an acknowledgement. */
  lemma ConcludeKeeps(cfg: Config, s: State, s': State, o: nat, f: Fate, r: Reply)
    requires AcksOk(cfg, s) && EventsOk(cfg, s) && o in s.outs && OutOk(cfg, s.outs[o])
    requires s.outs[o].item !in s.fate && Concluded(f)
    requires s'.fate == s.fate[s.outs[o].item := f] && s'.outs == s.outs - {o} && s'.read == s.read
    requires var x := s.outs[o].item;
             s'.unacked == Xack(s, x, r).unacked && s'.acked == Xack(s, x, r).acked && s'.events == Xack(s, x, r).events
    requires Effect(r) ==> PublishedBefore(s.events, |s.events|, s.outs[o].item)
    requires f == Acknowledged ==> Effect(r)
    ensures AcksOk(cfg, s') && EventsOk(cfg, s') && FatesKept(s, s')
  {
    var x := s.outs[o].item;
    AcksOfSettled(cfg, s, s', x, f, r);
    OutsShrink(s, s', o);
    if Effect(r) { EventsPlusAck(cfg, s, s', x); } else { EventsSame(cfg, s, s'); }
  }

  // What a step does to the kinds of entries

  lemma SubWithoutHead(cfg: Config, sub: Sub)
    requires SubOk(cfg, sub) && sub.batch != []
    ensures SubOk(cfg, sub.(batch := sub.batch[1..]))
  {
    HeadIsNotInTail(sub.batch);
  }

  lemma SubGone(cfg: Config, sub: Sub)
    requires SubOk(cfg, sub)
    ensures SubOk(cfg, sub.(phase := Gone))
  {
  }

  lemma OneSubChanged(cfg: Config, s: State, s': State, h: nat)
    requires KindsOk(cfg, s) && h in s'.subs && SubOk(cfg, s'.subs[h]) && s'.subs == s.subs[h := s'.subs[h]]
    requires s'.pending == s.pending && s'.outs == s.outs
    ensures KindsOk(cfg, s')
  {
  }

  lemma GoneKinds(cfg: Config, s: State, s': State, h: nat)
    requires KindsOk(cfg, s) && h in s.subs && s'.subs == s.subs[h := s.subs[h].(phase := Gone)]
    requires s'.pending == s.pending && s'.outs == s.outs
    ensures KindsOk(cfg, s')
  {
    assert SubOk(cfg, s.subs[h]);
    SubGone(cfg, s.subs[h]);
    OneSubChanged(cfg, s, s', h);
  }

  lemma HeadlessKinds(cfg: Config, s: State, s': State, h: nat)
    requires KindsOk(cfg, s) && h in s.subs && s.subs[h].batch != []
    requires s'.subs == s.subs[h := s.subs[h].(batch := s.subs[h].batch[1..])]
    requires s'.pending == s.pending && s'.outs == s.outs
    ensures KindsOk(cfg, s')
  {
    assert SubOk(cfg, s.subs[h]);
    SubWithoutHead(cfg, s.subs[h]);
    OneSubChanged(cfg, s, s', h);
  }

  lemma PendingGrows(cfg: Config, s: State, s': State, x: Item)
    requires KindsOk(cfg, s) && TaskItem(cfg, x)
    requires s'.subs == s.subs && s'.pending == s.pending[x.id := x] && s'.outs == s.outs
    ensures KindsOk(cfg, s')
  {
  }

  lemma PendingShrinks(cfg: Config, s: State, s': State, id: string)
    requires KindsOk(cfg, s) && s'.subs == s.subs && s'.pending == s.pending - {id} && s'.outs == s.outs
    ensures KindsOk(cfg, s')
  {
  }

  lemma OneOutEnds(cfg: Config, s: State, s': State, o: nat)
    requires KindsOk(cfg, s) && s'.subs == s.subs && s'.pending == s.pending && s'.outs == s.outs - {o}
    ensures KindsOk(cfg, s')
  {
  }

  // producers

  lemma AppendKeeps(cfg: Config, s: State, x: Item)
    requires Inv(cfg, s) && x.id != "" && forall y :: y in LogOf(s, x.topic) ==> y.id != x.id
    ensures Inv(cfg, AppendItem(s, x)) && FatesKept(s, AppendItem(s, x))
  {
    var s' := AppendItem(s, x);
    AppendStreams(s, x);
    UntouchedPlaces(s, s');
    AcksSame(cfg, s, s');
    EventsSame(cfg, s, s');
  }

  lemma CreateGroupKeeps(cfg: Config, s: State, s': State, t: Topic)
    requires Inv(cfg, s) && s' == s.(cursors := WithGroup(s, t))
    ensures Inv(cfg, s') && FatesKept(s, s')
  {
    GroupStreams(s, s', t);
    UntouchedPlaces(s, s');
    AcksSame(cfg, s, s');
    EventsSame(cfg, s, s');
  }

  // the read loop

  lemma DeliverKeeps(cfg: Config, s: State, h: nat, n: nat)
    requires Inv(cfg, s) && h in s.subs && CanRead(s, h, n)
    ensures Inv(cfg, Deliver(s, h, NextRead(s, s.subs[h].topic, n)))
            && FatesKept(s, Deliver(s, h, NextRead(s, s.subs[h].topic, n)))
  {
    var t := s.subs[h].topic;
    var items := NextRead(s, t, n);
    var s' := Deliver(s, h, items);
    NextReadIsNew(s, t, n);
    AdvanceStreams(s, t, n);
    StreamsSame(Advance(s, t, items), s');
    DeliverPlaces(s, h, items);
    AcksOfRead(cfg, s, s', items);
    assert SubOk(cfg, s.subs[h]);
    assert SubOk(cfg, s'.subs[h]);
    EventsSame(cfg, s, s');
  }

  lemma LoseKeeps(cfg: Config, s: State, h: nat, n: nat)
    requires Inv(cfg, s) && h in s.subs && CanRead(s, h, n)
    ensures Inv(cfg, Lose(s, s.subs[h].topic, NextRead(s, s.subs[h].topic, n)))
            && FatesKept(s, Lose(s, s.subs[h].topic, NextRead(s, s.subs[h].topic, n)))
  {
    var t := s.subs[h].topic;
    var items := NextRead(s, t, n);
    var s' := Lose(s, t, items);
    NextReadIsNew(s, t, n);
    AdvanceStreams(s, t, n);
    StreamsSame(Advance(s, t, items), s');
    LosePlaces(s, t, items);
    NewFatesKeep(s, s', items);
    AcksOfRead(cfg, s, s', items);
    EventsSame(cfg, s, s');
  }

  lemma NewFatesKeep(s: State, s': State, items: seq<Item>)
    requires Partition(s) && s'.fate == s.fate + map x | x in items :: Abandoned
    requires forall x :: x in items ==> x !in s.fate
    ensures FatesKept(s, s')
  {
  }

  lemma DiscardEffects(cfg: Config, s: State, h: nat, r: Reply)
    requires PlacesOk(s) && AcksOk(cfg, s) && EventsOk(cfg, s)
    requires h in s.subs && s.subs[h].batch != [] && !WellFormed(cfg, s.subs[h].batch[0])
    ensures AcksOk(cfg, DiscardHead(s, h, r)) && EventsOk(cfg, DiscardHead(s, h, r))
            && FatesKept(s, DiscardHead(s, h, r))
  {
    var x := s.subs[h].batch[0];
    PlaceIsTracked(s, x, InBatch(h));
    SettleKeeps(cfg, s, DiscardHead(s, h, r), x, Discarded, r);
  }

  lemma DiscardKeeps(cfg: Config, s: State, h: nat, r: Reply)
    requires Inv(cfg, s) && h in s.subs && s.subs[h].batch != [] && !WellFormed(cfg, s.subs[h].batch[0])
    ensures Inv(cfg, DiscardHead(s, h, r)) && FatesKept(s, DiscardHead(s, h, r))
  {
    var s' := DiscardHead(s, h, r);
    StreamsSame(s, s');
    assert SubOk(cfg, s.subs[h]);
    DiscardPlaces(s, h, r);
    DiscardEffects(cfg, s, h, r);
    HeadlessKinds(cfg, s, s', h);
  }

  lemma PushKeeps(cfg: Config, s: State, h: nat)
    requires Inv(cfg, s) && h in s.subs && s.subs[h].batch != [] && s.subs[h].chan.None?
             && WellFormed(cfg, s.subs[h].batch[0])
    ensures Inv(cfg, PushHead(s, h)) && FatesKept(s, PushHead(s, h))
  {
    var s' := PushHead(s, h);
    assert SubOk(cfg, s.subs[h]);
    HeadIsNotInTail(s.subs[h].batch);
    StreamsSame(s, s');
    PushPlaces(s, h);
    AcksSame(cfg, s, s');
    assert SubOk(cfg, s'.subs[h]);
    EventsSame(cfg, s, s');
  }

  lemma CancelKeeps(cfg: Config, s: State, h: nat)
    requires Inv(cfg, s) && h in s.subs
    ensures Inv(cfg, CancelLoop(s, h)) && FatesKept(s, CancelLoop(s, h))
  {
    var s' := CancelLoop(s, h);
    var items := s.subs[h].batch;
    forall x | x in items ensures x !in s.fate { PlaceIsTracked(s, x, InBatch(h)); }
    StreamsSame(s, s');
    CancelPlaces(s, h);
    AcksOfAbandoned(cfg, s, s', items);
    assert SubOk(cfg, s.subs[h]);
    assert SubOk(cfg, s'.subs[h]);
    EventsSame(cfg, s, s');
  }

  lemma LoopKeeps(cfg: Config, s: State, h: nat, step: LoopStep)
    requires Inv(cfg, s) && LoopEnabled(cfg, s, h, step)
    ensures Inv(cfg, LoopApply(cfg, s, h, step)) && FatesKept(s, LoopApply(cfg, s, h, step))
  {
    match step
    case GroupRead(n) => DeliverKeeps(cfg, s, h, n);
    case ReadLost(n) => LoseKeeps(cfg, s, h, n);
    case Discard(r) => DiscardKeeps(cfg, s, h, r);
    case Push => PushKeeps(cfg, s, h);
    case Cancel => CancelKeeps(cfg, s, h);
  }

  // get_task and receive_message

  lemma GatesKeep(cfg: Config, s: State, s': State)
    requires Inv(cfg, s) && s' == s.(gates := s'.gates)
    ensures Inv(cfg, s') && FatesKept(s, s')
  {
    StreamsSame(s, s');
    UntouchedPlaces(s, s');
    AcksSame(cfg, s, s');
    EventsSame(cfg, s, s');
  }

  lemma OpenKeeps(cfg: Config, s: State, h: nat, t: Topic)
    requires Inv(cfg, s) && h !in s.subs
    ensures Inv(cfg, Open(s, h, t)) && FatesKept(s, Open(s, h, t))
  {
    var s' := Open(s, h, t);
    GroupStreams(s, s', t);
    OpenPlaces(s, h, t);
    AcksSame(cfg, s, s');
    EventsSame(cfg, s, s');
  }

  lemma ReceiveKeeps(cfg: Config, s: State, h: nat)
    requires Inv(cfg, s) && h in s.subs && s.subs[h].phase.Waiting? && s.subs[h].chan.Some?
    ensures Inv(cfg, TakeFromChannel(s, h)) && FatesKept(s, TakeFromChannel(s, h))
  {
    var s' := TakeFromChannel(s, h);
    assert SubOk(cfg, s.subs[h]);
    StreamsSame(s, s');
    ReceivePlaces(s, h);
    AcksSame(cfg, s, s');
    EventsSame(cfg, s, s');
  }

  lemma LeaveKeeps(cfg: Config, s: State, h: nat)
    requires Inv(cfg, s) && h in s.subs && s.subs[h].phase.Waiting?
    ensures Inv(cfg, LeaveChannel(s, h)) && FatesKept(s, LeaveChannel(s, h))
  {
    var s' := LeaveChannel(s, h);
    assert SubOk(cfg, s.subs[h]);
    StreamsSame(s, s');
    LeavePlaces(s, h);
    AcksSame(cfg, s, s');
    EventsSame(cfg, s, s');
  }

  lemma StoreKinds(cfg: Config, s: State, s': State, h: nat, x: Item)
    requires KindsOk(cfg, s) && h in s.subs && s.subs[h].phase == Holding(x) && s.subs[h].topic.Tasks?
    requires s'.subs == s.subs[h := s.subs[h].(phase := Gone)] && s'.pending == s.pending[x.id := x]
             && s'.outs == s.outs
    ensures KindsOk(cfg, s')
  {
    assert SubOk(cfg, s.subs[h]);
    var s1 := s'.(pending := s.pending);
    GoneKinds(cfg, s, s1, h);
    PendingGrows(cfg, s1, s', x);
  }

  lemma StoreEffects(cfg: Config, s: State, h: nat)
    requires PlacesOk(s) && PendingOk(cfg, s) && AcksOk(cfg, s) && EventsOk(cfg, s)
    requires h in s.subs && s.subs[h].phase.Holding? && TaskItem(cfg, s.subs[h].phase.item)
    ensures AcksOk(cfg, StoreItem(s, h)) && EventsOk(cfg, StoreItem(s, h)) && FatesKept(s, StoreItem(s, h))
  {
    var s' := StoreItem(s, h);
    var x := s.subs[h].phase.item;
    if x.id in s.pending && s.pending[x.id] != x {
      var y := s.pending[x.id];
      PlaceIsTracked(s, y, InPending);
      PlaceIsTracked(s, x, Held(h));
      assert x in s.read && TwoForOneId(cfg, y, x);
      SettleKeeps(cfg, s, s', y, Overwritten, ErrorWithoutEffect);
    } else {
      AcksSame(cfg, s, s');
      OutsUntouched(s, s');
      EventsSame(cfg, s, s');
    }
  }

  lemma StoreKeeps(cfg: Config, s: State, h: nat)
    requires Inv(cfg, s) && h in s.subs && s.subs[h].phase.Holding? && s.subs[h].topic.Tasks?
    ensures Inv(cfg, StoreItem(s, h)) && FatesKept(s, StoreItem(s, h))
  {
    var s' := StoreItem(s, h);
    StreamsSame(s, s');
    StorePlaces(s, h);
    StoreKinds(cfg, s, s', h, s.subs[h].phase.item);
    assert TaskItem(cfg, s.subs[h].phase.item) by { assert SubOk(cfg, s.subs[h]); }
    StoreEffects(cfg, s, h);
  }

  lemma AckMessageEffects(cfg: Config, s: State, h: nat, r: Reply)
    requires PlacesOk(s) && AcksOk(cfg, s) && EventsOk(cfg, s)
    requires h in s.subs && s.subs[h].phase.Holding?
    requires !s.subs[h].phase.item.topic.Tasks? && WellFormed(cfg, s.subs[h].phase.item)
    ensures AcksOk(cfg, AckHeld(s, h, r)) && EventsOk(cfg, AckHeld(s, h, r)) && FatesKept(s, AckHeld(s, h, r))
  {
    var x := s.subs[h].phase.item;
    PlaceIsTracked(s, x, Held(h));
    SettleKeeps(cfg, s, AckHeld(s, h, r), x, if r == Done then Acknowledged else Failed, r);
  }

  lemma HeldTopic(cfg: Config, s: State, h: nat)
    requires SubsOk(cfg, s) && h in s.subs && s.subs[h].phase.Holding?
    ensures s.subs[h].phase.item.topic == s.subs[h].topic && WellFormed(cfg, s.subs[h].phase.item)
  {
    assert SubOk(cfg, s.subs[h]);
  }

  lemma AckMessageKeeps(cfg: Config, s: State, h: nat, r: Reply)
    requires Inv(cfg, s) && h in s.subs && s.subs[h].phase.Holding? && s.subs[h].topic.Messages?
    ensures Inv(cfg, AckHeld(s, h, r)) && FatesKept(s, AckHeld(s, h, r))
  {
    var s' := AckHeld(s, h, r);
    StreamsSame(s, s');
    AckMessagePlaces(s, h, r);
    HeldTopic(cfg, s, h);
    AckMessageEffects(cfg, s, h, r);
    GoneKinds(cfg, s, s', h);
  }

  lemma HandlerKeeps(cfg: Config, s: State, h: nat, step: HandlerStep)
    requires Inv(cfg, s) && HandlerEnabled(s, h, step)
    ensures Inv(cfg, HandlerApply(cfg, s, h, step)) && FatesKept(s, HandlerApply(cfg, s, h, step))
  {
    match step
    case Count(_) => GatesKeep(cfg, s, HandlerApply(cfg, s, h, step));
    case Check => GatesKeep(cfg, s, HandlerApply(cfg, s, h, step));
    case Abort => GatesKeep(cfg, s, HandlerApply(cfg, s, h, step));
    case Subscribe => OpenKeeps(cfg, s, h, Tasks(s.gates[h].agent));
    case SubscribeMessages(agent) => OpenKeeps(cfg, s, h, Messages(agent));
    case Receive => ReceiveKeeps(cfg, s, h);
    case Leave => LeaveKeeps(cfg, s, h);
    case Store => StoreKeeps(cfg, s, h);
    case AckMessage(r) => AckMessageKeeps(cfg, s, h, r);
  }

  // complete_task, fail_task and the sweep

  lemma TakeKeeps(cfg: Config, s: State, o: nat, args: BuildArgs)
    requires Inv(cfg, s) && BuildsAnswers(cfg) && o !in s.outs && args.taskId in s.pending && args.docId != ""
    ensures Inv(cfg, TakePending(s, o, args, cfg.build(args)))
            && FatesKept(s, TakePending(s, o, args, cfg.build(args)))
  {
    var s' := TakePending(s, o, args, cfg.build(args));
    StreamsSame(s, s');
    TakePlaces(s, o, args, cfg.build(args));
    AcksSame(cfg, s, s');
    assert s.pending[args.taskId].id == args.taskId && TaskItem(cfg, s.pending[args.taskId]);
    assert OutOk(cfg, s'.outs[o]);
    EventsSame(cfg, s, s');
  }

  lemma EndKeeps(cfg: Config, s: State, o: nat, f: Fate)
    requires Inv(cfg, s) && o in s.outs && f == Failed
    ensures Inv(cfg, EndOutcome(s, o, f)) && FatesKept(s, EndOutcome(s, o, f))
  {
    var s' := EndOutcome(s, o, f);
    PlaceIsTracked(s, s.outs[o].item, InOutcome(o));
    StreamsSame(s, s');
    EndOutcomePlaces(s, o, f);
    assert OutOk(cfg, s.outs[o]);
    ConcludeKeeps(cfg, s, s', o, f, ErrorWithoutEffect);
    OneOutEnds(cfg, s, s', o);
  }

  /** The entry of a handler that has not published was never published. */
  lemma TakenIsUnpublished(cfg: Config, s: State, o: nat)
    requires Inv(cfg, s) && o in s.outs && s.outs[o].Taken?
    ensures !PastPublish(s, s.outs[o].item)
  {
    var x := s.outs[o].item;
    PlaceIsTracked(s, x, InOutcome(o));
    forall p | p in s.outs && s.outs[p] == Published(x) ensures p == o {
      PlaceIsTracked(s, x, InOutcome(p));
    }
  }

  lemma PublishEffects(cfg: Config, s: State, o: nat, r: Reply)
    requires AcksOk(cfg, s) && EventsOk(cfg, s) && Effect(r)
    requires o in s.outs && s.outs[o].Taken? && s.outs[o].doc.Ok? && OutOk(cfg, s.outs[o])
    requires s.outs[o].item !in s.fate && !PastPublish(s, s.outs[o].item)
    ensures AcksOk(cfg, PublishOutcome(s, o, r)) && EventsOk(cfg, PublishOutcome(s, o, r))
            && FatesKept(s, PublishOutcome(s, o, r))
  {
    var s' := PublishOutcome(s, o, r);
    var x := s.outs[o].item;
    if r == Done {
      assert s'.outs[o] == Published(x);
      AcksSame(cfg, s, s');
    } else {
      AcksOfSettled(cfg, s, s', x, Failed, ErrorWithoutEffect);
      OutsShrink(s, s', o);
    }
    EventsPlusPublish(cfg, s, s', x, OutcomeStream(s.outs[o].outcome), s.outs[o].doc.value);
  }

  lemma PublishKinds(cfg: Config, s: State, o: nat, r: Reply)
    requires KindsOk(cfg, s) && o in s.outs && s.outs[o].Taken? && s.outs[o].doc.Ok?
    ensures KindsOk(cfg, PublishOutcome(s, o, r))
  {
    var s' := PublishOutcome(s, o, r);
    if r == Done { assert OutOk(cfg, s.outs[o]) && OutOk(cfg, s'.outs[o]); } else { OneOutEnds(cfg, s, s', o); }
  }

  lemma PublishKeeps(cfg: Config, s: State, o: nat, r: Reply)
    requires Inv(cfg, s) && o in s.outs && s.outs[o].Taken? && s.outs[o].doc.Ok?
    ensures Inv(cfg, PublishOutcome(s, o, r)) && FatesKept(s, PublishOutcome(s, o, r))
  {
    if r == ErrorWithoutEffect {
      EndKeeps(cfg, s, o, Failed);
    } else {
      var s' := PublishOutcome(s, o, r);
      PlaceIsTracked(s, s.outs[o].item, InOutcome(o));
      TakenIsUnpublished(cfg, s, o);
      StreamsSame(s, s');
      PublishPlaces(s, o, r);
      assert OutOk(cfg, s.outs[o]);
      PublishEffects(cfg, s, o, r);
      PublishKinds(cfg, s, o, r);
    }
  }

  lemma AckKeeps(cfg: Config, s: State, o: nat, r: Reply)
    requires Inv(cfg, s) && o in s.outs && s.outs[o].Published?
    ensures Inv(cfg, AckOutcome(s, o, r)) && FatesKept(s, AckOutcome(s, o, r))
  {
    var s' := AckOutcome(s, o, r);
    PlaceIsTracked(s, s.outs[o].item, InOutcome(o));
    StreamsSame(s, s');
    AckPlaces(s, o, r);
    assert OutOk(cfg, s.outs[o]);
    ConcludeKeeps(cfg, s, s', o, if r == Done then Acknowledged else Failed, r);
    OneOutEnds(cfg, s, s', o);
  }

  lemma OutcomeKeeps(cfg: Config, s: State, o: nat, step: OutcomeStep)
    requires Inv(cfg, s) && BuildsAnswers(cfg) && OutcomeEnabled(s, o, step)
    ensures Inv(cfg, OutcomeApply(cfg, s, o, step)) && FatesKept(s, OutcomeApply(cfg, s, o, step))
  {
    match step
    case Take(args) => TakeKeeps(cfg, s, o, args);
    case BuildFails => EndKeeps(cfg, s, o, Failed);
    case Publish(r) => PublishKeeps(cfg, s, o, r);
    case Ack(r) => AckKeeps(cfg, s, o, r);
  }

  lemma EvictKeeps(cfg: Config, s: State, id: string)
    requires Inv(cfg, s) && id in s.pending
    ensures Inv(cfg, RemovePending(s, id, Evicted)) && FatesKept(s, RemovePending(s, id, Evicted))
  {
    var s' := RemovePending(s, id, Evicted);
    assert s.pending[id].id == id && TaskItem(cfg, s.pending[id]);
    PlaceIsTracked(s, s.pending[id], InPending);
    StreamsSame(s, s');
    EvictPlaces(s, id, Evicted);
    SettleKeeps(cfg, s, s', s.pending[id], Evicted, ErrorWithoutEffect);
    PendingShrinks(cfg, s, s', id);
  }

  lemma StepKeeps(cfg: Config, s: State, step: Step)
    requires Inv(cfg, s) && BuildsAnswers(cfg) && Enabled(cfg, s, step)
    ensures Inv(cfg, Apply(cfg, s, step)) && FatesKept(s, Apply(cfg, s, step))
  {
    match step
    case Append(x) => AppendKeeps(cfg, s, x);
    case CreateGroup(t) => CreateGroupKeeps(cfg, s, Apply(cfg, s, step), t);
    case Loop(h, l) => LoopKeeps(cfg, s, h, l);
    case Handler(h, c) => HandlerKeeps(cfg, s, h, c);
    case Outcome(o, c) => OutcomeKeeps(cfg, s, o, c);
    case Evict(id) => EvictKeeps(cfg, s, id);
  }

  lemma NextKeeps(cfg: Config, s: State, s': State)
    requires Inv(cfg, s) && BuildsAnswers(cfg) && Next(cfg, s, s')
    ensures Inv(cfg, s') && FatesKept(s, s')
  {
    var step :| Enabled(cfg, s, step) && s' == Apply(cfg, s, step);
    StepKeeps(cfg, s, step);
  }

  lemma {:induction false} RunKeepsInv(cfg: Config, trace: seq<State>, i: nat)
    requires BuildsAnswers(cfg) && IsRun(cfg, trace) && i < |trace|
    ensures Inv(cfg, trace[i])
  {
    if i == 0 {
      InitInv(cfg);
    } else {
      var s, s' := trace[i - 1], trace[i];
      assert Inv(cfg, s) by { RunKeepsInv(cfg, trace, i - 1); }
      assert Next(cfg, s, s') by { NextOf(cfg, trace, i); }
      NextKeeps(cfg, s, s');
    }
  }
}
