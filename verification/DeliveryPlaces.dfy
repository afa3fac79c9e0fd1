/**
 * Conservation: in every run, every entry the consumer group has read is in exactly one
 * place or has met exactly one fate.
 */
module DeliveryPlaces {
  import opened Wrappers
  import opened Documents
  import opened Delivery
  import B = Builder

  // ---------------------------------------------------------------------
  // Logs and cursors
  // ---------------------------------------------------------------------

  ghost predicate GoodLog(log: seq<Item>, t: Topic) {
    && (forall i :: 0 <= i < |log| ==> log[i].topic == t && log[i].id != "")
    && (forall i, j :: 0 <= i < j < |log| ==> log[i].id != log[j].id)
  }

  /** A read entry lies before the cursor of its topic. */
  ghost predicate BeforeCursor(s: State, x: Item) {
    && x.topic in s.cursors
    && exists i :: 0 <= i < CursorOf(s, x.topic) && i < |LogOf(s, x.topic)| && LogOf(s, x.topic)[i] == x
  }

  ghost predicate LogsOk(s: State) {
    && (forall t :: GoodLog(LogOf(s, t), t))
    && (forall t :: CursorOf(s, t) <= |LogOf(s, t)|)
  }

  ghost predicate ReadOk(s: State) {
    forall x :: x in s.read ==> BeforeCursor(s, x)
  }

  /** What a group read delivers is new, distinct and of the topic read. */
  lemma NextReadIsNew(s: State, t: Topic, n: nat)
    requires StreamsOk(s) && CursorOf(s, t) + n <= |LogOf(s, t)|
    ensures forall x :: x in NextRead(s, t, n) ==> x !in s.read && x.topic == t && x.id != ""
    ensures forall i, j :: 0 <= i < j < n ==> NextRead(s, t, n)[i] != NextRead(s, t, n)[j]
  {
    var log, c := LogOf(s, t), CursorOf(s, t);
    assert GoodLog(log, t);
    forall x | x in NextRead(s, t, n) ensures x !in s.read && x.topic == t && x.id != "" {
      var i :| 0 <= i < n && NextRead(s, t, n)[i] == x;
      assert log[c + i] == x;
    }
  }

  ghost predicate StreamsOk(s: State) {
    LogsOk(s) && ReadOk(s)
  }

  lemma BeforeCursorKept(s: State, s': State, x: Item)
    requires BeforeCursor(s, x) && LogOf(s, x.topic) <= LogOf(s', x.topic)
    requires x.topic in s'.cursors && CursorOf(s, x.topic) <= CursorOf(s', x.topic)
    ensures BeforeCursor(s', x)
  {
    var i :| 0 <= i < CursorOf(s, x.topic) && i < |LogOf(s, x.topic)| && LogOf(s, x.topic)[i] == x;
    assert LogOf(s', x.topic)[i] == x;
  }

  lemma StreamsSame(s: State, s': State)
    requires StreamsOk(s) && s'.logs == s.logs && s'.cursors == s.cursors && s'.read == s.read
    ensures StreamsOk(s')
  {
    forall t ensures GoodLog(LogOf(s', t), t) && CursorOf(s', t) <= |LogOf(s', t)| {
      assert GoodLog(LogOf(s, t), t) && CursorOf(s, t) <= |LogOf(s, t)|;
    }
    forall x | x in s'.read ensures BeforeCursor(s', x) {
      assert BeforeCursor(s, x);
      BeforeCursorKept(s, s', x);
    }
  }

  lemma LongerLogIsGood(log: seq<Item>, x: Item)
    requires GoodLog(log, x.topic) && x.id != "" && forall y :: y in log ==> y.id != x.id
    ensures GoodLog(log + [x], x.topic)
  {
    var log' := log + [x];
    forall i, j | 0 <= i < j < |log'| ensures log'[i].id != log'[j].id {
      if j == |log| { assert log[i] in log; }
    }
  }

  lemma AppendStreams(s: State, x: Item)
    requires StreamsOk(s) && x.id != "" && forall y :: y in LogOf(s, x.topic) ==> y.id != x.id
    ensures StreamsOk(AppendItem(s, x))
  {
    var s' := AppendItem(s, x);
    assert GoodLog(LogOf(s, x.topic), x.topic);
    LongerLogIsGood(LogOf(s, x.topic), x);
    forall t ensures GoodLog(LogOf(s', t), t) && CursorOf(s', t) <= |LogOf(s', t)| {
      assert GoodLog(LogOf(s, t), t) && CursorOf(s, t) <= |LogOf(s, t)|;
    }
    forall y | y in s'.read ensures BeforeCursor(s', y) {
      assert BeforeCursor(s, y);
      BeforeCursorKept(s, s', y);
    }
  }

  /** A group is created on a topic, or was there. */
  lemma GroupStreams(s: State, s': State, t: Topic)
    requires StreamsOk(s) && s'.logs == s.logs && s'.read == s.read && s'.cursors == WithGroup(s, t)
    ensures StreamsOk(s')
  {
    forall u ensures GoodLog(LogOf(s', u), u) && CursorOf(s', u) <= |LogOf(s', u)| {
      assert GoodLog(LogOf(s, u), u) && CursorOf(s, u) <= |LogOf(s, u)|;
    }
    forall y | y in s'.read ensures BeforeCursor(s', y) {
      assert BeforeCursor(s, y);
      BeforeCursorKept(s, s', y);
    }
  }

  /** A group read leaves the logs alone and the cursors within them. */
  lemma AdvanceLogs(s: State, s': State, t: Topic, n: nat)
    requires LogsOk(s) && CursorOf(s, t) + n <= |LogOf(s, t)|
    requires s'.logs == s.logs && s'.cursors == s.cursors[t := CursorOf(s, t) + n]
    ensures LogsOk(s')
  {
    forall u ensures GoodLog(LogOf(s', u), u) && CursorOf(s', u) <= |LogOf(s', u)| {
      assert GoodLog(LogOf(s, u), u) && CursorOf(s, u) <= |LogOf(s, u)|;
    }
  }

  /** A newly read entry lies before the new cursor. */
  lemma NewlyReadIsBefore(s: State, s': State, t: Topic, n: nat, i: nat)
    requires GoodLog(LogOf(s, t), t) && i < n && CursorOf(s, t) + n <= |LogOf(s, t)|
    requires s'.logs == s.logs && s'.cursors == s.cursors[t := CursorOf(s, t) + n]
    ensures BeforeCursor(s', NextRead(s, t, n)[i])
  {
    var k := CursorOf(s, t) + i;
    assert LogOf(s', t)[k] == NextRead(s, t, n)[i];
    assert LogOf(s, t)[k].topic == t;
  }

  lemma AdvanceRead(s: State, s': State, t: Topic, n: nat)
    requires StreamsOk(s) && t in s.cursors && CursorOf(s, t) + n <= |LogOf(s, t)|
    requires s'.logs == s.logs && s'.cursors == s.cursors[t := CursorOf(s, t) + n]
    requires s'.read == s.read + (set x | x in NextRead(s, t, n))
    ensures ReadOk(s')
  {
    forall y | y in s'.read ensures BeforeCursor(s', y) {
      if y in s.read {
        assert BeforeCursor(s, y);
        BeforeCursorKept(s, s', y);
      } else {
        var i :| 0 <= i < n && NextRead(s, t, n)[i] == y;
        assert GoodLog(LogOf(s, t), t);
        NewlyReadIsBefore(s, s', t, n, i);
      }
    }
  }

  lemma AdvanceStreams(s: State, t: Topic, n: nat)
    requires StreamsOk(s) && t in s.cursors && CursorOf(s, t) + n <= |LogOf(s, t)|
    ensures StreamsOk(Advance(s, t, NextRead(s, t, n)))
  {
    var s' := Advance(s, t, NextRead(s, t, n));
    AdvanceLogs(s, s', t, n);
    AdvanceRead(s, s', t, n);
  }

  // ---------------------------------------------------------------------
  // Places
  // ---------------------------------------------------------------------

  /** The state itself puts entry `x` at place `p`. */
  ghost predicate At(s: State, x: Item, p: Place) {
    match p
    case InBatch(h) => h in s.subs && x in s.subs[h].batch
    case InChannel(h) => h in s.subs && s.subs[h].chan == Some(x)
    case Held(h) => h in s.subs && s.subs[h].phase == Holding(x)
    case InPending => x.id in s.pending && s.pending[x.id] == x
    case InOutcome(o) => o in s.outs && s.outs[o].item == x
  }

  ghost predicate Tracked(s: State, x: Item, p: Place) {
    At(s, x, p) <==> x in s.where && s.where[x] == p
  }

  ghost predicate TrackedOk(s: State) {
    forall x, p :: Tracked(s, x, p)
  }

  /** An entry read is either in hand or settled, never both. */
  ghost predicate Partition(s: State) {
    s.where.Keys !! s.fate.Keys && s.where.Keys + s.fate.Keys == s.read
  }

  ghost predicate PlacesOk(s: State) {
    TrackedOk(s) && Partition(s)
  }

  ghost predicate Distinct(items: seq<Item>) {
    forall i, j :: 0 <= i < j < |items| ==> items[i] != items[j]
  }

  // ---------------------------------------------------------------------
  // Moving one entry
  // ---------------------------------------------------------------------

  /** Between `s` and `s'`, entry `x` left `from` for `to` (or for good), and nothing else moved. */
  ghost predicate Moved(s: State, s': State, x: Item, from: Place, to: Option<Place>, y: Item, p: Place) {
    At(s', y, p) <==> (At(s, y, p) && !(y == x && p == from)) || (y == x && to == Some(p))
  }

  lemma MoveTracked(s: State, s': State, x: Item, from: Place, to: Option<Place>, y: Item, p: Place)
    requires At(s, x, from) && Tracked(s, x, from) && Tracked(s, y, p)
    requires Moved(s, s', x, from, to, y, p)
    requires s'.where == if to.Some? then s.where[x := to.value] else s.where - {x}
    ensures Tracked(s', y, p)
  {
  }

  lemma MovePlaces(s: State, s': State, x: Item, from: Place, to: Place)
    requires PlacesOk(s) && At(s, x, from)
    requires forall y, p :: Moved(s, s', x, from, Some(to), y, p)
    requires s'.where == s.where[x := to] && s'.fate == s.fate && s'.read == s.read
    ensures PlacesOk(s')
  {
    assert Tracked(s, x, from);
    forall y, p ensures Tracked(s', y, p) {
      assert Tracked(s, y, p) && Moved(s, s', x, from, Some(to), y, p);
      MoveTracked(s, s', x, from, Some(to), y, p);
    }
    assert s'.where.Keys == s.where.Keys;
  }

  lemma SettlePlaces(s: State, s': State, x: Item, from: Place, f: Fate)
    requires PlacesOk(s) && At(s, x, from)
    requires forall y, p :: Moved(s, s', x, from, None, y, p)
    requires s'.where == s.where - {x} && s'.fate == s.fate[x := f] && s'.read == s.read
    ensures PlacesOk(s')
  {
    assert Tracked(s, x, from);
    forall y, p ensures Tracked(s', y, p) {
      assert Tracked(s, y, p) && Moved(s, s', x, from, None, y, p);
      MoveTracked(s, s', x, from, None, y, p);
    }
    assert s'.where.Keys == s.where.Keys - {x} && s'.fate.Keys == s.fate.Keys + {x};
  }

  /** Steps that move nothing. */
  lemma SamePlaces(s: State, s': State)
    requires PlacesOk(s)
    requires forall y, p :: At(s', y, p) <==> At(s, y, p)
    requires s'.where == s.where && s'.fate == s.fate && s'.read == s.read
    ensures PlacesOk(s')
  {
    forall y, p ensures Tracked(s', y, p) {
      assert Tracked(s, y, p);
      assert At(s', y, p) <==> At(s, y, p);
    }
  }

  // ---------------------------------------------------------------------
  // The read loop
  // ---------------------------------------------------------------------

  lemma HeadIsNotInTail(items: seq<Item>)
    requires Distinct(items) && items != []
    ensures Distinct(items[1..])
    ensures forall x :: x in items[1..] <==> x in items && x != items[0]
  {
    assert items == [items[0]] + items[1..];
    forall x | x in items[1..] ensures x != items[0] {
      var j :| 0 <= j < |items[1..]| && items[1..][j] == x;
      assert items[1 + j] == x;
    }
  }

  lemma PushPlaces(s: State, h: nat)
    requires PlacesOk(s) && h in s.subs && s.subs[h].batch != [] && s.subs[h].chan.None? && Distinct(s.subs[h].batch)
    ensures PlacesOk(PushHead(s, h))
  {
    var s' := PushHead(s, h);
    var x := s.subs[h].batch[0];
    HeadIsNotInTail(s.subs[h].batch);
    forall y, p ensures Moved(s, s', x, InBatch(h), Some(InChannel(h)), y, p) {}
    MovePlaces(s, s', x, InBatch(h), InChannel(h));
  }

  lemma DiscardPlaces(s: State, h: nat, r: Reply)
    requires PlacesOk(s) && h in s.subs && s.subs[h].batch != [] && Distinct(s.subs[h].batch)
    ensures PlacesOk(DiscardHead(s, h, r))
  {
    var s' := DiscardHead(s, h, r);
    var x := s.subs[h].batch[0];
    HeadIsNotInTail(s.subs[h].batch);
    forall y, p ensures Moved(s, s', x, InBatch(h), None, y, p) {}
    SettlePlaces(s, s', x, InBatch(h), Discarded);
  }

  lemma DeliverPlaces(s: State, h: nat, items: seq<Item>)
    requires PlacesOk(s) && h in s.subs && s.subs[h].batch == []
    requires forall x :: x in items ==> x !in s.read
    ensures PlacesOk(Deliver(s, h, items))
  {
    var s' := Deliver(s, h, items);
    forall y, p ensures Tracked(s', y, p) {
      assert Tracked(s, y, p);
      assert At(s', y, p) <==> At(s, y, p) || (y in items && p == InBatch(h));
    }
  }

  lemma LosePlaces(s: State, t: Topic, items: seq<Item>)
    requires PlacesOk(s)
    requires forall x :: x in items ==> x !in s.read
    ensures PlacesOk(Lose(s, t, items))
  {
    var s' := Lose(s, t, items);
    forall y, p ensures Tracked(s', y, p) {
      assert Tracked(s, y, p);
      assert At(s', y, p) <==> At(s, y, p);
    }
  }

  lemma CancelPlaces(s: State, h: nat)
    requires PlacesOk(s) && h in s.subs
    ensures PlacesOk(CancelLoop(s, h))
  {
    var s' := CancelLoop(s, h);
    var items := s.subs[h].batch;
    forall x ensures x in items <==> x in s.where && s.where[x] == InBatch(h) {
      assert Tracked(s, x, InBatch(h));
    }
    forall y, p ensures Tracked(s', y, p) {
      assert Tracked(s, y, p);
      assert At(s', y, p) <==> At(s, y, p) && p != InBatch(h);
    }
  }

  // ---------------------------------------------------------------------
  // The handlers and the sweep
  // ---------------------------------------------------------------------

  lemma OpenPlaces(s: State, h: nat, t: Topic)
    requires PlacesOk(s) && h !in s.subs
    ensures PlacesOk(Open(s, h, t))
  {
    var s' := Open(s, h, t);
    forall y, p ensures At(s', y, p) <==> At(s, y, p) {}
    SamePlaces(s, s');
  }

  lemma ReceivePlaces(s: State, h: nat)
    requires PlacesOk(s) && h in s.subs && s.subs[h].phase.Waiting? && s.subs[h].chan.Some?
    ensures PlacesOk(TakeFromChannel(s, h))
  {
    var s' := TakeFromChannel(s, h);
    var x := s.subs[h].chan.value;
    forall y, p ensures Moved(s, s', x, InChannel(h), Some(Held(h)), y, p) {}
    MovePlaces(s, s', x, InChannel(h), Held(h));
  }

  lemma AckMessagePlaces(s: State, h: nat, r: Reply)
    requires PlacesOk(s) && h in s.subs && s.subs[h].phase.Holding?
    ensures PlacesOk(AckHeld(s, h, r))
  {
    var s' := AckHeld(s, h, r);
    var x := s.subs[h].phase.item;
    forall y, p ensures Moved(s, s', x, Held(h), None, y, p) {}
    SettlePlaces(s, s', x, Held(h), if r == Done then Acknowledged else Failed);
  }

  /** A Store over another entry of the same ID is that entry's removal followed by a plain Store. */
  lemma StoreIsRemoveThenStore(s: State, h: nat, x: Item, y: Item)
    requires h in s.subs && s.subs[h].phase == Holding(x) && x.id in s.pending && s.pending[x.id] == y && x != y
    ensures StoreItem(s, h) == PlainStore(RemovePending(s, x.id, Overwritten), h)
  {
    assert (s.pending - {x.id})[x.id := x] == s.pending[x.id := x];
    assert (s.where - {y})[x := InPending] == s.where[x := InPending] - {y};
  }

  lemma StorePlaces(s: State, h: nat)
    requires PlacesOk(s) && h in s.subs && s.subs[h].phase.Holding?
    requires forall id :: id in s.pending ==> s.pending[id].id == id
    ensures PlacesOk(StoreItem(s, h))
  {
    var x := s.subs[h].phase.item;
    if x.id in s.pending {
      var y := s.pending[x.id];
      assert Tracked(s, x, Held(h)) && Tracked(s, x, InPending);
      EvictPlaces(s, x.id, Overwritten);
      StoreIsRemoveThenStore(s, h, x, y);
      PlainStorePlaces(RemovePending(s, x.id, Overwritten), h);
    } else {
      PlainStorePlaces(s, h);
    }
  }

  function PlainStore(s: State, h: nat): State
    requires h in s.subs && s.subs[h].phase.Holding?
  {
    var x := s.subs[h].phase.item;
    s.(subs := s.subs[h := s.subs[h].(phase := Gone)], pending := s.pending[x.id := x],
       where := s.where[x := InPending])
  }

  lemma PlainStorePlaces(s: State, h: nat)
    requires PlacesOk(s) && h in s.subs && s.subs[h].phase.Holding? && s.subs[h].phase.item.id !in s.pending
    ensures PlacesOk(PlainStore(s, h))
  {
    var s' := PlainStore(s, h);
    var x := s.subs[h].phase.item;
    forall y, p ensures Moved(s, s', x, Held(h), Some(InPending), y, p) {}
    MovePlaces(s, s', x, Held(h), InPending);
  }

  lemma TakePlaces(s: State, o: nat, args: BuildArgs, doc: Result<Document, B.BuildError>)
    requires PlacesOk(s) && o !in s.outs && args.taskId in s.pending && s.pending[args.taskId].id == args.taskId
    ensures PlacesOk(TakePending(s, o, args, doc))
  {
    var s' := TakePending(s, o, args, doc);
    var x := s.pending[args.taskId];
    forall y, p ensures Moved(s, s', x, InPending, Some(InOutcome(o)), y, p) {}
    MovePlaces(s, s', x, InPending, InOutcome(o));
  }

  lemma EvictPlaces(s: State, id: string, f: Fate)
    requires PlacesOk(s) && id in s.pending && s.pending[id].id == id
    ensures PlacesOk(RemovePending(s, id, f))
  {
    var s' := RemovePending(s, id, f);
    var x := s.pending[id];
    forall y, p ensures Moved(s, s', x, InPending, None, y, p) {}
    SettlePlaces(s, s', x, InPending, f);
  }

  lemma EndOutcomePlaces(s: State, o: nat, f: Fate)
    requires PlacesOk(s) && o in s.outs
    ensures PlacesOk(EndOutcome(s, o, f))
  {
    var s' := EndOutcome(s, o, f);
    var x := s.outs[o].item;
    assert At(s, x, InOutcome(o));
    forall y, p ensures Moved(s, s', x, InOutcome(o), None, y, p) {
      assert Tracked(s, y, p);
    }
    SettlePlaces(s, s', x, InOutcome(o), f);
  }

  lemma PublishPlaces(s: State, o: nat, r: Reply)
    requires PlacesOk(s) && o in s.outs && s.outs[o].Taken? && s.outs[o].doc.Ok?
    ensures PlacesOk(PublishOutcome(s, o, r))
  {
    var s' := PublishOutcome(s, o, r);
    if r == Done {
      forall y, p ensures At(s', y, p) <==> At(s, y, p) {}
      SamePlaces(s, s');
    } else {
      var s1 := s.(events := PublishOutcome(s, o, r).events);
      forall y, p ensures At(s1, y, p) <==> At(s, y, p) {}
      SamePlaces(s, s1);
      EndOutcomePlaces(s1, o, Failed);
    }
  }

  lemma AckPlaces(s: State, o: nat, r: Reply)
    requires PlacesOk(s) && o in s.outs
    ensures PlacesOk(AckOutcome(s, o, r))
  {
    var s1 := Xack(s, s.outs[o].item, r);
    forall y, p ensures At(s1, y, p) <==> At(s, y, p) {}
    SamePlaces(s, s1);
    EndOutcomePlaces(s1, o, if r == Done then Acknowledged else Failed);
  }

  /** Steps that leave subs, pending, outs and the history of places alone. */
  lemma UntouchedPlaces(s: State, s': State)
    requires PlacesOk(s)
    requires s'.subs == s.subs && s'.pending == s.pending && s'.outs == s.outs
    requires s'.where == s.where && s'.fate == s.fate && s'.read == s.read
    ensures PlacesOk(s')
  {
    forall y, p ensures At(s', y, p) <==> At(s, y, p) {}
    SamePlaces(s, s');
  }

  lemma LeavePlaces(s: State, h: nat)
    requires PlacesOk(s) && h in s.subs && s.subs[h].phase.Waiting?
    ensures PlacesOk(LeaveChannel(s, h))
  {
    var s' := LeaveChannel(s, h);
    forall y, p ensures At(s', y, p) <==> At(s, y, p) {}
    SamePlaces(s, s');
  }
}
