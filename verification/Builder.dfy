/** The fluent document builder (pkg/document/builder.go). */
module Builder {
  import opened Wrappers
  import opened Protocol
  import opened FrontMatter
  import opened Documents
  import opened Validator

  datatype TextSlot = IdSlot | FromSlot | ExecIdSlot | TtlSlot | StatusSlot | InReplyToSlot | ThreadIdSlot

  /** One call of the chain. */
  datatype Call =
    | SetText(slot: TextSlot, text: string)
    | SetTo(targets: seq<string>)
    | SetBody(body: seq<byte>)
    | SetField(key: FieldName, value: Value)

  datatype State = State(
    msgType: MessageType, id: string, from: string, to: seq<string>, execId: string, ttl: string,
    status: string, inReplyTo: string, threadId: string, body: seq<byte>,
    extra: map<FieldName, Value>, fieldErr: Option<FieldName>)

  datatype BuildError = ReservedKey(key: FieldName) | NoValidator | Invalid(errs: seq<ValidationError>)

  function Fresh(mt: MessageType): State {
    State(mt, "", "", [], "", "", "", "", "", [], map[], None)
  }

  function Apply(b: State, c: Call): State {
    match c
    case SetText(IdSlot, t) => b.(id := t)
    case SetText(FromSlot, t) => b.(from := t)
    case SetText(ExecIdSlot, t) => b.(execId := t)
    case SetText(TtlSlot, t) => b.(ttl := t)
    case SetText(StatusSlot, t) => b.(status := t)
    case SetText(InReplyToSlot, t) => b.(inReplyTo := t)
    case SetText(ThreadIdSlot, t) => b.(threadId := t)
    case SetTo(ts) => b.(to := ts)
    case SetBody(x) => b.(body := x)
    case SetField(k, v) =>
      if k in ENVELOPE_KEYS then (if b.fieldErr == None then b.(fieldErr := Some(k)) else b)
      else b.(extra := b.extra[k := v])
  }

  function Assemble(b: State, createdAt: string): Document {
    Document(
      Envelope(b.msgType, PROTOCOL_VERSION, b.id, b.from, b.to, createdAt, b.inReplyTo, b.threadId, b.execId,
               b.ttl, b.status, "", ""),
      b.extra, b.body, [])
  }

  /** `loaded` is the default validator: its compiled schemas, or nothing when they do not compile. */
  function BuildResult(b: State, loaded: Option<Schemas>, createdAt: string): Result<Document, BuildError> {
    match b.fieldErr
    case Some(k) => Err(ReservedKey(k))
    case None =>
      var doc := Assemble(b, createdAt);
      if loaded.None? then Err(NoValidator)
      else
        var errs := ValidationErrors(loaded.value, doc);
        if errs == [] then Ok(doc) else Err(Invalid(errs))
  }

  class DocBuilder {
    var msgType: MessageType
    var id: string
    var from: string
    var to: seq<string>
    var execId: string
    var ttl: string
    var status: string
    var inReplyTo: string
    var threadId: string
    var body: seq<byte>
    var extra: map<FieldName, Value>
    var fieldErr: Option<FieldName>

    ghost function View(): State
      reads this
    {
      State(msgType, id, from, to, execId, ttl, status, inReplyTo, threadId, body, extra, fieldErr)
    }

    constructor (mt: MessageType)
      ensures View() == Fresh(mt)
    {
      msgType, id, from, to, execId, ttl := mt, "", "", [], "", "";
      status, inReplyTo, threadId, body, extra, fieldErr := "", "", "", [], map[], None;
    }

    method ID(s: string)
      modifies this
      ensures View() == Apply(old(View()), SetText(IdSlot, s))
    {
      id := s;
    }

    method From(s: string)
      modifies this
      ensures View() == Apply(old(View()), SetText(FromSlot, s))
    {
      from := s;
    }

    method To(targets: seq<string>)
      modifies this
      ensures View() == Apply(old(View()), SetTo(targets))
    {
      to := targets;
    }

    method ExecID(s: string)
      modifies this
      ensures View() == Apply(old(View()), SetText(ExecIdSlot, s))
    {
      execId := s;
    }

    method TTL(s: string)
      modifies this
      ensures View() == Apply(old(View()), SetText(TtlSlot, s))
    {
      ttl := s;
    }

    method Status(s: string)
      modifies this
      ensures View() == Apply(old(View()), SetText(StatusSlot, s))
    {
      status := s;
    }

    method InReplyTo(s: string)
      modifies this
      ensures View() == Apply(old(View()), SetText(InReplyToSlot, s))
    {
      inReplyTo := s;
    }

    method ThreadID(s: string)
      modifies this
      ensures View() == Apply(old(View()), SetText(ThreadIdSlot, s))
    {
      threadId := s;
    }

    method Body(b: seq<byte>)
      modifies this
      ensures View() == Apply(old(View()), SetBody(b))
    {
      body := b;
    }

    method Field(key: FieldName, value: Value)
      modifies this
      ensures View() == Apply(old(View()), SetField(key, value))
    {
      ghost var before := View();
      if key in ENVELOPE_KEYS {
        if fieldErr == None { fieldErr := Some(key); }
        assert View() == if before.fieldErr == None then before.(fieldErr := Some(key)) else before;
        return;
      }
      extra := extra[key := value];
      assert View() == before.(extra := before.extra[key := value]);
    }

    method Build(loaded: Option<Schemas>, createdAt: string) returns (r: Result<Document, BuildError>)
      ensures r == BuildResult(View(), loaded, createdAt)
    {
      if fieldErr.Some? { return Err(ReservedKey(fieldErr.value)); }
      var copied: map<FieldName, Value> := map[];
      var todo := extra.Keys;
      while todo != {}
        invariant todo <= extra.Keys
        invariant copied.Keys == extra.Keys - todo
        invariant forall k :: k in copied ==> k in extra && copied[k] == extra[k]
        decreases |todo|
      {
        var k :| k in todo;
        copied := copied[k := extra[k]];
        todo := todo - {k};
      }
      assert copied == extra;
      var doc := Document(
        Envelope(msgType, PROTOCOL_VERSION, id, from, to, createdAt, inReplyTo, threadId, execId, ttl, status, "", ""),
        copied, body, []);
      if loaded.None? { return Err(NoValidator); }
      var errs := Validate(loaded.value, doc);
      if |errs| > 0 { return Err(Invalid(errs)); }
      return Ok(doc);
    }
  }

  // ---------------------------------------------------------------------
  // Chains of calls
  // ---------------------------------------------------------------------

  function Run(b: State, calls: seq<Call>): State {
    if calls == [] then b else Apply(Run(b, calls[..|calls| - 1]), calls[|calls| - 1])
  }

  datatype Slot = TextOfDoc(slot: TextSlot) | Recipients | BodyBytes | Field(key: FieldName)

  function SlotOf(c: Call): Slot {
    match c
    case SetText(slot, _) => TextOfDoc(slot)
    case SetTo(_) => Recipients
    case SetBody(_) => BodyBytes
    case SetField(k, _) => Field(k)
  }

  predicate IsReserved(c: Call) {
    c.SetField? && c.key in ENVELOPE_KEYS
  }

  /** The last call of the chain that sets `slot`. */
  function LastCall(calls: seq<Call>, slot: Slot): (r: Option<Call>)
    ensures r.Some? ==> SlotOf(r.value) == slot
  {
    if calls == [] then None
    else if SlotOf(calls[|calls| - 1]) == slot then Some(calls[|calls| - 1])
    else LastCall(calls[..|calls| - 1], slot)
  }

  lemma {:induction false} LastCallIsLast(calls: seq<Call>, slot: Slot) returns (i: int)
    ensures LastCall(calls, slot) == None ==> i == -1
    ensures LastCall(calls, slot) != None ==>
              0 <= i < |calls| && LastCall(calls, slot) == Some(calls[i]) && SlotOf(calls[i]) == slot
    ensures forall j :: i < j < |calls| ==> SlotOf(calls[j]) != slot
  {
    if calls == [] {
      i := -1;
    } else if SlotOf(calls[|calls| - 1]) == slot {
      i := |calls| - 1;
    } else {
      i := LastCallIsLast(calls[..|calls| - 1], slot);
    }
  }

  /** The key of the first Field call that used a reserved name. */
  function FirstReserved(calls: seq<Call>): Option<FieldName> {
    if calls == [] then None
    else if IsReserved(calls[0]) then Some(calls[0].key)
    else FirstReserved(calls[1..])
  }

  lemma {:induction false} FirstReservedGrows(calls: seq<Call>, c: Call)
    ensures FirstReserved(calls + [c]) ==
            if FirstReserved(calls).Some? then FirstReserved(calls) else if IsReserved(c) then Some(c.key) else None
  {
    if calls == [] {
      assert calls + [c] == [c];
    } else {
      assert (calls + [c])[1..] == calls[1..] + [c];
      FirstReservedGrows(calls[1..], c);
    }
  }

  lemma {:induction false} FirstReservedNone(calls: seq<Call>)
    ensures FirstReserved(calls).None? <==> forall i :: 0 <= i < |calls| ==> !IsReserved(calls[i])
  {
    if calls != [] && !IsReserved(calls[0]) {
      FirstReservedNone(calls[1..]);
      assert forall i :: 0 < i < |calls| ==> calls[i] == calls[1..][i - 1];
    }
  }

  /** It is the key of a Field call with a reserved name before which there is none. */
  lemma {:induction false} FirstReservedIsFirst(calls: seq<Call>, k: FieldName)
    ensures FirstReserved(calls) == Some(k) <==>
            exists i :: 0 <= i < |calls| && IsReserved(calls[i]) && calls[i].key == k
                        && forall j :: 0 <= j < i ==> !IsReserved(calls[j])
  {
    if calls != [] && !IsReserved(calls[0]) {
      FirstReservedIsFirst(calls[1..], k);
      assert forall i :: 0 < i < |calls| ==> calls[i] == calls[1..][i - 1];
      if FirstReserved(calls) == Some(k) {
        var i :| 0 <= i < |calls[1..]| && IsReserved(calls[1..][i]) && calls[1..][i].key == k
                 && forall j :: 0 <= j < i ==> !IsReserved(calls[1..][j]);
        assert IsReserved(calls[i + 1]);
      }
      if i :| 0 <= i < |calls| && IsReserved(calls[i]) && calls[i].key == k
              && forall j :: 0 <= j < i ==> !IsReserved(calls[j]) {
        assert IsReserved(calls[1..][i - 1]);
        assert forall j :: 0 <= j < i - 1 ==> calls[1..][j] == calls[j + 1];
      }
    }
  }

  function LastText(calls: seq<Call>, slot: TextSlot): string {
    match LastCall(calls, TextOfDoc(slot))
    case Some(c) => c.text
    case None => ""
  }

  function LastTo(calls: seq<Call>): seq<string> {
    match LastCall(calls, Recipients)
    case Some(c) => c.targets
    case None => []
  }

  function LastBody(calls: seq<Call>): seq<byte> {
    match LastCall(calls, BodyBytes)
    case Some(c) => c.body
    case None => []
  }

  /** The keys given to Field, reserved or not. */
  function FieldKeys(calls: seq<Call>): (r: set<FieldName>)
    ensures forall k :: k in r <==> LastCall(calls, Field(k)).Some?
  {
    if calls == [] then {}
    else
      var last := calls[|calls| - 1];
      FieldKeys(calls[..|calls| - 1]) + (if last.SetField? then {last.key} else {})
  }

  /** The payload keys the chain sets, each with the last value given for it. */
  function LastFields(calls: seq<Call>): map<FieldName, Value> {
    map k | k in FieldKeys(calls) - ENVELOPE_KEYS :: LastCall(calls, Field(k)).value.value
  }

  /** Whatever was set, a document is of protocol version v1, unsigned, and of the type the builder was made for. */
  lemma AssembledIsUnsignedV1(b: State, createdAt: string)
    ensures var e := Assemble(b, createdAt).envelope;
            && e.version == "v1" && e.signature == "" && e.signingKeyId == "" && e.msgType == b.msgType
            && e.createdAt == createdAt
  {
  }

  /** The document a chain describes: version v1, the last value of every slot, nothing else. */
  function Described(mt: MessageType, calls: seq<Call>, createdAt: string): Document {
    Document(
      Envelope(mt, PROTOCOL_VERSION, LastText(calls, IdSlot), LastText(calls, FromSlot), LastTo(calls), createdAt,
               LastText(calls, InReplyToSlot), LastText(calls, ThreadIdSlot), LastText(calls, ExecIdSlot),
               LastText(calls, TtlSlot), LastText(calls, StatusSlot), "", ""),
      LastFields(calls), LastBody(calls), [])
  }

  lemma FieldsGrow(calls: seq<Call>, c: Call)
    ensures LastFields(calls + [c]) ==
            if c.SetField? && c.key !in ENVELOPE_KEYS then LastFields(calls)[c.key := c.value] else LastFields(calls)
  {
    var longer := calls + [c];
    assert longer[..|calls|] == calls;
    assert FieldKeys(longer) == FieldKeys(calls) + (if c.SetField? then {c.key} else {});
    assert forall k :: LastCall(longer, Field(k)) ==
                       if c.SetField? && c.key == k then Some(c) else LastCall(calls, Field(k));
  }

  function TextAt(b: State, slot: TextSlot): string {
    match slot
    case IdSlot => b.id
    case FromSlot => b.from
    case ExecIdSlot => b.execId
    case TtlSlot => b.ttl
    case StatusSlot => b.status
    case InReplyToSlot => b.inReplyTo
    case ThreadIdSlot => b.threadId
  }

  lemma {:induction false} RunText(b: State, calls: seq<Call>, slot: TextSlot)
    requires TextAt(b, slot) == ""
    ensures TextAt(Run(b, calls), slot) == LastText(calls, slot)
  {
    if calls != [] { RunText(b, calls[..|calls| - 1], slot); }
  }

  lemma {:induction false} RunToAndBody(mt: MessageType, calls: seq<Call>)
    ensures var b := Run(Fresh(mt), calls); b.msgType == mt && b.to == LastTo(calls) && b.body == LastBody(calls)
  {
    if calls != [] { RunToAndBody(mt, calls[..|calls| - 1]); }
  }

  lemma {:induction false} RunFields(mt: MessageType, calls: seq<Call>)
    ensures Run(Fresh(mt), calls).extra == LastFields(calls)
    ensures Run(Fresh(mt), calls).fieldErr == FirstReserved(calls)
  {
    if calls != [] {
      var init, c := calls[..|calls| - 1], calls[|calls| - 1];
      assert calls == init + [c];
      RunFields(mt, init);
      FieldsGrow(init, c);
      FirstReservedGrows(init, c);
    }
  }

  lemma RunAssemblesDescribed(mt: MessageType, calls: seq<Call>, createdAt: string)
    ensures Assemble(Run(Fresh(mt), calls), createdAt) == Described(mt, calls, createdAt)
  {
    var b := Run(Fresh(mt), calls);
    RunToAndBody(mt, calls);
    RunFields(mt, calls);
    forall slot ensures TextAt(b, slot) == LastText(calls, slot) { RunText(Fresh(mt), calls, slot); }
    AssembleDescribed(b, mt, calls, createdAt);
  }

  lemma AssembleDescribed(b: State, mt: MessageType, calls: seq<Call>, createdAt: string)
    requires b.msgType == mt && b.to == LastTo(calls) && b.body == LastBody(calls) && b.extra == LastFields(calls)
    requires forall slot :: TextAt(b, slot) == LastText(calls, slot)
    ensures Assemble(b, createdAt) == Described(mt, calls, createdAt)
  {
    assert TextAt(b, IdSlot) == b.id && TextAt(b, FromSlot) == b.from && TextAt(b, ExecIdSlot) == b.execId;
    assert TextAt(b, TtlSlot) == b.ttl && TextAt(b, StatusSlot) == b.status;
    assert TextAt(b, InReplyToSlot) == b.inReplyTo && TextAt(b, ThreadIdSlot) == b.threadId;
  }

  /**
   * For every chain of calls: Build succeeds exactly when no Field call used a reserved
   * key and the described document validates, and then returns that document; a
   * reserved-key failure names the first offending key.
   */
  lemma BuildOfChain(mt: MessageType, calls: seq<Call>, loaded: Option<Schemas>, createdAt: string)
    ensures var r := BuildResult(Run(Fresh(mt), calls), loaded, createdAt);
            && (r.Ok? <==> (forall i :: 0 <= i < |calls| ==> !IsReserved(calls[i]))
                           && loaded.Some? && Accepted(loaded.value, Described(mt, calls, createdAt)))
            && (r.Ok? ==> r.value == Described(mt, calls, createdAt))
            && (forall k :: FirstReserved(calls) == Some(k) <==> r == Err(ReservedKey(k)))
            && (r == Err(NoValidator) <==> FirstReserved(calls).None? && loaded.None?)
            && (r.Err? && r.error.Invalid? ==>
                  r.error.errs == ValidationErrors(loaded.value, Described(mt, calls, createdAt)) != [])
  {
    RunAssemblesDescribed(mt, calls, createdAt);
    RunFields(mt, calls);
    FirstReservedNone(calls);
  }

  /** One call of a chain, made on the builder object. */
  method Make(b: DocBuilder, c: Call)
    modifies b
    ensures b.View() == Apply(old(b.View()), c)
  {
    match c
    case SetText(IdSlot, t) => b.ID(t);
    case SetText(FromSlot, t) => b.From(t);
    case SetText(ExecIdSlot, t) => b.ExecID(t);
    case SetText(TtlSlot, t) => b.TTL(t);
    case SetText(StatusSlot, t) => b.Status(t);
    case SetText(InReplyToSlot, t) => b.InReplyTo(t);
    case SetText(ThreadIdSlot, t) => b.ThreadID(t);
    case SetTo(ts) => b.To(ts);
    case SetBody(x) => b.Body(x);
    case SetField(k, v) => b.Field(k, v);
  }

  /** Any chain of calls on a new builder, ending in Build. */
  method BuildByChain(mt: MessageType, calls: seq<Call>, loaded: Option<Schemas>, createdAt: string)
    returns (r: Result<Document, BuildError>)
    ensures r.Ok? <==> (forall i :: 0 <= i < |calls| ==> !IsReserved(calls[i]))
                       && loaded.Some? && Accepted(loaded.value, Described(mt, calls, createdAt))
    ensures r.Ok? ==> r.value == Described(mt, calls, createdAt)
    ensures forall k :: FirstReserved(calls) == Some(k) <==> r == Err(ReservedKey(k))
  {
    var b := new DocBuilder(mt);
    for i := 0 to |calls|
      invariant b.View() == Run(Fresh(mt), calls[..i])
    {
      assert calls[..i + 1][..i] == calls[..i];
      Make(b, calls[i]);
    }
    assert calls[..|calls|] == calls;
    r := b.Build(loaded, createdAt);
    BuildOfChain(mt, calls, loaded, createdAt);
  }

  /** A built document emits no header key twice and has every field its type requires. */
  lemma BuiltDocumentsAreSound(mt: MessageType, calls: seq<Call>, loaded: Option<Schemas>, createdAt: string)
    requires BuildResult(Run(Fresh(mt), calls), loaded, createdAt).Ok?
    ensures var doc := BuildResult(Run(Fresh(mt), calls), loaded, createdAt).value;
            && doc.extra.Keys !! ENVELOPE_KEYS
            && (forall k :: KeyCount(doc, k) <= 1)
            && doc.envelope.version == "v1" && doc.envelope.createdAt == createdAt && doc.envelope.signature == ""
            && Lookup(mt).Some?
            && (forall f :: f in Lookup(mt).value.requiredFields ==> DocHasField(doc, f))
  {
    BuildOfChain(mt, calls, loaded, createdAt);
    var doc := Described(mt, calls, createdAt);
    AcceptedExactlyWhen(loaded.value, doc);
    DuplicateKeysComeFromShadowing(doc);
  }

  // ---------------------------------------------------------------------
  // The outcome documents of complete_task and fail_task
  // ---------------------------------------------------------------------

  datatype Outcome = Completed | Failed

  function OutcomeType(o: Outcome): MessageType {
    if o == Completed then TaskResult else TaskFail
  }

  function OutcomeStep(o: Outcome): Value {
    if o == Completed then Text("result") else Text("fail")
  }

  /** A completed task's outcome is a result, a failed one's a failure, and each says so as its only payload. */
  predicate IsOutcome(o: Outcome, doc: Document) {
    match o
    case Completed => doc.envelope.msgType == TaskResult && doc.extra == map[Step := Text("result")]
    case Failed => doc.envelope.msgType == TaskFail && doc.extra == map[Step := Text("fail")]
  }

  /** Completion and failure are told apart by type and by step. */
  lemma OutcomeKinds()
    ensures OutcomeType(Completed) == TaskResult && OutcomeStep(Completed) == Text("result")
    ensures OutcomeType(Failed) == TaskFail && OutcomeStep(Failed) == Text("fail")
  {
  }

  function OutcomeState(o: Outcome, docId: string, gateway: string, agent: string, taskId: string,
                        body: seq<byte>): State {
    var b0 := Apply(Fresh(OutcomeType(o)), SetText(IdSlot, docId));
    var b1 := Apply(b0, SetText(FromSlot, gateway));
    var b2 := Apply(b1, SetTo([agent]));
    var b3 := Apply(b2, SetText(ExecIdSlot, taskId));
    var b4 := Apply(b3, SetField(Step, OutcomeStep(o)));
    var b5 := Apply(b4, SetText(InReplyToSlot, taskId));
    Apply(b5, SetBody(body))
  }

  function OutcomeDoc(o: Outcome, docId: string, gateway: string, agent: string, taskId: string, body: seq<byte>,
                      createdAt: string): Document {
    Assemble(OutcomeState(o, docId, gateway, agent, taskId, body), createdAt)
  }

  method BuildOutcome(o: Outcome, docId: string, gateway: string, agent: string, taskId: string, body: seq<byte>,
                      loaded: Option<Schemas>, createdAt: string) returns (r: Result<Document, BuildError>)
    ensures r == BuildResult(OutcomeState(o, docId, gateway, agent, taskId, body), loaded, createdAt)
  {
    var b := new DocBuilder(OutcomeType(o));
    b.ID(docId);
    b.From(gateway);
    b.To([agent]);
    b.ExecID(taskId);
    b.Field(Step, OutcomeStep(o));
    b.InReplyTo(taskId);
    b.Body(body);
    r := b.Build(loaded, createdAt);
  }

  lemma OutcomeStateIs(o: Outcome, docId: string, gateway: string, agent: string, taskId: string, body: seq<byte>)
    ensures OutcomeState(o, docId, gateway, agent, taskId, body) ==
            State(OutcomeType(o), docId, gateway, [agent], taskId, "", "", taskId, "", body,
                  map[Step := OutcomeStep(o)], None)
  {
  }

  lemma TaskFields(doc: Document)
    ensures Missing(doc, TASK_FIELDS) == [] <==>
            DocHasField(doc, Id) && DocHasField(doc, From) && DocHasField(doc, To) && DocHasField(doc, ExecId)
            && DocHasField(doc, Step)
  {
    assert forall f :: f in TASK_FIELDS <==> f == Id || f == From || f == To || f == ExecId || f == Step;
  }

  lemma OutcomeStructure(o: Outcome, doc: Document)
    requires doc.envelope.msgType == OutcomeType(o) && doc.envelope.version == PROTOCOL_VERSION
    ensures StructuralErrors(doc) == Missing(doc, TASK_FIELDS)
  {
    assert |PROTOCOL_VERSION| == 2;
    assert Lookup(OutcomeType(o)) == Some(TypeMeta(TASK_FIELDS, ""));
    assert StructuralErrors(doc) == [] + Missing(doc, TASK_FIELDS);
  }

  lemma OutcomeErrors(o: Outcome, schemas: Schemas, doc: Document)
    requires doc.envelope.msgType == OutcomeType(o) && doc.envelope.version == PROTOCOL_VERSION
    ensures ValidationErrors(schemas, doc) == Missing(doc, TASK_FIELDS)
  {
    OutcomeStructure(o, doc);
    assert SchemaErrors(schemas, doc) == [] && SemanticErrors(doc) == [];
  }

  lemma OutcomeMissing(o: Outcome, doc: Document, docId: string, gateway: string, taskId: string)
    requires doc.envelope.id == docId && doc.envelope.from == gateway && doc.envelope.execId == taskId
             && doc.envelope.to != []
    requires doc.extra == map[Step := OutcomeStep(o)]
    ensures Missing(doc, TASK_FIELDS) == [] <==> docId != "" && gateway != "" && taskId != ""
  {
    TaskFields(doc);
    assert |OutcomeStep(o).text| > 0;
  }

  /** An outcome document builds exactly when the validator is there and no identifier is empty. */
  lemma OutcomeBuildsExactlyWhen(o: Outcome, docId: string, gateway: string, agent: string, taskId: string,
                                 body: seq<byte>, loaded: Option<Schemas>, createdAt: string)
    ensures var r := BuildResult(OutcomeState(o, docId, gateway, agent, taskId, body), loaded, createdAt);
            && (r.Ok? <==> loaded.Some? && docId != "" && gateway != "" && taskId != "")
            && (r.Ok? ==> && r.value == OutcomeDoc(o, docId, gateway, agent, taskId, body, createdAt)
                          && IsOutcome(o, r.value)
                          && r.value.envelope.execId == taskId && r.value.envelope.inReplyTo == taskId
                          && r.value.envelope.id == docId && r.value.envelope.from == gateway
                          && r.value.envelope.to == [agent] && r.value.body == body)
  {
    OutcomeStateIs(o, docId, gateway, agent, taskId, body);
    var b := OutcomeState(o, docId, gateway, agent, taskId, body);
    BuildOfOutcome(o, b, gateway, agent, taskId, loaded, createdAt);
  }

  lemma BuildOfOutcome(o: Outcome, b: State, gateway: string, agent: string, taskId: string,
                       loaded: Option<Schemas>, createdAt: string)
    requires b == State(OutcomeType(o), b.id, gateway, [agent], taskId, "", "", taskId, "", b.body,
                        map[Step := OutcomeStep(o)], None)
    ensures var r := BuildResult(b, loaded, createdAt);
            && (r.Ok? <==> loaded.Some? && b.id != "" && gateway != "" && taskId != "")
            && (r.Ok? ==> r.value == Assemble(b, createdAt))
  {
    if loaded.Some? {
      var doc := Assemble(b, createdAt);
      OutcomeErrors(o, loaded.value, doc);
      OutcomeMissing(o, doc, b.id, gateway, taskId);
    }
  }
}
