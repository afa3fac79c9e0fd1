/** Three-layer document validation (pkg/document/validator.go). */
module Validator {
  import opened Wrappers
  import opened Protocol
  import opened Documents
  import Lifecycle

  datatype ValidationError =
    // structural layer
    | MissingField(field: FieldName)
    | UnknownType(msgType: MessageType)
    // schema layer
    | SchemaError(text: string)
    // semantic layer
    | TargetRequired
    | SelfAction(agent: string)
    | StatusesRequired
    | IllegalTransition(from: string, to: string)

  /** The compiled JSON schemas: an uninterpreted check of a document. */
  type Schemas = Document -> seq<ValidationError>

  /** Whether a field is non-empty in the envelope or, failing that, in Extra. */
  predicate DocHasField(doc: Document, field: FieldName) {
    var e := doc.envelope;
    match field
    case Type => e.msgType != Unregistered("")
    case Version => e.version != ""
    case Id => e.id != ""
    case From => e.from != ""
    case To => e.to != []
    case CreatedAt => e.createdAt != ""
    case InReplyTo => e.inReplyTo != ""
    case ThreadId => e.threadId != ""
    case ExecId => e.execId != ""
    case Status => e.status != ""
    case _ => field in doc.extra && doc.extra[field] != Text("") && doc.extra[field] != Null
  }

  /** The missing fields among `fields`, in order. */
  function Missing(doc: Document, fields: seq<FieldName>): (r: seq<ValidationError>)
    ensures r == [] <==> forall f :: f in fields ==> DocHasField(doc, f)
  {
    if fields == [] then []
    else
      var init, last := fields[..|fields| - 1], fields[|fields| - 1];
      assert fields == init + [last];
      Missing(doc, init) + (if DocHasField(doc, last) then [] else [MissingField(last)])
  }

  function StructuralErrors(doc: Document): seq<ValidationError> {
    var mt := doc.envelope.msgType;
    if mt == Unregistered("") then [MissingField(Type)]
    else
      (if doc.envelope.version == "" then [MissingField(Version)] else []) + TypeErrors(doc, Lookup(mt))
  }

  /** What the registry entry of the document's type demands. */
  function TypeErrors(doc: Document, meta: Option<TypeMeta>): seq<ValidationError> {
    if meta.None? then [UnknownType(doc.envelope.msgType)] else Missing(doc, meta.value.requiredFields)
  }

  /** The loop over a type's required fields. */
  method CollectMissing(doc: Document, fields: seq<FieldName>) returns (errs: seq<ValidationError>)
    ensures errs == Missing(doc, fields)
  {
    errs := [];
    for i := 0 to |fields|
      invariant errs == Missing(doc, fields[..i])
    {
      assert fields[..i + 1][..i] == fields[..i];
      if !DocHasField(doc, fields[i]) { errs := errs + [MissingField(fields[i])]; }
    }
    assert fields[..|fields|] == fields;
  }

  method ValidateStructural(doc: Document) returns (errs: seq<ValidationError>)
    ensures errs == StructuralErrors(doc)
  {
    errs := [];
    var mt := doc.envelope.msgType;
    if mt == Unregistered("") { return [MissingField(Type)]; }
    if doc.envelope.version == "" { errs := errs + [MissingField(Version)]; }
    var more := ValidateType(doc, Lookup(mt));
    errs := errs + more;
  }

  method ValidateType(doc: Document, meta: Option<TypeMeta>) returns (errs: seq<ValidationError>)
    ensures errs == TypeErrors(doc, meta)
  {
    if meta.None? { return [UnknownType(doc.envelope.msgType)]; }
    errs := CollectMissing(doc, meta.value.requiredFields);
  }

  function SchemaErrors(schemas: Schemas, doc: Document): seq<ValidationError> {
    match Lookup(doc.envelope.msgType)
    case Some(meta) => if meta.schemaRef == "" then [] else schemas(doc)
    case None => []
  }

  /** Promotion and rollback: target check first, then both statuses and the table. */
  function TransitionErrors(doc: Document): seq<ValidationError> {
    var target := TextOf(doc, TargetAgent);
    var sender := doc.envelope.from;
    var from, to := TextOf(doc, FromStatus), TextOf(doc, ToStatus);
    (if target == "" then [TargetRequired]
     else if sender != "" && sender == target then [SelfAction(target)]
     else [])
    + (if from == "" || to == "" then [StatusesRequired]
       else if !Lifecycle.ValidTransition(Lifecycle.StateOf(from), Lifecycle.StateOf(to))
       then [IllegalTransition(from, to)]
       else [])
  }

  /** Quarantine and retirement: the table only when from_status is present, then the self check. */
  function TerminalErrors(doc: Document, to: Lifecycle.State, toName: string): seq<ValidationError> {
    var from := TextOf(doc, FromStatus);
    var target := TextOf(doc, TargetAgent);
    var sender := doc.envelope.from;
    (if from != "" && !Lifecycle.ValidTransition(Lifecycle.StateOf(from), to)
     then [IllegalTransition(from, toName)] else [])
    + (if sender != "" && target != "" && sender == target then [SelfAction(target)] else [])
  }

  function SemanticErrors(doc: Document): seq<ValidationError> {
    match doc.envelope.msgType
    case AgentPromotion => TransitionErrors(doc)
    case AgentRollback => TransitionErrors(doc)
    case AgentQuarantine => TerminalErrors(doc, Lifecycle.Quarantined, "quarantined")
    case AgentRetirement => TerminalErrors(doc, Lifecycle.Retired, "retired")
    case _ => []
  }

  function ValidationErrors(schemas: Schemas, doc: Document): seq<ValidationError> {
    var structural := StructuralErrors(doc);
    if structural != [] then structural else SchemaErrors(schemas, doc) + SemanticErrors(doc)
  }

  method Validate(schemas: Schemas, doc: Document) returns (errs: seq<ValidationError>)
    ensures errs == ValidationErrors(schemas, doc)
  {
    var structural := ValidateStructural(doc);
    if |structural| > 0 { return structural; }
    errs := [];
    errs := errs + SchemaErrors(schemas, doc);
    errs := errs + SemanticErrors(doc);
  }

  predicate Accepted(schemas: Schemas, doc: Document) {
    ValidationErrors(schemas, doc) == []
  }

  /** What acceptance means, field by field and layer by layer. */
  lemma AcceptedExactlyWhen(schemas: Schemas, doc: Document)
    ensures Accepted(schemas, doc) <==>
            && Lookup(doc.envelope.msgType).Some?
            && doc.envelope.version != ""
            && (forall f :: f in Lookup(doc.envelope.msgType).value.requiredFields ==> DocHasField(doc, f))
            && SchemaErrors(schemas, doc) == []
            && SemanticErrors(doc) == []
  {
    var mt := doc.envelope.msgType;
    if Lookup(mt).Some? {
      var missing := Missing(doc, Lookup(mt).value.requiredFields);
      var versionErr := if doc.envelope.version == "" then [MissingField(Version)] else [];
      assert StructuralErrors(doc) == versionErr + missing;
      assert StructuralErrors(doc) == [] <==> versionErr == [] && missing == [];
    }
    assert SchemaErrors(schemas, doc) + SemanticErrors(doc) == []
           <==> SchemaErrors(schemas, doc) == [] && SemanticErrors(doc) == [];
  }

  // ---------------------------------------------------------------------
  // What each layer accepts and reports, in terms of the document's fields
  // ---------------------------------------------------------------------

  /** Extra holds this string under the name. */
  predicate HasText(doc: Document, name: FieldName, text: string) {
    name in doc.extra && doc.extra[name] == Text(text)
  }

  /** A required envelope field is there when it is written; any other when Extra holds something but "" and null. */
  lemma FieldIsThereWhenWritten(doc: Document, f: FieldName)
    ensures f in {Id, From, To, CreatedAt, InReplyTo, ThreadId, ExecId, Status} ==>
              (DocHasField(doc, f) <==> Emits(doc.envelope, f))
    ensures DocHasField(doc, Type) <==> doc.envelope.msgType != Unregistered("")
    ensures DocHasField(doc, Version) <==> doc.envelope.version != ""
    ensures f !in {Type, Version, Id, From, To, CreatedAt, InReplyTo, ThreadId, ExecId, Status} ==>
              (DocHasField(doc, f) <==> f in doc.extra && !HasText(doc, f, "") && doc.extra[f] != Null)
  {
  }

  lemma {:induction false} MissingReports(doc: Document, fields: seq<FieldName>, e: ValidationError)
    ensures e in Missing(doc, fields) <==> e.MissingField? && e.field in fields && !DocHasField(doc, e.field)
  {
    if fields != [] {
      var init, last := fields[..|fields| - 1], fields[|fields| - 1];
      assert fields == init + [last];
      MissingReports(doc, init, e);
    }
  }

  /** Missing fields are reported in the order of the list, each as often as it is listed. */
  lemma {:induction false} MissingInOrder(doc: Document, first: seq<FieldName>, second: seq<FieldName>)
    ensures Missing(doc, first + second) == Missing(doc, first) + Missing(doc, second)
    ensures |first| == 1 ==> Missing(doc, first) == if DocHasField(doc, first[0]) then [] else [MissingField(first[0])]
    decreases |second|
  {
    if second == [] {
      assert first + second == first;
    } else {
      var init := second[..|second| - 1];
      assert (first + second)[..|first + second| - 1] == first + init;
      MissingInOrder(doc, first, init);
    }
    if |first| == 1 { assert first[..0] == []; }
  }

  /** The structural layer reports an empty type alone; else a missing version, an unknown type, each missing field. */
  lemma StructuralReports(doc: Document, e: ValidationError)
    ensures doc.envelope.msgType == Unregistered("") ==> StructuralErrors(doc) == [MissingField(Type)]
    ensures doc.envelope.msgType != Unregistered("") ==>
              (e in StructuralErrors(doc) <==>
                 || (e == MissingField(Version) && doc.envelope.version == "")
                 || (e == UnknownType(doc.envelope.msgType) && doc.envelope.msgType.Unregistered?)
                 || (e.MissingField? && e.field in Needs(doc.envelope.msgType) && !DocHasField(doc, e.field)))
  {
    var mt := doc.envelope.msgType;
    if mt != Unregistered("") {
      TypeReports(doc, mt, e);
      var versionErr := if doc.envelope.version == "" then [MissingField(Version)] else [];
      assert StructuralErrors(doc) == versionErr + TypeErrors(doc, Lookup(mt));
    }
  }

  lemma TypeReports(doc: Document, mt: MessageType, e: ValidationError)
    requires mt == doc.envelope.msgType
    ensures e in TypeErrors(doc, Lookup(mt)) <==>
            || (e == UnknownType(mt) && mt.Unregistered?)
            || (e.MissingField? && e.field in Needs(mt) && !DocHasField(doc, e.field))
  {
    RegistryByFamily(mt, Type);
    if Lookup(mt).Some? {
      MissingReports(doc, Lookup(mt).value.requiredFields, e);
      if e.MissingField? { RegistryByFamily(mt, e.field); }
    }
  }

  /** Structural errors hide the other layers; without them every error of both is reported, the schema's first. */
  lemma LayersReport(schemas: Schemas, doc: Document, e: ValidationError)
    ensures StructuralErrors(doc) != [] ==> ValidationErrors(schemas, doc) == StructuralErrors(doc)
    ensures StructuralErrors(doc) == [] ==>
              (e in ValidationErrors(schemas, doc) <==>
                 || (e in schemas(doc) && Lookup(doc.envelope.msgType).Some?
                     && Lookup(doc.envelope.msgType).value.schemaRef != "")
                 || e in SemanticErrors(doc))
    ensures StructuralErrors(doc) == [] ==> SchemaErrors(schemas, doc) <= ValidationErrors(schemas, doc)
  {
  }

  /** Structure and schema are fine. */
  ghost predicate WellStructured(schemas: Schemas, doc: Document) {
    StructuralErrors(doc) == [] && SchemaErrors(schemas, doc) == []
  }

  /** A promotion or rollback names a target other than its sender, and a step of the table. */
  ghost predicate SoundTransition(doc: Document) {
    && (exists target :: HasText(doc, TargetAgent, target) && target != "" && target != doc.envelope.from)
    && (exists from, to :: HasText(doc, FromStatus, from) && HasText(doc, ToStatus, to) && from != "" && to != ""
                           && Lifecycle.StateOf(from) in Lifecycle.EnteredFrom(Lifecycle.StateOf(to)))
  }

  /** A quarantine or retirement does not name its sender, nor a status the table does not let into `to`. */
  ghost predicate SoundTermination(doc: Document, to: Lifecycle.State) {
    && !HasText(doc, TargetAgent, doc.envelope.from)
    && (forall from :: HasText(doc, FromStatus, from) && from != "" ==>
          Lifecycle.StateOf(from) in Lifecycle.EnteredFrom(to))
  }

  lemma WellStructuredHasSender(schemas: Schemas, doc: Document)
    requires WellStructured(schemas, doc) && From in Needs(doc.envelope.msgType)
    ensures doc.envelope.from != ""
  {
    RegistryByFamily(doc.envelope.msgType, From);
    StructuralReports(doc, MissingField(From));
  }

  /** Accepted promotions and rollbacks, exactly. */
  lemma TransitionAcceptedExactlyWhen(schemas: Schemas, doc: Document)
    requires doc.envelope.msgType == AgentPromotion || doc.envelope.msgType == AgentRollback
    ensures Accepted(schemas, doc) <==> WellStructured(schemas, doc) && SoundTransition(doc)
  {
    var from, to, target := TextOf(doc, FromStatus), TextOf(doc, ToStatus), TextOf(doc, TargetAgent);
    Lifecycle.AllowedExactlyWhenEnteredFrom(Lifecycle.StateOf(from), Lifecycle.StateOf(to));
    assert from != "" ==> HasText(doc, FromStatus, from);
    assert to != "" ==> HasText(doc, ToStatus, to);
    assert target != "" ==> HasText(doc, TargetAgent, target);
    if WellStructured(schemas, doc) { WellStructuredHasSender(schemas, doc); }
    assert Accepted(schemas, doc) <==> WellStructured(schemas, doc) && TransitionErrors(doc) == [];
  }

  /** Accepted quarantines and retirements, exactly: in particular no agent quarantines or retires itself. */
  lemma TerminationAcceptedExactlyWhen(schemas: Schemas, doc: Document)
    ensures doc.envelope.msgType == AgentQuarantine ==>
              (Accepted(schemas, doc) <==> WellStructured(schemas, doc) && SoundTermination(doc, Lifecycle.Quarantined))
    ensures doc.envelope.msgType == AgentRetirement ==>
              (Accepted(schemas, doc) <==> WellStructured(schemas, doc) && SoundTermination(doc, Lifecycle.Retired))
  {
    if doc.envelope.msgType == AgentQuarantine {
      SoundExactlyWhen(schemas, doc, Lifecycle.Quarantined, "quarantined");
    } else if doc.envelope.msgType == AgentRetirement {
      SoundExactlyWhen(schemas, doc, Lifecycle.Retired, "retired");
    }
  }

  lemma SoundExactlyWhen(schemas: Schemas, doc: Document, to: Lifecycle.State, toName: string)
    requires From in Needs(doc.envelope.msgType)
    ensures WellStructured(schemas, doc) ==> (TerminalErrors(doc, to, toName) == [] <==> SoundTermination(doc, to))
  {
    var from, target := TextOf(doc, FromStatus), TextOf(doc, TargetAgent);
    Lifecycle.AllowedExactlyWhenEnteredFrom(Lifecycle.StateOf(from), to);
    assert from != "" ==> HasText(doc, FromStatus, from);
    assert forall t :: HasText(doc, FromStatus, t) ==> t == from;
    assert HasText(doc, TargetAgent, doc.envelope.from) ==> target == doc.envelope.from;
    if WellStructured(schemas, doc) { WellStructuredHasSender(schemas, doc); }
  }

  /** All other documents are accepted exactly when structure and schema are fine. */
  lemma OthersAcceptedExactlyWhen(schemas: Schemas, doc: Document)
    requires doc.envelope.msgType !in {AgentPromotion, AgentRollback, AgentQuarantine, AgentRetirement}
    ensures Accepted(schemas, doc) <==> WellStructured(schemas, doc)
  {
  }

  /** What the semantic layer reports of a promotion or rollback. */
  lemma TransitionReports(doc: Document, e: ValidationError)
    requires doc.envelope.msgType == AgentPromotion || doc.envelope.msgType == AgentRollback
    ensures var from, to, target := TextOf(doc, FromStatus), TextOf(doc, ToStatus), TextOf(doc, TargetAgent);
            e in SemanticErrors(doc) <==>
              || (e == TargetRequired && target == "")
              || (e == SelfAction(doc.envelope.from) && target != "" && target == doc.envelope.from)
              || (e == StatusesRequired && (from == "" || to == ""))
              || (e == IllegalTransition(from, to) && from != "" && to != ""
                  && Lifecycle.StateOf(from) !in Lifecycle.EnteredFrom(Lifecycle.StateOf(to)))
    ensures var errs := SemanticErrors(doc);
            |errs| <= 2 && (|errs| == 2 ==> errs[0].TargetRequired? || errs[0].SelfAction?)
  {
    var from, to := TextOf(doc, FromStatus), TextOf(doc, ToStatus);
    Lifecycle.AllowedExactlyWhenEnteredFrom(Lifecycle.StateOf(from), Lifecycle.StateOf(to));
    assert SemanticErrors(doc) == TransitionErrors(doc);
  }

  /** What it reports of a quarantine or retirement. */
  lemma TerminationReports(doc: Document, e: ValidationError)
    requires doc.envelope.msgType == AgentQuarantine || doc.envelope.msgType == AgentRetirement
    ensures var from, target := TextOf(doc, FromStatus), TextOf(doc, TargetAgent);
            var to := if doc.envelope.msgType == AgentQuarantine then "quarantined" else "retired";
            e in SemanticErrors(doc) <==>
              || (e == SelfAction(doc.envelope.from) && target != "" && target == doc.envelope.from)
              || (e == IllegalTransition(from, to) && from != ""
                  && Lifecycle.StateOf(from) !in Lifecycle.EnteredFrom(Lifecycle.StateOf(to)))
    ensures var errs := SemanticErrors(doc); |errs| <= 2 && (|errs| == 2 ==> errs[0].IllegalTransition?)
  {
    var from := TextOf(doc, FromStatus);
    var quarantine := doc.envelope.msgType == AgentQuarantine;
    var state := if quarantine then Lifecycle.Quarantined else Lifecycle.Retired;
    Lifecycle.AllowedExactlyWhenEnteredFrom(Lifecycle.StateOf(from), state);
    Lifecycle.NameIsItsOwn(state);
    assert SemanticErrors(doc) == TerminalErrors(doc, state, if quarantine then "quarantined" else "retired");
  }

  /** A text is what Extra holds as a string under the name, and "" when it holds none. */
  lemma TextOfIsWhatExtraHolds(doc: Document, name: FieldName, text: string)
    ensures text != "" ==> (TextOf(doc, name) == text <==> HasText(doc, name, text))
    ensures TextOf(doc, name) == "" <==> HasText(doc, name, "") || forall t :: !HasText(doc, name, t)
  {
    assert TextOf(doc, name) != "" ==> HasText(doc, name, TextOf(doc, name));
  }

  // ---------------------------------------------------------------------
  // Chains of accepted governance documents trace legal lifecycle runs
  // ---------------------------------------------------------------------

  predicate IsTransition(doc: Document) {
    doc.envelope.msgType == AgentPromotion || doc.envelope.msgType == AgentRollback
  }

  /** Accepted promotions and rollbacks, each starting from the status the previous one set. */
  ghost predicate AcceptedChain(schemas: Schemas, docs: seq<Document>) {
    && docs != []
    && (forall i :: 0 <= i < |docs| ==> IsTransition(docs[i]) && Accepted(schemas, docs[i]))
    && (forall i :: 0 < i < |docs| ==> TextOf(docs[i], FromStatus) == TextOf(docs[i - 1], ToStatus))
  }

  /** The states the chain passes through. */
  function Trace(docs: seq<Document>): (r: seq<Lifecycle.State>)
    requires docs != []
    ensures |r| == |docs| + 1
  {
    [Lifecycle.StateOf(TextOf(docs[0], FromStatus))]
    + seq(|docs|, i requires 0 <= i < |docs| => Lifecycle.StateOf(TextOf(docs[i], ToStatus)))
  }

  lemma AcceptedTransition(schemas: Schemas, doc: Document)
    requires IsTransition(doc) && Accepted(schemas, doc)
    ensures var from, to := TextOf(doc, FromStatus), TextOf(doc, ToStatus);
            Lifecycle.ValidTransition(Lifecycle.StateOf(from), Lifecycle.StateOf(to))
    ensures doc.envelope.from != "" && TextOf(doc, TargetAgent) != "" && doc.envelope.from != TextOf(doc, TargetAgent)
  {
    TransitionAcceptedExactlyWhen(schemas, doc);
    WellStructuredHasSender(schemas, doc);
    var from, to := TextOf(doc, FromStatus), TextOf(doc, ToStatus);
    Lifecycle.AllowedExactlyWhenEnteredFrom(Lifecycle.StateOf(from), Lifecycle.StateOf(to));
  }

  lemma ChainIsLegal(schemas: Schemas, docs: seq<Document>)
    requires AcceptedChain(schemas, docs)
    ensures Lifecycle.Legal(Trace(docs))
    ensures forall d :: d in docs ==> d.envelope.from != TextOf(d, TargetAgent)
  {
    var run := Trace(docs);
    forall i | 0 <= i < |run| - 1 ensures Lifecycle.ValidTransition(run[i], run[i + 1]) {
      AcceptedTransition(schemas, docs[i]);
    }
    forall d | d in docs ensures d.envelope.from != TextOf(d, TargetAgent) {
      AcceptedTransition(schemas, d);
    }
  }

  /** A chain that takes an agent from proposed into service climbs the ladder rung by rung. */
  lemma ChainIntoService(schemas: Schemas, docs: seq<Document>, i: nat)
    requires AcceptedChain(schemas, docs)
    requires Lifecycle.StateOf(TextOf(docs[0], FromStatus)) == Lifecycle.Proposed
    requires i <= |docs| && Lifecycle.InService(Trace(docs)[i])
    ensures |docs| >= 4
    ensures Trace(docs)[..5] ==
            [Lifecycle.Proposed, Lifecycle.ApprovedForSandbox, Lifecycle.Sandbox, Lifecycle.Candidate, Lifecycle.Active]
  {
    ChainIsLegal(schemas, docs);
    Lifecycle.ActiveRunsTookTheLadder(Trace(docs), i);
  }
}
