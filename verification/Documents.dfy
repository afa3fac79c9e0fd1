/** Envelope documents (pkg/document/types.go). */
module Documents {
  import opened Protocol
  import opened FrontMatter

  /** A header value: a string, null, or anything else YAML can hold. */
  datatype Value = Text(text: string) | Null | Other(repr: string)

  datatype Envelope = Envelope(
    msgType: MessageType, version: string, id: string, from: string, to: seq<string>,
    createdAt: string, inReplyTo: string, threadId: string, execId: string,
    ttl: string, status: string, signature: string, signingKeyId: string)

  datatype Document = Document(envelope: Envelope, extra: map<FieldName, Value>, body: seq<byte>, raw: seq<byte>)

  /** The names claimed by Envelope, which Extra must not carry. */
  const ENVELOPE_KEYS: set<FieldName> :=
    {Type, Version, Id, From, To, CreatedAt, InReplyTo, ThreadId, ExecId, Ttl, Status, Signature, SigningKeyId}

  /** Extra[name].(string), with "" when the key is absent or not a string. */
  function TextOf(doc: Document, name: FieldName): string {
    if name in doc.extra && doc.extra[name].Text? then doc.extra[name].text else ""
  }

  /** Whether an envelope name reaches the YAML header: type and version always, others when non-empty. */
  predicate Emits(e: Envelope, f: FieldName) {
    match f
    case Type => true
    case Version => true
    case Id => e.id != ""
    case From => e.from != ""
    case To => e.to != []
    case CreatedAt => e.createdAt != ""
    case InReplyTo => e.inReplyTo != ""
    case ThreadId => e.threadId != ""
    case ExecId => e.execId != ""
    case Ttl => e.ttl != ""
    case Status => e.status != ""
    case Signature => e.signature != ""
    case SigningKeyId => e.signingKeyId != ""
    case _ => false
  }

  /** The envelope with one of its own fields emptied; type and version are always written. */
  function Without(e: Envelope, f: FieldName): Envelope {
    match f
    case Id => e.(id := "")
    case From => e.(from := "")
    case To => e.(to := [])
    case CreatedAt => e.(createdAt := "")
    case InReplyTo => e.(inReplyTo := "")
    case ThreadId => e.(threadId := "")
    case ExecId => e.(execId := "")
    case Ttl => e.(ttl := "")
    case Status => e.(status := "")
    case Signature => e.(signature := "")
    case SigningKeyId => e.(signingKeyId := "")
    case _ => e
  }

  /** Besides type and version, a name is written exactly when emptying its field changes the envelope. */
  lemma EmitsExactlyTheSetFields(e: Envelope, f: FieldName)
    ensures Emits(e, f) <==> f == Type || f == Version || Without(e, f) != e
  {
  }

  /** The reserved names are exactly those some envelope writes. */
  lemma ReservedExactlyWhenEmitted(f: FieldName)
    ensures f in ENVELOPE_KEYS <==> exists e: Envelope :: Emits(e, f)
  {
    var full := Envelope(Unregistered("t"), "v", "i", "f", ["t"], "c", "r", "h", "x", "l", "s", "g", "k");
    if f in ENVELOPE_KEYS { assert Emits(full, f); }
  }

  /** How often a name stands in the header of the serialised document: for the envelope, and for Extra. */
  function KeyCount(doc: Document, k: FieldName): nat {
    (if Emits(doc.envelope, k) then 1 else 0) + (if k in doc.extra then 1 else 0)
  }

  /** A header key is emitted twice exactly when Extra shadows an emitted envelope name. */
  lemma DuplicateKeysComeFromShadowing(doc: Document)
    ensures (exists k :: KeyCount(doc, k) >= 2) <==> exists k :: k in doc.extra && Emits(doc.envelope, k)
    ensures doc.extra.Keys !! ENVELOPE_KEYS ==> forall k :: KeyCount(doc, k) <= 1
  {
    if k :| k in doc.extra && Emits(doc.envelope, k) {
      assert KeyCount(doc, k) == 2;
    }
    if doc.extra.Keys !! ENVELOPE_KEYS {
      forall k ensures KeyCount(doc, k) <= 1 {
        ReservedExactlyWhenEmitted(k);
        assert k in doc.extra ==> k in doc.extra.Keys;
      }
    }
  }
}
