/**
 * Documents on the wire: Serialize and Parse (pkg/document/parser.go) around a YAML codec,
 * and the read loop's parseMsg (pkg/transport/redis/redis.go).
 */
module Wire {
  import opened Wrappers
  import opened Protocol
  import opened FrontMatter
  import opened Documents

  const MAX_DOCUMENT_BYTES: nat := 65536

  datatype Header = Header(envelope: Envelope, extra: map<FieldName, Value>)

  /** yaml.Marshal and yaml.Unmarshal, as far as documents are concerned. */
  datatype Codec = Codec(marshal: Header -> seq<byte>, unmarshal: seq<byte> -> Option<Header>)

  /** What is assumed of the codec on a header: it round-trips, is not empty and has no bare delimiter line. */
  ghost predicate RoundTrips(c: Codec, h: Header) {
    && c.marshal(h) != []
    && NoClosing(Terminated(c.marshal(h)))
    && c.unmarshal(Terminated(c.marshal(h))) == Some(h)
  }

  function HeaderOf(doc: Document): Header {
    Header(doc.envelope, doc.extra)
  }

  function SerializeSpec(c: Codec, doc: Document): seq<byte> {
    Frame(c.marshal(HeaderOf(doc)), doc.body)
  }

  function ParseSpec(c: Codec, raw: seq<byte>): Option<Document> {
    if |raw| > MAX_DOCUMENT_BYTES then None
    else
      match Split(raw)
      case None => None
      case Some(parts) =>
        match c.unmarshal(parts.header)
        case None => None
        case Some(h) => Some(Document(h.envelope, h.extra, parts.body, raw))
  }

  /** The value a stream entry's "doc" field holds, when there is one and it is a string. */
  type Payload = Option<seq<byte>>

  function ParseMsgSpec(c: Codec, payload: Payload): Option<Document> {
    if payload.None? || payload.value == [] || |payload.value| > MAX_DOCUMENT_BYTES then None
    else ParseSpec(c, payload.value)
  }

  method Serialize(c: Codec, doc: Document) returns (raw: seq<byte>)
    ensures raw == SerializeSpec(c, doc)
  {
    var yaml := c.marshal(HeaderOf(doc));
    raw := WriteFrame(yaml, doc.body);
  }

  method Parse(c: Codec, raw: seq<byte>) returns (r: Option<Document>)
    ensures r == ParseSpec(c, raw)
  {
    if |raw| > MAX_DOCUMENT_BYTES { return None; }
    var parts := SplitFrontMatter(raw);
    if parts.None? { return None; }
    var h := c.unmarshal(parts.value.header);
    if h.None? { return None; }
    var copied := raw;
    return Some(Document(h.value.envelope, h.value.extra, parts.value.body, copied));
  }

  /** A non-empty string that fits and decomposes, with this header, which the codec accepts, and this tail. */
  ghost predicate Readable(c: Codec, payload: Payload, open: seq<byte>, header: seq<byte>, tail: seq<byte>) {
    && payload.Some? && |payload.value| <= 65536
    && Decomposes(payload.value, open, header, tail)
    && c.unmarshal(header).Some?
  }

  /** Exactly the readable entries are delivered, with the header and body they decompose into. */
  lemma DeliveredExactlyWhenReadable(c: Codec, payload: Payload)
    ensures ParseMsgSpec(c, payload).Some? <==> exists open, header, tail :: Readable(c, payload, open, header, tail)
    ensures forall open, header, tail :: Readable(c, payload, open, header, tail) ==>
              var h := c.unmarshal(header).value;
              ParseMsgSpec(c, payload) == Some(Document(h.envelope, h.extra, BodyOf(tail), payload.value))
  {
    if ParseMsgSpec(c, payload).Some? {
      var open, tail := SplitDecomposes(payload.value);
      assert Readable(c, payload, open, Split(payload.value).value.header, tail);
    }
    forall open, header, tail | Readable(c, payload, open, header, tail)
      ensures var h := c.unmarshal(header).value;
              ParseMsgSpec(c, payload) == Some(Document(h.envelope, h.extra, BodyOf(tail), payload.value))
    {
      SplitOfDecomposed(payload.value, open, header, tail);
    }
  }

  method ParseMsg(c: Codec, payload: Payload) returns (r: Option<Document>)
    ensures r == ParseMsgSpec(c, payload)
    ensures r.Some? <==> exists open, header, tail :: Readable(c, payload, open, header, tail)
    ensures forall open, header, tail :: Readable(c, payload, open, header, tail) ==>
              var h := c.unmarshal(header).value;
              r == Some(Document(h.envelope, h.extra, BodyOf(tail), payload.value))
  {
    DeliveredExactlyWhenReadable(c, payload);
    if payload.None? || payload.value == [] { return None; }
    if |payload.value| > MAX_DOCUMENT_BYTES { return None; }
    r := Parse(c, payload.value);
  }

  /**
   * A published document is read back with the same envelope, extra fields and body
   * exactly when its serialised form is at most 65536 bytes; otherwise it is discarded.
   */
  lemma PublishedIsReadBackExactlyWhenItFits(c: Codec, doc: Document)
    requires RoundTrips(c, HeaderOf(doc))
    ensures var raw := SerializeSpec(c, doc);
            if |raw| <= 65536
            then ParseMsgSpec(c, Some(raw)) == Some(doc.(raw := raw))
            else ParseMsgSpec(c, Some(raw)) == None
  {
    SplitInvertsFrame(c.marshal(HeaderOf(doc)), doc.body);
  }

  /** The size test is on the whole document: a body at the body cap never survives the trip. */
  lemma BodyAtTheCapIsDiscarded(c: Codec, doc: Document)
    requires RoundTrips(c, HeaderOf(doc)) && |doc.body| + 8 > 65536
    ensures ParseMsgSpec(c, Some(SerializeSpec(c, doc))) == None
  {
    assert |SerializeSpec(c, doc)| == 8 + |Terminated(c.marshal(HeaderOf(doc)))| + |doc.body|;
  }

  /** Whatever parses, whoever wrote it, kept the framing: its raw bytes split into its header and body. */
  lemma ParsedDocumentsKeepTheirBytes(c: Codec, payload: Payload)
    requires ParseMsgSpec(c, payload).Some?
    ensures var doc := ParseMsgSpec(c, payload).value;
            && payload == Some(doc.raw) && |doc.body| + 8 <= |doc.raw| <= MAX_DOCUMENT_BYTES
            && exists open, header, tail ::
                 && Decomposes(doc.raw, open, header, tail)
                 && doc.body == BodyOf(tail)
                 && c.unmarshal(header) == Some(HeaderOf(doc))
  {
    var open, tail := SplitDecomposes(payload.value);
    assert |open| >= |DASHES|;
    assert |BodyOf(tail)| <= |tail|;
  }
}
