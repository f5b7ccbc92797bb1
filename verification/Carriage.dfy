/**
 The three carriage families: how a message becomes an outer sample and how a sample becomes a message.
 The codecs of up-rust are parameters; what is asked of them is stated as laws.
 */
module Carriage {
  import opened Wrappers
  import opened RegistryModel
  import opened Protocol
  import opened Network

  newtype byte = x: int | 0 <= x < 256

  type Bytes = seq<byte>

  // ---------- Presence ----------

  /** How a sender writes an absent, an empty and a nonempty value: a flag and bytes. */
  function PresenceFields(value: Option<Bytes>): (bool, Bytes) {
    match value
    case None => (false, [])
    case Some(bytes) => (true, bytes)
  }

  /** Flag and bytes some sender could have written. */
  predicate Consistent(present: bool, bytes: Bytes) {
    present || bytes == []
  }

  /** How a receiver reads them back. */
  function PresenceValue(present: bool, bytes: Bytes): Option<Bytes> {
    if present then Some(bytes) else None
  }

  /** The consistent pairs are exactly those in a sender's image, and reading inverts writing. */
  lemma PresenceImage(present: bool, bytes: Bytes)
    ensures Consistent(present, bytes) <==> PresenceFields(PresenceValue(present, bytes)) == (present, bytes)
    ensures Consistent(present, bytes) <==> exists value :: PresenceFields(value) == (present, bytes)
  {
    if Consistent(present, bytes) {
      assert PresenceFields(PresenceValue(present, bytes)) == (present, bytes);
    }
  }

  // ---------- Classic ----------

  datatype ClassicSample = ClassicSample(originId: string, attributesProto: Bytes, hasPayload: bool, payload: Bytes)

  datatype UMessage<A> = UMessage(attributes: A, payload: Option<Bytes>)

  /** Protobuf attributes, their projection to frame metadata, and the way back to a message. */
  datatype ClassicCodec<!A, !F> = ClassicCodec(
    write: A -> Result<Bytes, string>,
    parse: Bytes -> Result<A, string>,
    project: A -> Result<F, string>,
    join: (F, Option<Bytes>) -> Result<UMessage<A>, string>,
    source: A -> UUri,
    sink: A -> Option<UUri>)

  /** The message survives up-rust's own projections: attributes to frame metadata, and back to a message. */
  ghost predicate ClassicMessage<A, F>(codec: ClassicCodec<A, F>, m: UMessage<A>) {
    && codec.project(m.attributes).Ok?
    && codec.join(codec.project(m.attributes).value, m.payload) == Ok(m)
  }

  ghost predicate ClassicLaw<A(!new), F>(codec: ClassicCodec<A, F>) {
    forall a: A :: codec.write(a).Ok? ==> codec.parse(codec.write(a).value) == Ok(a)
  }

  /** The sample `send` writes. */
  function EncodeClassic<A, F>(codec: ClassicCodec<A, F>, originId: string,
                               m: UMessage<A>): Result<ClassicSample, string> {
    match codec.write(m.attributes)
    case Err(e) => Err("encode classic attributes: " + e)
    case Ok(attributes) =>
      var (hasPayload, payload) := PresenceFields(m.payload);
      Ok(ClassicSample(originId, attributes, hasPayload, payload))
  }

  function DecodeClassic<A, F>(codec: ClassicCodec<A, F>, sample: ClassicSample): Result<UMessage<A>, string> {
    if !sample.hasPayload && sample.payload != [] then Err("payload bytes while has_payload is false")
    else
      match codec.parse(sample.attributesProto)
      case Err(e) => Err("invalid classic attributes: " + e)
      case Ok(attributes) =>
        match codec.project(attributes)
        case Err(e) => Err("invalid classic metadata: " + e)
        case Ok(metadata) =>
          match codec.join(metadata, if sample.hasPayload then Some(sample.payload) else None)
          case Err(e) => Err("invalid classic message: " + e)
          case Ok(message) => Ok(message)
  }

  ghost function ClassicLink<A, F>(codec: ClassicCodec<A, F>): Link<UMessage<A>, ClassicSample, UMessage<A>> {
    Link(
      Family(
        (sample: ClassicSample) => sample.originId,
        (sample: ClassicSample) => DecodeClassic(codec, sample),
        (m: UMessage<A>) => codec.source(m.attributes),
        (m: UMessage<A>) => codec.sink(m.attributes)),
      (m: UMessage<A>) => ClassicMessage(codec, m),
      (originId: string, m: UMessage<A>) => EncodeClassic(codec, originId, m),
      (m: UMessage<A>) => m,
      (m: UMessage<A>) => codec.source(m.attributes),
      (m: UMessage<A>) => codec.sink(m.attributes))
  }

  /**
   Decode after send restores exactly the messages that survive up-rust's own projections, and keeps absent, empty
   and nonempty payloads apart.
   */
  lemma ClassicRoundTrip<A(!new), F>(codec: ClassicCodec<A, F>, originId: string, m: UMessage<A>)
    requires ClassicLaw(codec) && EncodeClassic(codec, originId, m).Ok?
    ensures var sample := EncodeClassic(codec, originId, m).value;
            && sample.originId == originId
            && (DecodeClassic(codec, sample) == Ok(m) <==> ClassicMessage(codec, m))
            && PresenceValue(sample.hasPayload, sample.payload) == m.payload
  {
    var sample := EncodeClassic(codec, originId, m).value;
    assert codec.parse(codec.write(m.attributes).value) == Ok(m.attributes);
    assert (if sample.hasPayload then Some(sample.payload) else None) == m.payload;
  }

  /**
   An accepted classic sample carries the presence fields of exactly one payload, and its message is built from
   that one.
   */
  lemma ClassicAcceptedIsSent<A, F>(codec: ClassicCodec<A, F>, sample: ClassicSample)
    ensures DecodeClassic(codec, sample).Ok? ==>
              exists payload ::
                && PresenceFields(payload) == (sample.hasPayload, sample.payload)
                && codec.parse(sample.attributesProto).Ok?
                && codec.project(codec.parse(sample.attributesProto).value).Ok?
                && DecodeClassic(codec, sample)
                    == codec.join(codec.project(codec.parse(sample.attributesProto).value).value, payload)
    ensures !Consistent(sample.hasPayload, sample.payload) ==> DecodeClassic(codec, sample).Err?
  {
    PresenceImage(sample.hasPayload, sample.payload);
    var payload := PresenceValue(sample.hasPayload, sample.payload);
    assert Consistent(sample.hasPayload, sample.payload) ==>
           PresenceFields(payload) == (sample.hasPayload, sample.payload);
  }

  lemma ClassicLinkRoundTrips<A(!new), F>(codec: ClassicCodec<A, F>)
    requires ClassicLaw(codec)
    ensures RoundTrips(ClassicLink(codec))
  {
    var link := ClassicLink(codec);
    forall originId: string, m: UMessage<A> | link.sendable(m) && link.encode(originId, m).Ok?
      ensures Restores(link, originId, m)
    {
      ClassicRoundTrip(codec, originId, m);
    }
  }

  /** A classic listener gets exactly a message another transport sent, with filters that match the addresses in it. */
  lemma ClassicProvenance<A(!new), F>(codec: ClassicCodec<A, F>, w: World<UMessage<A>, ClassicSample, UMessage<A>>,
                        steps: seq<WorldStep<UMessage<A>, ClassicSample>>,
                        v: World<UMessage<A>, ClassicSample, UMessage<A>>,
                        n: nat, job: Job<UMessage<A>>) returns (sender: nat, m: UMessage<A>)
    requires ClassicLaw(codec) && Fresh(ClassicLink(codec), w) && WorldAfter(ClassicLink(codec), w, steps) == Some(v)
    requires n in v.nodes && job in v.nodes[n].state.history.started
    ensures sender in v.nodes && v.nodes[sender].config.originId != v.nodes[n].config.originId
    ensures exists k :: 0 <= k < |v.topic| && v.topic[k].sender == sender && v.topic[k].content == m
    ensures job.message == m && job.reg < |v.nodes[n].state.registry.keys|
    ensures var key, matches := v.nodes[n].state.registry.keys[job.reg], v.nodes[n].config.matches;
            && matches(key.source, codec.source(m.attributes))
            && (key.sink.None? <==> codec.sink(m.attributes).None?)
            && (key.sink.Some? ==> matches(key.sink.value, codec.sink(m.attributes).value))
  {
    ClassicLinkRoundTrips(codec);
    var sent := Provenance(ClassicLink(codec), w, steps, v, n, job);
    sender, m := sent.sender, sent.content;
  }

  // ---------- Owned ----------

  datatype OwnedSample = OwnedSample(originId: string, metadataFields: Bytes, hasPayload: bool, payload: Bytes)

  datatype OwnedFrame<F> = OwnedFrame(metadata: F, payload: Option<Bytes>)

  datatype OwnedCodec<!F> = OwnedCodec(
    encodeFields: F -> Result<Bytes, string>,
    decodeFields: Bytes -> Result<F, string>,
    validate: OwnedFrame<F> -> Result<(), string>,
    source: F -> UUri,
    sink: F -> Option<UUri>)

  ghost predicate OwnedLaw<F(!new)>(codec: OwnedCodec<F>) {
    forall f: F :: codec.encodeFields(f).Ok? ==> codec.decodeFields(codec.encodeFields(f).value) == Ok(f)
  }

  function EncodeOwned<F>(codec: OwnedCodec<F>, originId: string, frame: OwnedFrame<F>): Result<OwnedSample, string> {
    match codec.encodeFields(frame.metadata)
    case Err(e) => Err("encode owned metadata: " + e)
    case Ok(fields) =>
      var (hasPayload, payload) := PresenceFields(frame.payload);
      Ok(OwnedSample(originId, fields, hasPayload, payload))
  }

  function DecodeOwned<F>(codec: OwnedCodec<F>, sample: OwnedSample): Result<OwnedFrame<F>, string> {
    if !sample.hasPayload && sample.payload != [] then Err("payload bytes while has_payload is false")
    else
      match codec.decodeFields(sample.metadataFields)
      case Err(e) => Err("invalid owned metadata: " + e)
      case Ok(metadata) =>
        var frame := OwnedFrame(metadata, if sample.hasPayload then Some(sample.payload) else None);
        match codec.validate(frame)
        case Err(e) => Err("invalid owned frame: " + e)
        case Ok(_) => Ok(frame)
  }

  ghost function OwnedLink<F>(codec: OwnedCodec<F>): Link<OwnedFrame<F>, OwnedSample, OwnedFrame<F>> {
    Link(
      Family(
        (sample: OwnedSample) => sample.originId,
        (sample: OwnedSample) => DecodeOwned(codec, sample),
        (frame: OwnedFrame<F>) => codec.source(frame.metadata),
        (frame: OwnedFrame<F>) => codec.sink(frame.metadata)),
      (frame: OwnedFrame<F>) => codec.validate(frame).Ok?,
      (originId: string, frame: OwnedFrame<F>) => EncodeOwned(codec, originId, frame),
      (frame: OwnedFrame<F>) => frame,
      (frame: OwnedFrame<F>) => codec.source(frame.metadata),
      (frame: OwnedFrame<F>) => codec.sink(frame.metadata))
  }

  /** Validated frames are restored; and whatever is accepted is valid and consistent, so it could be sent again. */
  lemma OwnedRoundTrip<F(!new)>(codec: OwnedCodec<F>, originId: string, frame: OwnedFrame<F>)
    requires OwnedLaw(codec) && codec.validate(frame).Ok? && EncodeOwned(codec, originId, frame).Ok?
    ensures var sample := EncodeOwned(codec, originId, frame).value;
            && sample.originId == originId
            && DecodeOwned(codec, sample) == Ok(frame)
            && PresenceValue(sample.hasPayload, sample.payload) == frame.payload
  {
    var sample := EncodeOwned(codec, originId, frame).value;
    assert codec.decodeFields(codec.encodeFields(frame.metadata).value) == Ok(frame.metadata);
    assert (if sample.hasPayload then Some(sample.payload) else None) == frame.payload;
  }

  /** An accepted owned sample is the image of the very frame it decodes to, up to the metadata bytes. */
  lemma OwnedAcceptedIsSent<F>(codec: OwnedCodec<F>, sample: OwnedSample)
    ensures DecodeOwned(codec, sample).Ok? <==>
              && Consistent(sample.hasPayload, sample.payload)
              && codec.decodeFields(sample.metadataFields).Ok?
              && codec.validate(OwnedFrame(codec.decodeFields(sample.metadataFields).value,
                                           PresenceValue(sample.hasPayload, sample.payload))).Ok?
    ensures DecodeOwned(codec, sample).Ok? ==>
            PresenceFields(DecodeOwned(codec, sample).value.payload) == (sample.hasPayload, sample.payload)
  {
    PresenceImage(sample.hasPayload, sample.payload);
  }

  lemma OwnedLinkRoundTrips<F(!new)>(codec: OwnedCodec<F>)
    requires OwnedLaw(codec)
    ensures RoundTrips(OwnedLink(codec))
  {
    var link := OwnedLink(codec);
    forall originId: string, frame: OwnedFrame<F> | link.sendable(frame) && link.encode(originId, frame).Ok?
      ensures Restores(link, originId, frame)
    {
      OwnedRoundTrip(codec, originId, frame);
    }
  }

  /** An owned listener gets exactly a frame another transport sent, with filters that match the addresses in it. */
  lemma OwnedProvenance<F(!new)>(codec: OwnedCodec<F>, w: World<OwnedFrame<F>, OwnedSample, OwnedFrame<F>>,
                        steps: seq<WorldStep<OwnedFrame<F>, OwnedSample>>,
                        v: World<OwnedFrame<F>, OwnedSample, OwnedFrame<F>>,
                        n: nat, job: Job<OwnedFrame<F>>) returns (sender: nat, frame: OwnedFrame<F>)
    requires OwnedLaw(codec) && Fresh(OwnedLink(codec), w) && WorldAfter(OwnedLink(codec), w, steps) == Some(v)
    requires n in v.nodes && job in v.nodes[n].state.history.started
    ensures sender in v.nodes && v.nodes[sender].config.originId != v.nodes[n].config.originId
    ensures exists k :: 0 <= k < |v.topic| && v.topic[k].sender == sender && v.topic[k].content == frame
    ensures job.message == frame && job.reg < |v.nodes[n].state.registry.keys|
    ensures var key, matches := v.nodes[n].state.registry.keys[job.reg], v.nodes[n].config.matches;
            && matches(key.source, codec.source(frame.metadata))
            && (key.sink.None? <==> codec.sink(frame.metadata).None?)
            && (key.sink.Some? ==> matches(key.sink.value, codec.sink(frame.metadata).value))
  {
    OwnedLinkRoundTrips(codec);
    var sent := Provenance(OwnedLink(codec), w, steps, v, n, job);
    sender, frame := sent.sender, sent.content;
  }

  // ---------- Zero-copy ----------

  datatype ZeroCopySample = ZeroCopySample(
    originId: string,
    sourceUri: string,
    hasSink: bool,
    sinkUri: string,
    hasPayload: bool,
    encodedMetadata: Bytes,
    payload: Bytes)

  datatype UriCodec = UriCodec(toUri: UUri -> string, parse: string -> Result<UUri, string>)

  ghost predicate UriLaw(codec: UriCodec) {
    forall uri: UUri :: codec.parse(codec.toUri(uri)) == Ok(uri) && codec.toUri(uri) != ""
  }

  /** What `loan_prepared_tx` is asked for. */
  datatype LoanSpec = LoanSpec(source: UUri, sink: Option<UUri>, hasPayload: bool, payloadLen: nat,
                               encodedMetadata: Bytes)

  /** The content of a transmit loan. */
  datatype Loan = Loan(sourceUri: string, sinkUri: Option<string>, hasPayload: bool, encodedMetadata: Bytes,
                       payload: Bytes)

  /** A receive frame has no presence flag for its payload. */
  datatype RxFrame = RxFrame(encodedMetadata: Bytes, payload: Bytes)

  datatype Received = Received(source: UUri, sink: Option<UUri>, frame: RxFrame)

  function LoanFor(codec: UriCodec, spec: LoanSpec, payload: Bytes): Loan {
    Loan(
      codec.toUri(spec.source),
      match spec.sink case None => None case Some(sink) => Some(codec.toUri(sink)),
      spec.hasPayload,
      spec.encodedMetadata,
      payload)
  }

  function SampleOfLoan(originId: string, loan: Loan): ZeroCopySample {
    var (hasSink, sinkUri) := match loan.sinkUri case None => (false, "") case Some(sink) => (true, sink);
    ZeroCopySample(originId, loan.sourceUri, hasSink, sinkUri, loan.hasPayload, loan.encodedMetadata, loan.payload)
  }

  function DecodeZeroCopy(codec: UriCodec, sample: ZeroCopySample): Result<Received, string> {
    if !sample.hasSink && sample.sinkUri != "" then Err("sink bytes while has_sink is false")
    else if sample.hasSink && sample.sinkUri == "" then Err("an empty present sink")
    else if !sample.hasPayload && sample.payload != [] then Err("payload bytes while has_payload is false")
    else
      match codec.parse(sample.sourceUri)
      case Err(e) => Err("invalid zero-copy source URI: " + e)
      case Ok(source) =>
        var frame := RxFrame(sample.encodedMetadata, sample.payload);
        if !sample.hasSink then Ok(Received(source, None, frame))
        else
          match codec.parse(sample.sinkUri)
          case Err(e) => Err("invalid zero-copy sink URI: " + e)
          case Ok(sink) => Ok(Received(source, Some(sink), frame))
  }

  /** A loan and the bytes its user left in it. */
  datatype Prepared = Prepared(spec: LoanSpec, payload: Bytes)

  /**
   A receiver gets the routing addresses, the metadata bytes and the payload bytes of every loan whose
   presence flag agrees with its bytes; it rejects exactly the others. Whether a loan specification of up-rust
   can ask for such a loan is not decided here.
   */
  lemma ZeroCopyRoundTrip(codec: UriCodec, originId: string, p: Prepared)
    requires UriLaw(codec)
    ensures var decoded := DecodeZeroCopy(codec, SampleOfLoan(originId, LoanFor(codec, p.spec, p.payload)));
            && (decoded.Ok? <==> Consistent(p.spec.hasPayload, p.payload))
            && (decoded.Ok? ==>
                  decoded.value == Received(p.spec.source, p.spec.sink, RxFrame(p.spec.encodedMetadata, p.payload)))
  {
    assert codec.parse(codec.toUri(p.spec.source)) == Ok(p.spec.source);
    if p.spec.sink.Some? {
      assert codec.parse(codec.toUri(p.spec.sink.value)) == Ok(p.spec.sink.value);
    }
  }

  /** An absent and an empty payload travel as different samples and arrive as the same frame. */
  lemma ZeroCopyForgetsPresence(codec: UriCodec, originId: string, spec: LoanSpec)
    requires UriLaw(codec)
    ensures var absent := SampleOfLoan(originId, LoanFor(codec, spec.(hasPayload := false), []));
            var empty := SampleOfLoan(originId, LoanFor(codec, spec.(hasPayload := true), []));
            && absent != empty
            && DecodeZeroCopy(codec, absent) == DecodeZeroCopy(codec, empty)
            && DecodeZeroCopy(codec, absent).Ok?
  {
    ZeroCopyRoundTrip(codec, originId, Prepared(spec.(hasPayload := false), []));
    ZeroCopyRoundTrip(codec, originId, Prepared(spec.(hasPayload := true), []));
  }

  /** The loan that would send a received frame on, with the payload flag of the sample it came in. */
  function Resend(r: Received, hasPayload: bool): Prepared {
    Prepared(LoanSpec(r.source, r.sink, hasPayload, |r.frame.payload|, r.frame.encodedMetadata), r.frame.payload)
  }

  /**
   An accepted zero-copy sample has the flags, metadata and payload of a sample some sender writes, and
   means the same; a sample with a disagreeing flag is never accepted.
   */
  lemma ZeroCopyAcceptedIsSent(codec: UriCodec, sample: ZeroCopySample)
    requires UriLaw(codec)
    ensures DecodeZeroCopy(codec, sample).Ok? ==>
              var p := Resend(DecodeZeroCopy(codec, sample).value, sample.hasPayload);
              var sent := SampleOfLoan(sample.originId, LoanFor(codec, p.spec, p.payload));
              && sent == sample.(sourceUri := sent.sourceUri, sinkUri := sent.sinkUri)
              && (sent.sinkUri == "" <==> sample.sinkUri == "")
              && DecodeZeroCopy(codec, sent) == DecodeZeroCopy(codec, sample)
    ensures (sample.hasSink <==> sample.sinkUri == "") || !Consistent(sample.hasPayload, sample.payload) ==>
            DecodeZeroCopy(codec, sample).Err?
  {
    if DecodeZeroCopy(codec, sample).Ok? {
      var p := Resend(DecodeZeroCopy(codec, sample).value, sample.hasPayload);
      ZeroCopyRoundTrip(codec, sample.originId, p);
      if p.spec.sink.Some? {
        assert codec.toUri(p.spec.sink.value) != "";
      }
    }
  }

  ghost function ZeroCopyLink(codec: UriCodec): Link<Prepared, ZeroCopySample, Received> {
    Link(
      Family(
        (sample: ZeroCopySample) => sample.originId,
        (sample: ZeroCopySample) => DecodeZeroCopy(codec, sample),
        (r: Received) => r.source,
        (r: Received) => r.sink),
      (p: Prepared) => Consistent(p.spec.hasPayload, p.payload),
      (originId: string, p: Prepared) => Ok(SampleOfLoan(originId, LoanFor(codec, p.spec, p.payload))),
      (p: Prepared) => Received(p.spec.source, p.spec.sink, RxFrame(p.spec.encodedMetadata, p.payload)),
      (p: Prepared) => p.spec.source,
      (p: Prepared) => p.spec.sink)
  }

  lemma ZeroCopyLinkRoundTrips(codec: UriCodec)
    requires UriLaw(codec)
    ensures RoundTrips(ZeroCopyLink(codec))
  {
    var link := ZeroCopyLink(codec);
    forall originId: string, p: Prepared | link.sendable(p) && link.encode(originId, p).Ok?
      ensures Restores(link, originId, p)
    {
      ZeroCopyRoundTrip(codec, originId, p);
    }
  }

  /** A zero-copy listener gets what another transport put into a loan, with filters that match its addresses. */
  lemma ZeroCopyProvenance(codec: UriCodec, w: World<Prepared, ZeroCopySample, Received>,
                        steps: seq<WorldStep<Prepared, ZeroCopySample>>, v: World<Prepared, ZeroCopySample, Received>,
                        n: nat, job: Job<Received>) returns (sender: nat, p: Prepared)
    requires UriLaw(codec) && Fresh(ZeroCopyLink(codec), w) && WorldAfter(ZeroCopyLink(codec), w, steps) == Some(v)
    requires n in v.nodes && job in v.nodes[n].state.history.started
    ensures sender in v.nodes && v.nodes[sender].config.originId != v.nodes[n].config.originId
    ensures exists k :: 0 <= k < |v.topic| && v.topic[k].sender == sender && v.topic[k].content == p
    ensures job.message == Received(p.spec.source, p.spec.sink, RxFrame(p.spec.encodedMetadata, p.payload))
    ensures job.reg < |v.nodes[n].state.registry.keys|
    ensures var key, matches := v.nodes[n].state.registry.keys[job.reg], v.nodes[n].config.matches;
            && matches(key.source, p.spec.source)
            && (key.sink.None? <==> p.spec.sink.None?)
            && (key.sink.Some? ==> matches(key.sink.value, p.spec.sink.value))
  {
    ZeroCopyLinkRoundTrips(codec);
    var sent := Provenance(ZeroCopyLink(codec), w, steps, v, n, job);
    sender, p := sent.sender, sent.content;
  }

  // ---------- The transmit loan as an object ----------

  /** `DdsTxBuffer`: the payload is the one part its user may write. */
  class TxBuffer {
    const sourceUri: string
    const sinkUri: Option<string>
    const hasPayload: bool
    const encodedMetadata: Bytes
    const payload: array<byte>

    ghost function Content(): Loan
      reads payload
    {
      Loan(sourceUri, sinkUri, hasPayload, encodedMetadata, payload[..])
    }

    /** `loan_prepared_tx`: storage of the requested length, zeroed. */
    constructor (codec: UriCodec, spec: LoanSpec)
      ensures fresh(payload) && payload.Length == spec.payloadLen
      ensures Content() == LoanFor(codec, spec, seq(spec.payloadLen, _ => 0))
    {
      sourceUri := codec.toUri(spec.source);
      sinkUri := match spec.sink case None => None case Some(sink) => Some(codec.toUri(sink));
      hasPayload := spec.hasPayload;
      encodedMetadata := spec.encodedMetadata;
      payload := new byte[spec.payloadLen](_ => 0);
      new;
      assert payload[..] == seq(spec.payloadLen, _ => 0);
    }

    /** `payload_mut().copy_from_slice(bytes)`. */
    method CopyFromSlice(bytes: Bytes)
      requires |bytes| == payload.Length
      modifies payload
      ensures Content() == old(Content()).(payload := bytes)
    {
      for i := 0 to |bytes|
        invariant payload[..i] == bytes[..i]
      {
        payload[i] := bytes[i];
      }
      assert payload[..] == bytes;
    }

    /** `send_prepared_zero_copy` up to the write: the sample copies the loan. */
    method Send(originId: string) returns (sample: ZeroCopySample)
      ensures sample == SampleOfLoan(originId, Content())
    {
      var hasSink, sinkText := false, "";
      if sinkUri.Some? {
        hasSink, sinkText := true, sinkUri.value;
      }
      sample := ZeroCopySample(originId, sourceUri, hasSink, sinkText, hasPayload, encodedMetadata, payload[..]);
    }
  }
}
