/** The source-event contract between the projector, the delivery pump and the control
    plane: what a single event, a batch and a batch receipt must look like, and how many
    bytes they take as canonical JSON. */
module Protocol {
  import opened Utf16Text

  const BATCH_MAX_EVENTS: nat := 32
  const BATCH_MAX_BYTES: nat := 128 * 1024
  const PAYLOAD_MAX_BYTES: nat := 64 * 1024
  const MAX_SEQUENCE: nat := 10_000_000
  const MAX_DELTA_UNITS: nat := 16_384
  const MAX_COUNT: nat := 1_000_000_000_000
  const MAX_REQUEST_ID_UNITS: nat := 128

  /** `<attempt>:<number>`, cut at the last colon. */
  datatype SourceId = SourceId(attempt: string, number: nat)

  /** A payload member. `Other` is any further JSON value, known only by its serialized size. */
  datatype Scalar = Num(n: nat) | Str(text: Text) | Flag(b: bool) | Other(bytes: nat)
  datatype Field = Field(key: string, value: Scalar)
  type Payload = seq<Field>

  datatype Event = Event(id: SourceId, sequence: nat, eventType: string, payload: Payload)

  // ---------------------------------------------------------------- sizes

  function Digits(n: nat): (d: nat)
    ensures d >= 1
  {
    if n < 10 then 1 else 1 + Digits(n / 10)
  }

  function PowerOfTen(d: nat): (p: nat)
    ensures p >= 1
  {
    if d == 0 then 1 else 10 * PowerOfTen(d - 1)
  }

  lemma {:induction false} DigitsBound(n: nat, d: nat)
    requires d >= 1 && n < PowerOfTen(d)
    ensures Digits(n) <= d
  {
    if n >= 10 { DigitsBound(n / 10, d - 1); }
  }

  lemma SequenceDigits(n: nat)
    requires n <= MAX_SEQUENCE
    ensures Digits(n) <= 8
  {
    assert PowerOfTen(2) == 100 && PowerOfTen(4) == 10_000 && PowerOfTen(6) == 1_000_000 && PowerOfTen(8) == 100_000_000;
    DigitsBound(n, 8);
  }

  function ScalarBytes(v: Scalar): nat {
    match v
    case Num(n) => Digits(n)
    case Str(text) => JsonBytes(text)
    case Flag(b) => if b then 4 else 5
    case Other(bytes) => bytes
  }

  /** The members `"key":value`, separated by commas. */
  function FieldsBytes(fields: Payload): nat {
    if fields == [] then 0
    else |fields[0].key| + 3 + ScalarBytes(fields[0].value) + (if |fields| == 1 then 0 else 1 + FieldsBytes(fields[1..]))
  }

  function PayloadBytes(payload: Payload): nat { 2 + FieldsBytes(payload) }

  function IdBytes(id: SourceId): nat { |id.attempt| + 1 + Digits(id.number) }

  /** `{"event_type":..,"payload":..,"sequence":..,"source_event_id":..}` */
  function EventBytes(e: Event): nat {
    1 + (13 + |e.eventType| + 2) + (11 + PayloadBytes(e.payload)) + (12 + Digits(e.sequence)) + (19 + IdBytes(e.id) + 2) + 1
  }

  function EventsBytes(es: seq<Event>): nat {
    if es == [] then 0 else EventsBytes(es[..|es| - 1]) + EventBytes(es[|es| - 1]) + (if |es| == 1 then 0 else 1)
  }

  /** `piGatewaySourceEventBatchBytes`: `{"events":[..]}` */
  function BatchBytes(es: seq<Event>): nat { 13 + EventsBytes(es) }

  // ---------------------------------------------------------------- one event

  const EVENT_TYPES := {
    "agent.turn.start", "agent.turn.end", "agent/turn/start", "agent/turn/end",
    "turn.start", "turn/start",
    "message.start", "message.delta", "message.end", "message.completed",
    "message/start", "message/delta", "message/end", "tool.start", "tool.end",
    "tool_call.start", "tool_call.end", "tool_call/start", "tool_call/end",
    "tool/start", "tool/end", "thinking.start",
    "thinking.delta", "thinking.end", "thinking/start", "thinking/delta", "thinking/end",
    "text.delta", "text/delta", "usage"}

  const SENSITIVE_KEYS := {
    "authorization", "api_key", "apikey", "password", "secret", "token", "environment",
    "tenant_id", "user_id", "session_id", "run_id", "attempt_id", "gateway_id", "lease_token"}

  const TOKEN_KEYS := {"input_tokens", "output_tokens", "cache_read_tokens", "cache_write_tokens"}
  const USAGE_KEYS := TOKEN_KEYS + {"upstream_request_id", "provider", "model", "usage_status"}

  function LowerChar(c: char): char { if 'A' <= c <= 'Z' then (c as int + 32) as char else c }
  function Lower(s: string): string { seq(|s|, i requires 0 <= i < |s| => LowerChar(s[i])) }

  predicate IdChar(c: char) {
    'A' <= c <= 'Z' || 'a' <= c <= 'z' || '0' <= c <= '9' || c in "._:-"
  }

  predicate IdAccepted(id: SourceId) {
    IdBytes(id) <= 160 && forall i :: 0 <= i < |id.attempt| ==> IdChar(id.attempt[i])
  }

  /** Code units that spell the ASCII string `s`. */
  function Ascii(s: string): Text
    requires forall i :: 0 <= i < |s| ==> s[i] as int < 0x80
  {
    seq(|s|, i requires 0 <= i < |s| => s[i] as int)
  }

  predicate UsageFieldAccepted(f: Field) {
    && f.key in USAGE_KEYS
    && (f.key in TOKEN_KEYS ==> f.value.Num? && f.value.n <= MAX_COUNT)
    && (f.key == "upstream_request_id" ==> f.value.Str? && 1 <= |f.value.text| <= MAX_REQUEST_ID_UNITS)
    && (f.key == "usage_status" ==> f.value == Str(Ascii("available")) || f.value == Str(Ascii("unavailable")))
  }

  /** `parsePiGatewaySourceEvent` returns its argument instead of throwing. */
  predicate EventAccepted(e: Event) {
    && IdAccepted(e.id)
    && 1 <= e.sequence <= MAX_SEQUENCE
    && e.eventType in EVENT_TYPES
    && PayloadBytes(e.payload) <= PAYLOAD_MAX_BYTES
    && (forall f :: f in e.payload ==> Lower(f.key) !in SENSITIVE_KEYS)
    && e.id.number == e.sequence
    && (e.eventType in {"message.delta", "text.delta", "thinking.delta"} ==>
          forall f :: f in e.payload && f.key in {"delta", "text"} && f.value.Str? ==> |f.value.text| <= MAX_DELTA_UNITS)
    && (e.eventType == "usage" ==> forall f :: f in e.payload ==> UsageFieldAccepted(f))
  }

  // ---------------------------------------------------------------- batches

  predicate OneAttempt(es: seq<Event>) {
    forall i :: 0 <= i < |es| ==> es[i].id.attempt == es[0].id.attempt
  }

  predicate Contiguous(es: seq<Event>) {
    forall i :: 1 <= i < |es| ==> es[i].sequence == es[i - 1].sequence + 1
  }

  /** `parsePiGatewaySourceEventBatch` returns its argument instead of throwing. */
  predicate BatchAccepted(es: seq<Event>) {
    && 1 <= |es| <= BATCH_MAX_EVENTS
    && (forall i :: 0 <= i < |es| ==> EventAccepted(es[i]))
    && OneAttempt(es)
    && Contiguous(es)
    && BatchBytes(es) <= BATCH_MAX_BYTES
  }

  /** An accepted event always fits in a batch of its own: 64 KiB of payload leaves room for the rest. */
  lemma AcceptedFitsAlone(e: Event)
    requires EventAccepted(e)
    ensures BatchBytes([e]) <= BATCH_MAX_BYTES
  {
    SequenceDigits(e.sequence);
    TypesAreShort(e.eventType);
    assert [e][..0] == [];
    assert EventsBytes([]) == 0;
    assert EventsBytes([e]) == EventBytes(e);
  }

  lemma TypesAreShort(t: string)
    requires t in EVENT_TYPES
    ensures |t| <= 17
  {
  }

  lemma {:induction false} EventsBytesMonotone(es: seq<Event>, n: nat)
    requires n <= |es|
    ensures EventsBytes(es[..n]) <= EventsBytes(es)
  {
    if n < |es| {
      EventsBytesMonotone(es[..|es| - 1], n);
      assert es[..|es| - 1][..n] == es[..n];
    } else {
      assert es[..n] == es;
    }
  }

  // ---------------------------------------------------------------- receipts

  datatype EventReceipt = EventReceipt(id: SourceId, sequence: nat)
  datatype BatchReceipt = BatchReceipt(receipts: seq<EventReceipt>, lastAcked: nat)

  /** `parsePiGatewaySourceEventBatchReceipt` returns its argument instead of throwing. */
  predicate ReceiptWellFormed(r: BatchReceipt) {
    && 1 <= r.lastAcked <= MAX_SEQUENCE
    && (forall i :: 0 <= i < |r.receipts| ==>
                      && IdAccepted(r.receipts[i].id)
                      && 1 <= r.receipts[i].sequence <= MAX_SEQUENCE
                      && r.receipts[i].id.number == r.receipts[i].sequence)
    && |r.receipts| >= 1
    && r.receipts[|r.receipts| - 1].sequence == r.lastAcked
    && (forall i :: 0 <= i < |r.receipts| ==> r.receipts[i].id.attempt == r.receipts[0].id.attempt)
    && (forall i :: 1 <= i < |r.receipts| ==> r.receipts[i].sequence == r.receipts[i - 1].sequence + 1)
  }

  /** `assertReceipt` of the pump. */
  predicate ReceiptMatches(es: seq<Event>, r: BatchReceipt)
    requires es != []
  {
    && |r.receipts| == |es|
    && (forall i :: 0 <= i < |es| ==> r.receipts[i].id == es[i].id && r.receipts[i].sequence == es[i].sequence)
    && r.lastAcked == es[|es| - 1].sequence
  }

  /** The one receipt that acknowledges a batch. */
  function Echo(es: seq<Event>): BatchReceipt
    requires es != []
  {
    BatchReceipt(seq(|es|, i requires 0 <= i < |es| => EventReceipt(es[i].id, es[i].sequence)), es[|es| - 1].sequence)
  }

  /** Both receipt checks together accept exactly the echo of the batch that was sent. */
  lemma AcknowledgedExactlyByEcho(es: seq<Event>, r: BatchReceipt)
    requires BatchAccepted(es)
    ensures ReceiptWellFormed(r) && ReceiptMatches(es, r) <==> r == Echo(es)
  {
    if ReceiptMatches(es, r) { assert r.receipts == Echo(es).receipts; }
  }
}
