/** What `PiSdkUsageProjector` computes, as functions of its state: SDK frames in, numbered
    source events out. The class in Projector.dfy updates its fields in place and is proved
    equal to these functions. */
module Projection {
  import opened Wrappers
  import opened Utf16Text
  import opened Protocol

  const DELTA_BATCH_MAX_BYTES: nat := 4 * 1024
  const DELTA_BATCH_MAX_PARTS: nat := 32
  const DELTA_BATCH_MAX_WAIT_MS: int := 50

  datatype Channel = Thinking | Message

  datatype Batch = Batch(text: Text, bytes: nat, parts: nat, startedAt: int)

  function OtherChannel(c: Channel): Channel { if c == Thinking then Message else Thinking }

  // ---------------------------------------------------------------- SDK frames

  datatype Token = Absent | Valid(n: nat) | Invalid

  /** A usage object with its aliases resolved: input, output, cache read, cache write. */
  datatype Usage = Usage(
    requestId: Option<Text>, messageId: Option<Text>,
    input: Token, output: Token, cacheRead: Token, cacheWrite: Token,
    provider: Option<Text>, model: Option<Text>)
  {
    function Tokens(): (r: seq<Token>) ensures |r| == 4 { [input, output, cacheRead, cacheWrite] }
  }

  datatype UpdateKind = NoUpdate | TextEnd | Done | ErrorUpdate | UsageUpdate | OtherUpdate

  datatype FrameKind =
    | AgentStart | TurnStart | AgentEnd | TurnEnd | MessageStart | MessageEnd | UsageFrame | OtherFrame
    | MessageUpdate(update: UpdateKind, candidate: Option<Text>)
    | ToolStart(call: Option<(Text, Text)>)
    | ToolEnd(callId: Option<Text>, failed: bool)

  datatype SdkEvent =
    | Malformed
    | Delta(channel: Channel, delta: Option<Text>)   // None: empty, too long or not a string
    | Frame(kind: FrameKind, identity: Option<Text>, usage: Option<Usage>)

  // ---------------------------------------------------------------- state

  datatype SeenKey =
    | EventKey(id: Text) | RequestKey(id: Text) | MessageKey(id: Text)
    | TurnKey(turn: nat, tokens: seq<Option<nat>>, provider: Text, model: Text)

  datatype State = State(
    sequence: nat,
    seen: set<SeenKey>,
    completionEmitted: bool,
    candidate: Option<Text>,
    turnIndex: nat,
    usageThisTurn: bool,
    pending: map<Channel, Batch>,
    first: Channel)          // which of two pending batches was inserted first

  const Init := State(1, {}, false, None, 0, false, map[], Thinking)

  // ---------------------------------------------------------------- events

  function DeltaType(c: Channel): string { if c == Thinking then "thinking.delta" else "message.delta" }

  function DeltaPayload(b: Batch): Payload {
    [Field("text", Str(b.text)), Field("delta_count", Num(b.parts)), Field("batched", Flag(true))]
  }

  function Numbered(attempt: string, n: nat, eventType: string, payload: Payload): Event {
    Event(SourceId(attempt, n), n, eventType, payload)
  }

  function DeltaEvent(attempt: string, n: nat, c: Channel, b: Batch): Event {
    Numbered(attempt, n, DeltaType(c), DeltaPayload(b))
  }

  // ---------------------------------------------------------------- delta batching

  predicate Full(b: Batch) { b.parts >= DELTA_BATCH_MAX_PARTS || b.bytes >= DELTA_BATCH_MAX_BYTES }

  /** The pending channels, sorted by start time; the sort is stable over insertion order. */
  function FlushOrder(s: State): seq<Channel> {
    var a, b := s.first, OtherChannel(s.first);
    if a in s.pending && b in s.pending then
      if s.pending[b].startedAt < s.pending[a].startedAt then [b, a] else [a, b]
    else if a in s.pending then [a]
    else if b in s.pending then [b]
    else []
  }

  /** Every pending channel is flushed, and once. */
  lemma FlushOrderCovers(s: State)
    ensures forall c :: c in s.pending <==> c in FlushOrder(s)
    ensures forall i, j :: 0 <= i < j < |FlushOrder(s)| ==> FlushOrder(s)[i] != FlushOrder(s)[j]
  {
    var order := FlushOrder(s);
    forall c ensures c in s.pending <==> c in order {
      assert c == s.first || c == OtherChannel(s.first);
      if c in s.pending { assert order[0] == c || order[1] == c; }
    }
  }

  function DeltaEvents(attempt: string, s: State, cs: seq<Channel>): seq<Event>
    requires forall c :: c in cs ==> c in s.pending
  {
    seq(|cs|, i requires 0 <= i < |cs| => DeltaEvent(attempt, s.sequence + i, cs[i], s.pending[cs[i]]))
  }

  function Flush(attempt: string, s: State): (State, seq<Event>) {
    (s.(pending := map[], sequence := s.sequence + |FlushOrder(s)|), DeltaEvents(attempt, s, FlushOrder(s)))
  }

  predicate Due(s: State, now: int) {
    exists c :: c in s.pending && now - s.pending[c].startedAt >= DELTA_BATCH_MAX_WAIT_MS
  }

  function FlushIfDue(attempt: string, s: State, now: int): (State, seq<Event>) {
    if Due(s, now) then Flush(attempt, s) else (s, [])
  }

  function FlushChannel(attempt: string, s: State, c: Channel): (State, seq<Event>) {
    if c in s.pending
    then (s.(pending := s.pending - {c}, sequence := s.sequence + 1, first := OtherChannel(c)),
          [DeltaEvent(attempt, s.sequence, c, s.pending[c])])
    else (s, [])
  }

  /** The batch that the next part goes into, after the full one has been flushed. */
  function Open(attempt: string, s: State, c: Channel, now: int): (r: (State, seq<Event>))
    ensures c in r.0.pending
  {
    if c in s.pending && !Full(s.pending[c]) then (s, [])
    else
      var (t, es) := FlushChannel(attempt, s, c);
      (t.(pending := t.pending[c := Batch([], 0, 0, now)], first := if OtherChannel(c) in t.pending then OtherChannel(c) else c), es)
  }

  function Grown(b: Batch, part: Text): Batch {
    b.(text := b.text + part, bytes := b.bytes + Utf8Bytes(part), parts := b.parts + 1)
  }

  /** Room for the next part: what is left of the byte budget. */
  function Room(b: Batch): nat {
    if b.bytes <= DELTA_BATCH_MAX_BYTES then DELTA_BATCH_MAX_BYTES - b.bytes else 0
  }

  /** One turn of the `appendDelta` loop: the new state, its events, and the code units consumed. */
  function AppendOnce(attempt: string, s: State, c: Channel, remaining: Text, now: int): (r: (State, seq<Event>, nat))
    ensures r.2 <= |remaining|
  {
    var (t, es) := Open(attempt, s, c, now);
    var n := FitLen(remaining, Room(t.pending[c]));
    if n == 0 then
      var (u, fs) := FlushChannel(attempt, t, c);
      (u, es + fs, 0)
    else
      var b := Grown(t.pending[c], remaining[..n]);
      var u := t.(pending := t.pending[c := b]);
      if Full(b) then
        var (v, fs) := FlushChannel(attempt, u, c);
        (v, es + fs, n)
      else (u, es, n)
  }

  /** A turn that consumes nothing has just flushed the channel, so the next one consumes something. */
  lemma AppendOnceProgress(attempt: string, s: State, c: Channel, remaining: Text, now: int)
    requires remaining != []
    ensures var (t, es, n) := AppendOnce(attempt, s, c, remaining, now);
            n > 0 || (c in s.pending && c !in t.pending)
  {
    FitLenMeaning(remaining, DELTA_BATCH_MAX_BYTES);
  }

  function Append(attempt: string, s: State, c: Channel, remaining: Text, now: int): (State, seq<Event>)
    decreases |remaining|, if c in s.pending then 1 else 0
  {
    if remaining == [] then (s, [])
    else
      var (t, es, n) := AppendOnce(attempt, s, c, remaining, now);
      AppendOnceProgress(attempt, s, c, remaining, now);
      var (u, fs) := Append(attempt, t, c, remaining[n..], now);
      (u, es + fs)
  }

  // ---------------------------------------------------------------- usage

  function UsageOf(e: SdkEvent): Option<Usage>
    requires e.Frame?
  {
    match e.kind
    case UsageFrame => e.usage
    case MessageEnd => e.usage
    case TurnEnd => e.usage
    case MessageUpdate(update, _) => if update == OtherUpdate then None else e.usage
    case _ => None
  }

  function TokenPrint(t: Token): Option<nat> { if t.Valid? then Some(t.n) else None }

  function OrEmpty(t: Option<Text>): Text { if t.Some? then t.value else [] }

  function UsageKey(s: State, u: Usage): SeenKey {
    if u.requestId.Some? then RequestKey(u.requestId.value)
    else if u.messageId.Some? then MessageKey(u.messageId.value)
    else TurnKey(s.turnIndex, seq(4, i requires 0 <= i < 4 => TokenPrint(u.Tokens()[i])),
                 OrEmpty(u.provider), OrEmpty(u.model))
  }

  function OptionalField(key: string, t: Option<Text>): Payload {
    if t.Some? then [Field(key, Str(t.value))] else []
  }

  const TOKEN_NAMES: seq<string> := ["input_tokens", "output_tokens", "cache_read_tokens", "cache_write_tokens"]

  function TokenFields(tokens: seq<Token>, n: nat): Payload
    requires n <= |tokens| && n <= 4
  {
    if n == 0 then []
    else TokenFields(tokens, n - 1) +
         (if tokens[n - 1].Valid? then [Field(TOKEN_NAMES[n - 1], Num(tokens[n - 1].n))] else [])
  }

  function UsagePayload(u: Usage): Payload
  {
    var tokens := TokenFields(u.Tokens(), 4);
    tokens
    + OptionalField("upstream_request_id", u.requestId)
    + OptionalField("provider", u.provider)
    + OptionalField("model", u.model)
    + [Field("usage_status", Str(Ascii(if tokens == [] then "unavailable" else "available")))]
  }

  /** The usage event, unless the request was seen before or a token count is invalid. */
  function ProjectUsage(attempt: string, s: State, u: Usage): (State, seq<Event>) {
    var key := UsageKey(s, u);
    if key in s.seen || Invalid in u.Tokens() then (s, [])
    else
      (s.(seen := s.seen + {key}, sequence := s.sequence + 1),
       [Numbered(attempt, s.sequence, "usage", UsagePayload(u))])
  }

  // ---------------------------------------------------------------- one SDK event

  function Generic(kind: FrameKind): Option<(string, Payload)> {
    match kind
    case AgentStart => Some(("agent.turn.start", []))
    case TurnStart => Some(("turn.start", []))
    case AgentEnd => Some(("agent.turn.end", []))
    case TurnEnd => Some(("agent.turn.end", []))
    case MessageStart => Some(("message.start", []))
    case ToolStart(call) =>
      if call.None? then None
      else Some(("tool.start", [Field("call_id", Str(call.value.0)), Field("internal_tool_name", Str(call.value.1))]))
    case ToolEnd(callId, failed) =>
      if callId.None? then None
      else Some(("tool.end", [Field("call_id", Str(callId.value)),
                              Field("status", Str(Ascii(if failed then "failed" else "succeeded")))]))
    case _ => None
  }

  predicate TurnBoundary(kind: FrameKind) { kind == AgentEnd || kind == TurnEnd }

  /** Turn resets, and the candidate for the final answer: registered by text_end and done,
      void as soon as a tool starts. */
  function Noted(s: State, kind: FrameKind): State {
    match kind
    case AgentStart => s.(turnIndex := 0, usageThisTurn := false)
    case TurnStart => s.(turnIndex := s.turnIndex + 1, usageThisTurn := false)
    case ToolStart(_) => s.(candidate := None)
    case MessageUpdate(update, candidate) =>
      if (update == TextEnd || update == Done) && candidate.Some? then s.(candidate := candidate) else s
    case _ => s
  }

  function Completed(attempt: string, s: State, kind: FrameKind): (State, seq<Event>) {
    if TurnBoundary(kind) && s.candidate.Some? && !s.completionEmitted
    then (s.(completionEmitted := true, candidate := None, sequence := s.sequence + 1),
          [Numbered(attempt, s.sequence, "message.completed", [Field("text", Str(s.candidate.value))])])
    else (s, [])
  }

  function ProjectGeneric(attempt: string, s: State, kind: FrameKind, identity: Option<Text>): (State, seq<Event>) {
    var g := Generic(kind);
    if g.None? || (identity.Some? && EventKey(identity.value) in s.seen) then (s, [])
    else
      (s.(seen := if identity.Some? then s.seen + {EventKey(identity.value)} else s.seen, sequence := s.sequence + 1),
       [Numbered(attempt, s.sequence, g.value.0, g.value.1)])
  }

  function ProjectAccounting(attempt: string, s: State, kind: FrameKind, usage: Option<Usage>): (State, seq<Event>) {
    if usage.Some? then
      var (t, es) := ProjectUsage(attempt, s, usage.value);
      (if es == [] then t else t.(usageThisTurn := true), es)
    else if TurnBoundary(kind) && !s.usageThisTurn then
      (s.(usageThisTurn := true, sequence := s.sequence + 1),
       [Numbered(attempt, s.sequence, "usage", [Field("usage_status", Str(Ascii("unavailable")))])])
    else (s, [])
  }

  function ProjectFrame(attempt: string, s: State, e: SdkEvent): (State, seq<Event>)
    requires e.Frame?
  {
    var (s1, flushed) := Flush(attempt, s);
    var (s2, completed) := Completed(attempt, Noted(s1, e.kind), e.kind);
    var (s3, generic) := ProjectGeneric(attempt, s2, e.kind, e.identity);
    var (s4, accounting) := ProjectAccounting(attempt, s3, e.kind, UsageOf(e));
    (s4, flushed + completed + generic + accounting)
  }

  function Project(attempt: string, s: State, e: SdkEvent, now: int): (State, seq<Event>) {
    match e
    case Malformed => (s, [])
    case Delta(channel, delta) =>
      var (t, es) := FlushIfDue(attempt, s, now);
      if delta.None? then (t, es)
      else
        var (u, fs) := Append(attempt, t, channel, delta.value, now);
        (u, es + fs)
    case Frame(_, _, _) => ProjectFrame(attempt, s, e)
  }
}
