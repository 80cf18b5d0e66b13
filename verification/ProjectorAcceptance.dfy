/** What the projector emits, the source-event parser accepts, with one exception: a final answer that
    is too long.

    The parser limits the attempt, the number, the event type, the keys and the serialized size of a
    payload. Each kind of event is taken in turn:
      - deltas: by the bounds of a batch, in `ProjectorRuns`;
      - frame events and usage: every field is a short string or a small number, so the payload has
        a fixed bound, and none of its keys is one that the parser refuses;
      - the final answer: only its size can be refused, which is what `TooLong` says.
    The assumption `SafeInput` is what `safeString` and `integer` ensure of the SDK's own values. */
module ProjectorAcceptance {
  import opened Wrappers
  import opened Utf16Text
  import opened Protocol
  import opened Projection
  import opened DeltaConservation
  import opened ProjectorRuns
  import opened ProjectorTurns
  import opened ProjectorTheorems

  const SAFE_STRING_UNITS: nat := 128

  /** `safeString` lets no other strings through. */
  predicate SafeText(t: Option<Text>) { t.Some? ==> 1 <= |t.value| <= SAFE_STRING_UNITS }

  /** `integer` lets no other counts through. */
  predicate SafeToken(t: Token) { t.Valid? ==> t.n <= MAX_COUNT }

  predicate SafeUsage(u: Usage) {
    && SafeText(u.requestId) && SafeText(u.provider) && SafeText(u.model)
    && SafeToken(u.input) && SafeToken(u.output) && SafeToken(u.cacheRead) && SafeToken(u.cacheWrite)
  }

  /** The fields of a frame as the projector reads them off an SDK object. */
  predicate SafeFrame(e: SdkEvent) {
    e.Frame? ==>
      && (e.kind.ToolStart? && e.kind.call.Some? ==> SafeText(Some(e.kind.call.value.0)) && SafeText(Some(e.kind.call.value.1)))
      && (e.kind.ToolEnd? ==> SafeText(e.kind.callId))
      && (e.usage.Some? ==> SafeUsage(e.usage.value))
  }

  predicate SafeInput(i: Input) { i.Sdk? ==> SafeFrame(i.e) }

  // ---------------------------------------------------------------- sizes

  /** A field with a key of at most 19 ASCII characters and a short value takes at most 2400 bytes. */
  predicate SmallField(f: Field) {
    && |f.key| <= 19
    && match f.value
       case Str(t) => |t| <= SAFE_STRING_UNITS
       case Num(n) => n <= MAX_COUNT
       case Flag(_) => true
       case Other(_) => false
  }

  lemma CountDigits(n: nat)
    requires n <= MAX_COUNT
    ensures Digits(n) <= 13
  {
    assert PowerOfTen(1) == 10 && PowerOfTen(3) == 1000 && PowerOfTen(5) == 100_000 && PowerOfTen(7) == 10_000_000;
    assert PowerOfTen(9) == 1_000_000_000 && PowerOfTen(11) == 100_000_000_000 && PowerOfTen(13) == 10_000_000_000_000;
    DigitsBound(n, 13);
  }

  lemma SmallScalar(f: Field)
    requires SmallField(f)
    ensures ScalarBytes(f.value) <= 2306
  {
    match f.value
    case Str(t) => JsonBound(t); BytesBounds(t);
    case Num(n) => CountDigits(n);
    case Flag(_) =>
  }

  lemma {:induction false} SmallFields(p: Payload)
    requires forall f :: f in p ==> SmallField(f)
    ensures FieldsBytes(p) <= 2400 * |p|
  {
    if p != [] {
      SmallScalar(p[0]);
      SmallFields(p[1..]);
    }
  }

  // ---------------------------------------------------------------- keys

  predicate PlainKey(key: string) {
    key in {"text", "call_id", "internal_tool_name", "status", "input_tokens", "output_tokens", "cache_read_tokens",
            "cache_write_tokens", "upstream_request_id", "provider", "model", "usage_status"}
  }

  predicate LowerCase(s: string) { forall i :: 0 <= i < |s| ==> !('A' <= s[i] <= 'Z') }

  lemma LowerStays(s: string)
    requires LowerCase(s)
    ensures Lower(s) == s
  {
  }

  lemma PlainKeyIsHarmless(key: string)
    requires PlainKey(key)
    ensures Lower(key) !in SENSITIVE_KEYS && |key| <= 19
  {
    assert LowerCase(key);
    LowerStays(key);
  }

  // ---------------------------------------------------------------- events that are no deltas

  /** An event of a kind other than delta and usage, with few plain and small fields. */
  lemma PlainAccepted(attempt: string, n: nat, eventType: string, p: Payload)
    requires AttemptAccepted(attempt) && 1 <= n <= MAX_SEQUENCE
    requires eventType in EVENT_TYPES && eventType !in {"message.delta", "text.delta", "thinking.delta", "usage"}
    requires |p| <= 8 && forall f :: f in p ==> PlainKey(f.key) && SmallField(f)
    ensures EventAccepted(Numbered(attempt, n, eventType, p))
  {
    SequenceDigits(n);
    SmallFields(p);
    forall f | f in p ensures Lower(f.key) !in SENSITIVE_KEYS { PlainKeyIsHarmless(f.key); }
  }

  lemma UsageAccepted(attempt: string, n: nat, p: Payload)
    requires AttemptAccepted(attempt) && 1 <= n <= MAX_SEQUENCE
    requires |p| <= 8 && forall f :: f in p ==> PlainKey(f.key) && SmallField(f) && UsageFieldAccepted(f)
    ensures EventAccepted(Numbered(attempt, n, "usage", p))
  {
    SequenceDigits(n);
    SmallFields(p);
    forall f | f in p ensures Lower(f.key) !in SENSITIVE_KEYS { PlainKeyIsHarmless(f.key); }
  }

  lemma GenericAccepted(attempt: string, n: nat, e: SdkEvent)
    requires AttemptAccepted(attempt) && 1 <= n <= MAX_SEQUENCE
    requires e.Frame? && SafeFrame(e) && Generic(e.kind).Some?
    ensures EventAccepted(Numbered(attempt, n, Generic(e.kind).value.0, Generic(e.kind).value.1))
  {
    PlainAccepted(attempt, n, Generic(e.kind).value.0, Generic(e.kind).value.1);
  }

  predicate TokensSafe(tokens: seq<Token>) { forall i :: 0 <= i < |tokens| ==> SafeToken(tokens[i]) }

  lemma {:induction false} TokenFieldsOk(tokens: seq<Token>, n: nat)
    requires n <= |tokens| && n <= 4 && TokensSafe(tokens)
    ensures |TokenFields(tokens, n)| <= n
    ensures forall f :: f in TokenFields(tokens, n) ==> PlainKey(f.key) && SmallField(f) && UsageFieldAccepted(f)
  {
    if n > 0 {
      TokenFieldsOk(tokens, n - 1);
      assert TOKEN_NAMES[n - 1] in TOKEN_KEYS;
    }
  }

  lemma StatusOk(status: string)
    requires status == "available" || status == "unavailable"
    ensures var f := Field("usage_status", Str(Ascii(status))); PlainKey(f.key) && SmallField(f) && UsageFieldAccepted(f)
  {
  }

  lemma TextFieldOk(key: string, t: Option<Text>)
    requires key in {"upstream_request_id", "provider", "model"} && SafeText(t)
    ensures |OptionalField(key, t)| <= 1
    ensures forall f :: f in OptionalField(key, t) ==> PlainKey(f.key) && SmallField(f) && UsageFieldAccepted(f)
  {
  }

  lemma ReportedAccepted(attempt: string, n: nat, u: Usage)
    requires AttemptAccepted(attempt) && 1 <= n <= MAX_SEQUENCE && SafeUsage(u)
    ensures EventAccepted(Numbered(attempt, n, "usage", UsagePayload(u)))
  {
    TokenFieldsOk(u.Tokens(), 4);
    TextFieldOk("upstream_request_id", u.requestId);
    TextFieldOk("provider", u.provider);
    TextFieldOk("model", u.model);
    StatusOk(if TokenFields(u.Tokens(), 4) == [] then "unavailable" else "available");
    UsageAccepted(attempt, n, UsagePayload(u));
  }

  lemma FallbackAccepted(attempt: string, n: nat)
    requires AttemptAccepted(attempt) && 1 <= n <= MAX_SEQUENCE
    ensures EventAccepted(Numbered(attempt, n, "usage", [Field("usage_status", Str(Ascii("unavailable")))]))
  {
    StatusOk("unavailable");
    UsageAccepted(attempt, n, [Field("usage_status", Str(Ascii("unavailable")))]);
  }

  /** The answer is refused exactly when its payload is longer than 64 KiB. */
  predicate TooLong(e: Event) { IsCompleted(e) && PayloadBytes(e.payload) > PAYLOAD_MAX_BYTES }

  lemma AnswerAccepted(attempt: string, n: nat, t: Text)
    requires AttemptAccepted(attempt) && 1 <= n <= MAX_SEQUENCE
    ensures var e := Numbered(attempt, n, "message.completed", [Field("text", Str(t))]);
            EventAccepted(e) <==> !TooLong(e)
  {
    SequenceDigits(n);
    PlainKeyIsHarmless("text");
  }

  // ---------------------------------------------------------------- every run

  /** An event with an admissible number is accepted unless it is an answer that is too long. */
  predicate Fine(e: Event) { 1 <= e.sequence <= MAX_SEQUENCE ==> (EventAccepted(e) <==> !TooLong(e)) }

  predicate AllFine(es: seq<Event>) { forall k :: 0 <= k < |es| ==> Fine(es[k]) }

  lemma CompletedFine(attempt: string, s: State, kind: FrameKind)
    requires AttemptAccepted(attempt)
    ensures AllFine(Completed(attempt, s, kind).1)
  {
    if s.candidate.Some? && 1 <= s.sequence <= MAX_SEQUENCE { AnswerAccepted(attempt, s.sequence, s.candidate.value); }
  }

  lemma GenericFine(attempt: string, s: State, e: SdkEvent)
    requires AttemptAccepted(attempt) && e.Frame? && SafeFrame(e)
    ensures AllFine(ProjectGeneric(attempt, s, e.kind, e.identity).1)
  {
    if Generic(e.kind).Some? && 1 <= s.sequence <= MAX_SEQUENCE { GenericAccepted(attempt, s.sequence, e); }
  }

  lemma UsageOfFrame(e: SdkEvent)
    requires e.Frame?
    ensures UsageOf(e) == None || UsageOf(e) == e.usage
  {
  }

  lemma AccountingFine(attempt: string, s: State, e: SdkEvent)
    requires AttemptAccepted(attempt) && e.Frame? && SafeFrame(e)
    ensures AllFine(ProjectAccounting(attempt, s, e.kind, UsageOf(e)).1)
  {
    UsageOfFrame(e);
    if 1 <= s.sequence <= MAX_SEQUENCE {
      if UsageOf(e).Some? { ReportedAccepted(attempt, s.sequence, UsageOf(e).value); }
      FallbackAccepted(attempt, s.sequence);
    }
  }

  lemma FineConcat(es: seq<Event>, fs: seq<Event>)
    requires AllFine(es) && AllFine(fs)
    ensures AllFine(es + fs)
  {
  }

  lemma AfterFlushFine(attempt: string, s: State, e: SdkEvent)
    requires AttemptAccepted(attempt) && e.Frame? && SafeFrame(e)
    ensures AllFine(AfterFlush(attempt, s, e))
  {
    var n := Noted(s, e.kind);
    var (s2, completed) := Completed(attempt, n, e.kind);
    var (s3, generic) := ProjectGeneric(attempt, s2, e.kind, e.identity);
    CompletedFine(attempt, n, e.kind);
    GenericFine(attempt, s2, e);
    AccountingFine(attempt, s3, e);
    FineConcat(completed, generic);
    FineConcat(completed + generic, ProjectAccounting(attempt, s3, e.kind, UsageOf(e)).1);
  }

  /** Deltas, or fine. */
  predicate DeltasOrFine(es: seq<Event>) { forall k :: 0 <= k < |es| ==> IsDelta(es[k]) || Fine(es[k]) }

  lemma RespondFine(attempt: string, s: State, i: Input)
    requires AttemptAccepted(attempt) && SafeInput(i)
    ensures DeltasOrFine(Respond(attempt, s, i).1)
  {
    if IsFrame(i) {
      FrameFine(attempt, s, i.e);
    } else {
      QuietInput(attempt, s, i);
    }
  }

  lemma FrameFine(attempt: string, s: State, e: SdkEvent)
    requires AttemptAccepted(attempt) && e.Frame? && SafeFrame(e)
    ensures DeltasOrFine(ProjectFrame(attempt, s, e).1)
  {
    var flushed, after := Flush(attempt, s).1, AfterFlush(attempt, Flush(attempt, s).0, e);
    FrameEvents(attempt, s, e);
    AfterFlushFine(attempt, Flush(attempt, s).0, e);
    forall k | 0 <= k < |flushed| ensures IsDelta(flushed[k]) { FlushedAreDeltas(attempt, s, k); }
  }

  lemma {:induction false} RunFine(attempt: string, ins: seq<Input>)
    requires AttemptAccepted(attempt) && forall i :: 0 <= i < |ins| ==> SafeInput(ins[i])
    ensures DeltasOrFine(Run(attempt, ins).1)
  {
    if ins != [] {
      RunFine(attempt, Before(ins));
      RespondFine(attempt, Run(attempt, Before(ins)).0, ProjectorRuns.Last(ins));
    }
  }

  /** Every event of every run passes the parser, except an answer whose payload is longer than 64 KiB. */
  lemma AcceptedUnlessTooLong(attempt: string, ins: seq<Input>, k: nat)
    requires AttemptAccepted(attempt) && forall i :: 0 <= i < |ins| ==> SafeInput(ins[i])
    requires k < |Run(attempt, ins).1| && k < MAX_SEQUENCE
    ensures EventAccepted(Run(attempt, ins).1[k]) <==> !TooLong(Run(attempt, ins).1[k])
  {
    RunFine(attempt, ins);
    ProjectorRuns.NumberedWithoutGap(attempt, ins, k);
    if IsDelta(Run(attempt, ins).1[k]) { ProjectorRuns.DeltaEventsAccepted(attempt, ins, k); }
  }

  /** The same of the outputs of a run. */
  lemma RefusedOnlyTooLong(attempt: string, ins: seq<Input>, ss: seq<State>, outs: seq<seq<Event>>, k: nat)
    requires AttemptAccepted(attempt) && IsRun(attempt, ins, ss, outs) && forall i :: 0 <= i < |ins| ==> SafeInput(ins[i])
    requires k < |Flat(outs)| && k < MAX_SEQUENCE
    ensures EventAccepted(Flat(outs)[k]) <==> !TooLong(Flat(outs)[k])
  {
    RunUpTo(attempt, ins, ss, outs, |ins|);
    assert ins[..|ins|] == ins && outs[..|ins|] == outs;
    AcceptedUnlessTooLong(attempt, ins, k);
  }

  // ---------------------------------------------------------------- an answer that is too long

  /** So many U+0001, each of which JSON writes as six bytes. */
  function Controls(n: nat): Text { seq(n, _ => 1) }

  lemma {:induction false} ControlsBytes(n: nat)
    ensures JsonBody(Controls(n)) == 6 * n
  {
    if n > 0 {
      assert Controls(n)[1..] == Controls(n - 1);
      ControlsBytes(n - 1);
    }
  }

  function LongCandidate(): Input { Sdk(Frame(MessageUpdate(TextEnd, Some(Controls(MAX_DELTA_UNITS))), None, None), 0) }

  const EndOfTurn: Input := Sdk(Frame(TurnEnd, None, None), 0)

  lemma CandidateNoted(attempt: string)
    ensures Run(attempt, [LongCandidate()]) == (Init.(candidate := Some(Controls(MAX_DELTA_UNITS))), [])
  {
    assert Before([LongCandidate()]) == [] && ProjectorRuns.Last([LongCandidate()]) == LongCandidate();
    assert FlushOrder(Init) == [] && DeltaEvents(attempt, Init, []) == [];
    assert Run(attempt, []) == (Init, []);
    assert Run(attempt, [LongCandidate()]).1 == [] + [];
  }

  /** An answer of 16384 control characters, as long as a delta may be, is published and then refused. */
  lemma LongAnswerRefused(attempt: string) returns (ins: seq<Input>)
    requires AttemptAccepted(attempt)
    ensures forall i :: 0 <= i < |ins| ==> SafeInput(ins[i])
    ensures Run(attempt, ins).1 != []
    ensures var e := Run(attempt, ins).1[0]; TooLong(e) && !EventAccepted(e)
  {
    ins := [LongCandidate()] + [EndOfTurn];
    CandidateNoted(attempt);
    ControlsBytes(MAX_DELTA_UNITS);
    assert Before(ins) == [LongCandidate()] && ProjectorRuns.Last(ins) == EndOfTurn;
    var s := Init.(candidate := Some(Controls(MAX_DELTA_UNITS)));
    assert Flush(attempt, s) == (s, []) by { assert s.(pending := map[]) == s && FlushOrder(s) == []; }
    assert Run(attempt, ins).1[0] == Completed(attempt, s, TurnEnd).1[0];
  }
}
