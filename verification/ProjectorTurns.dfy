/** The final answer and the usage records of a run, as functions of the SDK frames alone. */
module ProjectorTurns {
  import opened Wrappers
  import opened Utf16Text
  import opened Protocol
  import opened Projection
  import opened DeltaConservation
  import opened ProjectorRuns

  // ---------------------------------------------------------------- the final answer

  predicate StartsTool(i: Input) { i.Sdk? && i.e.Frame? && i.e.kind.ToolStart? }

  /** The candidate a frame registers: text_end and done do, when they carry text. */
  function Registers(i: Input): Option<Text> {
    if i.Sdk? && i.e.Frame? && i.e.kind.MessageUpdate? && (i.e.kind.update == TextEnd || i.e.kind.update == Done)
    then i.e.kind.candidate else None
  }

  /** The latest candidate, unless a tool has started since. */
  function Candidate(ins: seq<Input>): Option<Text> {
    if ins == [] then None
    else if StartsTool(Last(ins)) then None
    else if Registers(Last(ins)).Some? then Registers(Last(ins))
    else Candidate(Before(ins))
  }

  /** Input `j` registered the candidate and nothing since has voided or replaced it. */
  ghost predicate LiveSince(ins: seq<Input>, j: nat, text: Text) {
    && j < |ins| && Registers(ins[j]) == Some(text)
    && (forall k :: j < k < |ins| ==> !StartsTool(ins[k]) && Registers(ins[k]) == None)
  }

  /** The candidate is a text that some frame registered and no later tool start or candidate made void. */
  lemma CandidateMeaning(ins: seq<Input>, text: Text)
    ensures Candidate(ins) == Some(text) <==> exists j: nat :: LiveSince(ins, j, text)
  {
    if Candidate(ins) == Some(text) { var j := CandidateSource(ins, text); }
    if j: nat :| LiveSince(ins, j, text) { CandidateOf(ins, j, text); }
  }

  lemma {:induction false} CandidateSource(ins: seq<Input>, text: Text) returns (j: nat)
    requires Candidate(ins) == Some(text)
    ensures LiveSince(ins, j, text)
  {
    if Registers(Last(ins)).Some? {
      j := |ins| - 1;
    } else {
      j := CandidateSource(Before(ins), text);
    }
  }

  lemma {:induction false} CandidateOf(ins: seq<Input>, j: nat, text: Text)
    requires LiveSince(ins, j, text)
    ensures Candidate(ins) == Some(text)
  {
    if j < |ins| - 1 {
      CandidateOf(Before(ins), j, text);
    }
  }

  predicate IsCompleted(e: Event) { e.eventType == "message.completed" }

  function CompletedCount(es: seq<Event>): nat {
    if es == [] then 0 else CompletedCount(es[..|es| - 1]) + (if IsCompleted(es[|es| - 1]) then 1 else 0)
  }

  lemma {:induction false} CountConcat(es: seq<Event>, fs: seq<Event>)
    ensures CompletedCount(es + fs) == CompletedCount(es) + CompletedCount(fs)
  {
    if fs == [] {
      assert es + fs == es;
    } else {
      assert (es + fs)[..|es + fs| - 1] == es + fs[..|fs| - 1];
      CountConcat(es, fs[..|fs| - 1]);
    }
  }

  lemma {:induction false} NoneCompleted(es: seq<Event>)
    requires forall i :: 0 <= i < |es| ==> !IsCompleted(es[i])
    ensures CompletedCount(es) == 0
  {
    if es != [] { NoneCompleted(es[..|es| - 1]); }
  }

  /** Whether this input publishes the final answer. */
  predicate Publishes(attempt: string, ins: seq<Input>, i: Input) {
    && i.Sdk? && i.e.Frame? && TurnBoundary(i.e.kind)
    && Candidate(ins).Some?
    && CompletedCount(Run(attempt, ins).1) == 0
  }

  /** What follows the answer in its frame: turn end and usage. */
  function AfterAnswer(attempt: string, s: State, e: SdkEvent): seq<Event>
    requires e.Frame?
  {
    var s2 := Completed(attempt, Noted(s, e.kind), e.kind).0;
    var (s3, generic) := ProjectGeneric(attempt, s2, e.kind, e.identity);
    generic + ProjectAccounting(attempt, s3, e.kind, UsageOf(e)).1
  }

  lemma FrameShape(attempt: string, s: State, e: SdkEvent)
    requires e.Frame?
    ensures var s1 := Noted(Flush(attempt, s).0, e.kind);
            ProjectFrame(attempt, s, e).1 ==
            Flush(attempt, s).1 + Completed(attempt, s1, e.kind).1 + AfterAnswer(attempt, Flush(attempt, s).0, e)
    ensures forall i :: 0 <= i < |AfterAnswer(attempt, Flush(attempt, s).0, e)| ==>
                          !IsCompleted(AfterAnswer(attempt, Flush(attempt, s).0, e)[i])
                          && !IsDelta(AfterAnswer(attempt, Flush(attempt, s).0, e)[i])
  {
  }

  lemma FlushedAreDeltas(attempt: string, s: State, i: nat)
    requires i < |Flush(attempt, s).1|
    ensures IsDelta(Flush(attempt, s).1[i]) && !IsCompleted(Flush(attempt, s).1[i])
  {
  }

  /** The two completion fields of the state after a run. */
  ghost predicate CompletionState(attempt: string, ins: seq<Input>) {
    var (s, es) := Run(attempt, ins);
    && CompletedCount(es) == (if s.completionEmitted then 1 else 0)
    && (!s.completionEmitted ==> s.candidate == Candidate(ins))
  }

  predicate SameTurn(s: State, t: State) { t == s.(sequence := t.sequence, pending := t.pending, first := t.first) }

  lemma AppendOnceKeeps(attempt: string, s: State, c: Channel, remaining: Text, now: int)
    ensures SameTurn(s, AppendOnce(attempt, s, c, remaining, now).0)
  {
    var t := Open(attempt, s, c, now).0;
    assert SameTurn(s, t);
    var n := FitLen(remaining, Room(t.pending[c]));
    assert SameTurn(t, FlushChannel(attempt, t, c).0);
    var u := t.(pending := t.pending[c := Grown(t.pending[c], remaining[..n])]);
    assert SameTurn(u, FlushChannel(attempt, u, c).0);
  }

  lemma {:induction false} AppendKeeps(attempt: string, s: State, c: Channel, remaining: Text, now: int)
    ensures SameTurn(s, Append(attempt, s, c, remaining, now).0)
    decreases |remaining|, if c in s.pending then 1 else 0
  {
    if remaining != [] {
      var (t, es, n) := AppendOnce(attempt, s, c, remaining, now);
      AppendOnceKeeps(attempt, s, c, remaining, now);
      AppendOnceProgress(attempt, s, c, remaining, now);
      AppendKeeps(attempt, t, c, remaining[n..], now);
    }
  }

  /** Deltas and flushes emit delta events only and touch none of the turn's state. */
  lemma QuietInput(attempt: string, s: State, i: Input)
    requires !(i.Sdk? && i.e.Frame?)
    ensures var (t, es) := Respond(attempt, s, i);
            SameTurn(s, t) && forall k :: 0 <= k < |es| ==> IsDelta(es[k])
  {
    if i.Sdk? && i.e.Delta? && i.e.delta.Some? {
      var t := FlushIfDue(attempt, s, i.now).0;
      AppendKeeps(attempt, t, i.e.channel, i.e.delta.value, i.now);
      AppendOneChannel(attempt, t, i.e.channel, i.e.delta.value, i.now);
    }
  }

  lemma {:induction false} CompletionKept(attempt: string, ins: seq<Input>)
    ensures CompletionState(attempt, ins)
  {
    if ins != [] {
      CompletionKept(attempt, Before(ins));
      var (s, es) := Run(attempt, Before(ins));
      CountConcat(es, Respond(attempt, s, Last(ins)).1);
      RespondCompletion(attempt, s, Last(ins));
    }
  }

  function NotedBy(s: State, i: Input): Option<Text> {
    if i.Sdk? && i.e.Frame? then Noted(s, i.e.kind).candidate else s.candidate
  }

  lemma RespondCompletion(attempt: string, s: State, i: Input)
    ensures var (t, fs) := Respond(attempt, s, i);
            && CompletedCount(fs) + (if s.completionEmitted then 1 else 0) == (if t.completionEmitted then 1 else 0)
            && (!t.completionEmitted ==> !s.completionEmitted && t.candidate == NotedBy(s, i))
  {
    if i.Sdk? && i.e.Frame? {
      FrameCompletion(attempt, s, i.e);
    } else {
      QuietInput(attempt, s, i);
      NoneCompleted(Respond(attempt, s, i).1);
    }
  }

  /** The state a frame leaves, as far as the answer is concerned. */
  lemma FrameAnswerState(attempt: string, s: State, e: SdkEvent)
    requires e.Frame?
    ensures var t := ProjectFrame(attempt, s, e).0;
            var emits := TurnBoundary(e.kind) && s.candidate.Some? && !s.completionEmitted;
            && t.completionEmitted == (s.completionEmitted || emits)
            && (!t.completionEmitted ==> t.candidate == Noted(s, e.kind).candidate)
  {
  }

  lemma FrameCompletion(attempt: string, s: State, e: SdkEvent)
    requires e.Frame?
    ensures var (t, fs) := ProjectFrame(attempt, s, e);
            && CompletedCount(fs) + (if s.completionEmitted then 1 else 0) == (if t.completionEmitted then 1 else 0)
            && (!t.completionEmitted ==> !s.completionEmitted && t.candidate == Noted(s, e.kind).candidate)
  {
    FrameShape(attempt, s, e);
    FrameAnswerState(attempt, s, e);
    var s1 := Flush(attempt, s).0;
    CountShape(attempt, s, Completed(attempt, Noted(s1, e.kind), e.kind).1, AfterAnswer(attempt, s1, e));
  }

  lemma CountShape(attempt: string, s: State, answer: seq<Event>, after: seq<Event>)
    requires answer == [] || (|answer| == 1 && IsCompleted(answer[0]))
    requires forall i :: 0 <= i < |after| ==> !IsCompleted(after[i])
    ensures CompletedCount(Flush(attempt, s).1 + answer + after) == |answer|
  {
    var flushed := Flush(attempt, s).1;
    forall i | 0 <= i < |flushed| ensures !IsCompleted(flushed[i]) { FlushedAreDeltas(attempt, s, i); }
    NoneCompleted(flushed);
    NoneCompleted(after);
    CountConcat(flushed, answer);
    CountConcat(flushed + answer, after);
    if answer != [] { assert answer[..0] == []; }
  }

  /** `message.completed` appears at most once in a whole attempt. */
  lemma CompletedAtMostOnce(attempt: string, ins: seq<Input>)
    ensures CompletedCount(Run(attempt, ins).1) <= 1
  {
    CompletionKept(attempt, ins);
  }

  /** A frame publishes the answer exactly when it ends a turn with a live candidate and none was
      published before. It then emits that candidate, after the deltas it flushed and before its
      turn end and usage. */
  lemma AnswerInFrame(attempt: string, ins: seq<Input>, e: SdkEvent, now: int)
    requires e.Frame?
    ensures var out := Respond(attempt, Run(attempt, ins).0, Sdk(e, now)).1;
            && (Publishes(attempt, ins, Sdk(e, now)) <==> exists k :: 0 <= k < |out| && IsCompleted(out[k]))
            && (Publishes(attempt, ins, Sdk(e, now)) ==>
                  exists k :: && 0 <= k < |out| && IsCompleted(out[k])
                              && out[k].payload == [Field("text", Str(Candidate(ins).value))]
                              && (forall j :: 0 <= j < k ==> IsDelta(out[j]))
                              && (forall j :: k < j < |out| ==> !IsDelta(out[j]) && !IsCompleted(out[j])))
  {
    var s := Run(attempt, ins).0;
    CompletionKept(attempt, ins);
    FrameShape(attempt, s, e);
    var s1 := Noted(Flush(attempt, s).0, e.kind);
    var flushed, answer, after := Flush(attempt, s).1, Completed(attempt, s1, e.kind).1, AfterAnswer(attempt, Flush(attempt, s).0, e);
    var out := flushed + answer + after;
    forall i | 0 <= i < |flushed| ensures IsDelta(out[i]) && !IsCompleted(out[i]) {
      FlushedAreDeltas(attempt, s, i);
      assert out[i] == flushed[i];
    }
    forall j | |flushed| + |answer| <= j < |out| ensures !IsDelta(out[j]) && !IsCompleted(out[j]) {
      assert out[j] == after[j - |flushed| - |answer|];
    }
    if answer != [] { assert out[|flushed|] == answer[0]; }
  }

  // ---------------------------------------------------------------- usage

  predicate IsUsage(e: Event) { e.eventType == "usage" }

  function FieldText(p: Payload, key: string): Option<Text> {
    if p == [] then None
    else if p[0].key == key && p[0].value.Str? then Some(p[0].value.text)
    else FieldText(p[1..], key)
  }

  function RequestId(e: Event): Option<Text> { FieldText(e.payload, "upstream_request_id") }

  lemma {:induction false} FieldTextConcat(p: Payload, q: Payload, key: string)
    ensures FieldText(p + q, key) == (if FieldText(p, key).Some? then FieldText(p, key) else FieldText(q, key))
  {
    if p == [] {
      assert p + q == q;
    } else {
      assert (p + q)[1..] == p[1..] + q;
      FieldTextConcat(p[1..], q, key);
    }
  }

  lemma {:induction false} TokenFieldsAreNumbers(tokens: seq<Token>, n: nat)
    requires n <= |tokens| && n <= 4
    ensures FieldText(TokenFields(tokens, n), "upstream_request_id") == None
  {
    if n > 0 {
      TokenFieldsAreNumbers(tokens, n - 1);
      var f: Payload := if tokens[n - 1].Valid? then [Field(TOKEN_NAMES[n - 1], Num(tokens[n - 1].n))] else [];
      FieldTextConcat(TokenFields(tokens, n - 1), f, "upstream_request_id");
      if f != [] { assert f[1..] == []; }
    }
  }

  /** The request id of a usage event is the one the SDK reported. */
  lemma UsageCarriesRequestId(u: Usage)
    ensures FieldText(UsagePayload(u), "upstream_request_id") == u.requestId
  {
    var key := "upstream_request_id";
    var a, b, c, d := TokenFields(u.Tokens(), 4), OptionalField(key, u.requestId), OptionalField("provider", u.provider), OptionalField("model", u.model);
    var e := [Field("usage_status", Str(Ascii(if a == [] then "unavailable" else "available")))];
    TokenFieldsAreNumbers(u.Tokens(), 4);
    FieldTextConcat(a, b, key);
    FieldTextConcat(a + b, c, key);
    FieldTextConcat(a + b + c, d, key);
    FieldTextConcat(a + b + c + d, e, key);
    OneField(key, u.requestId, key);
    OneField("provider", u.provider, key);
    OneField("model", u.model, key);
    assert e[1..] == [];
  }

  lemma OneField(name: string, t: Option<Text>, key: string)
    ensures FieldText(OptionalField(name, t), key) == (if name == key then t else None)
  {
    var f := OptionalField(name, t);
    if f != [] { assert f[1..] == []; }
  }

  /** Every request id that a usage event carries is remembered, and no two events share one. */
  ghost predicate RequestsRemembered(s: State, es: seq<Event>) {
    && (forall i :: 0 <= i < |es| && IsUsage(es[i]) && RequestId(es[i]).Some? ==> RequestKey(RequestId(es[i]).value) in s.seen)
    && (forall i, j :: 0 <= i < j < |es| && IsUsage(es[i]) && IsUsage(es[j]) && RequestId(es[i]).Some?
                       ==> RequestId(es[i]) != RequestId(es[j]))
  }

  /** A usage event, if there is one in `fs`, comes last and brings a request id that is new in `s`. */
  ghost predicate FreshRequest(s: State, t: State, fs: seq<Event>) {
    && s.seen <= t.seen
    && (forall i :: 0 <= i < |fs| - 1 ==> !IsUsage(fs[i]))
    && (fs != [] && IsUsage(fs[|fs| - 1]) && RequestId(fs[|fs| - 1]).Some? ==>
          var key := RequestKey(RequestId(fs[|fs| - 1]).value); key !in s.seen && key in t.seen)
  }

  lemma AccountingUsage(attempt: string, s: State, kind: FrameKind, usage: Option<Usage>)
    ensures var (t, es) := ProjectAccounting(attempt, s, kind, usage); |es| <= 1 && FreshRequest(s, t, es)
    ensures forall k :: k in s.seen ==> k in ProjectAccounting(attempt, s, kind, usage).0.seen
  {
    var es := ProjectAccounting(attempt, s, kind, usage).1;
    if usage.Some? {
      UsageCarriesRequestId(usage.value);
    } else if es != [] {
      assert es[0].payload[1..] == [];
    }
  }

  lemma FrameUsage(attempt: string, s: State, e: SdkEvent)
    requires e.Frame?
    ensures var (t, fs) := ProjectFrame(attempt, s, e); FreshRequest(s, t, fs)
  {
    var (s1, flushed) := Flush(attempt, s);
    var (s2, completed) := Completed(attempt, Noted(s1, e.kind), e.kind);
    var (s3, generic) := ProjectGeneric(attempt, s2, e.kind, e.identity);
    BeforeUsage(attempt, s, e);
    AccountingUsage(attempt, s3, e.kind, UsageOf(e));
  }

  lemma BeforeUsage(attempt: string, s: State, e: SdkEvent)
    requires e.Frame?
    ensures var (s1, flushed) := Flush(attempt, s);
            var (s2, completed) := Completed(attempt, Noted(s1, e.kind), e.kind);
            var (s3, generic) := ProjectGeneric(attempt, s2, e.kind, e.identity);
            && s.seen <= s3.seen
            && (forall x :: RequestKey(x) in s3.seen ==> RequestKey(x) in s.seen)
            && (forall i :: 0 <= i < |flushed + completed + generic| ==> !IsUsage((flushed + completed + generic)[i]))
  {
    var flushed := Flush(attempt, s).1;
    forall i | 0 <= i < |flushed| ensures !IsUsage(flushed[i]) { FlushedAreDeltas(attempt, s, i); }
  }

  lemma RequestsGrow(s: State, t: State, es: seq<Event>, fs: seq<Event>)
    requires RequestsRemembered(s, es) && FreshRequest(s, t, fs)
    ensures RequestsRemembered(t, es + fs)
  {
    var all := es + fs;
    forall i, j | 0 <= i < j < |all| && IsUsage(all[i]) && IsUsage(all[j]) && RequestId(all[i]).Some?
      ensures RequestId(all[i]) != RequestId(all[j])
    {
      if i < |es| { assert RequestKey(RequestId(es[i]).value) in s.seen; }
    }
  }

  lemma {:induction false} RequestsKept(attempt: string, ins: seq<Input>)
    ensures RequestsRemembered(Run(attempt, ins).0, Run(attempt, ins).1)
  {
    if ins != [] {
      RequestsKept(attempt, Before(ins));
      var (s, es) := Run(attempt, Before(ins));
      RespondUsage(attempt, s, Last(ins));
      RequestsGrow(s, Respond(attempt, s, Last(ins)).0, es, Respond(attempt, s, Last(ins)).1);
    }
  }

  lemma RespondUsage(attempt: string, s: State, i: Input)
    ensures FreshRequest(s, Respond(attempt, s, i).0, Respond(attempt, s, i).1)
  {
    if i.Sdk? && i.e.Frame? { FrameUsage(attempt, s, i.e); } else { QuietInput(attempt, s, i); }
  }

  /** No two usage events of an attempt share an upstream request id. */
  lemma RequestReportedOnce(attempt: string, ins: seq<Input>, i: nat, j: nat)
    requires i < j < |Run(attempt, ins).1|
    requires IsUsage(Run(attempt, ins).1[i]) && IsUsage(Run(attempt, ins).1[j])
    requires RequestId(Run(attempt, ins).1[i]).Some?
    ensures RequestId(Run(attempt, ins).1[i]) != RequestId(Run(attempt, ins).1[j])
  {
    RequestsKept(attempt, ins);
  }

  predicate Resets(i: Input) { i.Sdk? && i.e.Frame? && (i.e.kind == AgentStart || i.e.kind == TurnStart) }

  predicate SomeUsage(es: seq<Event>) { exists i :: 0 <= i < |es| && IsUsage(es[i]) }

  /** Whether a usage event was emitted since the last turn reset. */
  predicate UsageSinceReset(attempt: string, ins: seq<Input>) {
    ins != [] &&
    var now := SomeUsage(Respond(attempt, Run(attempt, Before(ins)).0, Last(ins)).1);
    if Resets(Last(ins)) then now else now || UsageSinceReset(attempt, Before(ins))
  }

  lemma {:induction false} TurnFlagMeaning(attempt: string, ins: seq<Input>)
    ensures Run(attempt, ins).0.usageThisTurn <==> UsageSinceReset(attempt, ins)
  {
    if ins != [] {
      TurnFlagMeaning(attempt, Before(ins));
      var s := Run(attempt, Before(ins)).0;
      var i := Last(ins);
      if i.Sdk? && i.e.Frame? { FrameFlag(attempt, s, i.e); } else { QuietInput(attempt, s, i); }
    }
  }

  lemma FrameFlag(attempt: string, s: State, e: SdkEvent)
    requires e.Frame?
    ensures var (t, fs) := ProjectFrame(attempt, s, e);
            t.usageThisTurn == (SomeUsage(fs) || (s.usageThisTurn && !(e.kind == AgentStart || e.kind == TurnStart)))
  {
    var (s1, flushed) := Flush(attempt, s);
    var (s2, completed) := Completed(attempt, Noted(s1, e.kind), e.kind);
    var (s3, generic) := ProjectGeneric(attempt, s2, e.kind, e.identity);
    var (s4, accounting) := ProjectAccounting(attempt, s3, e.kind, UsageOf(e));
    var fs := flushed + completed + generic + accounting;
    forall i | 0 <= i < |flushed| ensures !IsUsage(flushed[i]) { FlushedAreDeltas(attempt, s, i); }
    if accounting != [] { assert IsUsage(fs[|fs| - 1]); }
  }

  /** The fallback: a frame that ends a turn without a usage object emits a usage record exactly when
      none was emitted since the last reset. So it comes at most once per turn and never after another. */
  lemma FallbackInFrame(attempt: string, ins: seq<Input>, e: SdkEvent, now: int)
    requires e.Frame? && TurnBoundary(e.kind) && UsageOf(e) == None
    ensures SomeUsage(Respond(attempt, Run(attempt, ins).0, Sdk(e, now)).1) <==> !UsageSinceReset(attempt, ins)
    ensures UsageSinceReset(attempt, ins + [Sdk(e, now)])
  {
    TurnFlagMeaning(attempt, ins);
    var all := ins + [Sdk(e, now)];
    assert Before(all) == ins && Last(all) == Sdk(e, now);
    TurnFlagMeaning(attempt, all);
    BoundaryFlag(attempt, Run(attempt, ins).0, e);
  }

  lemma BoundaryFlag(attempt: string, s: State, e: SdkEvent)
    requires e.Frame? && TurnBoundary(e.kind) && UsageOf(e) == None
    ensures ProjectFrame(attempt, s, e).0.usageThisTurn
    ensures SomeUsage(ProjectFrame(attempt, s, e).1) <==> !s.usageThisTurn
  {
    FrameFlag(attempt, s, e);
    var (s1, flushed) := Flush(attempt, s);
    var (s2, completed) := Completed(attempt, Noted(s1, e.kind), e.kind);
    var (s3, generic) := ProjectGeneric(attempt, s2, e.kind, e.identity);
    var (s4, accounting) := ProjectAccounting(attempt, s3, e.kind, UsageOf(e));
    var fs := flushed + completed + generic + accounting;
    forall i | 0 <= i < |flushed| ensures !IsUsage(flushed[i]) { FlushedAreDeltas(attempt, s, i); }
    if !s.usageThisTurn { assert accounting != [] && IsUsage(fs[|fs| - 1]); }
  }
}
