/** What the payload of a usage or tool event contains, and what earlier frames have used up.

    A payload is read member by member: `Says(p, key, v)` is that it has this value under this key. For the
    usage payload that is worked out from its parts (`CountsSay`, `PayloadSays`), for the tool events from
    their two members.

    The projector remembers what it has seen as a set of keys. `SeenMeaning` gives that set in terms of the
    frames of the run alone: a key is there exactly if some frame has added it (`Adds`), which a frame does
    with the event id under which it emitted its own event and with the provider call whose usage it
    reported. Two usage objects stand for one provider call exactly if their keys agree (`KeysMeanCalls`).
    The theorems about runs are in FramePayloads. */
module FrameHistory {
  import opened Wrappers
  import opened Utf16Text
  import opened Protocol
  import opened Projection
  import opened DeltaConservation
  import P = ProjectorRuns
  import T = ProjectorTurns
  import opened ProjectorTheorems

  // ---------------------------------------------------------------- usage payloads

  predicate Says(p: Payload, key: string, v: Scalar) { Field(key, v) in p }

  /** A member for a count that was reported, and none otherwise. */
  predicate SaysCount(p: Payload, key: string, t: Token, v: Scalar) { Says(p, key, v) <==> t.Valid? && v == Num(t.n) }

  predicate SaysText(p: Payload, key: string, t: Option<Text>, v: Scalar) { Says(p, key, v) <==> t.Some? && v == Str(t.value) }

  /** The payload says `v` under a key exactly if that is what the usage object reports there. */
  predicate SaysOf(p: Payload, u: Usage, v: Scalar) {
    && SaysCount(p, "input_tokens", u.input, v) && SaysCount(p, "output_tokens", u.output, v)
    && SaysCount(p, "cache_read_tokens", u.cacheRead, v) && SaysCount(p, "cache_write_tokens", u.cacheWrite, v)
    && SaysText(p, "upstream_request_id", u.requestId, v)
    && SaysText(p, "provider", u.provider, v) && SaysText(p, "model", u.model, v)
    && (Says(p, "usage_status", v) <==> v == Str(Ascii(if SomeCount(u) then "available" else "unavailable")))
  }

  predicate SomeCount(u: Usage) { u.input.Valid? || u.output.Valid? || u.cacheRead.Valid? || u.cacheWrite.Valid? }

  function CountField(key: string, t: Token): Payload { if t.Valid? then [Field(key, Num(t.n))] else [] }

  lemma CountFields(u: Usage)
    ensures TokenFields(u.Tokens(), 4) ==
            CountField("input_tokens", u.input) + CountField("output_tokens", u.output)
            + CountField("cache_read_tokens", u.cacheRead) + CountField("cache_write_tokens", u.cacheWrite)
  {
    var ts := u.Tokens();
    assert TokenFields(ts, 1) == [] + CountField("input_tokens", u.input);
    assert TokenFields(ts, 2) == TokenFields(ts, 1) + CountField("output_tokens", u.output);
    assert TokenFields(ts, 3) == TokenFields(ts, 2) + CountField("cache_read_tokens", u.cacheRead);
    assert TokenFields(ts, 4) == TokenFields(ts, 3) + CountField("cache_write_tokens", u.cacheWrite);
  }

  lemma SaysConcat(p: Payload, q: Payload, key: string, v: Scalar)
    ensures Says(p + q, key, v) <==> Says(p, key, v) || Says(q, key, v)
  {
  }

  predicate IsCount(name: string, t: Token, key: string, v: Scalar) { key == name && t.Valid? && v == Num(t.n) }

  predicate IsText(name: string, t: Option<Text>, key: string, v: Scalar) { key == name && t.Some? && v == Str(t.value) }

  function Status(u: Usage): Scalar { Str(Ascii(if SomeCount(u) then "available" else "unavailable")) }

  /** The members of a usage payload, one by one. */
  predicate Reports(u: Usage, key: string, v: Scalar) {
    || IsCount("input_tokens", u.input, key, v) || IsCount("output_tokens", u.output, key, v)
    || IsCount("cache_read_tokens", u.cacheRead, key, v) || IsCount("cache_write_tokens", u.cacheWrite, key, v)
    || IsText("upstream_request_id", u.requestId, key, v)
    || IsText("provider", u.provider, key, v) || IsText("model", u.model, key, v)
    || (key == "usage_status" && v == Status(u))
  }

  lemma CountsSay(u: Usage, key: string, v: Scalar)
    ensures var p := TokenFields(u.Tokens(), 4);
            && (p == [] <==> !SomeCount(u))
            && (Says(p, key, v) <==>
                  || IsCount("input_tokens", u.input, key, v) || IsCount("output_tokens", u.output, key, v)
                  || IsCount("cache_read_tokens", u.cacheRead, key, v) || IsCount("cache_write_tokens", u.cacheWrite, key, v))
  {
    CountFields(u);
    var a, b, c, d := CountField("input_tokens", u.input), CountField("output_tokens", u.output),
                      CountField("cache_read_tokens", u.cacheRead), CountField("cache_write_tokens", u.cacheWrite);
    SaysConcat(a, b, key, v);
    SaysConcat(a + b, c, key, v);
    SaysConcat(a + b + c, d, key, v);
  }

  lemma PayloadSays(u: Usage, key: string, v: Scalar)
    ensures Says(UsagePayload(u), key, v) <==> Reports(u, key, v)
  {
    CountsSay(u, key, v);
    var p := TokenFields(u.Tokens(), 4);
    var e, f, g := OptionalField("upstream_request_id", u.requestId), OptionalField("provider", u.provider), OptionalField("model", u.model);
    SaysConcat(p, e, key, v);
    SaysConcat(p + e, f, key, v);
    SaysConcat(p + e + f, g, key, v);
    SaysConcat(p + e + f + g, [Field("usage_status", Status(u))], key, v);
  }

  lemma CountKeys(u: Usage, v: Scalar)
    ensures var p := UsagePayload(u);
            && SaysCount(p, "input_tokens", u.input, v) && SaysCount(p, "output_tokens", u.output, v)
            && SaysCount(p, "cache_read_tokens", u.cacheRead, v) && SaysCount(p, "cache_write_tokens", u.cacheWrite, v)
  {
    PayloadSays(u, "input_tokens", v);
    assert "input_tokens"[0] != "usage_status"[0];
    PayloadSays(u, "output_tokens", v);
    PayloadSays(u, "cache_read_tokens", v);
    PayloadSays(u, "cache_write_tokens", v);
  }

  lemma TextKeys(u: Usage, v: Scalar)
    ensures var p := UsagePayload(u);
            && SaysText(p, "upstream_request_id", u.requestId, v)
            && SaysText(p, "provider", u.provider, v) && SaysText(p, "model", u.model, v)
            && (Says(p, "usage_status", v) <==> v == Status(u))
  {
    PayloadSays(u, "upstream_request_id", v);
    PayloadSays(u, "provider", v);
    PayloadSays(u, "model", v);
    PayloadSays(u, "usage_status", v);
    assert "input_tokens"[0] != "usage_status"[0];
  }

  // ---------------------------------------------------------------- what earlier frames have used up

  function TurnAfter(turn: nat, i: P.Input): nat {
    if IsFrame(i) && i.e.kind == AgentStart then 0 else if IsFrame(i) && i.e.kind == TurnStart then turn + 1 else turn
  }

  /** Turn starts since the last agent start. */
  function TurnOf(ins: seq<P.Input>): nat { if ins == [] then 0 else TurnAfter(TurnOf(P.Before(ins)), P.Last(ins)) }

  /** The usage object of a frame, if all its counts can be read. */
  function ReportOf(i: P.Input): Option<Usage> {
    if IsFrame(i) && UsageOf(i.e).Some? && Invalid !in UsageOf(i.e).value.Tokens() then UsageOf(i.e) else None
  }

  /** Two usage objects of turns `m` and `n` that stand for one provider call: the same request id; without
      any, the same message; without either, the same counts and names in the same turn. */
  predicate SameCall(u: Usage, m: nat, w: Usage, n: nat) {
    if u.requestId.Some? || w.requestId.Some? then u.requestId == w.requestId
    else if u.messageId.Some? || w.messageId.Some? then u.messageId == w.messageId
    else
      && m == n && u.input == w.input && u.output == w.output && u.cacheRead == w.cacheRead && u.cacheWrite == w.cacheWrite
      && OrEmpty(u.provider) == OrEmpty(w.provider) && OrEmpty(u.model) == OrEmpty(w.model)
  }

  predicate ReportedBy(ins: seq<P.Input>, j: nat, u: Usage, turn: nat)
    requires j < |ins|
  {
    ReportOf(ins[j]).Some? && SameCall(ReportOf(ins[j]).value, TurnOf(ins[..j + 1]), u, turn)
  }

  predicate NoneReported(ins: seq<P.Input>, i: nat, u: Usage, turn: nat)
    requires i <= |ins|
  {
    forall j :: 0 <= j < i ==> !ReportedBy(ins, j, u, turn)
  }

  /** No frame before `i` has reported the provider call of frame `i`. */
  predicate FirstReport(ins: seq<P.Input>, i: nat)
    requires i < |ins|
  {
    ReportOf(ins[i]).Some? && NoneReported(ins, i, ReportOf(ins[i]).value, TurnOf(ins[..i + 1]))
  }

  /** The events that stand for a frame as such. */
  predicate Tells(kind: FrameKind, eventType: string) {
    || (eventType == "agent.turn.start" && kind == AgentStart)
    || (eventType == "turn.start" && kind == TurnStart)
    || (eventType == "agent.turn.end" && (kind == AgentEnd || kind == TurnEnd))
    || (eventType == "message.start" && kind == MessageStart)
    || (eventType == "tool.start" && kind.ToolStart? && kind.call.Some?)
    || (eventType == "tool.end" && kind.ToolEnd? && kind.callId.Some?)
  }

  ghost predicate TellsSomething(i: P.Input) { IsFrame(i) && exists t :: Tells(i.e.kind, t) }

  ghost predicate ToldBy(ins: seq<P.Input>, j: nat, id: Text)
    requires j < |ins|
  {
    TellsSomething(ins[j]) && ins[j].e.identity == Some(id)
  }

  ghost predicate NotToldBefore(ins: seq<P.Input>, i: nat)
    requires i < |ins| && IsFrame(ins[i])
  {
    ins[i].e.identity.Some? ==> forall j :: 0 <= j < i ==> !ToldBy(ins, j, ins[i].e.identity.value)
  }

  function KeyOf(u: Usage, turn: nat): SeenKey { UsageKey(Init.(turnIndex := turn), u) }

  lemma KeysMeanCalls(u: Usage, m: nat, w: Usage, n: nat)
    requires Invalid !in u.Tokens() && Invalid !in w.Tokens()
    ensures KeyOf(u, m) == KeyOf(w, n) <==> SameCall(u, m, w, n)
  {
    if u.requestId.None? && w.requestId.None? && u.messageId.None? && w.messageId.None? {
      var a, b := KeyOf(u, m).tokens, KeyOf(w, n).tokens;
      assert u.Tokens()[0] == u.input && u.Tokens()[1] == u.output && u.Tokens()[2] == u.cacheRead && u.Tokens()[3] == u.cacheWrite;
      assert w.Tokens()[0] == w.input && w.Tokens()[1] == w.output && w.Tokens()[2] == w.cacheRead && w.Tokens()[3] == w.cacheWrite;
      assert a == [TokenPrint(u.input), TokenPrint(u.output), TokenPrint(u.cacheRead), TokenPrint(u.cacheWrite)];
      assert b == [TokenPrint(w.input), TokenPrint(w.output), TokenPrint(w.cacheRead), TokenPrint(w.cacheWrite)];
      if a == b { assert a[0] == b[0] && a[1] == b[1] && a[2] == b[2] && a[3] == b[3]; }
    }
  }

  lemma GenericTells(kind: FrameKind)
    ensures Generic(kind).Some? ==> Tells(kind, Generic(kind).value.0)
    ensures forall t :: Tells(kind, t) ==> Generic(kind).Some? && Generic(kind).value.0 == t
  {
  }

  /** What a frame adds to the keys seen. */
  ghost predicate Adds(i: P.Input, turn: nat, key: SeenKey) {
    || (TellsSomething(i) && i.e.identity.Some? && key == EventKey(i.e.identity.value))
    || (ReportOf(i).Some? && key == KeyOf(ReportOf(i).value, turn))
  }

  lemma GenericAdds(attempt: string, s: State, i: P.Input, key: SeenKey)
    requires IsFrame(i)
    ensures var t := ProjectGeneric(attempt, s, i.e.kind, i.e.identity).0;
            && t.turnIndex == s.turnIndex
            && (key in t.seen <==> key in s.seen || (TellsSomething(i) && i.e.identity.Some? && key == EventKey(i.e.identity.value)))
  {
    GenericTells(i.e.kind);
  }

  lemma AccountingAdds(attempt: string, s: State, i: P.Input, key: SeenKey)
    requires IsFrame(i)
    ensures var t := ProjectAccounting(attempt, s, i.e.kind, UsageOf(i.e)).0;
            && t.turnIndex == s.turnIndex
            && (key in t.seen <==> key in s.seen || (ReportOf(i).Some? && key == KeyOf(ReportOf(i).value, s.turnIndex)))
  {
    if UsageOf(i.e).Some? { assert UsageKey(s, UsageOf(i.e).value) == KeyOf(UsageOf(i.e).value, s.turnIndex); }
  }

  /** The state in which a frame comes to its usage. */
  function BeforeAccounting(attempt: string, s: State, e: SdkEvent): State
    requires e.Frame?
  {
    ProjectGeneric(attempt, Completed(attempt, Noted(Flush(attempt, s).0, e.kind), e.kind).0, e.kind, e.identity).0
  }

  lemma AddsBeforeAccounting(attempt: string, s: State, i: P.Input, key: SeenKey)
    requires IsFrame(i)
    ensures var t := BeforeAccounting(attempt, s, i.e);
            && t.turnIndex == Noted(s, i.e.kind).turnIndex
            && (key in t.seen <==> key in s.seen || (TellsSomething(i) && i.e.identity.Some? && key == EventKey(i.e.identity.value)))
  {
    var s2 := Completed(attempt, Noted(Flush(attempt, s).0, i.e.kind), i.e.kind).0;
    assert s2.seen == s.seen && s2.turnIndex == Noted(s, i.e.kind).turnIndex;
    GenericAdds(attempt, s2, i, key);
  }

  lemma FrameAdds(attempt: string, s: State, i: P.Input, key: SeenKey)
    requires IsFrame(i)
    ensures var t := ProjectFrame(attempt, s, i.e).0;
            && t.turnIndex == Noted(s, i.e.kind).turnIndex
            && (key in t.seen <==> key in s.seen || Adds(i, t.turnIndex, key))
  {
    AddsBeforeAccounting(attempt, s, i, key);
    AccountingAdds(attempt, BeforeAccounting(attempt, s, i.e), i, key);
  }

  ghost predicate AddedBy(ins: seq<P.Input>, j: nat, key: SeenKey)
    requires j < |ins|
  {
    Adds(ins[j], TurnOf(ins[..j + 1]), key)
  }

  lemma SeenStep(attempt: string, s: State, i: P.Input, key: SeenKey)
    ensures var t := P.Respond(attempt, s, i).0;
            t.turnIndex == TurnAfter(s.turnIndex, i) && (key in t.seen <==> key in s.seen || Adds(i, t.turnIndex, key))
  {
    if IsFrame(i) { FrameAdds(attempt, s, i, key); } else { T.QuietInput(attempt, s, i); }
  }

  /** The keys seen are those that the frames before have added. */
  lemma {:induction false} SeenMeaning(attempt: string, ins: seq<P.Input>, ss: seq<State>, outs: seq<seq<Event>>, n: nat, key: SeenKey)
    requires IsRun(attempt, ins, ss, outs) && n <= |ins|
    ensures ss[n].turnIndex == TurnOf(ins[..n])
    ensures key in ss[n].seen <==> exists j :: 0 <= j < n && AddedBy(ins, j, key)
  {
    if n > 0 {
      SeenMeaning(attempt, ins, ss, outs, n - 1, key);
      assert RespondsAt(attempt, ins, ss, outs, n - 1);
      assert P.Before(ins[..n]) == ins[..n - 1] && P.Last(ins[..n]) == ins[n - 1];
      SeenStep(attempt, ss[n - 1], ins[n - 1], key);
      assert key in ss[n].seen <==> key in ss[n - 1].seen || AddedBy(ins, n - 1, key);
    }
  }

  // ---------------------------------------------------------------- usage events

  function Accounting(attempt: string, s: State, e: SdkEvent): seq<Event>
    requires e.Frame?
  {
    ProjectAccounting(attempt, BeforeAccounting(attempt, s, e), e.kind, UsageOf(e)).1
  }

  lemma AccountingComesLast(attempt: string, s: State, e: SdkEvent, k: nat)
    requires e.Frame? && k < |ProjectFrame(attempt, s, e).1|
    ensures var out, last := ProjectFrame(attempt, s, e).1, Accounting(attempt, s, e);
            && (T.IsUsage(out[k]) ==> k == |out| - 1 && last == [out[k]])
            && (last != [] ==> T.IsUsage(out[|out| - 1]))
  {
    var (s1, flushed) := Flush(attempt, s);
    var (s2, completed) := Completed(attempt, Noted(s1, e.kind), e.kind);
    var (s3, generic) := ProjectGeneric(attempt, s2, e.kind, e.identity);
    T.BeforeUsage(attempt, s, e);
    var before, last := flushed + completed + generic, Accounting(attempt, s, e);
    assert ProjectFrame(attempt, s, e).1 == before + last;
    if k < |before| { assert !T.IsUsage(before[k]); }
  }

  lemma UsageOfFrame(attempt: string, s: State, i: P.Input)
    requires IsFrame(i) && UsageOf(i.e).Some?
    ensures var t := BeforeAccounting(attempt, s, i.e);
            T.SomeUsage(ProjectFrame(attempt, s, i.e).1) <==> ReportOf(i).Some? && UsageKey(t, ReportOf(i).value) !in t.seen
  {
    var out, last := ProjectFrame(attempt, s, i.e).1, Accounting(attempt, s, i.e);
    if k: nat :| k < |out| && T.IsUsage(out[k]) { AccountingComesLast(attempt, s, i.e, k); }
    if last != [] {
      assert |out| >= |last|;
      AccountingComesLast(attempt, s, i.e, |out| - 1);
    }
  }

  /** The key of the usage object is free exactly if no frame before reported its provider call. */
  lemma NewCall(attempt: string, ins: seq<P.Input>, ss: seq<State>, outs: seq<seq<Event>>, i: nat)
    requires IsRun(attempt, ins, ss, outs) && i < |ins| && ReportOf(ins[i]).Some?
    ensures var t := BeforeAccounting(attempt, ss[i], ins[i].e);
            UsageKey(t, ReportOf(ins[i]).value) !in t.seen <==> FirstReport(ins, i)
  {
    var u, turn := ReportOf(ins[i]).value, TurnOf(ins[..i + 1]);
    var key := KeyOf(u, turn);
    SeenMeaning(attempt, ins, ss, outs, i, key);
    assert P.Before(ins[..i + 1]) == ins[..i] && P.Last(ins[..i + 1]) == ins[i];
    AddsBeforeAccounting(attempt, ss[i], ins[i], key);
    forall j: nat | j < i ensures AddedBy(ins, j, key) <==> ReportedBy(ins, j, u, turn) {
      if ReportOf(ins[j]).Some? { KeysMeanCalls(ReportOf(ins[j]).value, TurnOf(ins[..j + 1]), u, turn); }
    }
  }

  // ---------------------------------------------------------------- the events of the frame itself

  const OF_FRAME := {"agent.turn.start", "turn.start", "agent.turn.end", "message.start", "tool.start", "tool.end"}

  predicate EmitsType(out: seq<Event>, eventType: string) { exists k :: 0 <= k < |out| && out[k].eventType == eventType }

  predicate NoneOfFrame(es: seq<Event>) { forall k :: 0 <= k < |es| ==> es[k].eventType !in OF_FRAME }

  lemma OnlyGeneric(flushed: seq<Event>, completed: seq<Event>, generic: seq<Event>, accounting: seq<Event>, k: nat)
    requires NoneOfFrame(flushed) && NoneOfFrame(completed) && NoneOfFrame(accounting)
    requires k < |flushed + completed + generic + accounting|
    requires (flushed + completed + generic + accounting)[k].eventType in OF_FRAME
    ensures (flushed + completed + generic + accounting)[k] in generic
  {
    var before := flushed + completed;
    assert NoneOfFrame(before);
    assert flushed + completed + generic + accounting == before + (generic + accounting);
    assert k >= |before|;
    if k < |before| + |generic| { assert (before + (generic + accounting))[k] == generic[k - |before|]; }
  }

  lemma NoneOfFrameFlushed(attempt: string, s: State)
    ensures NoneOfFrame(Flush(attempt, s).1)
  {
    forall m: nat | m < |Flush(attempt, s).1| ensures Flush(attempt, s).1[m].eventType !in OF_FRAME { T.FlushedAreDeltas(attempt, s, m); }
  }

  lemma GenericOfFrame(attempt: string, s: State, e: SdkEvent, k: nat)
    requires e.Frame? && k < |ProjectFrame(attempt, s, e).1| && ProjectFrame(attempt, s, e).1[k].eventType in OF_FRAME
    ensures Generic(e.kind).Some? && (e.identity.Some? ==> EventKey(e.identity.value) !in s.seen)
    ensures ProjectFrame(attempt, s, e).1[k].eventType == Generic(e.kind).value.0
    ensures ProjectFrame(attempt, s, e).1[k].payload == Generic(e.kind).value.1
  {
    var (s1, flushed) := Flush(attempt, s);
    var (s2, completed) := Completed(attempt, Noted(s1, e.kind), e.kind);
    var (s3, generic) := ProjectGeneric(attempt, s2, e.kind, e.identity);
    var accounting := Accounting(attempt, s, e);
    var out := flushed + completed + generic + accounting;
    assert out == ProjectFrame(attempt, s, e).1;
    NoneOfFrameFlushed(attempt, s);
    OnlyGeneric(flushed, completed, generic, accounting, k);
  }

  lemma GenericIsEmitted(attempt: string, s: State, e: SdkEvent)
    requires e.Frame? && Generic(e.kind).Some? && (e.identity.Some? ==> EventKey(e.identity.value) !in s.seen)
    ensures EmitsType(ProjectFrame(attempt, s, e).1, Generic(e.kind).value.0)
  {
    var (s1, flushed) := Flush(attempt, s);
    var (s2, completed) := Completed(attempt, Noted(s1, e.kind), e.kind);
    var generic := ProjectGeneric(attempt, s2, e.kind, e.identity).1;
    var out := flushed + completed + generic + Accounting(attempt, s, e);
    assert out == ProjectFrame(attempt, s, e).1;
    assert out[|flushed + completed|] == generic[0];
  }

  lemma NotSeenBefore(attempt: string, ins: seq<P.Input>, ss: seq<State>, outs: seq<seq<Event>>, i: nat)
    requires IsRun(attempt, ins, ss, outs) && i < |ins| && IsFrame(ins[i])
    ensures NotToldBefore(ins, i) <==> (ins[i].e.identity.Some? ==> EventKey(ins[i].e.identity.value) !in ss[i].seen)
  {
    if ins[i].e.identity.Some? {
      var id := ins[i].e.identity.value;
      SeenMeaning(attempt, ins, ss, outs, i, EventKey(id));
      forall j: nat | j < i ensures AddedBy(ins, j, EventKey(id)) <==> ToldBy(ins, j, id) {
      }
    }
  }

  predicate StartSays(p: Payload, callId: Text, tool: Text, v: Scalar) {
    (Says(p, "call_id", v) <==> v == Str(callId)) && (Says(p, "internal_tool_name", v) <==> v == Str(tool))
  }

  predicate EndSays(p: Payload, callId: Text, failed: bool, v: Scalar) {
    && (Says(p, "call_id", v) <==> v == Str(callId))
    && (Says(p, "status", v) <==> v == Str(Ascii(if failed then "failed" else "succeeded")))
  }

  lemma ToolPayloads(kind: FrameKind)
    ensures kind.ToolStart? && kind.call.Some? ==>
              forall v :: StartSays(Generic(kind).value.1, kind.call.value.0, kind.call.value.1, v)
    ensures kind.ToolEnd? && kind.callId.Some? ==>
              forall v :: EndSays(Generic(kind).value.1, kind.callId.value, kind.failed, v)
  {
    assert |"call_id"| != |"internal_tool_name"| && |"call_id"| != |"status"|;
  }
}
