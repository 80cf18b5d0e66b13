/** What the events of a frame say, and when they are emitted: usage and the generic events, in terms of
    the SDK frames alone. */
module FramePayloads {
  import opened Wrappers
  import opened Utf16Text
  import opened Protocol
  import opened Projection
  import opened DeltaConservation
  import P = ProjectorRuns
  import T = ProjectorTurns
  import opened ProjectorTheorems
  import opened FrameHistory

  /** A usage event reports exactly the counts, the request id, the provider and the model of its usage
      object, each under its own key, and is available exactly if some count is valid. */
  lemma UsageSaysWhatWasReported(u: Usage, v: Scalar)
    ensures SaysOf(UsagePayload(u), u, v)
  {
    CountKeys(u, v);
    TextKeys(u, v);
  }

  /** A usage event is the last event of a frame; without a usage object, it says no more than that usage
      is unavailable, and the frame ends a turn. */
  lemma UsageComesFromFrame(attempt: string, ins: seq<P.Input>, ss: seq<State>, outs: seq<seq<Event>>, i: nat, k: nat)
    requires IsRun(attempt, ins, ss, outs) && i < |ins| && k < |outs[i]| && T.IsUsage(outs[i][k])
    ensures IsFrame(ins[i]) && k == |outs[i]| - 1
    ensures UsageOf(ins[i].e) == None ==>
              TurnBoundary(ins[i].e.kind) && outs[i][k].payload == [Field("usage_status", Str(Ascii("unavailable")))]
  {
    assert RespondsAt(attempt, ins, ss, outs, i);
    if !IsFrame(ins[i]) {
      T.QuietInput(attempt, ss[i], ins[i]);
      assert false;
    } else {
      AccountingComesLast(attempt, ss[i], ins[i].e, k);
    }
  }

  ghost predicate SaysExactly(p: Payload, u: Usage) { forall v :: SaysOf(p, u, v) }

  /** A frame with a usage object emits a usage event exactly if all counts can be read and no frame before
      has reported the same provider call; the event says what the object reports, member by member. */
  lemma UsageReported(attempt: string, ins: seq<P.Input>, ss: seq<State>, outs: seq<seq<Event>>, i: nat)
    requires IsRun(attempt, ins, ss, outs) && i < |ins| && IsFrame(ins[i]) && UsageOf(ins[i].e).Some?
    ensures T.SomeUsage(outs[i]) <==> FirstReport(ins, i)
    ensures forall k :: 0 <= k < |outs[i]| && T.IsUsage(outs[i][k]) ==> SaysExactly(outs[i][k].payload, UsageOf(ins[i].e).value)
  {
    assert RespondsAt(attempt, ins, ss, outs, i);
    var e, u := ins[i].e, UsageOf(ins[i].e).value;
    if ReportOf(ins[i]).Some? { NewCall(attempt, ins, ss, outs, i); }
    UsageOfFrame(attempt, ss[i], ins[i]);
    forall k | 0 <= k < |outs[i]| && T.IsUsage(outs[i][k]) ensures SaysExactly(outs[i][k].payload, u) {
      AccountingComesLast(attempt, ss[i], e, k);
      forall v ensures SaysOf(outs[i][k].payload, u, v) { UsageSaysWhatWasReported(u, v); }
    }
  }

  /** A frame emits an event of its own kind exactly if it has such an event and no frame before with the
      same event id has emitted one. */
  lemma FrameTold(attempt: string, ins: seq<P.Input>, ss: seq<State>, outs: seq<seq<Event>>, i: nat, eventType: string)
    requires IsRun(attempt, ins, ss, outs) && i < |ins| && IsFrame(ins[i]) && eventType in OF_FRAME
    ensures EmitsType(outs[i], eventType) <==> Tells(ins[i].e.kind, eventType) && NotToldBefore(ins, i)
  {
    assert RespondsAt(attempt, ins, ss, outs, i);
    GenericTells(ins[i].e.kind);
    NotSeenBefore(attempt, ins, ss, outs, i);
    if k: nat :| k < |outs[i]| && outs[i][k].eventType == eventType { GenericOfFrame(attempt, ss[i], ins[i].e, k); }
    if Tells(ins[i].e.kind, eventType) && NotToldBefore(ins, i) { GenericIsEmitted(attempt, ss[i], ins[i].e); }
  }

  /** The events of a tool call carry its id; the start names the tool, the end says failed exactly if the
      call failed. */
  lemma ToolEventsSay(attempt: string, ins: seq<P.Input>, ss: seq<State>, outs: seq<seq<Event>>, i: nat, k: nat)
    requires IsRun(attempt, ins, ss, outs) && i < |ins| && k < |outs[i]|
    ensures outs[i][k].eventType == "tool.start" ==>
              IsFrame(ins[i]) && ins[i].e.kind.ToolStart? && ins[i].e.kind.call.Some?
              && forall v :: StartSays(outs[i][k].payload, ins[i].e.kind.call.value.0, ins[i].e.kind.call.value.1, v)
    ensures outs[i][k].eventType == "tool.end" ==>
              IsFrame(ins[i]) && ins[i].e.kind.ToolEnd? && ins[i].e.kind.callId.Some?
              && forall v :: EndSays(outs[i][k].payload, ins[i].e.kind.callId.value, ins[i].e.kind.failed, v)
  {
    if outs[i][k].eventType in {"tool.start", "tool.end"} {
      assert RespondsAt(attempt, ins, ss, outs, i);
      if !IsFrame(ins[i]) {
        T.QuietInput(attempt, ss[i], ins[i]);
        assert false;
      } else {
        GenericOfFrame(attempt, ss[i], ins[i].e, k);
        GenericTells(ins[i].e.kind);
        ToolPayloads(ins[i].e.kind);
      }
    }
  }

  /** What the usage and tool events among the events of a frame say. */
  ghost predicate FrameSays(e: SdkEvent, out: seq<Event>)
    requires e.Frame?
  {
    forall k :: 0 <= k < |out| ==>
      && (T.IsUsage(out[k]) && UsageOf(e).Some? ==> SaysExactly(out[k].payload, UsageOf(e).value))
      && (out[k].eventType == "tool.start" ==>
            e.kind.ToolStart? && e.kind.call.Some? && forall v :: StartSays(out[k].payload, e.kind.call.value.0, e.kind.call.value.1, v))
      && (out[k].eventType == "tool.end" ==>
            e.kind.ToolEnd? && e.kind.callId.Some? && forall v :: EndSays(out[k].payload, e.kind.callId.value, e.kind.failed, v))
  }

  lemma FrameEventsSay(attempt: string, s: State, e: SdkEvent)
    requires e.Frame?
    ensures FrameSays(e, ProjectFrame(attempt, s, e).1)
  {
    var out := ProjectFrame(attempt, s, e).1;
    GenericTells(e.kind);
    ToolPayloads(e.kind);
    forall k: nat | k < |out|
      ensures T.IsUsage(out[k]) && UsageOf(e).Some? ==> SaysExactly(out[k].payload, UsageOf(e).value)
      ensures out[k].eventType in {"tool.start", "tool.end"} ==>
                Generic(e.kind).Some? && out[k].eventType == Generic(e.kind).value.0 && out[k].payload == Generic(e.kind).value.1
    {
      AccountingComesLast(attempt, s, e, k);
      if T.IsUsage(out[k]) && UsageOf(e).Some? {
        forall v ensures SaysOf(out[k].payload, UsageOf(e).value, v) { UsageSaysWhatWasReported(UsageOf(e).value, v); }
      }
      if out[k].eventType in {"tool.start", "tool.end"} { GenericOfFrame(attempt, s, e, k); }
    }
  }
}
