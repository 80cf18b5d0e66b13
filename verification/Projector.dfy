/** `PiSdkUsageProjector` as the gateway runs it: an object whose methods update its fields. `Turn` is
    one call from outside; a valid projector has emitted exactly what a run over the inputs of its
    calls emits. */
module Projector {
  import opened Wrappers
  import opened Utf16Text
  import opened Protocol
  import opened Projection
  import opened DeltaConservation
  import P = ProjectorRuns
  import FP = FramePayloads

  class PiSdkUsageProjector {
    const attemptId: string
    var sequence: nat
    var seen: set<SeenKey>
    var completionEmitted: bool
    var pendingCompletionText: Option<Text>
    var turnIndex: nat
    var usageEmittedThisTurn: bool
    var deltaBatches: map<Channel, Batch>
    var firstInserted: Channel
    ghost var fed: seq<P.Input>
    ghost var emitted: seq<Event>

    function View(): State
      reads this
    {
      State(sequence, seen, completionEmitted, pendingCompletionText, turnIndex, usageEmittedThisTurn, deltaBatches, firstInserted)
    }

    ghost predicate Valid()
      reads this
    {
      (View(), emitted) == P.Run(attemptId, fed)
    }

    constructor (attemptId: string)
      ensures Valid() && View() == Init && this.attemptId == attemptId && fed == []
    {
      this.attemptId := attemptId;
      sequence, seen, completionEmitted, pendingCompletionText := 1, {}, false, None;
      turnIndex, usageEmittedThisTurn, deltaBatches, firstInserted := 0, false, map[], Thinking;
      fed, emitted := [], [];
    }

    method NextEvent(eventType: string, payload: Payload) returns (e: Event)
      modifies this`sequence
      ensures e == Numbered(attemptId, old(sequence), eventType, payload) && sequence == old(sequence) + 1
    {
      e := Event(SourceId(attemptId, sequence), sequence, eventType, payload);
      sequence := sequence + 1;
    }

    /** A channel's batch leaves the state as an event: the two lines that both flushes share. */
    method TakeOut(channel: Channel) returns (e: Event)
      requires channel in deltaBatches
      modifies this`sequence, this`deltaBatches
      ensures e == DeltaEvent(attemptId, old(sequence), channel, old(deltaBatches)[channel])
      ensures sequence == old(sequence) + 1 && deltaBatches == old(deltaBatches) - {channel}
    {
      var batch := deltaBatches[channel];
      deltaBatches := deltaBatches - {channel};
      e := NextEvent(DeltaType(channel), DeltaPayload(batch));
    }

    /** The loop of `flush`, over channels that are all pending. */
    method FlushInOrder(order: seq<Channel>) returns (events: seq<Event>)
      requires forall c :: c in order ==> c in deltaBatches
      requires forall i, j :: 0 <= i < j < |order| ==> order[i] != order[j]
      modifies this`sequence, this`deltaBatches
      ensures events == DeltaEvents(attemptId, old(View()), order)
      ensures sequence == old(sequence) + |order|
      ensures forall c :: c in deltaBatches ==> c in old(deltaBatches) && c !in order
    {
      ghost var was, start := deltaBatches, sequence;
      events := [];
      for i := 0 to |order|
        invariant |events| == i && sequence == start + i
        invariant forall k :: 0 <= k < i ==> events[k] == DeltaEvent(attemptId, start + k, order[k], was[order[k]])
        invariant deltaBatches == was - (set c | c in order[..i])
      {
        assert order[..i + 1] == order[..i] + [order[i]];
        var e := TakeOut(order[i]);
        events := events + [e];
      }
      assert order[..|order|] == order;
    }

    method Flush() returns (events: seq<Event>)
      modifies this`sequence, this`deltaBatches
      ensures (View(), events) == Projection.Flush(attemptId, old(View()))
    {
      FlushOrderCovers(View());
      events := FlushInOrder(FlushOrder(View()));
      assert deltaBatches == map[];
    }

    method FlushIfDue(now: int) returns (events: seq<Event>)
      modifies this
      ensures (View(), events) == Projection.FlushIfDue(attemptId, old(View()), now)
    {
      var due := exists c :: c in deltaBatches && now - deltaBatches[c].startedAt >= DELTA_BATCH_MAX_WAIT_MS;
      if due { events := Flush(); } else { events := []; }
    }

    method FlushChannel(channel: Channel) returns (events: seq<Event>)
      modifies this
      ensures (View(), events) == Projection.FlushChannel(attemptId, old(View()), channel)
    {
      if channel !in deltaBatches { return []; }
      var e := TakeOut(channel);
      firstInserted := OtherChannel(channel);
      events := [e];
    }

    /** The start of a loop turn: make sure there is a batch with room for another part. */
    method OpenBatch(channel: Channel, now: int) returns (events: seq<Event>)
      modifies this
      ensures (View(), events) == Open(attemptId, old(View()), channel, now)
    {
      events := [];
      if channel !in deltaBatches || Full(deltaBatches[channel]) {
        events := FlushChannel(channel);
        firstInserted := if OtherChannel(channel) in deltaBatches then OtherChannel(channel) else channel;
        deltaBatches := deltaBatches[channel := Batch([], 0, 0, now)];
      }
    }

    /** One turn of the loop of `appendDelta`. */
    method AppendPart(channel: Channel, remaining: Text, now: int) returns (events: seq<Event>, rest: Text)
      modifies this
      ensures var r := AppendOnce(attemptId, old(View()), channel, remaining, now);
              View() == r.0 && events == r.1 && rest == remaining[r.2..]
    {
      events := OpenBatch(channel, now);
      var batch := deltaBatches[channel];
      var part: Text;
      part, rest := TakeUtf8Prefix(remaining, Room(batch));
      var flushed: seq<Event> := [];
      if part == [] {
        flushed := FlushChannel(channel);
      } else {
        batch := Grown(batch, part);
        deltaBatches := deltaBatches[channel := batch];
        if Full(batch) { flushed := FlushChannel(channel); }
      }
      events := events + flushed;
    }

    method AppendDelta(channel: Channel, value: Text, now: int) returns (events: seq<Event>)
      modifies this
      ensures (View(), events) == Append(attemptId, old(View()), channel, value, now)
    {
      var remaining := value;
      events := [];
      ghost var left := Append(attemptId, View(), channel, value, now);
      ghost var all := left;
      while remaining != []
        invariant left == Append(attemptId, View(), channel, remaining, now)
        invariant left.0 == all.0 && events + left.1 == all.1
        decreases |remaining|, if channel in deltaBatches then 1 else 0
      {
        AppendOnceProgress(attemptId, View(), channel, remaining, now);
        var more, rest := AppendPart(channel, remaining, now);
        ghost var next := Append(attemptId, View(), channel, rest, now);
        assert left.0 == next.0 && left.1 == more + next.1;
        assert events + left.1 == (events + more) + next.1;
        left, events, remaining := next, events + more, rest;
      }
      assert left == (View(), []) && events + [] == events;
    }

    method ProjectUsage(usage: Usage) returns (events: seq<Event>)
      modifies this
      ensures (View(), events) == Projection.ProjectUsage(attemptId, old(View()), usage)
    {
      var key := UsageKey(View(), usage);
      if key in seen || Invalid in usage.Tokens() { return []; }
      seen := seen + {key};
      var e := NextEvent("usage", UsagePayload(usage));
      events := [e];
    }

    /** Turn resets and the completion candidate. */
    method Note(kind: FrameKind)
      modifies this
      ensures View() == Noted(old(View()), kind)
    {
      match kind
      case AgentStart => turnIndex, usageEmittedThisTurn := 0, false;
      case TurnStart => turnIndex, usageEmittedThisTurn := turnIndex + 1, false;
      case ToolStart(_) => pendingCompletionText := None;
      case MessageUpdate(update, candidate) =>
        if (update == TextEnd || update == Done) && candidate.Some? { pendingCompletionText := candidate; }
      case _ =>
    }

    /** The final answer, once per attempt, when a turn ends with a live candidate. */
    method PublishAnswer(kind: FrameKind) returns (events: seq<Event>)
      modifies this
      ensures (View(), events) == Completed(attemptId, old(View()), kind)
    {
      events := [];
      if TurnBoundary(kind) && pendingCompletionText.Some? && !completionEmitted {
        completionEmitted := true;
        var e := NextEvent("message.completed", [Field("text", Str(pendingCompletionText.value))]);
        events, pendingCompletionText := [e], None;
      }
    }

    method PublishGeneric(kind: FrameKind, identity: Option<Text>) returns (events: seq<Event>)
      modifies this
      ensures (View(), events) == ProjectGeneric(attemptId, old(View()), kind, identity)
    {
      var generic := Generic(kind);
      if generic.None? || (identity.Some? && EventKey(identity.value) in seen) { return []; }
      if identity.Some? { seen := seen + {EventKey(identity.value)}; }
      var e := NextEvent(generic.value.0, generic.value.1);
      events := [e];
    }

    /** The reported usage, or the fallback record of a turn that reported none. */
    method PublishUsage(kind: FrameKind, usage: Option<Usage>) returns (events: seq<Event>)
      modifies this
      ensures (View(), events) == ProjectAccounting(attemptId, old(View()), kind, usage)
    {
      events := [];
      if usage.Some? {
        events := ProjectUsage(usage.value);
        if events != [] { usageEmittedThisTurn := true; }
      } else if TurnBoundary(kind) && !usageEmittedThisTurn {
        usageEmittedThisTurn := true;
        var e := NextEvent("usage", [Field("usage_status", Str(Ascii("unavailable")))]);
        events := [e];
      }
    }

    method ProjectFrame(event: SdkEvent) returns (out: seq<Event>)
      requires event.Frame?
      modifies this
      ensures (View(), out) == Projection.ProjectFrame(attemptId, old(View()), event)
    {
      var prefix := Flush();
      Note(event.kind);
      var completed := PublishAnswer(event.kind);
      var generic := PublishGeneric(event.kind, event.identity);
      var usage := PublishUsage(event.kind, UsageOf(event));
      out := prefix + completed + generic + usage;
    }

    /** One SDK event in, its events out: a usage event reports exactly what the usage object does, and the events
        of a tool call carry its id, its name and whether it failed. */
    method Project(event: SdkEvent, now: int) returns (out: seq<Event>)
      modifies this
      ensures (View(), out) == Projection.Project(attemptId, old(View()), event, now)
      ensures event.Frame? ==> FP.FrameSays(event, out)
    {
      if event.Frame? { FP.FrameEventsSay(attemptId, View(), event); }
      match event
      case Malformed => out := [];
      case Frame(_, _, _) => out := ProjectFrame(event);
      case Delta(channel, delta) =>
        out := FlushIfDue(now);
        if delta.Some? {
          var more := AppendDelta(channel, delta.value, now);
          out := out + more;
        }
    }

    /** One call from outside. What was emitted stays in order and numbered from 1, and per channel it is
        followed by what is pending: together, the text of all accepted deltas. */
    method Turn(i: P.Input) returns (out: seq<Event>)
      requires Valid()
      modifies this
      ensures Valid() && fed == old(fed) + [i] && emitted == old(emitted) + out
      ensures (View(), out) == P.Respond(attemptId, old(View()), i)
      ensures forall k :: 0 <= k < |emitted| ==> emitted[k].sequence == k + 1
      ensures forall c :: TextOf(emitted, c) + PendingText(View(), c) == P.Accepted(fed, c)
    {
      ghost var before, events := fed, emitted;
      match i {
        case Sdk(event, now) => out := Project(event, now);
        case FlushDue(now) => out := FlushIfDue(now);
        case FlushNow => out := Flush();
      }
      fed, emitted := before + [i], events + out;
      assert P.Before(fed) == before && P.Last(fed) == i;
      forall k | 0 <= k < |emitted| ensures emitted[k].sequence == k + 1 { P.NumberedWithoutGap(attemptId, fed, k); }
      forall c ensures TextOf(emitted, c) + PendingText(View(), c) == P.Accepted(fed, c) { P.TextConserved(attemptId, fed, c); }
    }
  }
}
