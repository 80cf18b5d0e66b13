/** Whole runs of the projector, seen as inputs, states and outputs side by side: what a frame
    publishes, in terms of the inputs and outputs before it. */
module ProjectorTheorems {
  import opened Wrappers
  import opened Utf16Text
  import opened Protocol
  import opened Projection
  import opened DeltaConservation
  import opened ProjectorRuns
  import opened ProjectorTurns

  predicate RespondsAt(attempt: string, ins: seq<Input>, ss: seq<State>, outs: seq<seq<Event>>, i: nat)
    requires |ss| == |ins| + 1 && |outs| == |ins| && i < |ins|
  {
    (ss[i + 1], outs[i]) == Respond(attempt, ss[i], ins[i])
  }

  /** Input `i` takes the projector from state `i` to the next and emits output `i`. */
  predicate IsRun(attempt: string, ins: seq<Input>, ss: seq<State>, outs: seq<seq<Event>>) {
    && |ss| == |ins| + 1 && |outs| == |ins| && ss[0] == Init
    && forall i :: 0 <= i < |ins| ==> RespondsAt(attempt, ins, ss, outs, i)
  }

  function Flat(outs: seq<seq<Event>>): seq<Event> {
    if outs == [] then [] else Flat(outs[..|outs| - 1]) + outs[|outs| - 1]
  }

  lemma {:induction false} RunUpTo(attempt: string, ins: seq<Input>, ss: seq<State>, outs: seq<seq<Event>>, n: nat)
    requires IsRun(attempt, ins, ss, outs) && n <= |ins|
    ensures Run(attempt, ins[..n]) == (ss[n], Flat(outs[..n]))
  {
    if n > 0 {
      RunUpTo(attempt, ins, ss, outs, n - 1);
      assert RespondsAt(attempt, ins, ss, outs, n - 1);
      assert Before(ins[..n]) == ins[..n - 1] && Last(ins[..n]) == ins[n - 1];
      assert outs[..n][..n - 1] == outs[..n - 1];
    }
  }

  predicate IsFrame(i: Input) { i.Sdk? && i.e.Frame? }

  // ---------------------------------------------------------------- the answer

  predicate Answers(out: seq<Event>) { exists k :: 0 <= k < |out| && IsCompleted(out[k]) }

  /** The answer with this text at position `k`: behind deltas, before everything else. */
  predicate AnswerAt(out: seq<Event>, k: nat, text: Text) {
    && k < |out| && IsCompleted(out[k]) && out[k].payload == [Field("text", Str(text))]
    && (forall j :: 0 <= j < k ==> IsDelta(out[j]))
    && (forall j :: k < j < |out| ==> !IsDelta(out[j]) && !IsCompleted(out[j]))
  }

  lemma {:induction false} NoAnswerYet(outs: seq<seq<Event>>)
    ensures CompletedCount(Flat(outs)) == 0 <==> forall j :: 0 <= j < |outs| ==> !Answers(outs[j])
  {
    if outs != [] {
      var head, last := outs[..|outs| - 1], outs[|outs| - 1];
      NoAnswerYet(head);
      CountConcat(Flat(head), last);
      CountsAnswers(last);
      assert outs == head + [last];
    }
  }

  lemma {:induction false} CountsAnswers(out: seq<Event>)
    ensures CompletedCount(out) == 0 <==> !Answers(out)
  {
    if out != [] {
      CountsAnswers(out[..|out| - 1]);
      assert out == out[..|out| - 1] + [out[|out| - 1]];
      if IsCompleted(out[|out| - 1]) { assert Answers(out); }
    }
  }

  /** Whether frame `i` is due to publish the answer: it ends a turn, a candidate is alive, and no
      frame before it has published one. */
  predicate AnswerDue(ins: seq<Input>, outs: seq<seq<Event>>, i: nat)
    requires i < |ins| && |outs| == |ins| && IsFrame(ins[i])
  {
    TurnBoundary(ins[i].e.kind) && Candidate(ins[..i]).Some? && forall j :: 0 <= j < i ==> !Answers(outs[j])
  }

  /** A frame publishes the answer exactly when it is due, with the live candidate as its text, after
      the deltas it flushed and before its turn end and usage. */
  lemma AnswerPublished(attempt: string, ins: seq<Input>, ss: seq<State>, outs: seq<seq<Event>>, i: nat)
    requires IsRun(attempt, ins, ss, outs) && i < |ins| && IsFrame(ins[i])
    ensures AnswerDue(ins, outs, i) <==> Answers(outs[i])
    ensures AnswerDue(ins, outs, i) ==> exists k :: AnswerAt(outs[i], k, Candidate(ins[..i]).value)
  {
    RunUpTo(attempt, ins, ss, outs, i);
    assert RespondsAt(attempt, ins, ss, outs, i);
    NoAnswerYet(outs[..i]);
    assert (forall j :: 0 <= j < i ==> !Answers(outs[..i][j])) <==> (forall j :: 0 <= j < i ==> !Answers(outs[j])) by {
      assert forall j :: 0 <= j < i ==> outs[..i][j] == outs[j];
    }
    AnswerInFrame(attempt, ins[..i], ins[i].e, ins[i].now);
    if Publishes(attempt, ins[..i], ins[i]) {
      var k: nat :| k < |outs[i]| && IsCompleted(outs[i][k])
                    && outs[i][k].payload == [Field("text", Str(Candidate(ins[..i]).value))]
                    && (forall j :: 0 <= j < k ==> IsDelta(outs[i][j]))
                    && (forall j :: k < j < |outs[i]| ==> !IsDelta(outs[i][j]) && !IsCompleted(outs[i][j]));
      assert AnswerAt(outs[i], k, Candidate(ins[..i]).value);
    }
  }

  // ---------------------------------------------------------------- the fallback

  /** A usage event was emitted by an input before `i`, and no turn was reset since. */
  predicate UsageBefore(ins: seq<Input>, outs: seq<seq<Event>>, i: nat)
    requires i <= |ins| && |outs| == |ins|
  {
    exists j :: 0 <= j < i && SomeUsage(outs[j]) && forall k :: j < k < i ==> !Resets(ins[k])
  }

  lemma {:induction false} UsageBeforeMeaning(attempt: string, ins: seq<Input>, ss: seq<State>, outs: seq<seq<Event>>, n: nat)
    requires IsRun(attempt, ins, ss, outs) && n <= |ins|
    ensures UsageSinceReset(attempt, ins[..n]) <==> UsageBefore(ins, outs, n)
  {
    if n > 0 {
      UsageBeforeMeaning(attempt, ins, ss, outs, n - 1);
      RunUpTo(attempt, ins, ss, outs, n - 1);
      assert RespondsAt(attempt, ins, ss, outs, n - 1);
      assert Before(ins[..n]) == ins[..n - 1] && Last(ins[..n]) == ins[n - 1];
      UsageGrows(ins, outs, n - 1);
    }
  }

  lemma UsageGrows(ins: seq<Input>, outs: seq<seq<Event>>, i: nat)
    requires i < |ins| && |outs| == |ins|
    ensures UsageBefore(ins, outs, i + 1) <==> SomeUsage(outs[i]) || (!Resets(ins[i]) && UsageBefore(ins, outs, i))
  {
    if UsageBefore(ins, outs, i + 1) {
      var j :| 0 <= j < i + 1 && SomeUsage(outs[j]) && forall k :: j < k < i + 1 ==> !Resets(ins[k]);
      if j < i { assert UsageBefore(ins, outs, i); }
    }
    if !Resets(ins[i]) && UsageBefore(ins, outs, i) {
      var j :| 0 <= j < i && SomeUsage(outs[j]) && forall k :: j < k < i ==> !Resets(ins[k]);
      assert forall k :: j < k < i + 1 ==> !Resets(ins[k]);
    }
  }

  /** A frame that ends a turn without a usage object emits a usage record, the fallback, exactly when
      no usage event was emitted since the last turn reset. So there is at most one per turn, and never
      one after another usage event of that turn. */
  lemma FallbackExactlyWhenNone(attempt: string, ins: seq<Input>, ss: seq<State>, outs: seq<seq<Event>>, i: nat)
    requires IsRun(attempt, ins, ss, outs) && i < |ins| && IsFrame(ins[i])
    requires TurnBoundary(ins[i].e.kind) && UsageOf(ins[i].e) == None
    ensures SomeUsage(outs[i]) <==> !UsageBefore(ins, outs, i)
  {
    RunUpTo(attempt, ins, ss, outs, i);
    assert RespondsAt(attempt, ins, ss, outs, i);
    UsageBeforeMeaning(attempt, ins, ss, outs, i);
    FallbackInFrame(attempt, ins[..i], ins[i].e, ins[i].now);
  }

  // ---------------------------------------------------------------- numbers and sizes

  /** All events of a run, in the order in which they were emitted, carry the numbers 1, 2, 3, .. of
      their attempt. */
  lemma NumberedWithoutGap(attempt: string, ins: seq<Input>, ss: seq<State>, outs: seq<seq<Event>>, k: nat)
    requires IsRun(attempt, ins, ss, outs) && k < |Flat(outs)|
    ensures Flat(outs)[k].sequence == k + 1 && Flat(outs)[k].id == SourceId(attempt, k + 1)
  {
    RunUpTo(attempt, ins, ss, outs, |ins|);
    assert ins[..|ins|] == ins && outs[..|ins|] == outs;
    ProjectorRuns.NumberedWithoutGap(attempt, ins, k);
  }

  /** Every delta event passes the parser of source events; its text is not empty, has at most 4096
      bytes and comes from at most 32 parts. */
  lemma DeltaEventsAccepted(attempt: string, ins: seq<Input>, ss: seq<State>, outs: seq<seq<Event>>, k: nat)
    requires AttemptAccepted(attempt) && IsRun(attempt, ins, ss, outs)
    requires k < |Flat(outs)| && k < MAX_SEQUENCE && IsDelta(Flat(outs)[k])
    ensures EventAccepted(Flat(outs)[k]) && GoodDelta(Flat(outs)[k])
  {
    RunUpTo(attempt, ins, ss, outs, |ins|);
    assert ins[..|ins|] == ins && outs[..|ins|] == outs;
    ProjectorRuns.DeltaEventsAccepted(attempt, ins, k);
  }

  /** A frame leaves no batch behind. */
  lemma BoundaryLeavesNothingPending(attempt: string, ins: seq<Input>, ss: seq<State>, outs: seq<seq<Event>>, i: nat)
    requires IsRun(attempt, ins, ss, outs) && i < |ins| && IsFrame(ins[i])
    ensures ss[i + 1].pending == map[]
  {
    RunUpTo(attempt, ins, ss, outs, i + 1);
    assert Last(ins[..i + 1]) == ins[i];
    ProjectorRuns.BoundaryLeavesNothingPending(attempt, ins[..i + 1]);
  }
}
