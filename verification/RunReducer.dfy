/** `reduceRunEvent` of the client: status, thinking, tool calls and steps of one run, folded over its
    event stream.

    An event counts if it belongs to the run and is newer than the last one that counted. `Fresh` are the
    events of a stream that count, and `ApplyAll` applies events without asking; the theorems are about
    these two, and `FoldIsFresh` in RunTheorems says that they are what the client computes.

    For each thing that is shown there is a meaning in terms of the events alone: the thinking text that was
    said (`Said`), the calls that were begun and the results that found one waiting (`Begun`, `Results`),
    the number of calls in each status (`CallsIn`, `ToolStepsIn`), and the status announced last
    (`AnnouncedLast`). Each is carried along `ApplyAll`, one event at a time. */
module RunReducer {
  import opened Wrappers

  datatype Status = Running | Paused | Reviewing | Completed | CompletedWithWarnings | FailedRun | CancelledRun | ClarificationRequested
  datatype ThinkingStatus = ThinkingRunning | ThinkingCompleted | ThinkingInterrupted
  datatype Outcome = Succeeded | Failed | Unknown
  datatype CallStatus = Active | Ended(outcome: Outcome)

  datatype ToolCall = ToolCall(id: nat, name: string, status: CallStatus)

  /** The word before the dash of a step's id. */
  datatype StepKind = RunStep | ToolStep | DraftStep | ReviewStep | PublishedStep | TerminalStep
  datatype Step = Step(kind: StepKind, id: nat, status: CallStatus)

  datatype RunEvent = RunStarted | RunPaused | RunResumed | RunCompleted | RunCompletedWithWarnings | RunFailed | RunCancelled
  datatype ThinkingEvent = ThinkingStarted | ThinkingDelta(text: string) | ThinkingDone | ThinkingFailed
  datatype ToolEvent = ToolStarted(name: string) | ToolEnded(outcome: Outcome)
  datatype ArtifactEvent = DraftCreated | DraftUpdated | ArtifactPublished | PublishCompleted
  datatype ReviewEvent = ReviewStarted | RevisionRequested | ReviewApproved | ReviewRejected

  /** Event types by the word before their first dot. */
  datatype EventType =
    | Run(run: RunEvent) | Thinking(thinking: ThinkingEvent) | Tool(tool: ToolEvent) | Artifact(artifact: ArtifactEvent)
    | Review(review: ReviewEvent) | MessageCompleted(clarification: bool) | OtherEvent

  datatype Event = Event(runId: string, id: nat, kind: EventType)

  datatype State = State(
    runId: string, lastEventId: nat, status: Option<Status>, closed: bool,
    steps: seq<Step>, toolCalls: seq<ToolCall>,
    thinking: string, hasThinking: bool, thinkingStatus: Option<ThinkingStatus>,
    messageCompleted: bool, artifactsVersion: nat)

  function Initial(runId: string): State { State(runId, 0, None, false, [], [], "", false, None, false, 0) }

  function OrRunning(s: Option<Status>): Option<Status> { if s.None? then Some(Running) else s }

  function WithRunStatus(s: State, k: EventType): State {
    if !k.Run? then s
    else
      match k.run
      case RunStarted => s.(status := Some(Running))
      case RunPaused => s.(status := Some(Paused))
      case RunResumed => s.(status := Some(Running))
      case RunCompleted => s.(status := Some(Completed), closed := true)
      case RunCompletedWithWarnings => s.(status := Some(CompletedWithWarnings), closed := true)
      case RunFailed => s.(status := Some(FailedRun), closed := true)
      case RunCancelled => s.(status := Some(CancelledRun), closed := true)
  }

  function WithThinking(s: State, k: EventType): State {
    if !k.Thinking? then s
    else
      match k.thinking
      case ThinkingStarted => s.(hasThinking := true, thinkingStatus := Some(ThinkingRunning), status := OrRunning(s.status))
      case ThinkingDelta(text) => s.(hasThinking := true, thinking := s.thinking + text, status := OrRunning(s.status))
      case ThinkingDone => s.(hasThinking := true, thinkingStatus := Some(ThinkingCompleted))
      case ThinkingFailed => s.(hasThinking := true, thinkingStatus := Some(ThinkingInterrupted))
  }

  /** The first call that is still running, or the number of calls. */
  function FirstActive(calls: seq<ToolCall>): (i: nat)
    ensures i <= |calls| && (i < |calls| ==> calls[i].status == Active)
    ensures forall j :: 0 <= j < i ==> calls[j].status != Active
  {
    if calls == [] || calls[0].status == Active then 0 else 1 + FirstActive(calls[1..])
  }

  /** A result goes to the first call that is still running. */
  function EndCall(calls: seq<ToolCall>, outcome: Outcome): seq<ToolCall> {
    var i := FirstActive(calls);
    if i == |calls| then calls else calls[i := calls[i].(status := Ended(outcome))]
  }

  function WithToolCall(s: State, id: nat, k: EventType): State {
    if !k.Tool? then s
    else
      match k.tool
      case ToolStarted(name) => s.(status := OrRunning(s.status), toolCalls := s.toolCalls + [ToolCall(id, name, Active)])
      case ToolEnded(outcome) => s.(toolCalls := EndCall(s.toolCalls, outcome))
  }

  function WithReview(s: State, k: EventType): State {
    if !k.Review? then s
    else
      match k.review
      case ReviewStarted => s.(status := Some(Reviewing))
      case RevisionRequested => s.(status := Some(Running))
      case _ => s
  }

  function WithMessage(s: State, k: EventType): State {
    if !k.MessageCompleted? then s
    else s.(messageCompleted := true, status := if k.clarification then Some(ClarificationRequested) else s.status)
  }

  /** The last step of a kind that is still running, counted from the end of `steps[..n]`: its position
      plus one, or zero. */
  function LastActive(steps: seq<Step>, kind: StepKind, n: nat): (r: nat)
    requires n <= |steps|
    ensures r <= n && (r > 0 ==> steps[r - 1].kind == kind && steps[r - 1].status == Active)
    ensures forall j :: r <= j < n ==> !(steps[j].kind == kind && steps[j].status == Active)
  {
    if n == 0 then 0
    else if steps[n - 1].kind == kind && steps[n - 1].status == Active then n
    else LastActive(steps, kind, n - 1)
  }

  function UpdateStep(steps: seq<Step>, kind: StepKind, outcome: Outcome): seq<Step> {
    var r := LastActive(steps, kind, |steps|);
    if r == 0 then steps else steps[r - 1 := steps[r - 1].(status := Ended(outcome))]
  }

  function StepsAfter(steps: seq<Step>, id: nat, k: EventType): seq<Step> {
    match k
    case Run(r) =>
      (match r
       case RunStarted => steps + [Step(RunStep, 0, Ended(Succeeded))]
       case RunResumed => steps + [Step(RunStep, id, Ended(Succeeded))]
       case RunCompleted => steps + [Step(TerminalStep, id, Ended(Succeeded))]
       case RunCompletedWithWarnings => steps + [Step(TerminalStep, id, Ended(Succeeded))]
       case RunFailed => steps + [Step(TerminalStep, id, Ended(Failed))]
       case RunCancelled => steps + [Step(TerminalStep, id, Ended(Unknown))]
       case RunPaused => steps)
    case Tool(t) =>
      if t.ToolStarted? then steps + [Step(ToolStep, id, Active)] else UpdateStep(steps, ToolStep, t.outcome)
    case Artifact(a) =>
      if a.DraftCreated? then steps + [Step(DraftStep, id, Active)]
      else if a.ArtifactPublished? then steps + [Step(PublishedStep, id, Ended(Succeeded))]
      else steps
    case Review(r) =>
      (match r
       case ReviewStarted => steps + [Step(ReviewStep, id, Active)]
       case ReviewApproved => UpdateStep(steps, ReviewStep, Succeeded)
       case ReviewRejected => UpdateStep(steps, ReviewStep, Failed)
       case RevisionRequested => steps)
    case _ => steps
  }

  function WithSteps(s: State, id: nat, k: EventType): State { s.(steps := StepsAfter(s.steps, id, k)) }

  predicate ArtifactRelevant(k: EventType) { k.Artifact? || k.Review? }

  /** What an event that counts does. */
  function Apply(s: State, e: Event): State {
    var n := s.(lastEventId := e.id, artifactsVersion := if ArtifactRelevant(e.kind) then s.artifactsVersion + 1 else s.artifactsVersion);
    WithSteps(WithMessage(WithReview(WithToolCall(WithThinking(WithRunStatus(n, e.kind), e.kind), e.id, e.kind), e.kind), e.kind), e.id, e.kind)
  }

  /** Events of other runs and events that are not newer than the last one do not count. */
  predicate Counts(s: State, e: Event) { e.runId == s.runId && e.id > s.lastEventId }

  function Reduce(s: State, e: Event): State { if Counts(s, e) then Apply(s, e) else s }

  function Fold(s: State, es: seq<Event>): State {
    if es == [] then s else Reduce(Fold(s, es[..|es| - 1]), es[|es| - 1])
  }

  /** The same, without looking at ids. */
  function ApplyAll(s: State, es: seq<Event>): State {
    if es == [] then s else Apply(ApplyAll(s, es[..|es| - 1]), es[|es| - 1])
  }

  // ---------------------------------------------------------------- replays

  /** The highest id of a run so far. */
  function Highest(runId: string, from: nat, es: seq<Event>): nat {
    if es == [] then from
    else
      var h, e := Highest(runId, from, es[..|es| - 1]), es[|es| - 1];
      if e.runId == runId && e.id > h then e.id else h
  }

  /** The events of a run that are newer than everything before them. */
  function Fresh(runId: string, from: nat, es: seq<Event>): seq<Event> {
    if es == [] then []
    else
      var head, e := es[..|es| - 1], es[|es| - 1];
      Fresh(runId, from, head) + (if e.runId == runId && e.id > Highest(runId, from, head) then [e] else [])
  }

  predicate NewerAt(from: nat, es: seq<Event>, i: nat)
    requires i < |es|
  {
    es[i].id > (if i == 0 then from else es[i - 1].id)
  }

  predicate Increasing(from: nat, es: seq<Event>) { forall i :: 0 <= i < |es| ==> NewerAt(from, es, i) }

  lemma ApplyMarks(s: State, e: Event)
    ensures Apply(s, e).lastEventId == e.id && Apply(s, e).runId == s.runId
  {
  }

  lemma IncreasesMore(from: nat, es: seq<Event>, e: Event)
    requires Increasing(from, es) && e.id > (if es == [] then from else es[|es| - 1].id)
    ensures Increasing(from, es + [e])
  {
    var more := es + [e];
    forall i | 0 <= i < |more| ensures NewerAt(from, more, i) {
      if i < |es| { assert NewerAt(from, es, i); }
    }
  }

  /** Replaying a stream that has been folded already changes nothing. */
  lemma {:induction false} ReplayIsIdle(s: State, es: seq<Event>)
    requires forall i :: 0 <= i < |es| ==> es[i].id <= s.lastEventId || es[i].runId != s.runId
    ensures Fold(s, es) == s
  {
    if es != [] { ReplayIsIdle(s, es[..|es| - 1]); }
  }

  lemma {:induction false} HighestCovers(runId: string, from: nat, es: seq<Event>, i: nat)
    requires i < |es| && es[i].runId == runId
    ensures es[i].id <= Highest(runId, from, es)
  {
    if i < |es| - 1 { HighestCovers(runId, from, es[..|es| - 1], i); }
  }

  // ---------------------------------------------------------------- thinking

  function Thought(k: EventType): string { if k.Thinking? && k.thinking.ThinkingDelta? then k.thinking.text else "" }

  function Said(es: seq<Event>): string {
    if es == [] then "" else Said(es[..|es| - 1]) + Thought(es[|es| - 1].kind)
  }

  lemma ApplyThinks(s: State, e: Event)
    ensures Apply(s, e).thinking == s.thinking + Thought(e.kind)
  {
    assert s.thinking + "" == s.thinking;
  }

  lemma {:induction false} AllThinks(s: State, es: seq<Event>)
    ensures ApplyAll(s, es).thinking == s.thinking + Said(es)
  {
    if es == [] {
      assert s.thinking + "" == s.thinking;
    } else {
      var head, e := es[..|es| - 1], es[|es| - 1];
      AllThinks(s, head);
      ApplyThinks(ApplyAll(s, head), e);
      var more := Thought(e.kind);
      assert (s.thinking + Said(head)) + more == s.thinking + (Said(head) + more);
    }
  }

  // ---------------------------------------------------------------- tool calls and their steps

  function CallsIn(calls: seq<ToolCall>, status: CallStatus): nat {
    if calls == [] then 0 else CallsIn(calls[..|calls| - 1], status) + (if calls[|calls| - 1].status == status then 1 else 0)
  }

  function ToolStepsIn(steps: seq<Step>, status: CallStatus): nat {
    if steps == [] then 0
    else ToolStepsIn(steps[..|steps| - 1], status)
         + (if steps[|steps| - 1].kind == ToolStep && steps[|steps| - 1].status == status then 1 else 0)
  }

  ghost predicate Agree(calls: seq<ToolCall>, steps: seq<Step>) {
    forall status :: CallsIn(calls, status) == ToolStepsIn(steps, status)
  }

  lemma {:induction false} CallChanges(calls: seq<ToolCall>, i: nat, to: CallStatus, status: CallStatus)
    requires i < |calls|
    ensures CallsIn(calls[i := calls[i].(status := to)], status)
         == CallsIn(calls, status) - (if calls[i].status == status then 1 else 0) + (if to == status then 1 else 0)
  {
    var after := calls[i := calls[i].(status := to)];
    if i == |calls| - 1 {
      assert after[..|calls| - 1] == calls[..|calls| - 1];
    } else {
      assert after[..|calls| - 1] == calls[..|calls| - 1][i := calls[i].(status := to)];
      CallChanges(calls[..|calls| - 1], i, to, status);
    }
  }

  lemma {:induction false} StepChanges(steps: seq<Step>, i: nat, to: CallStatus, status: CallStatus)
    requires i < |steps|
    ensures ToolStepsIn(steps[i := steps[i].(status := to)], status)
         == ToolStepsIn(steps, status)
            - (if steps[i].kind == ToolStep && steps[i].status == status then 1 else 0)
            + (if steps[i].kind == ToolStep && to == status then 1 else 0)
  {
    var after := steps[i := steps[i].(status := to)];
    if i == |steps| - 1 {
      assert after[..|steps| - 1] == steps[..|steps| - 1];
    } else {
      assert after[..|steps| - 1] == steps[..|steps| - 1][i := steps[i].(status := to)];
      StepChanges(steps[..|steps| - 1], i, to, status);
    }
  }

  lemma {:induction false} NoCallActive(calls: seq<ToolCall>)
    requires forall j :: 0 <= j < |calls| ==> calls[j].status != Active
    ensures CallsIn(calls, Active) == 0
  {
    if calls != [] { NoCallActive(calls[..|calls| - 1]); }
  }

  lemma {:induction false} SomeCallActive(calls: seq<ToolCall>, i: nat)
    requires i < |calls| && calls[i].status == Active
    ensures CallsIn(calls, Active) > 0
  {
    if i < |calls| - 1 { SomeCallActive(calls[..|calls| - 1], i); }
  }

  lemma {:induction false} NoStepActive(steps: seq<Step>)
    requires forall j :: 0 <= j < |steps| ==> !(steps[j].kind == ToolStep && steps[j].status == Active)
    ensures ToolStepsIn(steps, Active) == 0
  {
    if steps != [] { NoStepActive(steps[..|steps| - 1]); }
  }

  lemma {:induction false} SomeStepActive(steps: seq<Step>, i: nat)
    requires i < |steps| && steps[i].kind == ToolStep && steps[i].status == Active
    ensures ToolStepsIn(steps, Active) > 0
  {
    if i < |steps| - 1 { SomeStepActive(steps[..|steps| - 1], i); }
  }

  /** A result closes the first running call and the last running tool step: one of each, or none. */
  lemma EndAgrees(calls: seq<ToolCall>, steps: seq<Step>, outcome: Outcome)
    requires Agree(calls, steps)
    ensures Agree(EndCall(calls, outcome), UpdateStep(steps, ToolStep, outcome))
  {
    var i, r := FirstActive(calls), LastActive(steps, ToolStep, |steps|);
    assert CallsIn(calls, Active) == ToolStepsIn(steps, Active);
    if i == |calls| { NoCallActive(calls); } else { SomeCallActive(calls, i); }
    if r == 0 { NoStepActive(steps); } else { SomeStepActive(steps, r - 1); }
    if i < |calls| {
      forall status ensures CallsIn(calls[i := calls[i].(status := Ended(outcome))], status)
                         == ToolStepsIn(UpdateStep(steps, ToolStep, outcome), status) {
        CallChanges(calls, i, Ended(outcome), status);
        StepChanges(steps, r - 1, Ended(outcome), status);
      }
    }
  }

  lemma StartAgrees(calls: seq<ToolCall>, steps: seq<Step>, call: ToolCall, step: Step)
    requires Agree(calls, steps) && step.kind == ToolStep && call.status == step.status
    ensures Agree(calls + [call], steps + [step])
  {
    assert (calls + [call])[..|calls|] == calls && (steps + [step])[..|steps|] == steps;
  }

  lemma OtherStepAgrees(calls: seq<ToolCall>, steps: seq<Step>, step: Step)
    requires Agree(calls, steps) && step.kind != ToolStep
    ensures Agree(calls, steps + [step])
  {
    assert (steps + [step])[..|steps|] == steps;
  }

  lemma ReviewAgrees(calls: seq<ToolCall>, steps: seq<Step>, outcome: Outcome)
    requires Agree(calls, steps)
    ensures Agree(calls, UpdateStep(steps, ReviewStep, outcome))
  {
    var r := LastActive(steps, ReviewStep, |steps|);
    if r > 0 {
      forall status ensures CallsIn(calls, status) == ToolStepsIn(UpdateStep(steps, ReviewStep, outcome), status) {
        StepChanges(steps, r - 1, Ended(outcome), status);
      }
    }
  }

  /** The calls and steps that an event leaves. */
  lemma ApplyLists(s: State, e: Event)
    ensures Apply(s, e).steps == StepsAfter(s.steps, e.id, e.kind)
    ensures Apply(s, e).toolCalls ==
            if !e.kind.Tool? then s.toolCalls
            else match e.kind.tool
                 case ToolStarted(name) => s.toolCalls + [ToolCall(e.id, name, Active)]
                 case ToolEnded(outcome) => EndCall(s.toolCalls, outcome)
  {
  }

  lemma OtherStepsAgree(calls: seq<ToolCall>, steps: seq<Step>, id: nat, k: EventType)
    requires Agree(calls, steps) && !k.Tool?
    ensures Agree(calls, StepsAfter(steps, id, k))
  {
    if k.Review? && (k.review.ReviewApproved? || k.review.ReviewRejected?) {
      ReviewAgrees(calls, steps, if k.review.ReviewApproved? then Succeeded else Failed);
    } else {
      var after := StepsAfter(steps, id, k);
      if |after| > |steps| { OtherStepAgrees(calls, steps, after[|steps|]); }
    }
  }

  lemma ApplyAgrees(s: State, e: Event)
    requires Agree(s.toolCalls, s.steps)
    ensures Agree(Apply(s, e).toolCalls, Apply(s, e).steps)
  {
    ApplyLists(s, e);
    if !e.kind.Tool? {
      OtherStepsAgree(s.toolCalls, s.steps, e.id, e.kind);
    } else {
      match e.kind.tool
      case ToolStarted(name) => StartAgrees(s.toolCalls, s.steps, ToolCall(e.id, name, Active), Step(ToolStep, e.id, Active));
      case ToolEnded(outcome) => EndAgrees(s.toolCalls, s.steps, outcome);
    }
  }

  lemma {:induction false} FoldAgrees(s: State, es: seq<Event>)
    requires Agree(s.toolCalls, s.steps)
    ensures Agree(Fold(s, es).toolCalls, Fold(s, es).steps)
  {
    if es != [] {
      FoldAgrees(s, es[..|es| - 1]);
      ApplyAgrees(Fold(s, es[..|es| - 1]), es[|es| - 1]);
    }
  }

  // ---------------------------------------------------------------- status

  /** The status that an event of this type announces. */
  predicate Announces(k: EventType, status: Status) {
    || (k.Run? && (k.run == RunStarted || k.run == RunResumed) && status == Running)
    || (k.Run? && k.run == RunPaused && status == Paused)
    || (k.Run? && k.run == RunCompleted && status == Completed)
    || (k.Run? && k.run == RunCompletedWithWarnings && status == CompletedWithWarnings)
    || (k.Run? && k.run == RunFailed && status == FailedRun)
    || (k.Run? && k.run == RunCancelled && status == CancelledRun)
    || (k.Review? && k.review == ReviewStarted && status == Reviewing)
    || (k.Review? && k.review == RevisionRequested && status == Running)
    || (k.MessageCompleted? && k.clarification && status == ClarificationRequested)
  }

  /** Every other type of event announces nothing. */
  predicate Silent(k: EventType) {
    && !k.Run? && !(k.Review? && (k.review == ReviewStarted || k.review == RevisionRequested))
    && !(k.MessageCompleted? && k.clarification)
  }

  lemma SilentMeaning(k: EventType)
    ensures Silent(k) <==> forall status :: !Announces(k, status)
  {
    if k.Run? {
      assert Announces(k, match k.run
                          case RunStarted => Running case RunResumed => Running case RunPaused => Paused
                          case RunCompleted => Completed case RunCompletedWithWarnings => CompletedWithWarnings
                          case RunFailed => FailedRun case RunCancelled => CancelledRun);
    } else if k.Review? && k.review == ReviewStarted {
      assert Announces(k, Reviewing);
    } else if k.Review? && k.review == RevisionRequested {
      assert Announces(k, Running);
    } else if k.MessageCompleted? && k.clarification {
      assert Announces(k, ClarificationRequested);
    }
  }

  /** Thinking and tool calls show that the run is going on, if nothing has been announced. */
  predicate Stirs(k: EventType) {
    (k.Thinking? && (k.thinking.ThinkingStarted? || k.thinking.ThinkingDelta?)) || (k.Tool? && k.tool.ToolStarted?)
  }

  predicate Terminal(k: EventType) {
    k.Run? && (k.run == RunCompleted || k.run == RunCompletedWithWarnings || k.run == RunFailed || k.run == RunCancelled)
  }

  predicate SilentFrom(es: seq<Event>, n: nat) { forall k :: n <= k < |es| ==> Silent(es[k].kind) }

  predicate AnnouncedAt(es: seq<Event>, j: nat, status: Status) {
    j < |es| && Announces(es[j].kind, status) && SilentFrom(es, j + 1)
  }

  /** The last announcement is this one. */
  ghost predicate AnnouncedLast(es: seq<Event>, status: Status) { exists j: nat :: AnnouncedAt(es, j, status) }

  predicate SomeStirs(es: seq<Event>) { exists j :: 0 <= j < |es| && Stirs(es[j].kind) }

  predicate SomeTerminal(es: seq<Event>) { exists j :: 0 <= j < |es| && Terminal(es[j].kind) }

  predicate SomeCompleted(es: seq<Event>) { exists j :: 0 <= j < |es| && es[j].kind.MessageCompleted? }

  lemma ApplyAnnounces(s: State, e: Event, status: Status)
    ensures Announces(e.kind, status) ==> Apply(s, e).status == Some(status)
    ensures Silent(e.kind) ==> Apply(s, e).status == (if Stirs(e.kind) then OrRunning(s.status) else s.status)
  {
  }

  lemma ApplyCloses(s: State, e: Event)
    ensures Apply(s, e).closed == (s.closed || Terminal(e.kind))
    ensures Apply(s, e).messageCompleted == (s.messageCompleted || e.kind.MessageCompleted?)
  {
  }

  lemma SilentSnoc(es: seq<Event>, e: Event, n: nat)
    requires n <= |es|
    ensures SilentFrom(es + [e], n) <==> SilentFrom(es, n) && Silent(e.kind)
  {
    var more := es + [e];
    if SilentFrom(more, n) { assert forall k :: n <= k < |es| ==> more[k] == es[k]; assert more[|es|] == e; }
  }

  lemma AnnouncedSnoc(es: seq<Event>, e: Event, status: Status)
    ensures AnnouncedLast(es + [e], status) <==> Announces(e.kind, status) || (Silent(e.kind) && AnnouncedLast(es, status))
  {
    var more := es + [e];
    if AnnouncedLast(more, status) {
      var j: nat :| AnnouncedAt(more, j, status);
      if j < |es| {
        SilentSnoc(es, e, j + 1);
        assert AnnouncedAt(es, j, status);
      }
    }
    if Announces(e.kind, status) { assert AnnouncedAt(more, |es|, status); }
    if Silent(e.kind) && AnnouncedLast(es, status) {
      var j: nat :| AnnouncedAt(es, j, status);
      SilentSnoc(es, e, j + 1);
      assert AnnouncedAt(more, j, status);
    }
  }

  lemma SomeSnoc(es: seq<Event>, e: Event)
    ensures SomeStirs(es + [e]) <==> SomeStirs(es) || Stirs(e.kind)
    ensures SomeTerminal(es + [e]) <==> SomeTerminal(es) || Terminal(e.kind)
    ensures SomeCompleted(es + [e]) <==> SomeCompleted(es) || e.kind.MessageCompleted?
  {
    var more := es + [e];
    assert more[|es|] == e && forall j :: 0 <= j < |es| ==> more[j] == es[j];
  }

  /** Before anything is announced, a run is running once something stirs. */
  predicate Underway(es: seq<Event>) { SilentFrom(es, 0) && SomeStirs(es) }

  ghost predicate Shows(s: State, es: seq<Event>, status: Status) {
    && (s.status == Some(status) <==> AnnouncedLast(es, status) || (status == Running && Underway(es)))
    && (s.status == None <==> SilentFrom(es, 0) && !SomeStirs(es))
  }

  lemma {:induction false} StatusMeaning(runId: string, es: seq<Event>, status: Status)
    ensures Shows(ApplyAll(Initial(runId), es), es, status)
  {
    if es != [] {
      var head, e := es[..|es| - 1], es[|es| - 1];
      StatusMeaning(runId, head, status);
      assert es == head + [e];
      ShowsNext(ApplyAll(Initial(runId), head), head, e, status);
    }
  }

  lemma ShowsNext(s: State, es: seq<Event>, e: Event, status: Status)
    requires Shows(s, es, status)
    ensures Shows(Apply(s, e), es + [e], status)
  {
    AnnouncedSnoc(es, e, status);
    SilentSnoc(es, e, 0);
    SomeSnoc(es, e);
    SilentMeaning(e.kind);
    ApplyAnnounces(s, e, status);
    if !Silent(e.kind) {
      var announced :| Announces(e.kind, announced);
      ApplyAnnounces(s, e, announced);
      if Announces(e.kind, status) { OneAnnouncement(e.kind, announced, status); }
    } else if AnnouncedLast(es, status) {
      var j: nat :| AnnouncedAt(es, j, status);
      SilentMeaning(es[j].kind);
    }
  }

  lemma OneAnnouncement(k: EventType, a: Status, b: Status)
    requires Announces(k, a) && Announces(k, b)
    ensures a == b
  {
  }

  lemma {:induction false} ClosedMeaning(runId: string, es: seq<Event>)
    ensures ApplyAll(Initial(runId), es).closed <==> SomeTerminal(es)
    ensures ApplyAll(Initial(runId), es).messageCompleted <==> SomeCompleted(es)
  {
    if es != [] {
      var head, e := es[..|es| - 1], es[|es| - 1];
      ClosedMeaning(runId, head);
      assert es == head + [e];
      SomeSnoc(head, e);
      ApplyCloses(ApplyAll(Initial(runId), head), e);
    }
  }

  // ---------------------------------------------------------------- which call ended how

  /** The tool calls that were begun, in order. */
  function Begun(es: seq<Event>): seq<Event> {
    if es == [] then []
    else Begun(es[..|es| - 1]) + (if es[|es| - 1].kind.Tool? && es[|es| - 1].kind.tool.ToolStarted? then [es[|es| - 1]] else [])
  }

  /** The results that came while some call was waiting for one, in order. */
  function Results(es: seq<Event>): (r: seq<Outcome>)
    ensures |r| <= |Begun(es)|
  {
    if es == [] then []
    else
      var before, k := Results(es[..|es| - 1]), es[|es| - 1].kind;
      before + (if k.Tool? && k.tool.ToolEnded? && |before| < |Begun(es[..|es| - 1])| then [k.tool.outcome] else [])
  }

  /** The calls are those that were begun; the first result ends the first of them, the second the second. */
  predicate Queued(calls: seq<ToolCall>, begun: seq<Event>, results: seq<Outcome>) {
    && |calls| == |begun| && |results| <= |begun|
    && forall i :: 0 <= i < |calls| ==>
         begun[i].kind.Tool? && begun[i].kind.tool.ToolStarted?
         && calls[i] == ToolCall(begun[i].id, begun[i].kind.tool.name, if i < |results| then Ended(results[i]) else Active)
  }

  lemma {:induction false} CallsQueued(runId: string, es: seq<Event>)
    ensures Queued(ApplyAll(Initial(runId), es).toolCalls, Begun(es), Results(es))
  {
    if es != [] {
      var head, e := es[..|es| - 1], es[|es| - 1];
      CallsQueued(runId, head);
      ApplyLists(ApplyAll(Initial(runId), head), e);
      QueuedNext(ApplyAll(Initial(runId), head).toolCalls, Begun(head), Results(head), e);
    }
  }

  lemma QueuedNext(calls: seq<ToolCall>, begun: seq<Event>, results: seq<Outcome>, e: Event)
    requires Queued(calls, begun, results)
    ensures var k := e.kind;
            && (!k.Tool? ==> Queued(calls, begun + [], results + []))
            && (k.Tool? && k.tool.ToolStarted? ==> Queued(calls + [ToolCall(e.id, k.tool.name, Active)], begun + [e], results + []))
            && (k.Tool? && k.tool.ToolEnded? ==>
                  Queued(EndCall(calls, k.tool.outcome), begun + [], results + (if |results| < |begun| then [k.tool.outcome] else [])))
  {
    assert begun + [] == begun && results + [] == results;
    if e.kind.Tool? && e.kind.tool.ToolEnded? {
      var i := FirstActive(calls);
      assert i < |calls| ==> calls[i].status == Active && i >= |results|;
      assert |results| < |calls| ==> calls[|results|].status == Active && i <= |results|;
    }
  }
}
