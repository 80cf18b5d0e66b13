/** The child with its projector, the channel to the gateway, the delivery pump and the job, as one system.

    Each part keeps its own machine; a step of the system is a step of one of them, and what passes between
    them is in the steps: the child's events enter the channel, the channel's events are offered to the
    pump, a permanent failure of the pump marks the job, the job stops the pump when it loses the lease or
    is over, and a drain returns only as the pump allows (`DrainReturns`).

    The invariant has a part for each meeting point: what the pump has taken is what came out of the channel
    (`PumpSide`), a job that has reported `completed` has everything acknowledged (`JobSide`), and what has
    been emitted is what a run of the projector emits (`ChildSide`). The step lemmas treat the pump, the
    delivery, the child and the job one at a time, and `AllRun` carries all of it along a run. */
module PipelineSteps {
  import opened Wrappers
  import opened Utf16Text
  import opened Protocol
  import D = Delivery
  import DR = DeliveryRuns
  import G = Gateway
  import GI = GatewayInvariant
  import P = ProjectorRuns
  import opened Projection
  import opened DeltaConservation

  /** `fed` is everything the projector was given, `emitted` what it made of it, and `offered` what the
      channel has delivered so far. The channel holds the rest of what was emitted. */
  datatype Sys = Sys(
    fed: seq<P.Input>, projector: Projection.State, emitted: seq<Event>, exited: bool,
    offered: seq<Event>, pump: D.State, job: G.Job)

  datatype Label =
    | Child(i: P.Input)        // the child projects an SDK event or flushes
    | Exit                     // the child's exit path: a last flush, then the end of the channel
    | Deliver                  // the gateway's event handler takes the next event off the channel
    | PumpDoes(p: D.Label)
    | JobDoes(g: G.Label)

  /** When a pending `drain` returns. It looks at the pump when it is called and whenever the runner it
      awaits is done, and leaves its loop when nothing is left, or the pump has failed or been stopped.
      The drain before `failed` is called on a pump that is neither, so it never leaves a send behind. */
  predicate DrainReturns(p: D.State, pc: G.Pc) {
    if pc == G.FailDrain || (p.fatal.None? && !p.stopped)
    then (p.phase == D.Idle || p.phase == D.Finished) && (D.Drained(p) || p.fatal.Some? || p.stopped)
    else true
  }

  predicate Enabled(c: D.Config, s: Sys, l: Label) {
    match l
    case Child(_) => !s.exited
    case Exit => !s.exited
    case Deliver => |s.offered| < |s.emitted|
    case PumpDoes(p) => !p.Offer? && !p.Stop? && D.Enabled(s.pump, p)
    case JobDoes(g) =>
      && G.Enabled(s.job, g)
      && !g.BufferFailure?
      && (g.Ready? ==> g.hasDone)                                       // workers expose their end
      && (g.Done? ==> s.exited && s.offered == s.emitted)       // which comes last on the channel
      && (g.Drain? ==> DrainReturns(s.pump, s.job.pc) && g.drained == D.Drained(s.pump))
  }

  /** The projector answers one input. */
  function Feed(c: D.Config, s: Sys, i: P.Input): Sys {
    var (t, es) := P.Respond(c.attempt, s.projector, i);
    s.(fed := s.fed + [i], projector := t, emitted := s.emitted + es)
  }

  /** A failing pump calls back into the job at once. */
  function WithPump(s: Sys, p: D.State): Sys {
    s.(pump := p, job := s.job.(bufferFailed := s.job.bufferFailed || p.fatal.Some?))
  }

  /** The handler drops events once the buffer has failed or the job is over. */
  function Handle(c: D.Config, s: Sys, e: Event): D.State {
    if s.job.bufferFailed || s.job.pc == G.Over then s.pump else D.Enqueue(c, s.pump, e)
  }

  /** Losing the lease, stopping the gateway and the finally block stop the pump. */
  predicate Stops(j: G.Job, k: G.Job, g: G.Label) {
    g.GatewayStop? || g.Finish? || (k.heart.outcome == Some(G.Lost) && j.heart.outcome.None?)
  }

  function WithJob(s: Sys, k: G.Job, stops: bool): Sys {
    s.(job := k, pump := if stops then s.pump.(stopped := true) else s.pump)
  }

  function Step(c: D.Config, times: G.Times, s: Sys, l: Label): Sys
    requires Enabled(c, s, l)
  {
    match l
    case Child(i) => Feed(c, s, i)
    case Exit => Feed(c, s, P.FlushNow).(exited := true)
    case Deliver =>
      var e := s.emitted[|s.offered|];
      WithPump(s, Handle(c, s, e)).(offered := s.offered + [e])
    case PumpDoes(p) => WithPump(s, D.Step(c, s.pump, p))
    case JobDoes(g) =>
      var k := G.Step(times, s.job, g);
      WithJob(s, k, Stops(s.job, k, g))
  }

  function Start(deadline: real): Sys { Sys([], Projection.Init, [], false, [], D.Init, G.Start(deadline)) }

  ghost predicate Next(c: D.Config, times: G.Times, s: Sys, t: Sys) {
    exists l :: Enabled(c, s, l) && t == Step(c, times, s, l)
  }

  ghost predicate StepAt(c: D.Config, times: G.Times, ss: seq<Sys>, i: nat)
    requires i + 1 < |ss|
  {
    Next(c, times, ss[i], ss[i + 1])
  }

  /** The states of a run, one after the other. */
  ghost predicate IsRun(c: D.Config, times: G.Times, deadline: real, ss: seq<Sys>) {
    ss != [] && ss[0] == Start(deadline) && forall i :: 0 <= i < |ss| - 1 ==> StepAt(c, times, ss, i)
  }

  // ---------------------------------------------------------------- the invariant

  predicate Reported(j: G.Job) { exists i :: 0 <= i < |j.requests| && j.requests[i].kind == G.Completes }

  /** Everything the child emitted has been accepted by the pump. */
  predicate AllIn(c: D.Config, s: Sys) {
    s.exited && s.offered == s.emitted && s.pump.accepted == s.offered
  }

  /** The pump has accepted a beginning of what it was offered, and all of it while it is open. */
  predicate Takes(p: D.State, offered: seq<Event>, emitted: seq<Event>) {
    && offered <= emitted
    && p.accepted <= offered
    && (p.fatal.None? && !p.stopped ==> p.accepted == offered)
  }

  predicate PumpSide(c: D.Config, s: Sys) {
    && DR.Inv(c, s.pump)
    && Takes(s.pump, s.offered, s.emitted)
    && (s.job.bufferFailed <==> s.pump.fatal.Some?)
  }

  predicate JobSide(c: D.Config, s: Sys) {
    && (s.pump.stopped ==> s.job.stopped || s.job.heart.outcome == Some(G.Lost) || s.job.pc == G.Over)
    && (s.job.pc == G.Over ==> s.pump.stopped)
    && (s.job.pc == G.FinalDrain ==>
          && s.exited && s.offered == s.emitted
          && (s.job.heart.outcome == Some(G.Lost) || s.pump.fatal.Some? || AllIn(c, s)))
    && (Reported(s.job) ==> AllIn(c, s) && s.pump.acked == s.pump.accepted)
  }

  predicate Inv(c: D.Config, s: Sys) { PumpSide(c, s) && JobSide(c, s) }

  // ---------------------------------------------------------------- one step

  /** A step of the pump that accepts nothing. */
  predicate PumpMoves(c: D.Config, p: D.State, q: D.State) {
    && DR.Inv(c, q)
    && q.accepted == p.accepted && p.acked <= q.acked
    && q.stopped == p.stopped && (p.fatal.Some? ==> q.fatal.Some?)
  }

  lemma PumpStepMoves(c: D.Config, p: D.State, l: D.Label)
    requires DR.Inv(c, p) && D.Enabled(p, l) && !l.Offer? && !l.Stop?
    ensures PumpMoves(c, p, D.Step(c, p, l))
  {
    DR.InvStep(c, p, l);
    DR.LaterStep(c, p, l);
    match l
    case DrainTurn => DR.RunTopLater(c, p.(retries := 0)); if p.phase == D.Idle { DR.RunTopKeeps(c, p.(retries := 0)); }
    case Woken => DR.RunTopLater(c, p); DR.RunTopKeeps(c, p);
    case Answered(a, canRetry) => AnswerMoves(c, p, a, canRetry);
    case Forgotten =>
  }

  lemma AnswerMoves(c: D.Config, p: D.State, a: D.Answer, canRetry: bool)
    requires DR.Inv(c, p) && p.phase == D.Sending && D.Active(p) != []
    ensures var q := D.Reply(c, p, a, canRetry); q.accepted == p.accepted && q.stopped == p.stopped
  {
    DR.RunTopLater(c, D.Settled(p));
    if D.Acknowledges(c, p.active.value, a) {
      assert p.acked + p.active.value + [] + p.queue == p.acked + p.active.value + p.queue;
      DR.RunTopKeeps(c, D.Settled(p));
    }
  }

  lemma PumpMovesKeeps(c: D.Config, s: Sys, q: D.State)
    requires Inv(c, s) && PumpMoves(c, s.pump, q)
    ensures Inv(c, WithPump(s, q))
  {
    var t := WithPump(s, q);
    if Reported(s.job) { assert s.pump.acked == q.acked; }
    assert Reported(t.job) ==> Reported(s.job);
  }

  /** A step of the pump that is offered an event. */
  predicate PumpTakes(c: D.Config, p: D.State, q: D.State, e: Event) {
    && DR.Inv(c, q)
    && q.stopped == p.stopped && (p.fatal.Some? ==> q.fatal.Some?)
    && (q.accepted == p.accepted || (q.accepted == p.accepted + [e] && p.fatal.None? && !p.stopped))
    && (q.fatal.None? && !q.stopped ==> q.accepted == p.accepted + [e])
  }

  lemma EnqueueTakes(c: D.Config, p: D.State, e: Event)
    requires DR.Inv(c, p)
    ensures PumpTakes(c, p, D.Enqueue(c, p, e), e)
  {
    DR.EnqueueKeeps(c, p, e);
    DR.StepAccepts(c, p, D.Offer(e));
    if D.Refuses(c, p, e).None? {
      DR.AcceptKeeps(c, p, e);
      DR.RunTopLater(c, DR.Accept(p, e).(retries := 0));
      DR.RunTopKeeps(c, DR.Accept(p, e).(retries := 0));
    }
  }

  predicate Delivers(c: D.Config, s: Sys, q: D.State, e: Event) {
    && |s.offered| < |s.emitted| && e == s.emitted[|s.offered|]
    && if s.job.bufferFailed || s.job.pc == G.Over then q == s.pump else PumpTakes(c, s.pump, q, e)
  }

  lemma TakesOneMore(c: D.Config, p: D.State, q: D.State, offered: seq<Event>, emitted: seq<Event>, e: Event)
    requires Takes(p, offered, emitted) && |offered| < |emitted| && e == emitted[|offered|]
    requires PumpTakes(c, p, q, e) || (q == p && (p.fatal.Some? || p.stopped))
    ensures Takes(q, offered + [e], emitted)
  {
    assert offered + [e] <= emitted;
  }

  /** While events are still on the channel, nothing has been reported. */
  lemma DeliverKeeps(c: D.Config, s: Sys, q: D.State, e: Event)
    requires Inv(c, s) && Delivers(c, s, q, e)
    ensures Inv(c, WithPump(s, q).(offered := s.offered + [e]))
  {
    TakesOneMore(c, s.pump, q, s.offered, s.emitted, e);
    assert !Reported(s.job) && s.job.pc != G.FinalDrain;
  }

  lemma ChildKeeps(c: D.Config, s: Sys, t: Sys)
    requires Inv(c, s) && !s.exited && s.emitted <= t.emitted
    requires t == s.(fed := t.fed, projector := t.projector, emitted := t.emitted, exited := t.exited)
    ensures Inv(c, t)
  {
  }

  // ---------------------------------------------------------------- steps of the job

  /** What a step of the job may do, as far as the events are concerned. */
  predicate JobMoves(c: D.Config, s: Sys, k: G.Job, stops: bool) {
    && k.bufferFailed == s.job.bufferFailed
    && (stops ==> k.stopped || k.heart.outcome == Some(G.Lost) || k.pc == G.Over)
    && (s.job.stopped ==> k.stopped)
    && (s.job.heart.outcome == Some(G.Lost) ==> k.heart.outcome == Some(G.Lost))
    && (s.job.pc == G.Over ==> k.pc == G.Over)
    && (k.pc == G.Over ==> s.job.pc == G.Over || stops)
    && (k.pc == G.FinalDrain && s.job.pc != G.FinalDrain ==>
          s.job.pc == G.AwaitingDone && !s.job.stopped && s.exited && s.offered == s.emitted)
    && (Reported(k) && !Reported(s.job) ==>
          s.job.pc == G.FinalDrain && s.job.heart.outcome == None && D.Drained(s.pump))
  }

  lemma JobMovesKeeps(c: D.Config, s: Sys, k: G.Job, stops: bool)
    requires Inv(c, s) && JobMoves(c, s, k, stops)
    ensures Inv(c, WithJob(s, k, stops))
  {
    var t := WithJob(s, k, stops);
    assert DR.Inv(c, t.pump);
    if Reported(k) && !Reported(s.job) { assert s.pump.accepted == s.pump.acked + [] + []; }
  }

  lemma DrainMoves(c: D.Config, times: G.Times, s: Sys, g: G.Label)
    requires g.Drain? && Enabled(c, s, JobDoes(g))
    ensures JobMoves(c, s, G.Step(times, s.job, g), false)
  {
    var k := G.Step(times, s.job, g);
    if Reported(k) && !Reported(s.job) {
      var i :| 0 <= i < |k.requests| && k.requests[i].kind == G.Completes;
      assert i == |s.job.requests|;
      assert s.job.heart.outcome.Some? ==> s.job.heart.outcome.value == G.Lost || s.job.heart.outcome.value == G.Cancelled;
    }
  }

  lemma ReplyMoves(c: D.Config, times: G.Times, s: Sys, g: G.Label)
    requires g.Answer? && Enabled(c, s, JobDoes(g))
    ensures JobMoves(c, s, G.Step(times, s.job, g), false)
  {
    var k := G.Step(times, s.job, g);
    if Reported(k) {
      var i :| 0 <= i < |k.requests| && k.requests[i].kind == G.Completes;
      assert s.job.requests[i].kind == G.Completes;
    }
  }

  lemma BeatMoves(c: D.Config, times: G.Times, s: Sys, g: G.Label)
    requires g.Timer? || g.BeatAnswer? || g.BeatError? || g.BeatAborted?
    requires GI.HeartInv(times, s.job.heart) && Enabled(c, s, JobDoes(g))
    ensures var k := G.Step(times, s.job, g); JobMoves(c, s, k, Stops(s.job, k, g))
  {
    var k := G.Step(times, s.job, g);
    GI.HeartStepLater(times, s.job, g);
    assert k.requests == s.job.requests && k.pc == s.job.pc;
    assert Reported(k) ==> Reported(s.job);
  }

  lemma QuietMoves(c: D.Config, times: G.Times, s: Sys, g: G.Label)
    requires g.Ready? || g.Throws? || g.AbortDone? || g.Done? || g.Finish? || g.GatewayStop?
    requires Enabled(c, s, JobDoes(g))
    ensures var k := G.Step(times, s.job, g); JobMoves(c, s, k, Stops(s.job, k, g))
  {
    var k := G.Step(times, s.job, g);
    assert k.requests == s.job.requests;
    assert Reported(k) ==> Reported(s.job);
  }

  lemma JobStepMoves(c: D.Config, times: G.Times, s: Sys, g: G.Label)
    requires GI.HeartInv(times, s.job.heart) && Enabled(c, s, JobDoes(g))
    ensures var k := G.Step(times, s.job, g); JobMoves(c, s, k, Stops(s.job, k, g))
  {
    if g.Drain? { DrainMoves(c, times, s, g); }
    else if g.Answer? { ReplyMoves(c, times, s, g); }
    else if g.Timer? || g.BeatAnswer? || g.BeatError? || g.BeatAborted? { BeatMoves(c, times, s, g); }
    else { QuietMoves(c, times, s, g); }
  }

  // ---------------------------------------------------------------- every run

  /** What the projector has done, and how its exit path ends. */
  predicate ChildSide(c: D.Config, s: Sys) {
    && P.Run(c.attempt, s.fed) == (s.projector, s.emitted)
    && (s.exited ==> s.fed != [] && P.Last(s.fed) == P.FlushNow)
  }

  lemma FeedKeeps(c: D.Config, s: Sys, i: P.Input)
    requires ChildSide(c, s) && !s.exited
    ensures ChildSide(c, Feed(c, s, i)) && (i == P.FlushNow ==> ChildSide(c, Feed(c, s, i).(exited := true)))
    ensures s.emitted <= Feed(c, s, i).emitted
  {
    assert P.Before(s.fed + [i]) == s.fed && P.Last(s.fed + [i]) == i;
  }

  lemma JobKeeps(c: D.Config, times: G.Times, s: Sys, g: G.Label)
    requires GI.TimesOk(times) && Inv(c, s) && GI.Inv(times, s.job) && Enabled(c, s, JobDoes(g))
    ensures Inv(c, Step(c, times, s, JobDoes(g))) && GI.Inv(times, Step(c, times, s, JobDoes(g)).job)
  {
    var k := G.Step(times, s.job, g);
    GI.InvStep(times, s.job, g);
    JobStepMoves(c, times, s, g);
    JobMovesKeeps(c, s, k, Stops(s.job, k, g));
  }

  lemma PumpKeeps(c: D.Config, times: G.Times, s: Sys, p: D.Label)
    requires Inv(c, s) && GI.Inv(times, s.job) && Enabled(c, s, PumpDoes(p))
    ensures Inv(c, Step(c, times, s, PumpDoes(p))) && GI.Inv(times, Step(c, times, s, PumpDoes(p)).job)
  {
    var q := D.Step(c, s.pump, p);
    PumpStepMoves(c, s.pump, p);
    PumpMovesKeeps(c, s, q);
    FlagKeeps(times, s.job, s.job.bufferFailed || q.fatal.Some?);
  }

  /** The job's own invariant does not look at the buffer flag. */
  lemma FlagKeeps(times: G.Times, j: G.Job, failed: bool)
    requires GI.Inv(times, j)
    ensures GI.Inv(times, j.(bufferFailed := failed))
  {
  }

  lemma DeliverStepKeeps(c: D.Config, times: G.Times, s: Sys)
    requires Inv(c, s) && GI.Inv(times, s.job) && Enabled(c, s, Deliver)
    ensures Inv(c, Step(c, times, s, Deliver)) && GI.Inv(times, Step(c, times, s, Deliver).job)
  {
    var e := s.emitted[|s.offered|];
    var q := Handle(c, s, e);
    assert Delivers(c, s, q, e) by { EnqueueTakes(c, s.pump, e); }
    DeliverKeeps(c, s, q, e);
    FlagKeeps(times, s.job, s.job.bufferFailed || q.fatal.Some?);
  }

  predicate All(c: D.Config, times: G.Times, s: Sys) { Inv(c, s) && GI.Inv(times, s.job) && ChildSide(c, s) }

  lemma ChildStepKeeps(c: D.Config, times: G.Times, s: Sys, l: Label)
    requires All(c, times, s) && Enabled(c, s, l) && (l.Child? || l.Exit?)
    ensures All(c, times, Step(c, times, s, l))
  {
    FeedKeeps(c, s, if l.Child? then l.i else P.FlushNow);
    ChildKeeps(c, s, Step(c, times, s, l));
  }

  lemma AllStep(c: D.Config, times: G.Times, s: Sys, l: Label)
    requires GI.TimesOk(times) && All(c, times, s) && Enabled(c, s, l)
    ensures All(c, times, Step(c, times, s, l))
  {
    match l
    case Child(_) => ChildStepKeeps(c, times, s, l);
    case Exit => ChildStepKeeps(c, times, s, l);
    case Deliver => DeliverStepKeeps(c, times, s);
    case PumpDoes(p) => PumpKeeps(c, times, s, p);
    case JobDoes(g) => JobKeeps(c, times, s, g);
  }

  lemma AllNext(c: D.Config, times: G.Times, s: Sys, t: Sys)
    requires GI.TimesOk(times) && All(c, times, s) && Next(c, times, s, t)
    ensures All(c, times, t)
  {
    var l :| Enabled(c, s, l) && t == Step(c, times, s, l);
    assert All(c, times, Step(c, times, s, l)) by { AllStep(c, times, s, l); }
  }

  lemma AllStart(c: D.Config, times: G.Times, deadline: real)
    requires GI.TimesOk(times)
    ensures All(c, times, Start(deadline))
  {
  }

  /** Induction over the states of a run. */
  lemma {:induction false} HoldsAlong(ss: seq<Sys>, ok: Sys -> bool, n: nat)
    requires n < |ss| && ok(ss[0]) && forall i :: 0 <= i < |ss| - 1 && ok(ss[i]) ==> ok(ss[i + 1])
    ensures ok(ss[n])
  {
    if n > 0 { HoldsAlong(ss, ok, n - 1); }
  }

  lemma AllRun(c: D.Config, times: G.Times, deadline: real, ss: seq<Sys>, n: nat)
    requires GI.TimesOk(times) && IsRun(c, times, deadline, ss) && n < |ss|
    ensures All(c, times, ss[n])
  {
    var ok := s => All(c, times, s);
    assert ok(ss[0]) by { AllStart(c, times, deadline); }
    forall i | 0 <= i < |ss| - 1 && ok(ss[i]) ensures ok(ss[i + 1]) {
      assert StepAt(c, times, ss, i);
      AllNext(c, times, ss[i], ss[i + 1]);
    }
    HoldsAlong(ss, ok, n);
    assert ok(ss[n]);
  }

  /** After the child's exit path, the projector has emitted everything it accepted. */
  lemma ExitEmitsAll(c: D.Config, s: Sys, channel: Channel)
    requires ChildSide(c, s) && s.exited
    ensures TextOf(s.emitted, channel) == P.Accepted(s.fed, channel)
  {
    P.FlushedAtExit(c.attempt, P.Before(s.fed), channel);
    assert s.fed == P.Before(s.fed) + [P.FlushNow];
    assert P.Accepted(s.fed, channel) == P.Accepted(P.Before(s.fed), channel) + [];
  }

  lemma PrefixText(es: seq<Event>, n: nat, channel: Channel)
    requires n <= |es|
    ensures TextOf(es[..n], channel) <= TextOf(es, channel)
  {
    TextOfConcat(es[..n], es[n..], channel);
    assert es[..n] + es[n..] == es;
  }

  lemma AckedPrefix(c: D.Config, s: Sys)
    requires PumpSide(c, s)
    ensures s.pump.acked <= s.emitted && s.pump.acked == s.emitted[..|s.pump.acked|]
  {
    assert s.pump.acked <= s.pump.accepted;
  }

  lemma AckedText(c: D.Config, s: Sys, channel: Channel)
    requires PumpSide(c, s) && ChildSide(c, s)
    ensures TextOf(s.pump.acked, channel) <= P.Accepted(s.fed, channel)
    ensures s.pump.acked != [] ==> s.pump.lastAcked == Some(|s.pump.acked|)
  {
    var n := |s.pump.acked|;
    AckedPrefix(c, s);
    PrefixText(s.emitted, n, channel);
    P.TextConserved(c.attempt, s.fed, channel);
    if n > 0 { P.NumberedWithoutGap(c.attempt, s.fed, n - 1); }
  }

  lemma NextFits(c: D.Config, p: D.State, offered: seq<Event>, emitted: seq<Event>)
    requires DR.Inv(c, p) && Takes(p, offered, emitted) && |offered| < |emitted| && p.fatal.None? && !p.stopped
    requires emitted[|offered|].sequence == |offered| + 1
    requires offered != [] ==> emitted[|offered| - 1].sequence == |offered|
    ensures p.expected == None || p.expected == Some(emitted[|offered|].sequence)
  {
    if offered != [] { assert p.accepted[|offered| - 1] == emitted[|offered| - 1]; }
  }
}
