/** The pump, the drain and the job when the lease is lost.

    Losing the lease stops the pump. From then on the pump sends nothing and takes nothing from its queue; all
    that can still happen to it is that its batch in flight is acknowledged (`SinceStop`, `StoppedPump`).
    `AfterLoss` carries that from the step that loses the lease to any later state of the run.

    A request that goes out under the loss is sent by the drain that precedes `failed` (`LossSentBy`), and
    the loss lies inside that drain (`LostInDrain`); `LossFound` and `SendFound` find both steps in a run.

    A run in which it happens is put together at the end: one event in flight, a worker that fails, a timer
    that finds too little of the lease left, the acknowledgement, and the end of the drain. The theorems
    are in LostLease. */
module LeaseLoss {
  import opened Wrappers
  import opened Protocol
  import D = Delivery
  import DR = DeliveryRuns
  import G = Gateway
  import GI = GatewayInvariant
  import GR = GatewayRuns
  import P = ProjectorRuns
  import PA = ProjectorAcceptance
  import opened Projection
  import opened PipelineSteps
  import opened PipelineProgress

  // ---------------------------------------------------------------- runs with their labels

  predicate TakesStep(c: D.Config, times: G.Times, ss: seq<Sys>, ls: seq<Label>, i: nat)
    requires |ss| == |ls| + 1 && i < |ls|
  {
    Enabled(c, ss[i], ls[i]) && ss[i + 1] == Step(c, times, ss[i], ls[i])
  }

  predicate Follows(c: D.Config, times: G.Times, deadline: real, ss: seq<Sys>, ls: seq<Label>) {
    |ss| == |ls| + 1 && ss[0] == Start(deadline) && forall i :: 0 <= i < |ls| ==> TakesStep(c, times, ss, ls, i)
  }

  lemma FollowsRun(c: D.Config, times: G.Times, deadline: real, ss: seq<Sys>, ls: seq<Label>)
    requires Follows(c, times, deadline, ss, ls)
    ensures IsRun(c, times, deadline, ss)
  {
    forall i | 0 <= i < |ss| - 1 ensures StepAt(c, times, ss, i) {
      assert TakesStep(c, times, ss, ls, i);
      OneStep(c, times, ss[i], ls[i], ss[i + 1]);
    }
  }

  // ---------------------------------------------------------------- the stopped pump

  /** The control plane acknowledges the batch that was in flight. */
  predicate Acks(c: D.Config, l: Label, batch: seq<Event>) {
    batch != [] && l.PumpDoes? && l.p.Answered? && D.Acknowledges(c, batch, l.p.a)
  }

  /** `q` is `p` some time after the stop; `acked` says whether its batch was acknowledged since. */
  predicate SinceStop(p: D.State, q: D.State, acked: bool) {
    && q.stopped && q.queue == p.queue
    && if acked then q.active.None? && q.fatal == p.fatal
       else q.active == p.active && (q.fatal != p.fatal ==> q.active.Some? && q.fatal.Some? && q.phase != D.Sending)
  }

  lemma StoppedStep(c: D.Config, times: G.Times, s: Sys, l: Label, p: D.State, acked: bool)
    requires Enabled(c, s, l) && SinceStop(p, s.pump, acked)
    ensures SinceStop(p, Step(c, times, s, l).pump, acked || Acks(c, l, D.Active(p)))
  {
    if l.PumpDoes? { StoppedPump(c, s.pump, l.p, p, acked); }
  }

  lemma StoppedPump(c: D.Config, q: D.State, l: D.Label, p: D.State, acked: bool)
    requires !l.Offer? && !l.Stop? && D.Enabled(q, l) && SinceStop(p, q, acked)
    ensures SinceStop(p, D.Step(c, q, l), acked || Acks(c, PumpDoes(l), D.Active(p)))
  {
  }

  /** The lease is lost in step `i`, in the drain before `failed`. */
  predicate LosesLease(ss: seq<Sys>, i: nat)
    requires i + 1 < |ss|
  {
    && ss[i].job.pc == G.FailDrain && ss[i].job.heart.outcome.None?
    && ss[i + 1].job.heart.outcome == Some(G.Lost)
  }

  predicate AckAt(c: D.Config, ls: seq<Label>, k: nat, batch: seq<Event>)
    requires k < |ls|
  {
    Acks(c, ls[k], batch)
  }

  predicate AckedBetween(c: D.Config, ls: seq<Label>, i: nat, j: nat, batch: seq<Event>)
    requires j <= |ls|
  {
    exists k :: i < k < j && AckAt(c, ls, k, batch)
  }

  lemma AckedOneMore(c: D.Config, ls: seq<Label>, i: nat, m: nat, batch: seq<Event>)
    requires i < m < |ls|
    ensures AckedBetween(c, ls, i, m + 1, batch) == (AckedBetween(c, ls, i, m, batch) || AckAt(c, ls, m, batch))
  {
  }

  lemma StopsAtLoss(c: D.Config, times: G.Times, s: Sys, l: Label)
    requires Enabled(c, s, l) && s.job.heart.outcome.None? && Step(c, times, s, l).job.heart.outcome == Some(G.Lost)
    ensures Step(c, times, s, l).pump == s.pump.(stopped := true)
  {
  }

  lemma StaysLost(c: D.Config, times: G.Times, s: Sys, l: Label)
    requires GI.Inv(times, s.job) && Enabled(c, s, l) && s.job.heart.outcome == Some(G.Lost)
    ensures Step(c, times, s, l).job.heart.outcome == Some(G.Lost)
  {
    if l.JobDoes? { GR.LaterStep(times, s.job, l.g); }
  }

  predicate LostSince(p: D.State, s: Sys, acked: bool) {
    s.job.heart.outcome == Some(G.Lost) && SinceStop(p, s.pump, acked)
  }

  lemma LostStep(c: D.Config, times: G.Times, ss: seq<Sys>, ls: seq<Label>, m: nat, p: D.State, acked: bool)
    requires |ss| == |ls| + 1 && m < |ls| && TakesStep(c, times, ss, ls, m)
    requires GI.Inv(times, ss[m].job) && LostSince(p, ss[m], acked)
    ensures LostSince(p, ss[m + 1], acked || AckAt(c, ls, m, D.Active(p)))
  {
    StoppedStep(c, times, ss[m], ls[m], p, acked);
    StaysLost(c, times, ss[m], ls[m]);
  }

  lemma JobInvAt(c: D.Config, times: G.Times, deadline: real, ss: seq<Sys>, ls: seq<Label>, n: nat)
    requires GI.TimesOk(times) && Follows(c, times, deadline, ss, ls) && n <= |ls|
    ensures GI.Inv(times, ss[n].job) && DR.Inv(c, ss[n].pump)
  {
    FollowsRun(c, times, deadline, ss, ls);
    AllRun(c, times, deadline, ss, n);
  }

  lemma LostNow(c: D.Config, times: G.Times, ss: seq<Sys>, ls: seq<Label>, i: nat)
    requires |ss| == |ls| + 1 && i < |ls| && TakesStep(c, times, ss, ls, i) && LosesLease(ss, i)
    ensures LostSince(ss[i].pump, ss[i + 1], false)
  {
    StopsAtLoss(c, times, ss[i], ls[i]);
  }

  /** From the loss on, the outcome stays and the pump can only be acknowledged or fail. */
  lemma {:induction false} AfterLoss(c: D.Config, times: G.Times, deadline: real, ss: seq<Sys>, ls: seq<Label>, i: nat, n: nat)
    requires GI.TimesOk(times) && Follows(c, times, deadline, ss, ls) && i < n <= |ls| && LosesLease(ss, i)
    ensures LostSince(ss[i].pump, ss[n], AckedBetween(c, ls, i, n, D.Active(ss[i].pump)))
    decreases n
  {
    var m, batch := n - 1, D.Active(ss[i].pump);
    assert TakesStep(c, times, ss, ls, m);
    if m == i {
      LostNow(c, times, ss, ls, i);
    } else {
      AfterLoss(c, times, deadline, ss, ls, i, m);
      JobInvAt(c, times, deadline, ss, ls, m);
      LostStep(c, times, ss, ls, m, ss[i].pump, AckedBetween(c, ls, i, m, batch));
      AckedOneMore(c, ls, i, m, batch);
    }
  }

  /** The drain returns: what it says, and what the job makes of it. */
  lemma DrainUnderLoss(c: D.Config, times: G.Times, s: Sys, g: G.Label, p: D.State, acked: bool)
    requires g.Drain? && Enabled(c, s, JobDoes(g)) && s.job.pc == G.FailDrain && LostSince(p, s, acked)
    requires acked ==> p.active.Some?
    ensures Step(c, times, s, JobDoes(g)).job.requests == s.job.requests + [G.Request(G.Fails, Some(G.Lost), None)] <==>
              p.fatal.None? && p.queue == [] && (p.active.None? || acked)
  {
    if D.Drained(s.pump) { assert s.pump.fatal.None? && s.pump.active.None?; }
  }

  /** The loss in step `i` and the return of the drain in step `j`, with all that lets `failed` out. */
  predicate SentDespite(c: D.Config, ss: seq<Sys>, ls: seq<Label>, i: nat, j: nat)
    requires |ss| == |ls| + 1 && i < j < |ls|
  {
    var p := ss[i].pump;
    && LosesLease(ss, i) && ss[j].job.pc == G.FailDrain && ls[j].JobDoes? && ls[j].g.Drain?
    && p.fatal.None? && p.queue == [] && (p.active.None? || AckedBetween(c, ls, i, j, p.active.value))
  }

  predicate UnderLoss(rs: seq<G.Request>) { exists r :: 0 <= r < |rs| && rs[r].outcome == Some(G.Lost) }

  /** The only step that sends a request under a lost lease is the return of the drain before `failed`. */
  lemma LossSentBy(times: G.Times, j: G.Job, g: G.Label)
    requires GI.Inv(times, j) && G.Enabled(j, g) && !UnderLoss(j.requests) && UnderLoss(G.Step(times, j, g).requests)
    ensures g.Drain? && j.pc == G.FailDrain && j.heart.outcome == Some(G.Lost)
    ensures G.Step(times, j, g).requests == j.requests + [G.Request(G.Fails, Some(G.Lost), None)]
  {
    var k := G.Step(times, j, g);
    assert forall r :: 0 <= r < |j.requests| && r < |k.requests| ==> k.requests[r].outcome == j.requests[r].outcome;
  }

  lemma LossStays(times: G.Times, j: G.Job, g: G.Label)
    requires GI.Inv(times, j) && G.Enabled(j, g) && UnderLoss(j.requests)
    ensures UnderLoss(G.Step(times, j, g).requests)
  {
    GR.LaterStep(times, j, g);
    var r :| 0 <= r < |j.requests| && j.requests[r].outcome == Some(G.Lost);
    assert G.Step(times, j, g).requests[r].outcome == Some(G.Lost);
  }

  /** A job that drains before `failed` with its lease lost has lost it in that drain. */
  lemma LostInDrain(times: G.Times, j: G.Job, g: G.Label)
    requires GI.Inv(times, j) && G.Enabled(j, g)
    requires var k := G.Step(times, j, g); k.pc == G.FailDrain && k.heart.outcome == Some(G.Lost)
    ensures j.pc == G.FailDrain && (j.heart.outcome == Some(G.Lost) || j.heart.outcome.None?)
  {
    GR.LaterStep(times, j, g);
  }

  lemma {:induction false} LossFound(c: D.Config, times: G.Times, deadline: real, ss: seq<Sys>, ls: seq<Label>, n: nat) returns (i: nat)
    requires GI.TimesOk(times) && Follows(c, times, deadline, ss, ls) && n <= |ls|
    requires ss[n].job.pc == G.FailDrain && ss[n].job.heart.outcome == Some(G.Lost)
    ensures i < n && LosesLease(ss, i)
  {
    i := n - 1;
    assert TakesStep(c, times, ss, ls, i);
    JobInvAt(c, times, deadline, ss, ls, i);
    if ls[i].JobDoes? { LostInDrain(times, ss[i].job, ls[i].g); }
    if !LosesLease(ss, i) { i := LossFound(c, times, deadline, ss, ls, n - 1); }
  }

  /** The drain before `failed` returns in step `j`, and the request goes out under a lost lease. */
  predicate SendsLost(ss: seq<Sys>, ls: seq<Label>, j: nat)
    requires |ss| == |ls| + 1 && j < |ls|
  {
    && ls[j].JobDoes? && ls[j].g.Drain? && ss[j].job.pc == G.FailDrain && ss[j].job.heart.outcome == Some(G.Lost)
    && ss[j + 1].job.requests == ss[j].job.requests + [G.Request(G.Fails, Some(G.Lost), None)]
  }

  lemma SendHere(c: D.Config, times: G.Times, ss: seq<Sys>, ls: seq<Label>, j: nat)
    requires |ss| == |ls| + 1 && j < |ls| && TakesStep(c, times, ss, ls, j) && GI.Inv(times, ss[j].job)
    requires !UnderLoss(ss[j].job.requests) && UnderLoss(ss[j + 1].job.requests)
    ensures SendsLost(ss, ls, j)
  {
    if ls[j].JobDoes? { LossSentBy(times, ss[j].job, ls[j].g); }
  }

  lemma {:induction false} SendFound(c: D.Config, times: G.Times, deadline: real, ss: seq<Sys>, ls: seq<Label>, n: nat) returns (j: nat)
    requires GI.TimesOk(times) && Follows(c, times, deadline, ss, ls) && n <= |ls| && UnderLoss(ss[n].job.requests)
    ensures j < n && SendsLost(ss, ls, j)
  {
    j := n - 1;
    assert TakesStep(c, times, ss, ls, j);
    if UnderLoss(ss[j].job.requests) {
      j := SendFound(c, times, deadline, ss, ls, n - 1);
    } else {
      JobInvAt(c, times, deadline, ss, ls, j);
      SendHere(c, times, ss, ls, j);
    }
  }

  lemma {:induction false} LossKept(c: D.Config, times: G.Times, deadline: real, ss: seq<Sys>, ls: seq<Label>, m: nat, n: nat)
    requires GI.TimesOk(times) && Follows(c, times, deadline, ss, ls) && m <= n <= |ls| && UnderLoss(ss[m].job.requests)
    ensures UnderLoss(ss[n].job.requests)
    decreases n
  {
    if m < n {
      LossKept(c, times, deadline, ss, ls, m, n - 1);
      assert TakesStep(c, times, ss, ls, n - 1);
      JobInvAt(c, times, deadline, ss, ls, n - 1);
      if ls[n - 1].JobDoes? { LossStays(times, ss[n - 1].job, ls[n - 1].g); }
    }
  }

  // ---------------------------------------------------------------- a run in which it goes out

  const OneFrame: P.Input := P.Sdk(Frame(TurnStart, None, None), 0)

  lemma FrameEmitted(c: D.Config)
    requires P.AttemptAccepted(c.attempt)
    ensures var es := P.Respond(c.attempt, Projection.Init, OneFrame).1;
            |es| == 1 && EventAccepted(es[0]) && es[0].id.attempt == c.attempt
  {
    var s := Projection.Init;
    assert FlushOrder(s) == [];
    var e := Frame(TurnStart, None, None);
    PA.GenericAccepted(c.attempt, 1, e);
    assert Flush(c.attempt, s).1 == [];
  }

  lemma TakesOne(c: D.Config, r: D.State)
    requires |r.queue| == 1 && r.active.None? && D.RunTop(c, r).phase == D.Sending
    ensures D.RunTop(c, r).queue == []
  {
    assert D.TakeCount(c, r.queue) == 1;
  }

  predicate OneInFlight(c: D.Config, q: D.State) {
    DR.Inv(c, q) && q.phase == D.Sending && q.queue == [] && q.fatal.None? && !q.stopped
  }

  lemma RunsAtOnce(c: D.Config, r: D.State)
    requires DR.Core(c, r) && |r.queue| == 1 && r.active.None? && r.fatal.None? && !r.stopped
    ensures OneInFlight(c, D.RunTop(c, r))
  {
    DR.RunTopKeeps(c, r);
    assert D.RunTop(c, r).phase == D.Sending;
    TakesOne(c, r);
  }

  /** An idle, empty pump sends what it accepts at once. */
  lemma SendsAtOnce(c: D.Config, p: D.State, e: Event)
    requires DR.Inv(c, p) && D.Drained(p) && p.phase == D.Idle && D.Refuses(c, p, e) == None
    ensures OneInFlight(c, D.Enqueue(c, p, e))
  {
    DR.AcceptKeeps(c, p, e);
    var r := DR.Accept(p, e).(retries := 0);
    assert DR.Core(c, r) && r.queue == [e];
    RunsAtOnce(c, r);
  }

  /** The worker is running, and a batch of its events is in flight. */
  predicate InFlight(c: D.Config, deadline: real, s: Sys) {
    s.job == WaitingJob(deadline) && OneInFlight(c, s.pump)
  }

  lemma BatchInFlight(c: D.Config, times: G.Times, deadline: real) returns (ss: seq<Sys>)
    requires GI.TimesOk(times) && c.maxBuffered >= 1 && P.AttemptAccepted(c.attempt)
    ensures IsRun(c, times, deadline, ss) && InFlight(c, deadline, Last(ss))
  {
    ss := Begun(c, times, deadline);
    var s := Last(ss);
    ChildStep(c, times, deadline, s, OneFrame);
    FrameEmitted(c);
    var t := Step(c, times, s, Child(OneFrame));
    ss := Extended(c, times, deadline, ss, Child(OneFrame), t);
    assert t.emitted == [] + P.Respond(c.attempt, Projection.Init, OneFrame).1;
    NextAccepted(c, t);
    DeliverStep(c, times, deadline, t);
    SendsAtOnce(c, t.pump, t.emitted[0]);
    ss := Extended(c, times, deadline, ss, Deliver, Step(c, times, t, Deliver));
  }

  /** The worker fails, the drain awaits the batch, and the lease runs out meanwhile. */
  lemma LeaseRunsOut(c: D.Config, times: G.Times, deadline: real, before: seq<Sys>, late: int) returns (ss: seq<Sys>)
    requires GI.TimesOk(times) && IsRun(c, times, deadline, before) && InFlight(c, deadline, Last(before))
    requires deadline - late as real <= times.grace as real
    ensures IsRun(c, times, deadline, ss)
    ensures var j := Last(ss).job; j.pc == G.FailDrain && j.requests == [] && j.heart.outcome == Some(G.Lost)
    ensures Last(ss).pump.stopped && Last(ss).pump.(stopped := false) == Last(before).pump
  {
    var s := Last(before);
    var t := s.(job := s.job.(pc := G.FailDrain));
    assert Step(c, times, s, JobDoes(G.Throws(G.OtherError))) == t;
    ss := Extended(c, times, deadline, before, JobDoes(G.Throws(G.OtherError)), t);
    assert t.job.heart.pending == {0};
    ss := Extended(c, times, deadline, ss, JobDoes(G.Timer(0, late)), Step(c, times, t, JobDoes(G.Timer(0, late))));
  }

  lemma Acknowledged(c: D.Config, p: D.State) returns (l: D.Label)
    requires OneInFlight(c, p.(stopped := false)) && p.stopped
    ensures D.Enabled(p, l) && l.Answered?
    ensures var q := D.Step(c, p, l); D.Drained(q) && q.phase == D.Finished
  {
    var batch := p.active.value;
    DR.EchoAcknowledges(c, batch);
    l := D.Answered(D.Receipt(Echo(batch)), true);
  }

  /** The batch is acknowledged all the same, the drain succeeds, and `failed` goes out. */
  lemma SentAfterAck(c: D.Config, times: G.Times, deadline: real, before: seq<Sys>) returns (ss: seq<Sys>)
    requires IsRun(c, times, deadline, before)
    requires var j := Last(before).job; j.pc == G.FailDrain && j.requests == [] && j.heart.outcome == Some(G.Lost)
    requires Last(before).pump.stopped && OneInFlight(c, Last(before).pump.(stopped := false))
    ensures IsRun(c, times, deadline, ss)
    ensures Last(ss).job.requests == [G.Request(G.Fails, Some(G.Lost), None)]
  {
    var s := Last(before);
    var l := Acknowledged(c, s.pump);
    var t := Step(c, times, s, PumpDoes(l));
    ss := Extended(c, times, deadline, before, PumpDoes(l), t);
    ss := Extended(c, times, deadline, ss, JobDoes(G.Drain(true)), Step(c, times, t, JobDoes(G.Drain(true))));
  }
}
