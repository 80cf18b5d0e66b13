/** The pipeline can always finish: whatever the SDK sends, as long as the events made of it pass the
    parser, there is a run in which all of them are acknowledged and `completed` is sent.

    The run is built from its phases, each a lemma that returns a longer run:
    the job becomes ready (`Begun`), the child projects its inputs (`ChildProjects`), the channel
    empties into the pump, which is drained after every event (`ChannelEmpties`, `PumpDrains`), and
    the child's exit leads to the final drain and to `completed` (`Finished`). What the pump's
    helpful steps do is taken from `DeliveryRuns`, that the projector's events are numbered as the
    pump expects from `ProjectorRuns`. */
module PipelineProgress {
  import opened Wrappers
  import opened Protocol
  import D = Delivery
  import DR = DeliveryRuns
  import G = Gateway
  import GI = GatewayInvariant
  import P = ProjectorRuns
  import PA = ProjectorAcceptance
  import opened PipelineSteps
  import opened Pipeline

  function Last(ss: seq<Sys>): Sys
    requires ss != []
  {
    ss[|ss| - 1]
  }

  lemma LongerRun(c: D.Config, times: G.Times, deadline: real, ss: seq<Sys>, t: Sys)
    requires IsRun(c, times, deadline, ss) && Next(c, times, Last(ss), t)
    ensures IsRun(c, times, deadline, ss + [t])
  {
    var more := ss + [t];
    forall i | 0 <= i < |more| - 1 ensures StepAt(c, times, more, i) {
      if i < |ss| - 1 { assert StepAt(c, times, ss, i); }
    }
  }

  lemma OneStep(c: D.Config, times: G.Times, s: Sys, l: Label, t: Sys)
    requires Enabled(c, s, l) && t == Step(c, times, s, l)
    ensures Next(c, times, s, t)
  {
  }

  lemma Extended(c: D.Config, times: G.Times, deadline: real, ss: seq<Sys>, l: Label, t: Sys) returns (more: seq<Sys>)
    requires IsRun(c, times, deadline, ss) && Enabled(c, Last(ss), l) && t == Step(c, times, Last(ss), l)
    ensures IsRun(c, times, deadline, more) && Last(more) == t
  {
    more := ss + [t];
    OneStep(c, times, Last(ss), l, t);
    LongerRun(c, times, deadline, ss, t);
  }

  /** A job that awaits its worker, untouched by anything else. */
  function WaitingJob(deadline: real): G.Job { G.Start(deadline).(pc := G.AwaitingDone) }

  predicate Open(c: D.Config, times: G.Times, deadline: real, s: Sys) {
    && All(c, times, s)
    && s.pump.fatal.None? && !s.pump.stopped
    && s.job == WaitingJob(deadline)
  }

  lemma PumpStep(c: D.Config, times: G.Times, deadline: real, s: Sys)
    requires GI.TimesOk(times) && Open(c, times, deadline, s) && !D.Drained(s.pump)
    ensures s.pump.phase == D.Sending ==> D.Active(s.pump) != []
    ensures var l := PumpDoes(DR.Helpful(s.pump));
            && Enabled(c, s, l)
            && var t := Step(c, times, s, l);
            && t == s.(pump := t.pump) && Open(c, times, deadline, t) && t.pump.accepted == s.pump.accepted
            && |s.pump.acked| <= |t.pump.acked| <= |t.pump.accepted|
            && (|t.pump.acked| == |s.pump.acked| ==> DR.Rank(t.pump.phase) < DR.Rank(s.pump.phase))
  {
    DR.HelpfulStep(c, s.pump);
    AllStep(c, times, s, PumpDoes(DR.Helpful(s.pump)));
  }

  /** A helpful control plane empties the pump. */
  lemma {:induction false} PumpDrains(c: D.Config, times: G.Times, deadline: real, ss: seq<Sys>) returns (more: seq<Sys>)
    requires GI.TimesOk(times) && IsRun(c, times, deadline, ss) && Open(c, times, deadline, Last(ss))
    ensures IsRun(c, times, deadline, more) && Open(c, times, deadline, Last(more))
    ensures Last(more) == Last(ss).(pump := Last(more).pump) && D.Drained(Last(more).pump)
    decreases |Last(ss).pump.accepted| - |Last(ss).pump.acked|, DR.Rank(Last(ss).pump.phase)
  {
    var s := Last(ss);
    if D.Drained(s.pump) {
      more := ss;
    } else {
      PumpStep(c, times, deadline, s);
      var l := PumpDoes(DR.Helpful(s.pump));
      more := Extended(c, times, deadline, ss, l, Step(c, times, s, l));
      more := PumpDrains(c, times, deadline, more);
    }
  }

  lemma OpenTakes(c: D.Config, p: D.State, e: Event)
    requires DR.Inv(c, p) && D.Refuses(c, p, e) == None
    ensures D.Enqueue(c, p, e).fatal.None? && !D.Enqueue(c, p, e).stopped
  {
    DR.AcceptKeeps(c, p, e);
    DR.RunTopKeeps(c, DR.Accept(p, e).(retries := 0));
  }

  /** The next event on the channel is accepted by an empty, open pump. */
  lemma NextAccepted(c: D.Config, s: Sys)
    requires PumpSide(c, s) && ChildSide(c, s) && D.Drained(s.pump) && !s.pump.stopped && c.maxBuffered >= 1
    requires |s.offered| < |s.emitted| && EventAccepted(s.emitted[|s.offered|])
    ensures D.Refuses(c, s.pump, s.emitted[|s.offered|]) == None
  {
    var n := |s.offered|;
    P.NumberedWithoutGap(c.attempt, s.fed, n);
    if n > 0 { P.NumberedWithoutGap(c.attempt, s.fed, n - 1); }
    NextFits(c, s.pump, s.offered, s.emitted);
  }

  lemma DeliverStep(c: D.Config, times: G.Times, deadline: real, s: Sys)
    requires GI.TimesOk(times) && Open(c, times, deadline, s) && D.Drained(s.pump) && c.maxBuffered >= 1
    requires |s.offered| < |s.emitted| && EventAccepted(s.emitted[|s.offered|])
    ensures Enabled(c, s, Deliver)
    ensures var t := Step(c, times, s, Deliver);
            && Open(c, times, deadline, t)
            && t == s.(offered := s.offered + [s.emitted[|s.offered|]], pump := t.pump)
  {
    var e := s.emitted[|s.offered|];
    NextAccepted(c, s);
    OpenTakes(c, s.pump, e);
    assert All(c, times, Step(c, times, s, Deliver)) by { AllStep(c, times, s, Deliver); }
    assert Handle(c, s, e) == D.Enqueue(c, s.pump, e);
  }

  predicate AllAccepted(es: seq<Event>) { forall i :: 0 <= i < |es| ==> EventAccepted(es[i]) }

  /** All events on the channel get delivered and acknowledged. */
  lemma {:induction false} ChannelEmpties(c: D.Config, times: G.Times, deadline: real, ss: seq<Sys>) returns (more: seq<Sys>)
    requires GI.TimesOk(times) && c.maxBuffered >= 1 && IsRun(c, times, deadline, ss)
    requires Open(c, times, deadline, Last(ss)) && AllAccepted(Last(ss).emitted)
    ensures IsRun(c, times, deadline, more) && Open(c, times, deadline, Last(more)) && D.Drained(Last(more).pump)
    ensures Last(more) == Last(ss).(pump := Last(more).pump, offered := Last(ss).emitted)
    decreases |Last(ss).emitted| - |Last(ss).offered|
  {
    more := PumpDrains(c, times, deadline, ss);
    var s := Last(more);
    assert s.offered <= s.emitted;
    if |s.offered| < |s.emitted| {
      DeliverStep(c, times, deadline, s);
      more := Extended(c, times, deadline, more, Deliver, Step(c, times, s, Deliver));
      more := ChannelEmpties(c, times, deadline, more);
    }
  }

  lemma ChildStep(c: D.Config, times: G.Times, deadline: real, s: Sys, i: P.Input)
    requires GI.TimesOk(times) && Open(c, times, deadline, s) && !s.exited
    ensures Enabled(c, s, Child(i))
    ensures var t := Step(c, times, s, Child(i)); Open(c, times, deadline, t) && !t.exited && t.fed == s.fed + [i]
  {
    AllStep(c, times, s, Child(i));
  }

  predicate Feeding(c: D.Config, times: G.Times, deadline: real, s: Sys, fed: seq<P.Input>) {
    Open(c, times, deadline, s) && !s.exited && s.fed == fed
  }

  lemma ChildFeeds(c: D.Config, times: G.Times, deadline: real, ss: seq<Sys>, fed: seq<P.Input>, i: P.Input) returns (more: seq<Sys>)
    requires GI.TimesOk(times) && IsRun(c, times, deadline, ss) && Feeding(c, times, deadline, Last(ss), fed)
    ensures IsRun(c, times, deadline, more) && Feeding(c, times, deadline, Last(more), fed + [i])
  {
    ChildStep(c, times, deadline, Last(ss), i);
    more := Extended(c, times, deadline, ss, Child(i), Step(c, times, Last(ss), Child(i)));
  }

  /** The child projects its inputs, one by one. */
  lemma {:induction false} ChildProjects(c: D.Config, times: G.Times, deadline: real, ss: seq<Sys>, fed: seq<P.Input>, ins: seq<P.Input>)
    returns (more: seq<Sys>)
    requires GI.TimesOk(times) && IsRun(c, times, deadline, ss) && Feeding(c, times, deadline, Last(ss), fed)
    ensures IsRun(c, times, deadline, more) && Feeding(c, times, deadline, Last(more), fed + ins)
    decreases |ins|
  {
    more := ss;
    if ins == [] {
      assert fed + [] == fed;
    } else {
      more := ChildFeeds(c, times, deadline, ss, fed, ins[0]);
      more := ChildProjects(c, times, deadline, more, fed + [ins[0]], ins[1..]);
      Shifted(fed, ins);
    }
  }

  lemma Shifted(fed: seq<P.Input>, ins: seq<P.Input>)
    requires ins != []
    ensures fed + [ins[0]] + ins[1..] == fed + ins
  {
  }

  /** The worker is ready at once. */
  lemma Begun(c: D.Config, times: G.Times, deadline: real) returns (ss: seq<Sys>)
    requires GI.TimesOk(times)
    ensures IsRun(c, times, deadline, ss) && Open(c, times, deadline, Last(ss))
    ensures Last(ss) == Start(deadline).(job := WaitingJob(deadline))
  {
    var s, l := Start(deadline), JobDoes(G.Ready(true));
    AllStart(c, times, deadline);
    AllStep(c, times, s, l);
    ss := Extended(c, times, deadline, [s], l, Step(c, times, s, l));
  }

  function AtDrain(s: Sys): Sys { s.(job := s.job.(pc := G.FinalDrain)) }

  lemma DoneStep(c: D.Config, times: G.Times, deadline: real, s: Sys)
    requires s.job == WaitingJob(deadline) && s.exited && s.offered == s.emitted
    ensures Enabled(c, s, JobDoes(G.Done)) && Step(c, times, s, JobDoes(G.Done)) == AtDrain(s)
  {
  }

  lemma DrainStep(c: D.Config, times: G.Times, deadline: real, s: Sys)
    requires s.job == WaitingJob(deadline) && DR.Inv(c, s.pump) && D.Drained(s.pump)
    ensures Enabled(c, AtDrain(s), JobDoes(G.Drain(true)))
    ensures var t := Step(c, times, AtDrain(s), JobDoes(G.Drain(true))); Reported(t.job) && t.fed == s.fed
  {
    var t := Step(c, times, AtDrain(s), JobDoes(G.Drain(true)));
    assert t.job == G.Send(AtDrain(s).job, G.Completes, false);
    assert t.job.requests[0].kind == G.Completes;
  }

  /** The child is done, the drain succeeds, and `completed` goes out. */
  lemma Finished(c: D.Config, times: G.Times, deadline: real, ss: seq<Sys>) returns (more: seq<Sys>)
    requires GI.TimesOk(times) && IsRun(c, times, deadline, ss) && Open(c, times, deadline, Last(ss))
    requires Last(ss).exited && Last(ss).offered == Last(ss).emitted && D.Drained(Last(ss).pump)
    ensures IsRun(c, times, deadline, more) && Reported(Last(more).job) && Last(more).fed == Last(ss).fed
  {
    var s := Last(ss);
    DoneStep(c, times, deadline, s);
    DrainStep(c, times, deadline, s);
    more := Extended(c, times, deadline, ss, JobDoes(G.Done), AtDrain(s));
    more := Extended(c, times, deadline, more, JobDoes(G.Drain(true)), Step(c, times, AtDrain(s), JobDoes(G.Drain(true))));
  }

  /** For all inputs whose events pass the parser, some run sends `completed`. */
  lemma CanComplete(c: D.Config, times: G.Times, deadline: real, ins: seq<P.Input>) returns (ss: seq<Sys>)
    requires GI.TimesOk(times) && c.maxBuffered >= 1
    requires AllAccepted(P.Run(c.attempt, ins + [P.FlushNow]).1)
    ensures IsRun(c, times, deadline, ss) && Reported(Last(ss).job) && Last(ss).fed == ins + [P.FlushNow]
  {
    ss := Begun(c, times, deadline);
    ss := ChildProjects(c, times, deadline, ss, [], ins);
    assert [] + ins == ins;
    var s := Last(ss);
    AllStep(c, times, s, Exit);
    ss := Extended(c, times, deadline, ss, Exit, Step(c, times, s, Exit));
    ss := ChannelEmpties(c, times, deadline, ss);
    ss := Finished(c, times, deadline, ss);
  }

  predicate SafeInputs(ins: seq<P.Input>) { forall i :: 0 <= i < |ins| ==> PA.SafeInput(ins[i]) }

  predicate NoneTooLong(es: seq<Event>) { forall i :: 0 <= i < |es| ==> !PA.TooLong(es[i]) }

  /** So whatever the SDK sends, the run can be completed, unless the final answer is longer than a
      payload may be or the events run out of numbers. */
  lemma CanCompleteUnlessTooLong(c: D.Config, times: G.Times, deadline: real, ins: seq<P.Input>) returns (ss: seq<Sys>)
    requires GI.TimesOk(times) && c.maxBuffered >= 1 && P.AttemptAccepted(c.attempt) && SafeInputs(ins)
    requires var es := P.Run(c.attempt, ins + [P.FlushNow]).1; |es| <= MAX_SEQUENCE && NoneTooLong(es)
    ensures IsRun(c, times, deadline, ss) && Reported(Last(ss).job) && Last(ss).fed == ins + [P.FlushNow]
  {
    var all := ins + [P.FlushNow];
    forall k | 0 <= k < |P.Run(c.attempt, all).1| ensures EventAccepted(P.Run(c.attempt, all).1[k]) {
      PA.AcceptedUnlessTooLong(c.attempt, all, k);
    }
    ss := CanComplete(c, times, deadline, ins);
  }

  lemma RefusalLeft(c: D.Config, p: D.State, e: Event)
    requires p.fatal.None? && !p.stopped && e.id.attempt == c.attempt
    requires p.expected == None || p.expected == Some(e.sequence)
    ensures D.Refuses(c, p, e) == None <==> EventAccepted(e) && |p.queue| < c.maxBuffered
  {
  }

  lemma NextAcceptedUnlessTooLong(c: D.Config, s: Sys)
    requires ChildSide(c, s) && P.AttemptAccepted(c.attempt) && SafeInputs(s.fed)
    requires |s.offered| < |s.emitted| && |s.offered| < MAX_SEQUENCE
    ensures EventAccepted(s.emitted[|s.offered|]) <==> !PA.TooLong(s.emitted[|s.offered|])
  {
    PA.AcceptedUnlessTooLong(c.attempt, s.fed, |s.offered|);
  }

  lemma LastChildSide(c: D.Config, times: G.Times, deadline: real, ss: seq<Sys>)
    requires GI.TimesOk(times) && IsRun(c, times, deadline, ss)
    ensures ChildSide(c, Last(ss))
  {
    AllRun(c, times, deadline, ss, |ss| - 1);
  }

  /** An open pump refuses the next event on the channel exactly when it is an answer that is too long
      or the buffer is full. */
  lemma RefusedExactlyWhen(c: D.Config, times: G.Times, deadline: real, ss: seq<Sys>)
    requires GI.TimesOk(times) && IsRun(c, times, deadline, ss)
    requires P.AttemptAccepted(c.attempt) && SafeInputs(Last(ss).fed)
    requires Last(ss).pump.fatal.None? && !Last(ss).pump.stopped
    requires |Last(ss).offered| < |Last(ss).emitted| && |Last(ss).offered| < MAX_SEQUENCE
    ensures var s := Last(ss);
            var e := s.emitted[|s.offered|];
            D.Refuses(c, s.pump, e) == None <==> !PA.TooLong(e) && |s.pump.queue| < c.maxBuffered
  {
    var s := Last(ss);
    LastChildSide(c, times, deadline, ss);
    ProjectorNeverMismatches(c, times, deadline, ss);
    NextAcceptedUnlessTooLong(c, s);
    RefusalLeft(c, s.pump, s.emitted[|s.offered|]);
  }
}
