/** When a claimed job gives its lease up, when it sends a heartbeat and what it reports in the end: from the
    labels of its run. */
module LeaseRenewal {
  import opened Wrappers
  import opened Lease
  import opened Gateway
  import opened GatewayInvariant

  // ---------------------------------------------------------------- the history of a run

  function Before(ls: seq<Label>): seq<Label>
    requires ls != []
  {
    ls[..|ls| - 1]
  }

  function Latest(ls: seq<Label>): Label
    requires ls != []
  {
    ls[|ls| - 1]
  }

  /** The fence: a terminal request has been sent, or the job is over. */
  predicate Fenced(j: Job) { j.requests != [] || j.pc == Over }

  /** The last label of the run is a possible one and comes before the fence. */
  predicate Effective(times: Times, deadline: real, ls: seq<Label>)
    requires ls != []
  {
    Enabled(Run(times, deadline, Before(ls)), Latest(ls)) && !Fenced(Run(times, deadline, Before(ls)))
  }

  /** The deadline of the claim, or the one that the last heartbeat answered before the fence has brought. */
  function LastDeadline(times: Times, deadline: real, ls: seq<Label>): real {
    if ls == [] then deadline
    else if Latest(ls).BeatAnswer? && Latest(ls).newDeadline.Some? && Effective(times, deadline, ls) then Latest(ls).newDeadline.value
    else LastDeadline(times, deadline, Before(ls))
  }

  /** Heartbeats that have failed before the fence since the last one that was answered. */
  function FailuresInARow(times: Times, deadline: real, ls: seq<Label>): nat {
    if ls == [] then 0
    else if Latest(ls).BeatAnswer? && Effective(times, deadline, ls) then 0
    else FailuresInARow(times, deadline, Before(ls)) + (if Latest(ls).BeatError? && Effective(times, deadline, ls) then 1 else 0)
  }

  lemma {:induction false} FenceMeaning(times: Times, deadline: real, ls: seq<Label>)
    requires TimesOk(times)
    ensures Run(times, deadline, ls).heart.beatsStopped <==> Fenced(Run(times, deadline, ls))
  {
    if ls != [] {
      FenceMeaning(times, deadline, Before(ls));
      InvRun(times, deadline, Before(ls));
      var j := Run(times, deadline, Before(ls));
      if Enabled(j, Latest(ls)) { FenceStep(times, j, Latest(ls)); }
    }
  }

  lemma FenceStep(times: Times, j: Job, l: Label)
    requires Inv(times, j) && Enabled(j, l) && (j.heart.beatsStopped <==> Fenced(j))
    ensures Step(times, j, l).heart.beatsStopped <==> Fenced(Step(times, j, l))
  {
    if l.Timer? || l.BeatAnswer? || l.BeatError? || l.BeatAborted? { HeartStepLater(times, j, l); }
  }

  /** A heartbeat label and the fence decide the deadline and the failure count. */
  lemma RenewalStep(times: Times, j: Job, l: Label)
    requires Inv(times, j) && Enabled(j, l)
    ensures var g, h := j.heart, Step(times, j, l).heart;
            && h.deadline == (if l.BeatAnswer? && l.newDeadline.Some? && !g.beatsStopped then l.newDeadline.value else g.deadline)
            && h.failures == (if g.beatsStopped then g.failures
                              else if l.BeatAnswer? then 0
                              else if l.BeatError? then g.failures + 1 else g.failures)
  {
  }

  /** The job works with the renewed deadline, and counts failures in a row. */
  lemma {:induction false} RenewalMeaning(times: Times, deadline: real, ls: seq<Label>)
    requires TimesOk(times)
    ensures Run(times, deadline, ls).heart.deadline == LastDeadline(times, deadline, ls)
    ensures Run(times, deadline, ls).heart.failures == FailuresInARow(times, deadline, ls)
  {
    if ls != [] {
      var j := Run(times, deadline, Before(ls));
      RenewalMeaning(times, deadline, Before(ls));
      FenceMeaning(times, deadline, Before(ls));
      InvRun(times, deadline, Before(ls));
      if Enabled(j, Latest(ls)) { RenewalStep(times, j, Latest(ls)); }
    }
  }

  // ---------------------------------------------------------------- giving up, and going on

  /** A timer goes off with no more than the grace left; or a heartbeat fails before the fence as the second
      in a row, or within the grace of the deadline. */
  predicate GivesUp(times: Times, deadline: real, ls: seq<Label>, l: Label) {
    match l
    case Timer(_, now) => LastDeadline(times, deadline, ls) - now as real <= times.grace as real
    case BeatError(now) =>
      && !Fenced(Run(times, deadline, ls))
      && (FailuresInARow(times, deadline, ls) + 1 >= 2 || LastDeadline(times, deadline, ls) - now as real <= times.grace as real)
    case _ => false
  }

  /** Before the fence, an answered heartbeat clears the failures and renews the deadline, a failing one adds
      a failure; and while nothing is decided, the lease is lost exactly when a timer or a failing heartbeat
      comes within the grace of the deadline, or a second heartbeat in a row fails. */
  predicate Renews(times: Times, g: Heart, h: Heart, l: Label) {
    && (l.BeatAnswer? && !g.beatsStopped ==>
          h.failures == 0 && h.deadline == (if l.newDeadline.Some? then l.newDeadline.value else g.deadline))
    && (l.BeatError? && !g.beatsStopped ==> h.failures == g.failures + 1)
    && (!l.BeatAnswer? ==> h.deadline == g.deadline)
    && (g.outcome == None ==>
          && (h.outcome == Some(Cancelled) <==> l.BeatAnswer? && l.cancel && !g.beatsStopped)
          && (h.outcome == Some(Lost) <==>
                || (l.Timer? && g.deadline - l.now as real <= times.grace as real)
                || (l.BeatError? && !g.beatsStopped
                    && (g.failures + 1 >= 2 || g.deadline - l.now as real <= times.grace as real))))
  }

  lemma RenewsStep(times: Times, j: Job, l: Label)
    requires Inv(times, j) && Enabled(j, l)
    ensures Renews(times, j.heart, Step(times, j, l).heart, l)
  {
    RenewalStep(times, j, l);
    if j.heart.outcome == None { OutcomeStep(times, j, l); }
  }

  /** While nothing is decided, a step records the loss of the lease exactly if it gives up in one of these
      ways, and a cancellation exactly if a heartbeat answered before the fence asks for it. */
  lemma OutcomeExactlyWhen(times: Times, deadline: real, ls: seq<Label>, l: Label)
    requires TimesOk(times) && Run(times, deadline, ls).heart.outcome == None && Enabled(Run(times, deadline, ls), l)
    ensures var j := Run(times, deadline, ls);
            var k := Run(times, deadline, ls + [l]);
            && (k.heart.outcome == Some(Lost) <==> GivesUp(times, deadline, ls, l))
            && (k.heart.outcome == Some(Cancelled) <==> l.BeatAnswer? && l.cancel && !Fenced(j))
  {
    assert Before(ls + [l]) == ls;
    FenceMeaning(times, deadline, ls);
    RenewalMeaning(times, deadline, ls);
    InvRun(times, deadline, ls);
    OutcomeStep(times, Run(times, deadline, ls), l);
  }

  lemma OutcomeStep(times: Times, j: Job, l: Label)
    requires Inv(times, j) && j.heart.outcome == None && Enabled(j, l)
    ensures var o := Step(times, j, l).heart.outcome;
            && (o == Some(Cancelled) <==> l.BeatAnswer? && l.cancel && !j.heart.beatsStopped)
            && (o == Some(Lost) <==>
                  || (l.Timer? && j.heart.deadline - l.now as real <= times.grace as real)
                  || (l.BeatError? && !j.heart.beatsStopped
                      && (j.heart.failures + 1 >= 2 || j.heart.deadline - l.now as real <= times.grace as real)))
  {
  }

  /** A heartbeat is sent exactly when a timer goes off, nothing is decided and more than the grace is left to
      the renewed deadline. It may take as long as the control timeout, or up to the grace before that
      deadline if that is earlier, but 25 ms in any case. */
  lemma BeatSentExactlyWhen(times: Times, deadline: real, ls: seq<Label>, l: Label)
    requires TimesOk(times) && Enabled(Run(times, deadline, ls), l)
    ensures var g := Run(times, deadline, ls).heart;
            var h := Run(times, deadline, ls + [l]).heart;
            var d := LastDeadline(times, deadline, ls);
            if l.Timer? && g.outcome == None && d - l.now as real > times.grace as real
            then |h.beats| == |g.beats| + 1 && h.beats[..|g.beats|] == g.beats && h.beat == InFlight
                 && LongestBeat(times, d, l.now, h.beats[|g.beats|])
            else h.beats == g.beats
  {
    assert Before(ls + [l]) == ls;
    RenewalMeaning(times, deadline, ls);
    InvRun(times, deadline, ls);
  }

  predicate LongestBeat(times: Times, deadline: real, now: int, b: Beat) {
    var time := b.cutoff - b.start;
    && b.start == now && b.deadline == deadline
    && 25 <= time <= times.controlTimeout
    && (time == times.controlTimeout || time == 25 || (b.cutoff + 1 + times.grace) as real > deadline)
    && (time > 25 ==> (b.cutoff + times.grace) as real <= deadline)
  }

  /** The chain of heartbeats does not break off: until something is decided or the fence is up, exactly one
      heartbeat is under way or one timer is pending. */
  lemma {:induction false} ChainGoesOn(times: Times, deadline: real, ls: seq<Label>)
    requires TimesOk(times) && Run(times, deadline, ls).heart.outcome == None && !Fenced(Run(times, deadline, ls))
    ensures var h := Run(times, deadline, ls).heart;
            if h.beat == InFlight then h.pending == {} else h.beat == Quiet && exists t :: h.pending == {t}
  {
    FenceMeaning(times, deadline, ls);
    InvRun(times, deadline, ls);
    if ls == [] {
      assert Run(times, deadline, ls).heart.pending == {0};
    } else {
      var j := Run(times, deadline, Before(ls));
      InvRun(times, deadline, Before(ls));
      FenceMeaning(times, deadline, Before(ls));
      if Enabled(j, Latest(ls)) {
        StepBack(times, j, Latest(ls));
        ChainGoesOn(times, deadline, Before(ls));
        ChainStep(times, j, Latest(ls));
      } else {
        ChainGoesOn(times, deadline, Before(ls));
      }
    }
  }

  lemma StepBack(times: Times, j: Job, l: Label)
    requires Inv(times, j) && Enabled(j, l)
    requires Step(times, j, l).heart.outcome == None && !Step(times, j, l).heart.beatsStopped
    ensures j.heart.outcome == None && !j.heart.beatsStopped
  {
  }

  predicate ChainAlive(h: Heart) {
    if h.beat == InFlight then h.pending == {} else h.beat == Quiet && h.latest.Some? && h.pending == {h.latest.value}
  }

  lemma ChainStep(times: Times, j: Job, l: Label)
    requires Inv(times, j) && Enabled(j, l) && j.heart.outcome == None && !j.heart.beatsStopped
    requires if j.heart.beat == InFlight then j.heart.pending == {} else j.heart.beat == Quiet && exists t :: j.heart.pending == {t}
    requires Step(times, j, l).heart.outcome == None && !Step(times, j, l).heart.beatsStopped
    ensures ChainAlive(Step(times, j, l).heart)
  {
    var h := j.heart;
    if h.beat == Quiet {
      var t :| h.pending == {t};
      assert t in h.pending && h.latest == Some(t);
    }
    if l.Timer? { assert h.pending - {l.timer} == {}; }
    if l.BeatAnswer? || l.BeatError? { assert {} + {h.timers} == {h.timers}; }
  }

  // ---------------------------------------------------------------- what is reported

  /** The label was taken at some point of the run. */
  predicate Took(times: Times, deadline: real, ls: seq<Label>, l: Label) {
    ls != [] && (Took(times, deadline, Before(ls), l) || (Latest(ls) == l && Enabled(Run(times, deadline, Before(ls)), l)))
  }

  /** Nothing is reported only if the gateway was stopped, an event got lost, the lease was lost, a drain
      failed, or the worker met an infrastructure error. */
  predicate Excused(j: Job, drainFailed: bool, infra: bool) {
    j.stopped || j.bufferFailed || j.heart.outcome == Some(Lost) || drainFailed || infra
  }

  predicate Threw(times: Times, deadline: real, ls: seq<Label>) {
    || Took(times, deadline, ls, Throws(DecisionOrProvider)) || Took(times, deadline, ls, Throws(TerminalBusiness))
    || Took(times, deadline, ls, Throws(OtherError))
  }

  predicate ReportFacts(j: Job, drainFailed: bool, infra: bool, threw: bool) {
    && ((j.pc == Leaving || j.pc == Over) && j.requests == [] ==> Excused(j, drainFailed, infra))
    && (j.pc == FailDrain && j.requests == [] ==> threw)
    && (j.requests != [] && j.requests[0].kind == Fails ==> threw)
  }

  lemma ReportStep(times: Times, j: Job, l: Label, drainFailed: bool, infra: bool, threw: bool)
    requires TimesOk(times) && Inv(times, j) && ReportFacts(j, drainFailed, infra, threw) && Enabled(j, l)
    ensures ReportFacts(Step(times, j, l), drainFailed || l == Drain(false), infra || l == Throws(Infrastructure),
                        threw || (l.Throws? && l.error != Infrastructure))
  {
    match l
    case Drain(_) =>
    case Answer(_) =>
    case Timer(_, _) => HeartStepLater(times, j, l);
    case BeatAnswer(_, _) => HeartStepLater(times, j, l);
    case BeatError(_) => HeartStepLater(times, j, l);
    case BeatAborted => HeartStepLater(times, j, l);
    case _ =>
  }

  lemma {:induction false} ReportRun(times: Times, deadline: real, ls: seq<Label>)
    requires TimesOk(times)
    ensures ReportFacts(Run(times, deadline, ls), Took(times, deadline, ls, Drain(false)),
                        Took(times, deadline, ls, Throws(Infrastructure)), Threw(times, deadline, ls))
  {
    if ls != [] {
      var j := Run(times, deadline, Before(ls));
      ReportRun(times, deadline, Before(ls));
      InvRun(times, deadline, Before(ls));
      if Enabled(j, Latest(ls)) {
        ReportStep(times, j, Latest(ls), Took(times, deadline, Before(ls), Drain(false)),
                   Took(times, deadline, Before(ls), Throws(Infrastructure)), Threw(times, deadline, Before(ls)));
      }
    }
  }

  /** No job ends in silence without a reason, and none reports `failed` first unless its worker has thrown
      something else than an infrastructure error. */
  lemma ReportedUnlessExcused(times: Times, deadline: real, ls: seq<Label>)
    requires TimesOk(times)
    ensures var j := Run(times, deadline, ls);
            && (j.pc == Over && j.requests == [] ==>
                  Excused(j, Took(times, deadline, ls, Drain(false)), Took(times, deadline, ls, Throws(Infrastructure))))
            && (j.requests != [] && j.requests[0].kind == Fails ==> Threw(times, deadline, ls))
  {
    ReportRun(times, deadline, ls);
  }

  /** `completed` is sent exactly when the final drain has succeeded, nothing was decided by a heartbeat and no
      event got lost; `cancelled` exactly when a drain for it has succeeded. */
  lemma SentExactlyWhen(times: Times, deadline: real, ls: seq<Label>, l: Label)
    requires TimesOk(times) && Enabled(Run(times, deadline, ls), l)
    ensures var j, k := Run(times, deadline, ls), Run(times, deadline, ls + [l]);
            && (|k.requests| > |j.requests| ==> |k.requests| == |j.requests| + 1)
            && (SendsNow(j, k, Completes) <==>
                  l == Drain(true) && j.pc == FinalDrain && j.heart.outcome == None && !j.bufferFailed)
            && (SendsNow(j, k, Cancels) <==> l == Drain(true) && j.pc.CancelDrain?)
            && (SendsNow(j, k, Fails) <==> l == Drain(true) && j.pc == FailDrain)
  {
    assert Before(ls + [l]) == ls;
    var o := Run(times, deadline, ls).heart.outcome;
    assert o == None || o == Some(Lost) || o == Some(Cancelled) by { if o.Some? { assert o.value.Lost? || o.value.Cancelled?; } }
  }

  predicate SendsNow(j: Job, k: Job, kind: Kind) {
    |k.requests| == |j.requests| + 1 && k.requests[|j.requests|] == Request(kind, j.heart.outcome, None)
  }

  /** A cancellation is on its way to be reported: once recorded while the job works, unless it is stopped or
      an event gets lost, every place it can come to leads to `cancelled`. */
  lemma CancellationGoesOn(times: Times, deadline: real, ls: seq<Label>, l: Label)
    requires TimesOk(times) && Run(times, deadline, ls).heart.outcome == Some(Cancelled) && Enabled(Run(times, deadline, ls), l)
    requires Run(times, deadline, ls).requests == [] && Run(times, deadline, ls).pc != FailDrain
    requires !Run(times, deadline, ls).stopped && !Run(times, deadline, ls).bufferFailed
    requires Run(times, deadline, ls).pc != Leaving && l != Drain(false)
    ensures var k := Run(times, deadline, ls + [l]);
            if k.requests == [] then Working(k.pc) || k.pc.CancelDrain? || k.pc == Over else k.requests[0].kind == Cancels
  {
    assert Before(ls + [l]) == ls;
    InvRun(times, deadline, ls);
    CancellationStep(times, Run(times, deadline, ls), l);
  }

  predicate Working(pc: Pc) { pc == Starting || pc == AwaitingDone || pc == AbortForCancel || pc == FinalDrain }

  lemma CancellationStep(times: Times, j: Job, l: Label)
    requires Inv(times, j) && j.heart.outcome == Some(Cancelled) && Enabled(j, l) && j.requests == []
    requires j.pc != FailDrain && j.pc != Leaving && !j.stopped && !j.bufferFailed && l != Drain(false)
    ensures var k := Step(times, j, l);
            if k.requests == [] then Working(k.pc) || k.pc.CancelDrain? || k.pc == Over else k.requests[0].kind == Cancels
  {
    assert !j.pc.Requesting?;
    assert Working(j.pc) || j.pc.CancelDrain? || j.pc == Over;
    match l
    case Drain(drained) => assert drained;
    case _ =>
  }

  /** The answer to a terminal request decides how the job goes on: a refused `completed` leads to `failed`, a
      `cancelled` that was not accepted is tried once more from the catch block, unless the gateway was
      stopped or an event got lost; in all other cases the job is done. */
  lemma AnswerDecides(times: Times, deadline: real, ls: seq<Label>, reply: Reply)
    requires TimesOk(times) && Enabled(Run(times, deadline, ls), Answer(reply))
    ensures var j, k := Run(times, deadline, ls), Run(times, deadline, ls + [Answer(reply)]);
            && j.pc.Requesting? && j.requests != []
            && k.pc == (if reply == Accepted || j.pc.inCatch || j.stopped || j.bufferFailed then Leaving
                        else if j.pc.kind == Completes && reply != Rejected(Infrastructure) then FailDrain
                        else if j.pc.kind == Cancels then CancelDrain(true)
                        else Leaving)
            && k.requests == j.requests[|j.requests| - 1 := j.requests[|j.requests| - 1].(reply := Some(reply))]
  {
    assert Before(ls + [Answer(reply)]) == ls;
    InvRun(times, deadline, ls);
  }
}
