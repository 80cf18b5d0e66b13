/** A lease that is lost while the job awaits the drain before `failed`: the catch block has already
    looked, so whether the request still goes out is up to the pump that the loss has stopped. */
module LostLease {
  import opened Wrappers
  import opened Protocol
  import D = Delivery
  import DR = DeliveryRuns
  import G = Gateway
  import GI = GatewayInvariant
  import GR = GatewayRuns
  import P = ProjectorRuns
  import PA = ProjectorAcceptance
  import opened Projection
  import opened PipelineSteps
  import opened PipelineProgress
  import opened LeaseLoss

  /** If the lease is lost during the drain before `failed`, the request still goes out if and only if at
      that moment nothing had failed and nothing was queued, and the batch in flight, if there was one,
      is acknowledged before the drain returns. */
  lemma FailedUnderLossExactlyWhen(c: D.Config, times: G.Times, deadline: real, ss: seq<Sys>, ls: seq<Label>, i: nat, j: nat)
    requires GI.TimesOk(times) && Follows(c, times, deadline, ss, ls) && i < j < |ls| && LosesLease(ss, i)
    requires ss[j].job.pc == G.FailDrain && ls[j].JobDoes? && ls[j].g.Drain?
    ensures var p := ss[i].pump;
            ss[j + 1].job.requests == ss[j].job.requests + [G.Request(G.Fails, Some(G.Lost), None)] <==>
              p.fatal.None? && p.queue == [] && (p.active.None? || AckedBetween(c, ls, i, j, p.active.value))
  {
    AfterLoss(c, times, deadline, ss, ls, i, j);
    assert TakesStep(c, times, ss, ls, j);
    DrainUnderLoss(c, times, ss[j], ls[j].g, ss[i].pump, AckedBetween(c, ls, i, j, D.Active(ss[i].pump)));
  }

  /** In any run a terminal request goes out under a lost lease if and only if the lease is lost during the
      drain before `failed`, with nothing failed and nothing queued, and the batch in flight, if any, is
      acknowledged before that drain returns. */
  lemma SentUnderLossExactlyWhen(c: D.Config, times: G.Times, deadline: real, ss: seq<Sys>, ls: seq<Label>)
    requires GI.TimesOk(times) && Follows(c, times, deadline, ss, ls)
    ensures UnderLoss(ss[|ls|].job.requests) <==> exists i, j :: 0 <= i < j < |ls| && SentDespite(c, ss, ls, i, j)
  {
    if UnderLoss(ss[|ls|].job.requests) {
      var j := SendFound(c, times, deadline, ss, ls, |ls|);
      var i := LossFound(c, times, deadline, ss, ls, j);
      FailedUnderLossExactlyWhen(c, times, deadline, ss, ls, i, j);
      assert SentDespite(c, ss, ls, i, j);
    }
    if i, j :| 0 <= i < j < |ls| && SentDespite(c, ss, ls, i, j) {
      FailedUnderLossExactlyWhen(c, times, deadline, ss, ls, i, j);
      assert ss[j + 1].job.requests[|ss[j].job.requests|].outcome == Some(G.Lost);
      LossKept(c, times, deadline, ss, ls, j + 1, |ls|);
    }
  }

  /** A run in which `failed` is sent under a lost lease: the worker fails while a batch is in flight, the
      lease runs out, and the batch is acknowledged afterwards. */
  lemma FailedAfterLost(c: D.Config, times: G.Times, deadline: real, late: int) returns (ss: seq<Sys>)
    requires GI.TimesOk(times) && c.maxBuffered >= 1 && P.AttemptAccepted(c.attempt)
    requires deadline - late as real <= times.grace as real
    ensures IsRun(c, times, deadline, ss)
    ensures Last(ss).job.requests == [G.Request(G.Fails, Some(G.Lost), None)]
  {
    ss := BatchInFlight(c, times, deadline);
    ss := LeaseRunsOut(c, times, deadline, ss, late);
    ss := SentAfterAck(c, times, deadline, ss);
  }
}
