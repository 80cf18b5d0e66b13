/** End to end: what was acknowledged when the job reports the run, and before. */
module Pipeline {
  import opened Wrappers
  import opened Utf16Text
  import opened Protocol
  import D = Delivery
  import DR = DeliveryRuns
  import G = Gateway
  import GI = GatewayInvariant
  import P = ProjectorRuns
  import opened Projection
  import opened DeltaConservation
  import opened PipelineSteps

  /** End to end: when `completed` has been sent for the run, the acknowledged delta texts of each
      channel, put together, are exactly the deltas the projector accepted, in order. */
  lemma CompletedMeansAcknowledged(c: D.Config, times: G.Times, deadline: real, ss: seq<Sys>, channel: Channel)
    requires GI.TimesOk(times) && IsRun(c, times, deadline, ss) && Reported(ss[|ss| - 1].job)
    ensures var s := ss[|ss| - 1];
            s.pump.acked == s.emitted && TextOf(s.pump.acked, channel) == P.Accepted(s.fed, channel)
  {
    AllRun(c, times, deadline, ss, |ss| - 1);
    var s := ss[|ss| - 1];
    assert JobSide(c, s);
    ExitEmitsAll(c, s, channel);
  }

  /** Whatever happens, what has been acknowledged is a beginning of what was accepted from the SDK,
      and the last acknowledged number counts the acknowledged events. */
  lemma AcknowledgedIsPrefix(c: D.Config, times: G.Times, deadline: real, ss: seq<Sys>, channel: Channel)
    requires GI.TimesOk(times) && IsRun(c, times, deadline, ss)
    ensures var s := ss[|ss| - 1];
            && TextOf(s.pump.acked, channel) <= P.Accepted(s.fed, channel)
            && (s.pump.acked != [] ==> s.pump.lastAcked == Some(|s.pump.acked|))
  {
    AllRun(c, times, deadline, ss, |ss| - 1);
    AckedText(c, ss[|ss| - 1], channel);
  }

  /** Of the next event on the channel, an open pump's attempt check and sequence check both hold. */
  lemma ProjectorNeverMismatches(c: D.Config, times: G.Times, deadline: real, ss: seq<Sys>)
    requires GI.TimesOk(times) && IsRun(c, times, deadline, ss)
    ensures var s := ss[|ss| - 1];
            |s.offered| < |s.emitted| && s.pump.fatal.None? && !s.pump.stopped ==>
              var e := s.emitted[|s.offered|];
              e.id.attempt == c.attempt && (s.pump.expected == None || s.pump.expected == Some(e.sequence))
  {
    AllRun(c, times, deadline, ss, |ss| - 1);
    var s := ss[|ss| - 1];
    var n := |s.offered|;
    if n < |s.emitted| {
      if n > 0 { P.NumberedWithoutGap(c.attempt, s.fed, n - 1); }
      P.NumberedWithoutGap(c.attempt, s.fed, n);
      if s.pump.fatal.None? && !s.pump.stopped { NextFits(c, s.pump, s.offered, s.emitted); }
    }
  }
}
