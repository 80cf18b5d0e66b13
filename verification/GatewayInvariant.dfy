/** What every step of a claimed job keeps.

    Of the heartbeat chain (`HeartInv`): the outcome was written once or not at all; there is at most one
    pending timer, the one that can be cleared, and none during a heartbeat or behind the fence; two
    failures in a row give the lease up; every heartbeat is cut off in time.

    Of the terminal requests (`RequestsOk`): at most two, the second in one of two shapes, `completed`
    never under an outcome, `cancelled` only under a cancellation. That needs to know where the job is
    and what it has sent when it is there (`Placed`).

    A heartbeat step changes neither the place nor the requests, and nothing that is settled behind the
    fence (`HeartLater`); the other steps leave the chain alone, but for the fence itself. */
module GatewayInvariant {
  import opened Wrappers
  import opened Lease
  import opened Gateway

  predicate TimesOk(times: Times) { times.interval >= 1 && times.controlTimeout >= 25 && times.grace >= 25 }

  // ---------------------------------------------------------------- the heartbeat chain

  predicate BeatInTime(times: Times, b: Beat) {
    && b.cutoff as real <= b.deadline && b.cutoff <= b.start + times.controlTimeout
    && (b.deadline - b.start as real - times.grace as real >= 25.0 ==> (b.cutoff + times.grace) as real <= b.deadline)
  }

  predicate HeartInv(times: Times, h: Heart) {
    && h.writes == (if h.failed then 1 else 0)
    && (h.failed <==> h.outcome.Some?)
    // one chain: a pending timer is the one that can be cleared, and there is none during a beat
    && (forall t :: t in h.pending ==> h.latest == Some(t) && t < h.timers)
    && (h.latest.Some? ==> h.latest.value < h.timers)
    && (h.beat != Quiet ==> h.pending == {})
    && (h.beatsStopped ==> h.pending == {})
    && (h.beat == InFlight ==> !h.failed)
    && (h.beat == Aborting ==> h.failed)
    // two failures in a row give the lease up
    && (!h.failed ==> h.failures < MAX_HEARTBEAT_FAILURES)
    && (forall i :: 0 <= i < |h.beats| ==> BeatInTime(times, h.beats[i]))
  }

  lemma MarkLostKeeps(times: Times, h: Heart)
    requires HeartInv(times, h.(failures := 0)) && h.beat != InFlight
    ensures HeartInv(times, MarkLost(h))
  {
  }

  lemma EndBeatKeeps(times: Times, h: Heart)
    requires HeartInv(times, h.(beat := Quiet)) && h.pending == {}
    ensures HeartInv(times, EndBeat(h))
  {
  }

  lemma TimerKeeps(times: Times, h: Heart, timer: nat, now: int)
    requires TimesOk(times) && HeartInv(times, h) && timer in h.pending
    ensures HeartInv(times, TimerFires(times, h, timer, now))
  {
    var g := h.(pending := h.pending - {timer});
    assert g.pending == {};
    if !g.failed {
      if g.deadline - now as real <= times.grace as real {
        MarkLostKeeps(times, g);
        EndBeatKeeps(times, MarkLost(g));
      } else {
        BeatEndsInTime(times.controlTimeout, g.deadline, now, times.grace);
      }
    }
  }

  lemma BeatFailsKeeps(times: Times, h: Heart, now: int)
    requires HeartInv(times, h) && h.beat != Quiet
    ensures HeartInv(times, BeatFails(times, h, now))
  {
    if h.beatsStopped {
      EndBeatKeeps(times, h);
    } else {
      var g := h.(failures := h.failures + 1);
      if g.failures >= MAX_HEARTBEAT_FAILURES || (now + times.grace) as real >= g.deadline {
        MarkLostKeeps(times, g.(beat := Quiet));
        EndBeatKeeps(times, MarkLost(g));
      } else {
        EndBeatKeeps(times, g);
      }
    }
  }

  lemma HeartStepKeeps(times: Times, j: Job, l: Label)
    requires TimesOk(times) && HeartInv(times, j.heart) && Enabled(j, l)
    requires l.Timer? || l.BeatAnswer? || l.BeatError? || l.BeatAborted?
    ensures HeartInv(times, HeartStep(times, j.heart, l))
  {
    match l
    case Timer(timer, now) => TimerKeeps(times, j.heart, timer, now);
    case BeatAnswer(cancel, newDeadline) =>
    case BeatError(now) => BeatFailsKeeps(times, j.heart, now);
    case BeatAborted => EndBeatKeeps(times, j.heart);
  }

  lemma BeginKeeps(times: Times, h: Heart)
    requires HeartInv(times, h)
    ensures HeartInv(times, BeginTerminalization(h)) && BeginTerminalization(h).pending == {}
  {
    assert BeginTerminalization(h).pending == {};
  }

  // ---------------------------------------------------------------- the terminal requests

  /** The requests a job may have sent: none, one, or a second one that only followed a first one
      that was not accepted. */
  predicate RequestsOk(rs: seq<Request>) {
    && |rs| <= 2
    && (|rs| == 2 ==>
          || (rs[0].kind == Completes && rs[1].kind == Fails && Refused(rs[0]))
          || (rs[0].kind == Cancels && rs[1].kind == Cancels && rs[0].reply.Some? && rs[0].reply != Some(Accepted)))
    && (forall i :: 0 <= i < |rs| ==>
          && (rs[i].kind == Completes ==> rs[i].outcome == None)
          && (rs[i].kind == Cancels ==> rs[i].outcome == Some(Cancelled)))
  }

  /** Rejected by the control plane itself, and not merely unreachable. */
  predicate Refused(r: Request) { r.reply.Some? && r.reply != Some(Accepted) && r.reply != Some(Rejected(Infrastructure)) }

  /** Where the job is, and what it has sent when it is there. */
  predicate Placed(j: Job) {
    var rs, o := j.requests, j.heart.outcome;
    match j.pc
    case Starting => rs == [] && !j.heart.beatsStopped
    case AwaitingDone => rs == [] && !j.heart.beatsStopped
    case AbortForCancel => rs == [] && o == Some(Cancelled)
    case FinalDrain => rs == [] && !j.heart.beatsStopped
    case CancelDrain(inCatch) =>
      && o == Some(Cancelled)
      && (rs == [] || (inCatch && |rs| == 1 && rs[0].kind == Cancels && rs[0].reply.Some? && rs[0].reply != Some(Accepted)))
    case FailDrain =>
      rs == [] || (|rs| == 1 && rs[0].kind == Completes && Refused(rs[0]) && j.heart.beatsStopped)
    case Requesting(kind, inCatch) =>
      && j.heart.beatsStopped && rs != [] && rs[|rs| - 1] == Request(kind, o, None)
      && (!inCatch ==> |rs| == 1 && kind != Fails)
      && (forall i :: 0 <= i < |rs| - 1 ==> rs[i].reply.Some?)
    case Leaving => true
    case Over => j.heart.beatsStopped
  }

  predicate Inv(times: Times, j: Job) { HeartInv(times, j.heart) && RequestsOk(j.requests) && Placed(j) }

  /** Once written, the outcome stays; behind the fence nothing is written and no heartbeat starts. */
  predicate HeartLater(g: Heart, h: Heart) {
    && (g.outcome.Some? ==> h.outcome == g.outcome)
    && (g.beatsStopped ==> h.beatsStopped && h.outcome == g.outcome && h.beats == g.beats)
    && g.beats <= h.beats && g.writes <= h.writes
  }

  lemma HeartStepLater(times: Times, j: Job, l: Label)
    requires HeartInv(times, j.heart) && Enabled(j, l)
    requires l.Timer? || l.BeatAnswer? || l.BeatError? || l.BeatAborted?
    ensures HeartLater(j.heart, HeartStep(times, j.heart, l))
    ensures HeartStep(times, j.heart, l).beatsStopped == j.heart.beatsStopped
  {
  }

  lemma HeartLabelKeeps(times: Times, j: Job, l: Label)
    requires TimesOk(times) && Inv(times, j) && Enabled(j, l)
    requires l.Timer? || l.BeatAnswer? || l.BeatError? || l.BeatAborted?
    ensures Inv(times, Step(times, j, l))
  {
    HeartStepKeeps(times, j, l);
    HeartStepLater(times, j, l);
  }

  lemma SendKeeps(times: Times, j: Job, kind: Kind, inCatch: bool)
    requires Inv(times, j)
    requires kind == Completes ==> j.requests == [] && j.heart.outcome == None && !inCatch
    requires kind == Fails ==> inCatch && j.pc == FailDrain
    requires kind == Cancels ==> j.pc == CancelDrain(inCatch)
    ensures Inv(times, Send(j, kind, inCatch))
  {
    BeginKeeps(times, j.heart);
  }

  lemma CatchKeeps(times: Times, j: Job, error: ErrorClass)
    requires HeartInv(times, j.heart) && RequestsOk(j.requests)
    requires j.requests == []
          || (|j.requests| == 1 && j.heart.beatsStopped && j.requests[0].outcome == j.heart.outcome
              && if j.requests[0].kind == Completes then Refused(j.requests[0])
                 else j.requests[0].kind == Cancels && j.requests[0].reply.Some? && j.requests[0].reply != Some(Accepted))
    ensures Inv(times, Catch(j, error))
  {
  }

  lemma RepliedKeeps(times: Times, j: Job, reply: Reply)
    requires Inv(times, j) && j.pc.Requesting? && j.requests != []
    ensures Inv(times, Replied(j, reply))
  {
    var last := |j.requests| - 1;
    var rs := j.requests[last := j.requests[last].(reply := Some(reply))];
    assert RequestsOk(rs);
    if !(reply == Accepted || j.pc.inCatch || (j.pc.kind == Completes && reply == Rejected(Infrastructure))) {
      CatchKeeps(times, j.(requests := rs), reply.error);
    }
  }

  lemma DrainKeeps(times: Times, j: Job, drained: bool)
    requires Inv(times, j) && (j.pc.FinalDrain? || j.pc.CancelDrain? || j.pc.FailDrain?)
    ensures Inv(times, DrainDone(j, drained))
  {
    if drained {
      match j.pc
      case FinalDrain =>
        assert j.heart.outcome.Some? ==> j.heart.outcome.value == Lost || j.heart.outcome.value == Cancelled;
        if j.heart.outcome == None && !j.bufferFailed { SendKeeps(times, j, Completes, false); }
      case CancelDrain(inCatch) => SendKeeps(times, j, Cancels, inCatch);
      case FailDrain => SendKeeps(times, j, Fails, true);
    }
  }

  lemma InvStep(times: Times, j: Job, l: Label)
    requires TimesOk(times) && Inv(times, j) && Enabled(j, l)
    ensures Inv(times, Step(times, j, l))
  {
    match l
    case Ready(hasDone) =>
    case Throws(error) => CatchKeeps(times, j, error);
    case AbortDone =>
    case Done =>
    case Drain(drained) => DrainKeeps(times, j, drained);
    case Answer(reply) => RepliedKeeps(times, j, reply);
    case Finish => BeginKeeps(times, j.heart);
    case BufferFailure =>
    case GatewayStop =>
    case _ => HeartLabelKeeps(times, j, l);
  }

  lemma {:induction false} InvRun(times: Times, deadline: real, ls: seq<Label>)
    requires TimesOk(times)
    ensures Inv(times, Run(times, deadline, ls))
  {
    if ls != [] {
      var j := Run(times, deadline, ls[..|ls| - 1]);
      InvRun(times, deadline, ls[..|ls| - 1]);
      if Enabled(j, ls[|ls| - 1]) { InvStep(times, j, ls[|ls| - 1]); }
    }
  }
}
