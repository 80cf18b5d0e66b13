/** The closures of one dispatched job over their shared variables. A valid job keeps the invariant of
    GatewayRuns; `Turn` is whatever the event loop calls next, and takes the step that Gateway defines. */
module GatewayJob {
  import opened Wrappers
  import opened Lease
  import opened Gateway
  import GI = GatewayInvariant
  import GR = GatewayRuns
  import LR = LeaseRenewal

  class DispatchedJob {
    const times: Times

    // the heartbeat closures
    var heartbeatFailed: bool
    var heartbeatOutcome: Option<Outcome>
    var beatsStopped: bool
    var leaseDeadline: real
    var consecutiveFailures: nat
    var beatPhase: BeatPhase
    var pendingTimers: set<nat>
    var heartbeatTimer: Option<nat>
    var timersMade: nat
    ghost var writes: nat
    ghost var beats: seq<Beat>

    // the job itself
    var pc: Pc
    var stopped: bool
    var bufferFailed: bool
    ghost var requests: seq<Request>

    ghost function HeartView(): Heart
      reads this
    {
      Heart(heartbeatFailed, heartbeatOutcome, beatsStopped, leaseDeadline, consecutiveFailures, beatPhase,
            pendingTimers, heartbeatTimer, timersMade, writes, beats)
    }

    ghost function View(): Job
      reads this
    {
      Job(pc, stopped, bufferFailed, HeartView(), requests)
    }

    ghost predicate Valid()
      reads this
    {
      GI.TimesOk(times) && GI.Inv(times, View())
    }

    /** A job claimed until `deadline`; the first heartbeat is scheduled before the worker starts. */
    constructor (interval: int, controlTimeout: int, deadline: real, now: int)
      ensures Valid() && View() == Start(deadline)
      ensures times == Times(Max(1, interval), Max(25, controlTimeout), AbortGrace(deadline, now))
    {
      times := Times(Max(1, interval), Max(25, controlTimeout), AbortGrace(deadline, now));
      heartbeatFailed, heartbeatOutcome, beatsStopped, leaseDeadline := false, None, false, deadline;
      consecutiveFailures, beatPhase, pendingTimers, heartbeatTimer, timersMade := 0, Quiet, {}, None, 0;
      writes, beats := 0, [];
      pc, stopped, bufferFailed, requests := Starting, false, false, [];
      new;
      ScheduleNextBeat();
    }

    // -------------------------------------------------------------- heartbeats

    method MarkLost()
      modifies this`heartbeatFailed, this`heartbeatOutcome, this`writes
      ensures HeartView() == Gateway.MarkLost(old(HeartView()))
    {
      if heartbeatFailed { return; }
      heartbeatFailed, heartbeatOutcome := true, Some(Lost);
      writes := writes + 1;
    }

    method ScheduleNextBeat()
      modifies this`pendingTimers, this`heartbeatTimer, this`timersMade
      ensures HeartView() == Gateway.ScheduleNextBeat(old(HeartView()))
    {
      if heartbeatFailed || beatsStopped { return; }
      var timer := timersMade;
      timersMade := timersMade + 1;
      pendingTimers := pendingTimers + {timer};
      heartbeatTimer := Some(timer);
    }

    /** The finally block of a heartbeat. */
    method EndBeat()
      modifies this`beatPhase, this`pendingTimers, this`heartbeatTimer, this`timersMade
      ensures HeartView() == Gateway.EndBeat(old(HeartView()))
    {
      beatPhase := Quiet;
      ScheduleNextBeat();
    }

    /** A timer callback: the beginning of a heartbeat, up to its request. */
    method StartBeat(timer: nat, now: int)
      modifies this`heartbeatFailed, this`heartbeatOutcome, this`writes, this`beatPhase, this`pendingTimers,
               this`heartbeatTimer, this`timersMade, this`beats
      ensures HeartView() == TimerFires(times, old(HeartView()), timer, now)
    {
      pendingTimers := pendingTimers - {timer};
      if heartbeatFailed || beatPhase != Quiet { return; }
      var remaining := leaseDeadline - now as real;
      if remaining <= times.grace as real {
        MarkLost();
        EndBeat();
      } else {
        beatPhase := InFlight;
        beats := beats + [Beat(now, leaseDeadline, now + BeatTimeout(times.controlTimeout, remaining, times.grace))];
      }
    }

    method BeatResolves(cancel: bool, newDeadline: Option<real>)
      modifies this`heartbeatFailed, this`heartbeatOutcome, this`writes, this`beatPhase, this`pendingTimers,
               this`heartbeatTimer, this`timersMade, this`consecutiveFailures, this`leaseDeadline
      ensures HeartView() == BeatAnswered(old(HeartView()), cancel, newDeadline)
    {
      if beatsStopped { EndBeat(); return; }
      consecutiveFailures := 0;
      if newDeadline.Some? { leaseDeadline := newDeadline.value; }
      if cancel {
        heartbeatFailed, heartbeatOutcome, beatPhase := true, Some(Cancelled), Aborting;
        writes := writes + 1;
      } else {
        EndBeat();
      }
    }

    method BeatRejects(now: int)
      modifies this`heartbeatFailed, this`heartbeatOutcome, this`writes, this`beatPhase, this`pendingTimers,
               this`heartbeatTimer, this`timersMade, this`consecutiveFailures
      ensures HeartView() == BeatFails(times, old(HeartView()), now)
    {
      if beatsStopped { EndBeat(); return; }
      consecutiveFailures := consecutiveFailures + 1;
      if consecutiveFailures >= MAX_HEARTBEAT_FAILURES || (now + times.grace) as real >= leaseDeadline { MarkLost(); }
      EndBeat();
    }

    method BeginTerminalization()
      modifies this`beatsStopped, this`pendingTimers, this`heartbeatTimer
      ensures HeartView() == Gateway.BeginTerminalization(old(HeartView()))
    {
      beatsStopped := true;
      if heartbeatTimer.Some? {
        pendingTimers, heartbeatTimer := pendingTimers - {heartbeatTimer.value}, None;
      }
    }

    /** The heartbeat labels of the machine. */
    method OnHeartbeat(l: Label)
      requires Enabled(View(), l) && (l.Timer? || l.BeatAnswer? || l.BeatError? || l.BeatAborted?)
      modifies this
      ensures View() == Step(times, old(View()), l)
    {
      match l {
        case Timer(timer, now) => StartBeat(timer, now);
        case BeatAnswer(cancel, newDeadline) => BeatResolves(cancel, newDeadline);
        case BeatError(now) => BeatRejects(now);
        case BeatAborted => EndBeat();
      }
    }

    // -------------------------------------------------------------- the worker and the requests

    /** Up to the await of the control plane. */
    method Terminalize(kind: Kind, inCatch: bool)
      modifies this
      ensures View() == Send(old(View()), kind, inCatch)
    {
      requests := requests + [Request(kind, heartbeatOutcome, None)];
      BeginTerminalization();
      pc := Requesting(kind, inCatch);
    }

    method OnError(error: ErrorClass)
      modifies this`pc
      ensures View() == Catch(old(View()), error)
    {
      if stopped || bufferFailed { pc := Leaving; }
      else if heartbeatOutcome == Some(Cancelled) { pc := CancelDrain(true); }
      else if heartbeatOutcome == Some(Lost) || error == Infrastructure { pc := Leaving; }
      else { pc := FailDrain; }
    }

    method OnWorkerReady(hasDone: bool)
      modifies this`pc
      ensures View() == WorkerReady(old(View()), hasDone)
    {
      if stopped { pc := Leaving; return; }
      if heartbeatOutcome == Some(Lost) { pc := Leaving; return; }
      if heartbeatOutcome == Some(Cancelled) { pc := AbortForCancel; return; }
      if hasDone { pc := AwaitingDone; return; }
      OnWorkerDone();
    }

    method OnWorkerDone()
      modifies this`pc
      ensures View() == WorkerDone(old(View()))
    {
      if stopped { pc := Leaving; } else { pc := FinalDrain; }
    }

    method OnDrained(drained: bool)
      requires pc.FinalDrain? || pc.CancelDrain? || pc.FailDrain?
      modifies this
      ensures View() == DrainDone(old(View()), drained)
    {
      if !drained { pc := Leaving; return; }
      match pc {
        case CancelDrain(inCatch) => Terminalize(Cancels, inCatch);
        case FailDrain => Terminalize(Fails, true);
        case FinalDrain =>
          if heartbeatOutcome == Some(Lost) { pc := Leaving; return; }
          if heartbeatOutcome == Some(Cancelled) { pc := CancelDrain(false); return; }
          if bufferFailed { pc := Leaving; return; }
          Terminalize(Completes, false);
      }
    }

    method OnReply(reply: Reply)
      requires pc.Requesting? && requests != []
      modifies this`pc, this`requests
      ensures View() == Replied(old(View()), reply)
    {
      ghost var last := |requests| - 1;
      requests := requests[last := requests[last].(reply := Some(reply))];
      if reply == Accepted || pc.inCatch || (pc.kind == Completes && reply == Rejected(Infrastructure)) {
        pc := Leaving;
      } else {
        OnError(reply.error);
      }
    }

    /** The finally block. */
    method Finally()
      requires pc == Leaving
      modifies this`pc, this`beatsStopped, this`pendingTimers, this`heartbeatTimer
      ensures View() == Step(times, old(View()), Finish)
    {
      BeginTerminalization();
      pc := Over;
    }

    /** Whatever the event loop calls next keeps the job valid. An outcome once written stays, and behind
        the fence none is written and no heartbeat starts; requests are only added, a `completed` only
        while there is no outcome. Before the fence, an answered heartbeat clears the failures and renews the
        deadline, a failing one adds a failure; the lease is lost exactly when a timer or a failing heartbeat
        comes within the grace of the deadline, or a second heartbeat in a row fails. */
    method Turn(l: Label)
      requires Valid() && Enabled(View(), l)
      modifies this
      ensures Valid() && View() == Step(times, old(View()), l)
      ensures old(heartbeatOutcome).Some? || old(beatsStopped) ==> heartbeatOutcome == old(heartbeatOutcome)
      ensures old(beatsStopped) ==> beatsStopped && beats == old(beats)
      ensures |old(requests)| <= |requests| <= 2
      ensures forall i :: 0 <= i < |requests| && requests[i].kind == Completes ==> requests[i].outcome == None
      ensures LR.Renews(times, old(HeartView()), HeartView(), l)
    {
      GI.InvStep(times, View(), l);
      LR.RenewsStep(times, View(), l);
      GR.LaterStep(times, View(), l);
      match l {
        case Ready(hasDone) => OnWorkerReady(hasDone);
        case Throws(error) => OnError(error);
        case AbortDone => pc := CancelDrain(false);
        case Done => OnWorkerDone();
        case Drain(drained) => OnDrained(drained);
        case Answer(reply) => OnReply(reply);
        case Finish => Finally();
        case BufferFailure => bufferFailed := true;
        case GatewayStop => stopped := true;
        case _ => OnHeartbeat(l);
      }
    }
  }
}
