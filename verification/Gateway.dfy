/** One claimed job in `dispatchNext`, as a state machine over its awaits: the chain of heartbeats
    on one side, the worker, the drains and the terminal requests on the other. */
module Gateway {
  import opened Wrappers
  import opened Lease

  // ---------------------------------------------------------------- heartbeats

  datatype Outcome = Cancelled | Lost

  /** A heartbeat request: when it started, the deadline it started under, and when it is cut off. */
  datatype Beat = Beat(start: int, deadline: real, cutoff: int)

  /** No heartbeat, one awaiting its answer, or one awaiting the abort after a cancellation. */
  datatype BeatPhase = Quiet | InFlight | Aborting

  datatype Times = Times(interval: int, controlTimeout: int, grace: int)

  datatype Heart = Heart(
    failed: bool, outcome: Option<Outcome>, beatsStopped: bool,
    deadline: real, failures: nat, beat: BeatPhase,
    pending: set<nat>, latest: Option<nat>, timers: nat,
    // history
    writes: nat, beats: seq<Beat>)

  function Claimed(deadline: real): Heart { Heart(false, None, false, deadline, 0, Quiet, {}, None, 0, 0, []) }

  function MarkLost(h: Heart): Heart {
    if h.failed then h else h.(failed := true, outcome := Some(Lost), writes := h.writes + 1)
  }

  /** A timer is a number; `latest` is the one that the job can still clear. */
  function ScheduleNextBeat(h: Heart): Heart {
    if h.failed || h.beatsStopped then h
    else h.(pending := h.pending + {h.timers}, latest := Some(h.timers), timers := h.timers + 1)
  }

  function BeginTerminalization(h: Heart): Heart {
    h.(beatsStopped := true, latest := None, pending := if h.latest.Some? then h.pending - {h.latest.value} else h.pending)
  }

  /** The end of a heartbeat. */
  function EndBeat(h: Heart): Heart { ScheduleNextBeat(h.(beat := Quiet)) }

  /** The start of a heartbeat, up to its request. */
  function StartBeat(times: Times, h: Heart, now: int): Heart {
    if h.failed || h.beat != Quiet then h
    else
      var remaining := h.deadline - now as real;
      if remaining <= times.grace as real then EndBeat(MarkLost(h))
      else h.(beat := InFlight,
              beats := h.beats + [Beat(now, h.deadline, now + BeatTimeout(times.controlTimeout, remaining, times.grace))])
  }

  function TimerFires(times: Times, h: Heart, timer: nat, now: int): Heart {
    StartBeat(times, h.(pending := h.pending - {timer}), now)
  }

  function BeatAnswered(h: Heart, cancel: bool, newDeadline: Option<real>): Heart {
    if h.beatsStopped then EndBeat(h)
    else
      var g := h.(failures := 0, deadline := if newDeadline.Some? then newDeadline.value else h.deadline);
      if cancel then g.(failed := true, outcome := Some(Cancelled), writes := h.writes + 1, beat := Aborting)
      else EndBeat(g)
  }

  /** A timeout, a rejection, or an abort that throws. */
  function BeatFails(times: Times, h: Heart, now: int): Heart {
    if h.beatsStopped then EndBeat(h)
    else
      var g := h.(failures := h.failures + 1);
      EndBeat(if g.failures >= MAX_HEARTBEAT_FAILURES || (now + times.grace) as real >= g.deadline then MarkLost(g) else g)
  }

  // ---------------------------------------------------------------- the job

  datatype Kind = Completes | Fails | Cancels
  datatype ErrorClass = Infrastructure | DecisionOrProvider | TerminalBusiness | OtherError
  datatype Reply = Accepted | Rejected(error: ErrorClass)

  /** A terminal request, the heartbeat outcome when it was sent, and its reply. */
  datatype Request = Request(kind: Kind, outcome: Option<Outcome>, reply: Option<Reply>)

  datatype Pc =
    | Starting                                  // awaiting the worker factory
    | AwaitingDone                              // racing the worker against the heartbeat failure
    | AbortForCancel                            // awaiting the abort of a cancelled worker
    | FinalDrain                                // awaiting the drain that precedes `completed`
    | CancelDrain(inCatch: bool)                // awaiting the drain that precedes `cancelled`
    | FailDrain                                 // awaiting the drain that precedes `failed`
    | Requesting(kind: Kind, inCatch: bool)     // awaiting the answer of the control plane
    | Leaving                                   // only awaits that lead to the finally block
    | Over

  datatype Job = Job(
    pc: Pc, stopped: bool, bufferFailed: bool, heart: Heart,
    requests: seq<Request>)      // history: the requests sent and their answers

  function Start(deadline: real): Job { Job(Starting, false, false, ScheduleNextBeat(Claimed(deadline)), []) }

  /** `terminalize`, up to the await of the control plane. */
  function Send(j: Job, kind: Kind, inCatch: bool): Job {
    j.(pc := Requesting(kind, inCatch), heart := BeginTerminalization(j.heart),
       requests := j.requests + [Request(kind, j.heart.outcome, None)])
  }

  /** The outer catch block, up to its first await. */
  function Catch(j: Job, error: ErrorClass): Job {
    if j.stopped || j.bufferFailed then j.(pc := Leaving)
    else if j.heart.outcome == Some(Cancelled) then j.(pc := CancelDrain(true))
    else if j.heart.outcome == Some(Lost) || error == Infrastructure then j.(pc := Leaving)
    else j.(pc := FailDrain)
  }

  function WorkerReady(j: Job, hasDone: bool): Job {
    if j.stopped || j.heart.outcome == Some(Lost) then j.(pc := Leaving)
    else if j.heart.outcome == Some(Cancelled) then j.(pc := AbortForCancel)
    else if hasDone then j.(pc := AwaitingDone)
    else j.(pc := FinalDrain)
  }

  function WorkerDone(j: Job): Job {
    if j.stopped then j.(pc := Leaving) else j.(pc := FinalDrain)
  }

  function DrainDone(j: Job, drained: bool): Job
    requires j.pc.FinalDrain? || j.pc.CancelDrain? || j.pc.FailDrain?
  {
    if !drained then j.(pc := Leaving)
    else
      match j.pc
      case FinalDrain =>
        if j.heart.outcome == Some(Lost) then j.(pc := Leaving)
        else if j.heart.outcome == Some(Cancelled) then j.(pc := CancelDrain(false))
        else if j.bufferFailed then j.(pc := Leaving)
        else Send(j, Completes, false)
      case CancelDrain(inCatch) => Send(j, Cancels, inCatch)
      case FailDrain => Send(j, Fails, true)
  }

  function Replied(j: Job, reply: Reply): Job
    requires j.pc.Requesting? && j.requests != []
  {
    var last := |j.requests| - 1;
    var k := j.(requests := j.requests[last := j.requests[last].(reply := Some(reply))]);
    if reply == Accepted || j.pc.inCatch || (j.pc.kind == Completes && reply == Rejected(Infrastructure))
    then k.(pc := Leaving)
    else Catch(k, reply.error)
  }

  // ---------------------------------------------------------------- steps and runs

  datatype Label =
    | Ready(hasDone: bool) | Throws(error: ErrorClass) | AbortDone | Done | Drain(drained: bool) | Answer(reply: Reply) | Finish
    | Timer(timer: nat, now: int) | BeatAnswer(cancel: bool, newDeadline: Option<real>) | BeatError(now: int) | BeatAborted
    | BufferFailure | GatewayStop

  predicate Enabled(j: Job, l: Label) {
    match l
    case Ready(_) => j.pc == Starting
    case Throws(_) => j.pc == Starting || j.pc == AwaitingDone || j.pc == AbortForCancel
    case AbortDone => j.pc == AbortForCancel
    case Done => j.pc == AwaitingDone
    case Drain(_) => j.pc.FinalDrain? || j.pc.CancelDrain? || j.pc.FailDrain?
    case Answer(_) => j.pc.Requesting? && j.requests != []
    case Finish => j.pc == Leaving
    case Timer(timer, _) => timer in j.heart.pending
    case BeatAnswer(_, _) => j.heart.beat == InFlight
    case BeatError(_) => j.heart.beat != Quiet
    case BeatAborted => j.heart.beat == Aborting
    case _ => true
  }

  /** What a label does to the heartbeat chain. */
  function HeartStep(times: Times, h: Heart, l: Label): Heart
    requires l.Timer? || l.BeatAnswer? || l.BeatError? || l.BeatAborted?
  {
    match l
    case Timer(timer, now) => TimerFires(times, h, timer, now)
    case BeatAnswer(cancel, newDeadline) => BeatAnswered(h, cancel, newDeadline)
    case BeatError(now) => BeatFails(times, h, now)
    case BeatAborted => EndBeat(h)
  }

  function Step(times: Times, j: Job, l: Label): Job
    requires Enabled(j, l)
  {
    match l
    case Ready(hasDone) => WorkerReady(j, hasDone)
    case Throws(error) => Catch(j, error)
    case AbortDone => j.(pc := CancelDrain(false))
    case Done => WorkerDone(j)
    case Drain(drained) => DrainDone(j, drained)
    case Answer(reply) => Replied(j, reply)
    case Finish => j.(pc := Over, heart := BeginTerminalization(j.heart))
    case BufferFailure => j.(bufferFailed := true)
    case GatewayStop => j.(stopped := true)
    case _ => j.(heart := HeartStep(times, j.heart, l))
  }

  /** A run; a label that is not enabled changes nothing. */
  function Exec(times: Times, j: Job, ls: seq<Label>): Job {
    if ls == [] then j
    else
      var k := Exec(times, j, ls[..|ls| - 1]);
      if Enabled(k, ls[|ls| - 1]) then Step(times, k, ls[|ls| - 1]) else k
  }

  function Run(times: Times, deadline: real, ls: seq<Label>): Job { Exec(times, Start(deadline), ls) }
}
