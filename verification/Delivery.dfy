/** The delivery pump as a state machine. One step is what `EventDeliveryPump` does without
    awaiting: an enqueue, one turn of `drain`, the continuation after a reply or after a retry
    delay, the callback that forgets a finished runner, and `stop`. */
module Delivery {
  import opened Wrappers
  import opened Protocol

  datatype FailureClass = Timeout | Network | Http5xx | BusinessRejection | ProtocolFailure

  datatype Failure = Unreachable(cause: FailureClass) | BufferOverflow

  datatype Config = Config(attempt: string, maxBuffered: nat, maxRetries: nat, batched: bool)

  /** What a send comes back with. */
  datatype Answer =
    | Receipt(receipt: BatchReceipt)
    | Garbled                                // resolved with something that is no receipt
    | Transient(cause: FailureClass)
    | Permanent(cause: FailureClass)

  /** What the runner is doing: no runner, awaiting a reply, awaiting a retry delay, or returned
      but not yet forgotten. */
  datatype Phase = Idle | Sending | Waiting | Finished

  datatype State = State(
    queue: seq<Event>, active: Option<seq<Event>>, phase: Phase, retries: nat,
    expected: Option<nat>, lastAcked: Option<nat>, fatal: Option<Failure>, stopped: bool,
    // history
    accepted: seq<Event>, acked: seq<Event>, sends: seq<seq<Event>>)

  const Init := State([], None, Idle, 0, None, None, None, false, [], [], [])

  function Active(s: State): seq<Event> { if s.active.Some? then s.active.value else [] }

  function Fail(s: State, f: Failure): State { if s.fatal.Some? then s else s.(fatal := Some(f)) }

  // ---------------------------------------------------------------- enqueue

  datatype Refusal = Closed | Malformed | WrongAttempt | WrongSequence | Overflow

  function Refuses(c: Config, s: State, e: Event): Option<Refusal> {
    if s.stopped || s.fatal.Some? then Some(Closed)
    else if !EventAccepted(e) then Some(Malformed)
    else if e.id.attempt != c.attempt then Some(WrongAttempt)
    else if s.expected.Some? && e.sequence != s.expected.value then Some(WrongSequence)
    else if |s.queue| >= c.maxBuffered then Some(Overflow)
    else None
  }

  /** The next expected number moves on before the buffer limit is looked at. */
  function Enqueue(c: Config, s: State, e: Event): State {
    match Refuses(c, s, e)
    case Some(Closed) => s
    case Some(Overflow) => Fail(s.(expected := Some(e.sequence + 1)), BufferOverflow)
    case Some(_) => Fail(s, Unreachable(ProtocolFailure))
    case None =>
      EnsureRunner(c, s.(expected := Some(e.sequence + 1), queue := s.queue + [e], accepted := s.accepted + [e]))
  }

  // ---------------------------------------------------------------- the runner

  function Min(a: nat, b: nat): nat { if a < b then a else b }

  /** Greedy growth of a batch that holds `count` events already. */
  function Grow(queue: seq<Event>, count: nat): (n: nat)
    requires 1 <= count <= |queue|
    ensures count <= n <= |queue| && (count <= BATCH_MAX_EVENTS ==> n <= BATCH_MAX_EVENTS)
    decreases |queue| - count
  {
    if count < Min(|queue|, BATCH_MAX_EVENTS) && BatchBytes(queue[..count + 1]) <= BATCH_MAX_BYTES
    then Grow(queue, count + 1) else count
  }

  /** How many events the next batch takes. */
  function TakeCount(c: Config, queue: seq<Event>): (n: nat)
    requires queue != []
    ensures 1 <= n <= |queue| && n <= BATCH_MAX_EVENTS
  {
    if c.batched then Grow(queue, 1) else 1
  }

  /** Hand the active batch to the transport, unless its own parser rejects it. */
  function Send(c: Config, s: State): State
    requires s.active.Some?
  {
    if c.batched && !BatchAccepted(s.active.value)
    then Fail(s.(phase := Finished), Unreachable(ProtocolFailure))
    else s.(phase := Sending, sends := s.sends + [s.active.value])
  }

  /** The top of the runner's loop. */
  function RunTop(c: Config, s: State): State {
    if s.stopped || s.fatal.Some? then s.(phase := Finished)
    else if s.active.Some? then Send(c, s)
    else if s.queue == [] then s.(phase := Finished)
    else
      var n := TakeCount(c, s.queue);
      if c.batched && BatchBytes(s.queue[..n]) > BATCH_MAX_BYTES
      then Fail(s.(phase := Finished), Unreachable(ProtocolFailure))
      else Send(c, s.(active := Some(s.queue[..n]), queue := s.queue[n..], retries := 0))
  }

  function EnsureRunner(c: Config, s: State): State {
    if s.phase != Idle || s.stopped || s.fatal.Some? || s.queue == [] then s
    else RunTop(c, s.(retries := 0))
  }

  /** Whether an answer acknowledges a batch. Without batches, any resolved send does. */
  predicate Acknowledges(c: Config, batch: seq<Event>, a: Answer)
    requires batch != []
  {
    if c.batched then a.Receipt? && ReceiptWellFormed(a.receipt) && ReceiptMatches(batch, a.receipt)
    else a.Receipt? || a.Garbled?
  }

  function ClassOf(a: Answer): FailureClass {
    if a.Transient? || a.Permanent? then a.cause else ProtocolFailure
  }

  function LastOf(es: seq<Event>): Option<nat> {
    if es == [] then None else Some(es[|es| - 1].sequence)
  }

  /** The state after an acknowledged send, before the loop goes on. */
  function Settled(s: State): State
    requires Active(s) != []
  {
    s.(lastAcked := LastOf(s.active.value), acked := s.acked + s.active.value, active := None, retries := 0)
  }

  /** The runner's catch block: give up, or wait before the next try. */
  function Caught(c: Config, s: State, a: Answer, canRetry: bool): State {
    if !a.Transient? || s.retries >= c.maxRetries || !canRetry || s.stopped
    then Fail(s.(phase := Finished), Unreachable(ClassOf(a)))
    else s.(retries := s.retries + 1, phase := Waiting)
  }

  /** What follows the await of a send. */
  function Reply(c: Config, s: State, a: Answer, canRetry: bool): State
    requires s.phase == Sending && Active(s) != []
  {
    if Acknowledges(c, s.active.value, a) then RunTop(c, Settled(s)) else Caught(c, s, a, canRetry)
  }

  // ---------------------------------------------------------------- steps and runs

  datatype Label = Offer(e: Event) | DrainTurn | Answered(a: Answer, canRetry: bool) | Woken | Forgotten | Stop

  predicate Enabled(s: State, l: Label) {
    match l
    case Answered(_, _) => s.phase == Sending && Active(s) != []
    case Woken => s.phase == Waiting
    case Forgotten => s.phase == Finished
    case _ => true
  }

  function Step(c: Config, s: State, l: Label): State
    requires Enabled(s, l)
  {
    match l
    case Offer(e) => Enqueue(c, s, e)
    case DrainTurn => EnsureRunner(c, s)
    case Answered(a, canRetry) => Reply(c, s, a, canRetry)
    case Woken => RunTop(c, s)
    case Forgotten => s.(phase := Idle)
    case Stop => s.(stopped := true)
  }

  /** What `drain` returns once it leaves its loop. */
  predicate Drained(s: State) { s.fatal.None? && s.queue == [] && s.active.None? }

  /** A run from `s`; a label that is not enabled changes nothing. */
  function Exec(c: Config, s: State, ls: seq<Label>): State {
    if ls == [] then s
    else
      var t := Exec(c, s, ls[..|ls| - 1]);
      if Enabled(t, ls[|ls| - 1]) then Step(c, t, ls[|ls| - 1]) else t
  }

  function Run(c: Config, ls: seq<Label>): State { Exec(c, Init, ls) }

  /** All events that were handed to `enqueue`. */
  function Offered(ls: seq<Label>): seq<Event> {
    if ls == [] then []
    else Offered(ls[..|ls| - 1]) + (if ls[|ls| - 1].Offer? then [ls[|ls| - 1].e] else [])
  }
}
