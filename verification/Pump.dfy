/** `EventDeliveryPump` as the gateway runs it: an object whose methods update its fields. A valid pump
    keeps its books: what it accepted is what was acknowledged, the active batch and the queue, in
    order. The awaits of the runner's loop cut it into the methods `EnsureRunner`, `AfterSend` and
    `AfterDelay`; `Turn` is whatever happens to the pump between two awaits. */
module Pump {
  import opened Wrappers
  import opened Protocol
  import opened Delivery
  import DR = DeliveryRuns
  import RT = DeliveryTries

  class EventDeliveryPump {
    const attemptId: string
    const maxBufferedEvents: nat
    const maxTransientRetries: nat
    const batches: bool

    var queue: seq<Event>
    var activeBatch: Option<seq<Event>>
    var runner: Phase
    var transientRetries: nat
    var expectedSequence: Option<nat>
    var lastAckedSequence: Option<nat>
    var fatalFailure: Option<Failure>
    var stopped: bool

    ghost var accepted: seq<Event>
    ghost var acked: seq<Event>
    ghost var sends: seq<seq<Event>>

    function Cfg(): Config { Config(attemptId, maxBufferedEvents, maxTransientRetries, batches) }

    ghost function View(): State
      reads this
    {
      State(queue, activeBatch, runner, transientRetries, expectedSequence, lastAckedSequence, fatalFailure, stopped,
            accepted, acked, sends)
    }

    ghost predicate Valid()
      reads this
    {
      DR.Inv(Cfg(), View()) && RT.Tried(View())
    }

    /** The retry limit is clamped to 0..10; the buffer limit must lie in its range. */
    constructor (attemptId: string, batches: bool, maxBufferedEvents: nat, maxTransientRetries: int)
      requires 1 <= maxBufferedEvents <= 100_000
      ensures Valid() && View() == Init
      ensures Cfg() == Config(attemptId, maxBufferedEvents, this.maxTransientRetries, batches)
      ensures this.maxTransientRetries <= 10
      ensures 0 <= maxTransientRetries <= 10 ==> this.maxTransientRetries == maxTransientRetries
    {
      this.attemptId, this.batches, this.maxBufferedEvents := attemptId, batches, maxBufferedEvents;
      this.maxTransientRetries := if maxTransientRetries < 0 then 0 else if maxTransientRetries > 10 then 10 else maxTransientRetries;
      queue, activeBatch, runner, transientRetries := [], None, Idle, 0;
      expectedSequence, lastAckedSequence, fatalFailure, stopped := None, None, None, false;
      accepted, acked, sends := [], [], [];
    }

    method Fail(f: Failure)
      modifies this`fatalFailure
      ensures View() == Delivery.Fail(old(View()), f)
    {
      if fatalFailure.None? { fatalFailure := Some(f); }
    }

    /** The checks of `enqueue`; the next expected number moves on before the buffer limit is looked at. */
    method Admit(e: Event) returns (ok: bool)
      modifies this`expectedSequence, this`fatalFailure
      ensures ok == Refuses(Cfg(), old(View()), e).None?
      ensures View() == if ok then old(View()).(expected := Some(e.sequence + 1)) else Delivery.Enqueue(Cfg(), old(View()), e)
    {
      if stopped || fatalFailure.Some? { return false; }
      if !EventAccepted(e) || e.id.attempt != attemptId || (expectedSequence.Some? && e.sequence != expectedSequence.value) {
        Fail(Unreachable(ProtocolFailure));
        return false;
      }
      expectedSequence := Some(e.sequence + 1);
      if |queue| >= maxBufferedEvents {
        Fail(BufferOverflow);
        return false;
      }
      ok := true;
    }

    method Enqueue(e: Event) returns (ok: bool)
      requires Valid()
      modifies this
      ensures Valid() && View() == Delivery.Enqueue(Cfg(), old(View()), e)
      ensures ok == Refuses(Cfg(), old(View()), e).None?
      ensures accepted == (if ok then old(accepted) + [e] else old(accepted)) && acked == old(acked)
    {
      ghost var was := View();
      RT.EnqueueCases(Cfg(), was, e);
      ok := Admit(e);
      if ok {
        assert View().(queue := queue + [e], accepted := accepted + [e]) == DR.Accept(was, e);
        Push(e);
        assert View() == Delivery.Enqueue(Cfg(), was, e);
      } else {
        assert View() == Delivery.Enqueue(Cfg(), was, e);
      }
    }

    /** An accepted event joins the queue, and a runner is started if there is none. */
    method Push(e: Event)
      requires DR.Inv(Cfg(), View().(queue := queue + [e], accepted := accepted + [e])) && RT.Tried(View())
      modifies this
      ensures Valid() && View() == Delivery.EnsureRunner(Cfg(), old(View().(queue := queue + [e], accepted := accepted + [e])))
      ensures accepted == old(accepted) + [e] && acked == old(acked)
    {
      queue := queue + [e];
      accepted := accepted + [e];
      EnsureRunner();
    }

    /** A batch off the front of the queue, or None and nothing taken when even that is too long. */
    method TakeBatch() returns (batch: Option<seq<Event>>)
      requires queue != []
      modifies this`queue
      ensures var was := old(queue);
              var n := TakeCount(Cfg(), was);
              if batches && BatchBytes(was[..n]) > BATCH_MAX_BYTES then batch == None && queue == was
              else batch == Some(was[..n]) && queue == was[n..]
    {
      if !batches {
        assert queue[..1] == [queue[0]];
        batch, queue := Some([queue[0]]), queue[1..];
        return;
      }
      var maximum := Min(|queue|, BATCH_MAX_EVENTS);
      var count := 1;
      while count < maximum && BatchBytes(queue[..count + 1]) <= BATCH_MAX_BYTES
        invariant 1 <= count <= maximum
        invariant Grow(queue, count) == Grow(queue, 1)
      {
        count := count + 1;
      }
      if BatchBytes(queue[..count]) > BATCH_MAX_BYTES { return None; }
      batch, queue := Some(queue[..count]), queue[count..];
    }

    /** Up to the await of the transport. */
    method Send(batch: seq<Event>)
      requires activeBatch == Some(batch)
      modifies this`runner, this`sends, this`fatalFailure
      ensures View() == Delivery.Send(Cfg(), old(View()))
    {
      if batches && !BatchAccepted(batch) {
        runner := Finished;
        Fail(Unreachable(ProtocolFailure));
      } else {
        sends := sends + [batch];
        runner := Sending;
      }
    }

    /** The top of the runner's loop, up to its next await or its return. */
    method RunTop()
      modifies this
      ensures View() == Delivery.RunTop(Cfg(), old(View()))
    {
      if stopped || fatalFailure.Some? {
        runner := Finished;
      } else if activeBatch.Some? {
        Send(activeBatch.value);
      } else if queue == [] {
        runner := Finished;
      } else {
        var taken := TakeBatch();
        if taken.None? {
          runner := Finished;
          Fail(Unreachable(ProtocolFailure));
        } else {
          activeBatch, transientRetries := taken, 0;
          Send(taken.value);
        }
      }
    }

    /** Afterwards a runner is there, unless the pump is closed or has nothing to send. */
    method EnsureRunner()
      requires Valid()
      modifies this
      ensures Valid() && View() == Delivery.EnsureRunner(Cfg(), old(View()))
      ensures runner != Idle || stopped || fatalFailure.Some? || queue == []
      ensures accepted == old(accepted) && acked == old(acked)
    {
      DR.InvStep(Cfg(), View(), DrainTurn);
      RT.IdleTried(Cfg(), View());
      DR.RunTopLater(Cfg(), View().(retries := 0));
      if runner == Idle && !stopped && fatalFailure.None? && queue != [] {
        transientRetries := 0;
        RunTop();
      }
    }

    /** `assertReceipt`: length, then every entry, then the last acknowledged number. */
    static method AssertReceipt(batch: seq<Event>, receipt: BatchReceipt) returns (ok: bool)
      requires batch != []
      ensures ok == ReceiptMatches(batch, receipt)
    {
      if |receipt.receipts| != |batch| { return false; }
      for index := 0 to |batch|
        invariant forall i :: 0 <= i < index ==>
                    receipt.receipts[i].id == batch[i].id && receipt.receipts[i].sequence == batch[i].sequence
      {
        var expected, actual := batch[index], receipt.receipts[index];
        if actual.id != expected.id || actual.sequence != expected.sequence { return false; }
      }
      ok := receipt.lastAcked == batch[|batch| - 1].sequence;
    }

    /** Whether `deliver` returns instead of throwing. */
    method Delivered(batch: seq<Event>, answer: Answer) returns (ok: bool)
      requires batch != []
      ensures ok == Acknowledges(Cfg(), batch, answer)
    {
      if !batches { return answer.Receipt? || answer.Garbled?; }
      if !answer.Receipt? || !ReceiptWellFormed(answer.receipt) { return false; }
      ok := AssertReceipt(batch, answer.receipt);
    }

    method Settle(batch: seq<Event>)
      requires batch != [] && activeBatch == Some(batch)
      modifies this`lastAckedSequence, this`acked, this`activeBatch, this`transientRetries
      ensures View() == Settled(old(View()))
    {
      lastAckedSequence := Some(batch[|batch| - 1].sequence);
      acked := acked + batch;
      activeBatch, transientRetries := None, 0;
    }

    /** The catch block of the runner's loop. */
    method Catch(answer: Answer, canRetry: bool)
      modifies this`runner, this`transientRetries, this`fatalFailure
      ensures View() == Caught(Cfg(), old(View()), answer, canRetry)
    {
      if !answer.Transient? || transientRetries >= maxTransientRetries || !canRetry || stopped {
        runner := Finished;
        Fail(Unreachable(ClassOf(answer)));
      } else {
        transientRetries := transientRetries + 1;
        runner := Waiting;
      }
    }

    /** The continuation of the runner after the await of a send. An answer that does not acknowledge the batch
        makes the pump fail if it is final; otherwise nothing changes but that the retry delay begins. */
    method AfterSend(answer: Answer, canRetry: bool)
      requires Valid() && runner == Sending && activeBatch.Some? && activeBatch.value != []
      modifies this
      ensures Valid() && View() == Reply(Cfg(), old(View()), answer, canRetry)
      ensures accepted == old(accepted)
      ensures acked == old(acked) + (if Acknowledges(Cfg(), old(activeBatch).value, answer) then old(activeBatch).value else [])
      ensures RT.Unacknowledged(Cfg(), old(View()), answer) && old(fatalFailure).None? ==>
                if RT.Final(Cfg(), old(View()), answer, canRetry)
                then runner == Finished && fatalFailure == Some(Unreachable(RT.Named(answer)))
                else runner == Waiting && fatalFailure.None? && activeBatch == old(activeBatch) && sends == old(sends)
    {
      DR.ReplyKeeps(Cfg(), View(), answer, canRetry);
      RT.ReplyTried(Cfg(), View(), answer, canRetry);
      RT.UnacknowledgedReply(Cfg(), View(), answer, canRetry);
      DR.RunTopLater(Cfg(), Settled(View()));
      var batch := activeBatch.value;
      var delivered := Delivered(batch, answer);
      if delivered {
        Settle(batch);
        RunTop();
      } else {
        Catch(answer, canRetry);
      }
    }

    /** The continuation of the runner after the retry delay, or after `stop` cut it short: a pump still open
        sends its batch again. */
    method AfterDelay()
      requires Valid() && runner == Waiting
      modifies this
      ensures Valid() && View() == Step(Cfg(), old(View()), Woken)
      ensures accepted == old(accepted) && acked == old(acked)
      ensures fatalFailure.None? && !stopped ==>
                runner == Sending && activeBatch == old(activeBatch) && sends == old(sends) + [Active(View())]
    {
      RT.NextTry(Cfg(), View());
      DR.RunTopKeeps(Cfg(), View());
      DR.RunTopLater(Cfg(), View());
      RunTop();
    }

    /** The callback that clears `runner` once the runner has returned. */
    method Forget()
      requires Valid() && runner == Finished
      modifies this`runner
      ensures Valid() && View() == Step(Cfg(), old(View()), Forgotten)
    {
      runner := Idle;
    }

    method Stop()
      requires Valid()
      modifies this`stopped
      ensures Valid() && View() == Step(Cfg(), old(View()), Delivery.Stop)
    {
      stopped := true;
    }

    /** What `drain` returns after its loop: whether nothing failed and all that was accepted is acknowledged. */
    method DrainResult() returns (ok: bool)
      requires Valid()
      ensures ok <==> fatalFailure.None? && acked == accepted
    {
      ok := fatalFailure.None? && queue == [] && activeBatch.None?;
      if acked == accepted { assert |Active(View()) + queue| == 0; }
    }

    /** Whatever happens to the pump between two awaits is the step of the machine, and keeps its books. */
    method Turn(l: Label)
      requires Valid() && Enabled(View(), l)
      modifies this
      ensures Valid() && View() == Step(Cfg(), old(View()), l)
      ensures accepted == acked + Active(View()) + queue && old(acked) <= acked
    {
      match l {
        case Offer(e) => var _ := Enqueue(e);
        case DrainTurn => EnsureRunner();
        case Answered(answer, canRetry) => AfterSend(answer, canRetry);
        case Woken => AfterDelay();
        case Forgotten => Forget();
        case Stop => Stop();
      }
    }
  }
}
