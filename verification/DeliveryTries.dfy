/** How often the delivery pump has tried its batch, step by step.

    `Tried` relates the pump's retry counter to the history of sends: the active batch has been sent once
    more than it has been retried while an answer is awaited, and as often during a retry delay. For that,
    a batch that is taken must never have been sent before: every batch sent begins with an event that has
    been acknowledged, or is the active one, and the numbers along the accepted stream increase.

    `Final` says from the sends, the answer and the configuration whether a failing answer ends the pump,
    and `Cause` why a step makes it fail, if it does; the step lemmas show that the pump agrees. The
    theorems about runs are in DeliveryRetries. */
module DeliveryTries {
  import opened Wrappers
  import opened Protocol
  import opened Delivery
  import opened DeliveryRuns

  /** How often a batch has been handed to the transport. */
  function TimesSent(sends: seq<seq<Event>>, batch: seq<Event>): nat {
    if sends == [] then 0
    else TimesSent(sends[..|sends| - 1], batch) + (if sends[|sends| - 1] == batch then 1 else 0)
  }

  /** Every batch sent has begun to be acknowledged or is the active one; and the tries of the active batch
      are counted. */
  predicate Tried(s: State) {
    && (forall i :: 0 <= i < |s.sends| ==> s.sends[i] != [] && (s.sends[i][0] in s.acked || s.sends[i] == Active(s)))
    && (s.phase == Sending ==> TimesSent(s.sends, Active(s)) == s.retries + 1)
    && (s.phase == Waiting ==> TimesSent(s.sends, Active(s)) == s.retries)
    && (s.phase == Sending || s.phase == Waiting ==> s.sends != [] && s.sends[|s.sends| - 1] == Active(s))
  }

  lemma SentOnceMore(sends: seq<seq<Event>>, batch: seq<Event>)
    ensures TimesSent(sends + [batch], batch) == TimesSent(sends, batch) + 1
  {
    assert (sends + [batch])[..|sends|] == sends;
  }

  lemma {:induction false} NeverSent(sends: seq<seq<Event>>, batch: seq<Event>)
    requires batch !in sends
    ensures TimesSent(sends, batch) == 0
  {
    if sends != [] { NeverSent(sends[..|sends| - 1], batch); }
  }

  /** The next event of the queue has not been acknowledged. */
  lemma NextIsNew(c: Config, s: State)
    requires Core(c, s) && s.active.None? && s.queue != []
    ensures s.queue[0] !in s.acked
  {
    if s.queue[0] in s.acked {
      var i :| 0 <= i < |s.acked| && s.acked[i] == s.queue[0];
      assert s.accepted[i] == s.acked[i] && s.accepted[|s.acked|] == s.queue[0];
      Increasing(s.accepted, i, |s.acked|);
    }
  }

  /** Whether the runner goes on to send when it comes to the top of its loop. */
  predicate Open(s: State) { s.fatal.None? && !s.stopped }

  /** The batch that an open runner takes and sends when it has none. */
  lemma FirstSendIs(c: Config, s: State)
    requires Core(c, s) && s.active.None? && s.queue != [] && Open(s)
    ensures var n := TakeCount(c, s.queue);
            RunTop(c, s) == s.(active := Some(s.queue[..n]), queue := s.queue[n..], retries := 0, phase := Sending, sends := s.sends + [s.queue[..n]])
  {
    var n := TakeCount(c, s.queue);
    TakeKeeps(c, s);
    SendKeeps(c, s.(active := Some(s.queue[..n]), queue := s.queue[n..], retries := 0));
  }

  lemma FirstTry(c: Config, s: State)
    requires Core(c, s) && s.active.None? && s.queue != [] && Open(s)
    requires forall i :: 0 <= i < |s.sends| ==> s.sends[i] != [] && s.sends[i][0] in s.acked
    ensures Tried(RunTop(c, s)) && TimesSent(RunTop(c, s).sends, Active(RunTop(c, s))) == 1
  {
    var batch := s.queue[..TakeCount(c, s.queue)];
    FirstSendIs(c, s);
    NextIsNew(c, s);
    assert batch[0] == s.queue[0];
    assert batch !in s.sends;
    NeverSent(s.sends, batch);
    SentOnceMore(s.sends, batch);
    var t := RunTop(c, s);
    assert Active(t) == batch && t.acked == s.acked;
    forall i | 0 <= i < |t.sends| ensures t.sends[i] != [] && (t.sends[i][0] in t.acked || t.sends[i] == Active(t)) {
      if i < |s.sends| { assert t.sends[i] == s.sends[i]; }
    }
  }

  lemma TopTried(c: Config, s: State)
    requires Core(c, s) && s.active.None?
    requires forall i :: 0 <= i < |s.sends| ==> s.sends[i] != [] && s.sends[i][0] in s.acked
    ensures Tried(RunTop(c, s))
  {
    if Open(s) && s.queue != [] { FirstTry(c, s); }
  }

  lemma NextTry(c: Config, s: State)
    requires Inv(c, s) && Tried(s) && s.phase == Waiting
    ensures Tried(RunTop(c, s))
    ensures Open(s) ==> RunTop(c, s).sends == s.sends + [Active(s)] && RunTop(c, s).phase == Sending
  {
    if Open(s) {
      SendKeeps(c, s);
      SentOnceMore(s.sends, Active(s));
    }
  }

  lemma IdleTried(c: Config, s: State)
    requires Inv(c, s) && Tried(s)
    ensures Tried(EnsureRunner(c, s))
  {
    if s.phase == Idle && Open(s) && s.queue != [] { TopTried(c, s.(retries := 0)); }
  }

  lemma ReplyTried(c: Config, s: State, a: Answer, canRetry: bool)
    requires Inv(c, s) && Tried(s) && s.phase == Sending && Active(s) != []
    ensures Tried(Reply(c, s, a, canRetry))
  {
    if Acknowledges(c, s.active.value, a) {
      assert s.acked + s.active.value + [] + s.queue == s.acked + s.active.value + s.queue;
      assert Active(s)[0] in s.acked + Active(s);
      TopTried(c, Settled(s));
    }
  }

  lemma OfferTried(c: Config, s: State, e: Event)
    requires Inv(c, s) && Tried(s)
    ensures Tried(Enqueue(c, s, e))
  {
    if Refuses(c, s, e).None? {
      AcceptKeeps(c, s, e);
      IdleTried(c, Accept(s, e));
    }
  }

  /** An offer that is refused changes no event and no send; one that is accepted joins the queue. */
  lemma EnqueueCases(c: Config, s: State, e: Event)
    requires Inv(c, s) && Tried(s)
    ensures var t := Enqueue(c, s, e);
            && Inv(c, t) && Tried(t)
            && if Refuses(c, s, e).None? then t == EnsureRunner(c, Accept(s, e)) && Inv(c, Accept(s, e))
               else t == s.(expected := t.expected, fatal := t.fatal)
  {
    EnqueueKeeps(c, s, e);
    OfferTried(c, s, e);
    if Refuses(c, s, e).None? { AcceptKeeps(c, s, e); }
  }

  lemma TriedStep(c: Config, s: State, l: Label)
    requires Inv(c, s) && Tried(s) && Enabled(s, l)
    ensures Tried(Step(c, s, l))
  {
    match l
    case Offer(e) => OfferTried(c, s, e);
    case DrainTurn => IdleTried(c, s);
    case Answered(a, canRetry) => ReplyTried(c, s, a, canRetry);
    case Woken => NextTry(c, s);
    case Forgotten =>
    case Stop =>
  }

  lemma {:induction false} TriedRun(c: Config, ls: seq<Label>)
    ensures Tried(Run(c, ls))
  {
    if ls != [] {
      TriedRun(c, ls[..|ls| - 1]);
      InvRun(c, ls[..|ls| - 1]);
      var s := Run(c, ls[..|ls| - 1]);
      if Enabled(s, ls[|ls| - 1]) { TriedStep(c, s, ls[|ls| - 1]); }
    }
  }

  // ---------------------------------------------------------------- failing and trying again

  /** The answer acknowledges nothing: with batches, it is not the echo of the batch; else, the send threw. */
  predicate Unacknowledged(c: Config, s: State, a: Answer)
    requires Active(s) != []
  {
    if c.batched then a != Receipt(Echo(Active(s))) else a.Transient? || a.Permanent?
  }

  /** The class that the transport names, or a breach of the protocol. */
  function Named(a: Answer): FailureClass {
    match a
    case Transient(cause) => cause
    case Permanent(cause) => cause
    case _ => ProtocolFailure
  }

  /** A failing answer is final if it is not transient, if the batch has been sent once and `maxRetries` times
      again, if the lease does not allow a retry, or if the pump has been stopped. */
  predicate Final(c: Config, s: State, a: Answer, canRetry: bool) {
    !a.Transient? || TimesSent(s.sends, Active(s)) >= c.maxRetries + 1 || !canRetry || s.stopped
  }

  /** Why a step of a pump that has not failed makes it fail, if it does. */
  function Cause(c: Config, s: State, l: Label): Option<Failure>
    requires l.Answered? ==> Active(s) != []
  {
    match l
    case Offer(e) =>
      if s.stopped then None
      else if !EventAccepted(e) || e.id.attempt != c.attempt then Some(Unreachable(ProtocolFailure))
      else if s.accepted != [] && e.sequence != s.accepted[|s.accepted| - 1].sequence + 1 then Some(Unreachable(ProtocolFailure))
      else if |s.queue| >= c.maxBuffered then Some(BufferOverflow)
      else None
    case Answered(a, canRetry) =>
      if Unacknowledged(c, s, a) && Final(c, s, a, canRetry) then Some(Unreachable(Named(a))) else None
    case _ => None
  }

  lemma RefusalCause(c: Config, s: State, e: Event)
    requires s.expected == After(s.accepted) && s.fatal == None
    ensures Cause(c, s, Offer(e)) ==
            match Refuses(c, s, e)
            case None => None
            case Some(Closed) => None
            case Some(Overflow) => Some(BufferOverflow)
            case Some(_) => Some(Unreachable(ProtocolFailure))
  {
  }

  lemma OfferFails(c: Config, s: State, e: Event)
    requires Inv(c, s) && s.fatal == None
    ensures Enqueue(c, s, e).fatal == Cause(c, s, Offer(e))
  {
    RefusalCause(c, s, e);
    if Refuses(c, s, e).None? {
      AcceptKeeps(c, s, e);
      if s.phase == Idle { RunTopKeeps(c, Accept(s, e).(retries := 0)); }
    }
  }

  lemma AcknowledgesMeaning(c: Config, s: State, a: Answer)
    requires Inv(c, s) && s.phase == Sending && Active(s) != []
    ensures Acknowledges(c, s.active.value, a) <==> !Unacknowledged(c, s, a)
  {
    if c.batched && a.Receipt? { AcknowledgedExactlyByEcho(s.active.value, a.receipt); }
    if c.batched { AcknowledgedExactlyByEcho(s.active.value, Echo(s.active.value)); }
  }

  lemma AnswerFails(c: Config, s: State, a: Answer, canRetry: bool)
    requires Inv(c, s) && Tried(s) && s.fatal == None && s.phase == Sending && Active(s) != []
    ensures Reply(c, s, a, canRetry).fatal == Cause(c, s, Answered(a, canRetry))
  {
    AcknowledgesMeaning(c, s, a);
    if Acknowledges(c, s.active.value, a) {
      SettledCore(c, s);
      RunTopKeeps(c, Settled(s));
    } else {
      CaughtFails(c, s, a, canRetry);
    }
  }

  lemma CaughtFails(c: Config, s: State, a: Answer, canRetry: bool)
    requires Tried(s) && s.fatal == None && s.phase == Sending
    ensures Caught(c, s, a, canRetry).fatal == if Final(c, s, a, canRetry) then Some(Unreachable(Named(a))) else None
  {
  }

  /** What an answer that acknowledges nothing leads to. */
  lemma UnacknowledgedReply(c: Config, s: State, a: Answer, canRetry: bool)
    requires Inv(c, s) && Tried(s) && s.phase == Sending && Active(s) != []
    ensures Unacknowledged(c, s, a) && s.fatal == None ==>
              var t := Reply(c, s, a, canRetry);
              if Final(c, s, a, canRetry)
              then t.phase == Finished && t.fatal == Some(Unreachable(Named(a)))
              else t == s.(phase := Waiting, retries := t.retries)
  {
    AcknowledgesMeaning(c, s, a);
    CaughtStays(c, s, a, canRetry);
  }

  lemma CaughtStays(c: Config, s: State, a: Answer, canRetry: bool)
    requires Tried(s) && s.phase == Sending
    ensures var t := Caught(c, s, a, canRetry);
            if Final(c, s, a, canRetry) then t.phase == Finished && (s.fatal == None ==> t.fatal == Some(Unreachable(Named(a))))
            else t == s.(phase := Waiting, retries := t.retries)
  {
  }

  /** The next batch is off the queue and has been sent once. */
  predicate SentNext(s: State, t: State) {
    && t.acked == s.acked && t.phase == Sending && Active(t) != []
    && Active(t) + t.queue == s.queue && t.sends == s.sends + [Active(t)] && TimesSent(t.sends, Active(t)) == 1
  }

  lemma SendsNext(c: Config, s: State)
    requires Core(c, s) && s.active.None? && s.queue != [] && Open(s)
    requires forall i :: 0 <= i < |s.sends| ==> s.sends[i] != [] && s.sends[i][0] in s.acked
    ensures SentNext(s, RunTop(c, s))
  {
    var n := TakeCount(c, s.queue);
    assert s.queue[..n] + s.queue[n..] == s.queue;
    assert Active(RunTop(c, s)) == s.queue[..n] && RunTop(c, s).queue == s.queue[n..] by { FirstSendIs(c, s); }
    assert RunTop(c, s).acked == s.acked && RunTop(c, s).sends == s.sends + [s.queue[..n]] && RunTop(c, s).phase == Sending by { FirstSendIs(c, s); }
    assert TimesSent(RunTop(c, s).sends, Active(RunTop(c, s))) == 1 by { FirstTry(c, s); }
  }

  lemma SettledSendsOn(c: Config, s: State, a: Answer, canRetry: bool)
    requires Inv(c, s) && Tried(s) && s.phase == Sending && Active(s) != [] && Open(s) && s.queue != []
    requires !Unacknowledged(c, s, a)
    ensures SentNext(Settled(s), Reply(c, s, a, canRetry))
  {
    AcknowledgesMeaning(c, s, a);
    var u := Settled(s);
    SettledCore(c, s);
    SendsNext(c, u);
    assert Reply(c, s, a, canRetry) == RunTop(c, u);
  }

  lemma SettledCore(c: Config, s: State)
    requires Inv(c, s) && Tried(s) && s.phase == Sending && Active(s) != []
    ensures Core(c, Settled(s)) && Settled(s).acked == s.acked + Active(s)
    ensures forall i :: 0 <= i < |s.sends| ==> s.sends[i] != [] && s.sends[i][0] in Settled(s).acked
  {
    assert s.acked + s.active.value + [] + s.queue == s.acked + s.active.value + s.queue;
    assert Active(s)[0] in s.acked + Active(s);
  }
}
