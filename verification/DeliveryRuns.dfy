/** Every run of the delivery pump: what is conserved, what drain means, what is sent. */
module DeliveryRuns {
  import opened Wrappers
  import opened Protocol
  import opened Delivery

  // ---------------------------------------------------------------- the greedy batch

  lemma {:induction false} GrowStops(queue: seq<Event>, count: nat)
    requires 1 <= count <= |queue|
    requires count == 1 || BatchBytes(queue[..count]) <= BATCH_MAX_BYTES
    ensures var n := Grow(queue, count);
            && (n == 1 || BatchBytes(queue[..n]) <= BATCH_MAX_BYTES)
            && (n < Min(|queue|, BATCH_MAX_EVENTS) ==> BatchBytes(queue[..n + 1]) > BATCH_MAX_BYTES)
    decreases |queue| - count
  {
    if count < Min(|queue|, BATCH_MAX_EVENTS) && BatchBytes(queue[..count + 1]) <= BATCH_MAX_BYTES {
      GrowStops(queue, count + 1);
    }
  }

  /** What a batch is, is a stretch of one attempt's contiguous, individually valid events. */
  predicate Stream(attempt: string, es: seq<Event>) {
    && (forall i :: 0 <= i < |es| ==> EventAccepted(es[i]) && es[i].id.attempt == attempt)
    && Contiguous(es)
  }

  lemma StreamPart(attempt: string, es: seq<Event>, i: nat, j: nat)
    requires i <= j <= |es| && Stream(attempt, es)
    ensures Stream(attempt, es[i..j])
  {
  }

  /** The batch is the longest prefix of the queue within both limits: it fits, and no longer
      prefix would. */
  lemma TakesLongestPrefix(c: Config, queue: seq<Event>, m: nat)
    requires c.batched && queue != [] && EventAccepted(queue[0])
    ensures var n := TakeCount(c, queue);
            && BatchBytes(queue[..n]) <= BATCH_MAX_BYTES
            && (n < m <= |queue| ==> m > BATCH_MAX_EVENTS || BatchBytes(queue[..m]) > BATCH_MAX_BYTES)
  {
    var n := TakeCount(c, queue);
    GrowStops(queue, 1);
    AcceptedFitsAlone(queue[0]);
    assert queue[..1] == [queue[0]];
    if n < m <= |queue| && m <= BATCH_MAX_EVENTS {
      EventsBytesMonotone(queue[..m], n + 1);
      assert queue[..m][..n + 1] == queue[..n + 1];
    }
  }

  /** Whatever is taken from a valid stream passes the batch parser. */
  lemma TakenIsAccepted(c: Config, attempt: string, queue: seq<Event>)
    requires c.batched && queue != [] && Stream(attempt, queue)
    ensures BatchAccepted(queue[..TakeCount(c, queue)])
  {
    TakesLongestPrefix(c, queue, 0);
    StreamPart(attempt, queue, 0, TakeCount(c, queue));
  }

  // ---------------------------------------------------------------- the invariant

  function After(es: seq<Event>): Option<nat> {
    if es == [] then None else Some(es[|es| - 1].sequence + 1)
  }

  predicate Sendable(c: Config, batch: seq<Event>) {
    if c.batched then BatchAccepted(batch) else |batch| == 1
  }

  /** What holds at every point of the code, whatever the runner is doing. */
  predicate Core(c: Config, s: State) {
    && s.accepted == s.acked + Active(s) + s.queue
    && Stream(c.attempt, s.accepted)
    && (s.fatal.None? ==> s.expected == After(s.accepted))
    && s.lastAcked == LastOf(s.acked)
    && |s.queue| <= c.maxBuffered
    && s.retries <= c.maxRetries
    && (s.active.Some? ==> Sendable(c, s.active.value))
  }

  /** How the active batch and the runner belong together. */
  predicate Phased(s: State) {
    && (s.phase == Sending || s.phase == Waiting ==> s.active.Some?)
    && (s.phase == Idle || s.phase == Finished ==> s.active.None? || s.fatal.Some? || s.stopped)
  }

  predicate Inv(c: Config, s: State) { Core(c, s) && Phased(s) }

  lemma SendKeeps(c: Config, s: State)
    requires Core(c, s) && s.active.Some?
    ensures Inv(c, Send(c, s)) && Send(c, s).phase == Sending
  {
  }

  lemma TakeKeeps(c: Config, s: State)
    requires Core(c, s) && s.active.None? && s.queue != []
    ensures var n := TakeCount(c, s.queue);
            && (c.batched ==> BatchBytes(s.queue[..n]) <= BATCH_MAX_BYTES)
            && Core(c, s.(active := Some(s.queue[..n]), queue := s.queue[n..], retries := 0))
  {
    var n := TakeCount(c, s.queue);
    assert s.queue == s.accepted[|s.acked|..|s.accepted|];
    StreamPart(c.attempt, s.accepted, |s.acked|, |s.accepted|);
    if c.batched { TakenIsAccepted(c, c.attempt, s.queue); }
    assert s.acked + s.queue[..n] + s.queue[n..] == s.acked + [] + s.queue;
  }

  /** The runner never fails by itself: it sends, or it finishes because there is nothing to do. */
  lemma RunTopKeeps(c: Config, s: State)
    requires Core(c, s)
    ensures var t := RunTop(c, s);
            && Inv(c, t) && t.fatal == s.fatal && t.stopped == s.stopped
            && (t.phase == Sending || t.phase == Finished)
            && (t.phase == Finished ==> t == s.(phase := Finished) && (s.stopped || s.fatal.Some? || Drained(s)))
  {
    if !s.stopped && s.fatal.None? {
      if s.active.Some? {
        SendKeeps(c, s);
      } else if s.queue != [] {
        TakeKeeps(c, s);
        var n := TakeCount(c, s.queue);
        SendKeeps(c, s.(active := Some(s.queue[..n]), queue := s.queue[n..], retries := 0));
      }
    }
  }

  /** The state that an accepted event joins. */
  function Accept(s: State, e: Event): State {
    s.(expected := Some(e.sequence + 1), queue := s.queue + [e], accepted := s.accepted + [e])
  }

  lemma StreamExtends(attempt: string, es: seq<Event>, e: Event)
    requires Stream(attempt, es) && EventAccepted(e) && e.id.attempt == attempt
    requires After(es).Some? ==> e.sequence == After(es).value
    ensures Stream(attempt, es + [e])
  {
  }

  lemma AcceptKeeps(c: Config, s: State, e: Event)
    requires Inv(c, s) && Refuses(c, s, e).None?
    ensures Inv(c, Accept(s, e))
  {
    StreamExtends(c.attempt, s.accepted, e);
    assert s.acked + Active(s) + (s.queue + [e]) == (s.acked + Active(s) + s.queue) + [e];
  }

  lemma EnqueueKeeps(c: Config, s: State, e: Event)
    requires Inv(c, s)
    ensures Inv(c, Enqueue(c, s, e))
  {
    if Refuses(c, s, e).None? {
      AcceptKeeps(c, s, e);
      if s.phase == Idle { RunTopKeeps(c, Accept(s, e).(retries := 0)); }
    }
  }

  lemma ReplyKeeps(c: Config, s: State, a: Answer, canRetry: bool)
    requires Inv(c, s) && s.phase == Sending && Active(s) != []
    ensures Inv(c, Reply(c, s, a, canRetry))
  {
    if Acknowledges(c, s.active.value, a) {
      assert s.acked + s.active.value + [] + s.queue == s.acked + s.active.value + s.queue;
      RunTopKeeps(c, Settled(s));
    }
  }

  lemma InvStep(c: Config, s: State, l: Label)
    requires Inv(c, s) && Enabled(s, l)
    ensures Inv(c, Step(c, s, l))
  {
    match l
    case Offer(e) => EnqueueKeeps(c, s, e);
    case DrainTurn => if s.phase == Idle { RunTopKeeps(c, s.(retries := 0)); }
    case Answered(a, canRetry) => ReplyKeeps(c, s, a, canRetry);
    case Woken => RunTopKeeps(c, s);
    case Forgotten =>
    case Stop =>
  }

  lemma {:induction false} InvRun(c: Config, ls: seq<Label>)
    ensures Inv(c, Run(c, ls))
  {
    if ls != [] {
      InvRun(c, ls[..|ls| - 1]);
      var t := Run(c, ls[..|ls| - 1]);
      if Enabled(t, ls[|ls| - 1]) { InvStep(c, t, ls[|ls| - 1]); }
    }
  }

  // ---------------------------------------------------------------- conservation

  /** In every run, the accepted events are the acknowledged ones, then the active batch, then the
      queue; and the last acknowledged number is the number of the last acknowledged event. */
  lemma Conservation(c: Config, ls: seq<Label>)
    ensures var s := Run(c, ls);
            && s.accepted == s.acked + Active(s) + s.queue
            && Stream(c.attempt, s.accepted)
            && s.lastAcked == LastOf(s.acked)
  {
    InvRun(c, ls);
  }

  /** `drain` tells the truth: it returns true exactly when nothing has failed and every accepted
      event has been acknowledged. */
  lemma DrainedMeansAcknowledged(c: Config, ls: seq<Label>)
    ensures var s := Run(c, ls); Drained(s) <==> s.fatal.None? && s.acked == s.accepted
  {
    InvRun(c, ls);
    var s := Run(c, ls);
    if s.acked == s.accepted { assert |Active(s) + s.queue| == 0; }
  }

  /** With batches, only the exact echo of the batch in flight acknowledges it, and it does so whole. */
  lemma OnlyEchoAcknowledges(c: Config, ls: seq<Label>, l: Label)
    requires c.batched && Enabled(Run(c, ls), l)
    ensures var s, t := Run(c, ls), Step(c, Run(c, ls), l);
            if l.Answered? && l.a == Receipt(Echo(s.active.value)) then t.acked == s.acked + s.active.value
            else t.acked == s.acked
  {
    InvRun(c, ls);
    var s := Run(c, ls);
    match l
    case Offer(e) => if Refuses(c, s, e).None? { RunTopLater(c, Accept(s, e).(retries := 0)); }
    case DrainTurn => RunTopLater(c, s.(retries := 0));
    case Answered(a, canRetry) =>
      if a.Receipt? { AcknowledgedExactlyByEcho(s.active.value, a.receipt); }
      RunTopLater(c, Settled(s));
    case Woken => RunTopLater(c, s);
    case Forgotten =>
    case Stop =>
  }

  /** The batch that takeBatch returns never exceeds the limits, so its exception is dead code. */
  lemma TakeNeverThrows(c: Config, ls: seq<Label>)
    requires c.batched && Run(c, ls).active.None? && Run(c, ls).queue != []
    ensures BatchAccepted(Run(c, ls).queue[..TakeCount(c, Run(c, ls).queue)])
  {
    InvRun(c, ls);
    var s := Run(c, ls);
    assert s.queue == s.accepted[|s.acked|..|s.accepted|];
    StreamPart(c.attempt, s.accepted, |s.acked|, |s.accepted|);
    TakenIsAccepted(c, c.attempt, s.queue);
  }

  // ---------------------------------------------------------------- growth

  /** `t` is a later state than `s`. */
  predicate Later(s: State, t: State) {
    && s.accepted <= t.accepted && s.acked <= t.acked && s.sends <= t.sends
    && (s.fatal.Some? ==> t.fatal == s.fatal && t.sends == s.sends && t.accepted == s.accepted)
    && (s.stopped ==> t.stopped && t.sends == s.sends && t.accepted == s.accepted)
  }

  lemma RunTopLater(c: Config, s: State)
    ensures Later(s, RunTop(c, s))
    ensures RunTop(c, s).accepted == s.accepted && RunTop(c, s).acked == s.acked
  {
  }

  lemma OfferLater(c: Config, s: State, e: Event)
    ensures Later(s, Enqueue(c, s, e))
  {
    if Refuses(c, s, e).None? { RunTopLater(c, Accept(s, e).(retries := 0)); }
  }

  lemma ReplyLater(c: Config, s: State, a: Answer, canRetry: bool)
    requires s.phase == Sending && Active(s) != []
    ensures Later(s, Reply(c, s, a, canRetry))
  {
    RunTopLater(c, Settled(s));
  }

  lemma LaterStep(c: Config, s: State, l: Label)
    requires Enabled(s, l)
    ensures Later(s, Step(c, s, l))
  {
    match l
    case Offer(e) => OfferLater(c, s, e);
    case DrainTurn => RunTopLater(c, s.(retries := 0));
    case Answered(a, canRetry) => ReplyLater(c, s, a, canRetry);
    case Woken => RunTopLater(c, s);
    case Forgotten =>
    case Stop =>
  }

  lemma {:induction false} LaterExec(c: Config, s: State, ls: seq<Label>)
    ensures Later(s, Exec(c, s, ls))
  {
    if ls != [] {
      LaterExec(c, s, ls[..|ls| - 1]);
      var t := Exec(c, s, ls[..|ls| - 1]);
      if Enabled(t, ls[|ls| - 1]) { LaterStep(c, t, ls[|ls| - 1]); }
    }
  }

  lemma {:induction false} ExecConcat(c: Config, s: State, ls: seq<Label>, ms: seq<Label>)
    ensures Exec(c, s, ls + ms) == Exec(c, Exec(c, s, ls), ms)
  {
    if ms == [] {
      assert ls + ms == ls;
    } else {
      assert (ls + ms)[..|ls + ms| - 1] == ls + ms[..|ms| - 1];
      ExecConcat(c, s, ls, ms[..|ms| - 1]);
    }
  }

  /** Numbers that were acknowledged stay acknowledged and the last one never decreases; after a
      permanent failure nothing is sent or accepted any more. */
  lemma NeverBackwards(c: Config, ls: seq<Label>, ms: seq<Label>)
    ensures var s, t := Run(c, ls), Run(c, ls + ms);
            && s.acked <= t.acked
            && (s.lastAcked.Some? ==> t.lastAcked.Some? && s.lastAcked.value <= t.lastAcked.value)
            && (s.fatal.Some? ==> t.fatal == s.fatal && t.sends == s.sends && t.accepted == s.accepted)
  {
    var s, t := Run(c, ls), Run(c, ls + ms);
    ExecConcat(c, Init, ls, ms);
    LaterExec(c, s, ms);
    LastAckedGrows(c, ls, ls + ms);
  }

  lemma LastAckedGrows(c: Config, ls: seq<Label>, ms: seq<Label>)
    requires Run(c, ls).acked <= Run(c, ms).acked
    ensures var s, t := Run(c, ls), Run(c, ms);
            s.lastAcked.Some? ==> t.lastAcked.Some? && s.lastAcked.value <= t.lastAcked.value
  {
    InvRun(c, ls);
    InvRun(c, ms);
    var s, t := Run(c, ls).acked, Run(c, ms);
    if s != [] {
      StreamPart(c.attempt, t.accepted, 0, |t.acked|);
      assert t.acked == t.accepted[0..|t.acked|];
      Increasing(t.acked, |s| - 1, |t.acked| - 1);
    }
  }

  lemma {:induction false} Increasing(es: seq<Event>, i: nat, j: nat)
    requires i <= j < |es| && Contiguous(es)
    ensures es[j].sequence == es[i].sequence + (j - i)
    decreases j
  {
    if i < j { Increasing(es, i, j - 1); }
  }

  // ---------------------------------------------------------------- the sends

  /** One batch and how often it was sent in a row. */
  datatype Chunk = Chunk(batch: seq<Event>, tries: nat)

  function Repeat(batch: seq<Event>, tries: nat): seq<seq<Event>> { seq(tries, _ => batch) }

  function Expand(cs: seq<Chunk>): seq<seq<Event>> {
    if cs == [] then [] else Expand(cs[..|cs| - 1]) + Repeat(cs[|cs| - 1].batch, cs[|cs| - 1].tries)
  }

  function Joined(cs: seq<Chunk>): seq<Event> {
    if cs == [] then [] else Joined(cs[..|cs| - 1]) + cs[|cs| - 1].batch
  }

  predicate ChunksOk(c: Config, cs: seq<Chunk>) {
    forall i :: 0 <= i < |cs| ==> Sendable(c, cs[i].batch) && 1 <= cs[i].tries <= c.maxRetries + 1
  }

  /** `cs` describes the sends so far. */
  predicate Describes(c: Config, s: State, cs: seq<Chunk>) {
    && Expand(cs) == s.sends
    && Joined(cs) == s.acked + Active(s)
    && ChunksOk(c, cs)
    && (s.phase == Sending ==> cs != [] && cs[|cs| - 1] == Chunk(Active(s), s.retries + 1))
    && (s.phase == Waiting ==> cs != [] && cs[|cs| - 1] == Chunk(Active(s), s.retries))
  }

  ghost predicate Described(c: Config, s: State) { exists cs :: Describes(c, s, cs) }

  /** The first send of a new batch. */
  lemma FirstSend(c: Config, s: State, cs: seq<Chunk>)
    requires Core(c, s) && s.active.None? && s.queue != [] && !s.stopped && s.fatal.None?
    requires Expand(cs) == s.sends && Joined(cs) == s.acked && ChunksOk(c, cs)
    ensures Described(c, RunTop(c, s))
  {
    var n := TakeCount(c, s.queue);
    TakeKeeps(c, s);
    SendKeeps(c, s.(active := Some(s.queue[..n]), queue := s.queue[n..], retries := 0));
    var ds := cs + [Chunk(s.queue[..n], 1)];
    assert ds[..|ds| - 1] == cs;
    assert Repeat(s.queue[..n], 1) == [s.queue[..n]];
    assert Describes(c, RunTop(c, s), ds);
  }

  /** Another send of the batch that is active. */
  lemma Resend(c: Config, s: State)
    requires Inv(c, s) && s.phase == Waiting && !s.stopped && s.fatal.None?
    requires Described(c, s)
    ensures Described(c, RunTop(c, s))
  {
    var cs :| Describes(c, s, cs);
    SendKeeps(c, s);
    var batch, head := s.active.value, cs[..|cs| - 1];
    var ds := head + [Chunk(batch, s.retries + 1)];
    assert ds[..|ds| - 1] == head && cs == head + [cs[|cs| - 1]];
    assert Repeat(batch, s.retries + 1) == Repeat(batch, s.retries) + [batch];
    assert Expand(head) + Repeat(batch, s.retries + 1) == (Expand(head) + Repeat(batch, s.retries)) + [batch];
    assert Describes(c, RunTop(c, s), ds);
  }

  lemma TopDescribed(c: Config, s: State, cs: seq<Chunk>)
    requires Core(c, s) && s.active.None?
    requires Expand(cs) == s.sends && Joined(cs) == s.acked && ChunksOk(c, cs)
    ensures Described(c, RunTop(c, s))
  {
    if !s.stopped && s.fatal.None? && s.queue != [] {
      FirstSend(c, s, cs);
    } else {
      assert s.acked + [] == s.acked;
      assert Describes(c, RunTop(c, s), cs);
    }
  }

  lemma IdleDescribed(c: Config, s: State)
    requires Inv(c, s) && Described(c, s)
    ensures Described(c, EnsureRunner(c, s))
  {
    if s.phase == Idle && !s.stopped && s.fatal.None? && s.queue != [] {
      var cs :| Describes(c, s, cs);
      assert s.acked + [] == s.acked;
      TopDescribed(c, s.(retries := 0), cs);
    }
  }

  lemma OfferDescribed(c: Config, s: State, e: Event)
    requires Inv(c, s) && Described(c, s)
    ensures Described(c, Enqueue(c, s, e))
  {
    var cs :| Describes(c, s, cs);
    if Refuses(c, s, e).None? {
      AcceptKeeps(c, s, e);
      assert Describes(c, Accept(s, e), cs);
      IdleDescribed(c, Accept(s, e));
    } else {
      assert Describes(c, Enqueue(c, s, e), cs);
    }
  }

  lemma ReplyDescribed(c: Config, s: State, a: Answer, canRetry: bool)
    requires Inv(c, s) && s.phase == Sending && Active(s) != [] && Described(c, s)
    ensures Described(c, Reply(c, s, a, canRetry))
  {
    var cs :| Describes(c, s, cs);
    if Acknowledges(c, s.active.value, a) {
      assert s.acked + s.active.value + [] + s.queue == s.acked + s.active.value + s.queue;
      TopDescribed(c, Settled(s), cs);
    } else {
      assert Describes(c, Reply(c, s, a, canRetry), cs);
    }
  }

  lemma StepDescribed(c: Config, s: State, l: Label)
    requires Inv(c, s) && Described(c, s) && Enabled(s, l)
    ensures Described(c, Step(c, s, l))
  {
    var cs :| Describes(c, s, cs);
    match l
    case Offer(e) => OfferDescribed(c, s, e);
    case DrainTurn => IdleDescribed(c, s);
    case Answered(a, canRetry) => ReplyDescribed(c, s, a, canRetry);
    case Woken =>
      if !s.stopped && s.fatal.None? { Resend(c, s); } else { assert Describes(c, Step(c, s, l), cs); }
    case Forgotten => assert Describes(c, Step(c, s, l), cs);
    case Stop => assert Describes(c, Step(c, s, l), cs);
  }

  lemma {:induction false} SendsDescribed(c: Config, ls: seq<Label>)
    ensures Described(c, Run(c, ls))
  {
    if ls == [] {
      assert Describes(c, Init, []);
    } else {
      SendsDescribed(c, ls[..|ls| - 1]);
      var s := Run(c, ls[..|ls| - 1]);
      InvRun(c, ls[..|ls| - 1]);
      if Enabled(s, ls[|ls| - 1]) { StepDescribed(c, s, ls[|ls| - 1]); }
    }
  }

  /** The sends of a run are a chunking of a prefix of the accepted stream, every chunk repeated
      at most `maxRetries` times after its first send: a resend is identical to the send before it,
      no event is skipped and none is sent in two batches. */
  lemma SendsStutterAlongStream(c: Config, ls: seq<Label>)
    ensures exists cs: seq<Chunk> ::
              && Expand(cs) == Run(c, ls).sends
              && Joined(cs) <= Run(c, ls).accepted
              && ChunksOk(c, cs)
  {
    SendsDescribed(c, ls);
    var cs :| Describes(c, Run(c, ls), cs);
    InvRun(c, ls);
    var s := Run(c, ls);
    assert s.accepted == (s.acked + Active(s)) + s.queue;
  }

  // ---------------------------------------------------------------- what gets in

  /** As long as the pump has neither failed nor been stopped, it has accepted everything it was given. */
  lemma {:induction false} AllAccepted(c: Config, ls: seq<Label>)
    ensures var s := Run(c, ls); s.fatal.None? && !s.stopped ==> s.accepted == Offered(ls)
  {
    if ls != [] {
      var s, l := Run(c, ls[..|ls| - 1]), ls[|ls| - 1];
      AllAccepted(c, ls[..|ls| - 1]);
      if Enabled(s, l) { StepAccepts(c, s, l); }
    }
  }

  lemma StepAccepts(c: Config, s: State, l: Label)
    requires Enabled(s, l)
    ensures var t := Step(c, s, l);
            && (t.fatal.None? && !t.stopped ==> s.fatal.None? && !s.stopped)
            && (t.fatal.None? && !t.stopped ==> t.accepted == s.accepted + (if l.Offer? then [l.e] else []))
  {
    match l
    case Offer(e) => if Refuses(c, s, e).None? { RunTopLater(c, Accept(s, e).(retries := 0)); }
    case DrainTurn => RunTopLater(c, s.(retries := 0));
    case Answered(a, canRetry) => RunTopLater(c, Settled(s));
    case Woken => RunTopLater(c, s);
    case Forgotten =>
    case Stop =>
  }

  predicate NumberedFromOne(attempt: string, es: seq<Event>) {
    forall i :: 0 <= i < |es| ==> es[i].sequence == i + 1 && es[i].id == SourceId(attempt, i + 1)
  }

  /** Events that are numbered 1, 2, 3, .. for the pump's attempt never trip its attempt check or
      its sequence check. */
  lemma NumberedNeverMismatches(c: Config, ls: seq<Label>, e: Event)
    requires NumberedFromOne(c.attempt, Offered(ls) + [e])
    ensures Refuses(c, Run(c, ls), e) != Some(WrongAttempt) && Refuses(c, Run(c, ls), e) != Some(WrongSequence)
  {
    var s, all := Run(c, ls), Offered(ls) + [e];
    AllAccepted(c, ls);
    InvRun(c, ls);
    assert all[|all| - 1] == e;
    if s.fatal.None? && !s.stopped && s.accepted != [] {
      assert all[|s.accepted| - 1] == s.accepted[|s.accepted| - 1];
    }
  }

  // ---------------------------------------------------------------- progress

  function Rank(p: Phase): nat {
    match p case Sending => 0 case Waiting => 1 case Idle => 2 case Finished => 3
  }

  lemma EchoAcknowledges(c: Config, batch: seq<Event>)
    requires Sendable(c, batch)
    ensures batch != [] && Acknowledges(c, batch, Receipt(Echo(batch)))
  {
    if c.batched { AcknowledgedExactlyByEcho(batch, Echo(batch)); }
  }

  /** One step towards an empty pump when the control plane answers with the right receipt. */
  function Helpful(s: State): Label
    requires s.phase == Sending ==> Active(s) != []
  {
    match s.phase
    case Sending => Answered(Receipt(Echo(s.active.value)), true)
    case Waiting => Woken
    case Finished => Forgotten
    case Idle => DrainTurn
  }

  lemma HelpfulStep(c: Config, s: State)
    requires Inv(c, s) && s.fatal.None? && !s.stopped && !Drained(s)
    ensures s.phase == Sending ==> Active(s) != []
    ensures Enabled(s, Helpful(s))
    ensures var t := Step(c, s, Helpful(s));
            && t.fatal.None? && !t.stopped && t.accepted == s.accepted && |s.acked| <= |t.acked|
            && (|t.acked| == |s.acked| ==> Rank(t.phase) < Rank(s.phase))
  {
    match s.phase
    case Sending =>
      EchoAcknowledges(c, s.active.value);
      assert s.acked + s.active.value + [] + s.queue == s.acked + s.active.value + s.queue;
      RunTopKeeps(c, Settled(s));
      RunTopLater(c, Settled(s));
    case Waiting => RunTopKeeps(c, s); RunTopLater(c, s);
    case Finished =>
    case Idle => RunTopKeeps(c, s.(retries := 0)); RunTopLater(c, s.(retries := 0));
  }

  /** The pump is never stuck: as long as it has neither failed nor been stopped, a control plane
      that answers lets `drain` finish, with every accepted event acknowledged. */
  lemma {:induction false} CanDrain(c: Config, s: State) returns (ls: seq<Label>)
    requires Inv(c, s) && s.fatal.None? && !s.stopped
    ensures Drained(Exec(c, s, ls)) && Exec(c, s, ls).acked == s.accepted
    decreases |s.accepted| - |s.acked|, Rank(s.phase)
  {
    if Drained(s) {
      ls := [];
      assert s.accepted == s.acked + [] + [];
    } else {
      HelpfulStep(c, s);
      var t := Step(c, s, Helpful(s));
      InvStep(c, s, Helpful(s));
      assert Exec(c, s, [Helpful(s)]) == t by { assert [Helpful(s)][..0] == []; }
      var rest := CanDrain(c, t);
      ls := [Helpful(s)] + rest;
      ExecConcat(c, s, [Helpful(s)], rest);
    }
  }

  /** Without `drain`, an event can stay behind: it is accepted after the runner has returned and
      before it is forgotten, and no later step of the runner picks it up. */
  lemma StrandedWithoutDrain(c: Config, e: Event, f: Event)
    requires NumberedFromOne(c.attempt, [e, f]) && EventAccepted(e) && EventAccepted(f) && c.maxBuffered >= 1
    ensures var s := Run(c, [Offer(e), Answered(Receipt(Echo([e])), true), Offer(f), Forgotten]);
            s.queue == [f] && s.phase == Idle && s.fatal.None? && s.sends == [[e]]
  {
    var s1, s2, s3 := AfterFirst(e), AfterAck(e), AfterStray(e, f);
    assert [e, f][0] == e && [e, f][1] == f;
    FirstAlone(c, e);
    FirstAcked(c, e);
    SecondStays(c, e, f);
    FourSteps(c, Offer(e), Answered(Receipt(Echo([e])), true), Offer(f), Forgotten, s1, s2, s3, s3.(phase := Idle));
  }

  lemma FourSteps(c: Config, k: Label, l: Label, m: Label, n: Label, s1: State, s2: State, s3: State, t: State)
    requires Does(c, Init, k, s1) && Does(c, s1, l, s2) && Does(c, s2, m, s3) && Does(c, s3, n, t)
    ensures Run(c, [k, l, m, n]) == t
  {
    var k1 := [] + [k];
    OneMore(c, [], k, Init, s1);
    OneMore(c, k1, l, s1, s2);
    OneMore(c, k1 + [l], m, s2, s3);
    OneMore(c, k1 + [l] + [m], n, s3, t);
    assert k1 + [l] + [m] + [n] == [k, l, m, n];
  }

  predicate Does(c: Config, s: State, l: Label, t: State) { Enabled(s, l) && t == Step(c, s, l) }

  lemma OneMore(c: Config, ls: seq<Label>, l: Label, s: State, t: State)
    requires Run(c, ls) == s && Does(c, s, l, t)
    ensures Run(c, ls + [l]) == t
  {
    assert (ls + [l])[..|ls + [l]| - 1] == ls;
  }

  function AfterFirst(e: Event): State {
    State([], Some([e]), Sending, 0, Some(e.sequence + 1), None, None, false, [e], [], [[e]])
  }

  function AfterAck(e: Event): State {
    State([], None, Finished, 0, Some(e.sequence + 1), Some(e.sequence), None, false, [e], [e], [[e]])
  }

  function AfterStray(e: Event, f: Event): State {
    State([f], None, Finished, 0, Some(f.sequence + 1), Some(e.sequence), None, false, [e, f], [e], [[e]])
  }

  lemma FirstAcked(c: Config, e: Event)
    requires Sendable(c, [e])
    ensures Reply(c, AfterFirst(e), Receipt(Echo([e])), true) == AfterAck(e)
  {
    EchoAcknowledges(c, [e]);
    assert [] + [e] == [e];
  }

  lemma SecondStays(c: Config, e: Event, f: Event)
    requires EventAccepted(f) && f.id.attempt == c.attempt && f.sequence == e.sequence + 1 && c.maxBuffered >= 1
    ensures Enqueue(c, AfterAck(e), f) == AfterStray(e, f)
  {
    assert [] + [f] == [f] && [e] + [f] == [e, f];
  }

  lemma FirstAlone(c: Config, e: Event)
    requires EventAccepted(e) && e.id.attempt == c.attempt && c.maxBuffered >= 1
    ensures Sendable(c, [e])
    ensures Enqueue(c, Init, e) == AfterFirst(e)
  {
    AcceptedFitsAlone(e);
    assert [] + [e] == [e] && [e][..1] == [e] && [e][1..] == [];
    assert TakeCount(c, [e]) == 1;
  }
}
