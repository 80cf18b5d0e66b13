/** Every run of a claimed job: one outcome, no heartbeat after the fence, no success after a lost
    lease, at most one terminal request that is answered with accepted. */
module GatewayRuns {
  import opened Wrappers
  import opened Lease
  import opened Gateway
  import opened GatewayInvariant

  /** `k` is a later point of the run than `j`. */
  predicate Later(j: Job, k: Job) {
    && HeartLater(j.heart, k.heart)
    && |j.requests| <= |k.requests|
    && (forall i :: 0 <= i < |j.requests| ==>
          && k.requests[i].kind == j.requests[i].kind
          && k.requests[i].outcome == j.requests[i].outcome)
  }

  /** A request that a step sends goes out behind the fence, under the outcome of that moment. */
  lemma SentBehindFence(times: Times, j: Job, l: Label)
    requires Enabled(j, l)
    ensures var k := Step(times, j, l);
            && |k.requests| <= |j.requests| + 1
            && (|k.requests| > |j.requests| ==> k.heart.beatsStopped && k.requests[|j.requests|].outcome == k.heart.outcome)
  {
  }

  lemma LaterStep(times: Times, j: Job, l: Label)
    requires HeartInv(times, j.heart) && Enabled(j, l)
    ensures Later(j, Step(times, j, l))
  {
    match l
    case Timer(_, _) => HeartStepLater(times, j, l);
    case BeatAnswer(_, _) => HeartStepLater(times, j, l);
    case BeatError(_) => HeartStepLater(times, j, l);
    case BeatAborted => HeartStepLater(times, j, l);
    case _ =>
  }

  lemma {:induction false} LaterRun(times: Times, deadline: real, ls: seq<Label>, ms: seq<Label>)
    requires TimesOk(times)
    ensures Later(Run(times, deadline, ls), Run(times, deadline, ls + ms))
  {
    if ms == [] {
      assert ls + ms == ls;
    } else {
      var before := ls + ms[..|ms| - 1];
      assert (ls + ms)[..|ls + ms| - 1] == before;
      LaterRun(times, deadline, ls, ms[..|ms| - 1]);
      InvRun(times, deadline, before);
      var j := Run(times, deadline, before);
      if Enabled(j, ms[|ms| - 1]) { LaterStep(times, j, ms[|ms| - 1]); }
    }
  }

  /** The heartbeat outcome is written at most once, and what was written stays. */
  lemma OutcomeWrittenOnce(times: Times, deadline: real, ls: seq<Label>, ms: seq<Label>)
    requires TimesOk(times)
    ensures var j, k := Run(times, deadline, ls), Run(times, deadline, ls + ms);
            && k.heart.writes <= 1
            && (k.heart.writes == 1 <==> k.heart.outcome.Some?)
            && (j.heart.outcome.Some? ==> k.heart.outcome == j.heart.outcome)
  {
    InvRun(times, deadline, ls + ms);
    LaterRun(times, deadline, ls, ms);
  }

  /** Once terminalization has begun, no heartbeat starts and the outcome is settled. */
  lemma NoBeatBehindFence(times: Times, deadline: real, ls: seq<Label>, ms: seq<Label>)
    requires TimesOk(times) && Run(times, deadline, ls).heart.beatsStopped
    ensures var j, k := Run(times, deadline, ls), Run(times, deadline, ls + ms);
            k.heart.beats == j.heart.beats && k.heart.outcome == j.heart.outcome
  {
    LaterRun(times, deadline, ls, ms);
  }

  /** `completed` is sent only while the lease is held and no cancellation was requested, and
      neither is recorded afterwards. */
  lemma CompletedNeverAfterLost(times: Times, deadline: real, ls: seq<Label>, i: nat)
    requires TimesOk(times) && i < |Run(times, deadline, ls).requests|
    requires Run(times, deadline, ls).requests[i].kind == Completes
    ensures Run(times, deadline, ls).requests[i].outcome == None
    ensures Run(times, deadline, ls).heart.outcome == None
  {
    InvRun(times, deadline, ls);
    CompletedFreezes(times, deadline, ls, i);
  }

  lemma {:induction false} CompletedFreezes(times: Times, deadline: real, ls: seq<Label>, i: nat)
    requires TimesOk(times) && i < |Run(times, deadline, ls).requests|
    requires Run(times, deadline, ls).requests[i].kind == Completes
    ensures Run(times, deadline, ls).heart.outcome == None && Run(times, deadline, ls).heart.beatsStopped
  {
    var before, l := ls[..|ls| - 1], ls[|ls| - 1];
    var j := Run(times, deadline, before);
    InvRun(times, deadline, before);
    InvRun(times, deadline, ls);
    if Enabled(j, l) {
      LaterStep(times, j, l);
      SentBehindFence(times, j, l);
      if i < |j.requests| && j.requests[i].kind == Completes { CompletedFreezes(times, deadline, before, i); }
    } else {
      CompletedFreezes(times, deadline, before, i);
    }
  }

  /** At most two terminal requests, at most one of them answered with accepted. A second one follows
      only a first one that was answered and not accepted: `failed` after a refused `completed`, or
      `cancelled` again. */
  lemma AtMostOneAccepted(times: Times, deadline: real, ls: seq<Label>)
    requires TimesOk(times)
    ensures var rs := Run(times, deadline, ls).requests;
            && |rs| <= 2
            && (|rs| == 2 ==>
                  && rs[0].reply.Some? && rs[0].reply != Some(Accepted)
                  && (rs[0].kind == Cancels <==> rs[1].kind == Cancels)
                  && (rs[0].kind != Cancels ==> rs[0].kind == Completes && rs[1].kind == Fails && Refused(rs[0])))
  {
    InvRun(times, deadline, ls);
  }

  /** Every heartbeat of every run is cut off in time. */
  lemma BeatsCutOff(times: Times, deadline: real, ls: seq<Label>, i: nat)
    requires TimesOk(times) && i < |Run(times, deadline, ls).heart.beats|
    ensures BeatInTime(times, Run(times, deadline, ls).heart.beats[i])
  {
    InvRun(times, deadline, ls);
  }

  /** Two heartbeats in a row that fail give the lease up, unless the job is past the fence: then
      the second one changes nothing. */
  lemma TwoFailuresGiveUp(times: Times, deadline: real, ls: seq<Label>, now: int)
    requires TimesOk(times)
    requires Run(times, deadline, ls).heart.beat == InFlight && Run(times, deadline, ls).heart.failures >= 1
    ensures var j := Run(times, deadline, ls);
            var k := Run(times, deadline, ls + [BeatError(now)]);
            if j.heart.beatsStopped then k.heart == j.heart.(beat := Quiet)
            else k.heart.outcome == Some(Lost) && k.heart.pending == {} && k.heart.beat == Quiet
  {
    InvRun(times, deadline, ls);
    assert (ls + [BeatError(now)])[..|ls + [BeatError(now)]| - 1] == ls;
  }

  // ---------------------------------------------------------------- a repeated cancellation

  /** A `cancelled` sent from the try block cannot be delivered, and the catch block takes over. */
  predicate CancelFails(j: Job, l: Label) {
    && j.pc == Requesting(Cancels, false) && l == Answer(Rejected(Infrastructure))
    && !j.stopped && !j.bufferFailed
  }

  /** The drain of the catch block's own cancellation succeeds. */
  predicate CancelsAgain(j: Job, l: Label) { j.pc == CancelDrain(true) && l == Drain(true) }

  predicate FailsAt(times: Times, deadline: real, ls: seq<Label>, n: nat)
    requires n < |ls|
  {
    CancelFails(Run(times, deadline, ls[..n]), ls[n])
  }

  predicate CancelFailed(times: Times, deadline: real, ls: seq<Label>) {
    exists n :: 0 <= n < |ls| && FailsAt(times, deadline, ls, n)
  }

  predicate AgainAt(times: Times, deadline: real, ls: seq<Label>, m: nat)
    requires m < |ls|
  {
    CancelFailed(times, deadline, ls[..m]) && CancelsAgain(Run(times, deadline, ls[..m]), ls[m])
  }

  predicate CancelRepeated(times: Times, deadline: real, ls: seq<Label>) {
    exists m :: 0 <= m < |ls| && AgainAt(times, deadline, ls, m)
  }

  /** The first request is a `cancelled` that met an infrastructure error. */
  predicate Undelivered(j: Job) {
    j.requests != [] && j.requests[0].kind == Cancels && j.requests[0].reply == Some(Rejected(Infrastructure))
  }

  /** Two requests, the first of them not refused. */
  predicate SentTwice(j: Job) { |j.requests| == 2 && !Refused(j.requests[0]) }

  predicate RepeatFacts(j: Job, failed: bool, repeated: bool) {
    && (failed ==> Undelivered(j))
    && (j.pc == CancelDrain(true) && Undelivered(j) ==> failed)
    && (repeated <==> SentTwice(j))
  }

  lemma RepeatStep(times: Times, j: Job, l: Label, failed: bool, repeated: bool)
    requires TimesOk(times) && Inv(times, j) && RepeatFacts(j, failed, repeated) && Enabled(j, l)
    ensures RepeatFacts(Step(times, j, l), failed || CancelFails(j, l), repeated || (failed && CancelsAgain(j, l)))
  {
    match l
    case Drain(drained) => RepeatDrain(times, j, drained, failed, repeated);
    case Answer(reply) => RepeatReply(times, j, reply, failed, repeated);
    case _ =>
  }

  lemma RepeatDrain(times: Times, j: Job, drained: bool, failed: bool, repeated: bool)
    requires Inv(times, j) && RepeatFacts(j, failed, repeated) && (j.pc.FinalDrain? || j.pc.CancelDrain? || j.pc.FailDrain?)
    ensures RepeatFacts(DrainDone(j, drained), failed, repeated || (failed && CancelsAgain(j, Drain(drained))))
  {
  }

  lemma RepeatReply(times: Times, j: Job, reply: Reply, failed: bool, repeated: bool)
    requires Inv(times, j) && RepeatFacts(j, failed, repeated) && j.pc.Requesting? && j.requests != []
    ensures RepeatFacts(Replied(j, reply), failed || CancelFails(j, Answer(reply)), repeated)
  {
  }

  lemma PrefixFacts(times: Times, deadline: real, ls: seq<Label>)
    requires ls != []
    ensures var n := |ls| - 1;
            && CancelFailed(times, deadline, ls) == (CancelFailed(times, deadline, ls[..n]) || FailsAt(times, deadline, ls, n))
            && CancelRepeated(times, deadline, ls) == (CancelRepeated(times, deadline, ls[..n]) || AgainAt(times, deadline, ls, n))
  {
    var n := |ls| - 1;
    forall i | 0 <= i < n
      ensures FailsAt(times, deadline, ls, i) == FailsAt(times, deadline, ls[..n], i)
      ensures AgainAt(times, deadline, ls, i) == AgainAt(times, deadline, ls[..n], i)
    {
      assert ls[..n][..i] == ls[..i];
    }
  }

  lemma {:induction false} RepeatRun(times: Times, deadline: real, ls: seq<Label>)
    requires TimesOk(times)
    ensures RepeatFacts(Run(times, deadline, ls), CancelFailed(times, deadline, ls), CancelRepeated(times, deadline, ls))
  {
    if ls != [] {
      var before, l := ls[..|ls| - 1], ls[|ls| - 1];
      var j := Run(times, deadline, before);
      RepeatRun(times, deadline, before);
      InvRun(times, deadline, before);
      PrefixFacts(times, deadline, ls);
      if Enabled(j, l) {
        RepeatStep(times, j, l, CancelFailed(times, deadline, before), CancelRepeated(times, deadline, before));
      }
    }
  }

  /** A second terminal request follows a first one that was not refused if and only if a `cancelled`
      sent from the try block met an infrastructure error while the gateway was running and the buffer
      intact, and the drain of the catch block succeeded. */
  lemma RepeatedExactlyWhen(times: Times, deadline: real, ls: seq<Label>)
    requires TimesOk(times)
    ensures SentTwice(Run(times, deadline, ls)) <==> CancelRepeated(times, deadline, ls)
  {
    RepeatRun(times, deadline, ls);
  }

  /** The first heartbeat goes out. */
  lemma FirstBeat(times: Times, deadline: real, now: int) returns (j: Job)
    requires TimesOk(times) && deadline - now as real > times.grace as real
    ensures Does(times, Start(deadline), Timer(0, now), j)
    ensures j == Start(deadline).(heart := j.heart) && j.heart.beat == InFlight && !j.heart.beatsStopped && !j.heart.failed
  {
    j := Start(deadline).(heart := TimerFires(times, Start(deadline).heart, 0, now));
  }

  /** It asks for cancellation before the worker is ready. */
  lemma CancelledEarly(times: Times, deadline: real, now: int) returns (ls: seq<Label>, j: Job)
    requires TimesOk(times) && deadline - now as real > times.grace as real
    ensures Run(times, deadline, ls) == j && j == Start(deadline).(heart := j.heart) && j.heart.outcome == Some(Cancelled)
  {
    var j1 := FirstBeat(times, deadline, now);
    j := j1.(heart := BeatAnswered(j1.heart, true, None));
    assert Does(times, j1, BeatAnswer(true, None), j);
    ls := Follow(times, deadline, [], Start(deadline), Timer(0, now), j1);
    ls := Follow(times, deadline, ls, j1, BeatAnswer(true, None), j);
  }

  /** The first `cancelled` meets an infrastructure error, and the catch block goes to its own drain. */
  lemma CancelUndelivered(times: Times, deadline: real, before: seq<Label>, j: Job) returns (ls: seq<Label>, k: Job)
    requires Run(times, deadline, before) == j && j == Start(deadline).(heart := j.heart)
    requires j.heart.outcome == Some(Cancelled)
    ensures Run(times, deadline, ls) == k && k.pc == CancelDrain(true) && k.heart.outcome == Some(Cancelled)
    ensures k.requests == [Request(Cancels, Some(Cancelled), Some(Rejected(Infrastructure)))]
  {
    var j2 := j.(pc := CancelDrain(false));
    ls := Follow(times, deadline, before, j, Ready(true), j.(pc := AbortForCancel));
    ls := Follow(times, deadline, ls, j.(pc := AbortForCancel), AbortDone, j2);
    ls := Follow(times, deadline, ls, j2, Drain(true), Send(j2, Cancels, false));
    k := Replied(Send(j2, Cancels, false), Rejected(Infrastructure));
    ls := Follow(times, deadline, ls, Send(j2, Cancels, false), Answer(Rejected(Infrastructure)), k);
  }

  /** A run with a repeated cancellation. */
  lemma CancelledTwice(times: Times, deadline: real, now: int) returns (ls: seq<Label>)
    requires TimesOk(times) && deadline - now as real > times.grace as real
    ensures var r := Request(Cancels, Some(Cancelled), Some(Rejected(Infrastructure)));
            Run(times, deadline, ls).requests == [r, r.(reply := None)]
  {
    var before, j := CancelledEarly(times, deadline, now);
    var more, k := CancelUndelivered(times, deadline, before, j);
    ls := Follow(times, deadline, more, k, Drain(true), Send(k, Cancels, true));
  }

  predicate Does(times: Times, j: Job, l: Label, k: Job) { Enabled(j, l) && k == Step(times, j, l) }

  lemma Follow(times: Times, deadline: real, ls: seq<Label>, j: Job, l: Label, k: Job) returns (more: seq<Label>)
    requires Run(times, deadline, ls) == j && Does(times, j, l, k)
    ensures more == ls + [l] && Run(times, deadline, more) == k
  {
    more := ls + [l];
    assert more[..|more| - 1] == ls;
  }
}
