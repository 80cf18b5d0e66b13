/** When a run of the delivery pump fails and when it tries a batch again. */
module DeliveryRetries {
  import opened Wrappers
  import opened Protocol
  import opened Delivery
  import opened DeliveryRuns
  import opened DeliveryTries

  /** A pump fails exactly when an event is offered that is malformed, out of order or one too many, or when a
      batch is not acknowledged and the answer is final; and the failure it records is that cause. */
  lemma FailsExactlyWhen(c: Config, ls: seq<Label>, l: Label)
    requires Run(c, ls).fatal == None && Enabled(Run(c, ls), l)
    ensures Run(c, ls + [l]).fatal == Cause(c, Run(c, ls), l)
  {
    assert (ls + [l])[..|ls|] == ls;
    InvRun(c, ls);
    TriedRun(c, ls);
    var s := Run(c, ls);
    match l
    case Offer(e) => OfferFails(c, s, e);
    case DrainTurn => if s.phase == Idle { RunTopKeeps(c, s.(retries := 0)); }
    case Answered(a, canRetry) => AnswerFails(c, s, a, canRetry);
    case Woken => RunTopKeeps(c, s);
    case Forgotten =>
    case Stop =>
  }

  /** A failing answer that is not final costs nothing: the batch stays, and the retry delay begins. */
  lemma TransientWaits(c: Config, ls: seq<Label>, a: Answer, canRetry: bool)
    requires Enabled(Run(c, ls), Answered(a, canRetry)) && Unacknowledged(c, Run(c, ls), a)
    requires !Final(c, Run(c, ls), a, canRetry)
    ensures var s, t := Run(c, ls), Run(c, ls + [Answered(a, canRetry)]);
            t == s.(phase := Waiting, retries := t.retries) && t.fatal == s.fatal
  {
    assert (ls + [Answered(a, canRetry)])[..|ls|] == ls;
    InvRun(c, ls);
    TriedRun(c, ls);
    AcknowledgesMeaning(c, Run(c, ls), a);
  }

  /** After the delay, a pump still open sends the same batch again, the one it sent last. */
  lemma WokenSendsAgain(c: Config, ls: seq<Label>)
    requires Enabled(Run(c, ls), Woken) && Open(Run(c, ls))
    ensures var s, t := Run(c, ls), Run(c, ls + [Woken]);
            && s.sends != [] && t.sends == s.sends + [s.sends[|s.sends| - 1]]
            && t.phase == Sending && t.active == s.active && Active(t) == s.sends[|s.sends| - 1]
  {
    assert (ls + [Woken])[..|ls|] == ls;
    InvRun(c, ls);
    TriedRun(c, ls);
    NextTry(c, Run(c, ls));
  }

  /** After an acknowledgement, a pump still open sends the next batch off the front of its queue at once. */
  lemma AcknowledgedSendsOn(c: Config, ls: seq<Label>, a: Answer, canRetry: bool)
    requires Enabled(Run(c, ls), Answered(a, canRetry)) && !Unacknowledged(c, Run(c, ls), a)
    requires Open(Run(c, ls)) && Run(c, ls).queue != []
    ensures var s, t := Run(c, ls), Run(c, ls + [Answered(a, canRetry)]);
            t.acked == s.acked + Active(s) && SentNext(s.(acked := t.acked), t)
  {
    assert (ls + [Answered(a, canRetry)])[..|ls|] == ls;
    InvRun(c, ls);
    TriedRun(c, ls);
    SettledSendsOn(c, Run(c, ls), a, canRetry);
  }
}
