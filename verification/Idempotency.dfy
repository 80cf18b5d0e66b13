/** Durable idempotency of admin writes: any number of transactions that run `_idempotent`,
    interleaved at its awaits, over one table with a unique constraint on actor, action and key. */
module Idempotency {
  import opened Wrappers

  type TxId = nat
  type Request = string
  type Hash = string
  type Hasher = Request -> Hash

  ghost predicate CollisionFree(h: Hasher) { forall x, y :: h(x) == h(y) ==> x == y }

  datatype Slot = Slot(actor: string, action: string, key: string)

  /** A business write and the projection that is stored for replays. */
  datatype Product = Product(effect: string, response: string)
  datatype Record = Record(requestHash: Hash, response: string)

  datatype Outcome = Success(response: string) | Conflict | Failed

  datatype Phase =
    | Begun                            // before the locking select
    | Absent                           // no record was found; producing
    | Produced(product: Product)       // written in this transaction, record not yet flushed
    | Flushed(product: Product)        // the record is in this transaction, its unique key is held
    | RolledBack                       // an integrity error undid everything; before reading the winner
    | Replied(outcome: Outcome)

  datatype Tx = Tx(slot: Slot, request: Request, phase: Phase)

  datatype Commit = Commit(tx: TxId, slot: Slot, effect: string)

  datatype State = State(txs: map<TxId, Tx>, records: map<Slot, Record>, log: seq<Commit>)

  const Init := State(map[], map[], [])

  function Moved(s: State, t: TxId, phase: Phase): State
    requires t in s.txs
  {
    s.(txs := s.txs[t := s.txs[t].(phase := phase)])
  }

  /** What a found record means for a request. */
  function Judge(h: Hasher, r: Record, request: Request): Outcome {
    if r.requestHash == h(request) then Success(r.response) else Conflict
  }

  /** The select, under lock or after the rollback; `Absent` is what its absence leads to. */
  function Look(h: Hasher, s: State, t: TxId, absent: Phase): State
    requires t in s.txs
  {
    var tx := s.txs[t];
    Moved(s, t, if tx.slot in s.records then Replied(Judge(h, s.records[tx.slot], tx.request)) else absent)
  }

  datatype Label =
    | Begin(t: TxId, slot: Slot, request: Request)
    | Select(t: TxId)
    | Produce(t: TxId, product: Product)
    | Flush(t: TxId, otherViolation: bool)
    | ReadWinner(t: TxId)
    | CommitTx(t: TxId)
    | Abort(t: TxId)

  /** Another open transaction holds the unique key of this slot. */
  predicate KeyHeld(s: State, t: TxId)
    requires t in s.txs
  {
    exists u :: u in s.txs && u != t && s.txs[u].slot == s.txs[t].slot && s.txs[u].phase.Flushed?
  }

  predicate Enabled(s: State, l: Label) {
    match l
    case Begin(t, _, _) => t !in s.txs
    case Select(t) => t in s.txs && s.txs[t].phase.Begun?
    case Produce(t, _) => t in s.txs && s.txs[t].phase.Absent?
    case Flush(t, _) => t in s.txs && s.txs[t].phase.Produced? && !KeyHeld(s, t)    // a flush waits for the key
    case ReadWinner(t) => t in s.txs && s.txs[t].phase.RolledBack?
    case CommitTx(t) => t in s.txs && s.txs[t].phase.Flushed?
    case Abort(t) => t in s.txs && !s.txs[t].phase.Replied?
  }

  function Step(h: Hasher, s: State, l: Label): State
    requires Enabled(s, l)
  {
    match l
    case Begin(t, slot, request) => s.(txs := s.txs[t := Tx(slot, request, Begun)])
    case Select(t) => Look(h, s, t, Absent)
    case Produce(t, product) => Moved(s, t, Produced(product))
    case Flush(t, otherViolation) =>
      if s.txs[t].slot in s.records || otherViolation then Moved(s, t, RolledBack)
      else Moved(s, t, Flushed(s.txs[t].phase.product))
    case ReadWinner(t) => Look(h, s, t, Replied(Conflict))
    case CommitTx(t) =>
      var tx := s.txs[t];
      Moved(s, t, Replied(Success(tx.phase.product.response)))
        .(records := s.records[tx.slot := Record(h(tx.request), tx.phase.product.response)],
          log := s.log + [Commit(t, tx.slot, tx.phase.product.effect)])
    case Abort(t) => Moved(s, t, Replied(Failed))
  }

  function Run(h: Hasher, ls: seq<Label>): State {
    if ls == [] then Init
    else
      var s := Run(h, ls[..|ls| - 1]);
      if Enabled(s, ls[|ls| - 1]) then Step(h, s, ls[|ls| - 1]) else s
  }

  // ---------------------------------------------------------------- the invariant

  /** What holds for one transaction. */
  predicate TxOk(h: Hasher, s: State, t: TxId) {
    t in s.txs ==>
      var tx := s.txs[t];
      && (tx.phase.Flushed? ==> tx.slot !in s.records && !KeyHeld(s, t))
      && (tx.phase.Replied? && tx.phase.outcome.Success? ==>
            tx.slot in s.records && s.records[tx.slot] == Record(h(tx.request), tx.phase.outcome.response))
  }

  /** Every record stands for a committed effect. */
  predicate Justified(log: seq<Commit>, slot: Slot) { exists i :: 0 <= i < |log| && log[i].slot == slot }

  predicate LogOk(s: State) {
    && (forall i :: 0 <= i < |s.log| ==>
          && s.log[i].slot in s.records
          && s.log[i].tx in s.txs && s.txs[s.log[i].tx].slot == s.log[i].slot
          && s.txs[s.log[i].tx].phase == Replied(Success(s.records[s.log[i].slot].response)))
    && (forall i, j :: 0 <= i < j < |s.log| ==> s.log[i].slot != s.log[j].slot)
    && (forall slot :: slot in s.records ==> Justified(s.log, slot))
  }

  ghost predicate Inv(h: Hasher, s: State) { LogOk(s) && forall t: TxId :: TxOk(h, s, t) }

  /** A key can become held for `u` only by `t` flushing a record for the same slot. */
  lemma KeyAfterMove(s: State, t: TxId, phase: Phase, u: TxId)
    requires t in s.txs && u in s.txs
    ensures KeyHeld(Moved(s, t, phase), u) ==> KeyHeld(s, u) || (u != t && phase.Flushed? && s.txs[u].slot == s.txs[t].slot)
  {
  }

  /** A transaction that moves without committing: no table changes, no reply is taken back. */
  lemma MovedKeeps(h: Hasher, s: State, t: TxId, phase: Phase)
    requires Inv(h, s) && t in s.txs && !s.txs[t].phase.Replied?
    requires phase.Flushed? ==> s.txs[t].slot !in s.records && !KeyHeld(s, t)
    requires phase.Replied? && phase.outcome.Success? ==>
               s.txs[t].slot in s.records && s.records[s.txs[t].slot] == Record(h(s.txs[t].request), phase.outcome.response)
    ensures Inv(h, Moved(s, t, phase))
  {
    var m := Moved(s, t, phase);
    forall u: TxId ensures TxOk(h, m, u) {
      assert TxOk(h, s, u);
      if u in s.txs { KeyAfterMove(s, t, phase, u); }
    }
  }

  lemma LookKeeps(h: Hasher, s: State, t: TxId, absent: Phase)
    requires Inv(h, s) && t in s.txs && !s.txs[t].phase.Replied?
    requires absent == Absent || absent == Replied(Conflict)
    ensures Inv(h, Look(h, s, t, absent))
  {
    var tx := s.txs[t];
    MovedKeeps(h, s, t, if tx.slot in s.records then Replied(Judge(h, s.records[tx.slot], tx.request)) else absent);
  }

  lemma CommitKeeps(h: Hasher, s: State, t: TxId)
    requires Inv(h, s) && t in s.txs && s.txs[t].phase.Flushed?
    ensures Inv(h, Step(h, s, CommitTx(t)))
  {
    var tx, m := s.txs[t], Step(h, s, CommitTx(t));
    assert TxOk(h, s, t);
    forall u: TxId ensures TxOk(h, m, u) {
      assert TxOk(h, s, u);
      if u in m.txs { assert KeyHeld(m, u) ==> KeyHeld(s, u); }
    }
    CommitLog(h, s, t);
  }

  lemma CommitLog(h: Hasher, s: State, t: TxId)
    requires Inv(h, s) && t in s.txs && s.txs[t].phase.Flushed?
    ensures LogOk(Step(h, s, CommitTx(t)))
  {
    var tx, m := s.txs[t], Step(h, s, CommitTx(t));
    assert TxOk(h, s, t);
    var c := Commit(t, tx.slot, tx.phase.product.effect);
    assert m.log == s.log + [c];
    forall slot | slot in m.records ensures Justified(s.log + [c], slot) {
      if slot == tx.slot { assert (s.log + [c])[|s.log|].slot == slot; } else { StaysJustified(s.log, c, slot); }
    }
  }

  lemma StaysJustified(log: seq<Commit>, c: Commit, slot: Slot)
    requires Justified(log, slot)
    ensures Justified(log + [c], slot)
  {
    var i :| 0 <= i < |log| && log[i].slot == slot;
    assert (log + [c])[i].slot == slot;
  }

  lemma BeginKeeps(h: Hasher, s: State, t: TxId, slot: Slot, request: Request)
    requires Inv(h, s) && t !in s.txs
    ensures Inv(h, s.(txs := s.txs[t := Tx(slot, request, Begun)]))
  {
    var m := s.(txs := s.txs[t := Tx(slot, request, Begun)]);
    forall u: TxId ensures TxOk(h, m, u) {
      assert TxOk(h, s, u);
      if u in s.txs { assert KeyHeld(m, u) ==> KeyHeld(s, u); }
    }
  }

  lemma InvStep(h: Hasher, s: State, l: Label)
    requires Inv(h, s) && Enabled(s, l)
    ensures Inv(h, Step(h, s, l))
  {
    match l
    case Begin(t, slot, request) => BeginKeeps(h, s, t, slot, request);
    case Select(t) => LookKeeps(h, s, t, Absent);
    case Produce(t, product) => MovedKeeps(h, s, t, Produced(product));
    case Flush(t, otherViolation) =>
      if s.txs[t].slot in s.records || otherViolation { MovedKeeps(h, s, t, RolledBack); }
      else { MovedKeeps(h, s, t, Flushed(s.txs[t].phase.product)); }
    case ReadWinner(t) => LookKeeps(h, s, t, Replied(Conflict));
    case CommitTx(t) => CommitKeeps(h, s, t);
    case Abort(t) => MovedKeeps(h, s, t, Replied(Failed));
  }

  lemma {:induction false} InvRun(h: Hasher, ls: seq<Label>)
    ensures Inv(h, Run(h, ls))
  {
    if ls != [] {
      InvRun(h, ls[..|ls| - 1]);
      var s := Run(h, ls[..|ls| - 1]);
      if Enabled(s, ls[|ls| - 1]) { InvStep(h, s, ls[|ls| - 1]); }
    }
  }

  // ---------------------------------------------------------------- what it guarantees

  predicate Succeeded(s: State, t: TxId) { t in s.txs && s.txs[t].phase.Replied? && s.txs[t].phase.outcome.Success? }

  /** One committed effect at most per actor, action and key; and it belongs to a transaction that
      was told so. */
  lemma OneEffect(h: Hasher, ls: seq<Label>, i: nat, j: nat)
    requires i < |Run(h, ls).log| && j < |Run(h, ls).log| && Run(h, ls).log[i].slot == Run(h, ls).log[j].slot
    ensures i == j && Succeeded(Run(h, ls), Run(h, ls).log[i].tx)
  {
    InvRun(h, ls);
  }

  /** All successful replies under one key are the same response to the same request, and behind
      them stands exactly that one committed effect. A different request never succeeds. */
  lemma SuccessesAgree(h: Hasher, ls: seq<Label>, t: TxId, u: TxId)
    requires CollisionFree(h)
    requires Succeeded(Run(h, ls), t) && Succeeded(Run(h, ls), u)
    requires Run(h, ls).txs[t].slot == Run(h, ls).txs[u].slot
    ensures var s := Run(h, ls);
            && s.txs[t].phase == s.txs[u].phase
            && s.txs[t].request == s.txs[u].request
            && Justified(s.log, s.txs[t].slot)
  {
    InvRun(h, ls);
    var s := Run(h, ls);
    assert TxOk(h, s, t) && TxOk(h, s, u);
    assert h(s.txs[t].request) == h(s.txs[u].request);
  }

  // ---------------------------------------------------------------- replies

  /** A record for the request of `t` is under its slot. */
  predicate Answered(h: Hasher, s: State, t: TxId)
    requires t in s.txs
  {
    s.txs[t].slot in s.records && s.records[s.txs[t].slot].requestHash == h(s.txs[t].request)
  }

  /** The reasons for a reply. */
  predicate RepliesWith(h: Hasher, s: State, l: Label, t: TxId, o: Outcome)
    requires t in s.txs
  {
    match o
    case Success(response) =>
      || ((l == Select(t) || l == ReadWinner(t)) && Answered(h, s, t) && s.records[s.txs[t].slot].response == response)
      || (l == CommitTx(t) && s.txs[t].phase.Flushed? && s.txs[t].phase.product.response == response)
    case Conflict => (l == Select(t) && OtherHolds(h, s, t)) || (l == ReadWinner(t) && !Answered(h, s, t))
    case Failed => l == Abort(t)
  }

  predicate Replies(s: State, t: TxId, o: Outcome) { t in s.txs && s.txs[t].phase == Replied(o) }

  /** Every reply has its reason, and every reason its reply: a transaction that looks while a record of its
      request is under its key succeeds with the stored response, whether it looks first or after losing
      a race; it succeeds with its own response exactly by its commit; it fails only by its own abort. */
  lemma RepliesExactlyWhen(h: Hasher, ls: seq<Label>, l: Label, t: TxId, o: Outcome)
    requires Enabled(Run(h, ls), l) && t in Run(h, ls).txs && !Run(h, ls).txs[t].phase.Replied?
    ensures Replies(Step(h, Run(h, ls), l), t, o) <==> RepliesWith(h, Run(h, ls), l, t, o)
  {
    InvRun(h, ls);
    assert TxOk(h, Run(h, ls), t);
  }

  /** A request that has been committed is answered with the committed response by every later transaction
      that looks, and it has the same effect only once. */
  lemma ReplaySucceeds(h: Hasher, ls: seq<Label>, l: Label, t: TxId, u: TxId)
    requires Enabled(Run(h, ls), l) && (l == Select(t) || l == ReadWinner(t))
    requires Succeeded(Run(h, ls), u)
    requires Run(h, ls).txs[u].slot == Run(h, ls).txs[t].slot && Run(h, ls).txs[u].request == Run(h, ls).txs[t].request
    ensures var m := Step(h, Run(h, ls), l);
            m.txs[t].phase == m.txs[u].phase && m.records == Run(h, ls).records && m.log == Run(h, ls).log
  {
    InvRun(h, ls);
    assert TxOk(h, Run(h, ls), u);
  }

  /** A new request whose key is free goes through: its effect is committed, with its response on record. */
  lemma NewRequestSucceeds(h: Hasher, ls: seq<Label>, t: TxId, product: Product) returns (more: seq<Label>)
    requires t in Run(h, ls).txs && Run(h, ls).txs[t].phase == Begun
    requires Run(h, ls).txs[t].slot !in Run(h, ls).records && !KeyHeld(Run(h, ls), t)
    ensures var s, m := Run(h, ls), Run(h, more);
            && ls <= more && Replies(m, t, Success(product.response))
            && m.log == s.log + [Commit(t, s.txs[t].slot, product.effect)]
            && m.records == s.records[s.txs[t].slot := Record(h(s.txs[t].request), product.response)]
  {
    var s := Run(h, ls);
    var s1, s2, s3 := Moved(s, t, Absent), Moved(s, t, Produced(product)), Moved(s, t, Flushed(product));
    NotHeld(s, t, Produced(product));
    assert Moved(s1, t, Produced(product)) == s2 && Moved(s2, t, Flushed(product)) == s3;
    OneMore(h, ls, Select(t), s, s1);
    OneMore(h, ls + [Select(t)], Produce(t, product), s1, s2);
    OneMore(h, ls + [Select(t)] + [Produce(t, product)], Flush(t, false), s2, s3);
    more := ls + [Select(t)] + [Produce(t, product)] + [Flush(t, false)] + [CommitTx(t)];
    OneMore(h, ls + [Select(t)] + [Produce(t, product)] + [Flush(t, false)], CommitTx(t), s3, Step(h, s3, CommitTx(t)));
  }

  lemma NotHeld(s: State, t: TxId, phase: Phase)
    requires t in s.txs && !KeyHeld(s, t)
    ensures !KeyHeld(Moved(s, t, phase), t)
  {
    KeyAfterMove(s, t, phase, t);
  }

  // ---------------------------------------------------------------- conflicts

  /** The flush of `t`, at this point of the run, fails for a reason other than its key. */
  predicate OtherViolationAt(h: Hasher, ls: seq<Label>, t: TxId, j: nat)
    requires j < |ls|
  {
    ls[j] == Flush(t, true) && Enabled(Run(h, ls[..j]), ls[j])
  }

  predicate FlushViolates(h: Hasher, ls: seq<Label>, t: TxId) { exists j :: 0 <= j < |ls| && OtherViolationAt(h, ls, t, j) }

  /** Another request's record is under the slot of `t`. */
  predicate OtherHolds(h: Hasher, s: State, t: TxId)
    requires t in s.txs
  {
    s.txs[t].slot in s.records && s.records[s.txs[t].slot].requestHash != h(s.txs[t].request)
  }

  /** What a conflict, or being about to read the winner, means as long as the flush of `t` fails for no
      reason of its own. */
  predicate ConflictOk(h: Hasher, s: State, t: TxId) {
    t in s.txs ==>
      && (s.txs[t].phase == RolledBack ==> s.txs[t].slot in s.records)
      && (s.txs[t].phase == Replied(Conflict) ==> OtherHolds(h, s, t))
  }

  lemma ConflictStep(h: Hasher, s: State, l: Label, t: TxId)
    requires Inv(h, s) && Enabled(s, l) && l != Flush(t, true) && ConflictOk(h, s, t)
    ensures ConflictOk(h, Step(h, s, l), t)
  {
    if l.CommitTx? { assert TxOk(h, s, l.t); }
  }

  lemma ViolatesEarlier(h: Hasher, ls: seq<Label>, t: TxId, n: nat)
    requires n <= |ls| && FlushViolates(h, ls[..n], t)
    ensures FlushViolates(h, ls, t)
  {
    var j :| 0 <= j < n && OtherViolationAt(h, ls[..n], t, j);
    assert ls[..n][..j] == ls[..j];
    assert OtherViolationAt(h, ls, t, j);
  }

  lemma {:induction false} ConflictRun(h: Hasher, ls: seq<Label>, t: TxId)
    requires !FlushViolates(h, ls, t)
    ensures ConflictOk(h, Run(h, ls), t)
  {
    if ls != [] {
      var n := |ls| - 1;
      if FlushViolates(h, ls[..n], t) { ViolatesEarlier(h, ls, t, n); }
      ConflictRun(h, ls[..n], t);
      InvRun(h, ls[..n]);
      var s := Run(h, ls[..n]);
      assert !OtherViolationAt(h, ls, t, n);
      if Enabled(s, ls[n]) { ConflictStep(h, s, ls[n], t); }
    }
  }

  /** As documented, a conflict means that another request holds the key, for every transaction whose
      own flush violated no other constraint. */
  lemma ConflictMeansOtherRequest(h: Hasher, ls: seq<Label>, t: TxId)
    requires !FlushViolates(h, ls, t)
    requires t in Run(h, ls).txs && Run(h, ls).txs[t].phase == Replied(Conflict)
    ensures OtherHolds(h, Run(h, ls), t)
  {
    ConflictRun(h, ls, t);
  }

  /** The step that reads a record, or its absence, and answers `t` with a conflict. */
  predicate AnswersConflict(h: Hasher, s: State, l: Label, t: TxId) {
    && (l == Select(t) || l == ReadWinner(t)) && Enabled(s, l)
    && var m := Step(h, s, l);
       t in m.txs && m.txs[t].phase == Replied(Conflict)
  }

  /** A conflict is groundless, that is, no other request's record is under the key when it is
      decided, if and only if the transaction's own flush violated another constraint and no record
      was there when it looked for the winner. */
  lemma GroundlessConflictExactlyWhen(h: Hasher, ls: seq<Label>, i: nat, t: TxId)
    requires i < |ls| && AnswersConflict(h, Run(h, ls[..i]), ls[i], t)
    ensures var s := Run(h, ls[..i]);
            !OtherHolds(h, s, t) <==>
              FlushViolates(h, ls[..i], t) && ls[i] == ReadWinner(t) && s.txs[t].slot !in s.records
  {
    if !FlushViolates(h, ls[..i], t) { ConflictRun(h, ls[..i], t); }
  }

  /** Otherwise a lone transaction is told of a conflict although no record exists at all. */
  lemma OtherViolationConflicts(h: Hasher, slot: Slot, request: Request, product: Product)
    ensures var s := Run(h, [Begin(0, slot, request), Select(0), Produce(0, product), Flush(0, true), ReadWinner(0)]);
            s.txs == map[0 := Tx(slot, request, Replied(Conflict))] && s.records == map[]
  {
    var l0, l1, l2, l3, l4 := Begin(0, slot, request), Select(0), Produce(0, product), Flush(0, true), ReadWinner(0);
    var k1 := [] + [l0];
    OneMore(h, [], l0, Init, Alone(slot, request, Begun));
    OneMore(h, k1, l1, Alone(slot, request, Begun), Alone(slot, request, Absent));
    OneMore(h, k1 + [l1], l2, Alone(slot, request, Absent), Alone(slot, request, Produced(product)));
    OneMore(h, k1 + [l1] + [l2], l3, Alone(slot, request, Produced(product)), Alone(slot, request, RolledBack));
    OneMore(h, k1 + [l1] + [l2] + [l3], l4, Alone(slot, request, RolledBack), Alone(slot, request, Replied(Conflict)));
    assert k1 + [l1] + [l2] + [l3] + [l4] == [l0, l1, l2, l3, l4];
  }

  function Alone(slot: Slot, request: Request, phase: Phase): State { State(map[0 := Tx(slot, request, phase)], map[], []) }

  lemma OneMore(h: Hasher, ls: seq<Label>, l: Label, s: State, t: State)
    requires Run(h, ls) == s && Enabled(s, l) && Step(h, s, l) == t
    ensures Run(h, ls + [l]) == t
  {
    assert (ls + [l])[..|ls + [l]| - 1] == ls;
  }
}
