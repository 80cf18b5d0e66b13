/** `_idempotent` cut at its awaits, over the shared table and the open transactions. A valid table has
    at most one committed effect per key, the one that every success under the key was told of. */
module AdminService {
  import opened Wrappers
  import opened Idempotency

  class GatewayAdminService {
    const fingerprint: Hasher
    var txs: map<TxId, Tx>
    var records: map<Slot, Record>
    ghost var log: seq<Commit>

    ghost function View(): State
      reads this
    {
      State(txs, records, log)
    }

    ghost predicate Valid()
      reads this
    {
      Inv(fingerprint, View())
    }

    constructor (fingerprint: Hasher)
      ensures Valid() && View() == Init && this.fingerprint == fingerprint
    {
      this.fingerprint := fingerprint;
      txs, records, log := map[], map[], [];
    }

    method MoveTo(t: TxId, phase: Phase)
      requires t in txs
      modifies this`txs
      ensures View() == Moved(old(View()), t, phase)
    {
      txs := txs[t := txs[t].(phase := phase)];
    }

    /** The locking select: replay, refuse, or go on to produce. */
    method SelectExisting(t: TxId)
      requires Enabled(View(), Select(t))
      modifies this`txs
      ensures View() == Step(fingerprint, old(View()), Select(t))
    {
      var tx := txs[t];
      if tx.slot !in records { MoveTo(t, Absent); return; }
      var existing := records[tx.slot];
      if existing.requestHash != fingerprint(tx.request) { MoveTo(t, Replied(Conflict)); return; }
      MoveTo(t, Replied(Success(existing.response)));
    }

    /** `produce`, and the record added to the session. */
    method ProduceAndAdd(t: TxId, product: Product)
      requires Enabled(View(), Produce(t, product))
      modifies this`txs
      ensures View() == Step(fingerprint, old(View()), Produce(t, product))
    {
      MoveTo(t, Produced(product));
    }

    /** The flush: it holds the unique key, or an integrity error rolls the transaction back. */
    method FlushRecord(t: TxId, otherViolation: bool)
      requires Enabled(View(), Flush(t, otherViolation))
      modifies this`txs
      ensures View() == Step(fingerprint, old(View()), Flush(t, otherViolation))
    {
      if txs[t].slot in records || otherViolation { MoveTo(t, RolledBack); } else { MoveTo(t, Flushed(txs[t].phase.product)); }
    }

    /** After the rollback: the winner's response if it answers the same request. */
    method ReadWinningRecord(t: TxId)
      requires Enabled(View(), ReadWinner(t))
      modifies this`txs
      ensures View() == Step(fingerprint, old(View()), ReadWinner(t))
    {
      var tx := txs[t];
      if tx.slot in records && records[tx.slot].requestHash == fingerprint(tx.request) {
        MoveTo(t, Replied(Success(records[tx.slot].response)));
      } else {
        MoveTo(t, Replied(Conflict));
      }
    }

    /** The router's commit makes the business write and the record durable together. */
    method CommitAll(t: TxId)
      requires Enabled(View(), CommitTx(t))
      modifies this
      ensures View() == Step(fingerprint, old(View()), CommitTx(t))
    {
      var tx := txs[t];
      var product := tx.phase.product;
      records := records[tx.slot := Record(fingerprint(tx.request), product.response)];
      log := log + [Idempotency.Commit(t, tx.slot, product.effect)];
      MoveTo(t, Replied(Success(product.response)));
    }

    /** Whatever a transaction does next keeps the table valid: a record and an effect are only added,
        together, and by the commit of a transaction that is told of it. */
    method Turn(l: Label)
      requires Valid() && Enabled(View(), l)
      modifies this
      ensures Valid() && View() == Step(fingerprint, old(View()), l)
      ensures old(log) <= log && (log != old(log) <==> l.CommitTx?)
      ensures forall slot :: slot in old(records) ==> slot in records && records[slot] == old(records)[slot]
      ensures forall i, j :: 0 <= i < j < |log| ==> log[i].slot != log[j].slot
      ensures (l.Select? || l.ReadWinner?) && old(txs)[l.t].slot in old(records) ==>
                var r := old(records)[old(txs)[l.t].slot];
                txs[l.t].phase == Replied(if r.requestHash == fingerprint(old(txs)[l.t].request) then Success(r.response) else Conflict)
      ensures l.CommitTx? ==> log == old(log) + [Idempotency.Commit(l.t, old(txs)[l.t].slot, old(txs)[l.t].phase.product.effect)]
      ensures l.CommitTx? ==> txs[l.t].phase == Replied(Success(old(txs)[l.t].phase.product.response))
    {
      InvStep(fingerprint, View(), l);
      if l.CommitTx? { assert TxOk(fingerprint, View(), l.t); }
      match l {
        case Begin(t, slot, request) => txs := txs[t := Tx(slot, request, Begun)];
        case Select(t) => SelectExisting(t);
        case Produce(t, product) => ProduceAndAdd(t, product);
        case Flush(t, otherViolation) => FlushRecord(t, otherViolation);
        case ReadWinner(t) => ReadWinningRecord(t);
        case CommitTx(t) => CommitAll(t);
        case Abort(t) => MoveTo(t, Replied(Failed));
      }
    }
  }
}
