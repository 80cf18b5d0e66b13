/** The order in which the gate grants slots to waiting calls.

    The queue of the gate is always the history of queued calls without those that have gone (`Pending`):
    granted or expired. So the waiter that a release picks, the first one for its server, comes after
    nobody of that server who still waits; everybody queued before it has been granted, and is in
    the history of grants already, or has expired (`InOrder`).

    Joining, granting and expiring keep this relation between queue and histories (`JoinFifo`,
    `GrantFifo`, `ExpireFifo`), hence so does every step (`OrderlyStep`). That a call is queued once and
    that the picked waiter is the one whose hook goes on is taken from the invariant of the hooks. */
module GrantOrder {
  import opened Wrappers
  import opened DispatchGate
  import opened AccountingHooks
  import opened AccountingInvariant

  /** The queued calls that have not gone yet, in the order in which they came. */
  function Pending(queued: seq<Waiter>, gone: set<CallId>): seq<Waiter> {
    if queued == [] then []
    else Pending(queued[..|queued| - 1], gone) + (if queued[|queued| - 1].id in gone then [] else [queued[|queued| - 1]])
  }

  function Ids(xs: seq<CallId>): set<CallId> { set x | x in xs }

  predicate Before(xs: seq<CallId>, a: CallId, b: CallId) { exists p, q :: 0 <= p < q < |xs| && xs[p] == a && xs[q] == b }

  predicate InOrder(queued: seq<Waiter>, grants: seq<CallId>, expired: set<CallId>) {
    forall i, j :: 0 <= i < j < |queued| && queued[i].server == queued[j].server && queued[j].id in grants ==>
      queued[i].id in expired || Before(grants, queued[i].id, queued[j].id)
  }

  predicate Fifo(ws: seq<Waiter>, queued: seq<Waiter>, grants: seq<CallId>, expired: set<CallId>) {
    && Distinct(queued)
    && ws == Pending(queued, Ids(grants) + expired)
    && InOrder(queued, grants, expired)
  }

  lemma {:induction false} PendingFacts(queued: seq<Waiter>, gone: set<CallId>)
    ensures forall w :: w in Pending(queued, gone) <==> w in queued && w.id !in gone
  {
    if queued != [] {
      var head, last := queued[..|queued| - 1], queued[|queued| - 1];
      PendingFacts(head, gone);
      assert queued == head + [last];
    }
  }

  lemma {:induction false} PendingSame(queued: seq<Waiter>, gone: set<CallId>, more: set<CallId>)
    requires forall w :: w in queued ==> (w.id in gone <==> w.id in more)
    ensures Pending(queued, gone) == Pending(queued, more)
  {
    if queued != [] {
      assert queued[|queued| - 1] in queued;
      PendingSame(queued[..|queued| - 1], gone, more);
    }
  }

  /** Taking the `i`-th waiter out is the same as letting its call go. Everybody that came before it
      and is still waiting is ahead of it. */
  lemma {:induction false} PendingWithout(queued: seq<Waiter>, gone: set<CallId>, i: nat) returns (j: nat)
    requires Distinct(queued) && i < |Pending(queued, gone)|
    ensures Without(Pending(queued, gone), i) == Pending(queued, gone + {Pending(queued, gone)[i].id})
    ensures j < |queued| && queued[j] == Pending(queued, gone)[i]
    ensures forall k :: 0 <= k < j && queued[k].id !in gone ==> queued[k] in Pending(queued, gone)[..i]
  {
    var head, last := queued[..|queued| - 1], queued[|queued| - 1];
    var ps := Pending(head, gone);
    if i < |ps| {
      j := PendingWithout(head, gone, i);
      assert Pending(queued, gone)[..i] == ps[..i];
      assert last.id != head[j].id;
      if last.id !in gone { assert Without(ps + [last], i) == Without(ps, i) + [last]; }
    } else {
      j := |queued| - 1;
      LastGoes(queued, gone);
      PendingFacts(head, gone);
      assert Pending(queued, gone)[..i] == ps;
    }
  }

  lemma LastGoes(queued: seq<Waiter>, gone: set<CallId>)
    requires Distinct(queued) && queued != [] && queued[|queued| - 1].id !in gone
    ensures var ps := Pending(queued, gone);
            && ps != [] && ps[|ps| - 1] == queued[|queued| - 1]
            && Without(ps, |ps| - 1) == Pending(queued, gone + {queued[|queued| - 1].id})
  {
    var head, last := queued[..|queued| - 1], queued[|queued| - 1];
    forall w | w in head ensures w.id in gone <==> w.id in gone + {last.id} {
      var k :| 0 <= k < |head| && head[k] == w;
      assert queued[k].id != last.id;
    }
    PendingSame(head, gone, gone + {last.id});
    assert Without(Pending(head, gone) + [last], |Pending(head, gone)|) == Pending(head, gone);
  }

  lemma JoinFifo(ws: seq<Waiter>, queued: seq<Waiter>, grants: seq<CallId>, expired: set<CallId>, w: Waiter)
    requires Fifo(ws, queued, grants, expired)
    requires (forall x :: x in queued ==> x.id != w.id) && w.id !in grants && w.id !in expired
    ensures Fifo(ws + [w], queued + [w], grants, expired)
  {
    assert (queued + [w])[..|queued + [w]| - 1] == queued;
  }

  lemma GrantFifo(ws: seq<Waiter>, queued: seq<Waiter>, grants: seq<CallId>, expired: set<CallId>, server: Server)
    requires Fifo(ws, queued, grants, expired) && FirstFor(ws, server) < |ws|
    ensures var i := FirstFor(ws, server); Fifo(Without(ws, i), queued, grants + [ws[i].id], expired)
  {
    var i := FirstFor(ws, server);
    var gone := Ids(grants) + expired;
    var j := PendingWithout(queued, gone, i);
    var id, after := ws[i].id, grants + [ws[i].id];
    assert Ids(after) + expired == gone + {id} by { assert forall x :: x in after <==> x in grants || x == id; }
    forall a, b | 0 <= a < b < |queued| && queued[a].server == queued[b].server && queued[b].id in after
      ensures queued[a].id in expired || Before(after, queued[a].id, queued[b].id)
    {
      if queued[b].id == id {
        assert b == j;
        assert queued[a].id in gone;
        if queued[a].id in grants {
          var p :| 0 <= p < |grants| && grants[p] == queued[a].id;
          assert after[p] == queued[a].id && after[|grants|] == id;
        }
      } else if queued[a].id !in expired {
        var p, q :| 0 <= p < q < |grants| && grants[p] == queued[a].id && grants[q] == queued[b].id;
        assert after[p] == queued[a].id && after[q] == queued[b].id;
      }
    }
  }

  lemma ExpireFifo(ws: seq<Waiter>, queued: seq<Waiter>, grants: seq<CallId>, expired: set<CallId>, id: CallId)
    requires Fifo(ws, queued, grants, expired) && IndexOf(ws, id) < |ws|
    ensures Fifo(Without(ws, IndexOf(ws, id)), queued, grants, expired + {id})
  {
    var j := PendingWithout(queued, Ids(grants) + expired, IndexOf(ws, id));
    assert Ids(grants) + (expired + {id}) == Ids(grants) + expired + {id};
  }

  /** The queue of the gate and the history of grants, in a state. */
  predicate Orderly(s: State) {
    && Fifo(s.gate.waiters, s.queued, s.grants, s.expired)
    && (forall w :: w in s.queued ==> w.id in s.calls)
    && (forall id :: id in s.grants ==> id in s.calls) && (forall id :: id in s.expired ==> id in s.calls)
  }

  lemma ReleaseOrderly(s: State, id: CallId, server: Server)
    requires Orderly(s)
    ensures Orderly(ReleaseSlot(s, id, server))
  {
    var i := FirstFor(s.gate.waiters, server);
    if i < |s.gate.waiters| {
      GrantFifo(s.gate.waiters, s.queued, s.grants, s.expired, server);
      PendingFacts(s.queued, Ids(s.grants) + s.expired);
      assert s.gate.waiters[i] in s.gate.waiters;
    }
  }

  lemma CallOrderly(limit: nat, s: State, id: CallId, server: Server, free: bool)
    requires Orderly(s) && id !in s.calls
    ensures Orderly(Call(limit, s, id, server, free))
  {
    if !free && !Acquire(limit, s.gate, id, server).1 {
      JoinFifo(s.gate.waiters, s.queued, s.grants, s.expired, Waiter(id, server));
    }
  }

  lemma WaitEndsOrderly(limit: nat, s: State, id: CallId)
    requires Inv(limit, s) && Orderly(s) && id in s.calls && s.calls[id].Queued?
    ensures Orderly(WaitEnds(s, id))
  {
    assert CallOk(s, id);
    ExpireFifo(s.gate.waiters, s.queued, s.grants, s.expired, id);
  }

  lemma DecidedOrderly(s: State, id: CallId, d: Decision)
    requires Orderly(s) && id in s.calls && s.calls[id].Preflight?
    ensures Orderly(Decided(s, id, d))
  {
    if d != Permit && s.calls[id].gated {
      ReleaseOrderly(s.(calls := s.calls[id := Closed]), id, s.calls[id].server);
    }
  }

  lemma SettledOrderly(s: State, id: CallId, ok: bool)
    requires Orderly(s) && id in s.calls && s.calls[id].Settling?
    ensures Orderly(Settled(s, id, ok))
  {
    if (ok || s.calls[id].last) && s.calls[id].slot.Some? {
      var t := s.(calls := s.calls[id := Closed]);
      var u := if ok then t.(permits := t.permits - {id}, acked := t.acked + {id}) else t;
      ReleaseOrderly(u.(slotServers := u.slotServers - {id}), id, s.calls[id].slot.value);
    }
  }

  lemma WatchdogOrderly(s: State, id: CallId)
    requires Orderly(s)
    ensures Orderly(WatchdogFires(s, id))
  {
    if id in s.slotServers {
      ReleaseOrderly(s.(watchdogs := s.watchdogs - {id}, slotServers := s.slotServers - {id}), id, s.slotServers[id]);
    }
  }

  lemma OrderlyStep(limit: nat, s: State, l: Label)
    requires Inv(limit, s) && Orderly(s) && Enabled(s, l)
    ensures Orderly(Step(limit, s, l))
  {
    match l
    case Calls(id, server, free) => CallOrderly(limit, s, id, server, free);
    case Expires(id) => WaitEndsOrderly(limit, s, id);
    case Decides(id, d) => DecidedOrderly(s, id, d);
    case Result(id) =>
    case Settles(id, ok) => SettledOrderly(s, id, ok);
    case Watchdog(id) => WatchdogOrderly(s, id);
  }

  lemma OrderlyNext(limit: nat, s: State, t: State)
    requires Inv(limit, s) && Orderly(s) && Next(limit, s, t)
    ensures Orderly(t)
  {
    var l :| Enabled(s, l) && t == Step(limit, s, l);
    OrderlyStep(limit, s, l);
  }

  lemma {:induction false} OrderlyRun(limit: nat, ss: seq<State>, n: nat)
    requires IsRun(limit, ss) && n < |ss|
    ensures forall i :: 0 <= i <= n ==> Orderly(ss[i])
  {
    if n > 0 {
      OrderlyRun(limit, ss, n - 1);
      InvRun(limit, ss, n - 1);
      assert StepAt(limit, ss, n - 1);
      OrderlyNext(limit, ss[n - 1], ss[n]);
    }
  }
}
