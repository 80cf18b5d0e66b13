/** What every step of the accounting hooks keeps.

    The gate counts the calls that hold a slot (`GateOk`, in DispatchGate). The hooks know of a slot in
    two places: in the preflight of a granted call, and in the map of recorded holders. `CallOk` says,
    for one call, that this knowledge agrees with who really holds a slot; that a call waits in the
    gate exactly while its hook is queued; and that its slot has been released once if it had one and
    holds it no longer, and never otherwise.

    Most steps touch one call (`OnlyCall`, `OthersOk`). A release touches two: the call that gives its slot
    up and the waiter that is handed it (`GivesUp`, `ReleaseSlotKeeps`). */
module AccountingInvariant {
  import opened Wrappers
  import opened DispatchGate
  import opened AccountingHooks

  /** The slot that a call occupies, or none, as its hooks know it. */
  function SlotOf(s: State, id: CallId): Option<Server> {
    if id in s.slotServers then Some(s.slotServers[id])
    else if id in s.calls && s.calls[id].Preflight? && s.calls[id].gated then Some(s.calls[id].server)
    else None
  }

  function HoldingOf(s: State, id: CallId): Option<Server> { if id in s.holding then Some(s.holding[id]) else None }

  /** What holds for one call. */
  predicate CallOk(s: State, id: CallId) {
    && HoldingOf(s, id) == SlotOf(s, id)
    && (forall w :: w in s.gate.waiters && w.id == id ==> id in s.calls && s.calls[id] == Queued(w.server))
    && (id in s.calls && s.calls[id].Queued? ==> Waiter(id, s.calls[id].server) in s.gate.waiters)
    && (id in s.holding ==> id in s.taken)
    && s.released[id] == (if id in s.taken && id !in s.holding then 1 else 0)
    && (id in s.permits ==> id in s.calls && (s.calls[id].Running? || s.calls[id].Settling? || s.calls[id].Closed?))
    && (id in s.acked ==> id in s.calls && s.calls[id].Closed?)
    && (id in s.slotServers ==> id in s.permits)
    && (id !in s.calls ==> id !in s.watchdogs && id !in s.taken && id !in s.results)
    && (id in s.watchdogs ==> id in s.permits && s.calls[id].Running?)
    && (id in s.calls ==>
          match s.calls[id]
          case Queued(_) => id !in s.slotServers && id !in s.taken
          case Preflight(_, _) => id !in s.slotServers
          case Running => id in s.permits && (id in s.slotServers ==> id in s.watchdogs)
          case Settling(slot, _) =>
            && id in s.permits && id in s.results
            && (if id in s.slotServers then slot == Some(s.slotServers[id]) else slot == None)
          case Closed => id !in s.slotServers && (id in s.permits ==> id in s.results))
  }

  ghost predicate Inv(limit: nat, s: State) {
    && GateOk(limit, s.gate, s.holding)
    && (forall id :: CallOk(s, id))
    && s.permits == s.permitted - s.acked
  }

  // ---------------------------------------------------------------- one step

  /** `id` is about to give its slot up: its hooks have forgotten it already. */
  ghost predicate GivesUp(limit: nat, s: State, id: CallId) {
    && GateOk(limit, s.gate, s.holding)
    && id in s.holding
    && (forall other :: other != id ==> CallOk(s, other))
    && CallOk(s.(holding := s.holding - {id}, released := s.released + multiset{id}), id)
  }

  lemma WaitersHoldNothing(limit: nat, s: State, id: CallId, w: Waiter)
    requires GivesUp(limit, s, id) && w in s.gate.waiters
    ensures w.id != id && w.id !in s.holding && w.id in s.calls && s.calls[w.id] == Queued(w.server)
  {
    var t := s.(holding := s.holding - {id}, released := s.released + multiset{id});
    if w.id != id { assert CallOk(s, w.id); }
  }

  lemma ReleaseSlotKeeps(limit: nat, s: State, id: CallId)
    requires GivesUp(limit, s, id)
    ensures var t := ReleaseSlot(s, id, s.holding[id]);
            GateOk(limit, t.gate, t.holding) && forall other :: CallOk(t, other)
  {
    var server := s.holding[id];
    var t := ReleaseSlot(s, id, server);
    forall w | w in s.gate.waiters ensures w.id !in s.holding { WaitersHoldNothing(limit, s, id, w); }
    ReleaseKeeps(limit, s.gate, s.holding, id);
    var i := FirstFor(s.gate.waiters, server);
    if i < |s.gate.waiters| {
      WithoutFacts(s.gate.waiters, i);
      WaitersHoldNothing(limit, s, id, s.gate.waiters[i]);
      forall other ensures CallOk(t, other) { HandedOverOk(limit, s, id, i, other); }
    } else {
      forall other ensures CallOk(t, other) { GivenBackOk(limit, s, id, other); }
    }
  }

  lemma HandedOverOk(limit: nat, s: State, id: CallId, i: nat, other: CallId)
    requires GivesUp(limit, s, id)
    requires i == FirstFor(s.gate.waiters, s.holding[id]) < |s.gate.waiters|
    ensures CallOk(ReleaseSlot(s, id, s.holding[id]), other)
  {
    var ws := s.gate.waiters;
    var t := ReleaseSlot(s, id, s.holding[id]);
    WithoutFacts(ws, i);
    WaitersHoldNothing(limit, s, id, ws[i]);
    assert t.gate.waiters == Without(ws, i);
    if other == ws[i].id {
      assert CallOk(s, other);
      assert forall w :: w in t.gate.waiters ==> w.id != other;
    } else if other == id {
      assert forall w :: w in t.gate.waiters ==> w in ws;
    } else {
      assert CallOk(s, other);
      assert forall w :: w in ws && w.id == other ==> w in t.gate.waiters;
    }
  }

  lemma GivenBackOk(limit: nat, s: State, id: CallId, other: CallId)
    requires GivesUp(limit, s, id)
    requires FirstFor(s.gate.waiters, s.holding[id]) == |s.gate.waiters|
    ensures CallOk(ReleaseSlot(s, id, s.holding[id]), other)
  {
    if other != id { assert CallOk(s, other); }
  }

  lemma CallKeeps(limit: nat, s: State, id: CallId, server: Server, free: bool)
    requires Inv(limit, s) && id !in s.calls
    ensures Inv(limit, Call(limit, s, id, server, free))
  {
    var t := Call(limit, s, id, server, free);
    assert CallOk(s, id);
    if !free { AcquireKeeps(limit, s.gate, s.holding, id, server); }
    forall other ensures CallOk(t, other) {
      assert CallOk(s, other);
      assert forall w :: w in t.gate.waiters ==> w in s.gate.waiters || w == Waiter(id, server);
    }
  }

  lemma WaitEndsKeeps(limit: nat, s: State, id: CallId)
    requires Inv(limit, s) && id in s.calls && s.calls[id].Queued?
    ensures Inv(limit, WaitEnds(s, id))
  {
    var t, ws := WaitEnds(s, id), s.gate.waiters;
    assert CallOk(s, id);
    ExpireKeeps(limit, s.gate, s.holding, id);
    var i := IndexOf(ws, id);
    assert i < |ws|;
    WithoutFacts(ws, i);
    forall other ensures CallOk(t, other) {
      assert CallOk(s, other);
      assert forall w :: w in t.gate.waiters ==> w in ws && w.id != id;
    }
  }

  /** Only the call `id` changed, and the gate did not. */
  ghost predicate OnlyCall(s: State, t: State, id: CallId) {
    && t.gate == s.gate && t.holding == s.holding && t.acked - {id} == s.acked - {id} && t.taken == s.taken && t.released == s.released
    && (forall other :: other != id ==>
          && (other in t.calls <==> other in s.calls) && (other in s.calls ==> t.calls[other] == s.calls[other])
          && (other in t.permits <==> other in s.permits) && (other in t.watchdogs <==> other in s.watchdogs)
          && (other in t.results <==> other in s.results)
          && (other in t.slotServers <==> other in s.slotServers)
          && (other in s.slotServers ==> t.slotServers[other] == s.slotServers[other]))
  }

  lemma OthersOk(s: State, t: State, id: CallId)
    requires OnlyCall(s, t, id) && forall other :: CallOk(s, other)
    ensures forall other :: other != id ==> CallOk(t, other)
  {
    forall other | other != id ensures CallOk(t, other) {
      assert CallOk(s, other);
      assert other in t.acked <==> other in t.acked - {id};
      assert other in s.acked <==> other in s.acked - {id};
    }
  }

  lemma DecidedKeeps(limit: nat, s: State, id: CallId, d: Decision)
    requires Inv(limit, s) && id in s.calls && s.calls[id].Preflight?
    ensures Inv(limit, Decided(s, id, d))
  {
    assert CallOk(s, id);
    if d == Permit {
      OthersOk(s, Decided(s, id, d), id);
      assert id !in s.permits;
    } else {
      var t := s.(calls := s.calls[id := Closed]);
      OthersOk(s, t, id);
      if s.calls[id].gated { ReleaseSlotKeeps(limit, t, id); }
    }
  }

  lemma ResultKeeps(limit: nat, s: State, id: CallId)
    requires Inv(limit, s) && id in s.calls && id !in s.results
    ensures Inv(limit, ResultArrives(s, id))
  {
    assert CallOk(s, id);
    OthersOk(s, ResultArrives(s, id), id);
  }

  lemma SettledKeeps(limit: nat, s: State, id: CallId, ok: bool)
    requires Inv(limit, s) && id in s.calls && s.calls[id].Settling?
    ensures Inv(limit, Settled(s, id, ok))
  {
    assert CallOk(s, id);
    if !ok && !s.calls[id].last {
      OthersOk(s, Settled(s, id, ok), id);
    } else {
      var t := s.(calls := s.calls[id := Closed]);
      var u := if ok then t.(permits := t.permits - {id}, acked := t.acked + {id}) else t;
      var v := u.(slotServers := u.slotServers - {id});
      if s.calls[id].slot.Some? {
        OthersOk(s, v, id);
        ReleaseSlotKeeps(limit, v, id);
      } else {
        OthersOk(s, u, id);
      }
    }
  }

  lemma WatchdogKeeps(limit: nat, s: State, id: CallId)
    requires Inv(limit, s) && id in s.watchdogs
    ensures Inv(limit, WatchdogFires(s, id))
  {
    assert CallOk(s, id);
    var t := s.(watchdogs := s.watchdogs - {id});
    if id in s.slotServers {
      var v := t.(slotServers := s.slotServers - {id});
      OthersOk(s, v, id);
      ReleaseSlotKeeps(limit, v, id);
    } else {
      OthersOk(s, t, id);
    }
  }

  lemma InvStep(limit: nat, s: State, l: Label)
    requires Inv(limit, s) && Enabled(s, l)
    ensures Inv(limit, Step(limit, s, l))
  {
    match l
    case Calls(id, server, free) => CallKeeps(limit, s, id, server, free);
    case Expires(id) => WaitEndsKeeps(limit, s, id);
    case Decides(id, d) => DecidedKeeps(limit, s, id, d);
    case Result(id) => ResultKeeps(limit, s, id);
    case Settles(id, ok) => SettledKeeps(limit, s, id, ok);
    case Watchdog(id) => WatchdogKeeps(limit, s, id);
  }

  lemma InvInit(limit: nat)
    ensures Inv(limit, Init)
  {
    forall server ensures HoldersOf(map[], server) == {} {}
  }

  lemma InvNext(limit: nat, s: State, t: State)
    requires Inv(limit, s) && Next(limit, s, t)
    ensures Inv(limit, t)
  {
    var l :| Enabled(s, l) && t == Step(limit, s, l);
    InvStep(limit, s, l);
  }

  lemma {:induction false} InvRun(limit: nat, ss: seq<State>, n: nat)
    requires IsRun(limit, ss) && n < |ss|
    ensures forall i :: 0 <= i <= n ==> Inv(limit, ss[i])
  {
    if n == 0 {
      InvInit(limit);
    } else {
      InvRun(limit, ss, n - 1);
      assert StepAt(limit, ss, n - 1);
      InvNext(limit, ss[n - 1], ss[n]);
    }
  }
}
