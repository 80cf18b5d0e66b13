/** Every run of the accounting hooks: slots are conserved, granted in order and released once. */
module AccountingRuns {
  import opened Wrappers
  import opened DispatchGate
  import opened AccountingHooks
  import opened AccountingInvariant
  import opened GrantOrder

  /** Granted calls that still await their permit. */
  function InPreflight(s: State, server: Server): set<CallId> {
    set id | id in s.calls && s.calls[id] == Preflight(server, true)
  }

  /** Calls that are recorded as holding a slot. */
  function Recorded(s: State, server: Server): set<CallId> {
    set id | id in s.slotServers && s.slotServers[id] == server
  }

  lemma HolderIs(s: State, id: CallId, server: Server)
    requires CallOk(s, id)
    ensures HoldingOf(s, id) == Some(server) <==> id in InPreflight(s, server) || id in Recorded(s, server)
    ensures !(id in InPreflight(s, server) && id in Recorded(s, server))
  {
  }

  lemma HoldersSplit(limit: nat, s: State, server: Server)
    requires Inv(limit, s)
    ensures InPreflight(s, server) !! Recorded(s, server)
    ensures HoldersOf(s.holding, server) == InPreflight(s, server) + Recorded(s, server)
  {
    var pre, rec := InPreflight(s, server), Recorded(s, server);
    forall id
      ensures id in HoldersOf(s.holding, server) <==> id in pre + rec
      ensures !(id in pre && id in rec)
    {
      HolderIs(s, id, server);
    }
  }

  /** In every run, the slots in use of a server are the granted calls in preflight and the recorded
      holders, never more than the limit; and somebody waits only for a server that is full. */
  lemma SlotsConserved(limit: nat, ss: seq<State>, server: Server)
    requires IsRun(limit, ss)
    ensures var s := Last(ss);
            && Count(s.gate, server) == |InPreflight(s, server)| + |Recorded(s, server)| <= limit
            && ((exists w :: w in s.gate.waiters && w.server == server) ==> Count(s.gate, server) == limit)
  {
    InvRun(limit, ss, |ss| - 1);
    HoldersSplit(limit, Last(ss), server);
  }

  /** A slot is released at most once per call, and it has been released exactly when the call took
      one and no longer occupies it. A call that is over occupies none. */
  lemma ReleasedOnce(limit: nat, ss: seq<State>, id: CallId)
    requires IsRun(limit, ss)
    ensures var s := Last(ss);
            && s.released[id] <= 1
            && (s.released[id] == 1 <==> id in s.taken && SlotOf(s, id) == None)
            && (id in s.calls && s.calls[id].Closed? ==> SlotOf(s, id) == None)
  {
    InvRun(limit, ss, |ss| - 1);
    assert CallOk(Last(ss), id);
  }

  /** The steps that end a call's hold of its slot: a decision that is no permit, the last settlement, the
      watchdog. A permit ends the preflight but keeps the slot, and arms the watchdog. */
  predicate Frees(s: State, id: CallId, l: Label)
    requires id in s.calls
  {
    match l
    case Decides(who, d) => who == id && d != Permit
    case Settles(who, ok) => who == id && s.calls[id].Settling? && (ok || s.calls[id].last)
    case Watchdog(who) => who == id
    case _ => false
  }

  /** An occupied slot is freed by a step if and only if the step ends the hold; and then it is released. */
  lemma FreedExactlyWhen(limit: nat, ss: seq<State>, id: CallId, l: Label)
    requires IsRun(limit, ss) && SlotOf(Last(ss), id).Some? && Enabled(Last(ss), l)
    ensures id in Last(ss).calls
    ensures var t := Step(limit, Last(ss), l);
            && (SlotOf(t, id) == None <==> Frees(Last(ss), id, l))
            && (SlotOf(t, id) == None <==> t.released[id] == 1)
  {
    InvRun(limit, ss, |ss| - 1);
    InvStep(limit, Last(ss), l);
    assert CallOk(Last(ss), id) && CallOk(Step(limit, Last(ss), l), id);
    HoldEnds(limit, Last(ss), id, l);
  }

  lemma HoldEnds(limit: nat, s: State, id: CallId, l: Label)
    requires Inv(limit, s) && id in s.holding && id in s.calls && Enabled(s, l)
    ensures id !in Step(limit, s, l).holding <==> Frees(s, id, l)
  {
    assert CallOk(s, id);
    forall w | w in s.gate.waiters ensures w.id != id { assert CallOk(s, w.id); }
  }

  /** One of them. */
  function Exit(s: State, id: CallId): Label
    requires id in s.calls
  {
    match s.calls[id]
    case Preflight(_, _) => Decides(id, Block)
    case Settling(_, _) => Settles(id, true)
    case _ => Watchdog(id)
  }

  /** No slot can leak: wherever a call is while it occupies one, a step that frees it is possible. A
      running call always has its watchdog armed. */
  lemma EverySlotHasAnExit(limit: nat, ss: seq<State>, id: CallId)
    requires IsRun(limit, ss) && SlotOf(Last(ss), id).Some?
    ensures var s := Last(ss);
            && id in s.calls && Enabled(s, Exit(s, id))
            && Step(limit, s, Exit(s, id)).released[id] == 1
  {
    InvRun(limit, ss, |ss| - 1);
    assert CallOk(Last(ss), id);
  }

  /** A permit is forgotten exactly when a settlement of it was acknowledged. */
  lemma PermitsKeptUntilAcknowledged(limit: nat, ss: seq<State>)
    requires IsRun(limit, ss)
    ensures Last(ss).permits == Last(ss).permitted - Last(ss).acked
  {
    InvRun(limit, ss, |ss| - 1);
  }

  /** Slots are granted in the order of asking: of two calls that queued for the same server, the
      later one gets its slot only if the earlier one got its own before, or gave up waiting. */
  lemma GrantedInOrder(limit: nat, ss: seq<State>, i: nat, j: nat)
    requires IsRun(limit, ss) && i < j < |Last(ss).queued| && Last(ss).queued[i].server == Last(ss).queued[j].server
    requires Last(ss).queued[j].id in Last(ss).grants
    ensures var s := Last(ss);
            s.queued[i].id in s.expired || Before(s.grants, s.queued[i].id, s.queued[j].id)
  {
    OrderlyRun(limit, ss, |ss| - 1);
  }

  // ---------------------------------------------------------------- free calls

  /** A new call of a tool that is not free takes a slot at once if its server has one left, and waits
      otherwise; a call of a discovery tool does neither, and leaves the gate as it is. */
  lemma CallExactlyWhen(limit: nat, ss: seq<State>, id: CallId, server: Server, free: bool)
    requires IsRun(limit, ss) && Enabled(Last(ss), Calls(id, server, free))
    ensures var s, t := Last(ss), Step(limit, Last(ss), Calls(id, server, free));
            && (SlotOf(t, id) == Some(server) <==> !free && Count(s.gate, server) < limit)
            && (t.calls[id] == Queued(server) <==> !free && Count(s.gate, server) >= limit)
            && (free ==> t.gate == s.gate && t.holding == s.holding && TakesNoSlot(t, id))
  {
    InvRun(limit, ss, |ss| - 1);
    assert CallOk(Last(ss), id);
    AcquireKeeps(limit, Last(ss).gate, Last(ss).holding, id, server);
  }

  /** The call has taken no slot and waits for none. */
  predicate TakesNoSlot(s: State, id: CallId) {
    && id in s.calls && !s.calls[id].Queued? && id !in s.taken && SlotOf(s, id) == None && s.released[id] == 0
  }

  /** A slot that another call gives up goes to a waiter, if to anybody. */
  lemma ReleaseSpares(s: State, other: CallId, server: Server, id: CallId)
    requires TakesNoSlot(s, id) && other != id && forall w :: w in s.gate.waiters ==> w.id != id
    ensures TakesNoSlot(ReleaseSlot(s, other, server), id)
  {
  }

  lemma DecisionSpares(s: State, other: CallId, d: Decision, id: CallId)
    requires TakesNoSlot(s, id) && (forall w :: w in s.gate.waiters ==> w.id != id) && other in s.calls && s.calls[other].Preflight?
    ensures TakesNoSlot(Decided(s, other, d), id)
  {
    if d != Permit && s.calls[other].gated {
      assert other != id;
      ReleaseSpares(s.(calls := s.calls[other := Closed]), other, s.calls[other].server, id);
    }
  }

  lemma SettlementSpares(s: State, other: CallId, ok: bool, id: CallId)
    requires TakesNoSlot(s, id) && (forall w :: w in s.gate.waiters ==> w.id != id) && other in s.calls && s.calls[other].Settling?
    requires s.calls[other].slot.Some? ==> other != id
    ensures TakesNoSlot(Settled(s, other, ok), id)
  {
    if (ok || s.calls[other].last) && s.calls[other].slot.Some? {
      var t := s.(calls := s.calls[other := Closed], slotServers := s.slotServers - {other});
      var u := if ok then t.(permits := s.permits - {other}, acked := s.acked + {other}) else t;
      ReleaseSpares(u, other, s.calls[other].slot.value, id);
      assert Settled(s, other, ok) == ReleaseSlot(u, other, s.calls[other].slot.value);
    }
  }

  lemma WatchdogSpares(s: State, other: CallId, id: CallId)
    requires TakesNoSlot(s, id) && forall w :: w in s.gate.waiters ==> w.id != id
    ensures TakesNoSlot(WatchdogFires(s, other), id)
  {
    if other in s.slotServers {
      var t := s.(watchdogs := s.watchdogs - {other}, slotServers := s.slotServers - {other});
      ReleaseSpares(t, other, s.slotServers[other], id);
    }
  }

  lemma FreeStep(limit: nat, s: State, l: Label, id: CallId)
    requires Inv(limit, s) && TakesNoSlot(s, id) && Enabled(s, l)
    ensures TakesNoSlot(Step(limit, s, l), id)
  {
    assert CallOk(s, id);
    forall w | w in s.gate.waiters ensures w.id != id { assert CallOk(s, w.id); }
    match l
    case Calls(other, server, free) =>
    case Expires(other) =>
    case Decides(other, d) => DecisionSpares(s, other, d, id);
    case Result(other) =>
    case Settles(other, ok) => SettlementSpares(s, other, ok, id);
    case Watchdog(other) => WatchdogSpares(s, other, id);
  }

  lemma FreeNext(limit: nat, s: State, t: State, id: CallId)
    requires Inv(limit, s) && TakesNoSlot(s, id) && Next(limit, s, t)
    ensures TakesNoSlot(t, id)
  {
    var l :| Enabled(s, l) && t == Step(limit, s, l);
    FreeStep(limit, s, l, id);
  }

  /** A call that was free never takes a slot and never waits for one, however the run goes on. */
  lemma {:induction false} FreeCallTakesNoSlot(limit: nat, ss: seq<State>, n: nat, m: nat, id: CallId, server: Server)
    requires IsRun(limit, ss) && n < m < |ss| && Enabled(ss[n], Calls(id, server, true))
    requires ss[n + 1] == Step(limit, ss[n], Calls(id, server, true))
    ensures TakesNoSlot(ss[m], id)
    decreases m
  {
    InvRun(limit, ss, m - 1);
    if m == n + 1 {
      assert CallOk(ss[n], id);
    } else {
      FreeCallTakesNoSlot(limit, ss, n, m - 1, id, server);
      assert StepAt(limit, ss, m - 1);
      FreeNext(limit, ss[m - 1], ss[m], id);
    }
  }

  // ---------------------------------------------------------------- permits and settlements

  /** A permit is given exactly by a decision for it; a result begins the settlement of a permit, and of
      nothing else; a settlement is acknowledged exactly by a successful try, and there are two tries. */
  lemma SettledExactlyWhen(limit: nat, ss: seq<State>, l: Label, id: CallId)
    requires IsRun(limit, ss) && Enabled(Last(ss), l)
    ensures var s, t := Last(ss), Step(limit, Last(ss), l);
            && (id in t.permitted <==> id in s.permitted || l == Decides(id, Permit))
            && (id in t.acked <==> id in s.acked || l == Settles(id, true))
            && (l == Result(id) ==> (t.calls[id].Settling? <==> id in s.permits) && (t.calls[id].Settling? ==> !t.calls[id].last))
            && (l.Settles? && l.id == id ==>
                  if l.ok || s.calls[id].last then t.calls[id] == Closed
                  else t.calls[id] == s.calls[id].(last := true))
  {
    InvRun(limit, ss, |ss| - 1);
    var s := Last(ss);
    assert CallOk(s, id);
    forall w | w in s.gate.waiters ensures w.id in s.calls && s.calls[w.id].Queued? { assert CallOk(s, w.id); }
  }
}
