/** The dispatch gate and the accounting hooks as objects that update their maps in place. A valid gate
    counts exactly the calls that hold a slot, within its limit; valid hooks agree with it about who
    these are, and release every slot once. */
module AccountingExtension {
  import opened Wrappers
  import opened DispatchGate
  import opened AccountingHooks
  import AI = AccountingInvariant

  class PerServerDispatchGate {
    const maxInflight: nat
    var inflight: map<Server, nat>
    var waiters: seq<Waiter>
    ghost var holders: map<CallId, Server>   // who was granted a slot and has not released it

    function View(): Gate
      reads this
    {
      Gate(inflight, waiters)
    }

    ghost predicate Valid()
      reads this
    {
      GateOk(maxInflight, View(), holders) && forall w :: w in waiters ==> w.id !in holders
    }

    /** The option is clamped to 1..32. */
    constructor (option: int)
      ensures Valid() && View() == Gate(map[], []) && holders == map[]
      ensures 1 <= maxInflight <= MAX_INFLIGHT_LIMIT
      ensures 1 <= option <= MAX_INFLIGHT_LIMIT ==> maxInflight == option
    {
      maxInflight := if option < 1 then 1 else if option > MAX_INFLIGHT_LIMIT then MAX_INFLIGHT_LIMIT else option;
      inflight, waiters, holders := map[], [], map[];
      new;
      forall server ensures HoldersOf(holders, server) == {} {}
    }

    /** A slot that is granted at once is free and nobody waits for it; otherwise the server is full and
        the caller comes last. */
    method Acquire(id: CallId, server: Server) returns (granted: bool)
      requires Valid() && id !in holders && forall w :: w in waiters ==> w.id != id
      modifies this
      ensures Valid() && (View(), granted) == DispatchGate.Acquire(maxInflight, old(View()), id, server)
      ensures holders == Held(old(holders), id, server, granted)
      ensures if granted then waiters == old(waiters) && forall w :: w in waiters ==> w.server != server
              else |HoldersOf(holders, server)| == maxInflight && waiters == old(waiters) + [Waiter(id, server)]
    {
      AcquireKeeps(maxInflight, View(), holders, id, server);
      var current := if server in inflight then inflight[server] else 0;
      if current < maxInflight {
        inflight, holders := inflight[server := current + 1], holders[id := server];
        return true;
      }
      waiters := waiters + [Waiter(id, server)];
      granted := false;
    }

    /** `findIndex` over the waiters of a server. */
    method FindWaiter(server: Server) returns (index: nat)
      ensures index == FirstFor(waiters, server)
    {
      index := 0;
      while index < |waiters| && waiters[index].server != server
        invariant index <= |waiters|
        invariant forall j :: 0 <= j < index ==> waiters[j].server != server
      {
        index := index + 1;
      }
    }

    /** The slot of `id` passes to the first waiter for its server, or is free again. */
    method Release(server: Server, ghost id: CallId) returns (resumed: Option<CallId>)
      requires Valid() && id in holders && holders[id] == server
      modifies this
      ensures Valid() && (View(), resumed) == DispatchGate.Release(old(View()), server)
      ensures holders == Passed(old(holders), id, resumed)
    {
      ReleaseKeeps(maxInflight, View(), holders, id);
      var index := FindWaiter(server);
      if index < |waiters| { WithoutFacts(waiters, index); }
      holders := Passed(holders, id, if index < |waiters| then Some(waiters[index].id) else None);
      if index < |waiters| {
        resumed := Some(waiters[index].id);
        waiters := waiters[..index] + waiters[index + 1..];
        return;
      }
      var current := if server in inflight then inflight[server] else 0;
      var next := if current >= 1 then current - 1 else 0;
      if next == 0 { inflight := inflight - {server}; } else { inflight := inflight[server := next]; }
      resumed := None;
    }

    /** The timer of a waiter. */
    method Expire(id: CallId)
      requires Valid()
      modifies this
      ensures Valid() && View() == DispatchGate.Expire(old(View()), id) && holders == old(holders)
    {
      ExpireKeeps(maxInflight, View(), holders, id);
      var index := 0;
      while index < |waiters| && waiters[index].id != id
        invariant index <= |waiters|
        invariant forall j :: 0 <= j < index ==> waiters[j].id != id
      {
        index := index + 1;
      }
      if index < |waiters| { waiters := waiters[..index] + waiters[index + 1..]; }
    }
  }

  class Hooks {
    const gate: PerServerDispatchGate
    var permits: set<CallId>
    var slotServers: map<CallId, Server>
    var watchdogs: set<CallId>

    // where each hook invocation is
    var calls: map<CallId, Phase>
    var results: set<CallId>

    ghost var taken: set<CallId>
    ghost var released: multiset<CallId>
    ghost var permitted: set<CallId>
    ghost var acked: set<CallId>
    ghost var queued: seq<Waiter>
    ghost var grants: seq<CallId>
    ghost var expired: set<CallId>

    ghost function View(): State
      reads this, gate
    {
      State(gate.View(), calls, permits, slotServers, watchdogs, results,
            gate.holders, taken, released, permitted, acked, queued, grants, expired)
    }

    ghost predicate Valid()
      reads this, gate
    {
      gate.Valid() && AI.Inv(gate.maxInflight, View())
    }

    constructor (maxInflight: int)
      ensures Valid() && View() == Init && fresh(gate)
    {
      gate := new PerServerDispatchGate(maxInflight);
      permits, slotServers, watchdogs, calls, results := {}, map[], {}, map[], {};
      taken, released, permitted, acked, queued, grants, expired := {}, multiset{}, {}, {}, [], [], {};
      new;
      AI.InvInit(gate.maxInflight);
    }

    /** A waiting tool_call hook goes on with the slot that the gate has passed to it. */
    method Resume(id: CallId, server: Server)
      requires id in gate.holders && gate.holders[id] == server
      modifies this`calls, this`taken, this`grants
      ensures View() == Resumed(old(View()), id, server)
    {
      calls := calls[id := Preflight(server, true)];
      taken, grants := taken + {id}, grants + [id];
    }

    /** `gate.release`, which may resume a waiting tool_call hook. */
    method ReleaseSlot(id: CallId, server: Server)
      requires gate.Valid() && id in gate.holders && gate.holders[id] == server
      modifies this, gate
      ensures gate.Valid() && View() == AccountingHooks.ReleaseSlot(old(View()), id, server)
    {
      var resumed := gate.Release(server, id);
      released := released + multiset{id};
      if resumed.Some? { Resume(resumed.value, server); }
    }

    method OnToolCall(id: CallId, server: Server, free: bool)
      requires Valid() && id !in calls
      modifies this, gate
      ensures gate.Valid() && View() == Call(gate.maxInflight, old(View()), id, server, free)
    {
      assert AI.CallOk(View(), id);
      if free {
        calls := calls[id := Preflight(server, false)];
        return;
      }
      var granted := gate.Acquire(id, server);
      if granted {
        calls, taken := calls[id := Preflight(server, true)], taken + {id};
      } else {
        calls := calls[id := Queued(server)];
        queued := queued + [Waiter(id, server)];
      }
    }

    method OnWaitTimeout(id: CallId)
      requires gate.Valid()
      modifies this, gate
      ensures gate.Valid() && View() == WaitEnds(old(View()), id)
    {
      gate.Expire(id);
      calls := calls[id := Closed];
      expired := expired + {id};
    }

    method OnDecision(id: CallId, d: Decision)
      requires Valid() && id in calls && calls[id].Preflight?
      modifies this, gate
      ensures gate.Valid() && View() == Decided(old(View()), id, d)
    {
      assert AI.CallOk(View(), id);
      var server, gated := calls[id].server, calls[id].gated;
      if d == Permit {
        calls, permits := calls[id := Running], permits + {id};
        permitted := permitted + {id};
        if gated {
          slotServers, watchdogs := slotServers[id := server], watchdogs + {id};
        }
        return;
      }
      calls := calls[id := Closed];
      if gated { ReleaseSlot(id, server); }
    }

    method OnToolResult(id: CallId)
      modifies this
      ensures View() == ResultArrives(old(View()), id)
    {
      watchdogs, results := watchdogs - {id}, results + {id};
      if id !in permits { return; }
      var slot := if id in slotServers then Some(slotServers[id]) else None;
      calls := calls[id := Settling(slot, false)];
    }

    method OnSettled(id: CallId, ok: bool)
      requires Valid() && id in calls && calls[id].Settling?
      modifies this, gate
      ensures gate.Valid() && View() == Settled(old(View()), id, ok)
    {
      assert AI.CallOk(View(), id);
      var slot := calls[id].slot;
      if !ok && !calls[id].last {
        calls := calls[id := Settling(slot, true)];
        return;
      }
      calls := calls[id := Closed];
      if ok {
        permits := permits - {id};
        acked := acked + {id};
      }
      if slot.Some? {
        slotServers := slotServers - {id};
        ReleaseSlot(id, slot.value);
      }
    }

    method OnWatchdog(id: CallId)
      requires Valid()
      modifies this, gate
      ensures gate.Valid() && View() == WatchdogFires(old(View()), id)
    {
      assert AI.CallOk(View(), id);
      watchdogs := watchdogs - {id};
      if id in slotServers {
        var server := slotServers[id];
        slotServers := slotServers - {id};
        ReleaseSlot(id, server);
      }
    }

    /** Whatever hook or timer comes next keeps the hooks valid: no server has more slots in use than the
        limit, and no slot is released twice. */
    method Turn(l: Label)
      requires Valid() && Enabled(View(), l)
      modifies this, gate
      ensures Valid() && View() == Step(gate.maxInflight, old(View()), l)
      ensures forall server :: Count(gate.View(), server) == |HoldersOf(gate.holders, server)| <= gate.maxInflight
      ensures forall id :: old(released)[id] <= released[id] <= 1
    {
      AI.InvStep(gate.maxInflight, View(), l);
      Releases(gate.maxInflight, View(), l);
      match l {
        case Calls(id, server, free) => OnToolCall(id, server, free);
        case Expires(id) => OnWaitTimeout(id);
        case Decides(id, d) => OnDecision(id, d);
        case Result(id) => OnToolResult(id);
        case Settles(id, ok) => OnSettled(id, ok);
        case Watchdog(id) => OnWatchdog(id);
      }
    }

    static lemma Releases(limit: nat, s: State, l: Label)
      requires AI.Inv(limit, s) && Enabled(s, l)
      ensures forall id :: s.released[id] <= Step(limit, s, l).released[id] <= 1
    {
      var t := Step(limit, s, l);
      AI.InvStep(limit, s, l);
      forall id ensures s.released[id] <= t.released[id] <= 1 { assert AI.CallOk(t, id); }
    }
  }
}
