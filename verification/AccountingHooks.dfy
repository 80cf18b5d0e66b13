/** The tool_call and tool_result hooks around the dispatch gate, as a state machine over their
    awaits. Call ids are unique and every call gets at most one result. */
module AccountingHooks {
  import opened Wrappers
  import opened DispatchGate

  datatype Phase =
    | Queued(server: Server)                          // awaiting a slot
    | Preflight(server: Server, gated: bool)          // awaiting the permit decision
    | Running                                         // holds a permit
    | Settling(slot: Option<Server>, last: bool)      // awaiting the settlement, or the last try at it
    | Closed

  datatype Decision = Permit | Block | NoPermit | Throws

  datatype State = State(
    gate: Gate, calls: map<CallId, Phase>,
    permits: set<CallId>, slotServers: map<CallId, Server>, watchdogs: set<CallId>, results: set<CallId>,
    // history
    holding: map<CallId, Server>,     // calls that hold a slot
    taken: set<CallId>,               // calls that ever held one
    released: multiset<CallId>,       // calls for which a slot was released
    permitted: set<CallId>, acked: set<CallId>,
    queued: seq<Waiter>, grants: seq<CallId>, expired: set<CallId>)

  const Init := State(Gate(map[], []), map[], {}, map[], {}, {}, map[], {}, multiset{}, {}, {}, [], [], {})

  // ---------------------------------------------------------------- the hooks

  /** A waiting tool_call hook goes on with its slot. */
  function Resumed(s: State, id: CallId, server: Server): State {
    s.(calls := s.calls[id := Preflight(server, true)], holding := s.holding[id := server],
       taken := s.taken + {id}, grants := s.grants + [id])
  }

  /** `gate.release`, with the waiter that it resumes. */
  function ReleaseSlot(s: State, id: CallId, server: Server): State {
    var (g, to) := Release(s.gate, server);
    var t := s.(gate := g, holding := s.holding - {id}, released := s.released + multiset{id});
    if to.None? then t else Resumed(t, to.value, server)
  }

  /** The tool_call hook up to its first await. Discovery tools are free and take no slot. */
  function Call(limit: nat, s: State, id: CallId, server: Server, free: bool): State {
    if free then s.(calls := s.calls[id := Preflight(server, false)])
    else
      var (g, granted) := Acquire(limit, s.gate, id, server);
      if granted
      then s.(gate := g, calls := s.calls[id := Preflight(server, true)],
              holding := s.holding[id := server], taken := s.taken + {id})
      else s.(gate := g, calls := s.calls[id := Queued(server)], queued := s.queued + [Waiter(id, server)])
  }

  /** The wait for a slot is over: the call is blocked as busy. */
  function WaitEnds(s: State, id: CallId): State {
    s.(gate := Expire(s.gate, id), calls := s.calls[id := Closed], expired := s.expired + {id})
  }

  /** The tool_call hook after the permit decision. */
  function Decided(s: State, id: CallId, d: Decision): State
    requires id in s.calls && s.calls[id].Preflight?
  {
    var server, gated := s.calls[id].server, s.calls[id].gated;
    if d == Permit then
      s.(calls := s.calls[id := Running], permits := s.permits + {id}, permitted := s.permitted + {id},
         slotServers := if gated then s.slotServers[id := server] else s.slotServers,
         watchdogs := if gated then s.watchdogs + {id} else s.watchdogs)
    else if gated then ReleaseSlot(s.(calls := s.calls[id := Closed]), id, server)
    else s.(calls := s.calls[id := Closed])
  }

  /** The tool_result hook up to its first await: the watchdog is cleared first. */
  function ResultArrives(s: State, id: CallId): State {
    var t := s.(watchdogs := s.watchdogs - {id}, results := s.results + {id});
    if id !in s.permits then t
    else t.(calls := s.calls[id := Settling(if id in s.slotServers then Some(s.slotServers[id]) else None, false)])
  }

  /** `releaseSlot` of the tool_result hook, on the server it captured. */
  function CloseSlot(s: State, id: CallId, server: Option<Server>): State {
    if server.None? then s else ReleaseSlot(s.(slotServers := s.slotServers - {id}), id, server.value)
  }

  /** A settlement call returns. Without an acknowledgement it is tried once more as unknown; without
      one for that either, the permit stays for reconciliation, but the slot does not. */
  function Settled(s: State, id: CallId, ok: bool): State
    requires id in s.calls && s.calls[id].Settling?
  {
    var slot := s.calls[id].slot;
    if !ok && !s.calls[id].last then s.(calls := s.calls[id := Settling(slot, true)])
    else
      var t := s.(calls := s.calls[id := Closed]);
      CloseSlot(if ok then t.(permits := t.permits - {id}, acked := t.acked + {id}) else t, id, slot)
  }

  /** The wall clock of a call runs out: only its slot is given up. */
  function WatchdogFires(s: State, id: CallId): State {
    var t := s.(watchdogs := s.watchdogs - {id});
    if id in s.slotServers then ReleaseSlot(t.(slotServers := s.slotServers - {id}), id, s.slotServers[id]) else t
  }

  // ---------------------------------------------------------------- steps and runs

  datatype Label =
    | Calls(id: CallId, server: Server, free: bool)
    | Expires(id: CallId)
    | Decides(id: CallId, d: Decision)
    | Result(id: CallId)
    | Settles(id: CallId, ok: bool)
    | Watchdog(id: CallId)

  predicate Enabled(s: State, l: Label) {
    match l
    case Calls(id, _, _) => id !in s.calls
    case Expires(id) => id in s.calls && s.calls[id].Queued?
    case Decides(id, _) => id in s.calls && s.calls[id].Preflight?
    case Result(id) => id in s.calls && id !in s.results
    case Settles(id, _) => id in s.calls && s.calls[id].Settling?
    case Watchdog(id) => id in s.watchdogs
  }

  function Step(limit: nat, s: State, l: Label): State
    requires Enabled(s, l)
  {
    match l
    case Calls(id, server, free) => Call(limit, s, id, server, free)
    case Expires(id) => WaitEnds(s, id)
    case Decides(id, d) => Decided(s, id, d)
    case Result(id) => ResultArrives(s, id)
    case Settles(id, ok) => Settled(s, id, ok)
    case Watchdog(id) => WatchdogFires(s, id)
  }

  ghost predicate Next(limit: nat, s: State, t: State) { exists l :: Enabled(s, l) && t == Step(limit, s, l) }

  ghost predicate StepAt(limit: nat, ss: seq<State>, i: nat)
    requires i + 1 < |ss|
  {
    Next(limit, ss[i], ss[i + 1])
  }

  /** The states of a run, one after the other. */
  ghost predicate IsRun(limit: nat, ss: seq<State>) {
    ss != [] && ss[0] == Init && forall i :: 0 <= i < |ss| - 1 ==> StepAt(limit, ss, i)
  }

  function Last(ss: seq<State>): State
    requires ss != []
  {
    ss[|ss| - 1]
  }
}
