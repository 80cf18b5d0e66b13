/** The per-server dispatch gate: slots per server, and a queue for callers that found none free. */
module DispatchGate {
  import opened Wrappers

  type CallId = nat
  type Server = string

  const MAX_INFLIGHT_LIMIT: nat := 32

  datatype Waiter = Waiter(id: CallId, server: Server)

  datatype Gate = Gate(inflight: map<Server, nat>, waiters: seq<Waiter>)

  function Count(g: Gate, server: Server): nat { if server in g.inflight then g.inflight[server] else 0 }

  /** The first waiter for a server, or the length of the queue. */
  function FirstFor(ws: seq<Waiter>, server: Server): (i: nat)
    ensures i <= |ws| && (i < |ws| ==> ws[i].server == server)
    ensures forall j :: 0 <= j < i ==> ws[j].server != server
  {
    if ws == [] || ws[0].server == server then 0 else 1 + FirstFor(ws[1..], server)
  }

  /** The waiter of a call, or the length of the queue. */
  function IndexOf(ws: seq<Waiter>, id: CallId): (i: nat)
    ensures i <= |ws| && (i < |ws| ==> ws[i].id == id)
    ensures forall j :: 0 <= j < i ==> ws[j].id != id
  {
    if ws == [] || ws[0].id == id then 0 else 1 + IndexOf(ws[1..], id)
  }

  function Without(ws: seq<Waiter>, i: nat): seq<Waiter>
    requires i < |ws|
  {
    ws[..i] + ws[i + 1..]
  }

  /** A free slot is taken at once (true); otherwise the caller joins the queue. */
  function Acquire(limit: nat, g: Gate, id: CallId, server: Server): (Gate, bool) {
    if Count(g, server) < limit
    then (g.(inflight := g.inflight[server := Count(g, server) + 1]), true)
    else (g.(waiters := g.waiters + [Waiter(id, server)]), false)
  }

  /** A slot goes to the first waiter for its server, or back. */
  function Release(g: Gate, server: Server): (Gate, Option<CallId>) {
    var i := FirstFor(g.waiters, server);
    if i < |g.waiters| then (g.(waiters := Without(g.waiters, i)), Some(g.waiters[i].id))
    else
      var next := if Count(g, server) >= 1 then Count(g, server) - 1 else 0;
      (g.(inflight := if next == 0 then g.inflight - {server} else g.inflight[server := next]), None)
  }

  /** A waiter's time is up. */
  function Expire(g: Gate, id: CallId): Gate {
    var i := IndexOf(g.waiters, id);
    if i < |g.waiters| then g.(waiters := Without(g.waiters, i)) else g
  }

  // ---------------------------------------------------------------- slot conservation

  function HoldersOf(holding: map<CallId, Server>, server: Server): set<CallId> {
    set id | id in holding && holding[id] == server
  }

  predicate Distinct(ws: seq<Waiter>) { forall i, j :: 0 <= i < j < |ws| ==> ws[i].id != ws[j].id }

  /** The gate counts exactly the calls that hold a slot, within the limit, and lets nobody wait for
      a server that has a slot free. */
  ghost predicate GateOk(limit: nat, g: Gate, holding: map<CallId, Server>) {
    && (forall server :: Count(g, server) == |HoldersOf(holding, server)| <= limit)
    && (forall w :: w in g.waiters ==> Count(g, w.server) == limit)
    && Distinct(g.waiters)
  }

  lemma HoldersGrow(holding: map<CallId, Server>, id: CallId, server: Server, s: Server)
    requires id !in holding
    ensures HoldersOf(holding[id := server], s) == HoldersOf(holding, s) + (if s == server then {id} else {})
    ensures |HoldersOf(holding[id := server], s)| == |HoldersOf(holding, s)| + (if s == server then 1 else 0)
  {
    assert HoldersOf(holding[id := server], s) == HoldersOf(holding, s) + (if s == server then {id} else {});
  }

  lemma HoldersShrink(holding: map<CallId, Server>, id: CallId, s: Server)
    requires id in holding
    ensures |HoldersOf(holding - {id}, s)| == |HoldersOf(holding, s)| - (if s == holding[id] then 1 else 0)
  {
    if s == holding[id] {
      assert HoldersOf(holding - {id}, s) == HoldersOf(holding, s) - {id};
    } else {
      assert HoldersOf(holding - {id}, s) == HoldersOf(holding, s);
    }
  }

  /** Whoever is granted a slot at once holds it from then on. */
  function Held(holding: map<CallId, Server>, id: CallId, server: Server, granted: bool): map<CallId, Server> {
    if granted then holding[id := server] else holding
  }

  lemma AcquireKeeps(limit: nat, g: Gate, holding: map<CallId, Server>, id: CallId, server: Server)
    requires GateOk(limit, g, holding) && id !in holding && (forall w :: w in g.waiters ==> w.id != id)
    ensures var (h, granted) := Acquire(limit, g, id, server);
            && GateOk(limit, h, Held(holding, id, server, granted))
            && (granted ==> forall w :: w in g.waiters ==> w.server != server)
  {
    var (h, granted) := Acquire(limit, g, id, server);
    if granted {
      forall s ensures Count(h, s) == |HoldersOf(holding[id := server], s)| <= limit {
        HoldersGrow(holding, id, server, s);
      }
    } else {
      assert forall w :: w in h.waiters ==> w in g.waiters || w == Waiter(id, server);
    }
  }

  lemma WithoutFacts(ws: seq<Waiter>, i: nat)
    requires i < |ws| && Distinct(ws)
    ensures Distinct(Without(ws, i))
    ensures forall w :: w in Without(ws, i) <==> w in ws && w != ws[i]
  {
    forall w ensures w in Without(ws, i) <==> w in ws && w != ws[i] {
      if w in ws && w != ws[i] {
        var j :| 0 <= j < |ws| && ws[j] == w;
        if j < i { assert Without(ws, i)[j] == w; } else { assert Without(ws, i)[j - 1] == w; }
      }
      if w in Without(ws, i) {
        var j :| 0 <= j < |Without(ws, i)| && Without(ws, i)[j] == w;
        if j < i { assert ws[j] == w; } else { assert ws[j + 1] == w; }
      }
    }
  }

  /** Who holds slots after `id` gave its slot up. */
  function Passed(holding: map<CallId, Server>, id: CallId, to: Option<CallId>): map<CallId, Server>
    requires id in holding
  {
    if to.Some? then (holding - {id})[to.value := holding[id]] else holding - {id}
  }

  lemma HandOverKeeps(limit: nat, g: Gate, holding: map<CallId, Server>, id: CallId, i: nat)
    requires GateOk(limit, g, holding) && id in holding
    requires i < |g.waiters| && g.waiters[i].server == holding[id] && g.waiters[i].id !in holding
    ensures GateOk(limit, g.(waiters := Without(g.waiters, i)), Passed(holding, id, Some(g.waiters[i].id)))
  {
    var server, w := holding[id], g.waiters[i].id;
    WithoutFacts(g.waiters, i);
    forall s ensures |HoldersOf(Passed(holding, id, Some(w)), s)| == |HoldersOf(holding, s)| {
      HoldersShrink(holding, id, s);
      HoldersGrow(holding - {id}, w, server, s);
    }
  }

  lemma GiveBackKeeps(limit: nat, g: Gate, holding: map<CallId, Server>, id: CallId)
    requires GateOk(limit, g, holding) && id in holding && FirstFor(g.waiters, holding[id]) == |g.waiters|
    ensures GateOk(limit, Release(g, holding[id]).0, holding - {id})
  {
    var server := holding[id];
    assert id in HoldersOf(holding, server);
    var h := Release(g, server).0;
    forall s ensures Count(h, s) == |HoldersOf(holding - {id}, s)| <= limit {
      HoldersShrink(holding, id, s);
    }
  }

  /** A holder's release keeps the books: the slot passes to the first waiter or becomes free. */
  lemma ReleaseKeeps(limit: nat, g: Gate, holding: map<CallId, Server>, id: CallId)
    requires GateOk(limit, g, holding) && id in holding
    requires forall w :: w in g.waiters ==> w.id !in holding
    ensures var (h, to) := Release(g, holding[id]); GateOk(limit, h, Passed(holding, id, to))
  {
    var i := FirstFor(g.waiters, holding[id]);
    if i < |g.waiters| { HandOverKeeps(limit, g, holding, id, i); } else { GiveBackKeeps(limit, g, holding, id); }
  }

  lemma ExpireKeeps(limit: nat, g: Gate, holding: map<CallId, Server>, id: CallId)
    requires GateOk(limit, g, holding)
    ensures GateOk(limit, Expire(g, id), holding)
  {
    var i := IndexOf(g.waiters, id);
    if i < |g.waiters| { WithoutFacts(g.waiters, i); }
  }
}
