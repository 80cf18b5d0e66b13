/** When a delta is held back and when it goes out. */
module DeltaTiming {
  import opened Wrappers
  import opened Utf16Text
  import opened Protocol
  import opened Projection
  import opened DeltaConservation
  import P = ProjectorRuns
  import T = ProjectorTurns
  import opened ProjectorTheorems

  // ---------------------------------------------------------------- nothing is overdue

  /** The clock reading of a timer flush or of a delta. */
  predicate Clocked(i: P.Input, now: int) { i == P.FlushDue(now) || (i.Sdk? && i.e.Delta? && i.now == now) }

  /** Every pending batch was pending before, or was begun now. */
  predicate NoneOlder(s: State, t: State, now: int) {
    forall c :: c in t.pending ==> t.pending[c].startedAt == now || (c in s.pending && t.pending[c].startedAt == s.pending[c].startedAt)
  }

  lemma AppendOnceTimes(attempt: string, s: State, c: Channel, remaining: Text, now: int)
    ensures NoneOlder(s, AppendOnce(attempt, s, c, remaining, now).0, now)
  {
    var t := Open(attempt, s, c, now).0;
    assert NoneOlder(s, t, now);
    var n := FitLen(remaining, Room(t.pending[c]));
    assert NoneOlder(t, FlushChannel(attempt, t, c).0, now);
    var u := t.(pending := t.pending[c := Grown(t.pending[c], remaining[..n])]);
    assert NoneOlder(t, u, now) && NoneOlder(u, FlushChannel(attempt, u, c).0, now);
  }

  lemma {:induction false} AppendTimes(attempt: string, s: State, c: Channel, remaining: Text, now: int)
    ensures NoneOlder(s, Append(attempt, s, c, remaining, now).0, now)
    decreases |remaining|, if c in s.pending then 1 else 0
  {
    if remaining != [] {
      var (t, es, n) := AppendOnce(attempt, s, c, remaining, now);
      AppendOnceTimes(attempt, s, c, remaining, now);
      AppendOnceProgress(attempt, s, c, remaining, now);
      AppendTimes(attempt, t, c, remaining[n..], now);
    }
  }

  /** After a timer flush or a delta, no batch that is still pending is 50 ms old. */
  lemma NothingOverdue(attempt: string, ins: seq<P.Input>, ss: seq<State>, outs: seq<seq<Event>>, i: nat, now: int, c: Channel)
    requires IsRun(attempt, ins, ss, outs) && i < |ins| && Clocked(ins[i], now) && c in ss[i + 1].pending
    ensures now - ss[i + 1].pending[c].startedAt < 50
  {
    assert RespondsAt(attempt, ins, ss, outs, i);
    var t := FlushIfDue(attempt, ss[i], now).0;
    assert !Due(t, now);
    if ins[i].Sdk? && ins[i].e.delta.Some? { AppendTimes(attempt, t, ins[i].e.channel, ins[i].e.delta.value, now); }
  }

  // ---------------------------------------------------------------- what a flush says

  /** A flush emits one event for every pending batch, the one begun first coming first, with its text and
      the number of its parts; and then nothing is pending. */
  lemma FlushSays(attempt: string, s: State, i: nat)
    requires i < |Flush(attempt, s).1|
    ensures exists c :: c in s.pending && Says(Flush(attempt, s).1[i], c, s.pending[c])
    ensures forall j, c, d :: i < j < |Flush(attempt, s).1| && c in s.pending && d in s.pending
              && Says(Flush(attempt, s).1[i], c, s.pending[c]) && Says(Flush(attempt, s).1[j], d, s.pending[d])
              ==> s.pending[c].startedAt <= s.pending[d].startedAt
    ensures |Flush(attempt, s).1| == |s.pending| && Flush(attempt, s).0.pending == map[]
  {
    var order := FlushOrder(s);
    assert order[i] in s.pending && Says(Flush(attempt, s).1[i], order[i], s.pending[order[i]]);
    OneForEach(s);
    forall c, d | c != d ensures DeltaType(c) != DeltaType(d) { assert "thinking.delta"[0] != "message.delta"[0]; }
  }

  predicate Says(e: Event, c: Channel, b: Batch) {
    && e.eventType == (if c == Thinking then "thinking.delta" else "message.delta")
    && e.payload == [Field("text", Str(b.text)), Field("delta_count", Num(b.parts)), Field("batched", Flag(true))]
  }

  lemma OneForEach(s: State)
    ensures |FlushOrder(s)| == |s.pending|
  {
    FlushOrderCovers(s);
    var ks, order := s.pending.Keys, FlushOrder(s);
    assert forall c :: c in ks <==> c in order;
    if |order| == 2 {
      assert ks == {order[0], order[1]};
    } else if |order| == 1 {
      assert ks == {order[0]};
    } else {
      assert ks == {};
    }
  }

  // ---------------------------------------------------------------- a delta that waits

  function PendingBatch(s: State, c: Channel, now: int): Batch { if c in s.pending then s.pending[c] else Batch([], 0, 0, now) }

  /** One part more leaves the batch with fewer than 32 parts and fewer than 4096 bytes. */
  predicate LeavesRoom(b: Batch, delta: Text) { b.parts + 1 < 32 && b.bytes + Utf8Bytes(delta) < 4096 }

  lemma {:induction false} FitsWhole(t: Text, max: nat)
    ensures FitLen(t, max) == |t| <==> Utf8Bytes(t) <= max
  {
    if t != [] && CharBytes(t) <= max { FitsWhole(t[CharLen(t)..], max - CharBytes(t)); }
  }

  /** What the delta does to its own batch, when nothing is due. */
  predicate Held(s: State, t: State, c: Channel, delta: Text, now: int) {
    && c in t.pending
    && (var b := PendingBatch(s, c, now);
        t.pending[c] == Batch(b.text + delta, b.bytes + Utf8Bytes(delta), b.parts + 1, b.startedAt))
    && forall d :: d != c ==> (d in t.pending <==> d in s.pending) && (d in s.pending ==> t.pending[d] == s.pending[d])
  }

  lemma AppendHolds(attempt: string, s: State, c: Channel, delta: Text, now: int)
    requires Ok(s) && delta != [] && LeavesRoom(PendingBatch(s, c, now), delta)
    ensures Append(attempt, s, c, delta, now).1 == [] && Held(s, Append(attempt, s, c, delta, now).0, c, delta, now)
  {
    OpenFacts(attempt, s, c, now);
    var t := Open(attempt, s, c, now).0;
    assert t.pending[c] == PendingBatch(s, c, now);
    FitsWhole(delta, Room(t.pending[c]));
    assert delta[..|delta|] == delta && delta[|delta|..] == [];
    assert !Full(Grown(t.pending[c], delta));
    var (u, es, n) := AppendOnce(attempt, s, c, delta, now);
    assert n == |delta| && es == [];
    assert Append(attempt, u, c, [], now) == (u, []);
  }

  /** Otherwise the loop emits something: the batch is full, or the delta does not fit behind what waits. */
  lemma AppendEmits(attempt: string, s: State, c: Channel, delta: Text, now: int)
    requires Ok(s) && delta != [] && !LeavesRoom(PendingBatch(s, c, now), delta)
    ensures Append(attempt, s, c, delta, now).1 != []
  {
    OpenFacts(attempt, s, c, now);
    var b := PendingBatch(s, c, now);
    FitLenMeaning(delta, Room(b));
    FitsWhole(delta, Room(b));
    var (t, es, n) := AppendOnce(attempt, s, c, delta, now);
    if n == |delta| { WholeEmits(attempt, s, c, delta, now); }
    if es == [] {
      AppendOnceFacts(attempt, s, c, delta, now);
      NoRoomLeft(delta, Room(b));
      StillNoRoom(attempt, s, t, c, delta, now, n);
    }
  }

  lemma WholeEmits(attempt: string, s: State, c: Channel, delta: Text, now: int)
    requires Ok(s) && delta != [] && !LeavesRoom(PendingBatch(s, c, now), delta)
    requires FitLen(delta, Room(PendingBatch(s, c, now))) == |delta|
    ensures AppendOnce(attempt, s, c, delta, now).1 != []
  {
    OpenFacts(attempt, s, c, now);
    assert delta[..|delta|] == delta;
    assert Full(Grown(PendingBatch(s, c, now), delta));
  }

  /** Behind the longest prefix that fits, no further character does. */
  lemma NoRoomLeft(t: Text, max: nat)
    ensures var n := FitLen(t, max);
            n < |t| ==> Utf8Bytes(t[..n]) <= max && FitLen(t[n..], max - Utf8Bytes(t[..n])) == 0
  {
    FitLenMeaning(t, max);
  }

  lemma StillNoRoom(attempt: string, s: State, t: State, c: Channel, delta: Text, now: int, n: nat)
    requires Ok(s) && Ok(t) && delta != [] && !LeavesRoom(PendingBatch(s, c, now), delta)
    requires AppendOnce(attempt, s, c, delta, now) == (t, [], n) && n < |delta|
    requires Utf8Bytes(delta[..n]) <= Room(PendingBatch(s, c, now))
             && FitLen(delta[n..], Room(PendingBatch(s, c, now)) - Utf8Bytes(delta[..n])) == 0
    ensures Append(attempt, s, c, delta, now).1 != []
  {
    OpenFacts(attempt, s, c, now);
    var b := PendingBatch(s, c, now);
    FitLenMeaning(delta, Room(b));
    assert n > 0;
    assert c in t.pending && t.pending[c] == Grown(b, delta[..n]);
    assert Room(t.pending[c]) == Room(b) - Utf8Bytes(delta[..n]);
    OpenFacts(attempt, t, c, now);
    var (u, fs, m) := AppendOnce(attempt, t, c, delta[n..], now);
    assert m == 0 && fs != [];
    AppendOnceProgress(attempt, s, c, delta, now);
  }

  /** A delta is held back if and only if nothing is due and it leaves room in its batch; and then it is added
      to that batch, which keeps its age. Otherwise some event goes out at once. */
  lemma HeldBackExactlyWhen(attempt: string, ins: seq<P.Input>, ss: seq<State>, outs: seq<seq<Event>>, i: nat)
    requires IsRun(attempt, ins, ss, outs) && i < |ins|
    requires ins[i].Sdk? && ins[i].e.Delta? && ins[i].e.delta.Some? && ins[i].e.delta.value != []
    ensures var c, delta, now := ins[i].e.channel, ins[i].e.delta.value, ins[i].now;
            var due := exists d :: d in ss[i].pending && now - ss[i].pending[d].startedAt >= 50;
            && (outs[i] == [] <==> !due && LeavesRoom(PendingBatch(ss[i], c, now), delta))
            && (outs[i] == [] ==> Held(ss[i], ss[i + 1], c, delta, now))
  {
    assert RespondsAt(attempt, ins, ss, outs, i);
    RunUpTo(attempt, ins, ss, outs, i);
    P.RunFacts(attempt, ins[..i]);
    var c, delta, now := ins[i].e.channel, ins[i].e.delta.value, ins[i].now;
    if Due(ss[i], now) {
      FlushEmits(attempt, ss[i]);
    } else {
      assert [] + Append(attempt, ss[i], c, delta, now).1 == Append(attempt, ss[i], c, delta, now).1;
      if LeavesRoom(PendingBatch(ss[i], c, now), delta) {
        AppendHolds(attempt, ss[i], c, delta, now);
      } else {
        AppendEmits(attempt, ss[i], c, delta, now);
      }
    }
  }

  lemma FlushEmits(attempt: string, s: State)
    requires exists c :: c in s.pending
    ensures Flush(attempt, s).1 != []
  {
    FlushOrderCovers(s);
  }
}
