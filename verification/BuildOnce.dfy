/** A key is rendered once in every run in which no build fails or outlives its lease. */
module BuildOnce {
  import opened Wrappers
  import opened ExportNames
  import opened ExportCache
  import opened ExportInvariant

  /** No build fails or is cancelled, none outlives its lease, nothing is damaged. */
  predicate Quiet(w: World, s: State, l: Label) {
    match l
    case Damage(_, _) => false
    case Abandon(c) => c in s.callers ==> TokenOf(s.callers[c].phase).None?
    case Render(_, ok) => ok
    case Write(_, wrote) => wrote == WriteDone
    case Mark(_, reply) => reply == Acked
    case Poll(c, _) => c in s.callers && s.callers[c].key in s.rows ==> !Stale(w, s, s.rows[s.callers[c].key])
    case _ => true
  }

  ghost predicate QuietAt(w: World, ss: seq<State>, i: nat)
    requires i + 1 < |ss|
  {
    exists l :: Step(w, ss[i], l) == Some(ss[i + 1]) && Quiet(w, ss[i], l)
  }

  ghost predicate IsQuietRun(w: World, ss: seq<State>) {
    ss != [] && ss[0] == Init && forall i :: 0 <= i < |ss| - 1 ==> QuietAt(w, ss, i)
  }

  /** In a quiet run every builder owns its row until it is ready, and a ready row keeps its file. */
  ghost predicate QuietCaller(s: State, c: CallerId)
    requires c in s.callers
  {
    var caller := s.callers[c];
    TokenOf(caller.phase).Some? ==>
      && OwnsRow(s, caller.key, TokenOf(caller.phase).value) && s.rows[caller.key].status == Building
      && (caller.phase.Rendering? || (caller.phase.OnDisk? && caller.phase.stage in {Writing, Marking}))
      && (caller.phase.OnDisk? && caller.phase.stage == Marking ==> caller.phase.path in s.files)
      && (caller.phase.Rendering? ==> Renders(s, caller.key) == 0)
  }

  ghost predicate QuietRow(s: State, k: Key) {
    && Renders(s, k) <= 1
    && (k !in s.rows ==> Renders(s, k) == 0)
    && (k in s.rows ==>
          || s.rows[k].status == Building
          || (s.rows[k].status == Ready && s.rows[k].storageKey.Some? && s.rows[k].storageKey.value in s.files))
  }

  ghost predicate QuietInv(s: State) {
    && s.jobs == {} && s.damaged == {}
    && (forall c :: c in s.callers ==> QuietCaller(s, c))
    && (forall k :: QuietRow(s, k))
  }

  lemma QuietPoll(w: World, s: State, c: CallerId, unlinked: bool)
    requires Inv(w, s) && QuietInv(s) && c in s.callers && s.callers[c].phase == Polling
    requires s.callers[c].key in s.rows ==> !Stale(w, s, s.rows[s.callers[c].key])
    ensures var t := PollStep(w, s, c, unlinked);
            t == SetPhase(s, c, t.callers[c].phase) && TokenOf(t.callers[c].phase) == None
  {
    var k := s.callers[c].key;
    if k in s.rows {
      assert RowOk(w, s, k) && QuietRow(s, k);
      if s.rows[k].status == Ready { assert FileOk(w, s, s.rows[k].storageKey.value); }
    }
  }

  lemma QuietOther(w: World, s: State, t: State, c: CallerId)
    requires Inv(w, s) && QuietInv(s) && c in s.callers && Moves(w, s, t, c)
    requires t.jobs == {} && t.damaged == {}
    requires s.files.Keys <= t.files.Keys
    requires forall k :: k != s.callers[c].key ==> Renders(t, k) == Renders(s, k)
    requires QuietCaller(t, c) && QuietRow(t, s.callers[c].key)
    requires var k := s.callers[c].key;
             || (t.rows == s.rows && Renders(t, k) == Renders(s, k))
             || k !in s.rows
             || TokenOf(s.callers[c].phase) == Some(s.rows[k].claimToken)
    ensures QuietInv(t)
  {
    forall d | d in t.callers ensures QuietCaller(t, d) { if d != c { assert QuietCaller(s, d); } }
    forall k ensures QuietRow(t, k) { if k != s.callers[c].key { assert QuietRow(s, k); } }
  }

  lemma QuietStep(w: World, s: State, l: Label)
    requires Sound(w) && Inv(w, s) && QuietInv(s) && Quiet(w, s, l) && Step(w, s, l).Some?
    ensures QuietInv(Step(w, s, l).value)
  {
    var t := Step(w, s, l).value;
    match l
    case Arrive(c, _, _) =>
      forall d | d in t.callers ensures QuietCaller(t, d) { if d != c { assert QuietCaller(s, d); } }
      forall k ensures QuietRow(t, k) { assert QuietRow(s, k); }
    case Tick(_) =>
      forall d | d in t.callers ensures QuietCaller(t, d) { assert QuietCaller(s, d); }
      forall k ensures QuietRow(t, k) { assert QuietRow(s, k); }
    case RunJob(_) =>
    case DropJob(_) =>
    case Damage(_, _) =>
    case _ =>
      QuietCallerStep(w, s, l);
  }

  lemma QuietCallerStep(w: World, s: State, l: Label)
    requires Sound(w) && Inv(w, s) && QuietInv(s) && Quiet(w, s, l)
    requires !(l.Arrive? || l.RunJob? || l.DropJob? || l.Tick? || l.Damage?)
    requires CallerStep(w, s, l).Some?
    ensures QuietInv(CallerStep(w, s, l).value)
  {
    var c := l.c;
    assert QuietCaller(s, c);
    match l
    case Poll(_, unlinked) => QuietPoll(w, s, c, unlinked); QuietPhase(w, s, l, CallerStep(w, s, l).value);
    case PollCancelled(_) => QuietPoll(w, s, c, true);
    case RetryDb(_) => QuietRetry(w, s, c);
    case Insert(_) => QuietInsert(w, s, l);
    case Render(_, _) => QuietRender(w, s, c);
    case Write(_, _) => QuietWrite(w, s, c);
    case Mark(_, _) => QuietMark(w, s, c);
    case Abandon(_) => QuietPhase(w, s, l, CallerStep(w, s, l).value);
    case _ =>
  }

  /** Steps that give up or find the file: only the caller's own phase changes. */
  lemma QuietPhase(w: World, s: State, l: Label, t: State)
    requires Sound(w) && Inv(w, s) && QuietInv(s) && (l.Poll? || l.Abandon?) && l.c in s.callers
    requires TokenOf(s.callers[l.c].phase) == None && CallerStep(w, s, l) == Some(t)
    requires l.c in t.callers && t == SetPhase(s, l.c, t.callers[l.c].phase) && TokenOf(t.callers[l.c].phase) == None
    ensures QuietInv(t)
  {
    LocalOfInv(w, s, l.c);
    CallerMoves(w, s, l);
    assert QuietRow(s, s.callers[l.c].key);
    QuietOther(w, s, t, l.c);
  }

  lemma QuietRetry(w: World, s: State, c: CallerId)
    requires Inv(w, s) && QuietInv(s) && c in s.callers && RetryStep(s, c).Some?
    requires s.callers[c].phase == Polling || s.callers[c].phase == Inserting
    ensures QuietInv(RetryStep(s, c).value)
  {
    LocalOfInv(w, s, c);
    RetryDbMoves(w, s, c);
    assert QuietRow(s, s.callers[c].key);
    QuietOther(w, s, RetryStep(s, c).value, c);
  }

  lemma QuietInsert(w: World, s: State, l: Label)
    requires Sound(w) && Inv(w, s) && QuietInv(s) && l.Insert? && CallerStep(w, s, l).Some?
    ensures QuietInv(CallerStep(w, s, l).value)
  {
    LocalOfInv(w, s, l.c);
    InsertMoves(w, s, l);
    assert QuietRow(s, s.callers[l.c].key);
    QuietOther(w, s, CallerStep(w, s, l).value, l.c);
  }

  lemma QuietRender(w: World, s: State, c: CallerId)
    requires Sound(w) && Inv(w, s) && QuietInv(s) && c in s.callers && s.callers[c].phase.Rendering?
    ensures QuietInv(RenderStep(s, c, s.callers[c].phase.token, true))
  {
    LocalOfInv(w, s, c);
    RenderMoves(w, s, c, true);
    assert QuietCaller(s, c) && QuietRow(s, s.callers[c].key);
    QuietOther(w, s, RenderStep(s, c, s.callers[c].phase.token, true), c);
  }

  lemma QuietWrite(w: World, s: State, c: CallerId)
    requires Sound(w) && Inv(w, s) && QuietInv(s) && c in s.callers
    requires s.callers[c].phase.OnDisk? && s.callers[c].phase.stage == Writing
    ensures var f := s.callers[c].phase; QuietInv(WriteStep(w, s, c, f.token, f.path, WriteDone))
  {
    LocalOfInv(w, s, c);
    WriteMoves(w, s, c, WriteDone);
    assert QuietCaller(s, c) && QuietRow(s, s.callers[c].key);
    QuietOther(w, s, WriteStep(w, s, c, s.callers[c].phase.token, s.callers[c].phase.path, WriteDone), c);
  }

  lemma QuietMark(w: World, s: State, c: CallerId)
    requires Sound(w) && Inv(w, s) && QuietInv(s) && c in s.callers
    requires s.callers[c].phase.OnDisk? && s.callers[c].phase.stage == Marking
    ensures var f := s.callers[c].phase; QuietInv(MarkStep(w, s, c, f.token, f.path, Acked))
  {
    LocalOfInv(w, s, c);
    MarkMoves(w, s, c, Acked);
    assert QuietCaller(s, c) && QuietRow(s, s.callers[c].key);
    QuietOther(w, s, MarkStep(w, s, c, s.callers[c].phase.token, s.callers[c].phase.path, Acked), c);
  }

  lemma QuietNext(w: World, s: State, t: State, l: Label)
    requires Sound(w) && Inv(w, s) && QuietInv(s) && Step(w, s, l) == Some(t) && Quiet(w, s, l)
    ensures Inv(w, t) && QuietInv(t)
  {
    assert Inv(w, Step(w, s, l).value) by { InvStep(w, s, l); }
    assert QuietInv(Step(w, s, l).value) by { QuietStep(w, s, l); }
  }

  lemma {:induction false} QuietRun(w: World, ss: seq<State>, n: nat)
    requires Sound(w) && IsQuietRun(w, ss) && n < |ss|
    ensures forall i :: 0 <= i <= n ==> Inv(w, ss[i]) && QuietInv(ss[i])
  {
    if n > 0 {
      QuietRun(w, ss, n - 1);
      assert QuietAt(w, ss, n - 1);
      var l :| Step(w, ss[n - 1], l) == Some(ss[n]) && Quiet(w, ss[n - 1], l);
      QuietNext(w, ss[n - 1], ss[n], l);
    }
  }

  /** Build once: in a quiet run, however many callers ask for it, a key is rendered at most once. */
  lemma RenderedOnce(w: World, ss: seq<State>, k: Key)
    requires Sound(w) && IsQuietRun(w, ss)
    ensures Renders(Last(ss), k) <= 1
  {
    QuietRun(w, ss, |ss| - 1);
    assert QuietRow(Last(ss), k);
  }
}
