/** What holds of every run of the export cache, whatever crashes, cancellations, takeovers and damage
    happen in it. */
module ExportCacheRuns {
  import opened Wrappers
  import opened ExportNames
  import opened ExportCache
  import opened ExportInvariant

  /** Whatever crashes, cancellations, takeovers and damage happen: a file that a call
      returned is exactly what rendering would have produced, cached or fresh. */
  lemma ReturnedIsRender(w: World, ss: seq<State>, c: CallerId)
    requires Sound(w) && IsRun(w, ss) && c in Last(ss).callers && Last(ss).callers[c].phase.Returned?
    ensures var caller := Last(ss).callers[c];
            && caller.phase.file.content == w.render(caller.key)
            && caller.phase.file.sha256 == w.hash(w.render(caller.key))
            && caller.phase.file.sizeBytes == |w.render(caller.key)|
  {
    InvRun(w, ss, |ss| - 1);
    assert CallerOk(w, Last(ss), c);
  }

  /** At most one live builder's token matches a row. */
  lemma OneOwner(w: World, ss: seq<State>, k: Key, c: CallerId, d: CallerId)
    requires Sound(w) && IsRun(w, ss)
    requires var s := Last(ss);
             && c in s.callers && d in s.callers && k in s.rows
             && TokenOf(s.callers[c].phase) == Some(s.rows[k].claimToken)
             && TokenOf(s.callers[d].phase) == Some(s.rows[k].claimToken)
    ensures c == d
  {
    InvRun(w, ss, |ss| - 1);
  }

  /** From one state of a run to a later one: rows and callers stay, row tokens only grow. */
  ghost predicate Later(s: State, t: State) {
    && (forall k :: k in s.rows ==> k in t.rows && s.rows[k].claimToken <= t.rows[k].claimToken)
    && (forall c :: c in s.callers ==> c in t.callers && t.callers[c].key == s.callers[c].key)
  }

  lemma MovesLater(w: World, s: State, t: State, c: CallerId)
    requires c in s.callers && Moves(w, s, t, c)
    ensures Later(s, t)
  {
  }

  lemma EnvLater(w: World, s: State, l: Label)
    requires (l.Arrive? || l.RunJob? || l.DropJob? || l.Tick? || l.Damage?) && EnvStep(w, s, l).Some?
    ensures Later(s, EnvStep(w, s, l).value)
  {
  }

  lemma LaterStep(w: World, s: State, l: Label)
    requires Sound(w) && Inv(w, s) && Step(w, s, l).Some?
    ensures Later(s, Step(w, s, l).value)
  {
    if l.Arrive? || l.RunJob? || l.DropJob? || l.Tick? || l.Damage? {
      EnvLater(w, s, l);
    } else {
      LocalOfInv(w, s, l.c);
      assert GoodMove(w, s, CallerStep(w, s, l).value, l.c) by { CallerMoves(w, s, l); }
      MovesLater(w, s, CallerStep(w, s, l).value, l.c);
    }
  }

  lemma LaterNext(w: World, s: State, t: State)
    requires Sound(w) && Inv(w, s) && Next(w, s, t)
    ensures Later(s, t)
  {
    var l :| Step(w, s, l) == Some(t);
    assert Later(s, Step(w, s, l).value) by { LaterStep(w, s, l); }
  }

  lemma LaterTrans(s: State, t: State, u: State)
    requires Later(s, t) && Later(t, u)
    ensures Later(s, u)
  {
  }

  lemma LaterAt(w: World, ss: seq<State>, i: nat)
    requires Sound(w) && IsRun(w, ss) && i + 1 < |ss|
    ensures Later(ss[i], ss[i + 1])
  {
    InvRun(w, ss, i);
    assert StepAt(w, ss, i);
    LaterNext(w, ss[i], ss[i + 1]);
  }

  /** Along a run rows stay and their claim tokens never go back. */
  lemma {:induction false} LaterAlong(w: World, ss: seq<State>, i: nat, j: nat)
    requires Sound(w) && IsRun(w, ss) && i <= j < |ss|
    ensures Later(ss[i], ss[j])
    decreases j
  {
    if i < j {
      LaterAlong(w, ss, i, j - 1);
      LaterAt(w, ss, j - 1);
      LaterTrans(ss[i], ss[j - 1], ss[j]);
    }
  }

  /** A builder whose row has been taken over, at some point of the run and still now. */
  ghost predicate Superseded(s: State, t: State, c: CallerId) {
    && c in s.callers && c in t.callers
    && TokenOf(s.callers[c].phase).Some?
    && TokenOf(t.callers[c].phase) == TokenOf(s.callers[c].phase)
    && !OwnsRow(s, s.callers[c].key, TokenOf(s.callers[c].phase).value)
  }

  /** Owner fencing: once another caller has taken a builder's row over, that builder's
      `_mark_ready` and `_mark_failed` change no row, however much later they run. */
  lemma FencedForever(w: World, ss: seq<State>, i: nat, c: CallerId, l: Label)
    requires Sound(w) && IsRun(w, ss) && i < |ss| && Superseded(ss[i], Last(ss), c)
    requires (l.Mark? || l.MarkFailed?) && l.c == c && Step(w, Last(ss), l).Some?
    ensures Step(w, Last(ss), l).value.rows == Last(ss).rows
  {
    InvRun(w, ss, i);
    assert CallerOk(w, ss[i], c);
    LaterAlong(w, ss, i, |ss| - 1);
    StaysSuperseded(w, ss[i], Last(ss), c, l);
  }

  lemma StaysSuperseded(w: World, s: State, t: State, c: CallerId, l: Label)
    requires Superseded(s, t, c) && CallerOk(w, s, c) && Later(s, t)
    requires (l.Mark? || l.MarkFailed?) && l.c == c && Step(w, t, l).Some?
    ensures Step(w, t, l).value.rows == t.rows
  {
  }

  /** Who removes or damages files in a step. */
  function Actor(l: Label): Option<CallerId> {
    match l
    case Arrive(_, _, _) => None
    case RunJob(job) => if job.DeleteJob? then Some(job.owner) else None
    case DropJob(_) => None
    case Tick(_) => None
    case Damage(_, _) => None
    case _ => Some(l.c)
  }

  /** A file that nothing has damaged is only ever deleted by the caller that wrote it. */
  lemma OnlyWriterDeletes(w: World, ss: seq<State>, l: Label, p: Path)
    requires Sound(w) && IsRun(w, ss) && Step(w, Last(ss), l).Some?
    requires var s, t := Last(ss), Step(w, Last(ss), l).value;
             p in s.files && p !in t.files && p !in t.damaged
    ensures p in Last(ss).origin && Actor(l) == Some(Last(ss).origin[p].owner)
  {
    InvRun(w, ss, |ss| - 1);
    WriterDeletes(w, Last(ss), l, p);
  }

  lemma WriterDeletes(w: World, s: State, l: Label, p: Path)
    requires Sound(w) && Inv(w, s) && Step(w, s, l).Some?
    requires p in s.files && p !in Step(w, s, l).value.files && p !in Step(w, s, l).value.damaged
    ensures p in s.origin && Actor(l) == Some(s.origin[p].owner)
  {
    assert FileOk(w, s, p);
    WhoDeletes(w, s, l, p);
    if l.Poll? {
      PollDeletes(w, s, l.c, l.unlinked, p);
    } else if l.Remove? {
      assert CallerOk(w, s, l.c);
    } else if l.RunJob? {
      assert JobOk(s, l.job);
    }
  }

  /** The ready row of a key names a file that is there and verifies. */
  predicate Serves(w: World, s: State, k: Key, p: Path) {
    k in s.rows && CompleteReady(s.rows[k]) && s.rows[k].storageKey.value == p && p in s.files && Verifies(w, s.rows[k], s.files[p])
  }

  /** Nor is a file that its ready row verifies, whatever happened to it before; only a deletion that
      was begun while it was damaged may still come. */
  lemma VerifiedFileKept(w: World, ss: seq<State>, l: Label, k: Key, p: Path)
    requires Sound(w) && IsRun(w, ss) && Step(w, Last(ss), l).Some? && !l.Damage?
    requires Serves(w, Last(ss), k, p) && p !in Step(w, Last(ss), l).value.files
    ensures var s := Last(ss);
            p in s.origin && (Actor(l) == Some(s.origin[p].owner) || (l.RunJob? && p in s.damaged))
  {
    InvRun(w, ss, |ss| - 1);
    VerifiedKept(w, Last(ss), l, k, p);
  }

  lemma VerifiedKept(w: World, s: State, l: Label, k: Key, p: Path)
    requires Sound(w) && Inv(w, s) && Step(w, s, l).Some? && !l.Damage?
    requires Serves(w, s, k, p) && p !in Step(w, s, l).value.files
    ensures p in s.origin && (Actor(l) == Some(s.origin[p].owner) || (l.RunJob? && p in s.damaged))
  {
    assert FileOk(w, s, p);
    WhoDeletes(w, s, l, p);
    if l.Poll? {
      PollSpares(w, s, l.c, l.unlinked, k, p);
    } else if l.Remove? {
      assert CallerOk(w, s, l.c);
    } else {
      assert JobOk(s, l.job);
    }
  }

  lemma PollSpares(w: World, s: State, c: CallerId, unlinked: bool, k: Key, p: Path)
    requires Inv(w, s) && c in s.callers && Serves(w, s, k, p)
    ensures p in PollStep(w, s, c, unlinked).files
  {
    var h := s.callers[c].key;
    assert RowOk(w, s, k);
    if h in s.rows { assert RowOk(w, s, h); }
  }

  lemma WhoDeletes(w: World, s: State, l: Label, p: Path)
    requires Step(w, s, l).Some? && p in s.files && p !in Step(w, s, l).value.files
    ensures || l.Damage?
            || (l.RunJob? && l.job in s.jobs && l.job.DeleteJob? && l.job.path == p)
            || (l.Remove? && l.c in s.callers && PathOf(s.callers[l.c].phase) == Some(p))
            || (l.Poll? && l.c in s.callers && p !in PollStep(w, s, l.c, l.unlinked).files)
    ensures l.Damage? ==> p in Step(w, s, l).value.damaged
  {
  }

  lemma PollDeletes(w: World, s: State, c: CallerId, unlinked: bool, p: Path)
    requires Sound(w) && Inv(w, s) && c in s.callers && p in s.files && p !in s.damaged
    ensures p in PollStep(w, s, c, unlinked).files
  {
    var k := s.callers[c].key;
    if k in s.rows { assert RowOk(w, s, k) && FileOk(w, s, p); }
  }

  /** No row blocks its key for ever: once a lease has run out, a poll always leaves the
      waiting loop, with a file, a claim or an insert. */
  lemma NeverStuck(w: World, ss: seq<State>, c: CallerId, unlinked: bool)
    requires Sound(w) && IsRun(w, ss) && c in Last(ss).callers && Last(ss).callers[c].phase == Polling
    ensures Step(w, Last(ss), Tick(w.leaseMs)).Some?
    ensures var t := Step(w, Step(w, Last(ss), Tick(w.leaseMs)).value, Poll(c, unlinked));
            t.Some? && c in t.value.callers && t.value.callers[c].phase != Polling
  {
    InvRun(w, ss, |ss| - 1);
    PollAfterLease(w, Last(ss), c, unlinked);
  }

  lemma PollAfterLease(w: World, s: State, c: CallerId, unlinked: bool)
    requires Inv(w, s) && c in s.callers && s.callers[c].phase == Polling
    ensures Step(w, s, Tick(w.leaseMs)).Some?
    ensures var t := Step(w, Step(w, s, Tick(w.leaseMs)).value, Poll(c, unlinked));
            t.Some? && c in t.value.callers && t.value.callers[c].phase != Polling
  {
    if s.callers[c].key in s.rows { assert RowOk(w, s, s.callers[c].key); }
  }
}
