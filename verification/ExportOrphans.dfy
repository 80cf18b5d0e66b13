/** Which final files the export cache can leave behind: exactly those that some step strands. */
module ExportOrphans {
  import opened Wrappers
  import opened ExportNames
  import opened ExportCache
  import opened ExportInvariant
  import opened ExportCacheRuns

  /** No caller is under way and no background thread is left. */
  ghost predicate Settled(s: State) {
    s.jobs == {} && forall c :: c in s.callers ==> Finished(s.callers[c].phase)
  }

  /** The step strands this file: it is there, no ready row names it, and with this step nobody is left
      to remove it. The caller that wrote it goes away (a crash, a further cancellation, a database
      error in a handler) or fails to unlink it; its write lands although it was abandoned; the thread
      that was to delete it is lost; its ready row is marked failed; or a poll discards it in vain. */
  predicate Strands(w: World, s: State, l: Label, p: Path) {
    match l
    case Abandon(c) => Holds(s, c, p) && p in Unnamed(s, s.callers[c].key, p)
    case Remove(c, unlinked) => !unlinked && Holds(s, c, p) && p in Unnamed(s, s.callers[c].key, p)
    case MarkFailed(c, landed) =>
      && landed && c in s.callers && s.callers[c].phase.Failing?
      && OwnsRow(s, s.callers[c].key, s.callers[c].phase.token) && p in NamedFile(s, s.callers[c].key)
    case RunJob(job) => job == WriteJob(p) && job in s.jobs
    case DropJob(job) => job in s.jobs && p in LeftBy(s, job)
    case Poll(c, unlinked) =>
      !unlinked && c in s.callers && Discards(w, s, s.callers[c].key) && s.rows[s.callers[c].key].storageKey == Some(p)
    case _ => false
  }

  lemma StrandedStep(w: World, s: State, l: Label, p: Path)
    requires Step(w, s, l).Some?
    ensures p in Step(w, s, l).value.stranded <==> p in s.stranded || Strands(w, s, l, p)
  {
  }

  /** A file that is there, that no ready row names and that nobody is going to remove. */
  ghost predicate Orphan(s: State, p: Path) {
    && p in s.files && p in s.origin
    && !Named(s, p) && !Held(s, p) && DeleteJob(p, s.origin[p].owner) !in s.jobs
  }

  /** Nobody is going to remove a file whose writer is done and which no ready row names. */
  lemma NobodyDeletes(w: World, s: State, p: Path)
    requires Inv(w, s) && p in s.origin && s.origin[p].owner in s.callers
    requires !Finished(s.callers[s.origin[p].owner].phase)
    ensures DeleteJob(p, s.origin[p].owner) !in s.jobs
  {
    var job := DeleteJob(p, s.origin[p].owner);
    assert job in s.jobs ==> JobOk(s, job);
  }

  lemma CallerStrands(w: World, s: State, l: Label, p: Path)
    requires Sound(w) && Inv(w, s) && (l.Abandon? || l.Remove? || l.MarkFailed?)
    requires CallerStep(w, s, l).Some? && Strands(w, s, l, p)
    ensures Orphan(CallerStep(w, s, l).value, p)
  {
    assert CallerOk(w, s, l.c);
    NobodyDeletes(w, s, p);
  }

  lemma JobStrands(w: World, s: State, l: Label, p: Path)
    requires Inv(w, s) && (l.RunJob? || l.DropJob?) && EnvStep(w, s, l).Some? && Strands(w, s, l, p) && p !in s.damaged
    ensures Orphan(EnvStep(w, s, l).value, p)
  {
    assert JobOk(s, l.job);
  }

  lemma DiscardsDamaged(w: World, s: State, k: Key)
    requires Sound(w) && Inv(w, s) && Discards(w, s, k)
    ensures s.rows[k].storageKey.value in s.damaged
  {
    assert RowOk(w, s, k) && FileOk(w, s, s.rows[k].storageKey.value);
  }

  lemma OrphanMade(w: World, s: State, l: Label, p: Path)
    requires Sound(w) && Inv(w, s) && Step(w, s, l).Some? && Strands(w, s, l, p) && p !in s.damaged
    ensures Orphan(Step(w, s, l).value, p)
  {
    if l.Poll? {
      DiscardsDamaged(w, s, s.callers[l.c].key);
    } else if l.RunJob? || l.DropJob? {
      JobStrands(w, s, l, p);
    } else {
      CallerStrands(w, s, l, p);
    }
  }

  lemma FileStays(w: World, s: State, l: Label, p: Path)
    requires Sound(w) && Inv(w, s) && Step(w, s, l).Some? && Orphan(s, p) && p !in Step(w, s, l).value.damaged
    ensures p in Step(w, s, l).value.files
  {
    if p !in Step(w, s, l).value.files {
      WriterDeletes(w, s, l, p);
      WhoDeletes(w, s, l, p);
      if l.Poll? { PollDeletes(w, s, l.c, l.unlinked, p); }
    }
  }

  lemma NamesOfOrigin(w: World, s: State, k: Key, p: Path)
    requires Inv(w, s) && Names(s, k, p)
    ensures p in s.origin && s.origin[p].key == k && Named(s, p)
  {
    assert RowOk(w, s, k);
  }

  lemma HolderIsOwner(w: World, s: State, c: CallerId, p: Path)
    requires Inv(w, s) && Holds(s, c, p)
    ensures p in s.origin && s.origin[p].owner == c && Held(s, p)
  {
    assert CallerOk(w, s, c);
  }

  /** What a step can do about a file that nobody holds and no row names: nothing. */
  ghost predicate LeftAlone(s: State, t: State, p: Path) {
    && p in s.origin && p in t.origin && t.origin[p] == s.origin[p]
    && s.damaged <= t.damaged
    && (forall c :: Holds(t, c, p) ==> Holds(s, c, p))
    && (forall k :: Names(t, k, p) ==> Names(s, k, p))
    && (forall c :: DeleteJob(p, c) in t.jobs ==> DeleteJob(p, c) in s.jobs)
  }

  lemma MovesLeave(w: World, s: State, t: State, c: CallerId, p: Path)
    requires Fresh(s) && c in s.callers && Moves(w, s, t, c) && RowMoves(s, t, c)
    requires p in s.origin && !Holds(s, c, p) && !Names(s, s.callers[c].key, p)
    ensures LeftAlone(s, t, p)
  {
    forall k ensures Names(t, k, p) ==> Names(s, k, p) {
      if k in t.rows && k != s.callers[c].key { assert k in s.rows && t.rows[k] == s.rows[k]; }
    }
  }

  lemma EnvLeaves(w: World, s: State, l: Label, p: Path)
    requires (l.Arrive? || l.RunJob? || l.DropJob? || l.Tick? || l.Damage?) && EnvStep(w, s, l).Some? && p in s.origin
    ensures LeftAlone(s, EnvStep(w, s, l).value, p)
  {
  }

  lemma StepLeaves(w: World, s: State, l: Label, p: Path)
    requires Sound(w) && Inv(w, s) && Step(w, s, l).Some? && Orphan(s, p)
    ensures LeftAlone(s, Step(w, s, l).value, p)
  {
    if l.Arrive? || l.RunJob? || l.DropJob? || l.Tick? || l.Damage? {
      EnvLeaves(w, s, l, p);
    } else {
      LocalOfInv(w, s, l.c);
      assert GoodMove(w, s, CallerStep(w, s, l).value, l.c) by { CallerMoves(w, s, l); }
      if Holds(s, l.c, p) { HolderIsOwner(w, s, l.c, p); }
      if Names(s, s.callers[l.c].key, p) { NamesOfOrigin(w, s, s.callers[l.c].key, p); }
      MovesLeave(w, s, CallerStep(w, s, l).value, l.c, p);
    }
  }

  lemma LeftOrphan(s: State, t: State, p: Path)
    requires Orphan(s, p) && LeftAlone(s, t, p) && p in t.files
    ensures Orphan(t, p)
  {
    var o := s.origin[p];
    assert !Holds(s, o.owner, p) && !Names(s, o.key, p);
  }

  /** An orphan that nothing damages stays one. */
  lemma OrphanStays(w: World, s: State, l: Label, p: Path)
    requires Sound(w) && Inv(w, s) && Step(w, s, l).Some? && Orphan(s, p) && p !in Step(w, s, l).value.damaged
    ensures Orphan(Step(w, s, l).value, p)
  {
    FileStays(w, s, l, p);
    StepLeaves(w, s, l, p);
    LeftOrphan(s, Step(w, s, l).value, p);
  }

  predicate TakesStep(w: World, ss: seq<State>, ls: seq<Label>, i: nat)
    requires |ss| == |ls| + 1 && i < |ls|
  {
    Step(w, ss[i], ls[i]) == Some(ss[i + 1])
  }

  /** A run with its labels. */
  predicate Follows(w: World, ss: seq<State>, ls: seq<Label>) {
    |ss| == |ls| + 1 && ss[0] == Init && forall i :: 0 <= i < |ls| ==> TakesStep(w, ss, ls, i)
  }

  lemma FollowsRun(w: World, ss: seq<State>, ls: seq<Label>)
    requires Follows(w, ss, ls)
    ensures IsRun(w, ss)
  {
    forall i | 0 <= i < |ss| - 1 ensures StepAt(w, ss, i) { assert TakesStep(w, ss, ls, i); }
  }

  predicate StrandedAt(w: World, ss: seq<State>, ls: seq<Label>, i: nat, p: Path)
    requires |ss| == |ls| + 1 && i < |ls|
  {
    Strands(w, ss[i], ls[i], p)
  }

  predicate StrandedBefore(w: World, ss: seq<State>, ls: seq<Label>, n: nat, p: Path)
    requires |ss| == |ls| + 1 && n <= |ls|
  {
    exists i :: 0 <= i < n && StrandedAt(w, ss, ls, i, p)
  }

  ghost predicate StrandedFacts(s: State, p: Path, stranded: bool) {
    && (stranded <==> p in s.stranded)
    && (stranded && p !in s.damaged ==> Orphan(s, p))
  }

  lemma StrandedNext(w: World, s: State, l: Label, p: Path)
    requires Sound(w) && Inv(w, s) && Step(w, s, l).Some? && StrandedFacts(s, p, p in s.stranded)
    ensures StrandedFacts(Step(w, s, l).value, p, p in s.stranded || Strands(w, s, l, p))
  {
    var t := Step(w, s, l).value;
    StrandedStep(w, s, l, p);
    DamagedGrows(w, s, l);
    if p !in t.damaged {
      if p in s.stranded { OrphanStays(w, s, l, p); }
      if Strands(w, s, l, p) { OrphanMade(w, s, l, p); }
    }
  }

  lemma DamagedGrows(w: World, s: State, l: Label)
    requires Step(w, s, l).Some?
    ensures s.damaged <= Step(w, s, l).value.damaged
  {
  }

  lemma {:induction false} StrandedAlong(w: World, ss: seq<State>, ls: seq<Label>, n: nat, p: Path)
    requires Sound(w) && Follows(w, ss, ls) && n <= |ls|
    ensures StrandedFacts(ss[n], p, StrandedBefore(w, ss, ls, n, p))
  {
    if n > 0 {
      var m := n - 1;
      StrandedAlong(w, ss, ls, m, p);
      FollowsRun(w, ss, ls);
      InvRun(w, ss, m);
      assert TakesStep(w, ss, ls, m);
      StrandedNext(w, ss[m], ls[m], p);
      assert StrandedBefore(w, ss, ls, n, p) <==> StrandedBefore(w, ss, ls, m, p) || StrandedAt(w, ss, ls, m, p);
    }
  }

  /** A final file that no ready row names. */
  predicate IsOrphanFile(s: State, p: Path) { p in s.files && forall k :: k in s.rows ==> !Names(s, k, p) }

  lemma SettledOrphan(w: World, s: State, p: Path)
    requires Inv(w, s) && Settled(s) && StrandedFacts(s, p, p in s.stranded) && p !in s.damaged
    ensures IsOrphanFile(s, p) <==> p in s.stranded
  {
    if p in s.files { assert FileOk(w, s, p); }
    if p in s.stranded {
      forall k | k in s.rows ensures !Names(s, k, p) {
        if Names(s, k, p) { NamesOfOrigin(w, s, k, p); }
      }
    }
  }

  /** When all callers are done, a file that nothing damaged is there without a ready row naming it if
      and only if some step of the run stranded it. */
  lemma OrphanExactlyWhen(w: World, ss: seq<State>, ls: seq<Label>, p: Path)
    requires Sound(w) && Follows(w, ss, ls) && Settled(Last(ss)) && p !in Last(ss).damaged
    ensures IsOrphanFile(Last(ss), p) <==> exists i :: 0 <= i < |ls| && StrandedAt(w, ss, ls, i, p)
  {
    StrandedAlong(w, ss, ls, |ls|, p);
    FollowsRun(w, ss, ls);
    InvRun(w, ss, |ls|);
    SettledOrphan(w, Last(ss), p);
  }

  ghost predicate NothingStranded(w: World, ss: seq<State>, ls: seq<Label>)
    requires |ss| == |ls| + 1
  {
    forall i, p :: 0 <= i < |ls| ==> !StrandedAt(w, ss, ls, i, p)
  }

  /** Hence, without damage, no file remains but the ones that their ready rows name if and only if no
      step of the run strands a file. */
  lemma OnlyReadyFilesRemain(w: World, ss: seq<State>, ls: seq<Label>)
    requires Sound(w) && Follows(w, ss, ls) && Settled(Last(ss)) && Last(ss).damaged == {}
    ensures (forall p :: !IsOrphanFile(Last(ss), p)) <==> NothingStranded(w, ss, ls)
  {
    forall p: Path ensures IsOrphanFile(Last(ss), p) <==> exists i :: 0 <= i < |ls| && StrandedAt(w, ss, ls, i, p) {
      OrphanExactlyWhen(w, ss, ls, p);
    }
    forall i, p | 0 <= i < |ls| && StrandedAt(w, ss, ls, i, p) ensures IsOrphanFile(Last(ss), p) {}
  }

  /** The cleanup is no promise: a second cancellation while the first one waits for the write task
      leaves a final file that no row names, with every caller finished. */
  lemma SecondCancellationLeavesOrphan(w: World, k: Key) returns (ss: seq<State>)
    ensures IsRun(w, ss) && Settled(Last(ss)) && 0 in Last(ss).files
    ensures Last(ss).rows.Keys == {k} && Last(ss).rows[k].storageKey == None
  {
    FirstSteps(w, k);
    CancelledOnce(w, k);
    CancelledTwice(w, k);
    WrittenAnyway(w, k);
    ss := Extended(w, [Init], Arrive(0, k, "a"), Arrived(k, Polling));
    ss := Extended(w, ss, Poll(0, true), Arrived(k, Inserting));
    ss := Extended(w, ss, Insert(0), Claimed(k));
    ss := Extended(w, ss, Render(0, true), Started(k, Writing));
    ss := Extended(w, ss, Write(0, WriteCancelled), Started(k, Unwinding));
    ss := Extended(w, ss, Abandon(0), Orphaned(k, {WriteJob(0)}, map[]));
    ss := Extended(w, ss, RunJob(WriteJob(0)), Orphaned(k, {}, map[0 := w.render(k)]));
  }

  lemma Extended(w: World, ss: seq<State>, l: Label, t: State) returns (more: seq<State>)
    requires IsRun(w, ss) && Step(w, Last(ss), l) == Some(t)
    ensures IsRun(w, more) && Last(more) == t
  {
    more := ss + [t];
    assert Next(w, Last(ss), t);
    forall i | 0 <= i < |more| - 1 ensures StepAt(w, more, i) {
      if i < |ss| - 1 { assert StepAt(w, ss, i); }
    }
  }

  function Started(k: Key, stage: Stage): State {
    State(map[k := Row(Building, None, None, None, None, 0, 0)], map[],
          map[0 := Caller(k, "a", MAX_DB_RETRY_ATTEMPTS, OnDisk(0, 0, stage))],
          {}, 0, 1, 1, map[0 := Origin(k, 0)], {}, {}, map[k := 1])
  }

  function Orphaned(k: Key, jobs: set<Job>, files: map<Path, Bytes>): State {
    State(map[k := Row(Building, None, None, None, None, 0, 0)], files,
          map[0 := Caller(k, "a", MAX_DB_RETRY_ATTEMPTS, Raised)],
          jobs, 0, 1, 1, map[0 := Origin(k, 0)], {}, files.Keys, map[k := 1])
  }

  lemma CancelledOnce(w: World, k: Key)
    ensures Step(w, Started(k, Writing), Write(0, WriteCancelled)) == Some(Started(k, Unwinding))
  {
    assert WriteStep(w, Started(k, Writing), 0, 0, 0, WriteCancelled) == Started(k, Unwinding);
  }

  lemma CancelledTwice(w: World, k: Key)
    ensures Step(w, Started(k, Unwinding), Abandon(0)) == Some(Orphaned(k, {WriteJob(0)}, map[]))
  {
    assert AbandonStep(Started(k, Unwinding), 0) == Orphaned(k, {WriteJob(0)}, map[]);
  }

  lemma WrittenAnyway(w: World, k: Key)
    ensures Step(w, Orphaned(k, {WriteJob(0)}, map[]), RunJob(WriteJob(0))) == Some(Orphaned(k, {}, map[0 := w.render(k)]))
  {
    assert {WriteJob(0)} - {WriteJob(0)} == {};
    assert EnvStep(w, Orphaned(k, {WriteJob(0)}, map[]), RunJob(WriteJob(0))).value == Orphaned(k, {}, map[0 := w.render(k)]);
  }

  function Arrived(k: Key, phase: Phase): State {
    Init.(callers := map[0 := Caller(k, "a", MAX_DB_RETRY_ATTEMPTS, phase)])
  }

  function Claimed(k: Key): State {
    Arrived(k, Rendering(0)).(rows := map[k := Row(Building, None, None, None, None, 0, 0)], nextToken := 1)
  }

  lemma FirstSteps(w: World, k: Key)
    ensures Step(w, Init, Arrive(0, k, "a")) == Some(Arrived(k, Polling))
    ensures Step(w, Arrived(k, Polling), Poll(0, true)) == Some(Arrived(k, Inserting))
    ensures Step(w, Arrived(k, Inserting), Insert(0)) == Some(Claimed(k))
    ensures Step(w, Claimed(k), Render(0, true)) == Some(Started(k, Writing))
  {
    assert SetPhase(Arrived(k, Polling), 0, Inserting) == Arrived(k, Inserting);
    assert Claim(Arrived(k, Inserting), 0, Row(Building, None, None, None, None, 0, 0)) == Claimed(k);
    assert RenderStep(Claimed(k), 0, 0, true) == Started(k, Writing);
  }
}
