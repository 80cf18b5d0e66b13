/** What every step of the export cache keeps.

    The invariant speaks of each row, each caller, each file and each background thread alone. A step
    of a caller is shown to keep it in two parts: a lemma on the step itself, which needs only what
    holds around that caller (`Local`) and yields the frame of the step (`GoodMove`); and one lemma
    that carries the invariant over any such frame (`InvMoves`). The frame names everything that
    the other callers, rows, files and threads depend on: tokens and storage keys are fresh or the
    caller's own, the row of its key is untouched or carries such a token, a new name is the
    caller's own file, and the only file it writes is its own.

    A file that no longer has a name or a holder must be accounted for: it is stranded, or the thread
    of its writer is going to delete it. */
module ExportInvariant {
  import opened Wrappers
  import opened ExportNames
  import opened ExportCache

  // ---------------------------------------------------------------- invariant

  ghost predicate Named(s: State, p: Path)
    requires p in s.origin
  {
    Names(s, s.origin[p].key, p)
  }

  ghost predicate Held(s: State, p: Path)
    requires p in s.origin
  {
    s.origin[p].owner in s.callers && PathOf(s.callers[s.origin[p].owner].phase) == Some(p)
  }

  ghost predicate FileOk(w: World, s: State, p: Path)
    requires p in s.files
  {
    && p in s.origin
    && (p !in s.damaged ==> s.files[p] == w.render(s.origin[p].key))
    && (Named(s, p) || Held(s, p) || p in s.stranded || DeleteJob(p, s.origin[p].owner) in s.jobs)
  }

  ghost predicate RowOk(w: World, s: State, k: Key)
    requires k in s.rows
  {
    var row := s.rows[k];
    && row.claimToken < s.nextToken && row.createdAt <= s.now
    && (row.sha256.Some? ==> row.sha256.value == w.hash(w.render(k)))
    && (row.sizeBytes.Some? ==> row.sizeBytes.value == |w.render(k)|)
    && (row.status == Ready ==> CompleteReady(row))
    && (row.status == Building ==> row.storageKey == None)
    && (row.storageKey.Some? ==> row.storageKey.value in s.origin && s.origin[row.storageKey.value].key == k)
  }

  ghost predicate CallerOk(w: World, s: State, c: CallerId)
    requires c in s.callers
  {
    var caller := s.callers[c];
    var phase := caller.phase;
    && (TokenOf(phase).Some? ==>
          && TokenOf(phase).value < s.nextToken
          && caller.key in s.rows && TokenOf(phase).value <= s.rows[caller.key].claimToken)
    && (PathOf(phase).Some? ==>
          && PathOf(phase).value in s.origin
          && s.origin[PathOf(phase).value] == Origin(caller.key, c)
          && (phase.stage == Writing || phase.stage == Unwinding ==>
                PathOf(phase).value !in s.files && !Names(s, caller.key, PathOf(phase).value)))
    && (phase.Returned? ==>
          && phase.file.content == w.render(caller.key)
          && phase.file.sha256 == w.hash(phase.file.content)
          && phase.file.sizeBytes == |phase.file.content|)
    && (TokenOf(phase).Some? && OwnsRow(s, caller.key, TokenOf(phase).value) ==>
          var row := s.rows[caller.key];
          && (phase.Rendering? || (phase.OnDisk? && phase.stage in {Writing, Unwinding, Marking}) ==> row.status == Building)
          && (row.status == Ready && PathOf(phase).Some? ==> row.storageKey == PathOf(phase))
          && (row.status == Ready && phase.Failing? ==>
                row.storageKey.Some? && row.storageKey.value in s.origin && s.origin[row.storageKey.value].owner == c))
  }

  ghost predicate JobOk(s: State, job: Job) {
    && job.path in s.origin
    && var owner := s.origin[job.path].owner;
       && (job.WriteJob? || job.owner == owner ==> owner in s.callers && Finished(s.callers[owner].phase))
       && (job.WriteJob? ==> job.path !in s.files && !Named(s, job.path) && DeleteJob(job.path, owner) !in s.jobs)
       && (job.DeleteJob? && job.owner != owner ==> job.path in s.damaged)
  }

  ghost predicate Fresh(s: State) {
    && (forall p :: p in s.origin ==> p < s.nextPath)
    && (forall c, d :: c in s.callers && d in s.callers && c != d && TokenOf(s.callers[c].phase).Some?
                       ==> TokenOf(s.callers[c].phase) != TokenOf(s.callers[d].phase))
  }

  ghost predicate Inv(w: World, s: State) {
    && Fresh(s)
    && (forall k :: k in s.rows ==> RowOk(w, s, k))
    && (forall c :: c in s.callers ==> CallerOk(w, s, c))
    && (forall p :: p in s.files ==> FileOk(w, s, p))
    && (forall j :: j in s.jobs ==> JobOk(s, j))
  }

  // ---------------------------------------------------------------- preservation

  predicate Holds(s: State, c: CallerId, p: Path) { c in s.callers && PathOf(s.callers[c].phase) == Some(p) }

  function PhaseOf(s: State, c: CallerId): Phase {
    if c in s.callers then s.callers[c].phase else Raised
  }

  /** A file that caller `c` no longer holds, or a row of its key no longer names, is accounted for. */
  ghost predicate Accounted(s: State, p: Path) {
    p in s.files ==>
      p in s.stranded || (p in s.origin && (Named(s, p) || Held(s, p) || DeleteJob(p, s.origin[p].owner) in s.jobs))
  }

  /** The frame of one step of caller `c`: what it leaves alone, and the ways in which it
      may touch the row of its key, its own file and the background jobs. */
  ghost predicate Moves(w: World, s: State, t: State, c: CallerId)
    requires c in s.callers
  {
    var k := s.callers[c].key;
    var was := PhaseOf(s, c);
    var next := PhaseOf(t, c);
    && t.callers.Keys == s.callers.Keys
    && (forall d :: d in s.callers && d != c ==> t.callers[d] == s.callers[d])
    && t.callers[c].key == k
    && s.nextToken <= t.nextToken && s.nextPath <= t.nextPath && s.now <= t.now
    && (k in s.rows ==> k in t.rows && s.rows[k].claimToken <= t.rows[k].claimToken)
    && (TokenOf(next).Some? ==> TokenOf(next) == TokenOf(was) || s.nextToken <= TokenOf(next).value < t.nextToken)
    && (PathOf(next).Some? ==> PathOf(next) == PathOf(was) || s.nextPath <= PathOf(next).value)
    && (forall p :: p in s.origin ==> p in t.origin && t.origin[p] == s.origin[p])
    && (forall p :: p in t.origin ==> p in s.origin || s.nextPath <= p < t.nextPath)
    && (forall h :: h in t.rows && h != k ==> h in s.rows && t.rows[h] == s.rows[h])
    && (forall h :: h in s.rows ==> h in t.rows)
    && s.stranded <= t.stranded && t.damaged == s.damaged && s.jobs <= t.jobs
    && !Finished(was)
    && (forall j :: j in t.jobs ==> j in s.jobs || (JobOk(t, j) && Begun(s, c, j)))
    && (forall p :: p in t.files ==>
                      || (p in s.files && t.files[p] == s.files[p])
                      || (PathOf(was) == Some(p) && t.files[p] == w.render(k)))
    && (PathOf(was).Some? ==> Accounted(t, PathOf(was).value))
  }

  /** A background thread that caller `c` may leave behind in its step. */
  predicate Begun(s: State, c: CallerId, j: Job)
    requires c in s.callers
  {
    j.DeleteJob? ==> j.owner == c && (Holds(s, c, j.path) || Names(s, s.callers[c].key, j.path))
  }

  /** The row of `c`'s key is untouched, or now carries a token that is or was `c`'s. */
  ghost predicate RowMoves(s: State, t: State, c: CallerId)
    requires c in s.callers
  {
    var k := s.callers[c].key;
    && (k in t.rows ==>
          || (k in s.rows && t.rows[k] == s.rows[k])
          || TokenOf(PhaseOf(t, c)) == Some(t.rows[k].claimToken)
          || TokenOf(PhaseOf(s, c)) == Some(t.rows[k].claimToken))
    && (k in t.rows && t.rows[k].status == Ready && t.rows[k].storageKey.Some? ==>
          Names(s, k, t.rows[k].storageKey.value) || t.rows[k].storageKey == PathOf(PhaseOf(s, c)))
    && (k in s.rows && s.rows[k].storageKey.Some? ==> Accounted(t, s.rows[k].storageKey.value))
  }

  lemma OthersOk(w: World, s: State, t: State, c: CallerId, d: CallerId)
    requires Inv(w, s) && c in s.callers && Moves(w, s, t, c) && RowMoves(s, t, c)
    requires d in s.callers && d != c
    ensures CallerOk(w, t, d)
  {
    assert CallerOk(w, s, d) && CallerOk(w, s, c);
  }

  lemma FilesOk(w: World, s: State, t: State, c: CallerId, p: Path)
    requires Inv(w, s) && c in s.callers && Moves(w, s, t, c) && RowMoves(s, t, c)
    requires p in t.files
    ensures FileOk(w, t, p)
  {
    assert CallerOk(w, s, c);
    if p in s.files { assert FileOk(w, s, p); }
  }

  lemma JobsOk(w: World, s: State, t: State, c: CallerId, j: Job)
    requires Inv(w, s) && c in s.callers && Moves(w, s, t, c) && RowMoves(s, t, c)
    requires j in t.jobs
    ensures JobOk(t, j)
  {
    assert CallerOk(w, s, c);
    if j in s.jobs { assert JobOk(s, j); }
  }

  lemma FreshKept(w: World, s: State, t: State, c: CallerId)
    requires Inv(w, s) && c in s.callers && Moves(w, s, t, c)
    ensures Fresh(t)
  {
    forall d | d in s.callers ensures TokenOf(s.callers[d].phase).Some? ==> TokenOf(s.callers[d].phase).value < s.nextToken {
      assert CallerOk(w, s, d);
    }
  }

  lemma InvMoves(w: World, s: State, t: State, c: CallerId)
    requires Inv(w, s) && c in s.callers && Moves(w, s, t, c) && RowMoves(s, t, c)
    requires CallerOk(w, t, c)
    requires s.callers[c].key in t.rows ==> RowOk(w, t, s.callers[c].key)
    ensures Inv(w, t)
  {
    FreshKept(w, s, t, c);
    forall k | k in t.rows ensures RowOk(w, t, k) { if k != s.callers[c].key { assert RowOk(w, s, k); } }
    forall d | d in t.callers ensures CallerOk(w, t, d) { if d != c { OthersOk(w, s, t, c, d); } }
    forall p | p in t.files ensures FileOk(w, t, p) { FilesOk(w, s, t, c, p); }
    forall j | j in t.jobs ensures JobOk(t, j) { JobsOk(w, s, t, c, j); }
  }

  /** The part of the invariant that caller `c` needs for its own step. */
  ghost predicate Local(w: World, s: State, c: CallerId) {
    && c in s.callers && CallerOk(w, s, c)
    && (PathOf(s.callers[c].phase).Some? ==> DeleteJob(PathOf(s.callers[c].phase).value, c) !in s.jobs)
    && (forall p :: p in s.origin ==> p < s.nextPath)
    && s.files.Keys <= s.origin.Keys
    && (var k := s.callers[c].key;
        k in s.rows ==>
          && RowOk(w, s, k)
          && (s.rows[k].storageKey.Some? ==>
                var p := s.rows[k].storageKey.value;
                && Accounted(s, p)
                && (p in s.files && p !in s.damaged ==> s.files[p] == w.render(k))))
  }

  lemma LocalOfInv(w: World, s: State, c: CallerId)
    requires Inv(w, s) && c in s.callers
    ensures Local(w, s, c)
  {
    var k, phase := s.callers[c].key, s.callers[c].phase;
    assert CallerOk(w, s, c);
    if PathOf(phase).Some? {
      var job := DeleteJob(PathOf(phase).value, c);
      assert job in s.jobs ==> JobOk(s, job);
    }
    if k in s.rows && s.rows[k].storageKey.Some? && s.rows[k].storageKey.value in s.files {
      assert FileOk(w, s, s.rows[k].storageKey.value);
    }
  }

  ghost predicate GoodMove(w: World, s: State, t: State, c: CallerId)
    requires c in s.callers
  {
    && Moves(w, s, t, c) && RowMoves(s, t, c)
    && CallerOk(w, t, c)
    && (s.callers[c].key in t.rows ==> RowOk(w, t, s.callers[c].key))
  }

  /** A step that only suspends the caller somewhere else, for the same claim and file. */
  lemma PhaseMoves(w: World, s: State, c: CallerId, p: Phase)
    requires Local(w, s, c) && !Finished(s.callers[c].phase)
    requires TokenOf(p).Some? ==> TokenOf(p) == TokenOf(s.callers[c].phase)
    requires PathOf(p).Some? ==> PathOf(p) == PathOf(s.callers[c].phase)
    requires CallerOk(w, SetPhase(s, c, p), c)
    requires PathOf(s.callers[c].phase).Some? ==> Accounted(SetPhase(s, c, p), PathOf(s.callers[c].phase).value)
    requires var k := s.callers[c].key;
             k in s.rows && s.rows[k].storageKey.Some? ==> Accounted(SetPhase(s, c, p), s.rows[k].storageKey.value)
    ensures GoodMove(w, s, SetPhase(s, c, p), c)
  {
  }

  lemma AbandonMoves(w: World, s: State, c: CallerId)
    requires Local(w, s, c) && !Finished(s.callers[c].phase)
    ensures GoodMove(w, s, AbandonStep(s, c), c)
  {
    if PathOf(s.callers[c].phase).None? {
      PhaseMoves(w, s, c, Raised);
    } else {
      LeakMoves(w, s, c);
    }
  }

  lemma LeakMoves(w: World, s: State, c: CallerId)
    requires Local(w, s, c) && s.callers[c].phase.OnDisk?
    ensures GoodMove(w, s, AbandonStep(s, c), c)
  {
    LeakFrame(w, s, c);
  }

  lemma LeakFrame(w: World, s: State, c: CallerId)
    requires Local(w, s, c) && s.callers[c].phase.OnDisk?
    ensures Moves(w, s, AbandonStep(s, c), c)
  {
  }

  /** Taking a row: its previous file, if it had one, must be accounted for without it. */
  lemma ClaimMoves(w: World, s: State, s1: State, c: CallerId, row: Row)
    requires Sound(w) && Local(w, s, c) && (s.callers[c].phase == Polling || s.callers[c].phase == Inserting)
    requires s1 == s.(files := s1.files, stranded := s1.stranded) && s.stranded <= s1.stranded
    requires forall p :: p in s1.files ==> p in s.files && s1.files[p] == s.files[p]
    requires row.status == Building && row.storageKey == None
    requires row.sha256.Some? ==> row.sha256.value == w.hash(w.render(s.callers[c].key))
    requires row.sizeBytes.Some? ==> row.sizeBytes.value == |w.render(s.callers[c].key)|
    requires var k := s.callers[c].key;
             k in s.rows && s.rows[k].storageKey.Some? ==>
               var p := s.rows[k].storageKey.value;
               p in s1.files ==> p in s1.stranded || (p in s.origin && (Held(s, p) || DeleteJob(p, s.origin[p].owner) in s.jobs))
    ensures GoodMove(w, s, Claim(s1, c, row), c)
  {
  }

  /** A poll that takes no claim only suspends the caller somewhere else. */
  lemma HitIsPhase(w: World, s: State, c: CallerId, unlinked: bool)
    requires Sound(w) && Local(w, s, c) && s.callers[c].phase == Polling
    requires PollStep(w, s, c, unlinked).nextToken == s.nextToken
    ensures var t := PollStep(w, s, c, unlinked);
            && c in t.callers && t == SetPhase(s, c, t.callers[c].phase)
            && TokenOf(t.callers[c].phase) == None && PathOf(t.callers[c].phase) == None
            && CallerOk(w, t, c)
  {
  }

  lemma HitMoves(w: World, s: State, c: CallerId, unlinked: bool)
    requires Sound(w) && Local(w, s, c) && s.callers[c].phase == Polling
    requires PollStep(w, s, c, unlinked).nextToken == s.nextToken
    ensures GoodMove(w, s, PollStep(w, s, c, unlinked), c)
  {
    HitIsPhase(w, s, c, unlinked);
    PhaseMoves(w, s, c, PollStep(w, s, c, unlinked).callers[c].phase);
  }

  lemma PollMoves(w: World, s: State, c: CallerId, unlinked: bool)
    requires Sound(w) && Local(w, s, c) && s.callers[c].phase == Polling
    ensures GoodMove(w, s, PollStep(w, s, c, unlinked), c)
  {
    var t := PollStep(w, s, c, unlinked);
    var k := s.callers[c].key;
    if t.nextToken == s.nextToken {
      HitMoves(w, s, c, unlinked);
    } else if CompleteReady(s.rows[k]) {
      ClaimMoves(w, s, s.(files := t.files, stranded := t.stranded), c,
                 s.rows[k].(status := Building, sha256 := None, storageKey := None, sizeBytes := None));
    } else if s.rows[k].status == Building {
      ClaimMoves(w, s, s, c, s.rows[k]);
    } else {
      ClaimMoves(w, s, s, c, Row(Building, None, None, None, None, s.now, s.nextToken));
    }
  }

  /** What `_mark_ready` leads to when it reaches the database while the claim token still matches. */
  function Readied(w: World, s: State, c: CallerId, p: Phase): State
    requires c in s.callers && s.callers[c].phase.OnDisk? && s.callers[c].key in s.rows
  {
    var caller := s.callers[c];
    SetPhase(s.(rows := s.rows[caller.key := MarkReadyRow(w, caller, s.rows[caller.key], caller.phase.path)]), c, p)
  }

  predicate AfterMark(w: World, caller: Caller, p: Phase) {
    && caller.phase.OnDisk? && caller.phase.stage == Marking
    && (p.OnDisk? ==> p.token == caller.phase.token && p.path == caller.phase.path && (p.stage == Rechecking || p.stage.Removing?))
    && !p.Rendering? && !p.Failing?
    && (p.Returned? ==> p.file == Rendered(w, caller))
  }

  lemma ReadyFrame(w: World, s: State, c: CallerId, p: Phase)
    requires Sound(w) && Local(w, s, c) && AfterMark(w, s.callers[c], p)
    requires OwnsRow(s, s.callers[c].key, s.callers[c].phase.token)
    ensures Moves(w, s, Readied(w, s, c, p), c)
  {
  }

  lemma ReadyMoves(w: World, s: State, c: CallerId, p: Phase)
    requires Sound(w) && Local(w, s, c) && AfterMark(w, s.callers[c], p)
    requires OwnsRow(s, s.callers[c].key, s.callers[c].phase.token)
    ensures GoodMove(w, s, Readied(w, s, c, p), c)
  {
    ReadyFrame(w, s, c, p);
  }

  lemma MarkMoves(w: World, s: State, c: CallerId, reply: MarkReply)
    requires Sound(w) && Local(w, s, c) && s.callers[c].phase.OnDisk? && s.callers[c].phase.stage == Marking
    ensures GoodMove(w, s, MarkStep(w, s, c, s.callers[c].phase.token, s.callers[c].phase.path, reply), c)
  {
    var m := s.callers[c].phase;
    var t := MarkStep(w, s, c, m.token, m.path, reply);
    if OwnsRow(s, s.callers[c].key, m.token) && (reply.Acked? || reply.landed) {
      ReadyMoves(w, s, c, t.callers[c].phase);
    } else {
      assert t == SetPhase(s, c, t.callers[c].phase);
      PhaseMoves(w, s, c, t.callers[c].phase);
    }
  }

  lemma RecheckMoves(w: World, s: State, c: CallerId)
    requires Sound(w) && Local(w, s, c) && s.callers[c].phase.OnDisk? && s.callers[c].phase.stage == Rechecking
    ensures GoodMove(w, s, RecheckStep(s, c, s.callers[c].phase.token, s.callers[c].phase.path), c)
  {
  }

  lemma MarkFailedMoves(w: World, s: State, c: CallerId, landed: bool)
    requires Sound(w) && Local(w, s, c) && s.callers[c].phase.Failing?
    ensures GoodMove(w, s, MarkFailedStep(s, c, s.callers[c].phase.token, landed), c)
  {
    var t := s.callers[c].phase.token;
    if landed && OwnsRow(s, s.callers[c].key, t) { FailedMoves(w, s, c); } else { PhaseMoves(w, s, c, Raised); }
  }

  lemma FailedMoves(w: World, s: State, c: CallerId)
    requires Sound(w) && Local(w, s, c) && s.callers[c].phase.Failing?
    requires OwnsRow(s, s.callers[c].key, s.callers[c].phase.token)
    ensures GoodMove(w, s, MarkFailedStep(s, c, s.callers[c].phase.token, true), c)
  {
  }

  lemma PollCancelledMoves(w: World, s: State, c: CallerId)
    requires Sound(w) && Local(w, s, c) && s.callers[c].phase == Polling && Discards(w, s, s.callers[c].key)
    ensures GoodMove(w, s, DeleteInBackground(s, c, s.rows[s.callers[c].key].storageKey.value), c)
  {
  }

  lemma RetryDbMoves(w: World, s: State, c: CallerId)
    requires Local(w, s, c) && (s.callers[c].phase == Polling || s.callers[c].phase == Inserting) && RetryStep(s, c).Some?
    ensures GoodMove(w, s, RetryStep(s, c).value, c)
  {
  }

  lemma InsertMoves(w: World, s: State, l: Label)
    requires Sound(w) && l.Insert? && Local(w, s, l.c) && CallerStep(w, s, l).Some?
    ensures GoodMove(w, s, CallerStep(w, s, l).value, l.c)
  {
    if s.callers[l.c].key in s.rows {
      PhaseMoves(w, s, l.c, Polling);
    } else {
      ClaimMoves(w, s, s, l.c, Row(Building, None, None, None, None, s.now, s.nextToken));
    }
  }

  lemma RenderMoves(w: World, s: State, c: CallerId, ok: bool)
    requires Sound(w) && Local(w, s, c) && s.callers[c].phase.Rendering?
    ensures GoodMove(w, s, RenderStep(s, c, s.callers[c].phase.token, ok), c)
  {
    if ok { RenderedMoves(w, s, c); }
  }

  lemma RenderedMoves(w: World, s: State, c: CallerId)
    requires Sound(w) && Local(w, s, c) && s.callers[c].phase.Rendering?
    ensures GoodMove(w, s, RenderStep(s, c, s.callers[c].phase.token, true), c)
  {
  }

  lemma WriteMoves(w: World, s: State, c: CallerId, wrote: WriteReply)
    requires Sound(w) && Local(w, s, c) && s.callers[c].phase.OnDisk? && s.callers[c].phase.stage == Writing
    ensures GoodMove(w, s, WriteStep(w, s, c, s.callers[c].phase.token, s.callers[c].phase.path, wrote), c)
  {
    if wrote == WriteDone {
      FileMoves(w, s, c, Marking);
    } else {
      PhaseMoves(w, s, c, WriteStep(w, s, c, s.callers[c].phase.token, s.callers[c].phase.path, wrote).callers[c].phase);
    }
  }

  lemma FileMoves(w: World, s: State, c: CallerId, next: Stage)
    requires Sound(w) && Local(w, s, c) && s.callers[c].phase.OnDisk? && s.callers[c].phase.stage in {Writing, Unwinding}
    requires next == Marking || next == Removing(false)
    ensures var f := s.callers[c].phase;
            GoodMove(w, s, SetPhase(s, c, OnDisk(f.token, f.path, next)).(files := s.files[f.path := w.render(s.callers[c].key)]), c)
  {
  }

  lemma UnwindMoves(w: World, s: State, c: CallerId, wroteFile: bool)
    requires Sound(w) && Local(w, s, c) && s.callers[c].phase.OnDisk? && s.callers[c].phase.stage == Unwinding
    ensures GoodMove(w, s, UnwindStep(w, s, c, s.callers[c].phase.token, s.callers[c].phase.path, wroteFile), c)
  {
    var f := s.callers[c].phase;
    if wroteFile { FileMoves(w, s, c, Removing(false)); } else { PhaseMoves(w, s, c, OnDisk(f.token, f.path, Removing(false))); }
  }

  lemma RemoveMoves(w: World, s: State, c: CallerId, unlinked: bool)
    requires Sound(w) && Local(w, s, c) && s.callers[c].phase.OnDisk? && s.callers[c].phase.stage.Removing?
    ensures var f := s.callers[c].phase; GoodMove(w, s, RemoveStep(s, c, f.token, f.path, f.stage.retry, unlinked), c)
  {
  }

  lemma RemoveCancelledMoves(w: World, s: State, c: CallerId)
    requires Sound(w) && Local(w, s, c) && s.callers[c].phase.OnDisk? && s.callers[c].phase.stage.Removing?
    ensures GoodMove(w, s, DeleteInBackground(s, c, s.callers[c].phase.path), c)
  {
  }

  lemma InvCaller(w: World, s: State, l: Label)
    requires Sound(w) && Inv(w, s)
    requires !(l.Arrive? || l.RunJob? || l.DropJob? || l.Tick? || l.Damage?)
    requires CallerStep(w, s, l).Some?
    ensures Inv(w, CallerStep(w, s, l).value)
  {
    var c := l.c;
    LocalOfInv(w, s, c);
    assert GoodMove(w, s, CallerStep(w, s, l).value, c) by { CallerMoves(w, s, l); }
    InvMoves(w, s, CallerStep(w, s, l).value, c);
  }

  lemma CallerMoves(w: World, s: State, l: Label)
    requires !(l.Arrive? || l.RunJob? || l.DropJob? || l.Tick? || l.Damage?)
    requires Sound(w) && Local(w, s, l.c) && CallerStep(w, s, l).Some?
    ensures GoodMove(w, s, CallerStep(w, s, l).value, l.c)
  {
    var c := l.c;
    match l
    case Poll(_, unlinked) => PollMoves(w, s, c, unlinked);
    case PollCancelled(_) => PollCancelledMoves(w, s, c);
    case RetryDb(_) => RetryDbMoves(w, s, c);
    case Insert(_) => InsertMoves(w, s, l);
    case Render(_, ok) => RenderMoves(w, s, c, ok);
    case Write(_, wrote) => WriteMoves(w, s, c, wrote);
    case Unwind(_, wroteFile) => UnwindMoves(w, s, c, wroteFile);
    case Mark(_, reply) => MarkMoves(w, s, c, reply);
    case Recheck(_) => RecheckMoves(w, s, c);
    case Remove(_, unlinked) => RemoveMoves(w, s, c, unlinked);
    case RemoveCancelled(_) => RemoveCancelledMoves(w, s, c);
    case MarkFailed(_, landed) => MarkFailedMoves(w, s, c, landed);
    case Abandon(_) => AbandonMoves(w, s, c);
  }

  lemma InvArrive(w: World, s: State, l: Label)
    requires Inv(w, s) && l.Arrive? && EnvStep(w, s, l).Some?
    ensures Inv(w, EnvStep(w, s, l).value)
  {
    var t := EnvStep(w, s, l).value;
    forall d | d in t.callers ensures CallerOk(w, t, d) { if d != l.c { assert CallerOk(w, s, d); } }
    forall p | p in t.files ensures FileOk(w, t, p) { assert FileOk(w, s, p); }
    forall j | j in t.jobs ensures JobOk(t, j) { assert JobOk(s, j); }
    forall k | k in t.rows ensures RowOk(w, t, k) { assert RowOk(w, s, k); }
  }

  lemma InvTick(w: World, s: State, l: Label)
    requires Inv(w, s) && l.Tick? && EnvStep(w, s, l).Some?
    ensures Inv(w, EnvStep(w, s, l).value)
  {
    var t := EnvStep(w, s, l).value;
    forall d | d in t.callers ensures CallerOk(w, t, d) { assert CallerOk(w, s, d); }
    forall p | p in t.files ensures FileOk(w, t, p) { assert FileOk(w, s, p); }
    forall j | j in t.jobs ensures JobOk(t, j) { assert JobOk(s, j); }
    forall k | k in t.rows ensures RowOk(w, t, k) { assert RowOk(w, s, k); }
  }

  lemma InvWriteJob(w: World, s: State, job: Job)
    requires Inv(w, s) && job.WriteJob? && EnvStep(w, s, RunJob(job)).Some?
    ensures Inv(w, EnvStep(w, s, RunJob(job)).value)
  {
    var t := EnvStep(w, s, RunJob(job)).value;
    assert JobOk(s, job);
    forall d | d in t.callers ensures CallerOk(w, t, d) { assert CallerOk(w, s, d); }
    forall p | p in t.files ensures FileOk(w, t, p) { if p in s.files { assert FileOk(w, s, p); } }
    forall j | j in t.jobs ensures JobOk(t, j) { assert JobOk(s, j); }
    forall k | k in t.rows ensures RowOk(w, t, k) { assert RowOk(w, s, k); }
  }

  lemma InvDeleteJob(w: World, s: State, job: Job)
    requires Inv(w, s) && job.DeleteJob? && EnvStep(w, s, RunJob(job)).Some?
    ensures Inv(w, EnvStep(w, s, RunJob(job)).value)
  {
    var t := EnvStep(w, s, RunJob(job)).value;
    assert JobOk(s, job);
    forall d | d in t.callers ensures CallerOk(w, t, d) { assert CallerOk(w, s, d); }
    forall p | p in t.files ensures FileOk(w, t, p) { assert FileOk(w, s, p); }
    forall j | j in t.jobs ensures JobOk(t, j) { assert JobOk(s, j); }
    forall k | k in t.rows ensures RowOk(w, t, k) { assert RowOk(w, s, k); }
  }

  lemma InvDropJob(w: World, s: State, job: Job)
    requires Inv(w, s) && EnvStep(w, s, DropJob(job)).Some?
    ensures Inv(w, EnvStep(w, s, DropJob(job)).value)
  {
    var t := EnvStep(w, s, DropJob(job)).value;
    assert JobOk(s, job);
    forall d | d in t.callers ensures CallerOk(w, t, d) { assert CallerOk(w, s, d); }
    forall p | p in t.files ensures FileOk(w, t, p) { assert FileOk(w, s, p); }
    forall j | j in t.jobs ensures JobOk(t, j) { assert JobOk(s, j); }
    forall k | k in t.rows ensures RowOk(w, t, k) { assert RowOk(w, s, k); }
  }

  lemma InvDamage(w: World, s: State, l: Label)
    requires Inv(w, s) && l.Damage? && EnvStep(w, s, l).Some?
    ensures Inv(w, EnvStep(w, s, l).value)
  {
    var t := EnvStep(w, s, l).value;
    forall d | d in t.callers ensures CallerOk(w, t, d) { assert CallerOk(w, s, d); }
    forall p | p in t.files ensures FileOk(w, t, p) { assert FileOk(w, s, p); }
    forall j | j in t.jobs ensures JobOk(t, j) { assert JobOk(s, j); }
    forall k | k in t.rows ensures RowOk(w, t, k) { assert RowOk(w, s, k); }
  }

  lemma InvStep(w: World, s: State, l: Label)
    requires Sound(w) && Inv(w, s) && Step(w, s, l).Some?
    ensures Inv(w, Step(w, s, l).value)
  {
    match l
    case Arrive(_, _, _) => InvArrive(w, s, l);
    case RunJob(job) => if job.WriteJob? { InvWriteJob(w, s, job); } else { InvDeleteJob(w, s, job); }
    case DropJob(job) => InvDropJob(w, s, job);
    case Tick(_) => InvTick(w, s, l);
    case Damage(_, _) => InvDamage(w, s, l);
    case _ => InvCaller(w, s, l);
  }

  lemma InvNext(w: World, s: State, t: State)
    requires Sound(w) && Inv(w, s) && Next(w, s, t)
    ensures Inv(w, t)
  {
    var l :| Step(w, s, l) == Some(t);
    assert Inv(w, Step(w, s, l).value) by { InvStep(w, s, l); }
  }

  lemma {:induction false} InvRun(w: World, ss: seq<State>, n: nat)
    requires Sound(w) && IsRun(w, ss) && n < |ss|
    ensures forall i :: 0 <= i <= n ==> Inv(w, ss[i])
  {
    if n > 0 {
      InvRun(w, ss, n - 1);
      assert StepAt(w, ss, n - 1);
      InvNext(w, ss[n - 1], ss[n]);
    }
  }
}
