/** What one step of the export cache does to the outcome of a call.

    The ways in which a call can end are named here from the state before the step and its label: it marks
    its own row (`MarksOwn`), it polls a row that serves its file (`PollsReady`), it takes a row over under a
    fresh token (`TakesRow`), its build has failed (`BuildFailed`), its mark took effect after all
    (`TookEffect`).

    A step of the environment or of another call leaves a call as it is; for a call's own step there is one
    lemma for each kind of label that can have the effect, and one for all the others. What needs a history
    is carried along the run: the retries of a call (`BudgetAlong`), the names of rows and returned files
    (`NamesAlong`), and the file of a call whose write is done (`WrittenAlong`). The theorems about runs are
    in ExportOutcomes. */
module ExportOutcomeSteps {
  import opened Wrappers
  import opened ExportNames
  import opened ExportCache
  import opened ExportInvariant
  import opened ExportCacheRuns
  import opened ExportOrphans

  predicate Returns(t: State, c: CallerId) { c in t.callers && t.callers[c].phase.Returned? }

  predicate Raises(t: State, c: CallerId) { c in t.callers && t.callers[c].phase.Raised? }

  /** The call's `_mark_ready` is acknowledged while the row of its key carries its claim token. */
  predicate MarksOwn(s: State, l: Label, c: CallerId) {
    && l == Mark(c, Acked) && c in s.callers && TokenOf(s.callers[c].phase).Some?
    && s.callers[c].key in s.rows && s.rows[s.callers[c].key].claimToken == TokenOf(s.callers[c].phase).value
  }

  /** The call polls while the ready row of its key names a file that is there and verifies. */
  predicate PollsReady(w: World, s: State, l: Label, c: CallerId) {
    && l.Poll? && l.c == c && c in s.callers
    && var k := s.callers[c].key;
       k in s.rows && s.rows[k].storageKey.Some? && Serves(w, s, k, s.rows[k].storageKey.value)
  }

  /** The rendered workbook of the call's key, under the sanitized name that the call was given. */
  predicate IsOwnRender(w: World, caller: Caller, file: ExportedFile) {
    && file.content == w.render(caller.key)
    && file.sha256 == w.hash(file.content) && file.sizeBytes == |file.content|
    && file.filename == SanitizeFilename(caller.filename)
  }

  /** The row is ready and names this file at this place. */
  predicate RowNames(row: Row, p: Path, file: ExportedFile) {
    && row.status == Ready && row.storageKey == Some(p)
    && row.filename == Some(file.filename) && row.sha256 == Some(file.sha256) && row.sizeBytes == Some(file.sizeBytes)
  }

  /** What a returning step hands out: after the call's own build, the rendered workbook, which the ready row
      now names at the call's storage key; after a poll, the file that the ready row names. */
  predicate HandsOut(w: World, s: State, t: State, l: Label, c: CallerId)
    requires c in s.callers && Returns(t, c)
  {
    var k, file := s.callers[c].key, t.callers[c].phase.file;
    && k in s.rows && k in t.rows
    && (l.Mark? ==>
          && IsOwnRender(w, s.callers[c], file)
          && PathOf(s.callers[c].phase).Some? && RowNames(t.rows[k], PathOf(s.callers[c].phase).value, file))
    && (l.Poll? ==>
          && t.rows == s.rows && t.files == s.files
          && s.rows[k].storageKey.Some? && RowNames(s.rows[k], s.rows[k].storageKey.value, file)
          && s.rows[k].storageKey.value in s.files && file.content == s.files[s.rows[k].storageKey.value])
  }

  lemma EnvReturnsNothing(w: World, s: State, l: Label, c: CallerId)
    requires l.Arrive? || l.RunJob? || l.DropJob? || l.Tick? || l.Damage?
    requires Step(w, s, l).Some? && !Returns(s, c)
    ensures !Returns(Step(w, s, l).value, c)
  {
  }

  lemma OthersReturnNothing(w: World, s: State, l: Label, c: CallerId)
    requires !(l.Arrive? || l.RunJob? || l.DropJob? || l.Tick? || l.Damage?)
    requires Sound(w) && Inv(w, s) && Step(w, s, l).Some? && l.c != c
    ensures var t := Step(w, s, l).value; c in t.callers <==> c in s.callers
    ensures var t := Step(w, s, l).value; c in s.callers ==> t.callers[c] == s.callers[c]
  {
    LocalOfInv(w, s, l.c);
    assert GoodMove(w, s, CallerStep(w, s, l).value, l.c) by { CallerMoves(w, s, l); }
    assert Moves(w, s, CallerStep(w, s, l).value, l.c);
  }

  lemma MarkReturns(w: World, s: State, l: Label)
    requires l.Mark? && Step(w, s, l).Some?
    ensures l.c in s.callers && (Returns(Step(w, s, l).value, l.c) <==> MarksOwn(s, l, l.c))
    ensures MarksOwn(s, l, l.c) ==> HandsOut(w, s, Step(w, s, l).value, l, l.c)
  {
  }

  lemma PollReturns(w: World, s: State, l: Label)
    requires l.Poll? && Step(w, s, l).Some?
    ensures l.c in s.callers && (Returns(Step(w, s, l).value, l.c) <==> PollsReady(w, s, l, l.c))
    ensures PollsReady(w, s, l, l.c) ==> HandsOut(w, s, Step(w, s, l).value, l, l.c)
  {
  }

  lemma RestReturnsNothing(w: World, s: State, l: Label)
    requires !(l.Arrive? || l.RunJob? || l.DropJob? || l.Tick? || l.Damage? || l.Mark? || l.Poll?)
    requires Step(w, s, l).Some? && !Returns(s, l.c)
    ensures !Returns(Step(w, s, l).value, l.c)
  {
  }

  // ---------------------------------------------------------------- the other ways on

  /** The call now owns the row of its key under a token that nothing carried before. */
  predicate TakesRow(s: State, t: State, c: CallerId) {
    && c in t.callers && t.callers[c].phase.Rendering?
    && var k, token := t.callers[c].key, t.callers[c].phase.token;
       && k in t.rows && t.rows[k].claimToken == token && t.rows[k].status == Building && t.rows[k].createdAt == s.now
       && (forall h :: h in s.rows ==> s.rows[h].claimToken != token)
       && (forall d :: d in s.callers ==> TokenOf(s.callers[d].phase) != Some(token))
  }

  lemma PollFrom(w: World, s: State, l: Label)
    requires Inv(w, s) && Step(w, s, l).Some? && l.Poll?
    ensures var t := Step(w, s, l).value;
            var k := s.callers[l.c].key;
            if k !in s.rows then t == SetPhase(s, l.c, Inserting)
            else if PollsReady(w, s, l, l.c) then Returns(t, l.c)
            else if s.rows[k].status == Building && s.now - s.rows[k].createdAt < w.leaseMs then t == s
            else TakesRow(s, t, l.c)
  {
    forall h | h in s.rows ensures s.rows[h].claimToken < s.nextToken { assert RowOk(w, s, h); }
    forall d | d in s.callers ensures TokenOf(s.callers[d].phase).Some? ==> TokenOf(s.callers[d].phase).value < s.nextToken {
      assert CallerOk(w, s, d);
    }
  }

  lemma InsertFrom(w: World, s: State, l: Label)
    requires Inv(w, s) && Step(w, s, l).Some? && l.Insert?
    ensures var t := Step(w, s, l).value;
            if s.callers[l.c].key in s.rows then t == SetPhase(s, l.c, Polling) else TakesRow(s, t, l.c)
  {
    forall h | h in s.rows ensures s.rows[h].claimToken < s.nextToken { assert RowOk(w, s, h); }
    forall d | d in s.callers ensures TokenOf(s.callers[d].phase).Some? ==> TokenOf(s.callers[d].phase).value < s.nextToken {
      assert CallerOk(w, s, d);
    }
  }

  /** The row names the file that the call is in doubt about. */
  predicate TookEffect(s: State, c: CallerId)
    requires c in s.callers
  {
    && s.callers[c].phase.OnDisk?
    && var k := s.callers[c].key;
       k in s.rows && s.rows[k].status == Ready && s.rows[k].storageKey == Some(s.callers[c].phase.path)
       && s.rows[k].claimToken == s.callers[c].phase.token
  }

  lemma EnvRaisesNothing(w: World, s: State, l: Label, c: CallerId)
    requires l.Arrive? || l.RunJob? || l.DropJob? || l.Tick? || l.Damage?
    requires Step(w, s, l).Some? && !Raises(s, c)
    ensures !Raises(Step(w, s, l).value, c)
  {
  }

  lemma OwnRaises(w: World, s: State, l: Label)
    requires !(l.Arrive? || l.RunJob? || l.DropJob? || l.Tick? || l.Damage?)
    requires Step(w, s, l).Some? && l.c in s.callers && !Raises(s, l.c)
    ensures Raises(Step(w, s, l).value, l.c) <==>
            || l.Abandon? || l.PollCancelled? || l.RemoveCancelled? || l.MarkFailed? || (l.Recheck? && TookEffect(s, l.c))
  {
  }

  /** The call's build has failed or was cancelled: it cleans up and is going to raise. */
  predicate BuildFailed(p: Phase) { p.Failing? || (p.OnDisk? && (p.stage == Unwinding || p.stage == Rechecking || p.stage == Removing(false))) }

  lemma OwnFails(w: World, s: State, l: Label)
    requires !(l.Arrive? || l.RunJob? || l.DropJob? || l.Tick? || l.Damage?)
    requires Step(w, s, l).Some? && l.c in s.callers && !BuildFailed(s.callers[l.c].phase)
    ensures var t := Step(w, s, l).value;
            && l.c in t.callers
            && (BuildFailed(t.callers[l.c].phase) <==>
                  (l.Render? && !l.ok) || (l.Write? && l.wrote != WriteDone) || (l.Mark? && l.reply != Acked))
  {
    if l.Mark? { MarkFails(w, s, l); } else if l.Poll? { PollFailsNothing(w, s, l); } else { RestFails(w, s, l); }
  }

  lemma MarkFails(w: World, s: State, l: Label)
    requires l.Mark? && Step(w, s, l).Some?
    ensures var t := Step(w, s, l).value; l.c in t.callers && (BuildFailed(t.callers[l.c].phase) <==> l.reply != Acked)
  {
  }

  lemma PollFailsNothing(w: World, s: State, l: Label)
    requires l.Poll? && Step(w, s, l).Some?
    ensures var t := Step(w, s, l).value; l.c in t.callers && !BuildFailed(t.callers[l.c].phase)
  {
  }

  lemma RestFails(w: World, s: State, l: Label)
    requires !(l.Arrive? || l.RunJob? || l.DropJob? || l.Tick? || l.Damage? || l.Mark? || l.Poll?)
    requires Step(w, s, l).Some? && l.c in s.callers && !BuildFailed(s.callers[l.c].phase)
    ensures var t := Step(w, s, l).value;
            l.c in t.callers && (BuildFailed(t.callers[l.c].phase) <==> (l.Render? && !l.ok) || (l.Write? && l.wrote != WriteDone))
  {
  }

  lemma OwnFailedRaises(w: World, s: State, l: Label)
    requires !(l.Arrive? || l.RunJob? || l.DropJob? || l.Tick? || l.Damage?)
    requires Step(w, s, l).Some? && l.c in s.callers && BuildFailed(s.callers[l.c].phase)
    ensures var t := Step(w, s, l).value; l.c in t.callers && (BuildFailed(t.callers[l.c].phase) || Raises(t, l.c))
  {
  }

  /** How often a call has retried after a deadlock or lock wait. */
  function Retries(ls: seq<Label>, c: CallerId): nat {
    if ls == [] then 0 else Retries(ls[..|ls| - 1], c) + (if ls[|ls| - 1] == RetryDb(c) then 1 else 0)
  }

  lemma {:induction false} BudgetAlong(w: World, ss: seq<State>, ls: seq<Label>, n: nat, c: CallerId)
    requires Sound(w) && Follows(w, ss, ls) && n <= |ls|
    ensures c !in ss[n].callers ==> Retries(ls[..n], c) == 0
    ensures c in ss[n].callers ==> ss[n].callers[c].retryBudget + Retries(ls[..n], c) == 5
  {
    if n > 0 {
      BudgetAlong(w, ss, ls, n - 1, c);
      FollowsRun(w, ss, ls);
      InvRun(w, ss, n - 1);
      assert TakesStep(w, ss, ls, n - 1);
      assert ls[..n][..n - 1] == ls[..n - 1];
      BudgetStep(w, ss[n - 1], ls[n - 1], c);
    }
  }

  ghost predicate BudgetMoves(s: State, t: State, l: Label, c: CallerId) {
    if c in s.callers
    then c in t.callers && s.callers[c].retryBudget == t.callers[c].retryBudget + (if l == RetryDb(c) then 1 else 0)
    else l != RetryDb(c) && (c in t.callers ==> t.callers[c].retryBudget == 5)
  }

  lemma BudgetStep(w: World, s: State, l: Label, c: CallerId)
    requires Sound(w) && Inv(w, s) && Step(w, s, l).Some?
    ensures BudgetMoves(s, Step(w, s, l).value, l, c)
  {
    if l.Arrive? || l.RunJob? || l.DropJob? || l.Tick? || l.Damage? {
      EnvBudget(w, s, l, c);
    } else if l.c != c {
      OthersReturnNothing(w, s, l, c);
    } else {
      OwnBudget(w, s, l);
    }
  }

  lemma EnvBudget(w: World, s: State, l: Label, c: CallerId)
    requires l.Arrive? || l.RunJob? || l.DropJob? || l.Tick? || l.Damage?
    requires Step(w, s, l).Some?
    ensures BudgetMoves(s, Step(w, s, l).value, l, c)
  {
  }

  predicate BudgetKept(s: State, t: State, c: CallerId)
    requires c in s.callers
  {
    c in t.callers && t.callers[c].retryBudget == s.callers[c].retryBudget
  }

  lemma OwnBudget(w: World, s: State, l: Label)
    requires !(l.Arrive? || l.RunJob? || l.DropJob? || l.Tick? || l.Damage?)
    requires Step(w, s, l).Some?
    ensures l.c in s.callers && BudgetMoves(s, Step(w, s, l).value, l, l.c)
  {
    if l.Poll? {
      assert BudgetKept(s, PollStep(w, s, l.c, l.unlinked), l.c);
    } else if l.Mark? {
      var phase := s.callers[l.c].phase;
      assert BudgetKept(s, MarkStep(w, s, l.c, phase.token, phase.path, l.reply), l.c);
    } else if l.Abandon? {
      assert BudgetKept(s, AbandonStep(s, l.c), l.c);
    } else if !l.RetryDb? {
      RestBudget(w, s, l);
    }
  }

  lemma RestBudget(w: World, s: State, l: Label)
    requires !(l.Arrive? || l.RunJob? || l.DropJob? || l.Tick? || l.Damage? || l.Poll? || l.Mark? || l.Abandon? || l.RetryDb?)
    requires Step(w, s, l).Some?
    ensures l.c in s.callers && BudgetKept(s, Step(w, s, l).value, l.c)
  {
  }

  // ---------------------------------------------------------------- names

  /** Some call for this key was given a name that is sanitized to this one. */
  ghost predicate NameAsked(s: State, k: Key, name: string) {
    exists c :: c in s.callers && s.callers[c].key == k && SanitizeFilename(s.callers[c].filename) == name
  }

  ghost predicate NamesAsked(s: State) {
    && (forall k :: k in s.rows && s.rows[k].filename.Some? ==> NameAsked(s, k, s.rows[k].filename.value))
    && (forall c :: c in s.callers && s.callers[c].phase.Returned? ==> NameAsked(s, s.callers[c].key, s.callers[c].phase.file.filename))
  }

  /** The names of rows and returned files after a step: old ones, or the name of the call that steps. */
  ghost predicate NamesMove(s: State, t: State) {
    && (forall c :: c in s.callers ==> c in t.callers && t.callers[c].key == s.callers[c].key && t.callers[c].filename == s.callers[c].filename)
    && (forall k :: k in t.rows && t.rows[k].filename.Some? ==>
                      || (k in s.rows && s.rows[k].filename == t.rows[k].filename)
                      || NameAsked(s, k, t.rows[k].filename.value))
    && (forall c :: c in t.callers && t.callers[c].phase.Returned? ==>
                      || (c in s.callers && s.callers[c].phase == t.callers[c].phase)
                      || NameAsked(s, t.callers[c].key, t.callers[c].phase.file.filename)
                      || (t.callers[c].key in s.rows && s.rows[t.callers[c].key].filename == Some(t.callers[c].phase.file.filename)))
  }

  lemma NamesKept(s: State, t: State)
    requires NamesAsked(s) && NamesMove(s, t)
    ensures NamesAsked(t)
  {
    forall k, name | NameAsked(s, k, name) ensures NameAsked(t, k, name) {
      var c :| c in s.callers && s.callers[c].key == k && SanitizeFilename(s.callers[c].filename) == name;
      assert c in t.callers;
    }
  }

  ghost predicate NameKept(s: State, t: State, c: CallerId)
    requires c in s.callers
  {
    && c in t.callers && t.callers[c].filename == s.callers[c].filename
    && var k := s.callers[c].key;
       k in t.rows && t.rows[k].filename.Some? ==> k in s.rows && s.rows[k].filename == t.rows[k].filename
  }

  lemma PollNames(w: World, s: State, c: CallerId, unlinked: bool)
    requires c in s.callers
    ensures NameKept(s, PollStep(w, s, c, unlinked), c)
  {
  }

  lemma MarkNames(w: World, s: State, c: CallerId, token: Token, p: Path, reply: MarkReply)
    requires c in s.callers
    ensures var t := MarkStep(w, s, c, token, p, reply);
            && c in t.callers && t.callers[c].filename == s.callers[c].filename
            && var k := s.callers[c].key;
               k in t.rows && t.rows[k].filename.Some? ==>
                 || (k in s.rows && s.rows[k].filename == t.rows[k].filename)
                 || t.rows[k].filename.value == SanitizeFilename(s.callers[c].filename)
  {
  }

  lemma RestNames(w: World, s: State, l: Label)
    requires !(l.Arrive? || l.RunJob? || l.DropJob? || l.Tick? || l.Damage? || l.Poll? || l.Mark?)
    requires Step(w, s, l).Some? && l.c in s.callers
    ensures NameKept(s, Step(w, s, l).value, l.c)
  {
    if !(l.Insert? || l.MarkFailed?) { RowsKept(w, s, l); }
  }

  lemma RowsKept(w: World, s: State, l: Label)
    requires !(l.Arrive? || l.RunJob? || l.DropJob? || l.Tick? || l.Damage? || l.Poll? || l.Mark? || l.Insert? || l.MarkFailed?)
    requires Step(w, s, l).Some? && l.c in s.callers
    ensures var t := Step(w, s, l).value;
            t.rows == s.rows && l.c in t.callers && t.callers[l.c].filename == s.callers[l.c].filename
  {
    if !l.Abandon? { MoreRowsKept(w, s, l); }
  }

  lemma MoreRowsKept(w: World, s: State, l: Label)
    requires l.PollCancelled? || l.RetryDb? || l.Render? || l.Write? || l.Unwind? || l.Recheck? || l.Remove? || l.RemoveCancelled?
    requires Step(w, s, l).Some? && l.c in s.callers
    ensures var t := Step(w, s, l).value;
            t.rows == s.rows && l.c in t.callers && t.callers[l.c].filename == s.callers[l.c].filename
  {
    if l.Render? || l.Write? || l.Unwind? { BuildRowsKept(w, s, l); }
  }

  lemma BuildRowsKept(w: World, s: State, l: Label)
    requires l.Render? || l.Write? || l.Unwind?
    requires Step(w, s, l).Some? && l.c in s.callers
    ensures var t := Step(w, s, l).value;
            t.rows == s.rows && l.c in t.callers && t.callers[l.c].filename == s.callers[l.c].filename
  {
  }

  /** The names that a step of a call can bring in are its own. */
  lemma OwnNames(w: World, s: State, l: Label)
    requires !(l.Arrive? || l.RunJob? || l.DropJob? || l.Tick? || l.Damage?)
    requires Step(w, s, l).Some? && l.c in s.callers
    ensures var t := Step(w, s, l).value;
            && l.c in t.callers && t.callers[l.c].filename == s.callers[l.c].filename
            && var k := s.callers[l.c].key;
               k in t.rows && t.rows[k].filename.Some? ==>
                 || (k in s.rows && s.rows[k].filename == t.rows[k].filename)
                 || t.rows[k].filename.value == SanitizeFilename(s.callers[l.c].filename)
  {
    if l.Poll? {
      PollNames(w, s, l.c, l.unlinked);
    } else if l.Mark? {
      var phase := s.callers[l.c].phase;
      MarkNames(w, s, l.c, phase.token, phase.path, l.reply);
    } else {
      RestNames(w, s, l);
    }
  }

  lemma EnvNames(w: World, s: State, l: Label)
    requires l.Arrive? || l.RunJob? || l.DropJob? || l.Tick? || l.Damage?
    requires Step(w, s, l).Some?
    ensures NamesMove(s, Step(w, s, l).value)
  {
  }

  lemma StepNames(w: World, s: State, l: Label)
    requires Sound(w) && Inv(w, s) && Step(w, s, l).Some?
    ensures NamesMove(s, Step(w, s, l).value)
  {
    if l.Arrive? || l.RunJob? || l.DropJob? || l.Tick? || l.Damage? {
      EnvNames(w, s, l);
    } else {
      var c, t := l.c, Step(w, s, l).value;
      LocalOfInv(w, s, c);
      assert GoodMove(w, s, t, c) by { CallerMoves(w, s, l); }
      assert Moves(w, s, t, c);
      OwnNames(w, s, l);
      if Returns(t, c) { OwnReturnName(w, s, l); }
      CallerNames(w, s, t, c);
    }
  }

  lemma OwnReturnName(w: World, s: State, l: Label)
    requires !(l.Arrive? || l.RunJob? || l.DropJob? || l.Tick? || l.Damage?)
    requires Step(w, s, l).Some? && l.c in s.callers && Returns(Step(w, s, l).value, l.c)
    ensures var t := Step(w, s, l).value;
            var caller := s.callers[l.c];
            || caller.phase == t.callers[l.c].phase
            || t.callers[l.c].phase.file.filename == SanitizeFilename(caller.filename)
            || (caller.key in s.rows && s.rows[caller.key].filename == Some(t.callers[l.c].phase.file.filename))
  {
    if l.Mark? { MarkReturns(w, s, l); } else if l.Poll? { PollReturns(w, s, l); } else { RestReturnsNothing(w, s, l); }
  }

  lemma CallerNames(w: World, s: State, t: State, c: CallerId)
    requires c in s.callers && Moves(w, s, t, c) && t.callers[c].filename == s.callers[c].filename
    requires var k := s.callers[c].key;
             k in t.rows && t.rows[k].filename.Some? ==>
               || (k in s.rows && s.rows[k].filename == t.rows[k].filename)
               || t.rows[k].filename.value == SanitizeFilename(s.callers[c].filename)
    requires var k := s.callers[c].key;
             t.callers[c].phase.Returned? ==>
               || s.callers[c].phase == t.callers[c].phase
               || t.callers[c].phase.file.filename == SanitizeFilename(s.callers[c].filename)
               || (k in s.rows && s.rows[k].filename == Some(t.callers[c].phase.file.filename))
    ensures NamesMove(s, t)
  {
    assert NameAsked(s, s.callers[c].key, SanitizeFilename(s.callers[c].filename));
  }

  lemma NamesNext(w: World, s: State, t: State)
    requires Sound(w) && Inv(w, s) && NamesAsked(s) && Next(w, s, t)
    ensures NamesAsked(t)
  {
    var l :| Step(w, s, l) == Some(t);
    assert NamesMove(s, t) by { StepNames(w, s, l); }
    NamesKept(s, t);
  }

  lemma {:induction false} NamesAlong(w: World, ss: seq<State>, n: nat)
    requires Sound(w) && IsRun(w, ss) && n < |ss|
    ensures NamesAsked(ss[n])
  {
    if n > 0 {
      NamesAlong(w, ss, n - 1);
      InvRun(w, ss, n - 1);
      assert StepAt(w, ss, n - 1);
      NamesNext(w, ss[n - 1], ss[n]);
    }
  }

  // ---------------------------------------------------------------- a written file is served

  /** A call whose write is done has its file, unless something damaged it. */
  ghost predicate Written(s: State) {
    forall c :: c in s.callers ==> HasFile(s, c)
  }

  ghost predicate HasFile(s: State, c: CallerId)
    requires c in s.callers
  {
    var phase := s.callers[c].phase;
    phase.OnDisk? && phase.stage in {Marking, Rechecking} && phase.path !in s.damaged ==> phase.path in s.files
  }

  lemma OwnWrites(w: World, s: State, l: Label)
    requires !(l.Arrive? || l.RunJob? || l.DropJob? || l.Tick? || l.Damage?)
    requires Step(w, s, l).Some? && l.c in s.callers && HasFile(s, l.c)
    ensures var t := Step(w, s, l).value; l.c in t.callers && HasFile(t, l.c)
  {
    if l.Mark? {
      var phase := s.callers[l.c].phase;
      assert HasFile(MarkStep(w, s, l.c, phase.token, phase.path, l.reply), l.c);
    } else if !l.Write? {
      NeitherMarkingNorDoubt(w, s, l);
    }
  }

  predicate NotWritten(s: State, c: CallerId) {
    c in s.callers && !(s.callers[c].phase.OnDisk? && s.callers[c].phase.stage in {Marking, Rechecking})
  }

  lemma NeitherMarkingNorDoubt(w: World, s: State, l: Label)
    requires !(l.Arrive? || l.RunJob? || l.DropJob? || l.Tick? || l.Damage? || l.Mark? || l.Write?)
    requires Step(w, s, l).Some? && l.c in s.callers
    ensures NotWritten(Step(w, s, l).value, l.c)
  {
    if l.Poll? {
      assert NotWritten(PollStep(w, s, l.c, l.unlinked), l.c);
    } else if l.Abandon? {
      assert NotWritten(AbandonStep(s, l.c), l.c);
    } else {
      OthersNotWritten(w, s, l);
    }
  }

  lemma OthersNotWritten(w: World, s: State, l: Label)
    requires !(l.Arrive? || l.RunJob? || l.DropJob? || l.Tick? || l.Damage? || l.Mark? || l.Write? || l.Poll? || l.Abandon?)
    requires Step(w, s, l).Some? && l.c in s.callers
    ensures NotWritten(Step(w, s, l).value, l.c)
  {
  }

  lemma FilesStay(w: World, s: State, l: Label, c: CallerId)
    requires Sound(w) && Inv(w, s) && Step(w, s, l).Some? && c in s.callers && HasFile(s, c)
    requires l.RunJob? || Actor(l) != Some(c)
    requires var t := Step(w, s, l).value; c in t.callers && t.callers[c] == s.callers[c]
    ensures HasFile(Step(w, s, l).value, c)
  {
    var t := Step(w, s, l).value;
    DamagedGrows(w, s, l);
    if PathOf(s.callers[c].phase).Some? {
      var p := PathOf(s.callers[c].phase).value;
      assert CallerOk(w, s, c);
      assert l.RunJob? ==> JobOk(s, l.job);
      if p in s.files && p !in t.files && p !in t.damaged {
        WriterDeletes(w, s, l, p);
        WhoDeletes(w, s, l, p);
      }
    }
  }

  lemma WrittenStep(w: World, s: State, l: Label)
    requires Sound(w) && Inv(w, s) && Written(s) && Step(w, s, l).Some?
    ensures Written(Step(w, s, l).value)
  {
    var t := Step(w, s, l).value;
    forall c | c in t.callers ensures HasFile(t, c) {
      if c !in s.callers {
        assert t.callers[c].phase == Polling by { NewCallPolls(w, s, l, c); }
      } else if l.Arrive? || l.RunJob? || l.DropJob? || l.Tick? || l.Damage? {
        EnvCallers(w, s, l, c);
        FilesStay(w, s, l, c);
      } else if l.c == c {
        OwnWrites(w, s, l);
      } else {
        OthersReturnNothing(w, s, l, c);
        FilesStay(w, s, l, c);
      }
    }
  }

  lemma NewCallPolls(w: World, s: State, l: Label, c: CallerId)
    requires Sound(w) && Inv(w, s) && Step(w, s, l).Some? && c !in s.callers && c in Step(w, s, l).value.callers
    ensures Step(w, s, l).value.callers[c].phase == Polling
  {
    if !(l.Arrive? || l.RunJob? || l.DropJob? || l.Tick? || l.Damage?) {
      if l.c != c { OthersReturnNothing(w, s, l, c); }
    }
  }

  lemma EnvCallers(w: World, s: State, l: Label, c: CallerId)
    requires l.Arrive? || l.RunJob? || l.DropJob? || l.Tick? || l.Damage?
    requires Inv(w, s) && Step(w, s, l).Some? && c in s.callers
    ensures var t := Step(w, s, l).value; c in t.callers && t.callers[c] == s.callers[c]
    ensures l.RunJob? || Actor(l) != Some(c)
  {
  }

  lemma {:induction false} WrittenAlong(w: World, ss: seq<State>, n: nat)
    requires Sound(w) && IsRun(w, ss) && n < |ss|
    ensures Written(ss[n])
  {
    if n > 0 {
      WrittenAlong(w, ss, n - 1);
      InvRun(w, ss, n - 1);
      assert StepAt(w, ss, n - 1);
      var l :| Step(w, ss[n - 1], l) == Some(ss[n]);
      WrittenStep(w, ss[n - 1], l);
    }
  }

  lemma MarkedServes(w: World, s: State, c: CallerId)
    requires Sound(w) && Inv(w, s) && Step(w, s, Mark(c, Acked)).Some? && MarksOwn(s, Mark(c, Acked), c) && HasFile(s, c)
    requires PathOf(s.callers[c].phase).Some? && PathOf(s.callers[c].phase).value !in s.damaged
    ensures Serves(w, Step(w, s, Mark(c, Acked)).value, s.callers[c].key, PathOf(s.callers[c].phase).value)
  {
    assert CallerOk(w, s, c);
    var k, p := s.callers[c].key, PathOf(s.callers[c].phase).value;
    assert FileOk(w, s, p);
    MarkReturns(w, s, Mark(c, Acked));
    assert s.files[p] == w.render(k) && |w.render(k)| > 0;
    var t := Step(w, s, Mark(c, Acked)).value;
    assert t.files == s.files;
  }

  // ---------------------------------------------------------------- a call can always come to a file

  /** The row of the call's key is not inside the lease of a build. */
  predicate LeaseOver(w: World, s: State, k: Key) {
    k in s.rows && s.rows[k].status == Building ==> s.now - s.rows[k].createdAt >= w.leaseMs
  }

  lemma LeaseRunsOut(w: World, s: State, k: Key)
    requires Inv(w, s)
    ensures LeaseOver(w, Step(w, s, Tick(w.leaseMs)).value, k)
  {
    if k in s.rows { assert RowOk(w, s, k); }
  }
}
