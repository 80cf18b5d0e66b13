/** How a call of the export cache ends, in every run: what it returns and when, when it raises, and that
    it can always come to a file. */
module ExportOutcomes {
  import opened Wrappers
  import opened ExportNames
  import opened ExportCache
  import opened ExportInvariant
  import opened ExportCacheRuns
  import opened ExportOrphans
  import opened ExportOutcomeSteps

  /** A call returns a file in exactly two ways: its own build is acknowledged while the row still carries
      its claim token, or it polls a ready row whose file verifies. */
  lemma ReturnsExactlyWhen(w: World, ss: seq<State>, l: Label, c: CallerId)
    requires Sound(w) && IsRun(w, ss) && Step(w, Last(ss), l).Some? && !Returns(Last(ss), c)
    ensures var s, t := Last(ss), Step(w, Last(ss), l).value;
            && (Returns(t, c) <==> MarksOwn(s, l, c) || PollsReady(w, s, l, c))
            && (Returns(t, c) ==> c in s.callers && HandsOut(w, s, t, l, c))
  {
    var s := Last(ss);
    InvRun(w, ss, |ss| - 1);
    if l.Arrive? || l.RunJob? || l.DropJob? || l.Tick? || l.Damage? {
      EnvReturnsNothing(w, s, l, c);
    } else if l.c != c {
      OthersReturnNothing(w, s, l, c);
    } else if l.Mark? {
      MarkReturns(w, s, l);
    } else if l.Poll? {
      PollReturns(w, s, l);
    } else {
      RestReturnsNothing(w, s, l);
    }
  }

  /** A poll returns the file if the row serves one; without a row it goes on to insert one; inside the lease
      of a build it changes nothing; and in all other cases it takes the row over with a fresh token. */
  lemma PollDecides(w: World, ss: seq<State>, l: Label)
    requires Sound(w) && IsRun(w, ss) && Step(w, Last(ss), l).Some? && l.Poll?
    ensures var s, t := Last(ss), Step(w, Last(ss), l).value;
            var k := s.callers[l.c].key;
            if k !in s.rows then t == SetPhase(s, l.c, Inserting)
            else if PollsReady(w, s, l, l.c) then Returns(t, l.c)
            else if s.rows[k].status == Building && s.now - s.rows[k].createdAt < w.leaseMs then t == s
            else TakesRow(s, t, l.c)
  {
    InvRun(w, ss, |ss| - 1);
    PollFrom(w, Last(ss), l);
  }

  /** An insert takes the row, unless another call was faster: then the call polls again. */
  lemma InsertDecides(w: World, ss: seq<State>, l: Label)
    requires Sound(w) && IsRun(w, ss) && Step(w, Last(ss), l).Some? && l.Insert?
    ensures var s, t := Last(ss), Step(w, Last(ss), l).value;
            if s.callers[l.c].key in s.rows then t == SetPhase(s, l.c, Polling) else TakesRow(s, t, l.c)
  {
    InvRun(w, ss, |ss| - 1);
    InsertFrom(w, Last(ss), l);
  }

  /** A builder that was taken over changes no row when it marks: it removes its file and polls again. */
  lemma FencedPollsAgain(w: World, ss: seq<State>, c: CallerId, unlinked: bool)
    requires Sound(w) && IsRun(w, ss)
    requires Step(w, Last(ss), Mark(c, Acked)).Some? && !MarksOwn(Last(ss), Mark(c, Acked), c)
    ensures var t := Step(w, Last(ss), Mark(c, Acked)).value;
            var u := Step(w, t, Remove(c, unlinked));
            && t.rows == Last(ss).rows && u.Some? && u.value.rows == Last(ss).rows
            && c in u.value.callers && u.value.callers[c].phase == Polling
            && (unlinked ==> PathOf(Last(ss).callers[c].phase).Some? && PathOf(Last(ss).callers[c].phase).value !in u.value.files)
  {
  }

  /** A call raises in exactly these ways: it is killed, its failure has been recorded, it is cancelled
      while a deletion runs, or after a cancellation it finds that its file took effect after all. */
  lemma RaisesExactlyWhen(w: World, ss: seq<State>, l: Label, c: CallerId)
    requires Sound(w) && IsRun(w, ss) && Step(w, Last(ss), l).Some? && c in Last(ss).callers && !Raises(Last(ss), c)
    ensures Raises(Step(w, Last(ss), l).value, c) <==>
            || l == Abandon(c) || l == PollCancelled(c) || l == RemoveCancelled(c)
            || (l.MarkFailed? && l.c == c)
            || (l == Recheck(c) && TookEffect(Last(ss), c))
  {
    var s := Last(ss);
    InvRun(w, ss, |ss| - 1);
    if l.Arrive? || l.RunJob? || l.DropJob? || l.Tick? || l.Damage? {
      EnvRaisesNothing(w, s, l, c);
    } else if l.c != c {
      OthersReturnNothing(w, s, l, c);
    } else {
      OwnRaises(w, s, l);
    }
  }

  /** A failure that was recorded frees the row: whoever polls next takes it, without waiting for the lease. */
  lemma FailureFreesRow(w: World, ss: seq<State>, c: CallerId, d: CallerId, unlinked: bool)
    requires Sound(w) && IsRun(w, ss) && Step(w, Last(ss), MarkFailed(c, true)).Some?
    requires OwnsRow(Last(ss), Last(ss).callers[c].key, Last(ss).callers[c].phase.token)
    requires d in Last(ss).callers && d != c && Last(ss).callers[d].key == Last(ss).callers[c].key
    requires Last(ss).callers[d].phase == Polling
    ensures var t := Step(w, Last(ss), MarkFailed(c, true)).value;
            Step(w, t, Poll(d, unlinked)).Some? && TakesRow(t, Step(w, t, Poll(d, unlinked)).value, d)
  {
    var t := Step(w, Last(ss), MarkFailed(c, true)).value;
    var more := Extended(w, ss, MarkFailed(c, true), t);
    PollDecides(w, more, Poll(d, unlinked));
  }

  /** A call's build fails exactly when its rendering fails, its write fails or is cancelled, or its
      `_mark_ready` fails or is cancelled. */
  lemma FailsExactlyWhen(w: World, ss: seq<State>, l: Label, c: CallerId)
    requires Sound(w) && IsRun(w, ss) && Step(w, Last(ss), l).Some? && c in Last(ss).callers && !BuildFailed(Last(ss).callers[c].phase)
    ensures var t := Step(w, Last(ss), l).value;
            && c in t.callers
            && (BuildFailed(t.callers[c].phase) <==>
                  || l == Render(c, false) || l == Write(c, WriteError) || l == Write(c, WriteCancelled)
                  || (l.Mark? && l.c == c && l.reply != Acked))
  {
    InvRun(w, ss, |ss| - 1);
    if l.Arrive? || l.RunJob? || l.DropJob? || l.Tick? || l.Damage? {
      EnvCallers(w, Last(ss), l, c);
    } else if l.c != c {
      OthersReturnNothing(w, Last(ss), l, c);
    } else {
      OwnFails(w, Last(ss), l);
    }
  }

  /** A call whose build has failed never comes back into the loop: it stays so until it raises. */
  lemma FailedCallRaises(w: World, ss: seq<State>, l: Label, c: CallerId)
    requires Sound(w) && IsRun(w, ss) && Step(w, Last(ss), l).Some? && c in Last(ss).callers && BuildFailed(Last(ss).callers[c].phase)
    ensures var t := Step(w, Last(ss), l).value; c in t.callers && (BuildFailed(t.callers[c].phase) || Raises(t, c))
  {
    InvRun(w, ss, |ss| - 1);
    if l.Arrive? || l.RunJob? || l.DropJob? || l.Tick? || l.Damage? {
      EnvCallers(w, Last(ss), l, c);
    } else if l.c != c {
      OthersReturnNothing(w, Last(ss), l, c);
    } else {
      OwnFailedRaises(w, Last(ss), l);
    }
  }

  /** A call retries a deadlock or lock wait if and only if it has done so fewer than five times. */
  lemma RetriesBounded(w: World, ss: seq<State>, ls: seq<Label>, c: CallerId)
    requires Sound(w) && Follows(w, ss, ls) && c in Last(ss).callers
    requires Last(ss).callers[c].phase == Polling || Last(ss).callers[c].phase == Inserting
    ensures Step(w, Last(ss), RetryDb(c)).Some? <==> Retries(ls, c) < 5
  {
    BudgetAlong(w, ss, ls, |ls|, c);
    assert ls[..|ls|] == ls;
  }

  /** A returned file, and a ready row, carries the sanitized name that some call for its key was given. */
  lemma ReturnedNameWasAsked(w: World, ss: seq<State>, c: CallerId)
    requires Sound(w) && IsRun(w, ss) && Returns(Last(ss), c)
    ensures NameAsked(Last(ss), Last(ss).callers[c].key, Last(ss).callers[c].phase.file.filename)
  {
    NamesAlong(w, ss, |ss| - 1);
  }

  /** After an acknowledged build the row serves the file that was built, unless it was damaged meanwhile:
      every call that polls next returns it. */
  lemma BuiltFileIsServed(w: World, ss: seq<State>, c: CallerId)
    requires Sound(w) && IsRun(w, ss) && Step(w, Last(ss), Mark(c, Acked)).Some? && MarksOwn(Last(ss), Mark(c, Acked), c)
    requires PathOf(Last(ss).callers[c].phase).Some? && PathOf(Last(ss).callers[c].phase).value !in Last(ss).damaged
    ensures Serves(w, Step(w, Last(ss), Mark(c, Acked)).value, Last(ss).callers[c].key, PathOf(Last(ss).callers[c].phase).value)
  {
    var s := Last(ss);
    InvRun(w, ss, |ss| - 1);
    WrittenAlong(w, ss, |ss| - 1);
    assert CallerOk(w, s, c) && HasFile(s, c);
    MarkedServes(w, s, c);
  }

  /** A continuation in which only call `c` and the clock have moved. */
  ghost predicate OnlyMoves(ss: seq<State>, more: seq<State>, c: CallerId)
    requires ss != []
  {
    && |ss| <= |more| && more[..|ss|] == ss
    && forall d :: d in Last(ss).callers && d != c ==> d in Last(more).callers && Last(more).callers[d] == Last(ss).callers[d]
  }

  lemma StepOn(w: World, ss: seq<State>, more: seq<State>, l: Label, c: CallerId) returns (on: seq<State>)
    requires Sound(w) && ss != [] && IsRun(w, more) && OnlyMoves(ss, more, c)
    requires Step(w, Last(more), l).Some? && (l.Tick? || ((l.Poll? || l.Insert? || l.Render? || l.Write? || l.Mark?) && l.c == c))
    ensures IsRun(w, on) && OnlyMoves(ss, on, c) && Last(on) == Step(w, Last(more), l).value
  {
    var t := Step(w, Last(more), l).value;
    on := more + [t];
    assert Next(w, Last(more), t);
    forall i | 0 <= i < |on| - 1 ensures StepAt(w, on, i) {
      if i < |more| - 1 { assert StepAt(w, more, i); }
    }
    InvRun(w, more, |more| - 1);
    forall d | d in Last(ss).callers && d != c ensures d in t.callers && t.callers[d] == Last(ss).callers[d] {
      if !l.Tick? { OthersReturnNothing(w, Last(more), l, d); }
    }
    assert on[..|ss|] == more[..|ss|];
  }

  /** A builder that is not disturbed returns its file: render, write, mark. */
  lemma BuildReturns(w: World, ss: seq<State>, more: seq<State>, c: CallerId) returns (on: seq<State>)
    requires Sound(w) && ss != [] && IsRun(w, more) && OnlyMoves(ss, more, c)
    requires c in Last(more).callers && Last(more).callers[c].phase.Rendering?
    requires OwnsRow(Last(more), Last(more).callers[c].key, Last(more).callers[c].phase.token)
    ensures IsRun(w, on) && OnlyMoves(ss, on, c) && Returns(Last(on), c)
  {
    on := StepOn(w, ss, more, Render(c, true), c);
    on := StepOn(w, ss, on, Write(c, WriteDone), c);
    on := StepOn(w, ss, on, Mark(c, Acked), c);
  }

  /** From every reachable state, a call at the top of its loop can come to a file by its own steps alone,
      once the lease of whatever build is under way has run out. */
  lemma CanReturn(w: World, ss: seq<State>, c: CallerId) returns (more: seq<State>)
    requires Sound(w) && IsRun(w, ss) && c in Last(ss).callers && Last(ss).callers[c].phase == Polling
    ensures IsRun(w, more) && OnlyMoves(ss, more, c) && Returns(Last(more), c)
  {
    more := StepOn(w, ss, ss, Tick(w.leaseMs), c);
    InvRun(w, ss, |ss| - 1);
    LeaseRunsOut(w, Last(ss), Last(ss).callers[c].key);
    more := PollOrBuild(w, ss, more, c);
  }

  lemma PollOrBuild(w: World, ss: seq<State>, more: seq<State>, c: CallerId) returns (on: seq<State>)
    requires Sound(w) && ss != [] && IsRun(w, more) && OnlyMoves(ss, more, c)
    requires c in Last(more).callers && Last(more).callers[c].phase == Polling
    requires LeaseOver(w, Last(more), Last(more).callers[c].key)
    ensures IsRun(w, on) && OnlyMoves(ss, on, c) && Returns(Last(on), c)
  {
    PollDecides(w, more, Poll(c, true));
    on := StepOn(w, ss, more, Poll(c, true), c);
    if Last(on).callers[c].phase == Inserting {
      InsertDecides(w, on, Insert(c));
      on := StepOn(w, ss, on, Insert(c), c);
    }
    if !Returns(Last(on), c) { on := BuildReturns(w, ss, on, c); }
  }
}
