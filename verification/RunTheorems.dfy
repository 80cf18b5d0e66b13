/** What the client shows of a run, whatever was repeated, reordered or left out in its event stream. */
module RunTheorems {
  import opened Wrappers
  import opened RunReducer

  /** A stream with repeated, reordered or foreign events has the effect of its strictly increasing
      subsequence, applied without any check. */
  lemma {:induction false} FoldIsFresh(s: State, es: seq<Event>)
    ensures Fold(s, es) == ApplyAll(s, Fresh(s.runId, s.lastEventId, es))
    ensures Fold(s, es).runId == s.runId && Fold(s, es).lastEventId == Highest(s.runId, s.lastEventId, es)
  {
    if es != [] {
      var head, e := es[..|es| - 1], es[|es| - 1];
      FoldIsFresh(s, head);
      var kept := Fresh(s.runId, s.lastEventId, head);
      ApplyMarks(Fold(s, head), e);
      if e.runId == s.runId && e.id > Highest(s.runId, s.lastEventId, head) {
        assert (kept + [e])[..|kept + [e]| - 1] == kept;
      } else {
        assert kept + [] == kept;
      }
    }
  }

  lemma {:induction false} FreshIncreases(runId: string, from: nat, es: seq<Event>)
    ensures Increasing(from, Fresh(runId, from, es))
    ensures forall i :: 0 <= i < |Fresh(runId, from, es)| ==> Fresh(runId, from, es)[i].runId == runId
    ensures Highest(runId, from, es) == var f := Fresh(runId, from, es); if f == [] then from else f[|f| - 1].id
  {
    if es != [] {
      var head, e := es[..|es| - 1], es[|es| - 1];
      FreshIncreases(runId, from, head);
      var kept := Fresh(runId, from, head);
      if e.runId == runId && e.id > Highest(runId, from, head) {
        IncreasesMore(from, kept, e);
      } else {
        assert kept + [] == kept;
      }
    }
  }

  /** After a reconnect, any replay of what was seen is without effect, and folding it twice is folding it once. */
  lemma FoldTwice(s: State, es: seq<Event>)
    ensures Fold(Fold(s, es), es) == Fold(s, es)
  {
    FoldIsFresh(s, es);
    forall i | 0 <= i < |es| ensures es[i].id <= Fold(s, es).lastEventId || es[i].runId != s.runId {
      if es[i].runId == s.runId { HighestCovers(s.runId, s.lastEventId, es, i); }
    }
    ReplayIsIdle(Fold(s, es), es);
  }

  /** The shown thinking text is the text of the events that count, in order, whatever was replayed. */
  lemma ThinkingIsWhatWasSaid(runId: string, es: seq<Event>, s: State)
    requires s == Fold(Initial(runId), es)
    ensures s.thinking == Said(Fresh(runId, 0, es))
  {
    FoldIsFresh(Initial(runId), es);
    AllThinks(Initial(runId), Fresh(runId, 0, es));
    assert "" + Said(Fresh(runId, 0, es)) == Said(Fresh(runId, 0, es));
  }

  /** Whatever the stream, the list of tool calls and the tool steps show the same number of calls in
      every status, although one closes its first running entry and the other its last. */
  lemma CallsAndStepsAgree(runId: string, es: seq<Event>, status: CallStatus)
    ensures var s := Fold(Initial(runId), es); CallsIn(s.toolCalls, status) == ToolStepsIn(s.steps, status)
  {
    FoldAgrees(Initial(runId), es);
  }

  /** The status shown is the one announced last by the events that count; before any announcement, it is
      running once thinking or a tool call has begun. The stream is closed once a terminal event has come. */
  lemma StatusIsLastAnnounced(runId: string, es: seq<Event>, status: Status)
    ensures var s, counted := Fold(Initial(runId), es), Fresh(runId, 0, es);
            && (s.status == Some(status) <==> AnnouncedLast(counted, status) || (status == Running && Underway(counted)))
            && (s.closed <==> SomeTerminal(counted))
            && (s.messageCompleted <==> SomeCompleted(counted))
  {
    FoldIsFresh(Initial(runId), es);
    StatusMeaning(runId, Fresh(runId, 0, es), status);
    ClosedMeaning(runId, Fresh(runId, 0, es));
  }

  /** Whatever the stream, the tool calls shown are those begun by the events that count, and the results that
      found a call waiting belong to them in order. */
  lemma ResultsInOrder(runId: string, es: seq<Event>)
    ensures Queued(Fold(Initial(runId), es).toolCalls, Begun(Fresh(runId, 0, es)), Results(Fresh(runId, 0, es)))
  {
    FoldIsFresh(Initial(runId), es);
    CallsQueued(runId, Fresh(runId, 0, es));
  }
}
