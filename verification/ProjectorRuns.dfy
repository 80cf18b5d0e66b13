/** Properties of every run of the projector: any sequence of SDK events, timer flushes and
    final flushes, each at any clock reading.

    Each function of the projector is first shown to emit, for either channel, exactly the text that
    it takes from the pending batch and from its input (`Emits`). Composing these along a run gives the
    numbering and the conservation of text. Where batches are cut is followed separately, by the
    position of every cut in the text accepted so far: it is a boundary between characters or the
    edge of a delta. */
module ProjectorRuns {
  import opened Wrappers
  import opened Utf16Text
  import opened Protocol
  import opened Projection
  import opened DeltaConservation

  datatype Input = Sdk(e: SdkEvent, now: int) | FlushDue(now: int) | FlushNow

  function Respond(attempt: string, s: State, i: Input): (State, seq<Event>) {
    match i
    case Sdk(e, now) => Project(attempt, s, e, now)
    case FlushDue(now) => FlushIfDue(attempt, s, now)
    case FlushNow => Flush(attempt, s)
  }

  function Before(ins: seq<Input>): seq<Input>
    requires ins != []
  {
    ins[..|ins| - 1]
  }

  function Last(ins: seq<Input>): Input
    requires ins != []
  {
    ins[|ins| - 1]
  }

  /** The final state and all events of a run, in the order in which they were emitted. */
  function Run(attempt: string, ins: seq<Input>): (State, seq<Event>) {
    if ins == [] then (Init, [])
    else
      var (s, es) := Run(attempt, Before(ins));
      var (t, fs) := Respond(attempt, s, Last(ins));
      (t, es + fs)
  }

  /** The delta text a single input contributes to a channel. */
  function Offered(i: Input, c: Channel): Text {
    if i.Sdk? && i.e.Delta? && i.e.channel == c && i.e.delta.Some? then i.e.delta.value else []
  }

  /** All delta text the projector accepted on a channel. */
  function Accepted(ins: seq<Input>, c: Channel): Text {
    if ins == [] then [] else Accepted(Before(ins), c) + Offered(Last(ins), c)
  }

  // ---------------------------------------------------------------- conservation and numbering

  lemma CompletedFacts(attempt: string, s: State, kind: FrameKind, c: Channel)
    ensures var (t, es) := Completed(attempt, s, kind); t.pending == s.pending && Emits(attempt, s, t, es, c, [])
  {
    var (t, es) := Completed(attempt, s, kind);
    if es == [] { EmitsNothing(attempt, s, t, c); } else { EmitsOther(attempt, s, t, es[0], c); }
  }

  lemma GenericFacts(attempt: string, s: State, kind: FrameKind, identity: Option<Text>, c: Channel)
    ensures var (t, es) := ProjectGeneric(attempt, s, kind, identity); t.pending == s.pending && Emits(attempt, s, t, es, c, [])
  {
    var (t, es) := ProjectGeneric(attempt, s, kind, identity);
    if es == [] { EmitsNothing(attempt, s, t, c); } else { EmitsOther(attempt, s, t, es[0], c); }
  }

  lemma AccountingFacts(attempt: string, s: State, kind: FrameKind, usage: Option<Usage>, c: Channel)
    ensures var (t, es) := ProjectAccounting(attempt, s, kind, usage); t.pending == s.pending && Emits(attempt, s, t, es, c, [])
  {
    var (t, es) := ProjectAccounting(attempt, s, kind, usage);
    if es == [] { EmitsNothing(attempt, s, t, c); } else { EmitsOther(attempt, s, t, es[0], c); }
  }

  lemma FrameFacts(attempt: string, s: State, e: SdkEvent, c: Channel)
    requires Ok(s) && e.Frame?
    ensures var (t, es) := ProjectFrame(attempt, s, e); t.pending == map[] && Emits(attempt, s, t, es, c, [])
  {
    var (s1, flushed) := Flush(attempt, s);
    var n1 := Noted(s1, e.kind);
    var (s2, completed) := Completed(attempt, n1, e.kind);
    var (s3, generic) := ProjectGeneric(attempt, s2, e.kind, e.identity);
    var (s4, accounting) := ProjectAccounting(attempt, s3, e.kind, UsageOf(e));
    FlushFacts(attempt, s, c);
    assert Emits(attempt, s, n1, flushed, c, []);
    CompletedFacts(attempt, n1, e.kind, c);
    EmitsThen(attempt, s, n1, s2, flushed, completed, c, [], []);
    GenericFacts(attempt, s2, e.kind, e.identity, c);
    EmitsThen(attempt, s, s2, s3, flushed + completed, generic, c, [], []);
    AccountingFacts(attempt, s3, e.kind, UsageOf(e), c);
    EmitsThen(attempt, s, s3, s4, flushed + completed + generic, accounting, c, [], []);
  }

  lemma RespondFacts(attempt: string, s: State, i: Input, c: Channel)
    requires Ok(s)
    ensures var (t, es) := Respond(attempt, s, i);
            Ok(t) && Emits(attempt, s, t, es, ChannelOf(i, c), Offered(i, ChannelOf(i, c)))
  {
    match i
    case FlushDue(now) => FlushIfDueFacts(attempt, s, now, c);
    case FlushNow => FlushFacts(attempt, s, c);
    case Sdk(e, now) =>
      match e
      case Malformed => EmitsNothing(attempt, s, s, c);
      case Frame(_, _, _) => FrameFacts(attempt, s, e, c);
      case Delta(channel, delta) =>
        FlushIfDueFacts(attempt, s, now, channel);
        var (t, es) := FlushIfDue(attempt, s, now);
        if delta.Some? {
          AppendFacts(attempt, t, channel, delta.value, now);
          var (u, fs) := Append(attempt, t, channel, delta.value, now);
          EmitsThen(attempt, s, t, u, es, fs, channel, [], delta.value);
          assert [] + delta.value == delta.value;
        }
  }

  function ChannelOf(i: Input, c: Channel): Channel { if i.Sdk? && i.e.Delta? then i.e.channel else c }

  lemma {:induction false} RunFacts(attempt: string, ins: seq<Input>)
    ensures var (s, es) := Run(attempt, ins);
            && Ok(s)
            && NumberedFrom(attempt, 1, es) && s.sequence == |es| + 1
            && GoodEvents(es)
            && (forall c :: TextOf(es, c) + PendingText(s, c) == Accepted(ins, c))
  {
    if ins != [] {
      RunFacts(attempt, Before(ins));
      var (s, es) := Run(attempt, Before(ins));
      var (t, fs) := Respond(attempt, s, Last(ins));
      RespondFacts(attempt, s, Last(ins), Message);
      forall c ensures TextOf(es + fs, c) + PendingText(t, c) == Accepted(ins, c) {
        TextOfConcat(es, fs, c);
        Regroup(TextOf(es, c), TextOf(fs, c), [], PendingText(s, c), PendingText(t, c),
                Accepted(Before(ins), c), Offered(Last(ins), c));
      }
    }
  }

  /** Numbering: 1, 2, 3, ... with no gap, over all calls. */
  lemma NumberedWithoutGap(attempt: string, ins: seq<Input>, i: nat)
    requires i < |Run(attempt, ins).1|
    ensures var e := Run(attempt, ins).1[i]; e.sequence == i + 1 && e.id == SourceId(attempt, i + 1)
  {
    RunFacts(attempt, ins);
  }

  /** Nothing is lost, doubled or reordered: what was emitted and what is pending spell out
      exactly what was accepted, channel by channel. */
  lemma TextConserved(attempt: string, ins: seq<Input>, c: Channel)
    ensures var (s, es) := Run(attempt, ins); TextOf(es, c) + PendingText(s, c) == Accepted(ins, c)
  {
    RunFacts(attempt, ins);
  }

  /** The worker's exit path ends with a flush: then everything accepted has been emitted. */
  lemma FlushedAtExit(attempt: string, ins: seq<Input>, c: Channel)
    ensures TextOf(Run(attempt, ins + [FlushNow]).1, c) == Accepted(ins, c)
  {
    var all := ins + [FlushNow];
    assert Before(all) == ins;
    RunFacts(attempt, ins);
    RunFacts(attempt, all);
    FlushFacts(attempt, Run(attempt, ins).0, c);
    assert PendingText(Run(attempt, all).0, c) == [] && Accepted(ins, c) + [] == Accepted(ins, c);
  }

  /** Any SDK event that is not a delta is a boundary: it leaves no batch behind. */
  lemma BoundaryLeavesNothingPending(attempt: string, ins: seq<Input>)
    requires ins != [] && Last(ins).Sdk? && Last(ins).e.Frame?
    ensures Run(attempt, ins).0.pending == map[]
  {
    RunFacts(attempt, Before(ins));
    FrameFacts(attempt, Run(attempt, Before(ins)).0, Last(ins).e, Message);
  }

  predicate AttemptChar(c: char) { IdChar(c) && c != ':' }

  /** The constructor's check on the attempt id. */
  predicate AttemptAccepted(attempt: string) {
    1 <= |attempt| <= 64 && forall i :: 0 <= i < |attempt| ==> AttemptChar(attempt[i])
  }

  /** Every delta event stays within all limits of the source-event contract, whatever its text
      is made of: escaping at most 4096 bytes cannot exceed the payload limit. */
  lemma DeltaEventsAccepted(attempt: string, ins: seq<Input>, i: nat)
    requires AttemptAccepted(attempt) && i < |Run(attempt, ins).1| && IsDelta(Run(attempt, ins).1[i])
    requires i < MAX_SEQUENCE
    ensures EventAccepted(Run(attempt, ins).1[i]) && GoodDelta(Run(attempt, ins).1[i])
  {
    RunFacts(attempt, ins);
    GoodDeltaAccepted(attempt, i + 1, Run(attempt, ins).1[i]);
  }

  lemma GoodDeltaAccepted(attempt: string, n: nat, e: Event)
    requires AttemptAccepted(attempt) && IsDelta(e) && GoodDelta(e)
    requires e.id == SourceId(attempt, n) && e.sequence == n && 1 <= n <= MAX_SEQUENCE
    ensures EventAccepted(e)
  {
    SequenceDigits(n);
    var p := e.payload;
    var text := p[0].value.text;
    JsonBound(text);
    BytesBounds(text);
    SmallCount(p[1].value.n);
    assert FieldsBytes(p) == 7 + JsonBytes(text) + 1 + FieldsBytes(p[1..]);
    assert p[1..][0] == p[1] && p[1..][1..] == [p[2]];
    assert FieldsBytes(p[1..]) == 14 + Digits(p[1].value.n) + 1 + FieldsBytes([p[2]]);
    assert FieldsBytes([p[2]]) == 14;
    assert Lower("text") == "text" && Lower("delta_count") == "delta_count" && Lower("batched") == "batched";
  }

  lemma SmallCount(n: nat)
    requires n <= DELTA_BATCH_MAX_PARTS
    ensures Digits(n) <= 2
  {
  }

  // ---------------------------------------------------------------- where batches are cut

  /** Ends of the accepted deltas, as positions in the channel's text. */
  function Edges(ins: seq<Input>, c: Channel): set<nat> {
    if ins == [] then {0} else Edges(Before(ins), c) + {|Accepted(ins, c)|}
  }

  /** A cut that parts no surrogate pair which arrived within one delta. */
  predicate CleanCut(ins: seq<Input>, c: Channel, p: nat) {
    p <= |Accepted(ins, c)| && (p in Edges(ins, c) || Boundary(Accepted(ins, c), p))
  }

  /** `k` units of the channel have been emitted out of `waiting` pending ones followed by `delta`:
      none, or all that waited and the delta up to a character boundary. */
  predicate CutsDelta(waiting: nat, delta: Text, k: nat) {
    k == 0 || (waiting <= k <= waiting + |delta| && Boundary(delta, k - waiting))
  }

  lemma BoundaryShift(t: Text, n: nat, k: nat)
    requires n <= |t| && Boundary(t, n) && k <= |t| - n && Boundary(t[n..], k)
    ensures Boundary(t, n + k)
  {
    if 0 < k < |t| - n { assert t[n..][k - 1] == t[n + k - 1] && t[n..][k] == t[n + k]; }
  }

  lemma AppendOnceCuts(attempt: string, s: State, c: Channel, remaining: Text, now: int)
    requires Ok(s) && remaining != []
    ensures var (t, es, n) := AppendOnce(attempt, s, c, remaining, now);
            && Boundary(remaining, n)
            && |es| <= 1
            && (es != [] ==> |TextOf(es, c)| == |PendingText(s, c)| + n && c !in t.pending)
            && (es == [] ==> |PendingText(t, c)| == |PendingText(s, c)| + n)
  {
    var (t, es, n) := AppendOnce(attempt, s, c, remaining, now);
    OpenFacts(attempt, s, c, now);
    var b := Open(attempt, s, c, now).0.pending[c];
    FitLenMeaning(remaining, Room(b));
    AppendOnceFacts(attempt, s, c, remaining, now);
    assert TextOf(es, c) + PendingText(t, c) == PendingText(s, c) + remaining[..n];
  }

  lemma PositionSplit(es: seq<Event>, fs: seq<Event>, c: Channel, m: nat)
    requires |es| <= m <= |es| + |fs|
    ensures |TextOf((es + fs)[..m], c)| == |TextOf(es, c)| + |TextOf(fs[..m - |es|], c)|
  {
    assert (es + fs)[..m] == es + fs[..m - |es|];
    TextOfConcat(es, fs[..m - |es|], c);
  }

  lemma CutsCompose(waiting: nat, from: nat, emitted: nat, remaining: Text, n: nat, k: nat)
    requires n <= |remaining| && Boundary(remaining, n)
    requires (emitted == waiting + n && from == 0) || (emitted == 0 && from == waiting + n)
    requires CutsDelta(from, remaining[n..], k)
    ensures CutsDelta(waiting, remaining, emitted + k)
  {
    if k != 0 { BoundaryShift(remaining, n, k - from); }
  }

  /** The cuts inside the events of one input, when `waiting` units of the channel are pending. */
  ghost predicate CutsWell(es: seq<Event>, c: Channel, waiting: nat, delta: Text) {
    forall m :: 0 <= m <= |es| ==> CutsDelta(waiting, delta, |TextOf(es[..m], c)|)
  }

  lemma OnceThenCuts(es: seq<Event>, fs: seq<Event>, c: Channel, waiting: nat, from: nat, remaining: Text, n: nat)
    requires n <= |remaining| && Boundary(remaining, n) && |es| <= 1
    requires es != [] ==> |TextOf(es, c)| == waiting + n && from == 0
    requires es == [] ==> from == waiting + n
    requires CutsWell(fs, c, from, remaining[n..])
    ensures CutsWell(es + fs, c, waiting, remaining)
  {
    forall m | 0 <= m <= |es + fs| ensures CutsDelta(waiting, remaining, |TextOf((es + fs)[..m], c)|) {
      if m >= |es| {
        PositionSplit(es, fs, c, m);
        assert CutsDelta(from, remaining[n..], |TextOf(fs[..m - |es|], c)|);
        CutsCompose(waiting, from, |TextOf(es, c)|, remaining, n, |TextOf(fs[..m - |es|], c)|);
      }
    }
  }

  lemma {:induction false} AppendCuts(attempt: string, s: State, c: Channel, remaining: Text, now: int)
    requires Ok(s)
    ensures CutsWell(Append(attempt, s, c, remaining, now).1, c, |PendingText(s, c)|, remaining)
    decreases |remaining|, if c in s.pending then 1 else 0
  {
    if remaining != [] {
      var (t, es, n) := AppendOnce(attempt, s, c, remaining, now);
      AppendOnceFacts(attempt, s, c, remaining, now);
      AppendOnceProgress(attempt, s, c, remaining, now);
      AppendOnceCuts(attempt, s, c, remaining, now);
      AppendCuts(attempt, t, c, remaining[n..], now);
      OnceThenCuts(es, Append(attempt, t, c, remaining[n..], now).1, c, |PendingText(s, c)|, |PendingText(t, c)|, remaining, n);
    }
  }

  lemma {:induction false} EdgesGrow(ins: seq<Input>, c: Channel)
    ensures |Accepted(ins, c)| in Edges(ins, c)
  {
  }

  /** A cut position of the run so far stays clean when more text arrives. */
  lemma OldCut(ins: seq<Input>, c: Channel, p: nat)
    requires ins != [] && CleanCut(Before(ins), c, p)
    ensures CleanCut(ins, c, p)
  {
    var before, after := Accepted(Before(ins), c), Accepted(ins, c);
    EdgesGrow(Before(ins), c);
    if 0 < p < |before| { assert before[p - 1] == after[p - 1] && before[p] == after[p]; }
  }

  lemma NoneCutsWell(es: seq<Event>, c: Channel, waiting: nat, delta: Text)
    requires forall i :: 0 <= i < |es| ==> EventText(es[i], c) == []
    ensures CutsWell(es, c, waiting, delta)
  {
    forall m | 0 <= m <= |es| ensures TextOf(es[..m], c) == [] { NoText(es[..m], c); }
  }

  lemma {:induction false} NoText(es: seq<Event>, c: Channel)
    requires forall i :: 0 <= i < |es| ==> EventText(es[i], c) == []
    ensures TextOf(es, c) == []
  {
    if es != [] { NoText(es[1..], c); }
  }

  /** First events that emit what waits or nothing of it, then events whose cuts are well placed. */
  lemma CutsThen(es: seq<Event>, fs: seq<Event>, c: Channel, waiting: nat, from: nat, delta: Text)
    requires CutsWell(es, c, waiting, []) && CutsWell(fs, c, from, delta)
    requires |TextOf(es, c)| + from == waiting
    ensures CutsWell(es + fs, c, waiting, delta)
  {
    forall m | 0 <= m <= |es + fs| ensures CutsDelta(waiting, delta, |TextOf((es + fs)[..m], c)|) {
      CutThen(es, fs, c, waiting, from, delta, m);
    }
  }

  lemma CutThen(es: seq<Event>, fs: seq<Event>, c: Channel, waiting: nat, from: nat, delta: Text, m: nat)
    requires CutsWell(es, c, waiting, []) && CutsWell(fs, c, from, delta)
    requires |TextOf(es, c)| + from == waiting && m <= |es| + |fs|
    ensures CutsDelta(waiting, delta, |TextOf((es + fs)[..m], c)|)
  {
    assert es[..|es|] == es;
    var all := |TextOf(es[..|es|], c)|;
    assert CutsDelta(waiting, [], all);
    if m <= |es| {
      assert (es + fs)[..m] == es[..m];
      assert CutsDelta(waiting, [], |TextOf(es[..m], c)|);
    } else {
      PositionSplit(es, fs, c, m);
      assert CutsDelta(from, delta, |TextOf(fs[..m - |es|], c)|);
    }
  }

  lemma FlushCuts(attempt: string, s: State, c: Channel)
    ensures CutsWell(Flush(attempt, s).1, c, |PendingText(s, c)|, [])
  {
    var es := Flush(attempt, s).1;
    FlushedText(attempt, s, c);
    forall m | 0 <= m <= |es| ensures CutsDelta(|PendingText(s, c)|, [], |TextOf(es[..m], c)|) {
      if m == |es| {
        assert es[..m] == es;
      } else if m == 1 {
        assert es[..1] == [es[0]];
        OneText(es[0], c);
      }
    }
  }

  lemma DueCuts(attempt: string, s: State, now: int, c: Channel)
    ensures CutsWell(FlushIfDue(attempt, s, now).1, c, |PendingText(s, c)|, [])
  {
    if Due(s, now) { FlushCuts(attempt, s, c); } else { NoneCutsWell([], c, |PendingText(s, c)|, []); }
  }

  lemma AppendCutsWell(attempt: string, s: State, ch: Channel, delta: Text, now: int, c: Channel)
    requires Ok(s)
    ensures CutsWell(Append(attempt, s, ch, delta, now).1, c, |PendingText(s, c)|, if ch == c then delta else [])
  {
    var es := Append(attempt, s, ch, delta, now).1;
    if ch == c {
      AppendCuts(attempt, s, c, delta, now);
    } else {
      AppendOneChannel(attempt, s, ch, delta, now);
      forall i | 0 <= i < |es| ensures EventText(es[i], c) == [] {
        assert |DeltaType(ch)| != |DeltaType(c)|;
      }
      NoneCutsWell(es, c, |PendingText(s, c)|, []);
    }
  }

  /** What a frame emits after the flush. */
  function AfterFlush(attempt: string, s: State, e: SdkEvent): seq<Event>
    requires e.Frame?
  {
    var (s2, completed) := Completed(attempt, Noted(s, e.kind), e.kind);
    var (s3, generic) := ProjectGeneric(attempt, s2, e.kind, e.identity);
    completed + generic + ProjectAccounting(attempt, s3, e.kind, UsageOf(e)).1
  }

  lemma AfterFlushIsNoDelta(attempt: string, s: State, e: SdkEvent, c: Channel)
    requires e.Frame?
    ensures forall i :: 0 <= i < |AfterFlush(attempt, s, e)| ==> EventText(AfterFlush(attempt, s, e)[i], c) == []
  {
  }

  lemma FrameEvents(attempt: string, s: State, e: SdkEvent)
    requires e.Frame?
    ensures ProjectFrame(attempt, s, e).1 == Flush(attempt, s).1 + AfterFlush(attempt, Flush(attempt, s).0, e)
  {
  }

  lemma FrameCuts(attempt: string, s: State, e: SdkEvent, c: Channel)
    requires e.Frame?
    ensures CutsWell(Flush(attempt, s).1 + AfterFlush(attempt, Flush(attempt, s).0, e), c, |PendingText(s, c)|, [])
  {
    var (s1, flushed) := Flush(attempt, s);
    var after := AfterFlush(attempt, s1, e);
    FlushCuts(attempt, s, c);
    FlushedText(attempt, s, c);
    AfterFlushIsNoDelta(attempt, s1, e, c);
    NoneCutsWell(after, c, 0, []);
    CutsThen(flushed, after, c, |PendingText(s, c)|, 0, []);
  }

  lemma RespondCuts(attempt: string, s: State, i: Input, c: Channel)
    requires Ok(s)
    ensures CutsWell(Respond(attempt, s, i).1, c, |PendingText(s, c)|, Offered(i, c))
  {
    match i
    case FlushDue(now) => DueCuts(attempt, s, now, c);
    case FlushNow => FlushCuts(attempt, s, c);
    case Sdk(e, now) =>
      match e
      case Malformed => NoneCutsWell([], c, |PendingText(s, c)|, []);
      case Frame(_, _, _) => FrameEvents(attempt, s, e); FrameCuts(attempt, s, e, c);
      case Delta(channel, delta) =>
        DueCuts(attempt, s, now, c);
        if delta.Some? {
          var (t, es) := FlushIfDue(attempt, s, now);
          FlushIfDueFacts(attempt, s, now, c);
          AppendCutsWell(attempt, t, channel, delta.value, now, c);
          assert TextOf(es, c) + PendingText(t, c) == PendingText(s, c) + [];
          CutsThen(es, Append(attempt, t, channel, delta.value, now).1, c, |PendingText(s, c)|, |PendingText(t, c)|, Offered(i, c));
        }
  }

  /** No batch boundary ever parts a surrogate pair that the SDK delivered in one delta. */
  lemma {:induction false} NeverSplitsCharacter(attempt: string, ins: seq<Input>, c: Channel, n: nat)
    requires n <= |Run(attempt, ins).1|
    ensures CleanCut(ins, c, |TextOf(Run(attempt, ins).1[..n], c)|)
  {
    if ins == [] {
      assert |TextOf(Run(attempt, ins).1[..n], c)| == 0;
    } else {
      var (s, es) := Run(attempt, Before(ins));
      var fs := Respond(attempt, s, Last(ins)).1;
      RunFacts(attempt, Before(ins));
      if n <= |es| {
        assert (es + fs)[..n] == es[..n];
        NeverSplitsCharacter(attempt, Before(ins), c, n);
        OldCut(ins, c, |TextOf(es[..n], c)|);
      } else {
        NeverSplitsCharacter(attempt, Before(ins), c, |es|);
        RespondCuts(attempt, s, Last(ins), c);
        assert CutsDelta(|PendingText(s, c)|, Offered(Last(ins), c), |TextOf(fs[..n - |es|], c)|);
        LaterCut(es, fs, c, ins, |PendingText(s, c)|, n);
      }
    }
  }

  lemma LaterCut(es: seq<Event>, fs: seq<Event>, c: Channel, ins: seq<Input>, waiting: nat, n: nat)
    requires ins != [] && |es| < n <= |es| + |fs|
    requires CleanCut(Before(ins), c, |TextOf(es[..|es|], c)|)
    requires |TextOf(es, c)| + waiting == |Accepted(Before(ins), c)|
    requires CutsDelta(waiting, Offered(Last(ins), c), |TextOf(fs[..n - |es|], c)|)
    ensures CleanCut(ins, c, |TextOf((es + fs)[..n], c)|)
  {
    assert es[..|es|] == es;
    PositionSplit(es, fs, c, n);
    CutLands(ins, c, |TextOf(es, c)|, waiting, |TextOf(fs[..n - |es|], c)|);
  }

  lemma CutLands(ins: seq<Input>, c: Channel, p: nat, waiting: nat, k: nat)
    requires ins != [] && CleanCut(Before(ins), c, p) && p + waiting == |Accepted(Before(ins), c)|
    requires CutsDelta(waiting, Offered(Last(ins), c), k)
    ensures CleanCut(ins, c, p + k)
  {
    var before, delta := Accepted(Before(ins), c), Offered(Last(ins), c);
    OldCut(ins, c, p);
    EdgesGrow(Before(ins), c);
    EdgesGrow(ins, c);
    if k != 0 {
      var j := k - waiting;
      if 0 < j < |delta| {
        assert (before + delta)[|before| + j - 1] == delta[j - 1] && (before + delta)[|before| + j] == delta[j];
      }
    }
  }
}
