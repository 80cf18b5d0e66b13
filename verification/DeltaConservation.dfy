/** What the projector keeps over any sequence of calls: gap-free numbering, no delta text
    lost, doubled or reordered within its channel, and bounded batches.

    The relation `Emits(attempt, s, t, es, c, added)` says all of it for one piece of work that takes
    the projector from `s` to `t`, emits `es`, and takes the text `added` for channel `c`: what was
    pending followed by `added` equals what is emitted followed by what is pending now; the numbers of
    `es` continue those of `s`; every emitted delta is within its bounds. `Ok` bounds the batches left
    open.

    `EmitsThen` composes two pieces of work. Flushing and appending are pieces that add nothing and the
    delta; both are shown for the channel concerned and for the other one. */
module DeltaConservation {
  import opened Wrappers
  import opened Utf16Text
  import opened Protocol
  import opened Projection

  // ---------------------------------------------------------------- observations

  /** The text an event carries for a channel. */
  function EventText(e: Event, c: Channel): Text {
    if e.eventType == DeltaType(c) && e.payload != [] && e.payload[0].value.Str? then e.payload[0].value.text else []
  }

  function TextOf(es: seq<Event>, c: Channel): Text {
    if es == [] then [] else EventText(es[0], c) + TextOf(es[1..], c)
  }

  function PendingText(s: State, c: Channel): Text {
    if c in s.pending then s.pending[c].text else []
  }

  predicate NumberedFrom(attempt: string, n: nat, es: seq<Event>) {
    forall i :: 0 <= i < |es| ==> es[i].sequence == n + i && es[i].id == SourceId(attempt, n + i)
  }

  predicate IsDelta(e: Event) { e.eventType == "thinking.delta" || e.eventType == "message.delta" }

  /** A delta event as the batcher may emit it. */
  predicate GoodDelta(e: Event) {
    && |e.payload| == 3
    && e.payload[0].key == "text" && e.payload[0].value.Str?
    && e.payload[0].value.text != []
    && Utf8Bytes(e.payload[0].value.text) <= DELTA_BATCH_MAX_BYTES
    && e.payload[1].key == "delta_count" && e.payload[1].value.Num?
    && 1 <= e.payload[1].value.n <= DELTA_BATCH_MAX_PARTS
    && e.payload[2] == Field("batched", Flag(true))
  }

  predicate GoodEvents(es: seq<Event>) {
    forall i :: 0 <= i < |es| && IsDelta(es[i]) ==> GoodDelta(es[i])
  }

  /** A batch between two parts: not empty, not full, and its byte count never too low. */
  predicate BatchOk(b: Batch) {
    && b.text != [] && 1 <= b.parts < DELTA_BATCH_MAX_PARTS
    && Utf8Bytes(b.text) <= b.bytes < DELTA_BATCH_MAX_BYTES
  }

  predicate Ok(s: State) {
    forall c :: c in s.pending ==> BatchOk(s.pending[c])
  }

  /** The effect of one call on numbering, text and bounds, when `added` was accepted on `c`. */
  ghost predicate Emits(attempt: string, s: State, t: State, es: seq<Event>, c: Channel, added: Text) {
    && NumberedFrom(attempt, s.sequence, es)
    && t.sequence == s.sequence + |es|
    && GoodEvents(es)
    && (forall d :: TextOf(es, d) + PendingText(t, d) == PendingText(s, d) + (if d == c then added else []))
  }

  // ---------------------------------------------------------------- composition

  lemma {:induction false} TextOfConcat(es: seq<Event>, fs: seq<Event>, c: Channel)
    ensures TextOf(es + fs, c) == TextOf(es, c) + TextOf(fs, c)
  {
    if es == [] {
      assert es + fs == fs;
    } else {
      assert (es + fs)[1..] == es[1..] + fs;
      TextOfConcat(es[1..], fs, c);
    }
  }

  lemma EmitsThen(attempt: string, s: State, t: State, u: State, es: seq<Event>, fs: seq<Event>, c: Channel, a: Text, b: Text)
    requires Emits(attempt, s, t, es, c, a) && Emits(attempt, t, u, fs, c, b)
    ensures Emits(attempt, s, u, es + fs, c, a + b)
  {
    forall d ensures TextOf(es + fs, d) + PendingText(u, d) == PendingText(s, d) + (if d == c then a + b else []) {
      TextOfConcat(es, fs, d);
      Regroup(TextOf(es, d), TextOf(fs, d), PendingText(s, d), PendingText(t, d), PendingText(u, d),
              if d == c then a else [], if d == c then b else []);
    }
  }

  lemma Regroup(x: Text, y: Text, p: Text, q: Text, r: Text, a: Text, b: Text)
    requires x + q == p + a && y + r == q + b
    ensures (x + y) + r == p + (a + b)
  {
    assert (x + y) + r == x + (q + b) == (p + a) + b;
  }

  lemma EmitsNothing(attempt: string, s: State, t: State, c: Channel)
    requires t.sequence == s.sequence && t.pending == s.pending
    ensures Emits(attempt, s, t, [], c, [])
  {
  }

  /** One event that is not a delta leaves the texts alone. */
  lemma EmitsOther(attempt: string, s: State, t: State, e: Event, c: Channel)
    requires t.sequence == s.sequence + 1 && t.pending == s.pending && !IsDelta(e)
    requires e.id == SourceId(attempt, s.sequence) && e.sequence == s.sequence
    ensures Emits(attempt, s, t, [e], c, [])
  {
    forall d ensures TextOf([e], d) == [] { assert [e][1..] == []; }
  }

  // ---------------------------------------------------------------- flushing

  /** A batch that may be emitted; it may by now be full. */
  predicate Emittable(b: Batch) {
    b.text != [] && Utf8Bytes(b.text) <= DELTA_BATCH_MAX_BYTES && 1 <= b.parts <= DELTA_BATCH_MAX_PARTS
  }

  lemma OneText(e: Event, d: Channel)
    ensures TextOf([e], d) == EventText(e, d)
  {
    assert [e][1..] == [];
  }

  lemma FlushChannelFacts(attempt: string, s: State, c: Channel, d: Channel)
    requires c in s.pending ==> Emittable(s.pending[c])
    ensures var (t, es) := FlushChannel(attempt, s, c); Emits(attempt, s, t, es, d, [])
  {
    if c in s.pending {
      forall x { OneText(DeltaEvent(attempt, s.sequence, c, s.pending[c]), x); }
    }
  }

  lemma FlushFacts(attempt: string, s: State, c: Channel)
    requires Ok(s)
    ensures var (t, es) := Flush(attempt, s); Emits(attempt, s, t, es, c, []) && t.pending == map[]
  {
    FlushNumbers(attempt, s);
    forall d ensures TextOf(Flush(attempt, s).1, d) == PendingText(s, d) { FlushedText(attempt, s, d); }
  }

  lemma FlushNumbers(attempt: string, s: State)
    requires Ok(s)
    ensures var (t, es) := Flush(attempt, s);
            NumberedFrom(attempt, s.sequence, es) && t.sequence == s.sequence + |es| && GoodEvents(es)
  {
    forall i | 0 <= i < |FlushOrder(s)| ensures GoodDelta(Flush(attempt, s).1[i]) { assert FlushOrder(s)[i] in s.pending; }
  }

  lemma FlushedText(attempt: string, s: State, d: Channel)
    ensures TextOf(Flush(attempt, s).1, d) == PendingText(s, d)
  {
    var es := Flush(attempt, s).1;
    if |es| == 1 {
      assert es == [es[0]];
      OneText(es[0], d);
    } else if |es| == 2 {
      assert es == [es[0]] + [es[1]];
      TextOfConcat([es[0]], [es[1]], d);
      OneText(es[0], d);
      OneText(es[1], d);
    }
  }

  lemma FlushIfDueFacts(attempt: string, s: State, now: int, c: Channel)
    requires Ok(s)
    ensures var (t, es) := FlushIfDue(attempt, s, now); Ok(t) && Emits(attempt, s, t, es, c, [])
  {
    FlushFacts(attempt, s, c);
  }

  // ---------------------------------------------------------------- appending

  lemma GrowFacts(s: State, b: Batch, remaining: Text)
    requires (BatchOk(b) || (b.text == [] && b.bytes == 0 && b.parts == 0)) && FitLen(remaining, Room(b)) > 0
    ensures var g := Grown(b, remaining[..FitLen(remaining, Room(b))]);
            Emittable(g) && (Full(g) || BatchOk(g))
  {
    FitLenMeaning(remaining, Room(b));
    ConcatAny(b.text, remaining[..FitLen(remaining, Room(b))]);
  }

  /** No earlier flush is needed to open a batch: pending ones are never full. */
  lemma OpenFacts(attempt: string, s: State, c: Channel, now: int)
    requires Ok(s)
    ensures var (t, es) := Open(attempt, s, c, now);
            && es == [] && t.sequence == s.sequence
            && (forall d :: PendingText(t, d) == PendingText(s, d))
            && (forall d :: d in t.pending && d != c ==> d in s.pending && t.pending[d] == s.pending[d])
            && (if c in s.pending then t == s else t.pending[c] == Batch([], 0, 0, now))
  {
  }

  /** One turn of the loop. */
  lemma AppendOnceFacts(attempt: string, s: State, c: Channel, remaining: Text, now: int)
    requires Ok(s) && remaining != []
    ensures var (t, es, n) := AppendOnce(attempt, s, c, remaining, now);
            Ok(t) && Emits(attempt, s, t, es, c, remaining[..n])
  {
    var t := Open(attempt, s, c, now).0;
    OpenFacts(attempt, s, c, now);
    var n := FitLen(remaining, Room(t.pending[c]));
    if n == 0 {
      FitLenMeaning(remaining, DELTA_BATCH_MAX_BYTES);
      FlushChannelFacts(attempt, s, c, c);
      assert [] + FlushChannel(attempt, s, c).1 == FlushChannel(attempt, s, c).1;
    } else {
      AppendPartFacts(attempt, s, t, c, remaining, n);
    }
  }

  lemma AppendPartFacts(attempt: string, s: State, t: State, c: Channel, remaining: Text, n: nat)
    requires Ok(s) && t.sequence == s.sequence && c in t.pending
    requires forall d :: PendingText(t, d) == PendingText(s, d)
    requires forall d :: d in t.pending && d != c ==> d in s.pending && t.pending[d] == s.pending[d]
    requires BatchOk(t.pending[c]) || (t.pending[c].text == [] && t.pending[c].bytes == 0 && t.pending[c].parts == 0)
    requires n == FitLen(remaining, Room(t.pending[c])) && n > 0
    ensures var b := Grown(t.pending[c], remaining[..n]);
            var u := t.(pending := t.pending[c := b]);
            var (v, fs) := FlushChannel(attempt, u, c);
            && (!Full(b) ==> Ok(u) && Emits(attempt, s, u, [], c, remaining[..n]))
            && (Full(b) ==> Ok(v) && Emits(attempt, s, v, [] + fs, c, remaining[..n]))
  {
    var b := Grown(t.pending[c], remaining[..n]);
    var u := t.(pending := t.pending[c := b]);
    GrowFacts(s, t.pending[c], remaining);
    assert Emits(attempt, s, u, [], c, remaining[..n]);
    if Full(b) {
      FlushChannelFacts(attempt, u, c, c);
      var (v, fs) := FlushChannel(attempt, u, c);
      EmitsThen(attempt, s, u, v, [], fs, c, remaining[..n], []);
      assert remaining[..n] + [] == remaining[..n];
    }
  }

  lemma {:induction false} AppendFacts(attempt: string, s: State, c: Channel, remaining: Text, now: int)
    requires Ok(s)
    ensures var (t, es) := Append(attempt, s, c, remaining, now);
            Ok(t) && Emits(attempt, s, t, es, c, remaining)
    decreases |remaining|, if c in s.pending then 1 else 0
  {
    if remaining == [] {
      EmitsNothing(attempt, s, s, c);
    } else {
      var (t, es, n) := AppendOnce(attempt, s, c, remaining, now);
      AppendOnceFacts(attempt, s, c, remaining, now);
      AppendOnceProgress(attempt, s, c, remaining, now);
      AppendFacts(attempt, t, c, remaining[n..], now);
      var (u, fs) := Append(attempt, t, c, remaining[n..], now);
      EmitsThen(attempt, s, t, u, es, fs, c, remaining[..n], remaining[n..]);
      assert remaining[..n] + remaining[n..] == remaining;
    }
  }

  predicate OnChannel(es: seq<Event>, c: Channel) {
    forall i :: 0 <= i < |es| ==> es[i].eventType == DeltaType(c)
  }

  lemma AppendOnceOneChannel(attempt: string, s: State, c: Channel, remaining: Text, now: int)
    ensures OnChannel(AppendOnce(attempt, s, c, remaining, now).1, c)
  {
  }

  lemma {:induction false} AppendOneChannel(attempt: string, s: State, c: Channel, remaining: Text, now: int)
    ensures OnChannel(Append(attempt, s, c, remaining, now).1, c)
    decreases |remaining|, if c in s.pending then 1 else 0
  {
    if remaining != [] {
      var (t, es, n) := AppendOnce(attempt, s, c, remaining, now);
      AppendOnceOneChannel(attempt, s, c, remaining, now);
      AppendOnceProgress(attempt, s, c, remaining, now);
      AppendOneChannel(attempt, t, c, remaining[n..], now);
    }
  }
}
