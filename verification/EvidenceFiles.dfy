/** Evidence files, how they are verified and how a frame is appended.

    Hashing is a function `h` of a frame's members other than its own hash; claims about tampering assume
    that it has no collisions and never yields the hash that stands for "no frame yet".

    `Scan` is the verification loop: the errors found so far, and the hash that the next record must carry.
    A file is clean if its records form a chain (`IsChain`): canonical, numbered from one, each linked to
    the one before it and true to its own hash. `ScanMeaning` relates the two; `ScanReports` says of every
    single error when the loop reports it, where the hash to be carried is the last one that any record
    before has (`LatestHash`). The theorems are in EvidenceChain. */
module EvidenceFiles {
  import opened Wrappers

  type Hash = string

  const ZERO_HASH: Hash := "0000000000000000000000000000000000000000000000000000000000000000"

  /** The members of a frame other than `record_hash`. `rest` stands for all further members:
      timestamp, scenario, type, payload and whatever else a file may hold. */
  datatype Body = Body(sequence: Option<int>, prevHash: Option<Hash>, rest: string)
  datatype Frame = Frame(body: Body, recordHash: Option<Hash>)

  /** A line of a file: empty, white space only, not JSON, or a JSON object that is or is not
      written canonically. */
  datatype Line = Blank | Spaces | Garbage | Json(frame: Frame, canonical: bool)

  /** `terminated` says that the last line ends with a line feed. */
  datatype File = File(lines: seq<Line>, terminated: bool)

  const Fresh := File([], true)

  datatype Error =
    | Missing | MissingTrailingLf | HeadMismatch
    | Unparseable(i: nat) | NonCanonical(i: nat) | SequenceMismatch(i: nat) | PrevHashMismatch(i: nat) | RecordHashMismatch(i: nat)

  type Hasher = Body -> Hash

  ghost predicate CollisionFree(h: Hasher) { forall x, y :: h(x) == h(y) ==> x == y }
  ghost predicate NeverZero(h: Hasher) { forall x :: h(x) != ZERO_HASH }

  // ---------------------------------------------------------------- reading

  /** The lines that verification looks at. */
  function Records(lines: seq<Line>): seq<Line> {
    if lines == [] then []
    else Records(lines[..|lines| - 1]) + (if lines[|lines| - 1].Blank? then [] else [lines[|lines| - 1]])
  }

  /** The hash that the next frame must carry, after looking at a line. */
  function NextPrev(line: Line, prev: Option<Hash>): Option<Hash> {
    if line.Json? && line.frame.recordHash.Some? then line.frame.recordHash else prev
  }

  function LineErrors(h: Hasher, line: Line, i: nat, prev: Option<Hash>): seq<Error> {
    if !line.Json? then [Unparseable(i)]
    else
      (if line.canonical then [] else [NonCanonical(i)])
      + (if line.frame.body.sequence == Some(i) then [] else [SequenceMismatch(i)])
      + (if line.frame.body.prevHash == prev then [] else [PrevHashMismatch(i)])
      + (if line.frame.recordHash == Some(h(line.frame.body)) then [] else [RecordHashMismatch(i)])
  }

  /** What the verification loop has found and remembers after the records `rs`. */
  function Scan(h: Hasher, rs: seq<Line>): (seq<Error>, Option<Hash>) {
    if rs == [] then ([], Some(ZERO_HASH))
    else
      var (errors, prev) := Scan(h, rs[..|rs| - 1]);
      (errors + LineErrors(h, rs[|rs| - 1], |rs|, prev), NextPrev(rs[|rs| - 1], prev))
  }

  function Verify(h: Hasher, f: File, expectedHead: Option<Hash>): seq<Error> {
    var (errors, prev) := Scan(h, Records(f.lines));
    (if f.terminated || f.lines == [] then [] else [MissingTrailingLf])
    + errors
    + (if expectedHead.Some? && prev != expectedHead then [HeadMismatch] else [])
  }

  /** `_last`: the number of frames and the hash of the last one; None when a line cannot be read. */
  function Last(lines: seq<Line>): Option<(nat, Hash)> {
    if lines == [] then Some((0, ZERO_HASH))
    else
      var before := Last(lines[..|lines| - 1]);
      match lines[|lines| - 1]
      case Blank => before
      case Spaces => before
      case Garbage => None
      case Json(frame, _) =>
        if before.None? || frame.recordHash.None? then None else Some((before.value.0 + 1, frame.recordHash.value))
  }

  // ---------------------------------------------------------------- writing

  function Framed(h: Hasher, last: (nat, Hash), rest: string): Frame {
    var body := Body(Some(last.0 + 1), Some(last.1), rest);
    Frame(body, Some(h(body)))
  }

  /** Behind an unterminated line, the new frame runs into that line. */
  function Written(f: File, frame: Frame): File {
    if f.terminated || f.lines == [] then File(f.lines + [Json(frame, true)], true)
    else
      var merged := if f.lines[|f.lines| - 1] == Spaces then Json(frame, false) else Garbage;
      File(f.lines[..|f.lines| - 1] + [merged], true)
  }

  function Append(h: Hasher, f: File, rest: string): Option<File> {
    var last := Last(f.lines);
    if last.None? then None else Some(Written(f, Framed(h, last.value, rest)))
  }

  // ---------------------------------------------------------------- what a clean file is

  /** The hash that record `i` must be linked to. */
  function HashBefore(rs: seq<Line>, i: nat): Option<Hash>
    requires i <= |rs|
  {
    if i == 0 then Some(ZERO_HASH) else if rs[i - 1].Json? then rs[i - 1].frame.recordHash else None
  }

  /** A record that is canonical, numbered `i`, linked to `prev`, and carries its own hash. */
  predicate Linked(h: Hasher, line: Line, i: nat, prev: Option<Hash>) {
    && line.Json? && line.canonical
    && line.frame.body.sequence == Some(i)
    && line.frame.body.prevHash == prev
    && line.frame.recordHash == Some(h(line.frame.body))
  }

  predicate LinkedAt(h: Hasher, rs: seq<Line>, i: nat)
    requires i < |rs|
  {
    Linked(h, rs[i], i + 1, HashBefore(rs, i))
  }

  /** Every record is in its place and linked to the one before it. */
  predicate IsChain(h: Hasher, rs: seq<Line>) {
    forall i :: 0 <= i < |rs| ==> LinkedAt(h, rs, i)
  }

  lemma ChainSnoc(h: Hasher, rs: seq<Line>, line: Line)
    ensures IsChain(h, rs + [line]) <==> IsChain(h, rs) && Linked(h, line, |rs| + 1, HashBefore(rs, |rs|))
    ensures HashBefore(rs + [line], |rs| + 1) == if line.Json? then line.frame.recordHash else None
  {
    var more := rs + [line];
    forall i | 0 <= i < |rs| ensures LinkedAt(h, more, i) == LinkedAt(h, rs, i) {
      assert more[i] == rs[i] && HashBefore(more, i) == HashBefore(rs, i);
    }
    assert LinkedAt(h, more, |rs|) == Linked(h, line, |rs| + 1, HashBefore(rs, |rs|));
  }

  /** A chain taken apart at its end. */
  lemma ChainEnds(h: Hasher, rs: seq<Line>)
    requires rs != []
    ensures var head, last := rs[..|rs| - 1], rs[|rs| - 1];
            && (IsChain(h, rs) <==> IsChain(h, head) && Linked(h, last, |rs|, HashBefore(head, |head|)))
            && HashBefore(rs, |rs|) == if last.Json? then last.frame.recordHash else None
  {
    ChainSnoc(h, rs[..|rs| - 1], rs[|rs| - 1]);
    assert rs == rs[..|rs| - 1] + [rs[|rs| - 1]];
  }

  lemma LineMeaning(h: Hasher, line: Line, i: nat, prev: Option<Hash>)
    ensures LineErrors(h, line, i, prev) == [] <==> Linked(h, line, i, prev)
  {
  }

  lemma {:induction false} ScanMeaning(h: Hasher, rs: seq<Line>)
    ensures Scan(h, rs).0 == [] <==> IsChain(h, rs)
    ensures IsChain(h, rs) ==> Scan(h, rs).1 == HashBefore(rs, |rs|)
  {
    if rs != [] {
      ScanMeaning(h, rs[..|rs| - 1]);
      ChainEnds(h, rs);
      LineMeaning(h, rs[|rs| - 1], |rs|, Scan(h, rs[..|rs| - 1]).1);
    }
  }

  lemma {:induction false} LastOfChain(h: Hasher, lines: seq<Line>)
    requires IsChain(h, Records(lines))
    ensures Last(lines).Some?
    ensures Last(lines).value.0 == |Records(lines)| && Some(Last(lines).value.1) == HashBefore(Records(lines), |Records(lines)|)
  {
    if lines != [] {
      var head, last := lines[..|lines| - 1], lines[|lines| - 1];
      if last.Blank? { assert Records(lines) == Records(head); } else { ChainSnoc(h, Records(head), last); }
      LastOfChain(h, head);
    }
  }

  // ---------------------------------------------------------------- appending

  lemma WrittenRecords(f: File, frame: Frame)
    requires f.terminated || f.lines == []
    ensures Written(f, frame).terminated && Written(f, frame).lines != []
    ensures Records(Written(f, frame).lines) == Records(f.lines) + [Json(frame, true)]
  {
    var g := Written(f, frame);
    assert g.lines[..|g.lines| - 1] == f.lines;
  }

  /** The file after any number of appends, as long as they succeed. */
  function AppendAll(h: Hasher, f: File, rests: seq<string>): Option<File> {
    if rests == [] then Some(f)
    else
      var before := AppendAll(h, f, rests[..|rests| - 1]);
      if before.None? then None else Append(h, before.value, rests[|rests| - 1])
  }

  /** The records carry these contents, in order. */
  predicate Holds(rs: seq<Line>, rests: seq<string>) {
    |rs| == |rests| && forall i :: 0 <= i < |rs| ==> rs[i].Json? && rs[i].frame.body.rest == rests[i]
  }

  lemma HoldsMore(rs: seq<Line>, rests: seq<string>, line: Line, rest: string)
    requires Holds(rs, rests) && line.Json? && line.frame.body.rest == rest
    ensures Holds(rs + [line], rests + [rest])
  {
  }

  /** What the writer's files are like: clean, and with these contents. */
  predicate WrittenBy(h: Hasher, g: Option<File>, rests: seq<string>) {
    g.Some? && Verify(h, g.value, None) == [] && Holds(Records(g.value.lines), rests)
  }

  // ---------------------------------------------------------------- tampering

  lemma {:induction false} SameHeadSameChain(h: Hasher, rs: seq<Line>, qs: seq<Line>)
    requires CollisionFree(h) && NeverZero(h)
    requires IsChain(h, rs) && IsChain(h, qs) && HashBefore(rs, |rs|) == HashBefore(qs, |qs|)
    ensures rs == qs
  {
    if rs != [] { ChainEnds(h, rs); }
    if qs != [] { ChainEnds(h, qs); }
    if rs != [] && qs != [] {
      SameBody(h, rs[|rs| - 1], qs[|qs| - 1]);
      SameHeadSameChain(h, rs[..|rs| - 1], qs[..|qs| - 1]);
      assert rs == rs[..|rs| - 1] + [rs[|rs| - 1]] && qs == qs[..|qs| - 1] + [qs[|qs| - 1]];
    }
  }

  lemma SameBody(h: Hasher, r: Line, q: Line)
    requires CollisionFree(h) && r.Json? && q.Json? && r.frame.recordHash == q.frame.recordHash
    requires r.frame.recordHash == Some(h(r.frame.body)) && q.frame.recordHash == Some(h(q.frame.body))
    ensures r.frame == q.frame
  {
    assert h(r.frame.body) == h(q.frame.body);
  }

  // ---------------------------------------------------------------- which errors are reported

  predicate Hashed(line: Line) { line.Json? && line.frame.recordHash.Some? }

  /** The hash of the last record before position `n` that has one, or the hash for no frame yet. */
  ghost predicate LatestHash(rs: seq<Line>, n: nat, prev: Option<Hash>)
    requires n <= |rs|
  {
    || (prev == Some(ZERO_HASH) && forall j :: 0 <= j < n ==> !Hashed(rs[j]))
    || exists j :: 0 <= j < n && Hashed(rs[j]) && prev == rs[j].frame.recordHash && forall k :: j < k < n ==> !Hashed(rs[k])
  }

  lemma {:induction false} ScanRemembers(h: Hasher, rs: seq<Line>)
    ensures LatestHash(rs, |rs|, Scan(h, rs).1)
  {
    if rs != [] {
      var head, last, prev := rs[..|rs| - 1], rs[|rs| - 1], Scan(h, rs[..|rs| - 1]).1;
      ScanRemembers(h, head);
      if Hashed(last) {
        assert rs[|rs| - 1] == last;
      } else if j :| 0 <= j < |head| && Hashed(head[j]) && prev == head[j].frame.recordHash && forall k :: j < k < |head| ==> !Hashed(head[k]) {
        assert Hashed(rs[j]) && forall k :: j < k < |rs| ==> !Hashed(rs[k]);
      } else {
        assert forall j :: 0 <= j < |rs| ==> !Hashed(rs[j]);
      }
    }
  }

  /** The errors of record `i`, counted from one, when the last hash before it is `prev`. */
  predicate Reports(h: Hasher, line: Line, i: nat, prev: Option<Hash>, e: Error) {
    match e
    case Unparseable(n) => n == i && !line.Json?
    case NonCanonical(n) => n == i && line.Json? && !line.canonical
    case SequenceMismatch(n) => n == i && line.Json? && line.frame.body.sequence != Some(i)
    case PrevHashMismatch(n) => n == i && line.Json? && line.frame.body.prevHash != prev
    case RecordHashMismatch(n) => n == i && line.Json? && line.frame.recordHash != Some(h(line.frame.body))
    case _ => false
  }

  lemma LineReports(h: Hasher, line: Line, i: nat, prev: Option<Hash>, e: Error)
    ensures e in LineErrors(h, line, i, prev) <==> Reports(h, line, i, prev, e)
  {
  }

  ghost predicate ReportedAt(h: Hasher, rs: seq<Line>, i: nat, e: Error)
    requires i < |rs|
  {
    exists prev :: LatestHash(rs, i, prev) && Reports(h, rs[i], i + 1, prev, e)
  }

  lemma {:induction false} OneLatest(rs: seq<Line>, n: nat, p: Option<Hash>, q: Option<Hash>)
    requires n <= |rs| && LatestHash(rs, n, p) && LatestHash(rs, n, q)
    ensures p == q
  {
  }

  lemma LatestOfPrefix(rs: seq<Line>, n: nat, prev: Option<Hash>)
    requires n <= |rs|
    ensures LatestHash(rs[..n], n, prev) <==> LatestHash(rs, n, prev)
  {
    assert forall j :: 0 <= j < n ==> rs[..n][j] == rs[j];
  }

  lemma ReportedBefore(h: Hasher, rs: seq<Line>, n: nat, i: nat, e: Error)
    requires i < n <= |rs|
    ensures ReportedAt(h, rs[..n], i, e) <==> ReportedAt(h, rs, i, e)
  {
    forall prev ensures LatestHash(rs[..n], i, prev) <==> LatestHash(rs, i, prev) {
      LatestOfPrefix(rs[..n], i, prev);
      LatestOfPrefix(rs, i, prev);
      assert rs[..n][..i] == rs[..i];
    }
  }

  lemma {:induction false} ScanReports(h: Hasher, rs: seq<Line>, e: Error)
    ensures e in Scan(h, rs).0 <==> exists i :: 0 <= i < |rs| && ReportedAt(h, rs, i, e)
  {
    if rs != [] {
      var n := |rs| - 1;
      var prev := Scan(h, rs[..n]).1;
      ScanReports(h, rs[..n], e);
      ScanRemembers(h, rs[..n]);
      LatestOfPrefix(rs, n, prev);
      LineReports(h, rs[n], |rs|, prev, e);
      forall i: nat | i < n ensures ReportedAt(h, rs[..n], i, e) <==> ReportedAt(h, rs, i, e) { ReportedBefore(h, rs, n, i, e); }
      assert ReportedAt(h, rs, n, e) <==> Reports(h, rs[n], |rs|, prev, e) by {
        forall p | LatestHash(rs, n, p) ensures p == prev { OneLatest(rs, n, p, prev); }
      }
      assert e in Scan(h, rs).0 <==> e in Scan(h, rs[..n]).0 || ReportedAt(h, rs, n, e);
    }
  }

  lemma VerifyParts(h: Hasher, f: File, expectedHead: Option<Hash>, e: Error)
    ensures var (errors, prev) := Scan(h, Records(f.lines));
            e in Verify(h, f, expectedHead) <==>
              || (e == MissingTrailingLf && !f.terminated && f.lines != [])
              || e in errors
              || (e == HeadMismatch && expectedHead.Some? && prev != expectedHead)
  {
    var (errors, prev) := Scan(h, Records(f.lines));
    var a: seq<Error> := if f.terminated || f.lines == [] then [] else [MissingTrailingLf];
    var b: seq<Error> := if expectedHead.Some? && prev != expectedHead then [HeadMismatch] else [];
    assert Verify(h, f, expectedHead) == a + errors + b;
    assert e in a + errors + b <==> e in a || e in errors || e in b;
  }
}
