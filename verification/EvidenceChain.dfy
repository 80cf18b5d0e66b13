/** The append-only evidence files: every frame carries the hash of the frame before it, and what follows
    from that for verification, appending and tampering. */
module EvidenceChain {
  import opened Wrappers
  import opened EvidenceFiles

  /** Verification reports nothing exactly for a properly terminated chain. */
  lemma VerifyMeaning(h: Hasher, f: File)
    ensures Verify(h, f, None) == [] <==> (f.terminated || f.lines == []) && IsChain(h, Records(f.lines))
  {
    ScanMeaning(h, Records(f.lines));
  }

  /** With an expected head, a clean file must in addition end in that hash: the one that `head` reports. */
  lemma HeadMeaning(h: Hasher, f: File, head: Hash)
    ensures Verify(h, f, Some(head)) == [] <==>
            Verify(h, f, None) == [] && Last(f.lines).Some? && Last(f.lines).value.1 == head
  {
    var rs := Records(f.lines);
    ScanMeaning(h, rs);
    if IsChain(h, rs) { LastOfChain(h, f.lines); }
  }

  /** Appending to a clean file succeeds, adds one record at the end, and leaves the file clean. */
  lemma AppendKeepsClean(h: Hasher, f: File, rest: string)
    requires Verify(h, f, None) == []
    ensures Last(f.lines).Some?
    ensures var g := Append(h, f, rest);
            && g.Some?
            && Verify(h, g.value, None) == []
            && Records(g.value.lines) == Records(f.lines) + [Json(Framed(h, Last(f.lines).value, rest), true)]
  {
    VerifyMeaning(h, f);
    LastOfChain(h, f.lines);
    var rs, frame := Records(f.lines), Framed(h, Last(f.lines).value, rest);
    var g := Written(f, frame);
    WrittenRecords(f, frame);
    ChainSnoc(h, rs, Json(frame, true));
    assert Linked(h, Json(frame, true), |rs| + 1, HashBefore(rs, |rs|));
    VerifyMeaning(h, g);
  }

  lemma AppendedBy(h: Hasher, f: File, head: seq<string>, rest: string)
    requires WrittenBy(h, Some(f), head)
    ensures WrittenBy(h, Append(h, f, rest), head + [rest])
  {
    AppendKeepsClean(h, f, rest);
    HoldsMore(Records(f.lines), head, Json(Framed(h, Last(f.lines).value, rest), true), rest);
  }

  /** A file that only `append` has written to is clean and holds what was appended, in order. */
  lemma {:induction false} WriterRoundTrip(h: Hasher, rests: seq<string>)
    ensures WrittenBy(h, AppendAll(h, Fresh, rests), rests)
  {
    if rests == [] {
      VerifyMeaning(h, Fresh);
    } else {
      var head, rest := rests[..|rests| - 1], rests[|rests| - 1];
      assert rests == head + [rest];
      WriterRoundTrip(h, head);
      AppendedBy(h, AppendAll(h, Fresh, head).value, head, rest);
    }
  }

  /** The head determines the records: two files that both verify clean against one head hold the
      same records. So any edit, reordering, insertion or deletion, also at the end, is reported. */
  lemma HeadDeterminesRecords(h: Hasher, f: File, g: File, head: Hash)
    requires CollisionFree(h) && NeverZero(h)
    requires Verify(h, f, Some(head)) == [] && Verify(h, g, Some(head)) == []
    ensures Records(f.lines) == Records(g.lines)
  {
    ScanMeaning(h, Records(f.lines));
    ScanMeaning(h, Records(g.lines));
    SameHeadSameChain(h, Records(f.lines), Records(g.lines));
  }

  /** Without an expected head a cut-off end goes unnoticed: every beginning of a clean file is clean. */
  lemma TailDeletionNeedsHead(h: Hasher, rs: seq<Line>, n: nat)
    requires IsChain(h, rs) && n <= |rs|
    ensures IsChain(h, rs[..n])
  {
    forall i | 0 <= i < n ensures LinkedAt(h, rs[..n], i) { assert LinkedAt(h, rs, i); }
  }

  /** Verification reports of every record exactly what is wrong with it: that it is no JSON, not canonical, out
      of its place, not linked to the last hash before it, or not true to its own hash; and of the file, that
      it does not end with a line feed or that its last hash is not the expected head. */
  lemma ReportedExactlyWhen(h: Hasher, f: File, expectedHead: Option<Hash>, e: Error)
    ensures var rs := Records(f.lines);
            e in Verify(h, f, expectedHead) <==>
              || (e == MissingTrailingLf && !f.terminated && f.lines != [])
              || (e == HeadMismatch && expectedHead.Some? && !LatestHash(rs, |rs|, expectedHead))
              || exists i :: 0 <= i < |rs| && ReportedAt(h, rs, i, e)
  {
    var rs := Records(f.lines);
    var (errors, prev) := Scan(h, rs);
    ScanReports(h, rs, e);
    ScanRemembers(h, rs);
    VerifyParts(h, f, expectedHead, e);
    if LatestHash(rs, |rs|, expectedHead) { OneLatest(rs, |rs|, expectedHead, prev); }
  }
}
