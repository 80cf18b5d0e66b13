/** The evidence writer over its directory: one file per known name, read from the start before
    every append, and checked by a loop over its lines. */
module EvidenceWriter {
  import opened Wrappers
  import opened EvidenceFiles

  const JSONL_FILES := {
    "manifest.jsonl", "scenario-results.jsonl", "run-identities.jsonl", "accounting-summary.jsonl",
    "usage-reconciliation.jsonl", "artifact-lineage.jsonl", "event-ordering.jsonl", "security-scan.jsonl"}

  class EvidenceWriter {
    const hash: Hasher
    var files: map<string, File>

    constructor (hash: Hasher, files: map<string, File>)
      ensures this.hash == hash && this.files == files
    {
      this.hash, this.files := hash, files;
    }

    function FileOf(name: string): File
      reads this
    {
      if name in files then files[name] else Fresh
    }

    /** `_last`: the count of frames and the last hash, or None where it raises. */
    method ReadLast(name: string) returns (r: Option<(nat, Hash)>)
      ensures r == if name in JSONL_FILES then Last(FileOf(name).lines) else None
    {
      if name !in JSONL_FILES { return None; }
      if name !in files { return Some((0, ZERO_HASH)); }
      var lines := files[name].lines;
      var sequence: nat, last := 0, ZERO_HASH;
      for i := 0 to |lines|
        invariant Last(lines[..i]) == Some((sequence, last))
      {
        assert lines[..i + 1][..i] == lines[..i];
        var line := lines[i];
        if line.Garbage? || (line.Json? && line.frame.recordHash.None?) {
          Unreadable(lines, i + 1);
          return None;
        }
        if line.Json? { sequence, last := sequence + 1, line.frame.recordHash.value; }
      }
      assert lines[..|lines|] == lines;
      r := Some((sequence, last));
    }

    /** What cannot be read stays unreadable, whatever follows. */
    static lemma {:induction false} Unreadable(lines: seq<Line>, n: nat)
      requires n <= |lines| && Last(lines[..n]) == None
      ensures Last(lines) == None
    {
      if n < |lines| {
        assert lines[..|lines| - 1][..n] == lines[..n];
        Unreadable(lines[..|lines| - 1], n);
      } else {
        assert lines[..n] == lines;
      }
    }

    /** One frame more at the end of a file; nothing is written where reading it raises. */
    method Append(name: string, rest: string) returns (frame: Option<Frame>)
      modifies this
      ensures frame.Some? <==> name in JSONL_FILES && EvidenceFiles.Append(hash, old(FileOf(name)), rest).Some?
      ensures frame.Some? ==>
                && frame.value == Framed(hash, Last(old(FileOf(name)).lines).value, rest)
                && files == old(files)[name := EvidenceFiles.Append(hash, old(FileOf(name)), rest).value]
      ensures frame.None? ==> files == old(files)
    {
      var last := ReadLast(name);
      if last.None? { return None; }
      var body := Body(Some(last.value.0 + 1), Some(last.value.1), rest);
      frame := Some(Frame(body, Some(hash(body))));
      files := files[name := Written(FileOf(name), frame.value)];
    }

    /** One turn of the verification loop. */
    method CheckLine(line: Line, i: nat, prev: Option<Hash>) returns (problems: seq<Error>, next: Option<Hash>)
      ensures problems == LineErrors(hash, line, i, prev) && next == NextPrev(line, prev)
      ensures problems == [] <==> Linked(hash, line, i, prev)
    {
      LineMeaning(hash, line, i, prev);
      problems, next := [], prev;
      if !line.Json? { return [Unparseable(i)], prev; }
      if !line.canonical { problems := problems + [NonCanonical(i)]; }
      if line.frame.body.sequence != Some(i) { problems := problems + [SequenceMismatch(i)]; }
      if line.frame.body.prevHash != prev { problems := problems + [PrevHashMismatch(i)]; }
      if line.frame.recordHash != Some(hash(line.frame.body)) { problems := problems + [RecordHashMismatch(i)]; }
      if line.frame.recordHash.Some? { next := line.frame.recordHash; }
    }

    method CheckLines(lines: seq<Line>) returns (found: seq<Error>, prev: Option<Hash>)
      ensures (found, prev) == Scan(hash, lines)
    {
      found, prev := [], Some(ZERO_HASH);
      for index := 0 to |lines|
        invariant Scan(hash, lines[..index]) == (found, prev)
      {
        assert lines[..index + 1][..index] == lines[..index];
        var problems, next := CheckLine(lines[index], index + 1, prev);
        found, prev := found + problems, next;
      }
      assert lines[..|lines|] == lines;
    }

    /** What is wrong with a file, line by line, and with its head if one is expected. */
    method Verify(name: string, expectedHead: Option<Hash>) returns (errors: seq<Error>)
      requires name in JSONL_FILES
      ensures errors == if name in files then EvidenceFiles.Verify(hash, files[name], expectedHead) else [Missing]
    {
      if name !in files { return [Missing]; }
      var f := files[name];
      errors := if f.terminated || f.lines == [] then [] else [MissingTrailingLf];
      var lines := NonEmpty(f.lines);
      var found, prev := CheckLines(lines);
      errors := errors + found;
      assert Scan(hash, Records(f.lines)) == (found, prev);
      if expectedHead.Some? && prev != expectedHead {
        errors := errors + [HeadMismatch];
      } else {
        assert errors == errors + [];
      }
    }

    static method NonEmpty(lines: seq<Line>) returns (rs: seq<Line>)
      ensures rs == Records(lines)
    {
      rs := [];
      for i := 0 to |lines|
        invariant rs == Records(lines[..i])
      {
        assert lines[..i + 1][..i] == lines[..i];
        if !lines[i].Blank? { rs := rs + [lines[i]]; }
      }
      assert lines[..|lines|] == lines;
    }
  }
}
