/** `walk_data_leaves`, `_evidence_ids_by_path` and `publish_canonical` as they run: loops that append
    to local lists and dictionaries. Each is proved to return what Canonical defines. */
module CanonicalPublisher {
  import opened Wrappers
  import opened JsonPointer
  import opened DataLeaves
  import opened Canonical

  function Prefixed(parts: seq<string>, leaves: seq<Leaf>): seq<Leaf> {
    seq(|leaves|, i requires 0 <= i < |leaves| => Leaf(parts + leaves[i].tokens, leaves[i].value))
  }

  lemma PrefixedUnder(parts: seq<string>, token: string, leaves: seq<Leaf>)
    ensures Prefixed(parts, Under(token, leaves)) == Prefixed(parts + [token], leaves)
  {
    forall i | 0 <= i < |leaves| ensures parts + ([token] + leaves[i].tokens) == (parts + [token]) + leaves[i].tokens {}
  }

  lemma PrefixedConcat(parts: seq<string>, a: seq<Leaf>, b: seq<Leaf>)
    ensures Prefixed(parts, a + b) == Prefixed(parts, a) + Prefixed(parts, b)
  {
  }

  /** The recursive closure: leaves are appended, `parts` is the way down so far. */
  method Walk(current: Json, parts: seq<string>, leaves: seq<Leaf>) returns (out: seq<Leaf>)
    ensures out == leaves + Prefixed(parts, Leaves(current))
    decreases current
  {
    out := leaves;
    if current.List? || current.Object? {
      for index := 0 to Width(current)
        invariant out == leaves + Prefixed(parts, LeavesOfFirst(current, index))
      {
        var (token, child) := ChildAt(current, index);
        ChildIsSmaller(current, index);
        PrefixedConcat(parts, LeavesOfFirst(current, index), Under(token, Leaves(child)));
        PrefixedUnder(parts, token, Leaves(child));
        out := Walk(child, parts + [token], out);
      }
    } else {
      assert Leaves(current) == [Leaf([], current)] && parts + [] == parts;
      out := out + [Leaf(parts, current)];
    }
  }

  method WalkDataLeaves(data: Json) returns (entries: seq<Entry>)
    ensures entries == Entries(Leaves(data))
  {
    var leaves := Walk(data, ["data"], []);
    assert leaves == Prefixed(["data"], Leaves(data));
    entries := [];
    for i := 0 to |leaves|
      invariant entries == Entries(Leaves(data)[..i])
    {
      assert leaves[i].tokens == ["data"] + Leaves(data)[i].tokens;
      assert Leaves(data)[..i + 1] == Leaves(data)[..i] + [Leaves(data)[i]];
      entries := entries + [Entry("/" + Join(leaves[i].tokens), leaves[i].value)];
    }
    assert Leaves(data)[..|leaves|] == Leaves(data);
  }

  lemma {:induction false} MoreSources(before: seq<Option<string>>, more: seq<Option<string>>, k: nat)
    requires k < |more|
    ensures Deduplicated(before + more[..k + 1]) ==
            var ids := Deduplicated(before + more[..k]);
            if more[k].Some? && more[k].value !in ids then ids + [more[k].value] else ids
  {
    var all := before + more[..k + 1];
    assert all[..|all| - 1] == before + more[..k] && all[|all| - 1] == more[k];
  }

  /** The inner loop: the ids of one reference join the bucket of its path. */
  method FillBucket(bucket: seq<string>, ghost before: seq<Option<string>>, sources: seq<Option<string>>) returns (ids: seq<string>)
    requires bucket == Deduplicated(before)
    ensures ids == Deduplicated(before + sources)
  {
    ids := bucket;
    assert before + sources[..0] == before;
    for k := 0 to |sources|
      invariant ids == Deduplicated(before + sources[..k])
    {
      MoreSources(before, sources, k);
      if sources[k].Some? && sources[k].value !in ids { ids := ids + [sources[k].value]; }
    }
    assert sources[..|sources|] == sources;
  }

  /** What the dictionary says about a path; an absent path has no evidence. */
  function Lookup(index: map<string, seq<string>>, path: string): seq<string> { if path in index then index[path] else [] }

  lemma MoreRefs(refs: seq<Ref>, n: nat, path: string)
    requires n < |refs|
    ensures EvidenceIds(refs[..n + 1], path) ==
            if refs[n].path == Some(path) then Deduplicated(SourcesOf(refs[..n], path) + refs[n].sources)
            else EvidenceIds(refs[..n], path)
  {
    assert refs[..n + 1][..n] == refs[..n];
    assert SourcesOf(refs[..n], path) + [] == SourcesOf(refs[..n], path);
  }

  method EvidenceIdsByPath(refs: seq<Ref>) returns (index: map<string, seq<string>>)
    ensures forall path :: Lookup(index, path) == EvidenceIds(refs, path)
  {
    index := map[];
    for n := 0 to |refs|
      invariant forall path :: Lookup(index, path) == EvidenceIds(refs[..n], path)
    {
      forall path
        ensures EvidenceIds(refs[..n + 1], path) ==
                if refs[n].path == Some(path) then Deduplicated(SourcesOf(refs[..n], path) + refs[n].sources)
                else EvidenceIds(refs[..n], path)
      {
        MoreRefs(refs, n, path);
      }
      if refs[n].path.Some? {
        var path := refs[n].path.value;
        var bucket := Lookup(index, path);
        bucket := FillBucket(bucket, SourcesOf(refs[..n], path), refs[n].sources);
        index := index[path := bucket];
      }
    }
    assert refs[..|refs|] == refs;
  }

  /** The constructor of a field; None where its validator raises. */
  method MakeField(e: Entry, ids: seq<string>, ghost refs: seq<Ref>, partialPaths: set<string>, direct: bool)
    returns (f: Option<Field>)
    requires ids == EvidenceIds(refs, e.path)
    ensures var made := FieldOf(e, refs, partialPaths); f == if FieldAccepted(made, direct) then Some(made) else None
  {
    var availability := if e.value.Null? then Unavailable else if e.path in partialPaths then Partial else Complete;
    var made := Field(e.path, e.value, availability, ids);
    f := if FieldAccepted(made, direct) then Some(made) else None;
  }

  lemma OneMoreField(all: seq<Field>, i: nat, direct: bool)
    requires i < |all|
    ensures all[..i + 1] == all[..i] + [all[i]]
    ensures IdentityLineage(all[..i + 1]) == IdentityLineage(all[..i])[all[i].path := [all[i].path]]
    ensures AllAccepted(all[..i + 1], direct) <==> AllAccepted(all[..i], direct) && FieldAccepted(all[i], direct)
    ensures AllAccepted(all, direct) ==> FieldAccepted(all[i], direct)
  {
    assert Paths(all[..i] + [all[i]]) == Paths(all[..i]) + {all[i].path};
    assert all[..i + 1][i] == all[i] && all[i] in all[..i + 1];
  }

  /** The loop over the sorted leaves. */
  method BuildFields(leaves: seq<Entry>, evidence: map<string, seq<string>>, ghost refs: seq<Ref>, partialPaths: set<string>, direct: bool)
    returns (r: Option<(seq<Field>, Lineage)>)
    requires forall path :: Lookup(evidence, path) == EvidenceIds(refs, path)
    ensures var all := FieldsOf(leaves, refs, partialPaths);
            r == if AllAccepted(all, direct) then Some((all, IdentityLineage(all))) else None
  {
    ghost var all := FieldsOf(leaves, refs, partialPaths);
    var fields: seq<Field>, lineage: Lineage := [], map[];
    for i := 0 to |leaves|
      invariant fields == all[..i] && lineage == IdentityLineage(all[..i]) && AllAccepted(all[..i], direct)
    {
      var f := MakeField(leaves[i], Lookup(evidence, leaves[i].path), refs, partialPaths, direct);
      OneMoreField(all, i, direct);
      if f.None? { return None; }
      fields, lineage := fields + [f.value], lineage[f.value.path := [f.value.path]];
    }
    assert all[..|leaves|] == all;
    r := Some((fields, lineage));
  }

  /** One field per leaf in path order; None as soon as a field's validator raises. */
  method PublishCanonical(data: Json, refs: seq<Ref>, partialPaths: set<string>, direct: bool)
    returns (r: Option<(seq<Field>, Lineage)>)
    ensures r == Publish(data, refs, partialPaths, direct)
  {
    var evidence := EvidenceIdsByPath(refs);
    var entries := WalkDataLeaves(data);
    r := BuildFields(SortByPath(entries), evidence, refs, partialPaths, direct);
  }
}
