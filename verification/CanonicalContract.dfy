/** The validators accept what publishing produces, and what they accept is the leaf map of the data. */
module CanonicalContract {
  import opened Wrappers
  import opened JsonPointer
  import opened DataLeaves
  import opened Canonical

  // ---------------------------------------------------------------- entries

  lemma {:induction false} LeafMapMeaning(es: seq<Entry>)
    requires DistinctEntries(es)
    ensures forall p :: p in LeafMap(es) <==> exists i :: 0 <= i < |es| && es[i].path == p
    ensures forall i :: 0 <= i < |es| ==> es[i].path in LeafMap(es) && LeafMap(es)[es[i].path] == es[i].value
  {
    if es != [] {
      var head := es[..|es| - 1];
      LeafMapMeaning(head);
      forall p ensures p in LeafMap(es) <==> exists i :: 0 <= i < |es| && es[i].path == p {
        if p in LeafMap(head) {
          var i :| 0 <= i < |head| && head[i].path == p;
          assert es[i].path == p;
        }
      }
      forall i | 0 <= i < |es| ensures es[i].path in LeafMap(es) && LeafMap(es)[es[i].path] == es[i].value {
        if i < |head| { assert head[i] == es[i]; }
      }
    }
  }

  lemma EntriesDistinct(data: Json)
    requires WellFormed(data)
    ensures DistinctEntries(Entries(Leaves(data)))
  {
    var leaves := Leaves(data);
    forall i, j | 0 <= i < j < |leaves| ensures Entries(leaves)[i].path != Entries(leaves)[j].path {
      PathsDistinct(data, i, j);
    }
  }

  /** Distinct entries stay distinct when they are reordered. */
  lemma ReorderedDistinct(es: seq<Entry>, fs: seq<Entry>)
    requires DistinctEntries(es) && multiset(fs) == multiset(es)
    ensures DistinctEntries(fs) && forall e :: e in fs <==> e in es
  {
    forall e ensures e in fs <==> e in es { assert e in multiset(fs) <==> e in multiset(es); }
    forall i, j | 0 <= i < j < |fs| ensures fs[i].path != fs[j].path {
      assert fs[i] in es && fs[j] in es;
      if fs[i].path == fs[j].path {
        var a :| 0 <= a < |es| && es[a] == fs[i];
        var b :| 0 <= b < |es| && es[b] == fs[j];
        assert a == b;
        TwiceCounts(fs, i, j);
        OnceCounts(es, a);
      }
    }
  }

  lemma TwiceCounts(fs: seq<Entry>, i: nat, j: nat)
    requires i < j < |fs| && fs[i] == fs[j]
    ensures multiset(fs)[fs[i]] >= 2
  {
    assert fs == fs[..i] + [fs[i]] + fs[i + 1..j] + [fs[j]] + fs[j + 1..];
  }

  lemma OnceCounts(es: seq<Entry>, a: nat)
    requires DistinctEntries(es) && a < |es|
    ensures multiset(es)[es[a]] == 1
  {
    assert es == es[..a] + [es[a]] + es[a + 1..];
    assert es[a] !in es[..a] && es[a] !in es[a + 1..];
  }

  /** What publishing works on: the leaves in the order of their paths. */
  function Ordered(data: Json): seq<Entry> { SortByPath(Entries(Leaves(data))) }

  lemma EntryListed(leaves: seq<Leaf>, e: Entry)
    ensures e in Entries(leaves) <==> exists leaf :: leaf in leaves && e == EntryOf(leaf)
  {
    if e in Entries(leaves) {
      var i :| 0 <= i < |leaves| && Entries(leaves)[i] == e;
      assert leaves[i] in leaves && e == EntryOf(leaves[i]);
    }
    if leaf :| leaf in leaves && e == EntryOf(leaf) {
      var i :| 0 <= i < |leaves| && leaves[i] == leaf;
      assert Entries(leaves)[i] == e;
    }
  }

  lemma OrderedFacts(data: Json)
    requires WellFormed(data)
    ensures DistinctEntries(Ordered(data)) && Sorted(Ordered(data))
    ensures forall e :: e in Ordered(data) <==> e in Entries(Leaves(data))
  {
    EntriesDistinct(data);
    SortFacts(Entries(Leaves(data)));
    ReorderedDistinct(Entries(Leaves(data)), Ordered(data));
  }

  // ---------------------------------------------------------------- publishing succeeds

  lemma LeafHasTokens(data: Json, i: nat)
    requires WellFormed(data) && !IsLeaf(data) && i < |Leaves(data)|
    ensures Leaves(data)[i].tokens != []
  {
    FirstDistinct(data, Width(data));
  }

  lemma PublishedField(leaf: Leaf, refs: seq<Ref>, partialPaths: set<string>, direct: bool)
    requires leaf.tokens != []
    ensures FieldAccepted(FieldOf(EntryOf(leaf), refs, partialPaths), direct)
       <==> (leaf.value.Number? ==> direct || EvidenceIds(refs, PathOf(leaf)) != [])
  {
    PathPrefix(data := Null, leaf := leaf);
    assert PathOf(leaf)[0] == "/data/"[0];
    DeduplicatedMeaning(SourcesOf(refs, PathOf(leaf)));
  }

  /** What a leaf needs to be published. */
  predicate Backed(leaf: Leaf, refs: seq<Ref>, direct: bool) {
    leaf.value.Number? ==> direct || EvidenceIds(refs, PathOf(leaf)) != []
  }

  lemma LeafPublished(data: Json, refs: seq<Ref>, partialPaths: set<string>, direct: bool, leaf: Leaf)
    requires WellFormed(data) && !IsLeaf(data) && leaf in Leaves(data)
    ensures FieldOf(EntryOf(leaf), refs, partialPaths) in FieldsOf(Ordered(data), refs, partialPaths)
    ensures FieldAccepted(FieldOf(EntryOf(leaf), refs, partialPaths), direct) <==> Backed(leaf, refs, direct)
  {
    var es := Ordered(data);
    var i :| 0 <= i < |Leaves(data)| && Leaves(data)[i] == leaf;
    LeafHasTokens(data, i);
    PublishedField(leaf, refs, partialPaths, direct);
    OrderedFacts(data);
    EntryListed(Leaves(data), EntryOf(leaf));
    var k :| 0 <= k < |es| && es[k] == EntryOf(leaf);
    assert FieldsOf(es, refs, partialPaths)[k] == FieldOf(es[k], refs, partialPaths);
  }

  lemma FieldHasSource(data: Json, refs: seq<Ref>, partialPaths: set<string>, f: Field) returns (leaf: Leaf)
    requires WellFormed(data) && f in FieldsOf(Ordered(data), refs, partialPaths)
    ensures leaf in Leaves(data) && f == FieldOf(EntryOf(leaf), refs, partialPaths)
  {
    var es := Ordered(data);
    var k :| 0 <= k < |es| && FieldsOf(es, refs, partialPaths)[k] == f;
    OrderedFacts(data);
    assert es[k] in es;
    EntryListed(Leaves(data), es[k]);
    leaf :| leaf in Leaves(data) && es[k] == EntryOf(leaf);
  }

  /** Publishing raises exactly when some numeric leaf has no evidence, outside the direct mode. */
  lemma PublishSucceedsExactlyWhen(data: Json, refs: seq<Ref>, partialPaths: set<string>, direct: bool)
    requires WellFormed(data) && !IsLeaf(data)
    ensures Publish(data, refs, partialPaths, direct).Some? <==> forall leaf :: leaf in Leaves(data) ==> Backed(leaf, refs, direct)
  {
    var fields := FieldsOf(Ordered(data), refs, partialPaths);
    if AllAccepted(fields, direct) {
      forall leaf | leaf in Leaves(data) ensures Backed(leaf, refs, direct) {
        LeafPublished(data, refs, partialPaths, direct, leaf);
      }
    }
    if forall leaf :: leaf in Leaves(data) ==> Backed(leaf, refs, direct) {
      forall f | f in fields ensures FieldAccepted(f, direct) {
        var leaf := FieldHasSource(data, refs, partialPaths, f);
        LeafPublished(data, refs, partialPaths, direct, leaf);
      }
    }
  }

  /** What a published field says of its leaf: unavailable exactly for null, partial exactly for another value
      whose path is among the partial ones, complete otherwise; with all the evidence that references to its
      path name, each once. */
  predicate SaysOfLeaf(f: Field, leaf: Leaf, refs: seq<Ref>, partialPaths: set<string>, id: string) {
    && f.path == PathOf(leaf) && f.value == leaf.value
    && (f.availability == Unavailable <==> leaf.value == Null)
    && (f.availability == Partial <==> leaf.value != Null && PathOf(leaf) in partialPaths)
    && (f.availability == Complete <==> leaf.value != Null && PathOf(leaf) !in partialPaths)
    && Distinct(f.evidenceIds)
    && (id in f.evidenceIds <==> exists r :: r in refs && r.path == Some(PathOf(leaf)) && Some(id) in r.sources)
  }

  ghost predicate FieldSays(f: Field, leaf: Leaf, refs: seq<Ref>, partialPaths: set<string>) {
    forall id :: SaysOfLeaf(f, leaf, refs, partialPaths, id)
  }

  /** Every published field says this of a leaf of the data, and of every leaf some published field does. */
  lemma PublishedSaysWhatIsKnown(data: Json, refs: seq<Ref>, partialPaths: set<string>, direct: bool)
    requires WellFormed(data) && !IsLeaf(data) && Publish(data, refs, partialPaths, direct).Some?
    ensures var fields := Publish(data, refs, partialPaths, direct).value.0;
            && (forall f :: f in fields ==> exists leaf :: leaf in Leaves(data) && FieldSays(f, leaf, refs, partialPaths))
            && (forall leaf :: leaf in Leaves(data) ==> exists f :: f in fields && FieldSays(f, leaf, refs, partialPaths))
  {
    var fields := FieldsOf(Ordered(data), refs, partialPaths);
    forall f | f in fields ensures exists leaf :: leaf in Leaves(data) && FieldSays(f, leaf, refs, partialPaths) {
      var leaf := FieldHasSource(data, refs, partialPaths, f);
      LeafSays(leaf, refs, partialPaths);
    }
    forall leaf | leaf in Leaves(data) ensures exists f :: f in fields && FieldSays(f, leaf, refs, partialPaths) {
      LeafPublished(data, refs, partialPaths, direct, leaf);
      LeafSays(leaf, refs, partialPaths);
    }
  }

  lemma LeafSays(leaf: Leaf, refs: seq<Ref>, partialPaths: set<string>)
    ensures FieldSays(FieldOf(EntryOf(leaf), refs, partialPaths), leaf, refs, partialPaths)
  {
    forall id ensures SaysOfLeaf(FieldOf(EntryOf(leaf), refs, partialPaths), leaf, refs, partialPaths, id) {
      EvidenceIdsMeaning(refs, PathOf(leaf), id);
    }
  }

  // ---------------------------------------------------------------- what is published is accepted

  lemma FieldsDistinct(es: seq<Entry>, refs: seq<Ref>, partialPaths: set<string>)
    requires DistinctEntries(es)
    ensures DistinctPaths(FieldsOf(es, refs, partialPaths))
    ensures forall p :: p in Paths(FieldsOf(es, refs, partialPaths)) <==> exists i :: 0 <= i < |es| && es[i].path == p
  {
    var fields := FieldsOf(es, refs, partialPaths);
    forall p ensures p in Paths(fields) <==> exists i :: 0 <= i < |es| && es[i].path == p {
      if p in Paths(fields) { var f :| f in fields && f.path == p; var k :| 0 <= k < |fields| && fields[k] == f; assert es[k].path == p; }
      if i :| 0 <= i < |es| && es[i].path == p { assert fields[i] in fields && fields[i].path == p; }
    }
  }

  /** What publishing returns passes both validators, with the data it was made from. */
  lemma PublishedIsAccepted(data: Json, refs: seq<Ref>, partialPaths: set<string>, direct: bool)
    requires WellFormed(data)
    requires Publish(data, refs, partialPaths, direct).Some?
    ensures var (fields, lineage) := Publish(data, refs, partialPaths, direct).value;
            && AllAccepted(fields, direct)
            && ContractAccepted(fields, lineage, Some(data))
  {
    var all, es := Entries(Leaves(data)), Ordered(data);
    var fields := FieldsOf(es, refs, partialPaths);
    OrderedFacts(data);
    EntriesDistinct(data);
    PublishedPaths(all, es, refs, partialPaths);
    forall f | f in fields ensures f.path in LeafMap(all) && f.value == LeafMap(all)[f.path] {
      PublishedValue(all, es, refs, partialPaths, f);
    }
    if fields != [] { assert fields[0].path in Paths(fields); assert fields[0].path in IdentityLineage(fields); }
  }

  lemma PublishedPaths(all: seq<Entry>, es: seq<Entry>, refs: seq<Ref>, partialPaths: set<string>)
    requires DistinctEntries(all) && DistinctEntries(es) && forall e :: e in es <==> e in all
    ensures DistinctPaths(FieldsOf(es, refs, partialPaths)) && Paths(FieldsOf(es, refs, partialPaths)) == LeafMap(all).Keys
  {
    LeafMapMeaning(all);
    FieldsDistinct(es, refs, partialPaths);
    forall p ensures p in Paths(FieldsOf(es, refs, partialPaths)) <==> p in LeafMap(all) { SamePaths(all, es, p); }
  }

  lemma PublishedValue(all: seq<Entry>, es: seq<Entry>, refs: seq<Ref>, partialPaths: set<string>, f: Field)
    requires DistinctEntries(all) && (forall e :: e in es <==> e in all) && f in FieldsOf(es, refs, partialPaths)
    ensures f.path in LeafMap(all) && f.value == LeafMap(all)[f.path]
  {
    LeafMapMeaning(all);
    var k :| 0 <= k < |es| && FieldOf(es[k], refs, partialPaths) == f;
    assert es[k] in all;
    var i :| 0 <= i < |all| && all[i] == es[k];
  }

  lemma SamePaths(es: seq<Entry>, fs: seq<Entry>, p: string)
    requires forall e :: e in fs <==> e in es
    ensures (exists i :: 0 <= i < |es| && es[i].path == p) <==> (exists i :: 0 <= i < |fs| && fs[i].path == p)
  {
    if i :| 0 <= i < |es| && es[i].path == p { assert es[i] in fs; }
    if i :| 0 <= i < |fs| && fs[i].path == p { assert fs[i] in es; }
  }

  // ---------------------------------------------------------------- what is accepted is the leaf map

  /** A field whose path leads to a leaf with its value. */
  predicate Matches(data: Json, f: Field) {
    var v := Resolve(Object([Member("data", data)]), f.path);
    v.Some? && IsLeaf(v.value) && SameValue(f.value, v.value)
  }

  /** A leaf that some field stands for. */
  predicate Covered(fields: seq<Field>, leaf: Leaf) {
    exists f :: f in fields && f.path == PathOf(leaf) && SameValue(f.value, leaf.value)
  }

  /** In an accepted contract every field's path resolves in the document to a leaf with the value of
      the field. */
  lemma AcceptedFieldIsLeaf(fields: seq<Field>, lineage: Lineage, data: Json, f: Field)
    requires WellFormed(data) && fields != [] && ContractAccepted(fields, lineage, Some(data)) && f in fields
    ensures Matches(data, f)
  {
    var all := Entries(Leaves(data));
    EntriesDistinct(data);
    LeafMapMeaning(all);
    var i :| 0 <= i < |all| && all[i].path == f.path;
    LeafResolves(data, i);
    LeavesReach(data);
    assert Reaches(data, Leaves(data)[i]);
  }

  /** And every leaf of the data has a field. Since paths are distinct, the contract is the leaf map. */
  lemma AcceptedCoversLeaf(fields: seq<Field>, lineage: Lineage, data: Json, i: nat)
    requires WellFormed(data) && fields != [] && ContractAccepted(fields, lineage, Some(data)) && i < |Leaves(data)|
    ensures Covered(fields, Leaves(data)[i])
  {
    var all := Entries(Leaves(data));
    EntriesDistinct(data);
    LeafMapMeaning(all);
    assert all[i].path in Paths(fields);
    var f :| f in fields && f.path == PathOf(Leaves(data)[i]);
  }

  /** The value of a field is its leaf. */
  predicate Exact(data: Json, f: Field) { Resolve(Object([Member("data", data)]), f.path) == Some(f.value) }

  /** The value of a field and its leaf are both booleans, or neither is. */
  predicate SameKind(data: Json, f: Field) {
    var v := Resolve(Object([Member("data", data)]), f.path);
    v.Some? && (f.value.Bool? <==> v.value.Bool?)
  }

  predicate AllExact(data: Json, fields: seq<Field>) { forall i :: 0 <= i < |fields| ==> Exact(data, fields[i]) }

  predicate AllSameKind(data: Json, fields: seq<Field>) { forall i :: 0 <= i < |fields| ==> SameKind(data, fields[i]) }

  /** An accepted contract is exactly the leaf map of its data if and only if no field differs from its
      leaf in being a boolean. */
  lemma ExactExceptBooleans(fields: seq<Field>, lineage: Lineage, data: Json)
    requires WellFormed(data) && fields != [] && ContractAccepted(fields, lineage, Some(data))
    ensures AllExact(data, fields) <==> AllSameKind(data, fields)
  {
    forall i | 0 <= i < |fields| ensures Exact(data, fields[i]) <==> SameKind(data, fields[i]) {
      AcceptedFieldIsLeaf(fields, lineage, data, fields[i]);
    }
  }

  /** So a field that says true is accepted for a leaf that is 1. */
  lemma TrueAcceptedForOne()
    ensures var data := Object([Member("x", Number(1.0))]);
            ContractAccepted([Field("/data/x", Bool(true), Complete, [])], map["/data/x" := ["/data/x"]], Some(data))
  {
    OneLeaf();
    var e := Entry("/data/x", Number(1.0));
    assert [e][..0] == [];
    assert LeafMap([e]) == map["/data/x" := Number(1.0)];
    var f, lineage := Field("/data/x", Bool(true), Complete, []), map["/data/x" := ["/data/x"]];
    assert f in [f] && Paths([f]) == {"/data/x"} && lineage.Keys == {"/data/x"};
    assert "/data/x" in lineage;
  }

  lemma OneLeaf()
    ensures Entries(Leaves(Object([Member("x", Number(1.0))]))) == [Entry("/data/x", Number(1.0))]
  {
    var data, leaf := Object([Member("x", Number(1.0))]), Leaf(["x"], Number(1.0));
    assert Escape("x") == "x" by { assert "x" == ['x'] + ""; EscapeHead('x', ""); }
    assert Leaves(Number(1.0)) == [Leaf([], Number(1.0))];
    assert ["x"] + [] == ["x"];
    assert Under("x", [Leaf([], Number(1.0))]) == [leaf];
    assert LeavesOfFirst(data, 1) == [] + [leaf];
    assert ["data"] + ["x"] == ["data", "x"] && ["data", "x"][1..] == ["x"];
    assert PathOf(leaf) == "/data/x";
  }
}
