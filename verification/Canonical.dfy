/** The canonical contract of an artifact: publishing its leaves as fields, and the two validators. */
module Canonical {
  import opened Wrappers
  import opened JsonPointer
  import opened DataLeaves

  datatype Availability = Complete | Partial | Unavailable
  datatype Field = Field(path: string, value: Json, availability: Availability, evidenceIds: seq<string>)

  /** A lineage reference; None stands for a path or an id that is no string. */
  datatype Ref = Ref(path: Option<string>, sources: seq<Option<string>>)

  type Lineage = map<string, seq<string>>

  // ---------------------------------------------------------------- evidence

  /** The ids in the order of their first occurrence. */
  function Deduplicated(sources: seq<Option<string>>): seq<string> {
    if sources == [] then []
    else
      var before, last := Deduplicated(sources[..|sources| - 1]), sources[|sources| - 1];
      if last.Some? && last.value !in before then before + [last.value] else before
  }

  /** All sources of a path, in order. */
  function SourcesOf(refs: seq<Ref>, path: string): seq<Option<string>> {
    if refs == [] then []
    else SourcesOf(refs[..|refs| - 1], path) + (if refs[|refs| - 1].path == Some(path) then refs[|refs| - 1].sources else [])
  }

  function EvidenceIds(refs: seq<Ref>, path: string): seq<string> { Deduplicated(SourcesOf(refs, path)) }

  predicate Distinct(ids: seq<string>) { forall i, j :: 0 <= i < j < |ids| ==> ids[i] != ids[j] }

  lemma {:induction false} DeduplicatedMeaning(sources: seq<Option<string>>)
    ensures Distinct(Deduplicated(sources))
    ensures forall id :: id in Deduplicated(sources) <==> Some(id) in sources
  {
    if sources != [] {
      DeduplicatedMeaning(sources[..|sources| - 1]);
      assert sources == sources[..|sources| - 1] + [sources[|sources| - 1]];
    }
  }

  lemma {:induction false} SourcesMeaning(refs: seq<Ref>, path: string, id: Option<string>)
    ensures id in SourcesOf(refs, path) <==> exists r :: r in refs && r.path == Some(path) && id in r.sources
  {
    if refs != [] {
      SourcesMeaning(refs[..|refs| - 1], path, id);
      assert refs == refs[..|refs| - 1] + [refs[|refs| - 1]];
    }
  }

  /** The evidence of a path: no id twice, and exactly the ids that some reference to it names. */
  lemma EvidenceIdsMeaning(refs: seq<Ref>, path: string, id: string)
    ensures Distinct(EvidenceIds(refs, path))
    ensures id in EvidenceIds(refs, path) <==> exists r :: r in refs && r.path == Some(path) && Some(id) in r.sources
  {
    DeduplicatedMeaning(SourcesOf(refs, path));
    SourcesMeaning(refs, path, Some(id));
  }

  // ---------------------------------------------------------------- the validator of one field

  /** The characters that `strip` removes. */
  predicate IsSpace(c: char) {
    var n := c as int;
    9 <= n <= 13 || 28 <= n <= 32 || n in {0x85, 0xA0, 0x1680, 0x2028, 0x2029, 0x202F, 0x205F, 0x3000} || 0x2000 <= n <= 0x200A
  }

  function StripLeft(s: string): string { if s != "" && IsSpace(s[0]) then StripLeft(s[1..]) else s }

  predicate FieldAccepted(f: Field, direct: bool) {
    && "/data/" <= StripLeft(f.path)
    && (f.availability.Unavailable? <==> f.value.Null?)
    && (f.value.Number? ==> f.evidenceIds != [] || direct)
    && Distinct(f.evidenceIds)
  }

  // ---------------------------------------------------------------- publishing

  datatype Entry = Entry(path: string, value: Json)

  function EntryOf(leaf: Leaf): Entry { Entry(PathOf(leaf), leaf.value) }

  function Entries(leaves: seq<Leaf>): seq<Entry> {
    seq(|leaves|, i requires 0 <= i < |leaves| => EntryOf(leaves[i]))
  }

  predicate LexLe(a: string, b: string) {
    a == "" || (b != "" && (a[0] < b[0] || (a[0] == b[0] && LexLe(a[1..], b[1..]))))
  }

  function Insert(e: Entry, es: seq<Entry>): seq<Entry> {
    if es == [] || LexLe(e.path, es[0].path) then [e] + es else [es[0]] + Insert(e, es[1..])
  }

  function SortByPath(es: seq<Entry>): seq<Entry> {
    if es == [] then [] else Insert(es[0], SortByPath(es[1..]))
  }

  function FieldOf(e: Entry, refs: seq<Ref>, partialPaths: set<string>): Field {
    Field(e.path, e.value,
          if e.value.Null? then Unavailable else if e.path in partialPaths then Partial else Complete,
          EvidenceIds(refs, e.path))
  }

  function FieldsOf(es: seq<Entry>, refs: seq<Ref>, partialPaths: set<string>): seq<Field> {
    seq(|es|, i requires 0 <= i < |es| => FieldOf(es[i], refs, partialPaths))
  }

  function Paths(fields: seq<Field>): set<string> { set f | f in fields :: f.path }

  function IdentityLineage(fields: seq<Field>): Lineage { map p | p in Paths(fields) :: [p] }

  predicate AllAccepted(fields: seq<Field>, direct: bool) { forall f :: f in fields ==> FieldAccepted(f, direct) }

  /** None where the constructor of a field raises. */
  function Publish(data: Json, refs: seq<Ref>, partialPaths: set<string>, direct: bool): Option<(seq<Field>, Lineage)> {
    var fields := FieldsOf(SortByPath(Entries(Leaves(data))), refs, partialPaths);
    if AllAccepted(fields, direct) then Some((fields, IdentityLineage(fields))) else None
  }

  // ---------------------------------------------------------------- the validator of a payload

  function LeafMap(es: seq<Entry>): map<string, Json> {
    if es == [] then map[] else LeafMap(es[..|es| - 1])[es[|es| - 1].path := es[|es| - 1].value]
  }

  /** Numbers and booleans compare as numbers. */
  function AsNumber(v: Json): Option<real> {
    match v case Number(n) => Some(n) case Bool(b) => Some(if b then 1.0 else 0.0) case _ => None
  }

  predicate SameValue(v: Json, leaf: Json) { v == leaf || (AsNumber(v).Some? && AsNumber(v) == AsNumber(leaf)) }

  predicate DistinctPaths(fields: seq<Field>) { forall i, j :: 0 <= i < j < |fields| ==> fields[i].path != fields[j].path }

  /** The contract of a payload; `data` is None for payloads without data. */
  predicate ContractAccepted(fields: seq<Field>, lineage: Lineage, data: Option<Json>) {
    && (fields == [] <==> lineage == map[])
    && (fields != [] ==>
          && DistinctPaths(fields)
          && lineage.Keys == Paths(fields)
          && (forall k :: k in lineage ==> lineage[k] == [k])
          && (data.Some? ==>
                var leaves := LeafMap(Entries(Leaves(data.value)));
                && Paths(fields) == leaves.Keys
                && forall f :: f in fields ==> f.path in leaves && SameValue(f.value, leaves[f.path])))
  }

  // ---------------------------------------------------------------- sorting

  predicate DistinctEntries(es: seq<Entry>) { forall i, j :: 0 <= i < j < |es| ==> es[i].path != es[j].path }

  predicate Sorted(es: seq<Entry>) { forall i :: 0 < i < |es| ==> LexLe(es[i - 1].path, es[i].path) }

  lemma {:induction false} LexTotal(a: string, b: string)
    ensures LexLe(a, b) || LexLe(b, a)
  {
    if a != "" && b != "" && a[0] == b[0] { LexTotal(a[1..], b[1..]); }
  }

  lemma {:induction false} InsertFacts(e: Entry, es: seq<Entry>)
    requires Sorted(es)
    ensures Sorted(Insert(e, es)) && multiset(Insert(e, es)) == multiset(es) + multiset{e}
    ensures Insert(e, es)[0] == e || (es != [] && Insert(e, es)[0] == es[0])
  {
    if es == [] || LexLe(e.path, es[0].path) {
    } else {
      LexTotal(e.path, es[0].path);
      InsertFacts(e, es[1..]);
      assert es == [es[0]] + es[1..];
    }
  }

  /** The fields come in the order of their paths, and they are the leaves, each as often as it occurs. */
  lemma {:induction false} SortFacts(es: seq<Entry>)
    ensures Sorted(SortByPath(es)) && multiset(SortByPath(es)) == multiset(es)
  {
    if es != [] {
      SortFacts(es[1..]);
      InsertFacts(es[0], SortByPath(es[1..]));
      assert es == [es[0]] + es[1..];
    }
  }
}
