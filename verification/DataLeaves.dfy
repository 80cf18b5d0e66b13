/** The leaves of an artifact's data and their pointers. */
module DataLeaves {
  import opened Wrappers
  import opened JsonPointer

  /** A leaf with the reference tokens that lead to it. */
  datatype Leaf = Leaf(tokens: seq<string>, value: Json)

  predicate IsLeaf(node: Json) { !node.List? && !node.Object? }

  function Under(token: string, leaves: seq<Leaf>): seq<Leaf> {
    seq(|leaves|, i requires 0 <= i < |leaves| => Leaf([token] + leaves[i].tokens, leaves[i].value))
  }

  function Width(node: Json): nat {
    match node case List(items) => |items| case Object(members) => |members| case _ => 0
  }

  /** The token of the `i`-th child of a node, and the child. */
  function ChildAt(node: Json, i: nat): (string, Json)
    requires i < Width(node)
  {
    match node
    case List(items) => (Decimal(i), items[i])
    case Object(members) => (Escape(members[i].key), members[i].value)
  }

  lemma ChildIsSmaller(node: Json, i: nat)
    requires i < Width(node)
    ensures ChildAt(node, i).1 < node
  {
    if node.Object? { assert node.members[i].value < node.members[i]; }
  }

  /** All leaves below a node, in document order. */
  function Leaves(node: Json): seq<Leaf>
    decreases node, Width(node) + 1
  {
    if IsLeaf(node) then [Leaf([], node)] else LeavesOfFirst(node, Width(node))
  }

  /** The leaves below the first `n` children. */
  function LeavesOfFirst(node: Json, n: nat): seq<Leaf>
    requires n <= Width(node)
    decreases node, n
  {
    if n == 0 then []
    else
      var (token, child) := ChildAt(node, n - 1);
      ChildIsSmaller(node, n - 1);
      LeavesOfFirst(node, n - 1) + Under(token, Leaves(child))
  }

  /** `/data`, then the tokens. */
  function PathOf(leaf: Leaf): string { "/" + Join(["data"] + leaf.tokens) }

  // ---------------------------------------------------------------- every pointer resolves

  lemma TokenSelects(node: Json, i: nat)
    requires WellFormed(node) && i < Width(node)
    ensures var (token, child) := ChildAt(node, i); Child(node, token) == Some(child) && NoSlash(token) && WellFormed(child)
  {
    match node
    case List(items) => DecimalRoundTrip(i);
    case Object(members) =>
      EscapeRoundTrip(members[i].key);
      EscapeHasNoSlash(members[i].key);
      var j := Find(members, members[i].key);
      assert j == i;
  }

  /** What holds for a leaf of a node. */
  predicate Reaches(node: Json, leaf: Leaf) {
    && Evaluate(node, leaf.tokens) == Some(leaf.value)
    && IsLeaf(leaf.value)
    && forall k :: 0 <= k < |leaf.tokens| ==> NoSlash(leaf.tokens[k])
  }

  lemma ReachesThrough(node: Json, i: nat, leaf: Leaf)
    requires WellFormed(node) && i < Width(node) && Reaches(ChildAt(node, i).1, leaf)
    ensures Reaches(node, Leaf([ChildAt(node, i).0] + leaf.tokens, leaf.value))
  {
    TokenSelects(node, i);
    var token := ChildAt(node, i).0;
    assert ([token] + leaf.tokens)[1..] == leaf.tokens;
  }

  lemma {:induction false} LeavesReach(node: Json)
    requires WellFormed(node)
    ensures forall i :: 0 <= i < |Leaves(node)| ==> Reaches(node, Leaves(node)[i])
    decreases node, Width(node) + 1
  {
    if !IsLeaf(node) { FirstReach(node, Width(node)); }
  }

  lemma {:induction false} FirstReach(node: Json, n: nat)
    requires WellFormed(node) && n <= Width(node)
    ensures forall i :: 0 <= i < |LeavesOfFirst(node, n)| ==> Reaches(node, LeavesOfFirst(node, n)[i])
    decreases node, n
  {
    if n > 0 {
      var (token, child) := ChildAt(node, n - 1);
      ChildIsSmaller(node, n - 1);
      TokenSelects(node, n - 1);
      FirstReach(node, n - 1);
      LeavesReach(child);
      forall k | 0 <= k < |Leaves(child)| ensures Reaches(node, Under(token, Leaves(child))[k]) {
        ReachesThrough(node, n - 1, Leaves(child)[k]);
      }
    }
  }

  /** The pointer of every leaf, evaluated in the document, yields the value of that leaf. */
  lemma LeafResolves(data: Json, i: nat)
    requires WellFormed(data) && i < |Leaves(data)|
    ensures Resolve(Object([Member("data", data)]), PathOf(Leaves(data)[i])) == Some(Leaves(data)[i].value)
  {
    LeavesReach(data);
    var leaf := Leaves(data)[i];
    assert Reaches(data, leaf);
    var tokens := ["data"] + leaf.tokens;
    assert PathOf(leaf)[1..] == Join(tokens);
    forall k | 0 <= k < |tokens| ensures NoSlash(tokens[k]) { if k > 0 { assert tokens[k] == leaf.tokens[k - 1]; } }
    SplitJoin(tokens);
    DataToken(data);
    assert tokens[1..] == leaf.tokens;
  }

  lemma DataToken(data: Json)
    ensures Child(Object([Member("data", data)]), "data") == Some(data)
  {
    assert Escape("data") == "data" by {
      assert "data" == ['d'] + "ata" && "ata" == ['a'] + "ta" && "ta" == ['t'] + "a" && "a" == ['a'] + "";
      EscapeHead('d', "ata");
      EscapeHead('a', "ta");
      EscapeHead('t', "a");
      EscapeHead('a', "");
    }
    EscapeRoundTrip("data");
  }

  // ---------------------------------------------------------------- no two leaves share a pointer

  predicate DistinctTokens(leaves: seq<Leaf>) { forall i, j :: 0 <= i < j < |leaves| ==> leaves[i].tokens != leaves[j].tokens }

  lemma TokensDiffer(node: Json, i: nat, j: nat)
    requires WellFormed(node) && i < j < Width(node)
    ensures ChildAt(node, i).0 != ChildAt(node, j).0
  {
    match node
    case List(items) => DecimalRoundTrip(i); DecimalRoundTrip(j);
    case Object(members) => EscapeRoundTrip(members[i].key); EscapeRoundTrip(members[j].key);
  }

  lemma {:induction false} LeavesDistinct(node: Json)
    requires WellFormed(node)
    ensures DistinctTokens(Leaves(node))
    decreases node, Width(node) + 1
  {
    if !IsLeaf(node) { FirstDistinct(node, Width(node)); }
  }

  lemma {:induction false} FirstDistinct(node: Json, n: nat)
    requires WellFormed(node) && n <= Width(node)
    ensures DistinctTokens(LeavesOfFirst(node, n))
    ensures forall i :: 0 <= i < |LeavesOfFirst(node, n)| ==>
              LeavesOfFirst(node, n)[i].tokens != [] && StartsBelow(node, n, LeavesOfFirst(node, n)[i].tokens[0])
    decreases node, n
  {
    if n > 0 {
      var (token, child) := ChildAt(node, n - 1);
      ChildIsSmaller(node, n - 1);
      TokenSelects(node, n - 1);
      FirstDistinct(node, n - 1);
      LeavesDistinct(child);
      JoinDistinct(node, n - 1, LeavesOfFirst(node, n - 1), Leaves(child));
    }
  }

  /** The token of one of the first `n` children. */
  predicate StartsBelow(node: Json, n: nat, token: string)
    requires n <= Width(node)
  {
    exists i :: 0 <= i < n && ChildAt(node, i).0 == token
  }

  lemma JoinDistinct(node: Json, n: nat, before: seq<Leaf>, leaves: seq<Leaf>)
    requires WellFormed(node) && n < Width(node) && DistinctTokens(before) && DistinctTokens(leaves)
    requires forall i :: 0 <= i < |before| ==> before[i].tokens != [] && StartsBelow(node, n, before[i].tokens[0])
    ensures var all := before + Under(ChildAt(node, n).0, leaves);
            && DistinctTokens(all)
            && forall i :: 0 <= i < |all| ==> all[i].tokens != [] && StartsBelow(node, n + 1, all[i].tokens[0])
  {
    var token := ChildAt(node, n).0;
    var under := Under(token, leaves);
    forall i, j | 0 <= i < j < |under| ensures under[i].tokens != under[j].tokens {
      assert under[i].tokens[1..] == leaves[i].tokens && under[j].tokens[1..] == leaves[j].tokens;
    }
    forall i | 0 <= i < |before| ensures before[i].tokens[0] != token && StartsBelow(node, n + 1, before[i].tokens[0]) {
      var k :| 0 <= k < n && ChildAt(node, k).0 == before[i].tokens[0];
      TokensDiffer(node, k, n);
    }
  }

  /** Different leaves have different pointers. */
  lemma PathsDistinct(data: Json, i: nat, j: nat)
    requires WellFormed(data) && i < j < |Leaves(data)|
    ensures PathOf(Leaves(data)[i]) != PathOf(Leaves(data)[j])
  {
    LeavesDistinct(data);
    LeavesReach(data);
    PathTokens(data, Leaves(data)[i]);
    PathTokens(data, Leaves(data)[j]);
  }

  lemma PathTokens(data: Json, leaf: Leaf)
    requires Reaches(data, leaf)
    ensures Split(PathOf(leaf)[1..])[1..] == leaf.tokens
  {
    var tokens := ["data"] + leaf.tokens;
    forall k | 0 <= k < |tokens| ensures NoSlash(tokens[k]) { if k > 0 { assert tokens[k] == leaf.tokens[k - 1]; } }
    assert PathOf(leaf)[1..] == Join(tokens);
    SplitJoin(tokens);
    assert tokens[1..] == leaf.tokens;
  }

  /** Below an object or a list, every path starts with `/data/`. */
  lemma PathPrefix(data: Json, leaf: Leaf)
    requires leaf.tokens != []
    ensures "/data/" <= PathOf(leaf)
  {
    var tokens := ["data"] + leaf.tokens;
    assert tokens[1..] == leaf.tokens;
    assert Join(tokens) == "data" + "/" + Join(leaf.tokens);
  }

  // ---------------------------------------------------------------- no leaf is missed

  /** The node at the end of a way down, given by the positions of the children, and its tokens. */
  function Descend(node: Json, way: seq<nat>): Option<Leaf> {
    if way == [] then Some(Leaf([], node))
    else if way[0] >= Width(node) then None
    else
      var (token, child) := ChildAt(node, way[0]);
      var below := Descend(child, way[1..]);
      if below.None? then None else Some(Leaf([token] + below.value.tokens, below.value.value))
  }

  /** Every way down that ends in a leaf leads to an entry of the list. */
  lemma {:induction false} EveryLeafListed(node: Json, way: seq<nat>)
    requires Descend(node, way).Some? && IsLeaf(Descend(node, way).value.value)
    ensures Descend(node, way).value in Leaves(node)
    decreases |way|
  {
    if way != [] {
      var (token, child) := ChildAt(node, way[0]);
      EveryLeafListed(child, way[1..]);
      var leaf := Descend(child, way[1..]).value;
      var k :| 0 <= k < |Leaves(child)| && Leaves(child)[k] == leaf;
      assert Under(token, Leaves(child))[k] == Leaf([token] + leaf.tokens, leaf.value);
      ListedBelow(node, way[0], Width(node), Leaf([token] + leaf.tokens, leaf.value));
    } else {
      assert Leaves(node)[0] == Leaf([], node);
    }
  }

  lemma {:induction false} ListedBelow(node: Json, i: nat, n: nat, leaf: Leaf)
    requires i < n <= Width(node) && leaf in Under(ChildAt(node, i).0, Leaves(ChildAt(node, i).1))
    ensures leaf in LeavesOfFirst(node, n)
    decreases n
  {
    if i < n - 1 { ListedBelow(node, i, n - 1, leaf); }
  }
}
