/** File names that a download may carry. */
module ExportNames {
  predicate SafeChar(ch: char) {
    '0' <= ch <= '9' || 'A' <= ch <= 'Z' || 'a' <= ch <= 'z' || ch in "._-"
  }

  predicate AllSafe(name: string) { forall i :: 0 <= i < |name| ==> SafeChar(name[i]) }

  predicate CleanEnds(name: string) { name != "" && name[0] !in "._" && name[|name| - 1] !in "._" }

  function ReplaceUnsafe(name: string): (r: string)
    ensures AllSafe(r) && (AllSafe(name) ==> r == name)
  {
    seq(|name|, i requires 0 <= i < |name| => if SafeChar(name[i]) then name[i] else '_')
  }

  /** `strip("._")` */
  function StripEnds(name: string): (r: string)
    ensures r == "" || CleanEnds(r)
    ensures AllSafe(name) ==> AllSafe(r)
    ensures CleanEnds(name) ==> r == name
  {
    if name != "" && name[0] in "._" then StripEnds(name[1..])
    else if name != "" && name[|name| - 1] in "._" then StripEnds(name[..|name| - 1])
    else name
  }

  /** The result is never empty, has safe characters only and no dot or underscore at either end;
      a name that is like that already is left as it is. */
  function SanitizeFilename(name: string): (r: string)
    ensures AllSafe(r) && CleanEnds(r)
    ensures AllSafe(name) && CleanEnds(name) ==> r == name
  {
    var cleaned := StripEnds(ReplaceUnsafe(name));
    if cleaned == "" then "artifact" else cleaned
  }

  /** Characters that stay at neither end. */
  predicate Trimmed(ch: char) { ch == '.' || ch == '_' || !SafeChar(ch) }

  /** The name from `i` to `j`, with every unsafe character replaced, and nothing but trimmed ones around it. */
  predicate IsMiddle(name: string, i: nat, j: nat, r: string) {
    && i <= j <= |name| && |r| == j - i
    && (forall k :: i <= k < j ==> r[k - i] == (if SafeChar(name[k]) then name[k] else '_'))
    && (forall k :: 0 <= k < |name| && !(i <= k < j) ==> Trimmed(name[k]))
  }

  lemma MiddleOfTail(name: string, i: nat, j: nat, r: string)
    requires name != "" && Trimmed(name[0]) && IsMiddle(name[1..], i, j, r)
    ensures IsMiddle(name, i + 1, j + 1, r)
  {
    forall k | 0 <= k < |name| && !(i + 1 <= k < j + 1) ensures Trimmed(name[k]) { if k > 0 { assert name[1..][k - 1] == name[k]; } }
    forall k | i + 1 <= k < j + 1 ensures r[k - (i + 1)] == (if SafeChar(name[k]) then name[k] else '_') {
      assert name[1..][k - 1] == name[k] && r[(k - 1) - i] == r[k - (i + 1)];
    }
  }

  lemma MiddleOfFront(name: string, i: nat, j: nat, r: string)
    requires name != "" && Trimmed(name[|name| - 1]) && IsMiddle(name[..|name| - 1], i, j, r)
    ensures IsMiddle(name, i, j, r)
  {
    assert forall k :: 0 <= k < |name| - 1 ==> name[..|name| - 1][k] == name[k];
  }

  lemma {:induction false} StripIsMiddle(name: string) returns (i: nat, j: nat)
    requires AllSafe(name)
    ensures IsMiddle(name, i, j, StripEnds(name))
  {
    if name != "" && name[0] in "._" {
      i, j := StripIsMiddle(name[1..]);
      MiddleOfTail(name, i, j, StripEnds(name[1..]));
      i, j := i + 1, j + 1;
    } else if name != "" && name[|name| - 1] in "._" {
      i, j := StripIsMiddle(name[..|name| - 1]);
      MiddleOfFront(name, i, j, StripEnds(name[..|name| - 1]));
    } else {
      i, j := 0, |name|;
    }
  }

  /** The sanitized name is the middle of the given one, from its first to its last character that may stand
      at an end, with every unsafe character replaced; or "artifact", exactly if there is no such character. */
  lemma SanitizedIsMiddle(name: string)
    ensures if AllTrimmed(name) then SanitizeFilename(name) == "artifact"
            else exists i: nat, j: nat :: IsMiddle(name, i, j, SanitizeFilename(name))
  {
    var replaced := ReplaceUnsafe(name);
    var i, j := StripIsMiddle(replaced);
    ReplacedAt(name);
    MiddleReplaced(name, replaced, i, j, StripEnds(replaced));
    if StripEnds(replaced) != "" { assert IsMiddle(name, i, j, SanitizeFilename(name)); }
  }

  predicate AllTrimmed(name: string) { forall k :: 0 <= k < |name| ==> Trimmed(name[k]) }

  lemma MiddleReplaced(name: string, replaced: string, i: nat, j: nat, r: string)
    requires |replaced| == |name| && AllSafe(replaced) && IsMiddle(replaced, i, j, r) && (r == "" || CleanEnds(r))
    requires forall k :: 0 <= k < |name| ==>
               replaced[k] == (if SafeChar(name[k]) then name[k] else '_') && (Trimmed(name[k]) <==> Trimmed(replaced[k]))
    ensures IsMiddle(name, i, j, r)
    ensures r == "" <==> AllTrimmed(name)
  {
    assert forall k :: 0 <= k < |name| && !(i <= k < j) ==> Trimmed(replaced[k]);
    if r != "" { assert r[0] == r[i - i] == replaced[i]; }
  }

  lemma ReplacedAt(name: string)
    ensures |ReplaceUnsafe(name)| == |name|
    ensures forall k :: 0 <= k < |name| ==>
              && ReplaceUnsafe(name)[k] == (if SafeChar(name[k]) then name[k] else '_')
              && (Trimmed(name[k]) <==> Trimmed(ReplaceUnsafe(name)[k]))
  {
  }
}
