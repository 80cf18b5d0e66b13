/** Text as the gateway's JavaScript sees it: UTF-16 code units, read as code points by
    `Array.from` and measured in UTF-8 bytes (RFC 3629 section 3) by `TextEncoder`.
    A lone surrogate is a character of its own and encodes as U+FFFD, three bytes. */
module Utf16Text {
  type Unit = u: nat | u < 0x1_0000
  type Text = seq<Unit>

  predicate High(u: Unit) { 0xD800 <= u < 0xDC00 }
  predicate Low(u: Unit) { 0xDC00 <= u < 0xE000 }

  /** Code units in the first character. */
  function CharLen(t: Text): (n: nat)
    requires t != []
    ensures 1 <= n <= |t|
  {
    if |t| >= 2 && High(t[0]) && Low(t[1]) then 2 else 1
  }

  /** UTF-8 bytes of the first character. */
  function CharBytes(t: Text): (n: nat)
    requires t != []
    ensures 1 <= n <= 4
  {
    if CharLen(t) == 2 then 4 else if t[0] < 0x80 then 1 else if t[0] < 0x800 then 2 else 3
  }

  function Utf8Bytes(t: Text): nat {
    if t == [] then 0 else CharBytes(t) + Utf8Bytes(t[CharLen(t)..])
  }

  /** `Array.from(text)` */
  function Chars(t: Text): seq<Text> {
    if t == [] then [] else [t[..CharLen(t)]] + Chars(t[CharLen(t)..])
  }

  /** `chars.join("")` */
  function Join(cs: seq<Text>): Text {
    if cs == [] then [] else cs[0] + Join(cs[1..])
  }

  /** Cutting before unit `i` does not part a surrogate pair. */
  predicate Boundary(t: Text, i: nat)
    requires i <= |t|
  {
    !(0 < i < |t| && High(t[i - 1]) && Low(t[i]))
  }

  lemma {:induction false} JoinChars(t: Text)
    ensures Join(Chars(t)) == t
  {
    if t != [] {
      JoinChars(t[CharLen(t)..]);
      assert t[..CharLen(t)] + t[CharLen(t)..] == t;
    }
  }

  /** A cut at a boundary splits the characters and adds up the bytes. */
  lemma {:induction false} Concat(a: Text, b: Text)
    requires Boundary(a + b, |a|)
    ensures Utf8Bytes(a + b) == Utf8Bytes(a) + Utf8Bytes(b)
    ensures Chars(a + b) == Chars(a) + Chars(b)
  {
    if a == [] {
      assert a + b == b;
    } else {
      var n := CharLen(a);
      assert CharLen(a + b) == n && (a + b)[n..] == a[n..] + b && (a + b)[..n] == a[..n];
      assert Boundary(a[n..] + b, |a[n..]|) by {
        if a[n..] != [] && b != [] { assert (a[n..] + b)[|a[n..]| - 1] == (a + b)[|a| - 1]; }
      }
      Concat(a[n..], b);
    }
  }

  /** Any cut at all: joining can only merge one split pair, and then it saves two bytes. */
  lemma {:induction false} ConcatAny(a: Text, b: Text)
    ensures Utf8Bytes(a + b) == Utf8Bytes(a) + Utf8Bytes(b) - (if Boundary(a + b, |a|) then 0 else 2)
  {
    if Boundary(a + b, |a|) {
      Concat(a, b);
    } else {
      var front, h, l, back := a[..|a| - 1], a[|a| - 1], b[0], b[1..];
      assert a == front + [h] && b == [l] + back;
      assert a + b == front + ([h, l] + back);
      assert (front + [h])[|front|] == h;
      Concat(front, [h]);
      assert (front + ([h, l] + back))[|front|] == h;
      Concat(front, [h, l] + back);
      assert ([l] + back)[0] == l;
      Concat([l], back);
      assert ([h, l] + back)[2..] == back;
      assert [h][1..] == [] && [l][1..] == [];
    }
  }

  lemma {:induction false} BytesBounds(t: Text)
    ensures |t| <= Utf8Bytes(t) <= 3 * |t|
  {
    if t != [] { BytesBounds(t[CharLen(t)..]); }
  }

  /** The longest prefix of whole characters within `max` bytes. */
  function FitLen(t: Text, max: nat): (n: nat)
    ensures n <= |t|
  {
    if t == [] || CharBytes(t) > max then 0
    else CharLen(t) + FitLen(t[CharLen(t)..], max - CharBytes(t))
  }

  lemma {:induction false} FitLenMeaning(t: Text, max: nat)
    ensures var n := FitLen(t, max);
            && Boundary(t, n)
            && Utf8Bytes(t[..n]) <= max
            && (n < |t| ==> Utf8Bytes(t[..n]) + CharBytes(t[n..]) > max)
            && (t != [] && max >= 4 ==> n > 0)
  {
    if t != [] && CharBytes(t) <= max {
      var k := CharLen(t);
      var m := FitLen(t[k..], max - CharBytes(t));
      FitLenMeaning(t[k..], max - CharBytes(t));
      var n := k + m;
      assert t[..n][k..] == t[k..][..m] && t[k..][m..] == t[n..];
      assert CharLen(t[..n]) == k;
      assert Boundary(t, n) by {
        if m > 0 && n < |t| { assert t[k..][m - 1] == t[n - 1] && t[k..][m] == t[n]; }
      }
    }
  }

  /** `takeUtf8Prefix`: whole characters while they fit, and what is left. */
  method TakeUtf8Prefix(value: Text, maxBytes: nat) returns (prefix: Text, rest: Text)
    ensures prefix == value[..FitLen(value, maxBytes)]
    ensures rest == value[FitLen(value, maxBytes)..]
  {
    var chars := Chars(value);
    var used := 0;
    var count := 0;
    ghost var n := 0;   // code units in the characters counted so far
    while count < |chars|
      invariant 0 <= count <= |chars| && 0 <= used <= maxBytes && 0 <= n <= |value|
      invariant chars[count..] == Chars(value[n..])
      invariant Join(chars[..count]) == value[..n]
      invariant n + FitLen(value[n..], maxBytes - used) == FitLen(value, maxBytes)
    {
      NextChar(value, n, chars, count);
      var bytes := Utf8Bytes(chars[count]);
      if used + bytes > maxBytes { break; }
      used := used + bytes;
      n := n + CharLen(value[n..]);
      count := count + 1;
      if used >= maxBytes { break; }
    }
    JoinChars(value[n..]);
    prefix, rest := Join(chars[..count]), Join(chars[count..]);
  }

  lemma NextChar(value: Text, n: nat, chars: seq<Text>, count: nat)
    requires n <= |value| && count < |chars| && chars[count..] == Chars(value[n..])
    requires Join(chars[..count]) == value[..n]
    ensures n < |value|
    ensures Utf8Bytes(chars[count]) == CharBytes(value[n..])
    ensures var m := n + CharLen(value[n..]);
            && chars[count + 1..] == Chars(value[m..])
            && Join(chars[..count + 1]) == value[..m]
            && value[n..][CharLen(value[n..])..] == value[m..]
  {
    var left := value[n..];
    assert left != [];
    assert chars[count] == chars[count..][0] == left[..CharLen(left)];
    assert chars[count + 1..] == chars[count..][1..];
    FirstChar(left);
    JoinSnoc(chars, count);
    assert value[..n] + left[..CharLen(left)] == value[..n + CharLen(left)];
  }

  lemma FirstChar(t: Text)
    requires t != []
    ensures Utf8Bytes(t[..CharLen(t)]) == CharBytes(t)
  {
    var ch := t[..CharLen(t)];
    assert CharLen(ch) == CharLen(t);
    assert ch[CharLen(ch)..] == [];
  }

  lemma {:induction false} JoinSplit(cs: seq<Text>, n: nat)
    requires n <= |cs|
    ensures Join(cs) == Join(cs[..n]) + Join(cs[n..])
  {
    if n > 0 {
      JoinSplit(cs[1..], n - 1);
      assert cs[..n][1..] == cs[1..][..n - 1] && cs[1..][n - 1..] == cs[n..];
    }
  }

  lemma JoinSnoc(cs: seq<Text>, n: nat)
    requires n < |cs|
    ensures Join(cs[..n + 1]) == Join(cs[..n]) + cs[n]
  {
    JoinSplit(cs[..n + 1], n);
    assert cs[..n + 1][..n] == cs[..n] && cs[..n + 1][n..] == [cs[n]];
    var last: seq<Text> := [cs[n]];
    assert last[1..] == [] && Join(last) == cs[n] + [];
  }

  // ---------------------------------------------------------------- JSON strings

  /** UTF-8 bytes that `JSON.stringify` writes for the first character, escapes included. */
  function JsonCharBytes(t: Text): (n: nat)
    requires t != []
    ensures n <= 6 * CharBytes(t)
  {
    if CharLen(t) == 2 then 4
    else if t[0] == 0x22 || t[0] == 0x5C || 0x08 <= t[0] <= 0x0A || t[0] == 0x0C || t[0] == 0x0D then 2
    else if t[0] < 0x20 || High(t[0]) || Low(t[0]) then 6
    else CharBytes(t)
  }

  /** The length of the quoted string. */
  function JsonBytes(t: Text): nat { 2 + JsonBody(t) }

  function JsonBody(t: Text): nat {
    if t == [] then 0 else JsonCharBytes(t) + JsonBody(t[CharLen(t)..])
  }

  /** Escaping costs at most a factor of six. */
  lemma {:induction false} JsonBound(t: Text)
    ensures JsonBytes(t) <= 2 + 6 * Utf8Bytes(t)
  {
    if t != [] { JsonBound(t[CharLen(t)..]); }
  }
}
