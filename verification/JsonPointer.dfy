/** JSON documents, and JSON Pointers as RFC 6901 defines them: escaping in section 3, evaluation in
    section 4. */
module JsonPointer {
  import opened Wrappers

  datatype Member = Member(key: string, value: Json)

  /** A JSON value. The members of an object have distinct keys in a well-formed document. */
  datatype Json = Null | Bool(b: bool) | Number(n: real) | Text(s: string) | List(items: seq<Json>) | Object(members: seq<Member>)

  predicate WellFormed(node: Json) {
    match node
    case List(items) => forall i :: 0 <= i < |items| ==> WellFormed(items[i])
    case Object(members) =>
      && (forall i :: 0 <= i < |members| ==> WellFormed(members[i].value))
      && (forall i, j :: 0 <= i < j < |members| ==> members[i].key != members[j].key)
    case _ => true
  }

  // ---------------------------------------------------------------- tokens

  /** `s.replace(c, r)` for a single character. */
  function ReplaceChar(s: string, c: char, r: string): string {
    if s == "" then "" else (if s[0] == c then r else [s[0]]) + ReplaceChar(s[1..], c, r)
  }

  /** `s.replace(ab, r)` for two characters, from left to right. */
  function ReplacePair(s: string, a: char, b: char, r: string): string {
    if |s| < 2 then s
    else if s[0] == a && s[1] == b then r + ReplacePair(s[2..], a, b, r)
    else [s[0]] + ReplacePair(s[1..], a, b, r)
  }

  function Escape(token: string): string { ReplaceChar(ReplaceChar(token, '~', "~0"), '/', "~1") }

  /** First `~1`, then `~0`. */
  function Unescape(token: string): string { ReplacePair(ReplacePair(token, '~', '1', "/"), '~', '0', "~") }

  lemma EscapeHead(c: char, rest: string)
    ensures Escape([c] + rest) == (if c == '~' then "~0" else if c == '/' then "~1" else [c]) + Escape(rest)
  {
    var tail := ReplaceChar(rest, '~', "~0");
    assert ([c] + rest)[1..] == rest;
    if c == '~' {
      var esc := ReplaceChar(tail, '/', "~1");
      assert ("~0" + tail)[1..] == "0" + tail && ("0" + tail)[1..] == tail;
      assert ReplaceChar("0" + tail, '/', "~1") == "0" + esc;
      assert "~" + ("0" + esc) == "~0" + esc;
    } else {
      assert ([c] + tail)[1..] == tail;
    }
  }

  lemma {:induction false} UnescapeSlashes(s: string)
    ensures ReplacePair(Escape(s), '~', '1', "/") == ReplaceChar(s, '~', "~0")
    ensures s != "" && s[0] == '~' ==> |Escape(s)| >= 2
  {
    if s != "" {
      var c, rest := s[0], s[1..];
      assert s == [c] + rest;
      EscapeHead(c, rest);
      UnescapeSlashes(rest);
      var e := Escape(rest);
      if c == '~' {
        assert ("~0" + e)[1..] == "0" + e;
        LeadingChar('0', e, '~', '1', "/");
      } else if c == '/' {
        assert ("~1" + e)[2..] == e;
      } else {
        LeadingChar(c, e, '~', '1', "/");
      }
    }
  }

  /** A character that cannot start the pair stays where it is. */
  lemma LeadingChar(c: char, rest: string, a: char, b: char, r: string)
    requires c != a
    ensures ReplacePair([c] + rest, a, b, r) == [c] + ReplacePair(rest, a, b, r)
  {
    if rest != "" { assert ([c] + rest)[1..] == rest; }
  }

  lemma {:induction false} UnescapeTildes(s: string)
    ensures ReplacePair(ReplaceChar(s, '~', "~0"), '~', '0', "~") == s
  {
    if s != "" {
      var c, rest := s[0], s[1..];
      var tail := ReplaceChar(rest, '~', "~0");
      UnescapeTildes(rest);
      if c == '~' {
        assert ("~0" + tail)[2..] == tail;
      } else {
        LeadingChar(c, tail, '~', '0', "~");
      }
      assert s == [c] + rest;
    }
  }

  /** Unescaping undoes escaping, so no two keys share a token. */
  lemma EscapeRoundTrip(s: string)
    ensures Unescape(Escape(s)) == s
  {
    UnescapeSlashes(s);
    UnescapeTildes(s);
  }

  predicate NoSlash(s: string) { '/' !in s }

  lemma {:induction false} EscapeHasNoSlash(s: string)
    ensures NoSlash(Escape(s))
  {
    if s != "" {
      assert s == [s[0]] + s[1..];
      EscapeHead(s[0], s[1..]);
      EscapeHasNoSlash(s[1..]);
    }
  }

  // ---------------------------------------------------------------- array indices

  function Digit(d: nat): char
    requires d < 10
  {
    "0123456789"[d]
  }

  function Decimal(n: nat): string {
    if n < 10 then [Digit(n)] else Decimal(n / 10) + [Digit(n % 10)]
  }

  function DigitValue(c: char): Option<nat> { if '0' <= c <= '9' then Some(c as int - '0' as int) else None }

  /** Digits without a leading zero. */
  function ParseIndex(s: string): Option<nat> {
    if s == "" then None
    else if |s| == 1 then DigitValue(s[0])
    else
      var head, last := ParseIndex(s[..|s| - 1]), DigitValue(s[|s| - 1]);
      if head.None? || head.value == 0 || last.None? then None else Some(head.value * 10 + last.value)
  }

  lemma {:induction false} DecimalRoundTrip(n: nat)
    ensures ParseIndex(Decimal(n)) == Some(n) && Decimal(n) != "" && NoSlash(Decimal(n))
  {
    assert DigitValue(Digit(n % 10)) == Some(n % 10);
    if n >= 10 {
      DecimalRoundTrip(n / 10);
      var s := Decimal(n);
      assert s[..|s| - 1] == Decimal(n / 10);
    }
  }

  // ---------------------------------------------------------------- pointers

  /** `"/".join(tokens)` */
  function Join(tokens: seq<string>): string
    requires tokens != []
  {
    if |tokens| == 1 then tokens[0] else tokens[0] + "/" + Join(tokens[1..])
  }

  /** `s.split("/")` */
  function Split(s: string): (r: seq<string>)
    ensures r != []
  {
    if s == "" then [""]
    else if s[0] == '/' then [""] + Split(s[1..])
    else
      var r := Split(s[1..]);
      [[s[0]] + r[0]] + r[1..]
  }

  lemma {:induction false} SplitFirst(t: string, rest: string)
    requires NoSlash(t)
    ensures Split(t + "/" + rest) == [t] + Split(rest)
    ensures Split(t) == [t]
  {
    if t == "" {
      assert ("" + "/" + rest)[1..] == rest;
    } else {
      assert t == [t[0]] + t[1..];
      assert (t + "/" + rest)[1..] == t[1..] + "/" + rest;
      SplitFirst(t[1..], rest);
    }
  }

  lemma {:induction false} SplitJoin(tokens: seq<string>)
    requires tokens != [] && forall i :: 0 <= i < |tokens| ==> NoSlash(tokens[i])
    ensures Split(Join(tokens)) == tokens
  {
    if |tokens| == 1 {
      SplitFirst(tokens[0], "");
      assert tokens == [tokens[0]];
    } else {
      SplitFirst(tokens[0], Join(tokens[1..]));
      SplitJoin(tokens[1..]);
      assert tokens == [tokens[0]] + tokens[1..];
    }
  }

  /** The first member with a key, or the number of members. */
  function Find(members: seq<Member>, key: string): (i: nat)
    ensures i <= |members| && (i < |members| ==> members[i].key == key)
    ensures forall j :: 0 <= j < i ==> members[j].key != key
  {
    if members == [] || members[0].key == key then 0 else 1 + Find(members[1..], key)
  }

  /** The child that one reference token selects. */
  function Child(node: Json, token: string): Option<Json> {
    match node
    case Object(members) =>
      var i := Find(members, Unescape(token));
      if i < |members| then Some(members[i].value) else None
    case List(items) =>
      var i := ParseIndex(token);
      if i.Some? && i.value < |items| then Some(items[i.value]) else None
    case _ => None
  }

  function Evaluate(node: Json, tokens: seq<string>): Option<Json> {
    if tokens == [] then Some(node)
    else
      var child := Child(node, tokens[0]);
      if child.None? then None else Evaluate(child.value, tokens[1..])
  }

  /** Evaluation of a pointer in a document. */
  function Resolve(document: Json, pointer: string): Option<Json> {
    if pointer == "" then Some(document)
    else if pointer[0] != '/' then None
    else Evaluate(document, Split(pointer[1..]))
  }
}
