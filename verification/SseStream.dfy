/** `parseSseStream` over decoded text. Lines end with a line feed, optionally after one carriage
    return; a blank line dispatches the current event, and so does the end of the input. */
module SseStream {
  import opened Wrappers

  datatype RawEvent = RawEvent(id: Option<string>, event: Option<string>, data: string)

  const Blank := RawEvent(None, None, "")

  /** The event that is being read, and the events handed out so far. */
  datatype State = State(current: RawEvent, out: seq<RawEvent>)

  const Init := State(Blank, [])

  // ---------------------------------------------------------------- lines

  function IndexOf(s: string, c: char): (i: nat)
    ensures i <= |s| && (i < |s| ==> s[i] == c)
    ensures forall j :: 0 <= j < i ==> s[j] != c
  {
    if s == "" || s[0] == c then 0 else 1 + IndexOf(s[1..], c)
  }

  function DropReturn(line: string): string {
    if line != "" && line[|line| - 1] == '\r' then line[..|line| - 1] else line
  }

  /** `text.split(/\r?\n/)`: the complete lines, and the last piece. */
  function Lines(text: string): (seq<string>, string)
    decreases |text|
  {
    var i := IndexOf(text, '\n');
    if i == |text| then ([], text)
    else
      var (lines, rest) := Lines(text[i + 1..]);
      ([DropReturn(text[..i])] + lines, rest)
  }

  // ---------------------------------------------------------------- one line

  function Dispatch(s: State): State {
    State(Blank, if s.current.data != "" then s.out + [s.current] else s.out)
  }

  function FieldOf(line: string): string { line[..IndexOf(line, ':')] }

  /** What follows the colon, less one leading space. */
  function ValueOf(line: string): string {
    var i := IndexOf(line, ':');
    if i == |line| then ""
    else if i + 1 < |line| && line[i + 1] == ' ' then line[i + 2..]
    else line[i + 1..]
  }

  function ConsumeLine(s: State, line: string): State {
    if line == "" then Dispatch(s)
    else if line[0] == ':' then s
    else
      var field, value := FieldOf(line), ValueOf(line);
      if field == "id" then s.(current := s.current.(id := Some(value)))
      else if field == "event" then s.(current := s.current.(event := Some(value)))
      else if field == "data" then
        s.(current := s.current.(data := if s.current.data != "" then s.current.data + "\n" + value else value))
      else s
  }

  function ConsumeAll(s: State, lines: seq<string>): State {
    if lines == [] then s else ConsumeLine(ConsumeAll(s, lines[..|lines| - 1]), lines[|lines| - 1])
  }

  /** What a whole text means, read in one piece. */
  function ParseText(text: string): seq<RawEvent> {
    var (lines, rest) := Lines(text);
    var s := ConsumeAll(Init, lines);
    Dispatch(if rest != "" then ConsumeLine(s, rest) else s).out
  }

  // ---------------------------------------------------------------- chunks

  function Text(chunks: seq<string>): string {
    if chunks == [] then "" else Text(chunks[..|chunks| - 1]) + chunks[|chunks| - 1]
  }

  /** The first line of a text does not depend on what follows it. */
  lemma FirstLine(a: string, b: string)
    requires IndexOf(a, '\n') < |a|
    ensures var i := IndexOf(a, '\n');
            && Lines(a) == ([DropReturn(a[..i])] + Lines(a[i + 1..]).0, Lines(a[i + 1..]).1)
            && Lines(a + b) == ([DropReturn(a[..i])] + Lines(a[i + 1..] + b).0, Lines(a[i + 1..] + b).1)
  {
    var i := IndexOf(a, '\n');
    assert (a + b)[..i] == a[..i] && (a + b)[i + 1..] == a[i + 1..] + b;
    FirstIndex(a + b, '\n', i);
  }

  predicate SplitsAt(a: string, b: string) {
    Lines(a + b) == (Lines(a).0 + Lines(Lines(a).1 + b).0, Lines(Lines(a).1 + b).1)
  }

  /** Splitting a text in two pieces, with the unfinished line carried over, gives the same lines. */
  lemma {:induction false} LinesOfPieces(a: string, b: string)
    ensures SplitsAt(a, b)
    decreases |a|
  {
    var i := IndexOf(a, '\n');
    if i < |a| {
      var tail := a[i + 1..];
      FirstLine(a, b);
      LinesOfPieces(tail, b);
      Assemble([DropReturn(a[..i])], Lines(tail), Lines(tail + b), Lines(Lines(tail).1 + b), Lines(a), Lines(a + b));
    } else {
      NoLine(a, b);
    }
  }

  lemma NoLine(a: string, b: string)
    requires IndexOf(a, '\n') == |a|
    ensures SplitsAt(a, b)
  {
    assert [] + Lines(a + b).0 == Lines(a + b).0;
  }

  lemma Assemble(first: seq<string>, tail: (seq<string>, string), tailB: (seq<string>, string), rest: (seq<string>, string),
                 whole: (seq<string>, string), wholeB: (seq<string>, string))
    requires whole == (first + tail.0, tail.1) && wholeB == (first + tailB.0, tailB.1)
    requires tailB == (tail.0 + rest.0, rest.1)
    ensures wholeB == (whole.0 + rest.0, rest.1)
  {
    assert first + (tail.0 + rest.0) == (first + tail.0) + rest.0;
  }

  lemma FirstIndex(s: string, c: char, i: nat)
    requires i < |s| && s[i] == c && forall j :: 0 <= j < i ==> s[j] != c
    ensures IndexOf(s, c) == i
  {
  }

  lemma {:induction false} ConsumePieces(s: State, a: seq<string>, b: seq<string>)
    ensures ConsumeAll(s, a + b) == ConsumeAll(ConsumeAll(s, a), b)
  {
    if b == [] {
      assert a + b == a;
    } else {
      assert (a + b)[..|a + b| - 1] == a + b[..|b| - 1];
      ConsumePieces(s, a, b[..|b| - 1]);
    }
  }

  method ForEachLine(s: State, lines: seq<string>) returns (t: State)
    ensures t == ConsumeAll(s, lines)
  {
    t := s;
    for i := 0 to |lines|
      invariant t == ConsumeAll(s, lines[..i])
    {
      assert lines[..i + 1][..i] == lines[..i];
      t := ConsumeLine(t, lines[i]);
    }
    assert lines[..|lines|] == lines;
  }

  /** The read loop. What it hands out depends on the text only, not on how it was cut into chunks. */
  method ParseSseStream(chunks: seq<string>) returns (events: seq<RawEvent>)
    ensures events == ParseText(Text(chunks))
  {
    var buffer, s := "", Init;
    for i := 0 to |chunks|
      invariant buffer == Lines(Text(chunks[..i])).1
      invariant s == ConsumeAll(Init, Lines(Text(chunks[..i])).0)
    {
      assert chunks[..i + 1][..i] == chunks[..i];
      LinesOfPieces(Text(chunks[..i]), chunks[i]);
      ConsumePieces(Init, Lines(Text(chunks[..i])).0, Lines(buffer + chunks[i]).0);
      var (lines, rest) := Lines(buffer + chunks[i]);
      buffer := rest;
      s := ForEachLine(s, lines);
    }
    assert chunks[..|chunks|] == chunks;
    if buffer != "" { s := ConsumeLine(s, buffer); }
    s := Dispatch(s);
    events := s.out;
  }

  // ---------------------------------------------------------------- reading back what was written

  /** Data as the server writes it: one `data` line per line. */
  function Joined(lines: seq<string>): string
    requires lines != []
  {
    if |lines| == 1 then lines[0] else Joined(lines[..|lines| - 1]) + "\n" + lines[|lines| - 1]
  }

  function DataLines(lines: seq<string>): seq<string> { seq(|lines|, i requires 0 <= i < |lines| => "data: " + lines[i]) }

  function Frame(id: string, event: string, data: seq<string>): seq<string> {
    ["id: " + id, "event: " + event] + DataLines(data) + [""]
  }

  lemma FieldLine(name: string, value: string)
    requires name != "" && ':' !in name
    ensures var line := name + ": " + value;
            line != "" && line[0] != ':' && FieldOf(line) == name && ValueOf(line) == value
  {
    var line := name + ": " + value;
    FirstIndex(line, ':', |name|);
    assert line[|name| + 2..] == value && line[..|name|] == name;
  }

  lemma DataLine(s: State, value: string)
    ensures ConsumeLine(s, "data: " + value)
         == s.(current := s.current.(data := if s.current.data != "" then s.current.data + "\n" + value else value))
  {
    FieldLine("data", value);
    assert "data" + ": " + value == "data: " + value;
  }

  lemma HeadLines(s: State, id: string, event: string)
    ensures ConsumeAll(s, ["id: " + id, "event: " + event]) == s.(current := s.current.(id := Some(id), event := Some(event)))
  {
    var l1, l2 := "id: " + id, "event: " + event;
    FieldLine("id", id);
    FieldLine("event", event);
    assert "id" + ": " + id == l1 && "event" + ": " + event == l2;
    var s1 := s.(current := s.current.(id := Some(id)));
    assert ConsumeLine(s, l1) == s1;
    assert [l1, l2][..1] == [l1] && [l1][..0] == [];
    assert ConsumeAll(s, [l1]) == s1;
    assert ConsumeAll(s, [l1, l2]) == ConsumeLine(s1, l2);
  }

  lemma {:induction false} DataConsumed(s: State, data: seq<string>)
    requires s.current.data == "" && data != [] && data[0] != ""
    ensures ConsumeAll(s, DataLines(data)) == s.(current := s.current.(data := Joined(data)))
    ensures Joined(data) != ""
  {
    var head, last := data[..|data| - 1], data[|data| - 1];
    assert DataLines(data)[..|data| - 1] == DataLines(head);
    if |data| == 1 {
      assert ConsumeAll(s, DataLines(head)) == s;
      DataLine(s, last);
    } else {
      DataConsumed(s, head);
      DataLine(s.(current := s.current.(data := Joined(head))), last);
    }
  }

  predicate NoLineFeed(lines: seq<string>) { forall i :: 0 <= i < |lines| ==> '\n' !in lines[i] }

  /** What data lines collect, whether or not the first one is empty, never begins with a line feed. */
  lemma {:induction false} DataCollected(s: State, data: seq<string>)
    requires s.current.data == "" && NoLineFeed(data)
    ensures var t := ConsumeAll(s, DataLines(data));
            && t == s.(current := s.current.(data := t.current.data))
            && (t.current.data != "" ==> t.current.data[0] != '\n')
  {
    if data != [] {
      var head, last := data[..|data| - 1], data[|data| - 1];
      assert DataLines(data)[..|data| - 1] == DataLines(head);
      DataCollected(s, head);
      DataLine(ConsumeAll(s, DataLines(head)), last);
    }
  }

  lemma {:induction false} JoinedBegins(data: seq<string>)
    requires data != [] && data[0] == ""
    ensures Joined(data) == "" || Joined(data)[0] == '\n'
  {
    if |data| > 2 { JoinedBegins(data[..|data| - 1]); }
  }

  lemma FrameConsumed(s: State, id: string, event: string, data: seq<string>)
    requires s.current == Blank
    ensures var s2 := s.(current := s.current.(id := Some(id), event := Some(event)));
            ConsumeAll(s, Frame(id, event, data)) == Dispatch(ConsumeAll(s2, DataLines(data)))
  {
    var lines := ["id: " + id, "event: " + event];
    HeadLines(s, id, event);
    ConsumePieces(s, lines, DataLines(data));
    ConsumePieces(s, lines + DataLines(data), [""]);
    assert [""][..0] == [];
  }

  /** A frame is read back as it was written if and only if its data does not begin with an empty line. */
  lemma FrameRoundTrip(s: State, id: string, event: string, data: seq<string>)
    requires s.current == Blank && data != [] && NoLineFeed(data)
    ensures ConsumeAll(s, Frame(id, event, data)) == State(Blank, s.out + [RawEvent(Some(id), Some(event), Joined(data))])
            <==> data[0] != ""
  {
    var s2 := s.(current := s.current.(id := Some(id), event := Some(event)));
    FrameConsumed(s, id, event, data);
    if data[0] != "" {
      DataConsumed(s2, data);
    } else {
      DataCollected(s2, data);
      JoinedBegins(data);
      var t := ConsumeAll(s2, DataLines(data));
      if t.current.data != "" {
        var more := Dispatch(t).out;
        assert more[|s.out|] == t.current;
      }
    }
  }

  // ---------------------------------------------------------------- the same on text

  /** Lines as they are sent, each with its line feed. */
  function Written(lines: seq<string>): string {
    if lines == [] then "" else lines[0] + "\n" + Written(lines[1..])
  }

  /** No line holds a line feed, nor a carriage return at its end. */
  predicate Sendable(lines: seq<string>) {
    NoLineFeed(lines) && forall i :: 0 <= i < |lines| ==> DropReturn(lines[i]) == lines[i]
  }

  lemma {:induction false} LinesOfWritten(lines: seq<string>)
    requires Sendable(lines)
    ensures Lines(Written(lines)) == (lines, "")
  {
    if lines != [] {
      var text := Written(lines);
      FirstIndex(text, '\n', |lines[0]|);
      assert text[..|lines[0]|] == lines[0] && text[|lines[0]| + 1..] == Written(lines[1..]);
      LinesOfWritten(lines[1..]);
      assert [lines[0]] + lines[1..] == lines;
    }
  }

  lemma FrameSendable(id: string, event: string, data: seq<string>)
    requires Sendable([id, event] + data)
    ensures NoLineFeed(data) && Sendable(Frame(id, event, data))
  {
    var all, lines := [id, event] + data, Frame(id, event, data);
    forall i | 0 <= i < |data| ensures '\n' !in data[i] { assert all[i + 2] == data[i]; }
    forall i | 0 <= i < |lines| ensures '\n' !in lines[i] && DropReturn(lines[i]) == lines[i] {
      if i == 0 { Prefixed("id: ", all[0]); } else if i == 1 { Prefixed("event: ", all[1]); }
      else if i < |lines| - 1 { Prefixed("data: ", all[i]); }
    }
  }

  lemma Prefixed(name: string, value: string)
    requires name != "" && '\n' !in name && name[|name| - 1] != '\r' && '\n' !in value && DropReturn(value) == value
    ensures '\n' !in name + value && DropReturn(name + value) == name + value
  {
    if value != "" { assert (name + value)[|name + value| - 1] == value[|value| - 1]; }
  }

  /** A sent frame comes out of the parser as it went in if and only if its data does not begin with an
      empty line. */
  lemma SentFrameRoundTrip(id: string, event: string, data: seq<string>)
    requires data != [] && Sendable([id, event] + data)
    ensures ParseText(Written(Frame(id, event, data))) == [RawEvent(Some(id), Some(event), Joined(data))] <==> data[0] != ""
  {
    FrameSendable(id, event, data);
    LinesOfWritten(Frame(id, event, data));
    FrameConsumed(Init, id, event, data);
    FrameRoundTrip(Init, id, event, data);
  }

  // ---------------------------------------------------------------- the end of the input

  /** A line that adds something to the data. */
  predicate AddsData(line: string) { FieldOf(line) == "data" && ValueOf(line) != "" }

  /** Some line after the last blank one adds data. */
  predicate Pending(lines: seq<string>) {
    lines != [] && lines[|lines| - 1] != "" && (AddsData(lines[|lines| - 1]) || Pending(lines[..|lines| - 1]))
  }

  lemma {:induction false} PendingMeaning(lines: seq<string>)
    ensures ConsumeAll(Init, lines).current.data != "" <==> Pending(lines)
  {
    if lines != [] { PendingMeaning(lines[..|lines| - 1]); }
  }

  function AllLines(text: string): seq<string> { Lines(text).0 + (if Lines(text).1 == "" then [] else [Lines(text).1]) }

  /** The end of the input hands out one event more, exactly when data came after the last blank line. */
  lemma TrailingEvent(text: string)
    ensures var s := ConsumeAll(Init, AllLines(text));
            ParseText(text) == s.out + (if Pending(AllLines(text)) then [s.current] else [])
  {
    var (lines, rest) := Lines(text);
    PendingMeaning(AllLines(text));
    if rest == "" {
      assert lines + [] == lines;
    } else {
      assert (lines + [rest])[..|lines|] == lines;
    }
  }

  // ---------------------------------------------------------------- line ends

  /** Lines as they are sent, each with a line feed, some with a return before it. */
  function WrittenWith(lines: seq<string>, withReturn: seq<bool>): string
    requires |lines| == |withReturn|
  {
    if lines == [] then "" else lines[0] + (if withReturn[0] then "\r\n" else "\n") + WrittenWith(lines[1..], withReturn[1..])
  }

  /** No line holds a line feed, nor a return at its end where only a line feed follows. */
  predicate SendableWith(lines: seq<string>, withReturn: seq<bool>)
    requires |lines| == |withReturn|
  {
    NoLineFeed(lines) && forall i :: 0 <= i < |lines| && !withReturn[i] ==> DropReturn(lines[i]) == lines[i]
  }

  lemma FirstWritten(first: string, tail: string)
    requires '\n' !in first
    ensures Lines(first + "\n" + tail) == ([DropReturn(first)] + Lines(tail).0, Lines(tail).1)
  {
    var text := first + "\n" + tail;
    FirstIndex(text, '\n', |first|);
    assert text[..|first|] == first && text[|first| + 1..] == tail;
  }

  lemma EndedLine(line: string, withReturn: bool, tail: string)
    requires '\n' !in line && (!withReturn ==> DropReturn(line) == line)
    ensures Lines(line + (if withReturn then "\r\n" else "\n") + tail) == ([line] + Lines(tail).0, Lines(tail).1)
  {
    if withReturn {
      var first := line + "\r";
      assert first[..|first| - 1] == line;
      assert first + "\n" + tail == line + "\r\n" + tail;
      FirstWritten(first, tail);
    } else {
      FirstWritten(line, tail);
    }
  }

  /** Either line end is understood, also mixed: the lines come out as they went in. */
  lemma {:induction false} EitherLineEnd(lines: seq<string>, withReturn: seq<bool>)
    requires |lines| == |withReturn| && SendableWith(lines, withReturn)
    ensures Lines(WrittenWith(lines, withReturn)) == (lines, "")
  {
    if lines != [] {
      EndedLine(lines[0], withReturn[0], WrittenWith(lines[1..], withReturn[1..]));
      EitherLineEnd(lines[1..], withReturn[1..]);
      assert [lines[0]] + lines[1..] == lines;
    }
  }

  /** So a sent frame comes out of the parser as it went in, whichever line ends carried it, if and only if
      its data does not begin with an empty line. */
  lemma FrameWithEitherLineEnd(id: string, event: string, data: seq<string>, withReturn: seq<bool>)
    requires data != [] && Sendable([id, event] + data) && |withReturn| == |data| + 3
    ensures ParseText(WrittenWith(Frame(id, event, data), withReturn)) == [RawEvent(Some(id), Some(event), Joined(data))]
       <==> data[0] != ""
  {
    FrameSendable(id, event, data);
    EitherLineEnd(Frame(id, event, data), withReturn);
    FrameConsumed(Init, id, event, data);
    FrameRoundTrip(Init, id, event, data);
  }

  /** A comment, or a line with a field that the parser does not know. */
  predicate Ignored(line: string) { line != "" && (line[0] == ':' || FieldOf(line) !in {"id", "event", "data"}) }

  function WithoutIgnored(lines: seq<string>): seq<string> {
    if lines == [] then []
    else WithoutIgnored(lines[..|lines| - 1]) + (if Ignored(lines[|lines| - 1]) then [] else [lines[|lines| - 1]])
  }

  /** Comments and unknown fields change no event. */
  lemma {:induction false} IgnoredLinesChangeNothing(s: State, lines: seq<string>)
    ensures ConsumeAll(s, lines) == ConsumeAll(s, WithoutIgnored(lines))
  {
    if lines != [] {
      var head, last := WithoutIgnored(lines[..|lines| - 1]), lines[|lines| - 1];
      IgnoredLinesChangeNothing(s, lines[..|lines| - 1]);
      if Ignored(last) {
        assert head + [] == head;
      } else {
        assert (head + [last])[..|head|] == head;
      }
    }
  }
}
