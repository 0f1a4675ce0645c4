/**
 What the stream reader of apps/web/src/lib/api/client.ts makes of records as any server may write them (section 9.2 of
 the WHATWG HTML Living Standard): several data lines, other lines between them, LF or CR LF at each line end.
 */
module SseFrames {
  import opened Prelude
  import opened Sse

  /** One line of a record, with white space around the values. */
  datatype Field =
    | Other(text: string)
    | EventLine(before: string, name: string, after: string)
    | DataLine(pad: string, value: string)

  datatype FrameLine = FrameLine(field: Field, crlf: bool)

  /** A record: its lines, and the end of the blank line that closes it. */
  datatype Frame = Frame(lines: seq<FrameLine>, crlf: bool)

  predicate AllSpaces(s: string) {
    forall c | c in s :: IsSpace(c)
  }

  function LineText(field: Field): string {
    match field
    case Other(text) => text
    case EventLine(before, name, after) => "event:" + (before + name + after)
    case DataLine(pad, value) => "data:" + (pad + value)
  }

  predicate FieldOk(field: Field) {
    && NoLineEnd(LineText(field)) && LineText(field) != ""
    && match field
       case Other(text) => !("event:" <= text) && !("data:" <= text)
       case EventLine(before, name, after) =>
         && AllSpaces(before) && AllSpaces(after)
         && name != "" && !IsSpace(name[0]) && !IsSpace(name[|name| - 1])
       case DataLine(pad, value) => AllSpaces(pad) && (value != "" ==> !IsSpace(value[0]))
  }

  predicate FrameOk(frame: Frame) {
    frame.lines != [] && forall line | line in frame.lines :: FieldOk(line.field)
  }

  function End(crlf: bool): string {
    if crlf then "\r\n" else "\n"
  }

  /** The record without the line ends that close it. */
  function BodyOf(lines: seq<FrameLine>): string
    requires lines != []
  {
    if |lines| == 1 then LineText(lines[0].field)
    else LineText(lines[0].field) + (End(lines[0].crlf) + BodyOf(lines[1..]))
  }

  function Print(frames: seq<Frame>): string
    requires forall frame | frame in frames :: FrameOk(frame)
  {
    if frames == [] then ""
    else
      assert frames[0] in frames && FrameOk(frames[0]);
      var lines := frames[0].lines;
      BodyOf(lines) + (End(lines[|lines| - 1].crlf) + (End(frames[0].crlf) + Print(frames[1..])))
  }

  // ---------------------------------------------------------- what it means

  /** The first name. */
  function NameOf(lines: seq<FrameLine>): Option<string> {
    if lines == [] then None
    else if lines[0].field.EventLine? then Some(lines[0].field.name)
    else NameOf(lines[1..])
  }

  /** All the values, in order. */
  function ValuesOf(lines: seq<FrameLine>): seq<string> {
    if lines == [] then []
    else (if lines[0].field.DataLine? then [lines[0].field.value] else []) + ValuesOf(lines[1..])
  }

  /** A record with a name and some data is one message; any other record is none. */
  function MessageOf(frame: Frame): seq<Message> {
    var data := JoinLines(ValuesOf(frame.lines));
    if NameOf(frame.lines).Some? && data != "" then [Message(NameOf(frame.lines).value, data)] else []
  }

  function MessagesOf(frames: seq<Frame>): seq<Message> {
    if frames == [] then [] else MessageOf(frames[0]) + MessagesOf(frames[1..])
  }

  // ------------------------------------------------------------------ proofs

  lemma {:induction false} TrimStartIs(pad: string, s: string)
    requires AllSpaces(pad) && (s != "" ==> !IsSpace(s[0]))
    ensures TrimStart(pad + s) == s
  {
    if pad == "" {
      assert pad + s == s;
    } else {
      assert (pad + s)[0] == pad[0] && pad[0] in pad && (pad + s)[1..] == pad[1..] + s;
      TrimStartIs(pad[1..], s);
    }
  }

  lemma {:induction false} TrimEndIs(s: string, pad: string)
    requires AllSpaces(pad) && (s != "" ==> !IsSpace(s[|s| - 1]))
    ensures TrimEnd(s + pad) == s
  {
    if pad == "" {
      assert s + pad == s;
    } else {
      var n := |pad| - 1;
      assert (s + pad)[|s + pad| - 1] == pad[n] && pad[n] in pad && (s + pad)[..|s + pad| - 1] == s + pad[..n];
      TrimEndIs(s, pad[..n]);
    }
  }

  function Texts(lines: seq<FrameLine>): seq<string> {
    Map((line: FrameLine) => LineText(line.field), lines)
  }

  lemma PrefixesDiffer(s: string, t: string)
    ensures "event:" <= "event:" + s && !("data:" <= "event:" + s)
    ensures "data:" <= "data:" + t && !("event:" <= "data:" + t)
    ensures ("event:" + s)[6..] == s && ("data:" + t)[5..] == t
  {
    assert ("event:" + s)[0] == 'e' && ("data:" + t)[0] == 'd' && "data:"[0] == 'd' && "event:"[0] == 'e';
  }

  lemma EventOfLine(field: Field)
    requires FieldOk(field)
    ensures "event:" <= LineText(field) <==> field.EventLine?
    ensures "data:" <= LineText(field) <==> field.DataLine?
    ensures field.EventLine? ==> TrimEnd(TrimStart(LineText(field)[6..])) == field.name
    ensures field.DataLine? ==> TrimStart(LineText(field)[5..]) == field.value
  {
    hide IsSpace, TrimStart, TrimEnd;
    match field
    case Other(_) =>
    case EventLine(before, name, after) =>
      PrefixesDiffer(before + name + after, "");
      TrimBoth(before, name, after);
    case DataLine(pad, value) =>
      PrefixesDiffer("", pad + value);
      TrimStartIs(pad, value);
  }

  lemma TrimBoth(before: string, name: string, after: string)
    requires AllSpaces(before) && AllSpaces(after)
    requires name != "" && !IsSpace(name[0]) && !IsSpace(name[|name| - 1])
    ensures TrimEnd(TrimStart(before + name + after)) == name
  {
    hide IsSpace, TrimStart, TrimEnd;
    assert before + name + after == before + (name + after);
    assert (name + after)[0] == name[0];
    TrimStartIs(before, name + after);
    TrimEndIs(name, after);
  }

  lemma {:induction false} FieldsOf(lines: seq<FrameLine>)
    requires forall line | line in lines :: FieldOk(line.field)
    ensures EventField(Texts(lines)) == NameOf(lines)
    ensures DataFields(Texts(lines)) == ValuesOf(lines)
  {
    hide FieldOk, LineText, TrimStart, TrimEnd;
    if lines != [] {
      assert lines[0] in lines;
      assert Texts(lines)[0] == LineText(lines[0].field) && Texts(lines)[1..] == Texts(lines[1..]);
      EventOfLine(lines[0].field);
      FieldsOf(lines[1..]);
    }
  }

  lemma {:induction false} LinesAfterText(s: string, crlf: bool, u: string)
    requires NoLineEnd(s)
    ensures Lines(s + (End(crlf) + u)) == [s] + Lines(u)
  {
    var t := s + (End(crlf) + u);
    if s == "" {
      assert t == End(crlf) + u;
      assert t[|End(crlf)|..] == u;
    } else {
      assert s[0] in s && t[0] == s[0] && t[1..] == s[1..] + (End(crlf) + u);
      LinesAfterText(s[1..], crlf, u);
      assert [s[0]] + s[1..] == s;
    }
  }

  lemma {:induction false} LinesOfBody(lines: seq<FrameLine>)
    requires lines != [] && forall line | line in lines :: FieldOk(line.field)
    ensures Lines(BodyOf(lines)) == Texts(lines)
  {
    hide Lines, LineText, End;
    assert lines[0] in lines;
    var text := LineText(lines[0].field);
    if |lines| == 1 {
      LinesOfText(text, "");
      assert Texts(lines) == [text];
    } else {
      LinesAfterText(text, lines[0].crlf, BodyOf(lines[1..]));
      LinesOfBody(lines[1..]);
      assert Texts(lines) == [text] + Texts(lines[1..]);
    }
  }

  lemma BodyIsRead(frame: Frame)
    requires FrameOk(frame)
    ensures Deframe(BodyOf(frame.lines)) == MessageOf(frame)
  {
    hide Lines, EventField, DataFields, BodyOf, JoinLines;
    LinesOfBody(frame.lines);
    FieldsOf(frame.lines);
    NameIsNotEmpty(frame.lines);
  }

  lemma {:induction false} NameIsNotEmpty(lines: seq<FrameLine>)
    requires forall line | line in lines :: FieldOk(line.field)
    ensures NameOf(lines) != Some("")
  {
    if lines != [] {
      assert lines[0] in lines;
      NameIsNotEmpty(lines[1..]);
    }
  }

  lemma SkipEnd(crlf: bool, u: string)
    requires u != "" && u[0] != '\r' && u[0] != '\n'
    ensures FindSeparator(End(crlf) + u) == |End(crlf)| + FindSeparator(u)
  {
    var t := End(crlf) + u;
    if crlf {
      assert t[1..] == "\n" + u;
      SkipLineEnd(u);
    } else {
      SkipLineEnd(u);
    }
  }

  lemma TwoEnds(a: bool, b: bool, rest: string)
    ensures var t := End(a) + (End(b) + rest);
      && t != "" && FindSeparator(t) == 0 && SeparatorLength(t) == |End(a)| + |End(b)| > 0
      && t[SeparatorLength(t)..] == rest
  {
    hide FindSeparator, SeparatorLength;
    var t := End(a) + (End(b) + rest);
    if a {
      assert t == (if b then "\r\n\r\n" else "\r\n\n") + rest;
    } else {
      assert t == (if b then "\n\r\n" else "\n\n") + rest;
    }
    SeparatorAtOnce(if a then if b then "\r\n\r\n" else "\r\n\n" else if b then "\n\r\n" else "\n\n", rest);
  }

  lemma SeparatorAtOnce(s: string, rest: string)
    requires s in {"\n\n", "\r\n\n", "\n\r\n", "\r\n\r\n"}
    ensures FindSeparator(s + rest) == 0 && SeparatorLength(s + rest) == |s|
    ensures (s + rest)[|s|..] == rest
  {
    hide FindSeparator, SeparatorLength;
    var t := s + rest;
    assert t[..|s|] == s && t[|s|..] == rest;
    SeparatorIs(t, |s|);
    SeparatorIsFirst(t);
  }

  lemma SeparatorIs(t: string, n: nat)
    requires n <= |t| && t[..n] in {"\n\n", "\r\n\n", "\n\r\n", "\r\n\r\n"}
    ensures SeparatorLength(t) == n
  {
    assert forall i :: 0 <= i < n ==> t[i] == t[..n][i];
  }

  lemma SeparatorIsFirst(t: string)
    requires SeparatorLength(t) > 0
    ensures FindSeparator(t) == 0
  {
    hide SeparatorLength;
  }

  lemma {:induction false} SeparatorAfterLines(lines: seq<FrameLine>, a: bool, b: bool, rest: string)
    requires lines != [] && forall line | line in lines :: FieldOk(line.field)
    ensures FindSeparator(BodyOf(lines) + (End(a) + (End(b) + rest))) == |BodyOf(lines)|
    ensures BodyOf(lines) != "" && BodyOf(lines)[0] != '\r' && BodyOf(lines)[0] != '\n'
  {
    hide FindSeparator, SeparatorLength, End;
    assert lines[0] in lines;
    var text, close := LineText(lines[0].field), End(a) + (End(b) + rest);
    assert text[0] in text;
    if |lines| == 1 {
      TwoEnds(a, b, rest);
      SkipText(text, close);
    } else {
      var more := BodyOf(lines[1..]);
      SeparatorAfterLines(lines[1..], a, b, rest);
      Regrouped(text, End(lines[0].crlf), more, close);
      SkipText(text, End(lines[0].crlf) + (more + close));
      SkipEnd(lines[0].crlf, more + close);
    }
  }

  lemma FirstPrinted(frames: seq<Frame>)
    requires frames != [] && forall frame | frame in frames :: FrameOk(frame)
    ensures frames[0] in frames && FrameOk(frames[0]) && forall frame | frame in frames[1..] :: FrameOk(frame)
    ensures var lines := frames[0].lines;
      Print(frames)
      == BodyOf(lines) + (End(lines[|lines| - 1].crlf) + (End(frames[0].crlf) + Print(frames[1..])))
  {
    hide BodyOf, End, FieldOk;
    assert frames[0] in frames;
  }

  lemma {:induction false} FirstFrame(frames: seq<Frame>)
    requires frames != [] && forall frame | frame in frames :: FrameOk(frame)
    ensures frames[0] in frames && forall frame | frame in frames[1..] :: FrameOk(frame)
    ensures Complete(Print(frames)) == [BodyOf(frames[0].lines)] + Complete(Print(frames[1..]))
    ensures Leftover(Print(frames)) == Leftover(Print(frames[1..]))
  {
    hide FindSeparator, SeparatorLength, End, Records, Complete, Leftover, BodyOf, Print, FieldOk;
    assert frames[0] in frames && FrameOk(frames[0]);
    var lines, rest := frames[0].lines, Print(frames[1..]);
    var a, b := lines[|lines| - 1].crlf, frames[0].crlf;
    var body, close := BodyOf(lines), End(a) + (End(b) + rest);
    SeparatorAfterLines(lines, a, b, rest);
    TwoEnds(a, b, rest);
    FirstPrinted(frames);
    CutOnce(body, close, rest);
  }

  lemma {:induction false} CutOnce(body: string, close: string, rest: string)
    requires FindSeparator(body + close) == |body| && SeparatorLength(close) > 0
    requires close[SeparatorLength(close)..] == rest
    ensures Complete(body + close) == [body] + Complete(rest) && Leftover(body + close) == Leftover(rest)
  {
    hide FindSeparator, SeparatorLength, Records, Complete, Leftover;
    var s := body + close;
    assert s[|body|..] == close && s[..|body|] == body;
    assert s[|body| + SeparatorLength(close)..] == close[SeparatorLength(close)..];
    FirstRecord(s);
  }

  /** Whatever records are written, they are read back as the messages they stand for, and nothing is left over. */
  lemma {:induction false} FramesAreRead(frames: seq<Frame>)
    requires forall frame | frame in frames :: FrameOk(frame)
    ensures Messages(Print(frames)) == MessagesOf(frames) && Leftover(Print(frames)) == ""
  {
    hide Complete, Leftover, BodyOf, Deframe, MessageOf, FrameOk;
    if frames == [] {
      NothingYet();
    } else {
      FirstFrame(frames);
      FramesAreRead(frames[1..]);
      BodyIsRead(frames[0]);
    }
  }

  /** The values of a message are not confused: joined data is split again where it was joined. */
  lemma {:induction false} JoinedDataSplits(values: seq<string>)
    requires values != [] && forall value | value in values :: NoLineEnd(value)
    ensures Lines(JoinLines(values)) == values
  {
    assert values[0] in values;
    if |values| == 1 {
      LinesOfText(values[0], "");
    } else {
      LinesOfText(values[0], JoinLines(values[1..]));
      assert JoinLines(values) == values[0] + ("\n" + JoinLines(values[1..]));
      JoinedDataSplits(values[1..]);
    }
  }
}
