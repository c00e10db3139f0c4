/** Printed events come back (unigateway-protocol/src/responses/anthropic_stream.rs:654-666 printing,
    unigateway-core/src/protocol/mod.rs:146-215 reading), under any split into packets. */
module SsePrinting {
  import opened Common
  import opened Strings
  import opened Utf8
  import opened Sse

  /** Bytes a delimiter cannot begin in: no line feed, and no carriage return at the end. */
  ghost predicate Quiet(b: seq<byte>) {
    LF !in b && (b != [] ==> b[|b| - 1] != CR)
  }

  /** Text that stays on its line. */
  predicate OneLine(s: string) {
    '\n' !in s && (s != "" ==> s[|s| - 1] != '\r')
  }

  lemma {:induction false} OneLineIsQuiet(s: string)
    requires OneLine(s)
    ensures Quiet(Encode(s)) && (s != "" ==> Encode(s) != [] && Encode(s)[0] == EncodeChar(s[0])[0])
  {
    if s != "" {
      var first, rest := EncodeChar(s[0]), s[1..];
      assert forall c <- rest :: c in s;
      assert s[0] in s;
      OneLineIsQuiet(rest);
      var whole := first + Encode(rest);
      assert LF !in first;
      assert LF !in whole;
      if rest == "" {
        assert Encode(rest) == [] && whole == first;
      }
    }
  }

  // ----- delimiters in printed text -----

  function Shift(n: nat, found: Option<(nat, nat)>): Option<(nat, nat)> {
    match found
    case None => None
    case Some((at, length)) => Some((n + at, length))
  }

  /** Bytes in front, none of which begins a delimiter, only shift what is found. */
  lemma FindBehind(front: seq<byte>, rest: seq<byte>)
    requires forall i: nat :: i < |front| ==> !DelimiterAt(front + rest, i)
    ensures Find(front + rest) == Shift(|front|, Find(rest))
  {
    var b, n := front + rest, |front|;
    assert forall i: nat :: DelimiterAt(b, n + i) <==> DelimiterAt(rest, i);
    var expected := Shift(n, Find(rest));
    match Find(rest) {
      case None =>
        forall i: nat ensures !DelimiterAt(b, i) {
          if i >= n { assert DelimiterAt(b, n + (i - n)) <==> DelimiterAt(rest, i - n); }
        }
      case Some((at, length)) =>
        assert TwoFeeds(b, n + at) <==> TwoFeeds(rest, at);
        forall i: nat | i < n + at ensures !DelimiterAt(b, i) {
          if i >= n { assert DelimiterAt(b, n + (i - n)) <==> DelimiterAt(rest, i - n); }
        }
        assert DelimiterAt(b, n + at);
    }
    assert IsFirstDelimiter(b, expected);
    FirstDelimiterUnique(b, expected, Find(b));
  }

  lemma FindBehindQuiet(front: seq<byte>, rest: seq<byte>)
    requires Quiet(front)
    ensures Find(front + rest) == Shift(|front|, Find(rest))
  {
    forall i: nat | i < |front| ensures !DelimiterAt(front + rest, i) {
      assert (front + rest)[i] == front[i] && front[i] in front;
      if i + 1 < |front| {
        assert (front + rest)[i + 1] == front[i + 1] && front[i + 1] in front;
      }
    }
    FindBehind(front, rest);
  }

  /** A line end as the wire format allows: a line feed, or a carriage return before it. */
  function LineEnd(crlf: bool): string { Return(crlf) + "\n" }

  function Return(crlf: bool): string { if crlf then "\r" else "" }

  function LineEndBytes(crlf: bool): seq<byte> { if crlf then [CR, LF] else [LF] }

  lemma EncodeLineEnd(crlf: bool)
    ensures Encode(LineEnd(crlf)) == LineEndBytes(crlf)
  {
    var s := LineEnd(crlf);
    assert Encode("\n") == EncodeChar('\n') + Encode("\n"[1..]) == [LF];
    if crlf {
      assert s[1..] == "\n" && Encode(s) == EncodeChar('\r') + Encode(s[1..]);
    } else {
      assert s == "\n";
    }
  }

  lemma FindBehindLineEnd(crlf: bool, rest: seq<byte>)
    requires rest != [] && rest[0] !in {CR, LF}
    ensures Find(LineEndBytes(crlf) + rest) == Shift(|LineEndBytes(crlf)|, Find(rest))
  {
    FindBehind(LineEndBytes(crlf), rest);
  }

  lemma FindAtOnce(crlf: bool, rest: seq<byte>)
    ensures var d := LineEndBytes(crlf) + LineEndBytes(crlf);
            IsDelimiter(d) && Find(d + rest) == Some((0, |d|))
  {
    var d := LineEndBytes(crlf) + LineEndBytes(crlf);
    assert DelimiterAt(d + rest, 0);
    FirstDelimiterUnique(d + rest, Some((0, |d|)), Find(d + rest));
  }

  // ----- messages -----

  /** A comment, a name or data behind blanks, or any other line, such as an id. */
  datatype Field = Comment(text: string) | Name(blanks: string, value: string) | Data(blanks: string, value: string)
                 | Other(text: string)

  function Line(f: Field): string {
    match f
    case Comment(text) => ":" + text
    case Name(blanks, value) => "event:" + (blanks + value)
    case Data(blanks, value) => "data:" + (blanks + value)
    case Other(text) => text
  }

  /** A value that reading gives back: it stays on its line and does not begin with a blank. */
  predicate Readable(f: Field) {
    match f
    case Comment(text) => OneLine(text)
    case Name(blanks, value) => OneLine(blanks + value) && Behind(blanks, value)
    case Data(blanks, value) => OneLine(blanks + value) && Behind(blanks, value)
    case Other(text) =>
      && OneLine(text) && text != "" && text[0] !in {':', '\r'}
      && !("event:" <= text) && !("data:" <= text)
  }

  predicate Behind(blanks: string, value: string) {
    (forall c <- blanks :: IsWhitespace(c)) && (value != "" ==> !IsWhitespace(value[0]))
  }

  /** A message: its lines, and which line end it uses throughout. */
  datatype Message = Message(fields: seq<Field>, crlf: bool)

  predicate Printable(m: Message) {
    m.fields != [] && forall f <- m.fields :: Readable(f)
  }

  function Body(fields: seq<Field>, crlf: bool): string {
    if fields == [] then ""
    else if |fields| == 1 then Line(fields[0]) else Line(fields[0]) + (LineEnd(crlf) + Body(fields[1..], crlf))
  }

  /** The message on the wire: its lines, and an empty line. */
  function Printed(m: Message): seq<byte> {
    Encode(Body(m.fields, m.crlf) + (LineEnd(m.crlf) + LineEnd(m.crlf)))
  }

  function AsPiece(m: Message): Piece {
    Piece(Encode(Body(m.fields, m.crlf)), LineEndBytes(m.crlf) + LineEndBytes(m.crlf))
  }

  lemma PrintedIsGlued(m: Message)
    ensures Printed(m) == Glued(AsPiece(m))
  {
    EncodeConcat(Body(m.fields, m.crlf), LineEnd(m.crlf) + LineEnd(m.crlf));
    EncodeConcat(LineEnd(m.crlf), LineEnd(m.crlf));
    EncodeLineEnd(m.crlf);
  }

  lemma LineIsOneLine(f: Field)
    requires Readable(f)
    ensures OneLine(Line(f)) && Line(f) != "" && EncodeChar(Line(f)[0])[0] !in {CR, LF}
  {
    var v := if f.Comment? || f.Other? then f.text else f.blanks + f.value;
    assert Line(f)[|Line(f)| - |v|..] == v;
  }

  lemma {:induction false} BodyFindsEnd(fields: seq<Field>, crlf: bool, end: seq<byte>)
    requires fields != [] && forall f <- fields :: Readable(f)
    requires Find(end) == Some((0, |end|))
    ensures var body := Encode(Body(fields, crlf));
            && body != [] && body[0] !in {CR, LF}
            && Find(body + end) == Some((|body|, |end|))
  {
    LineIsOneLine(fields[0]);
    OneLineIsQuiet(Line(fields[0]));
    if |fields| == 1 {
      FindBehindQuiet(Encode(Line(fields[0])), end);
    } else {
      BodyFindsEnd(fields[1..], crlf, end);
      BodyUnfolds(fields, crlf);
      MoreLines(Encode(Line(fields[0])), crlf, Encode(Body(fields[1..], crlf)), end);
    }
  }

  lemma MoreLines(line: seq<byte>, crlf: bool, rest: seq<byte>, end: seq<byte>)
    requires Quiet(line) && line != [] && line[0] !in {CR, LF} && rest != [] && rest[0] !in {CR, LF}
    requires Find(rest + end) == Some((|rest|, |end|))
    ensures var body := line + (LineEndBytes(crlf) + rest);
            body[0] !in {CR, LF} && Find(body + end) == Some((|body|, |end|))
  {
    var eol := LineEndBytes(crlf);
    FindBehindLineEnd(crlf, rest + end);
    FindBehindQuiet(line, eol + (rest + end));
    Assoc(eol, rest, end);
    Assoc(line, eol + rest, end);
  }

  lemma PrintedIsProper(m: Message)
    requires Printable(m)
    ensures Proper(AsPiece(m))
  {
    var d := LineEndBytes(m.crlf) + LineEndBytes(m.crlf);
    FindAtOnce(m.crlf, []);
    assert d + [] == d;
    BodyFindsEnd(m.fields, m.crlf, d);
  }

  // ----- reading a printed frame -----

  /** Name and data lines as the fields say. */
  function Meant(fields: seq<Field>): (Option<string>, seq<string>) {
    if fields == [] then (None, [])
    else
      var seen := Meant(fields[..|fields| - 1]);
      match fields[|fields| - 1]
      case Name(_, value) => (Some(value), seen.1)
      case Data(_, value) => (seen.0, seen.1 + [value])
      case _ => seen
  }

  /** What a reader should get: nothing without data. */
  function Expected(m: Message): Option<Event> {
    var (name, data) := Meant(m.fields);
    if data == [] then None else Some(Event(name, Join(data)))
  }

  lemma {:induction false} TrimmedValue(blanks: string, value: string)
    requires Behind(blanks, value)
    ensures TrimStart(blanks + value) == value
  {
    if blanks == "" {
      assert blanks + value == value;
    } else {
      assert (blanks + value)[1..] == blanks[1..] + value && blanks[0] in blanks;
      TrimmedValue(blanks[1..], value);
    }
  }

  lemma ScanField(seen: (Option<string>, seq<string>), f: Field)
    requires Readable(f)
    ensures ScanLine(seen, Line(f)) == match f
                                       case Name(_, value) => (Some(value), seen.1)
                                       case Data(_, value) => (seen.0, seen.1 + [value])
                                       case _ => seen
  {
    var line := Line(f);
    match f {
      case Name(blanks, value) =>
        TrimmedValue(blanks, value);
        assert line[6..] == blanks + value && HasPrefix(line, "event:");
      case Data(blanks, value) =>
        TrimmedValue(blanks, value);
        assert line[5..] == blanks + value && HasPrefix(line, "data:");
        assert line[0] == 'd';
      case _ =>
    }
  }

  /** The lines as they are cut out, possibly with the carriage return of their line end. */
  ghost predicate LinesOf(lines: seq<string>, fields: seq<Field>) {
    && |lines| == |fields|
    && forall k: nat :: k < |lines| ==> TrimReturns(lines[k]) == Line(fields[k])
  }

  lemma FrontLinesOf(lines: seq<string>, fields: seq<Field>)
    requires lines != [] && LinesOf(lines, fields) && forall f <- fields :: Readable(f)
    ensures var n := |lines| - 1;
            && LinesOf(lines[..n], fields[..n]) && (forall f <- fields[..n] :: Readable(f))
            && Readable(fields[n]) && TrimReturns(lines[n]) == Line(fields[n])
  {
    var n := |lines| - 1;
    assert forall f <- fields[..n] :: f in fields;
    assert fields[n] in fields;
  }

  lemma {:induction false} ScanLines(lines: seq<string>, fields: seq<Field>)
    requires LinesOf(lines, fields) && forall f <- fields :: Readable(f)
    ensures Scan(lines) == Meant(fields)
  {
    if lines != [] {
      var n := |lines| - 1;
      FrontLinesOf(lines, fields);
      ScanLines(lines[..n], fields[..n]);
      ScanField(Scan(lines[..n]), fields[n]);
    }
  }

  lemma TrimmedReturn(line: string, crlf: bool)
    requires OneLine(line)
    ensures TrimReturns(line + Return(crlf)) == line && '\n' !in line + Return(crlf)
  {
    assert (line + Return(crlf))[..|line|] == line;
  }

  lemma BodyUnfolds(fields: seq<Field>, crlf: bool)
    requires |fields| > 1
    ensures Body(fields, crlf) == (Line(fields[0]) + Return(crlf)) + "\n" + Body(fields[1..], crlf)
    ensures Encode(Body(fields, crlf)) ==
            Encode(Line(fields[0])) + (LineEndBytes(crlf) + Encode(Body(fields[1..], crlf)))
  {
    var line, rest := Line(fields[0]), Body(fields[1..], crlf);
    Assoc(Return(crlf), "\n", rest);
    Assoc(line, Return(crlf), "\n" + rest);
    Assoc(line + Return(crlf), "\n", rest);
    EncodeConcat(line, LineEnd(crlf) + rest);
    EncodeConcat(LineEnd(crlf), rest);
    EncodeLineEnd(crlf);
  }

  lemma MoreLinesOf(first: string, lines: seq<string>, fields: seq<Field>)
    requires fields != [] && LinesOf(lines, fields[1..]) && TrimReturns(first) == Line(fields[0])
    ensures LinesOf([first] + lines, fields)
  {}

  lemma {:induction false} BodyLines(fields: seq<Field>, crlf: bool)
    requires fields != [] && forall f <- fields :: Readable(f)
    ensures LinesOf(Lines(Body(fields, crlf)), fields)
  {
    var line := Line(fields[0]);
    LineIsOneLine(fields[0]);
    if |fields| == 1 {
      assert line[..|line|] == line;
      IndexOfAt(line, '\n', |line|);
    } else {
      BodyLines(fields[1..], crlf);
      TrimmedReturn(line, crlf);
      LinesOfLine(line + Return(crlf), Body(fields[1..], crlf));
      BodyUnfolds(fields, crlf);
      MoreLinesOf(line + Return(crlf), Lines(Body(fields[1..], crlf)), fields);
    }
  }

  lemma PrintedIsParsed(m: Message)
    requires Printable(m)
    ensures Parsed(Body(m.fields, m.crlf)) == Expected(m)
  {
    BodyLines(m.fields, m.crlf);
    ScanLines(Lines(Body(m.fields, m.crlf)), m.fields);
  }

  // ----- a printed stream -----

  function PrintedAll(messages: seq<Message>): seq<byte> {
    if messages == [] then [] else PrintedAll(messages[..|messages| - 1]) + Printed(messages[|messages| - 1])
  }

  function ExpectedAll(messages: seq<Message>): seq<Event> {
    if messages == [] then []
    else ExpectedAll(messages[..|messages| - 1]) + Listed(Expected(messages[|messages| - 1]))
  }

  /** UTF-8 decoding that is right on what was encoded. */
  ghost predicate Decodes(decode: seq<byte> -> string) {
    forall s :: decode(Encode(s)) == s
  }

  lemma {:induction false} PrintedIsCut(decode: seq<byte> -> string, messages: seq<Message>)
    requires Decodes(decode) && forall m <- messages :: Printable(m)
    ensures var (pieces, left) := Cut(PrintedAll(messages));
            left == [] && Events(decode, pieces) == ExpectedAll(messages)
  {
    if messages != [] {
      var front, m := messages[..|messages| - 1], messages[|messages| - 1];
      PrintedIsCut(decode, front);
      var p, pieces := AsPiece(m), Cut(PrintedAll(front)).0;
      PrintedIsGlued(m);
      PrintedIsProper(m);
      CutTwice(PrintedAll(front), Printed(m));
      CutFirst(p, []);
      assert Glued(p) + [] == Glued(p) && [] + Printed(m) == Printed(m) && [p] + [] == [p];
      EventsMore(decode, pieces, p);
      PrintedIsParsed(m);
    }
  }

  /** Printed messages come back, in order and nothing else, however the bytes are split. */
  lemma {:induction false} PrintedComesBack(decode: seq<byte> -> string, messages: seq<Message>,
                                            packets: seq<seq<byte>>)
    requires Decodes(decode) && forall m <- messages :: Printable(m)
    requires Flatten(packets) == PrintedAll(messages)
    ensures Events(decode, Feed(packets).0) == ExpectedAll(messages) && Feed(packets).1 == []
    ensures Whole(decode, Flatten(packets)) == ExpectedAll(messages)
  {
    PacketsDoNotMatter(packets);
    PrintedIsCut(decode, messages);
  }

  // ----- the translator's own events -----

  /** An event as the translator prints it. */
  function SseJson(eventType: string, json: string): Message {
    Message([Name(" ", eventType), Data(" ", json)], false)
  }

  function SseJsons(events: seq<(string, string)>): seq<Message> {
    if events == [] then []
    else SseJsons(events[..|events| - 1]) + [SseJson(events[|events| - 1].0, events[|events| - 1].1)]
  }

  function Received(events: seq<(string, string)>): seq<Event> {
    if events == [] then []
    else Received(events[..|events| - 1]) + [Event(Some(events[|events| - 1].0), events[|events| - 1].1)]
  }

  lemma JsonsMeant(e: (string, string))
    ensures Expected(SseJson(e.0, e.1)) == Some(Event(Some(e.0), e.1))
  {
    var fields := [Name(" ", e.0), Data(" ", e.1)];
    assert fields[..1] == [Name(" ", e.0)] && fields[..1][..0] == [];
    assert Meant(fields[..1]) == (Some(e.0), []);
    assert Meant(fields) == (Some(e.0), [] + [e.1]);
  }

  lemma {:induction false} JsonsReceived(events: seq<(string, string)>)
    ensures ExpectedAll(SseJsons(events)) == Received(events)
  {
    if events != [] {
      var front, e := events[..|events| - 1], events[|events| - 1];
      JsonsReceived(front);
      JsonsMeant(e);
      var all := SseJsons(events);
      assert all[..|all| - 1] == SseJsons(front);
    }
  }

  predicate Sendable(e: (string, string)) { Readable(Name(" ", e.0)) && Readable(Data(" ", e.1)) }

  lemma {:induction false} JsonsPrintable(events: seq<(string, string)>)
    requires forall e <- events :: Sendable(e)
    ensures forall m <- SseJsons(events) :: Printable(m)
  {
    if events != [] {
      var front, e := events[..|events| - 1], events[|events| - 1];
      JsonsPrintable(front);
      assert Sendable(e) && Printable(SseJson(e.0, e.1));
    }
  }

  /** Every event the translator prints reaches a reader exactly and in order, whatever the
      packets, as long as type and JSON text stay on one line and begin with no blank. */
  lemma EmittedEventsComeBack(decode: seq<byte> -> string, events: seq<(string, string)>, packets: seq<seq<byte>>)
    requires Decodes(decode) && forall e <- events :: Sendable(e)
    requires Flatten(packets) == PrintedAll(SseJsons(events))
    ensures Events(decode, Feed(packets).0) == Received(events) && Feed(packets).1 == []
  {
    JsonsPrintable(events);
    JsonsReceived(events);
    PrintedComesBack(decode, SseJsons(events), packets);
  }
}
