/** Server-sent events: cutting a byte stream into frames, and reading one frame
    (unigateway-core/src/protocol/mod.rs). The format is section 9.2.5 and 9.2.6 of the WHATWG
    HTML Living Standard, of which the code reads a subset. */
module Sse {
  import opened Common
  import opened Strings
  import opened Utf8

  const LF: byte := 10
  const CR: byte := 13

  // ----- where the first frame ends -----

  predicate TwoFeeds(b: seq<byte>, i: nat) {
    i + 1 < |b| && b[i] == LF && b[i + 1] == LF
  }

  predicate TwoReturns(b: seq<byte>, i: nat) {
    i + 3 < |b| && b[i] == CR && b[i + 1] == LF && b[i + 2] == CR && b[i + 3] == LF
  }

  predicate DelimiterAt(b: seq<byte>, i: nat) { TwoFeeds(b, i) || TwoReturns(b, i) }

  /** `found` is the first delimiter's place and length, if there is a delimiter. */
  ghost predicate IsFirstDelimiter(b: seq<byte>, found: Option<(nat, nat)>) {
    match found
    case None => forall i: nat :: !DelimiterAt(b, i)
    case Some((at, length)) =>
      && DelimiterAt(b, at)
      && length == (if TwoFeeds(b, at) then 2 else 4)
      && at + length <= |b|
      && forall i: nat :: i < at ==> !DelimiterAt(b, i)
  }

  /** The first delimiter at or after `from`. */
  function FindFrom(b: seq<byte>, from: nat): (found: Option<(nat, nat)>)
    requires from <= |b|
    requires forall i: nat :: i < from ==> !DelimiterAt(b, i)
    ensures IsFirstDelimiter(b, found)
    decreases |b| - from
  {
    if from == |b| then None
    else if TwoFeeds(b, from) then Some((from, 2))
    else if TwoReturns(b, from) then Some((from, 4))
    else FindFrom(b, from + 1)
  }

  function Find(b: seq<byte>): (found: Option<(nat, nat)>)
    ensures IsFirstDelimiter(b, found)
  {
    FindFrom(b, 0)
  }

  method FindSseDelimiter(b: seq<byte>) returns (found: Option<(nat, nat)>)
    ensures IsFirstDelimiter(b, found)
    ensures found == Find(b)
  {
    if |b| < 2 {
      FirstDelimiterUnique(b, None, Find(b));
      return None;
    }
    for index := 0 to |b| - 1
      invariant forall i: nat :: i < index ==> !DelimiterAt(b, i)
    {
      if b[index] == LF && b[index + 1] == LF {
        found := Some((index, 2));
        FirstDelimiterUnique(b, found, Find(b));
        return;
      }
      if index + 3 < |b| && b[index] == CR && b[index + 1] == LF && b[index + 2] == CR && b[index + 3] == LF {
        found := Some((index, 4));
        FirstDelimiterUnique(b, found, Find(b));
        return;
      }
    }
    found := None;
    FirstDelimiterUnique(b, None, Find(b));
  }

  lemma FirstDelimiterUnique(b: seq<byte>, x: Option<(nat, nat)>, y: Option<(nat, nat)>)
    requires IsFirstDelimiter(b, x) && IsFirstDelimiter(b, y)
    ensures x == y
  {
    if x.Some? && y.Some? {
      assert x.value.0 == y.value.0;
    }
  }

  /** A delimiter found in a buffer stays the first one whatever bytes arrive later. (A longer
      delimiter may straddle the buffer's end, but only behind the one found.) */
  lemma FoundStaysFound(b: seq<byte>, more: seq<byte>)
    requires Find(b).Some?
    ensures Find(b + more) == Find(b)
  {
    var (at, length) := Find(b).value;
    forall i: nat | i < at ensures !DelimiterAt(b + more, i) {
      assert !DelimiterAt(b, i);
    }
    assert DelimiterAt(b + more, at);
    FirstDelimiterUnique(b + more, Find(b), Find(b + more));
  }

  // ----- cutting a buffer into frames -----

  datatype Piece = Piece(frame: seq<byte>, delimiter: seq<byte>)

  function Glued(p: Piece): seq<byte> { p.frame + p.delimiter }

  /** The finished frames of a buffer, and what is left. */
  function Cut(b: seq<byte>): (seq<Piece>, seq<byte>)
    decreases |b|
  {
    match Find(b)
    case None => ([], b)
    case Some((at, length)) =>
      var (pieces, left) := Cut(b[at + length..]);
      ([Piece(b[..at], b[at..at + length])] + pieces, left)
  }

  function GluedAll(pieces: seq<Piece>): seq<byte> {
    if pieces == [] then [] else Glued(pieces[0]) + GluedAll(pieces[1..])
  }

  predicate IsDelimiter(d: seq<byte>) { d == [LF, LF] || d == [CR, LF, CR, LF] }

  /** A piece as the wire format wants it: the delimiter is the first one in it. */
  ghost predicate Proper(p: Piece) {
    && IsDelimiter(p.delimiter)
    && Find(Glued(p)) == Some((|p.frame|, |p.delimiter|))
  }

  lemma CutFirst(p: Piece, rest: seq<byte>)
    requires Proper(p)
    ensures Cut(Glued(p) + rest) == ([p] + Cut(rest).0, Cut(rest).1)
  {
    var whole := Glued(p) + rest;
    FoundStaysFound(Glued(p), rest);
    assert whole[|p.frame| + |p.delimiter|..] == rest;
    assert whole[..|p.frame|] == p.frame;
    assert whole[|p.frame|..|p.frame| + |p.delimiter|] == p.delimiter;
  }

  lemma FirstIsProper(b: seq<byte>)
    requires Find(b).Some?
    ensures var (at, length) := Find(b).value;
            var p := Piece(b[..at], b[at..at + length]);
            Proper(p) && b == Glued(p) + b[at + length..]
  {
    var (at, length) := Find(b).value;
    var p := Piece(b[..at], b[at..at + length]);
    var g := Glued(p);
    assert g == b[..at + length];
    forall i: nat | i < at ensures !DelimiterAt(g, i) {
      assert !DelimiterAt(b, i);
    }
    assert DelimiterAt(g, at);
    FirstDelimiterUnique(g, Some((at, length)), Find(g));
  }

  /** Nothing is lost: frames, delimiters and leftover are the input again; every frame ends at
      the first delimiter, and none is left. */
  lemma {:induction false} CutConserves(b: seq<byte>)
    ensures var (pieces, left) := Cut(b);
            && b == GluedAll(pieces) + left
            && Find(left) == None
            && forall p <- pieces :: Proper(p) && Find(p.frame) == None
    decreases |b|
  {
    if Find(b).Some? {
      var (at, length) := Find(b).value;
      var p, rest := Piece(b[..at], b[at..at + length]), b[at + length..];
      FirstIsProper(b);
      CutConserves(rest);
      ProperFrame(p);
      var (pieces, left) := Cut(rest);
      assert ([p] + pieces)[1..] == pieces;
      Assoc(Glued(p), GluedAll(pieces), left);
    } else {
      assert GluedAll([]) + b == b;
    }
  }

  lemma ProperFrame(p: Piece)
    requires Proper(p)
    ensures Find(p.frame) == None
  {
    if Find(p.frame).Some? {
      FoundStaysFound(p.frame, p.delimiter);
    }
  }

  /** ... and there is only one way to cut like that. */
  lemma {:induction false} CutIsTheOnlyCut(pieces: seq<Piece>, left: seq<byte>)
    requires (forall p <- pieces :: Proper(p)) && Find(left) == None
    ensures Cut(GluedAll(pieces) + left) == (pieces, left)
  {
    if pieces == [] {
      assert GluedAll(pieces) + left == left;
    } else {
      CutIsTheOnlyCut(pieces[1..], left);
      CutFirst(pieces[0], GluedAll(pieces[1..]) + left);
      Assoc(Glued(pieces[0]), GluedAll(pieces[1..]), left);
      assert [pieces[0]] + pieces[1..] == pieces;
    }
  }

  /** Cutting what arrived so far, then the leftover with what arrives next, is cutting it all. */
  lemma {:induction false} CutTwice(b: seq<byte>, more: seq<byte>)
    ensures var (pieces, left) := Cut(b);
            var (next, last) := Cut(left + more);
            Cut(b + more) == (pieces + next, last)
    decreases |b|
  {
    if Find(b).Some? {
      var (at, length) := Find(b).value;
      var p, rest := Piece(b[..at], b[at..at + length]), b[at + length..];
      FirstIsProper(b);
      CutTwice(rest, more);
      CutFirst(p, rest + more);
      Assoc(Glued(p), rest, more);
      Assoc([p], Cut(rest).0, Cut(Cut(rest).1 + more).0);
      assert b + more == Glued(p) + (rest + more);
    } else {
      var next := Cut(b + more).0;
      assert [] + next == next;
    }
  }

  /** Packets drained one after the other: all frames so far and the buffer. */
  function Feed(packets: seq<seq<byte>>): (seq<Piece>, seq<byte>) {
    if packets == [] then ([], [])
    else
      var (pieces, buffer) := Feed(packets[..|packets| - 1]);
      var (more, left) := Cut(buffer + packets[|packets| - 1]);
      (pieces + more, left)
  }

  /** However the network splits the bytes, draining packet by packet finds the frames and the
      leftover of one drain of the whole. */
  lemma {:induction false} PacketsDoNotMatter(packets: seq<seq<byte>>)
    ensures Feed(packets) == Cut(Flatten(packets))
  {
    if packets != [] {
      var front, last := packets[..|packets| - 1], packets[|packets| - 1];
      PacketsDoNotMatter(front);
      FlattenAppend(front, last);
      assert packets == front + [last];
      CutTwice(Flatten(front), last);
    }
  }

  // ----- reading one frame -----

  datatype Event = Event(name: Option<string>, data: string)

  function TrimReturns(s: string): string {
    if s != "" && s[|s| - 1] == '\r' then TrimReturns(s[..|s| - 1]) else s
  }

  function Returns(n: nat): string { if n == 0 then "" else Returns(n - 1) + "\r" }

  /** All carriage returns at the end of a line go, and nothing else. */
  lemma {:induction false} ReturnsTrimmed(line: string, n: nat)
    requires line != "" ==> line[|line| - 1] != '\r'
    ensures TrimReturns(line + Returns(n)) == line
  {
    if n == 0 {
      assert line + "" == line;
    } else {
      var s := line + Returns(n);
      assert s[|s| - 1] == '\r' && s[..|s| - 1] == line + Returns(n - 1);
      ReturnsTrimmed(line, n - 1);
    }
  }

  /** The lines of a text; a final line break ends the last line and begins none. */
  function Lines(s: string): seq<string> {
    if s == "" then []
    else
      var n := IndexOf(s, '\n');
      if n == |s| then [s] else [s[..n]] + Lines(s[n + 1..])
  }

  lemma LinesOfLine(first: string, rest: string)
    requires '\n' !in first
    ensures Lines(first + "\n" + rest) == [first] + Lines(rest)
  {
    var s := first + "\n" + rest;
    assert s[..|first|] == first && s[|first| + 1..] == rest;
    IndexOfAt(s, '\n', |first|);
  }

  lemma {:induction false} JoinedFirst(parts: seq<string>)
    requires |parts| > 1
    ensures Join(parts) == parts[0] + "\n" + Join(parts[1..])
    decreases |parts|
  {
    var n := |parts| - 1;
    var front, rest := parts[..n], parts[1..];
    if n > 1 {
      JoinedFirst(front);
      assert rest[..n - 1] == front[1..] && rest[n - 1] == parts[n];
      Glue(parts[0], Join(front[1..]), parts[n]);
    } else {
      assert Join(front) == parts[0] && Join(rest) == parts[1];
    }
  }

  lemma Glue(a: string, b: string, c: string)
    ensures (a + "\n" + b) + "\n" + c == a + "\n" + (b + "\n" + c)
  {}

  lemma SingleLine(line: string)
    requires '\n' !in line && line != ""
    ensures Lines(line) == [line]
  {
    assert line[..|line|] == line;
    IndexOfAt(line, '\n', |line|);
  }

  predicate Unbroken(line: string) { '\n' !in line }

  lemma OneMoreLine(first: string, rest: seq<string>)
    requires Unbroken(first) && rest != [] && Lines(Join(rest)) == rest
    ensures Lines(Join([first] + rest)) == [first] + rest
  {
    var parts := [first] + rest;
    assert parts[1..] == rest;
    JoinedFirst(parts);
    LinesOfLine(first, Join(rest));
  }

  /** Lines glued with line feeds come back, if the last one is not empty. */
  lemma {:induction false} JoinedLines(parts: seq<string>)
    requires parts != [] && (forall i :: 0 <= i < |parts| ==> Unbroken(parts[i])) && parts[|parts| - 1] != ""
    ensures Lines(Join(parts)) == parts
  {
    if |parts| == 1 {
      SingleLine(parts[0]);
    } else {
      JoinedLines(parts[1..]);
      OneMoreLine(parts[0], parts[1..]);
      assert parts == [parts[0]] + parts[1..];
    }
  }

  predicate HasPrefix(s: string, prefix: string) { prefix <= s }

  /** Event name and data lines after some lines. */
  function Scan(lines: seq<string>): (Option<string>, seq<string>) {
    if lines == [] then (None, [])
    else ScanLine(Scan(lines[..|lines| - 1]), TrimReturns(lines[|lines| - 1]))
  }

  function ScanLine(seen: (Option<string>, seq<string>), line: string): (Option<string>, seq<string>) {
    if line == "" || line[0] == ':' then seen
    else if HasPrefix(line, "event:") then (Some(TrimStart(line[6..])), seen.1)
    else if HasPrefix(line, "data:") then (seen.0, seen.1 + [TrimStart(line[5..])])
    else seen
  }

  function Parsed(frame: string): Option<Event> {
    var (name, data) := Scan(Lines(frame));
    if data == [] then None else Some(Event(name, Join(data)))
  }

  method ParseSseFrame(frame: string) returns (parsed: Option<Event>)
    ensures parsed == Parsed(frame)
  {
    var lines := Lines(frame);
    var name, data := None, [];
    for i := 0 to |lines|
      invariant (name, data) == Scan(lines[..i])
    {
      assert lines[..i + 1][..i] == lines[..i];
      var line := TrimReturns(lines[i]);
      if line == "" || line[0] == ':' { continue; }
      if HasPrefix(line, "event:") {
        name := Some(TrimStart(line[6..]));
        continue;
      }
      if HasPrefix(line, "data:") {
        data := data + [TrimStart(line[5..])];
      }
    }
    assert lines[..|lines|] == lines;
    parsed := if data == [] then None else Some(Event(name, Join(data)));
  }

  // ----- reading a stream -----

  /** The events of the frames, in order; frames without data carry none. `decode` stands for the
      lossy decoding of UTF-8. */
  function Events(decode: seq<byte> -> string, pieces: seq<Piece>): seq<Event> {
    if pieces == [] then []
    else Events(decode, pieces[..|pieces| - 1]) + EventOf(decode, pieces[|pieces| - 1])
  }

  function EventOf(decode: seq<byte> -> string, p: Piece): seq<Event> { Listed(Parsed(decode(p.frame))) }

  function Listed(e: Option<Event>): seq<Event> { if e.None? then [] else [e.value] }

  lemma {:induction false} EventsConcat(decode: seq<byte> -> string, a: seq<Piece>, b: seq<Piece>)
    ensures Events(decode, a + b) == Events(decode, a) + Events(decode, b)
  {
    if b == [] {
      assert a + b == a;
    } else {
      var front, last := b[..|b| - 1], b[|b| - 1];
      EventsConcat(decode, a, front);
      EventsMore(decode, a + front, last);
      EventsMore(decode, front, last);
      assert b == front + [last];
      Assoc(a, front, [last]);
      Assoc(Events(decode, a), Events(decode, front), EventOf(decode, last));
    }
  }

  lemma EventsMore(decode: seq<byte> -> string, a: seq<Piece>, p: Piece)
    ensures Events(decode, a + [p]) == Events(decode, a) + EventOf(decode, p)
  {
    assert (a + [p])[..|a|] == a;
  }

  /** All events of a byte stream that has come to its end. */
  function Whole(decode: seq<byte> -> string, bytes: seq<byte>): seq<Event> {
    var (pieces, left) := Cut(bytes);
    Events(decode, pieces) + if left == [] then [] else Listed(Parsed(decode(left)))
  }

  class SseReader {
    var buffer: seq<byte>

    constructor ()
      ensures buffer == []
    {
      buffer := [];
    }

    /** Take all finished frames out of the buffer. */
    method DrainSseFrames(decode: seq<byte> -> string) returns (frames: seq<Event>)
      modifies this
      ensures frames == Events(decode, Cut(old(buffer)).0)
      ensures buffer == Cut(old(buffer)).1
    {
      frames := [];
      ghost var done: seq<Piece> := [];
      assert [] + Cut(buffer).0 == Cut(buffer).0;
      var found := FindSseDelimiter(buffer);
      while found.Some?
        invariant found == Find(buffer)
        invariant frames == Events(decode, done)
        invariant Cut(old(buffer)) == (done + Cut(buffer).0, Cut(buffer).1)
        decreases |buffer|
      {
        var (index, length) := found.value;
        var frame := buffer[..index];
        ghost var piece, rest := Piece(frame, buffer[index..index + length]), Cut(buffer[index + length..]).0;
        buffer := buffer[index + length..];
        var parsed := ParseSseFrame(decode(frame));
        if parsed.Some? {
          frames := frames + [parsed.value];
        }
        assert (done + [piece])[..|done|] == done;
        Assoc(done, [piece], rest);
        done := done + [piece];
        found := FindSseDelimiter(buffer);
      }
      assert done + [] == done;
    }

    /** Read packets until the stream ends or an event says `[DONE]`; what is delivered are the
        events of all bytes up to there, whatever the packets. */
    method DriveChatStream(decode: seq<byte> -> string, packets: seq<seq<byte>>) returns (delivered: seq<Event>)
      requires buffer == []
      modifies this
      ensures delivered == BeforeDone(Whole(decode, Flatten(packets)))
    {
      delivered := [];
      for i := 0 to |packets|
        invariant buffer == Feed(packets[..i]).1
        invariant delivered == Events(decode, Feed(packets[..i]).0)
        invariant !AnyDone(delivered)
      {
        PacketFed(decode, packets, i);
        buffer := buffer + packets[i];
        var frames := DrainSseFrames(decode);
        ghost var all := delivered + frames;
        var done;
        delivered, done := Deliver(delivered, frames);
        if done {
          var rest := WholeStarts(decode, packets, i + 1);
          DoneCuts(all, rest);
          DoneCuts(all, []);
          assert all + [] == all;
          return;
        }
        NoneDone(all);
      }
      assert packets[..|packets|] == packets;
      PacketsDoNotMatter(packets);
      NoneDone(delivered);
      assert delivered + [] == delivered;
      if buffer != [] {
        var last := ParseSseFrame(decode(buffer));
        if last.Some? {
          var done;
          delivered, done := Deliver(delivered, [last.value]);
        }
      }
    }
  }

  /** Hand over events up to the first that says `[DONE]`. */
  method Deliver(before: seq<Event>, frames: seq<Event>) returns (delivered: seq<Event>, done: bool)
    requires !AnyDone(before)
    ensures delivered == BeforeDone(before + frames) && done == AnyDone(before + frames)
  {
    delivered := before;
    for i := 0 to |frames|
      invariant delivered == before + frames[..i] && !AnyDone(delivered)
    {
      if frames[i].data == "[DONE]" {
        assert before + frames == delivered + frames[i..];
        DoneCuts(delivered, frames[i..]);
        assert AnyDone(before + frames) by { assert (before + frames)[|delivered|].data == "[DONE]"; }
        return delivered, true;
      }
      delivered := delivered + [frames[i]];
    }
    done := false;
    assert before + frames == delivered;
    NoneDone(delivered);
  }

  predicate AnyDone(events: seq<Event>) { exists i :: 0 <= i < |events| && events[i].data == "[DONE]" }

  /** The events before the first that says `[DONE]`. */
  function BeforeDone(events: seq<Event>): seq<Event> {
    if events == [] || events[0].data == "[DONE]" then [] else [events[0]] + BeforeDone(events[1..])
  }

  /** What is delivered are the first events, none of which says `[DONE]`, and the next one says it, if there
      is one. */
  lemma {:induction false} DoneEnds(events: seq<Event>)
    ensures var delivered := BeforeDone(events);
            && delivered <= events && (forall e <- delivered :: e.data != "[DONE]")
            && (|delivered| < |events| ==> events[|delivered|].data == "[DONE]")
  {
    if events != [] && events[0].data != "[DONE]" {
      DoneEnds(events[1..]);
      assert events == [events[0]] + events[1..];
    }
  }

  lemma AnyDoneFirst(a: seq<Event>)
    requires a != []
    ensures AnyDone(a) == (a[0].data == "[DONE]" || AnyDone(a[1..]))
  {
    assert forall i :: 1 <= i < |a| ==> a[i] == a[1..][i - 1];
  }

  lemma {:induction false} DoneCuts(a: seq<Event>, rest: seq<Event>)
    ensures BeforeDone(a + rest) == if AnyDone(a) then BeforeDone(a) else a + BeforeDone(rest)
  {
    if a == [] {
      assert a + rest == rest;
    } else {
      DoneCuts(a[1..], rest);
      assert (a + rest)[1..] == a[1..] + rest;
      AnyDoneFirst(a);
      Assoc([a[0]], a[1..], BeforeDone(rest));
      assert a == [a[0]] + a[1..];
    }
  }

  lemma NoneDone(a: seq<Event>)
    requires !AnyDone(a)
    ensures BeforeDone(a) == a
  {
    DoneCuts(a, []);
    assert a + [] == a;
  }

  lemma PacketFed(decode: seq<byte> -> string, packets: seq<seq<byte>>, i: nat)
    requires i < |packets|
    ensures var (pieces, buffer) := Feed(packets[..i]);
            var (more, left) := Cut(buffer + packets[i]);
            && Feed(packets[..i + 1]).1 == left
            && Events(decode, Feed(packets[..i + 1]).0) == Events(decode, pieces) + Events(decode, more)
  {
    assert packets[..i + 1][..i] == packets[..i];
    EventsConcat(decode, Feed(packets[..i]).0, Cut(Feed(packets[..i]).1 + packets[i]).0);
  }

  /** What was read from the first packets is how the whole begins. */
  lemma WholeStarts(decode: seq<byte> -> string, packets: seq<seq<byte>>, n: nat) returns (rest: seq<Event>)
    requires n <= |packets|
    ensures Whole(decode, Flatten(packets)) == Events(decode, Feed(packets[..n]).0) + rest
  {
    PacketsDoNotMatter(packets[..n]);
    assert packets == packets[..n] + packets[n..];
    FlattenConcat(packets[..n], packets[n..]);
    var (pieces, left) := Cut(Flatten(packets[..n]));
    CutTwice(Flatten(packets[..n]), Flatten(packets[n..]));
    var (more, last) := Cut(left + Flatten(packets[n..]));
    EventsConcat(decode, pieces, more);
    var end := if last == [] then [] else Listed(Parsed(decode(last)));
    rest := Events(decode, more) + end;
    Assoc(Events(decode, pieces), Events(decode, more), end);
  }
}
