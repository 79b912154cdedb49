/** The event stream: the server prints frames and heartbeats, the browser client
    re-assembles them from arbitrary chunks. Framing follows section 9.2.5 (Parsing an
    event stream) and section 9.2.6 (Interpreting an event stream) of the WHATWG HTML
    Living Standard, in the subset the two programs use. JSON parsing is a parameter. */
module EventStream {
  import opened Prelude

  // ---- the server ----

  /** What makes the stream loop write: a published payload or the heartbeat timer. */
  datatype Signal = Publish(payload: string) | Tick

  type TypeOf = string -> string

  const HEARTBEAT := ": ping\n\n"

  function FormatFrame(eventType: string, payload: string): string {
    "event: " + eventType + "\ndata: " + payload + "\n\n"
  }

  function PrintSignal(typeOf: TypeOf, s: Signal): string {
    match s
    case Publish(payload) => FormatFrame(typeOf(payload), payload)
    case Tick => HEARTBEAT
  }

  function Print(typeOf: TypeOf, signals: seq<Signal>): string {
    if signals == [] then "" else PrintSignal(typeOf, signals[0]) + Print(typeOf, signals[1..])
  }

  class Writer {
    var text: string

    constructor ()
      ensures text == ""
    {
      text := "";
    }

    method WriteString(s: string)
      modifies this
      ensures text == old(text) + s
    {
      text := text + s;
    }
  }

  /** A payload goes out under its type as one data line, a tick as a comment; either ends
      with a blank line. */
  ghost predicate SentAs(typeOf: TypeOf, s: Signal, piece: string) {
    piece == match s
      case Publish(payload) => "event: " + typeOf(payload) + "\n" + "data: " + payload + "\n\n"
      case Tick => ": ping\n\n"
  }

  /** One piece of text for each signal, in order. */
  ghost predicate Sent(typeOf: TypeOf, signals: seq<Signal>, text: string) {
    exists pieces: seq<string> ::
      && Concat(pieces) == text && |pieces| == |signals|
      && forall n | 0 <= n < |signals| :: SentAs(typeOf, signals[n], pieces[n])
  }

  method Serve(w: Writer, typeOf: TypeOf, signals: seq<Signal>)
    modifies w
    ensures w.text == old(w.text) + Print(typeOf, signals)
    ensures Sent(typeOf, signals, Print(typeOf, signals))
  {
    PrintIsSent(typeOf, signals);
    hide FormatFrame, Print, Sent;
    PrintNothing(typeOf);
    for i := 0 to |signals|
      invariant w.text == old(w.text) + Print(typeOf, signals[..i])
    {
      PrintSnoc(typeOf, signals[..i], signals[i]);
      assert signals[..i + 1] == signals[..i] + [signals[i]];
      match signals[i]
      case Publish(payload) => w.WriteString(FormatFrame(typeOf(payload), payload));
      case Tick => w.WriteString(HEARTBEAT);
    }
    assert signals[..|signals|] == signals;
  }

  lemma {:induction false} PrintIsSent(typeOf: TypeOf, signals: seq<Signal>)
    ensures Sent(typeOf, signals, Print(typeOf, signals))
  {
    hide Sent, SentAs, PrintSignal;
    if signals == [] {
      NothingSent(typeOf);
    } else {
      hide Print;
      var n := |signals| - 1;
      PrintIsSent(typeOf, signals[..n]);
      assert signals == signals[..n] + [signals[n]];
      PrintSnoc(typeOf, signals[..n], signals[n]);
      FrameIsSent(typeOf, signals[n]);
      SentSnoc(typeOf, signals[..n], signals[n], Print(typeOf, signals[..n]), PrintSignal(typeOf, signals[n]));
    }
  }

  lemma NothingSent(typeOf: TypeOf)
    ensures Sent(typeOf, [], "")
  {
    var none: seq<string> := [];
    assert Concat(none) == "" && |none| == 0;
  }

  lemma SentSnoc(typeOf: TypeOf, signals: seq<Signal>, s: Signal, text: string, piece: string)
    requires Sent(typeOf, signals, text) && SentAs(typeOf, s, piece)
    ensures Sent(typeOf, signals + [s], text + piece)
  {
    hide SentAs, Concat;
    var pieces: seq<string> :|
      && Concat(pieces) == text && |pieces| == |signals|
      && forall m | 0 <= m < |signals| :: SentAs(typeOf, signals[m], pieces[m]);
    ConcatSnoc(pieces, piece);
    var all, sent := signals + [s], pieces + [piece];
    forall m | 0 <= m < |all| ensures SentAs(typeOf, all[m], sent[m]) {
      if m < |signals| { assert all[m] == signals[m] && sent[m] == pieces[m]; }
    }
  }

  lemma ConcatSnoc(pieces: seq<string>, piece: string)
    ensures Concat(pieces + [piece]) == Concat(pieces) + piece
  {
    assert (pieces + [piece])[..|pieces|] == pieces;
  }

  lemma FrameIsSent(typeOf: TypeOf, s: Signal)
    ensures SentAs(typeOf, s, PrintSignal(typeOf, s))
  {
    match s
    case Publish(payload) =>
      assert "\ndata: " == "\n" + "data: ";
      assert PrintSignal(typeOf, s) == "event: " + typeOf(payload) + "\n" + "data: " + payload + "\n\n";
    case Tick =>
  }

  lemma PrintNothing(typeOf: TypeOf)
    ensures Print(typeOf, []) == ""
  {
  }

  lemma {:induction false} PrintSnoc(typeOf: TypeOf, signals: seq<Signal>, s: Signal)
    ensures Print(typeOf, signals + [s]) == Print(typeOf, signals) + PrintSignal(typeOf, s)
  {
    hide PrintSignal;
    if signals == [] {
      assert [s][1..] == [] && signals + [s] == [s];
    } else {
      var all, first := signals + [s], PrintSignal(typeOf, signals[0]);
      assert all[0] == signals[0] && all[1..] == signals[1..] + [s];
      PrintSnoc(typeOf, signals[1..], s);
      assert Print(typeOf, all) == first + Print(typeOf, all[1..]);
    }
  }

  // ---- the client ----

  /** The first index of a pair of newlines, or -1. */
  function IndexOfBlank(s: string, from: nat): (i: int)
    requires from <= |s|
    ensures i == -1 || from <= i <= |s| - 2
    ensures i >= 0 ==> s[i] == s[i + 1] == '\n'
    ensures forall j | from <= j < (if i < 0 then |s| - 1 else i) :: !(s[j] == s[j + 1] == '\n')
    decreases |s| - from
  {
    if from + 1 >= |s| then -1
    else if s[from] == '\n' && s[from + 1] == '\n' then from
    else IndexOfBlank(s, from + 1)
  }

  function IndexOfNewline(s: string, from: nat): (i: nat)
    requires from <= |s|
    ensures from <= i <= |s| && (i < |s| ==> s[i] == '\n')
    ensures forall j | from <= j < i :: s[j] != '\n'
    decreases |s| - from
  {
    if from == |s| || s[from] == '\n' then from else IndexOfNewline(s, from + 1)
  }

  function Split(s: string): (lines: seq<string>)
    ensures lines != []
    decreases |s|
  {
    var i := IndexOfNewline(s, 0);
    if i == |s| then [s] else [s[..i]] + Split(s[i + 1..])
  }

  function StripOneSpace(s: string): string {
    if s != "" && s[0] == ' ' then s[1..] else s
  }

  predicate IsComment(line: string) {
    line != "" && line[0] == ':'
  }

  predicate IsData(line: string) {
    |line| >= 5 && line[..5] == "data:"
  }

  /** What one line contributes to the payload. */
  function LineData(line: string): seq<string> {
    if !IsComment(line) && IsData(line) then [StripOneSpace(line[5..])] else []
  }

  /** After "data:" comes the line's text, less one leading space; every other line, comments
      among them, adds nothing. */
  lemma LineAdds(line: string, text: string)
    ensures LineData("data:" + text) == [if text != "" && text[0] == ' ' then text[1..] else text]
    ensures |line| < 5 || line[..5] != "data:" ==> LineData(line) == []
  {
    assert ("data:" + text)[5..] == text && ("data:" + text)[..5] == "data:";
    assert ("data:" + text)[0] == 'd';
  }

  function DataLines(lines: seq<string>): seq<string> {
    if lines == [] then []
    else DataLines(lines[..|lines| - 1]) + LineData(lines[|lines| - 1])
  }

  function Join(lines: seq<string>): string
    requires lines != []
  {
    if |lines| == 1 then lines[0] else lines[0] + "\n" + Join(lines[1..])
  }

  type Parser<E> = string -> Option<E>

  /** The events a payload gives rise to: one if it parses, else none. */
  function Parsed<E>(parse: Parser<E>, payload: string): seq<E> {
    match parse(payload)
    case Some(e) => [e]
    case None => []
  }

  function FrameEvents<E>(parse: Parser<E>, frame: string): seq<E> {
    var data := DataLines(Split(frame));
    if data == [] then [] else Parsed(parse, Join(data))
  }

  /** Every complete frame at the front of the buffer is taken off and handled. */
  function Drain<E>(parse: Parser<E>, buffer: string): (seq<E>, string)
    decreases |buffer|
  {
    var sep := IndexOfBlank(buffer, 0);
    if sep == -1 then ([], buffer)
    else
      var (events, rest) := Drain(parse, buffer[sep + 2..]);
      (FrameEvents(parse, buffer[..sep]) + events, rest)
  }

  class Client<E> {
    const parse: Parser<E>
    var buffer: string
    /** Everything handed to the callback, in order. */
    var events: seq<E>

    constructor (parse: Parser<E>)
      ensures this.parse == parse && buffer == "" && events == []
    {
      this.parse := parse;
      buffer, events := "", [];
    }

    /** One read of the body stream. */
    method Read(chunk: string)
      modifies this
      ensures events == old(events) + Drain(parse, old(buffer) + chunk).0
      ensures buffer == Drain(parse, old(buffer) + chunk).1
    {
      hide FrameEvents, Drain, IndexOfBlank;
      buffer := buffer + chunk;
      ghost var start := buffer;
      var sep := IndexOfBlank(buffer, 0);
      while sep != -1
        invariant sep == IndexOfBlank(buffer, 0)
        invariant events + Drain(parse, buffer).0 == old(events) + Drain(parse, start).0
        invariant Drain(parse, buffer).1 == Drain(parse, start).1
        decreases |buffer|
      {
        DrainOnce(parse, buffer);
        ghost var before := events;
        var frame := buffer[..sep];
        buffer := buffer[sep + 2..];
        HandleFrame(frame);
        Regroup(before, FrameEvents(parse, frame), Drain(parse, buffer).0);
        sep := IndexOfBlank(buffer, 0);
      }
      DrainOnce(parse, buffer);
    }

    method HandleFrame(frame: string)
      modifies this`events
      ensures events == old(events) + FrameEvents(parse, frame)
    {
      var lines := Split(frame);
      var dataLines: seq<string> := [];
      for i := 0 to |lines|
        invariant dataLines == DataLines(lines[..i])
      {
        var line := lines[i];
        assert lines[..i + 1][..i] == lines[..i];
        if IsComment(line) {
          continue;
        }
        if IsData(line) {
          dataLines := dataLines + [StripOneSpace(line[5..])];
        }
      }
      assert lines[..|lines|] == lines;
      if dataLines == [] {
        return;
      }
      match parse(Join(dataLines))
      case Some(e) => events := events + [e];
      case None =>
    }
  }

  // ---- chunking does not matter ----

  lemma BlankInPrefix(a: string, b: string)
    requires IndexOfBlank(a, 0) >= 0
    ensures IndexOfBlank(a + b, 0) == IndexOfBlank(a, 0)
  {
    var i, j := IndexOfBlank(a, 0), IndexOfBlank(a + b, 0);
    assert (a + b)[i] == a[i] && (a + b)[i + 1] == a[i + 1];
    assert 0 <= j <= i;
    assert (a + b)[j] == a[j] && (a + b)[j + 1] == a[j + 1];
  }

  /** Draining a buffer early and the remainder later is draining it all at once. */
  lemma {:induction false} DrainSplit<E>(parse: Parser<E>, a: string, b: string)
    ensures var (first, rest) := Drain(parse, a);
      Drain(parse, a + b) == (first + Drain(parse, rest + b).0, Drain(parse, rest + b).1)
    decreases |a|
  {
    hide FrameEvents, Drain, IndexOfBlank;
    DrainOnce(parse, a);
    var sep := IndexOfBlank(a, 0);
    if sep >= 0 {
      BlankInPrefix(a, b);
      DrainOnce(parse, a + b);
      assert (a + b)[..sep] == a[..sep];
      assert (a + b)[sep + 2..] == a[sep + 2..] + b;
      DrainSplit(parse, a[sep + 2..], b);
      var (later, rest) := Drain(parse, a[sep + 2..]);
      Regroup(FrameEvents(parse, a[..sep]), later, Drain(parse, rest + b).0);
    } else {
      assert [] + Drain(parse, a + b).0 == Drain(parse, a + b).0;
    }
  }

  /** The leading frame, if there is one, and then the others. */
  lemma DrainOnce<E>(parse: Parser<E>, buffer: string)
    ensures var sep := IndexOfBlank(buffer, 0);
      Drain(parse, buffer) == if sep == -1 then ([], buffer) else
        var (events, rest) := Drain(parse, buffer[sep + 2..]);
        (FrameEvents(parse, buffer[..sep]) + events, rest)
  {
    hide FrameEvents, IndexOfBlank;
  }

  lemma Regroup<T>(a: seq<T>, b: seq<T>, c: seq<T>)
    ensures (a + b) + c == a + (b + c)
  {
  }

  function Concat(chunks: seq<string>): string {
    if chunks == [] then "" else Concat(chunks[..|chunks| - 1]) + chunks[|chunks| - 1]
  }

  /** The client after reading the chunks one by one: Client.Read, repeated. */
  function ReadAll<E>(parse: Parser<E>, chunks: seq<string>): (seq<E>, string) {
    if chunks == [] then ([], "")
    else
      var (events, buffer) := ReadAll(parse, chunks[..|chunks| - 1]);
      var (more, buffer') := Drain(parse, buffer + chunks[|chunks| - 1]);
      (events + more, buffer')
  }

  lemma {:induction false} ChunkingIrrelevant<E>(parse: Parser<E>, chunks: seq<string>)
    ensures ReadAll(parse, chunks) == Drain(parse, Concat(chunks))
  {
    if chunks != [] {
      var n := |chunks| - 1;
      ChunkingIrrelevant(parse, chunks[..n]);
      DrainSplit(parse, Concat(chunks[..n]), chunks[n]);
    }
  }

  // ---- round trip ----

  predicate OneLine(s: string) {
    forall i | 0 <= i < |s| :: s[i] != '\n'
  }

  /** A signal the publisher can produce: JSON without raw newlines, type included. */
  predicate WellFormed(typeOf: TypeOf, s: Signal) {
    s.Publish? ==> OneLine(s.payload) && OneLine(typeOf(s.payload))
  }

  /** A printed signal without its terminating blank line. */
  function Body(typeOf: TypeOf, s: Signal): string {
    match s
    case Publish(payload) => "event: " + typeOf(payload) + "\n" + ("data: " + payload)
    case Tick => ": ping"
  }

  lemma PrintedBody(typeOf: TypeOf, s: Signal)
    ensures PrintSignal(typeOf, s) == Body(typeOf, s) + "\n\n"
  {
  }

  /** The body of a frame holds no blank line and does not end in a newline. */
  lemma BodyHasNoBlank(typeOf: TypeOf, s: Signal)
    requires WellFormed(typeOf, s)
    ensures var b := Body(typeOf, s);
      b != "" && b[|b| - 1] != '\n'
      && forall i | 0 <= i < |b| - 1 :: !(b[i] == b[i + 1] == '\n')
  {
  }

  /** The first blank line of a stream that starts with a whole frame ends that frame. */
  lemma FrameBoundary(typeOf: TypeOf, s: Signal, rest: string)
    requires WellFormed(typeOf, s)
    ensures IndexOfBlank(Body(typeOf, s) + "\n\n" + rest, 0) == |Body(typeOf, s)|
  {
    BodyHasNoBlank(typeOf, s);
    var b := Body(typeOf, s);
    var all := b + "\n\n" + rest;
    assert forall i | 0 <= i < |b| :: all[i] == b[i];
    assert all[|b|] == all[|b| + 1] == '\n';
    var i := IndexOfBlank(all, 0);
    assert 0 <= i <= |b|;
  }

  lemma SplitOneLine(s: string)
    requires OneLine(s)
    ensures Split(s) == [s]
  {
  }

  lemma SplitTwoLines(a: string, b: string)
    requires OneLine(a) && OneLine(b)
    ensures Split(a + "\n" + b) == [a, b]
  {
    var s := a + "\n" + b;
    var i := IndexOfNewline(s, 0);
    assert s[|a|] == '\n' && forall j | 0 <= j < |a| :: s[j] == a[j];
    assert i == |a| && s[..i] == a && s[i + 1..] == b;
    SplitOneLine(b);
  }

  /** A message frame yields its payload, a heartbeat nothing. */
  lemma FrameData(typeOf: TypeOf, s: Signal)
    requires WellFormed(typeOf, s)
    ensures DataLines(Split(Body(typeOf, s))) == if s.Publish? then [s.payload] else []
  {
    match s
    case Publish(payload) =>
      var head, tail := "event: " + typeOf(payload), "data: " + payload;
      SplitTwoLines(head, tail);
      assert LineData(head) == [] by { assert head[0] == 'e'; }
      assert LineData(tail) == [payload] by {
        assert tail[..5] == "data:" && tail[0] == 'd';
        assert tail[5..] == " " + payload;
      }
      assert [head, tail][..1] == [head];
      assert DataLines([head]) == DataLines([]) + LineData(head);
    case Tick =>
      SplitOneLine(": ping");
      assert IsComment(": ping");
  }

  // ---- payloads of several lines ----

  lemma SplitHead(a: string, rest: string)
    requires OneLine(a)
    ensures Split(a + "\n" + rest) == [a] + Split(rest)
  {
    var s := a + "\n" + rest;
    assert s[|a|] == '\n' && forall j | 0 <= j < |a| :: s[j] == a[j];
    assert IndexOfNewline(s, 0) == |a| && s[..|a|] == a && s[|a| + 1..] == rest;
  }

  lemma {:induction false} SplitLines(s: string)
    ensures forall line | line in Split(s) :: OneLine(line)
    ensures Join(Split(s)) == s
    decreases |s|
  {
    var i := IndexOfNewline(s, 0);
    if i < |s| {
      SplitLines(s[i + 1..]);
      assert s == s[..i] + "\n" + s[i + 1..];
      assert Split(s)[1..] == Split(s[i + 1..]);
    }
  }

  lemma {:induction false} DataLinesCons(line: string, lines: seq<string>)
    ensures DataLines([line] + lines) == LineData(line) + DataLines(lines)
  {
    var all := [line] + lines;
    if lines == [] {
      assert all[..0] == [] && all[|all| - 1] == line;
    } else {
      DataLinesCons(line, lines[..|lines| - 1]);
      assert all[..|all| - 1] == [line] + lines[..|lines| - 1];
    }
  }

  /** A frame that carries the given lines, each on a data line of its own. */
  function DataFrame(lines: seq<string>): string
    requires lines != []
  {
    if |lines| == 1 then "data: " + lines[0] else "data: " + lines[0] + "\n" + DataFrame(lines[1..])
  }

  lemma DataLine(text: string)
    ensures LineData("data: " + text) == [text]
    ensures text != "" && text[0] != ' ' ==> LineData("data:" + text) == [text]
    ensures LineData(": " + text) == [] && LineData("event: " + text) == []
  {
    var spaced, tight := "data: " + text, "data:" + text;
    assert spaced[..5] == "data:" && spaced[0] == 'd' && spaced[5..] == " " + text;
    assert tight[..5] == "data:" && tight[0] == 'd' && tight[5..] == text;
    assert (": " + text)[0] == ':' && ("event: " + text)[0] == 'e';
  }

  lemma DataIsOneLine(text: string)
    requires OneLine(text)
    ensures OneLine("data: " + text)
  {
    var line := "data: " + text;
    forall i | 0 <= i < |line| ensures line[i] != '\n' {
      if i >= 6 { assert line[i] == text[i - 6]; }
    }
  }

  lemma {:induction false} DataFrameLines(lines: seq<string>)
    requires lines != [] && forall line | line in lines :: OneLine(line)
    ensures DataLines(Split(DataFrame(lines))) == lines
  {
    hide OneLine, LineData, Split, DataLines;
    var head := "data: " + lines[0];
    DataLine(lines[0]);
    DataIsOneLine(lines[0]);
    if |lines| == 1 {
      SplitOneLine(head);
      DataLinesCons(head, []);
      assert [head] + [] == [head];
      NoLines();
    } else {
      var rest := DataFrame(lines[1..]);
      DataFrameLines(lines[1..]);
      SplitHead(head, rest);
      DataLinesCons(head, Split(rest));
    }
  }

  lemma NoLines()
    ensures DataLines([]) == []
  {
  }

  /** A payload of any number of lines, one data line each, arrives whole; it is emitted as
      what it parses to, and dropped when it does not. */
  lemma ManyLinesArrive<E>(parse: Parser<E>, payload: string)
    ensures FrameEvents(parse, DataFrame(Split(payload))) ==
      if parse(payload).Some? then [parse(payload).value] else []
  {
    SplitLines(payload);
    DataFrameLines(Split(payload));
  }

  /** The events of the published payloads, in order. */
  function Published<E>(parse: Parser<E>, signals: seq<Signal>): seq<E> {
    if signals == [] then []
    else (if signals[0].Publish? then Parsed(parse, signals[0].payload) else [])
         + Published(parse, signals[1..])
  }

  /** Draining printed signals followed by an unfinished frame. */
  lemma {:induction false} DrainPrinted<E>(typeOf: TypeOf, parse: Parser<E>, signals: seq<Signal>, part: string)
    requires forall s | s in signals :: WellFormed(typeOf, s)
    requires IndexOfBlank(part, 0) == -1
    ensures Drain(parse, Print(typeOf, signals) + part) == (Published(parse, signals), part)
  {
    hide Body, PrintSignal, FrameEvents, IndexOfBlank, WellFormed, Parsed, Drain;
    if signals == [] {
      assert Print(typeOf, signals) + part == part;
      DrainOnce(parse, part);
    } else {
      var s, rest := signals[0], Print(typeOf, signals[1..]) + part;
      DrainPrinted(typeOf, parse, signals[1..], part);
      PrintedBody(typeOf, s);
      FrameBoundary(typeOf, s, rest);
      Regroup(PrintSignal(typeOf, s), Print(typeOf, signals[1..]), part);
      DrainFrame(parse, Body(typeOf, s), rest);
      BodyEvents(typeOf, parse, s);
    }
  }

  lemma DrainFrame<E>(parse: Parser<E>, body: string, rest: string)
    requires IndexOfBlank(body + "\n\n" + rest, 0) == |body|
    ensures var (events, rest') := Drain(parse, rest);
      Drain(parse, body + "\n\n" + rest) == (FrameEvents(parse, body) + events, rest')
  {
    hide FrameEvents, Drain, IndexOfBlank;
    var all := body + "\n\n" + rest;
    assert all[..|body|] == body && all[|body| + 2..] == rest;
    DrainOnce(parse, all);
  }

  lemma BodyEvents<E>(typeOf: TypeOf, parse: Parser<E>, s: Signal)
    requires WellFormed(typeOf, s)
    ensures FrameEvents(parse, Body(typeOf, s)) == if s.Publish? then Parsed(parse, s.payload) else []
  {
    FrameData(typeOf, s);
  }

  /** A proper prefix of a frame contains no blank line yet. */
  lemma PartialFrame(typeOf: TypeOf, s: Signal, part: string)
    requires WellFormed(typeOf, s) && part < PrintSignal(typeOf, s)
    ensures IndexOfBlank(part, 0) == -1
  {
  }

  /** How many of the signals carry a payload that parses. */
  function Heard<E>(parse: Parser<E>, signals: seq<Signal>): nat {
    if signals == [] then 0
    else (if signals[0].Publish? && parse(signals[0].payload).Some? then 1 else 0) + Heard(parse, signals[1..])
  }

  /** The n-th signal, if its payload parses, is heard as that, after those heard before. */
  lemma {:induction false} HeardInOrder<E>(parse: Parser<E>, signals: seq<Signal>, n: nat)
    requires n < |signals|
    ensures |Published(parse, signals)| == Heard(parse, signals)
    ensures signals[n].Publish? && parse(signals[n].payload).Some? ==>
      && Heard(parse, signals[..n]) < Heard(parse, signals)
      && Published(parse, signals)[Heard(parse, signals[..n])] == parse(signals[n].payload).value
  {
    if n > 0 {
      HeardInOrder(parse, signals[1..], n - 1);
      assert signals[..n][1..] == signals[1..][..n - 1];
    } else if |signals| > 1 {
      HeardInOrder(parse, signals[1..], 0);
    }
  }

  /** However the stream is cut into chunks, and wherever it stands inside the next
      frame, the client has emitted exactly the payloads of the finished message
      frames, as what they parse to and in order, and holds only the unfinished frame. */
  lemma RoundTrip<E>(typeOf: TypeOf, parse: Parser<E>, signals: seq<Signal>, next: Signal,
                     part: string, chunks: seq<string>)
    requires forall s | s in signals + [next] :: WellFormed(typeOf, s)
    requires part < PrintSignal(typeOf, next)
    requires Concat(chunks) == Print(typeOf, signals) + part
    ensures ReadAll(parse, chunks) == (Published(parse, signals), part)
    ensures var events := ReadAll(parse, chunks).0;
      && |events| == Heard(parse, signals)
      && forall n | 0 <= n < |signals| && signals[n].Publish? && parse(signals[n].payload).Some? ::
           && Heard(parse, signals[..n]) < |events|
           && events[Heard(parse, signals[..n])] == parse(signals[n].payload).value
  {
    assert next in signals + [next];
    assert forall s | s in signals :: s in signals + [next];
    PartialFrame(typeOf, next, part);
    ChunkingIrrelevant(parse, chunks);
    DrainPrinted(typeOf, parse, signals, part);
    hide Published, Heard, WellFormed, Print, PrintSignal, Drain, ReadAll, Concat;
    assert |Published(parse, signals)| == Heard(parse, signals) by { HeardAll(parse, signals); }
    forall n | 0 <= n < |signals| && signals[n].Publish? && parse(signals[n].payload).Some?
      ensures Heard(parse, signals[..n]) < Heard(parse, signals)
      ensures Published(parse, signals)[Heard(parse, signals[..n])] == parse(signals[n].payload).value
    {
      HeardInOrder(parse, signals, n);
    }
  }

  lemma HeardAll<E>(parse: Parser<E>, signals: seq<Signal>)
    ensures |Published(parse, signals)| == Heard(parse, signals)
  {
    if signals != [] { HeardInOrder(parse, signals, 0); }
  }

}
