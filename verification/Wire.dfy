/** The event-stream wire format: the server's printer and the browser's incremental parser.

    The rules are the code's, a subset of the WHATWG HTML Living Standard, section 9.2.6
    "Interpreting an event stream": one data line an event, and a space after the colon. */
module Wire {
  import opened Prelude

  /** JSON values, and the encoder and decoder both ends use. */
  datatype Json =
    | Null
    | Bool(b: bool)
    | Num(n: int)
    | Str(s: string)
    | Arr(items: seq<Json>)
    | Obj(fields: map<string, Json>)

  datatype Codec = Codec(marshal: Json -> string, parse: string -> Option<Json>)

  /** Decoding undoes encoding, and an encoded value is not empty and fits on one line. */
  ghost predicate Faithful(codec: Codec) {
    forall j: Json ::
      && codec.parse(codec.marshal(j)) == Some(j)
      && codec.marshal(j) != "" && '\n' !in codec.marshal(j)
  }

  // ---------------------------------------------------------------------------------------------
  // Printer
  // ---------------------------------------------------------------------------------------------

  function FormatEvent(eventType: string, data: string): string {
    "event: " + eventType + "\ndata: " + data + "\n\n"
  }

  /** A comment; the loop's heartbeat is the comment "heartbeat". */
  function FormatComment(text: string): string {
    ": " + text + "\n\n"
  }

  // ---------------------------------------------------------------------------------------------
  // Parser
  // ---------------------------------------------------------------------------------------------

  datatype Event = Event(event: string, data: Json)

  /** The variables of the read loop, and the events passed on so far. */
  datatype Parser = Parser(buffer: string, event: string, data: string, out: seq<Event>)

  const FreshParser := Parser("", "", "", [])

  /** What JavaScript's trim() removes. */
  predicate IsSpace(c: char) {
    || c in " \t\n\r"
    || c in ['\U{000B}', '\U{000C}', '\U{00A0}', '\U{1680}', '\U{2028}', '\U{2029}', '\U{202F}',
             '\U{205F}', '\U{3000}', '\U{FEFF}']
    || '\U{2000}' <= c <= '\U{200A}'
  }

  function TrimStart(s: string): string {
    if s != "" && IsSpace(s[0]) then TrimStart(s[1..]) else s
  }

  function TrimEnd(s: string): string {
    if s != "" && IsSpace(s[|s| - 1]) then TrimEnd(s[..|s| - 1]) else s
  }

  function Trim(s: string): string {
    TrimEnd(TrimStart(s))
  }

  /** What an empty line passes on. */
  function Dispatched(event: string, data: string, parse: string -> Option<Json>): seq<Event> {
    if event != "" && data != "" && parse(data).Some? then [Event(event, parse(data).value)] else []
  }

  /** One complete line. */
  function Line(p: Parser, line: string, parse: string -> Option<Json>): Parser {
    if "event: " <= line then p.(event := Trim(line[7..]))
    else if "data: " <= line then p.(data := line[6..])
    else if line == "" then Parser(p.buffer, "", "", p.out + Dispatched(p.event, p.data, parse))
    else p
  }

  /** The reference: one pass over the characters. */
  function Feed(p: Parser, c: char, parse: string -> Option<Json>): Parser {
    if c == '\n' then Line(p.(buffer := ""), p.buffer, parse) else p.(buffer := p.buffer + [c])
  }

  function OnePass(p: Parser, s: string, parse: string -> Option<Json>): Parser
    decreases |s|
  {
    if s == "" then p else OnePass(Feed(p, s[0], parse), s[1..], parse)
  }

  function Concat(ss: seq<string>): string {
    if ss == [] then "" else ss[0] + Concat(ss[1..])
  }

  /** JavaScript's s.split('\n'). */
  function Split(s: string): (lines: seq<string>)
    ensures |lines| > 0
    decreases |s|
  {
    if '\n' !in s then [s]
    else
      var i := FirstNewline(s);
      [s[..i]] + Split(s[i + 1..])
  }

  function FirstNewline(s: string): (i: nat)
    requires '\n' in s
    ensures i < |s| && s[i] == '\n' && '\n' !in s[..i]
  {
    if s[0] == '\n' then 0
    else
      var i := 1 + FirstNewline(s[1..]);
      assert s[..i] == [s[0]] + s[1..][..i - 1];
      i
  }

  function Lines(p: Parser, lines: seq<string>, parse: string -> Option<Json>): Parser
    decreases |lines|
  {
    if lines == [] then p else Lines(Line(p, lines[0], parse), lines[1..], parse)
  }

  /** The loop over the complete lines of one read. */
  method ConsumeLines(lines: seq<string>, event: string, data: string, out: seq<Event>,
                      parse: string -> Option<Json>)
    returns (currentEvent: string, currentData: string, out': seq<Event>)
    ensures Lines(Parser("", event, data, out), lines, parse) == Parser("", currentEvent, currentData, out')
  {
    currentEvent, currentData, out' := event, data, out;
    assert lines[0..] == lines;
    var j := 0;
    while j < |lines|
      invariant 0 <= j <= |lines|
      invariant Lines(Parser("", event, data, out), lines, parse)
                == Lines(Parser("", currentEvent, currentData, out'), lines[j..], parse)
    {
      assert out' + [] == out';
      var line := lines[j];
      assert lines[j..][0] == line && lines[j..][1..] == lines[j + 1..];
      if "event: " <= line {
        currentEvent := Trim(line[7..]);
      } else if "data: " <= line {
        currentData := line[6..];
      } else if line == "" {
        if currentEvent != "" && currentData != "" {
          var json := parse(currentData);
          if json.Some? {
            out' := out' + [Event(currentEvent, json.value)];
          }
        }
        currentEvent := "";
        currentData := "";
      }
      j := j + 1;
    }
  }

  /** The read loop.  However the stream is cut into reads, it passes on the events of one pass over
      the whole stream and ends in the same state. */
  method ConsumeSSE(pieces: seq<string>, parse: string -> Option<Json>) returns (p: Parser)
    ensures p == OnePass(FreshParser, Concat(pieces), parse)
  {
    var buffer, currentEvent, currentData, out := "", "", "", [];
    assert pieces[0..] == pieces;
    var i := 0;
    while i < |pieces|
      invariant 0 <= i <= |pieces|
      invariant '\n' !in buffer
      invariant OnePass(Parser(buffer, currentEvent, currentData, out), Concat(pieces[i..]), parse)
                == OnePass(FreshParser, Concat(pieces), parse)
    {
      ghost var before := Parser(buffer, currentEvent, currentData, out);
      NextRead(before, pieces, i, parse);
      buffer := buffer + pieces[i];
      var lines := Split(buffer);
      buffer := lines[|lines| - 1];
      lines := lines[..|lines| - 1];
      currentEvent, currentData, out := ConsumeLines(lines, currentEvent, currentData, out, parse);
      i := i + 1;
    }
    p := Parser(buffer, currentEvent, currentData, out);
  }

  // ---------------------------------------------------------------------------------------------
  // What a line says
  // ---------------------------------------------------------------------------------------------

  ghost predicate AllSpace(s: string) {
    forall c :: c in s ==> IsSpace(c)
  }

  lemma {:induction false} TrimStartStrips(s: string) returns (left: string)
    ensures s == left + TrimStart(s) && AllSpace(left)
    ensures TrimStart(s) != "" ==> !IsSpace(TrimStart(s)[0])
    decreases |s|
  {
    left := "";
    if s != "" && IsSpace(s[0]) {
      var rest := TrimStartStrips(s[1..]);
      left := [s[0]] + rest;
      assert s == [s[0]] + s[1..];
    } else {
      assert s == "" + s;
    }
  }

  lemma {:induction false} TrimEndStrips(s: string) returns (right: string)
    ensures s == TrimEnd(s) + right && AllSpace(right)
    ensures TrimEnd(s) != "" ==> !IsSpace(TrimEnd(s)[|TrimEnd(s)| - 1]) && TrimEnd(s)[0] == s[0]
    decreases |s|
  {
    right := "";
    if s != "" && IsSpace(s[|s| - 1]) {
      var rest := TrimEndStrips(s[..|s| - 1]);
      right := rest + [s[|s| - 1]];
      assert s == s[..|s| - 1] + [s[|s| - 1]];
    } else {
      assert s == s + "";
    }
  }

  /** Trimming takes all spaces at the two ends off, and nothing else. */
  lemma TrimStrips(s: string) returns (left: string, right: string)
    ensures s == left + Trim(s) + right && AllSpace(left) && AllSpace(right)
    ensures Trim(s) != "" ==> !IsSpace(Trim(s)[0]) && !IsSpace(Trim(s)[|Trim(s)| - 1])
  {
    left := TrimStartStrips(s);
    right := TrimEndStrips(TrimStart(s));
    assert left + (Trim(s) + right) == left + Trim(s) + right;
  }

  /** A name that follows "event: " with any spaces around it is the name of the event. */
  lemma EventNameIsTrimmed(p: Parser, left: string, name: string, right: string, parse: string -> Option<Json>)
    requires AllSpace(left) && AllSpace(right) && name != "" && !IsSpace(name[0]) && !IsSpace(name[|name| - 1])
    ensures Line(p, "event: " + (left + name + right), parse) == p.(event := name)
  {
    var line := "event: " + (left + name + right);
    assert line[..7] == "event: " && line[7..] == left + name + right;
    TrimIs(left, name, right);
  }

  /** Of several data lines the last one counts, and its text is taken as it is. */
  lemma LastDataCounts(p: Parser, text: string, parse: string -> Option<Json>)
    ensures Line(p, "data: " + text, parse) == p.(data := text)
  {
    var line := "data: " + text;
    assert line[..6] == "data: " && line[6..] == text && line[0] == 'd';
  }

  /** Comments, unknown fields, and fields without the space after the colon say nothing. */
  lemma OtherLinesSayNothing(p: Parser, line: string, parse: string -> Option<Json>)
    requires line != "" && !("event: " <= line) && !("data: " <= line)
    ensures Line(p, line, parse) == p
  {
  }

  lemma {:induction false} TrimStartIs(left: string, s: string)
    requires AllSpace(left) && (s == "" || !IsSpace(s[0]))
    ensures TrimStart(left + s) == s
    decreases |left|
  {
    if left == "" {
      assert left + s == s;
    } else {
      assert (left + s)[1..] == left[1..] + s;
      TrimStartIs(left[1..], s);
    }
  }

  lemma {:induction false} TrimEndIs(s: string, right: string)
    requires AllSpace(right) && (s == "" || !IsSpace(s[|s| - 1]))
    ensures TrimEnd(s + right) == s
    decreases |right|
  {
    if right == "" {
      assert s + right == s;
    } else {
      var last := |right| - 1;
      assert (s + right)[..|s + right| - 1] == s + right[..last];
      TrimEndIs(s, right[..last]);
    }
  }

  lemma TrimIs(left: string, name: string, right: string)
    requires AllSpace(left) && AllSpace(right) && name != "" && !IsSpace(name[0]) && !IsSpace(name[|name| - 1])
    ensures Trim(left + name + right) == name
  {
    assert left + name + right == left + (name + right);
    TrimStartIs(left, name + right);
    TrimEndIs(name, right);
  }

  /** An empty line hands on what was said since the last one if there is an event, and data that can be
      decoded; otherwise that is dropped.  In either case the next event starts afresh. */
  lemma EmptyLineHandsOn(p: Parser, parse: string -> Option<Json>)
    ensures Line(p, "", parse).event == Line(p, "", parse).data == ""
    ensures Line(p, "", parse).out
            == if p.event != "" && p.data != "" && parse(p.data).Some?
               then p.out + [Event(p.event, parse(p.data).value)] else p.out
  {
    assert p.out + [] == p.out;
  }

  // ---------------------------------------------------------------------------------------------
  // The read loop against one pass
  // ---------------------------------------------------------------------------------------------

  lemma {:induction false} OnePassConcat(p: Parser, a: string, b: string, parse: string -> Option<Json>)
    ensures OnePass(p, a + b, parse) == OnePass(OnePass(p, a, parse), b, parse)
    decreases |a|
  {
    if a == "" {
      assert a + b == b;
    } else {
      assert (a + b)[1..] == a[1..] + b;
      OnePassConcat(Feed(p, a[0], parse), a[1..], b, parse);
    }
  }

  lemma {:induction false} OnePassInLine(p: Parser, s: string, parse: string -> Option<Json>)
    requires '\n' !in s
    ensures OnePass(p, s, parse) == p.(buffer := p.buffer + s)
    decreases |s|
  {
    if s == "" {
      assert p.buffer + s == p.buffer;
    } else {
      OnePassInLine(Feed(p, s[0], parse), s[1..], parse);
      assert p.buffer + [s[0]] + s[1..] == p.buffer + s;
    }
  }

  lemma OnePassOneLine(p: Parser, line: string, parse: string -> Option<Json>)
    requires p.buffer == "" && '\n' !in line
    ensures OnePass(p, line + "\n", parse) == Line(p, line, parse)
  {
    OnePassInLine(p, line, parse);
    OnePassConcat(p, line, "\n", parse);
    assert "" + line == line;
    assert OnePass(p.(buffer := line), "\n", parse) == Feed(p.(buffer := line), '\n', parse);
  }

  lemma {:induction false} OnePassBySplit(p: Parser, s: string, parse: string -> Option<Json>)
    requires p.buffer == ""
    ensures var lines := Split(s);
            OnePass(p, s, parse)
            == Lines(p, lines[..|lines| - 1], parse).(buffer := lines[|lines| - 1])
    decreases |s|
  {
    if '\n' !in s {
      OnePassInLine(p, s, parse);
      assert "" + s == s;
    } else {
      var i := FirstNewline(s);
      var rest := Split(s[i + 1..]);
      LineThenRest(p, s[..i], s[i + 1..], parse);
      assert s == s[..i] + "\n" + s[i + 1..];
      OnePassBySplit(Line(p, s[..i], parse), s[i + 1..], parse);
      LinesCons(p, s[..i], rest, parse);
    }
  }

  lemma LineThenRest(p: Parser, line: string, rest: string, parse: string -> Option<Json>)
    requires p.buffer == "" && '\n' !in line
    ensures OnePass(p, line + "\n" + rest, parse) == OnePass(Line(p, line, parse), rest, parse)
  {
    OnePassConcat(p, line + "\n", rest, parse);
    OnePassOneLine(p, line, parse);
  }

  lemma LinesCons(p: Parser, line: string, rest: seq<string>, parse: string -> Option<Json>)
    requires rest != []
    ensures var lines := [line] + rest;
            && Lines(p, lines[..|lines| - 1], parse) == Lines(Line(p, line, parse), rest[..|rest| - 1], parse)
            && lines[|lines| - 1] == rest[|rest| - 1]
  {
    var lines := [line] + rest;
    assert lines[..|lines| - 1] == [line] + rest[..|rest| - 1];
    assert ([line] + rest[..|rest| - 1])[1..] == rest[..|rest| - 1];
  }

  lemma {:induction false} LastLine(s: string)
    ensures '\n' !in Split(s)[|Split(s)| - 1]
    decreases |s|
  {
    if '\n' in s {
      LastLine(s[FirstNewline(s) + 1..]);
    }
  }

  /** One read: appending to the buffer and splitting is feeding the characters one by one. */
  lemma OneRead(p: Parser, read: string, parse: string -> Option<Json>)
    requires '\n' !in p.buffer
    ensures var lines := Split(p.buffer + read);
            OnePass(p, read, parse)
            == Lines(p.(buffer := ""), lines[..|lines| - 1], parse).(buffer := lines[|lines| - 1])
  {
    var empty := p.(buffer := "");
    OnePassInLine(empty, p.buffer, parse);
    assert "" + p.buffer == p.buffer;
    OnePassConcat(empty, p.buffer, read, parse);
    OnePassBySplit(empty, p.buffer + read, parse);
  }

  lemma NextRead(p: Parser, pieces: seq<string>, i: nat, parse: string -> Option<Json>)
    requires '\n' !in p.buffer && i < |pieces|
    ensures var lines := Split(p.buffer + pieces[i]);
            var next := Lines(p.(buffer := ""), lines[..|lines| - 1], parse).(buffer := lines[|lines| - 1]);
            && OnePass(p, Concat(pieces[i..]), parse) == OnePass(next, Concat(pieces[i + 1..]), parse)
            && '\n' !in lines[|lines| - 1]
  {
    assert pieces[i..][1..] == pieces[i + 1..];
    OneRead(p, pieces[i], parse);
    OnePassConcat(p, pieces[i], Concat(pieces[i + 1..]), parse);
    LastLine(p.buffer + pieces[i]);
  }

  // ---------------------------------------------------------------------------------------------
  // Printing and parsing back
  // ---------------------------------------------------------------------------------------------

  /** A parser between two events. */
  predicate AtBoundary(p: Parser) {
    p.buffer == "" && p.event == "" && p.data == ""
  }

  /** A printed event with newline-free parts parses to what the parts say, and leaves the parser at
      the next boundary. */
  lemma EventParses(p: Parser, eventType: string, data: string, parse: string -> Option<Json>)
    requires AtBoundary(p) && '\n' !in eventType && '\n' !in data
    ensures OnePass(p, FormatEvent(eventType, data), parse)
            == p.(out := p.out + Dispatched(Trim(eventType), data, parse))
  {
    var p1 := p.(event := Trim(eventType));
    var p2 := p1.(data := data);
    FormattedEvent(eventType, data);
    EventLine(p, eventType, parse);
    LineThenRest(p, "event: " + eventType, ("data: " + data) + "\n" + ("" + "\n" + ""), parse);
    DataLine(p1, data, parse);
    LineThenRest(p1, "data: " + data, "" + "\n" + "", parse);
    LineThenRest(p2, "", "", parse);
    assert Line(p2, "", parse) == p.(out := p.out + Dispatched(p2.event, p2.data, parse));
  }

  lemma FormattedEvent(eventType: string, data: string)
    ensures FormatEvent(eventType, data)
            == ("event: " + eventType) + "\n" + (("data: " + data) + "\n" + ("" + "\n" + ""))
  {
  }

  lemma EventLine(p: Parser, eventType: string, parse: string -> Option<Json>)
    ensures Line(p, "event: " + eventType, parse) == p.(event := Trim(eventType))
    ensures '\n' !in eventType ==> '\n' !in "event: " + eventType
  {
    assert ("event: " + eventType)[7..] == eventType;
  }

  lemma DataLine(p: Parser, data: string, parse: string -> Option<Json>)
    ensures Line(p, "data: " + data, parse) == p.(data := data)
    ensures '\n' !in data ==> '\n' !in "data: " + data
  {
    var line := "data: " + data;
    assert line[6..] == data;
    assert line[0] == 'd' && "event: "[0] == 'e';
  }

  lemma CommentLine(p: Parser, text: string, parse: string -> Option<Json>)
    ensures Line(p, ": " + text, parse) == p
    ensures '\n' !in text ==> '\n' !in ": " + text
  {
    var line := ": " + text;
    assert line[0] == ':' && "event: "[0] == 'e' && "data: "[0] == 'd';
  }

  /** A comment leaves no trace. */
  lemma CommentParses(p: Parser, text: string, parse: string -> Option<Json>)
    requires AtBoundary(p) && '\n' !in text
    ensures OnePass(p, FormatComment(text), parse) == p
  {
    var line := ": " + text;
    CommentLine(p, text, parse);
    assert FormatComment(text) == line + "\n" + ("" + "\n" + "");
    LineThenRest(p, line, "" + "\n" + "", parse);
    LineThenRest(p, "", "", parse);
    assert p.out + [] == p.out;
  }

  /** From one boundary to the next, `text` passes on exactly `events`. */
  ghost predicate Says(text: string, events: seq<Event>, parse: string -> Option<Json>) {
    forall out: seq<Event> ::
      OnePass(Parser("", "", "", out), text, parse) == Parser("", "", "", out + events)
  }

  lemma SaysNothing(parse: string -> Option<Json>)
    ensures Says("", [], parse)
  {
    forall out: seq<Event> ensures OnePass(Parser("", "", "", out), "", parse) == Parser("", "", "", out + []) {
      assert out + [] == out;
    }
  }

  lemma SaysBoth(a: string, ea: seq<Event>, b: string, eb: seq<Event>, parse: string -> Option<Json>)
    requires Says(a, ea, parse) && Says(b, eb, parse)
    ensures Says(a + b, ea + eb, parse)
  {
    forall out: seq<Event>
      ensures OnePass(Parser("", "", "", out), a + b, parse) == Parser("", "", "", out + (ea + eb))
    {
      OnePassConcat(Parser("", "", "", out), a, b, parse);
      assert out + ea + eb == out + (ea + eb);
    }
  }

  lemma EventSays(eventType: string, data: string, parse: string -> Option<Json>)
    requires '\n' !in eventType && '\n' !in data
    ensures Says(FormatEvent(eventType, data), Dispatched(Trim(eventType), data, parse), parse)
  {
    forall out: seq<Event>
      ensures OnePass(Parser("", "", "", out), FormatEvent(eventType, data), parse)
              == Parser("", "", "", out + Dispatched(Trim(eventType), data, parse))
    {
      EventParses(Parser("", "", "", out), eventType, data, parse);
    }
  }

  lemma CommentSays(text: string, parse: string -> Option<Json>)
    requires '\n' !in text
    ensures Says(FormatComment(text), [], parse)
  {
    forall out: seq<Event>
      ensures OnePass(Parser("", "", "", out), FormatComment(text), parse) == Parser("", "", "", out + [])
    {
      CommentParses(Parser("", "", "", out), text, parse);
      assert out + [] == out;
    }
  }
}
