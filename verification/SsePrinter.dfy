/** Writing events as text, and the text back to events. */
module SsePrinter {
  import opened Common
  import opened Text
  import opened Sse

  predicate OneLine(s: string) {
    '\n' !in s
  }

  // ------------------------------------------------------------------------------------
  // Text and lines
  // ------------------------------------------------------------------------------------

  function DropCR(line: string): string {
    if line != "" && Last(line) == '\r' then Init(line) else line
  }

  function LineEnd(text: string): (n: nat)
    ensures n <= |text| && OneLine(text[..n]) && (n < |text| ==> text[n] == '\n')
  {
    if text == "" || text[0] == '\n' then 0 else LineEnd(text[1..]) + 1
  }

  /** bufio.ScanLines: a line ends at '\n', loses one '\r' before it, and the last needs no '\n'. */
  function ScanLines(text: string): seq<string> {
    if text == "" then []
    else
      var n := LineEnd(text);
      var rest := if n < |text| then ScanLines(text[n + 1..]) else [];
      [DropCR(text[..n])] + rest
  }

  function TextOf(lines: seq<string>): string {
    if lines == [] then "" else lines[0] + "\n" + TextOf(lines[1..])
  }

  lemma {:induction false} LineEndOf(line: string, rest: string)
    requires OneLine(line)
    ensures LineEnd(line + "\n" + rest) == |line|
  {
    if line == "" {
    } else {
      LineEndOf(line[1..], rest);
      assert (line + "\n" + rest)[1..] == line[1..] + "\n" + rest;
    }
  }

  lemma {:induction false} ScanInvertsText(lines: seq<string>)
    requires forall line | line in lines :: OneLine(line) && DropCR(line) == line
    ensures ScanLines(TextOf(lines)) == lines
  {
    if lines == [] {
    } else {
      var line, rest := lines[0], TextOf(lines[1..]);
      LineEndOf(line, rest);
      ScanInvertsText(lines[1..]);
      assert TextOf(lines)[..|line|] == line;
      assert TextOf(lines)[|line| + 1..] == rest;
      assert [line] + lines[1..] == lines;
    }
  }

  lemma {:induction false} ScannedLinesAreSingle(text: string)
    ensures forall line | line in ScanLines(text) :: OneLine(line)
  {
    if text == "" {
    } else {
      var n := LineEnd(text);
      if n < |text| {
        ScannedLinesAreSingle(text[n + 1..]);
      }
    }
  }

  // ------------------------------------------------------------------------------------
  // Data and its lines
  // ------------------------------------------------------------------------------------

  function Split(data: string): (lines: seq<string>)
    ensures lines != []
  {
    if data == "" then [""]
    else
      var lines, c := Split(Init(data)), Last(data);
      if c == '\n' then lines + [""] else Init(lines) + [Last(lines) + [c]]
  }

  lemma {:induction false} SplitNext(data: string, line: string)
    requires OneLine(line)
    ensures Split(data + "\n" + line) == Split(data) + [line]
  {
    var all := data + "\n" + line;
    if line == "" {
      assert Init(all) == data;
    } else {
      SplitNext(data, Init(line));
      assert Init(all) == data + "\n" + Init(line);
      assert Init(line) + [Last(line)] == line;
    }
  }

  lemma {:induction false} SplitOneLine(line: string)
    requires OneLine(line)
    ensures Split(line) == [line]
  {
    if line == "" {
    } else {
      SplitOneLine(Init(line));
      assert Init(line) + [Last(line)] == line;
    }
  }

  lemma {:induction false} SplitInvertsJoin(lines: seq<string>)
    requires lines != [] && forall line | line in lines :: OneLine(line)
    ensures Split(Join(lines)) == lines
  {
    if |lines| == 1 {
      SplitOneLine(lines[0]);
    } else {
      SplitInvertsJoin(Init(lines));
      SplitNext(Join(Init(lines)), Last(lines));
    }
  }

  lemma {:induction false} JoinLonger(lines: seq<string>, c: char)
    requires lines != []
    ensures Join(Init(lines) + [Last(lines) + [c]]) == Join(lines) + [c]
  {
    var longer := Init(lines) + [Last(lines) + [c]];
    assert Init(longer) == Init(lines);
    if |lines| > 1 {
      Reassociate(Join(Init(lines)) + "\n", Last(lines), [c]);
    }
  }

  lemma {:induction false} JoinInvertsSplit(data: string)
    ensures Join(Split(data)) == data
    ensures forall line | line in Split(data) :: OneLine(line)
  {
    if data == "" {
    } else {
      var lines, c := Split(Init(data)), Last(data);
      JoinInvertsSplit(Init(data));
      assert Init(data) + [c] == data;
      if c == '\n' {
        assert Init(lines + [""]) == lines;
        assert Join(lines + [""]) == Init(data) + "\n" + "";
      } else {
        JoinLonger(lines, c);
        assert forall line | line in Init(lines) :: line in lines;
        assert OneLine(Last(lines));
      }
    }
  }

  // ------------------------------------------------------------------------------------
  // The round trip
  // ------------------------------------------------------------------------------------

  function DataLines(data: seq<string>): seq<string> {
    if data == [] then [] else DataLines(Init(data)) + ["data: " + Last(data)]
  }

  function Print(e: Event): seq<string> {
    ["event: " + e.eventType] + DataLines(Split(e.data)) + [""]
  }

  function PrintAll(events: seq<Event>): seq<string> {
    if events == [] then [] else PrintAll(Init(events)) + Print(Last(events))
  }

  predicate Trimmed(s: string) {
    Trim(s) == s && OneLine(s)
  }

  /** What a stream can carry: a trimmed one-line name and trimmed data lines, not all blank. */
  predicate Printable(e: Event) {
    && Trimmed(e.eventType)
    && !Blank(e.data)
    && forall line | line in Split(e.data) :: Trim(line) == line
  }

  lemma DataField(value: string)
    requires Trim(value) == value
    ensures CodexField("data: " + value) == Data(value)
  {
    var line := "data: " + value;
    assert line[6..] == value;
    assert line[0] == 'd';
  }

  lemma NameField(name: string)
    requires Trim(name) == name
    ensures CodexField("event: " + name) == EventName(name)
  {
    assert ("event: " + name)[7..] == name;
  }

  lemma {:induction false} ParsedDataLines(lines: seq<string>, data: seq<string>)
    requires forall line | line in data :: Trim(line) == line
    ensures var p := Parsed(CodexField, lines);
      Parsed(CodexField, lines + DataLines(data)) == p.(buffered := p.buffered + data)
  {
    if data == [] {
      assert lines + DataLines(data) == lines;
    } else {
      var line := "data: " + Last(data);
      ParsedDataLines(lines, Init(data));
      ParsedNext(CodexField, lines + DataLines(Init(data)), line);
      Reassociate(lines, DataLines(Init(data)), [line]);
      DataField(Last(data));
      assert Init(data) + [Last(data)] == data;
      Reassociate(Parsed(CodexField, lines).buffered, Init(data), [Last(data)]);
    }
  }

  lemma Enclosed<T>(before: seq<T>, first: T, inside: seq<T>, last: T)
    ensures before + [first] + inside + [last] == before + ([first] + inside + [last])
  {
  }

  lemma ParsedPrint(lines: seq<string>, e: Event)
    requires Printable(e)
    requires Parsed(CodexField, lines).eventType == "" && Parsed(CodexField, lines).buffered == []
    ensures var p := Parsed(CodexField, lines);
      Parsed(CodexField, lines + Print(e)) == p.(events := p.events + [e])
  {
    var name, data := "event: " + e.eventType, Split(e.data);
    ParsedNext(CodexField, lines, name);
    NameField(e.eventType);
    ParsedDataLines(lines + [name], data);
    ParsedNext(CodexField, lines + [name] + DataLines(data), "");
    Enclosed(lines, name, DataLines(data), "");
    assert [] + data == data;
    JoinInvertsSplit(e.data);
  }

  lemma {:induction false} ParsedPrints(events: seq<Event>)
    requires forall e | e in events :: Printable(e)
    ensures Parsed(CodexField, PrintAll(events)) == Parsing("", [], events)
  {
    if events == [] {
    } else {
      ParsedPrints(Init(events));
      ParsedPrint(PrintAll(Init(events)), Last(events));
      assert Init(events) + [Last(events)] == events;
    }
  }

  /** A line can be written and scanned back. */
  predicate Plain(line: string) {
    OneLine(line) && DropCR(line) == line
  }

  lemma PlainAfterSpace(prefix: string, s: string)
    requires OneLine(prefix) && prefix != "" && Last(prefix) == ' ' && Trimmed(s)
    ensures Plain(prefix + s)
  {
    if s != "" {
      TrimLeftEmpties(s);
      TrimRightStops(TrimLeft(s));
      assert Last(prefix + s) == Last(s);
    }
  }

  lemma {:induction false} PlainDataLines(data: seq<string>)
    requires forall line | line in data :: Trimmed(line)
    ensures forall line | line in DataLines(data) :: Plain(line)
  {
    if data == [] {
    } else {
      PlainDataLines(Init(data));
      PlainAfterSpace("data: ", Last(data));
    }
  }

  lemma {:induction false} PlainPrints(events: seq<Event>)
    requires forall e | e in events :: Printable(e)
    ensures forall line | line in PrintAll(events) :: Plain(line)
  {
    if events == [] {
    } else {
      var e := Last(events);
      assert Printable(e);
      PlainPrints(Init(events));
      PlainAfterSpace("event: ", e.eventType);
      JoinInvertsSplit(e.data);
      PlainDataLines(Split(e.data));
    }
  }

  function Written(events: seq<Event>): string {
    TextOf(PrintAll(events))
  }

  /** Parsing inverts printing, for any printable events. */
  lemma ParseInvertsPrint(events: seq<Event>)
    requires forall e | e in events :: Printable(e)
    ensures Parsed(CodexField, ScanLines(Written(events))) == Parsing("", [], events)
  {
    PlainPrints(events);
    ScanInvertsText(PrintAll(events));
    ParsedPrints(events);
  }

  // ------------------------------------------------------------------------------------
  // Nothing else is ever parsed
  // ------------------------------------------------------------------------------------

  lemma {:induction false} TrimLeftIsSuffix(s: string)
    ensures forall c | c in TrimLeft(s) :: c in s
  {
    if s != "" && IsSpace(s[0]) {
      TrimLeftIsSuffix(s[1..]);
    }
  }

  lemma TrimIsTrimmed(s: string)
    requires OneLine(s)
    ensures Trimmed(Trim(s))
  {
    TrimIsIdempotent(s);
    TrimLeftIsSuffix(s);
    TrimRightStops(TrimLeft(s));
  }

  lemma CodexFieldIsTrimmed(line: string)
    requires OneLine(line)
    ensures CodexField(line).EventName? ==> Trimmed(CodexField(line).name)
    ensures CodexField(line).Data? ==> Trimmed(CodexField(line).value)
  {
    if "event: " <= line {
      TrimIsTrimmed(line[7..]);
    } else if "data: " <= line {
      TrimIsTrimmed(line[6..]);
    } else if "data:" <= line {
      TrimIsTrimmed(line[5..]);
    }
  }

  lemma {:induction false} OnlyPrintableIsParsed(lines: seq<string>)
    requires forall line | line in lines :: OneLine(line)
    ensures var p := Parsed(CodexField, lines);
      Trimmed(p.eventType) && forall line | line in p.buffered :: Trimmed(line)
    ensures forall e | e in Parsed(CodexField, lines).events :: Printable(e)
  {
    if lines == [] {
    } else {
      OnlyPrintableIsParsed(Init(lines));
      CodexFieldIsTrimmed(Last(lines));
      var p := Parsed(CodexField, Init(lines));
      if CodexField(Last(lines)).End? && !Blank(Join(p.buffered)) {
        SplitInvertsJoin(p.buffered);
        assert Printable(Event(p.eventType, Join(p.buffered)));
      }
    }
  }

  /** Whatever text comes in, writing out its events and parsing them again gives the same events:
      the printable events are exactly those a parse can deliver. */
  lemma ReprintedTextParsesTheSame(text: string)
    ensures var events := Parsed(CodexField, ScanLines(text)).events;
      Parsed(CodexField, ScanLines(Written(events))).events == events
  {
    ScannedLinesAreSingle(text);
    OnlyPrintableIsParsed(ScanLines(text));
    ParseInvertsPrint(Parsed(CodexField, ScanLines(text)).events);
  }
}
