/** The two parsers of server-sent events, on text that is split into lines. */
module Sse {
  import opened Common
  import opened Text

  /** Gemini events have no name; their eventType is "". */
  datatype Event = Event(eventType: string, data: string)

  datatype Outcome = Finished | Refused | Cancelled | ReadFailed

  /** What one line says to a parser. */
  datatype Field = EventName(name: string) | Data(value: string) | End | Ignored

  function CodexField(line: string): Field {
    if "event: " <= line then EventName(Trim(line[7..]))
    else if "data: " <= line then Data(Trim(line[6..]))
    else if "data:" <= line then Data(Trim(line[5..]))
    else if line == "" then End
    else Ignored
  }

  function GeminiField(line: string): Field {
    if "data: " <= line then Data(Trim(line[6..]))
    else if line == "" then End
    else Ignored
  }

  predicate StartsWith(line: string, prefix: string) {
    |prefix| <= |line| && forall i | 0 <= i < |prefix| :: line[i] == prefix[i]
  }

  /** The rest of a line behind its first n characters, without white space around it. */
  predicate IsRest(value: string, line: string, n: nat) {
    n <= |line| && value == Trim(line[n..])
  }

  /** How each parser reads a line. A data line of the Codex parser needs no space behind the colon, and one
      space there or more are trimmed alike; names are Codex's only. */
  lemma LinesAreRead(line: string)
    ensures var c, g := CodexField(line), GeminiField(line);
      && (c.EventName? <==> StartsWith(line, "event: ")) && (c.EventName? ==> IsRest(c.name, line, 7))
      && (c.Data? <==> StartsWith(line, "data:")) && (c.Data? ==> IsRest(c.value, line, 5))
      && (g.Data? <==> StartsWith(line, "data: ")) && (g.Data? ==> IsRest(g.value, line, 6))
      && !g.EventName? && (c.End? <==> |line| == 0) && (g.End? <==> |line| == 0)
  {
    if "data: " <= line {
      assert line[5] == ' ' && line[5..] == [' '] + line[6..];
      assert TrimLeft(line[5..]) == TrimLeft(line[6..]);
    }
    assert "event: "[0] == 'e' && "data:"[0] == 'd' && "data: "[0] == 'd';
  }

  /** Joins with one newline between neighbours, as strings.Join does. */
  function Join(lines: seq<string>): string {
    if |lines| == 0 then "" else if |lines| == 1 then lines[0] else Join(Init(lines)) + "\n" + Last(lines)
  }

  /** The event that a blank line ends, or none if its data is blank. */
  function Ended(eventType: string, buffered: seq<string>): seq<Event> {
    if Blank(Join(buffered)) then [] else [Event(eventType, Join(buffered))]
  }

  datatype Parsing = Parsing(eventType: string, buffered: seq<string>, events: seq<Event>)

  function Step(p: Parsing, f: Field): Parsing {
    match f
    case EventName(name) => p.(eventType := name)
    case Data(value) => p.(buffered := p.buffered + [value])
    case End => Parsing("", [], p.events + Ended(p.eventType, p.buffered))
    case Ignored => p
  }

  function Parsed(field: string -> Field, lines: seq<string>): Parsing {
    if lines == [] then Parsing("", [], []) else Step(Parsed(field, Init(lines)), field(Last(lines)))
  }

  function Payloads(events: seq<Event>): seq<string> {
    seq(|events|, i requires 0 <= i < |events| => events[i].data)
  }

  lemma ParsedNext(field: string -> Field, lines: seq<string>, line: string)
    ensures Parsed(field, lines + [line]) == Step(Parsed(field, lines), field(line))
  {
    assert Init(lines + [line]) == lines;
  }

  lemma {:induction false} EventsGrow(field: string -> Field, lines: seq<string>, n: nat)
    requires n <= |lines|
    ensures Parsed(field, lines[..n]).events <= Parsed(field, lines).events
  {
    if n == |lines| {
      assert lines[..n] == lines;
    } else {
      EventsGrow(field, Init(lines), n);
      assert Init(lines)[..n] == lines[..n];
    }
  }

  // ------------------------------------------------------------------------------------
  // The parsers
  // ------------------------------------------------------------------------------------

  /** What the callback was given, out of all there was to give: everything up to and including
      the first item it refuses. */
  predicate Handed<T(==, !new)>(accepts: (seq<T>, T) -> bool, all: seq<T>, given: seq<T>, refused: bool) {
    && given <= all
    && (refused ==> given != [] && AllAccepted(accepts, Init(given)) && !accepts(Init(given), Last(given)))
    && (!refused ==> given == all && AllAccepted(accepts, given))
  }

  /** The lines read when the context is alive for the first `alive` of them only. */
  function Read(lines: seq<string>, alive: nat): (r: seq<string>)
    ensures r <= lines && |r| <= alive && (|r| == alive || r == lines)
  {
    if alive < |lines| then lines[..alive] else lines
  }

  lemma HandedUpToRefusal<T(!new)>(accepts: (seq<T>, T) -> bool, all: seq<T>, before: seq<T>, item: T)
    requires AllAccepted(accepts, before) && !accepts(before, item) && before + [item] <= all
    ensures Handed(accepts, all, before + [item], true)
  {
    assert Init(before + [item]) == before;
  }

  lemma EventsSoFar(field: string -> Field, lines: seq<string>, alive: nat, n: nat)
    requires n <= |lines| && n <= alive
    ensures Parsed(field, lines[..n]).events <= Parsed(field, Read(lines, alive)).events
  {
    EventsGrow(field, Read(lines, alive), n);
    assert Read(lines, alive)[..n] == lines[..n];
  }

  method CodexParse(lines: seq<string>, alive: nat, readFails: bool, onEvent: (seq<Event>, Event) -> bool)
    returns (given: seq<Event>, outcome: Outcome)
    ensures Handed(onEvent, Parsed(CodexField, Read(lines, alive)).events, given, outcome == Refused)
    ensures outcome != Refused ==>
      outcome == if alive < |lines| then Cancelled else if readFails then ReadFailed else Finished
  {
    var eventType, bufferedLines := "", [];
    given := [];
    for i := 0 to |lines|
      invariant i <= alive
      invariant Parsed(CodexField, lines[..i]) == Parsing(eventType, bufferedLines, given)
      invariant AllAccepted(onEvent, given)
    {
      if i == alive {
        return given, Cancelled;
      }
      var line := lines[i];
      ParsedNext(CodexField, lines[..i], line);
      TakeNext(lines, i);
      if "event: " <= line {
        eventType := Trim(line[7..]);
        continue;
      }
      if "data: " <= line {
        bufferedLines := bufferedLines + [Trim(line[6..])];
        continue;
      }
      if "data:" <= line {
        bufferedLines := bufferedLines + [Trim(line[5..])];
        continue;
      }
      if line == "" {
        if |bufferedLines| == 0 {
          eventType := "";
          continue;
        }
        var chunk := Join(bufferedLines);
        bufferedLines := [];
        TrimEmptiesBlank(chunk);
        if Trim(chunk) == "" {
          eventType := "";
          continue;
        }
        var event := Event(eventType, chunk);
        AllAcceptedNext(onEvent, given, event);
        var accepted := onEvent(given, event);
        if !accepted {
          EventsSoFar(CodexField, lines, alive, i + 1);
          HandedUpToRefusal(onEvent, Parsed(CodexField, Read(lines, alive)).events, given, event);
          return given + [event], Refused;
        }
        given := given + [event];
        eventType := "";
        continue;
      }
    }
    assert lines[..|lines|] == lines;
    outcome := if readFails then ReadFailed else Finished;
  }

  lemma PayloadsNext(events: seq<Event>, e: Event)
    ensures Payloads(events + [e]) == Payloads(events) + [e.data]
  {
  }

  lemma PayloadsOfPrefix(some: seq<Event>, all: seq<Event>)
    requires some <= all
    ensures Payloads(some) <= Payloads(all)
  {
  }

  lemma DataRefused(lines: seq<string>, alive: nat, onEvent: (seq<string>, string) -> bool, i: nat,
                    given: seq<string>, chunk: string)
    requires i < |lines| && i < alive && Payloads(Parsed(GeminiField, lines[..i + 1]).events) == given + [chunk]
    requires AllAccepted(onEvent, given) && !onEvent(given, chunk)
    ensures Handed(onEvent, Payloads(Parsed(GeminiField, Read(lines, alive)).events), given + [chunk], true)
  {
    EventsSoFar(GeminiField, lines, alive, i + 1);
    PayloadsOfPrefix(Parsed(GeminiField, lines[..i + 1]).events, Parsed(GeminiField, Read(lines, alive)).events);
    HandedUpToRefusal(onEvent, Payloads(Parsed(GeminiField, Read(lines, alive)).events), given, chunk);
  }

  method GeminiParse(lines: seq<string>, alive: nat, readFails: bool, onEvent: (seq<string>, string) -> bool)
    returns (given: seq<string>, outcome: Outcome)
    ensures Handed(onEvent, Payloads(Parsed(GeminiField, Read(lines, alive)).events), given, outcome == Refused)
    ensures outcome != Refused ==>
      outcome == if alive < |lines| then Cancelled else if readFails then ReadFailed else Finished
  {
    var bufferedLines := [];
    given := [];
    ghost var events: seq<Event> := [];
    for i := 0 to |lines|
      invariant i <= alive
      invariant Parsed(GeminiField, lines[..i]) == Parsing("", bufferedLines, events)
      invariant given == Payloads(events) && AllAccepted(onEvent, given)
    {
      if i == alive {
        assert Read(lines, alive) == lines[..i];
        return given, Cancelled;
      }
      var line := lines[i];
      ParsedNext(GeminiField, lines[..i], line);
      TakeNext(lines, i);
      assert Parsed(GeminiField, lines[..i + 1]) == Step(Parsing("", bufferedLines, events), GeminiField(line));
      if "data: " <= line {
        bufferedLines := bufferedLines + [Trim(line[6..])];
        continue;
      }
      if line == "" {
        if |bufferedLines| == 0 {
          continue;
        }
        var chunk := Join(bufferedLines);
        bufferedLines := [];
        TrimEmptiesBlank(chunk);
        if Trim(chunk) == "" {
          continue;
        }
        AllAcceptedNext(onEvent, given, chunk);
        PayloadsNext(events, Event("", chunk));
        events := events + [Event("", chunk)];
        var accepted := onEvent(given, chunk);
        if !accepted {
          DataRefused(lines, alive, onEvent, i, given, chunk);
          return given + [chunk], Refused;
        }
        given := given + [chunk];
        continue;
      }
    }
    assert Read(lines, alive) == lines == lines[..|lines|];
    outcome := if readFails then ReadFailed else Finished;
  }

  // ------------------------------------------------------------------------------------
  // Blank lines separate events completely
  // ------------------------------------------------------------------------------------

  /** Both parsers end an event at an empty line, and only there. */
  ghost predicate EndsAtEmpty(field: string -> Field) {
    forall line :: field(line) == End <==> line == ""
  }

  lemma BothEndAtEmpty()
    ensures EndsAtEmpty(CodexField) && EndsAtEmpty(GeminiField)
  {
  }

  /** Nothing crosses a blank line: what comes after it is parsed as if it stood alone. */
  lemma {:induction false} BlankLineResets(field: string -> Field, before: seq<string>, after: seq<string>)
    requires EndsAtEmpty(field)
    ensures var all, alone := Parsed(field, before + [""] + after), Parsed(field, after);
      all == alone.(events := Parsed(field, before + [""]).events + alone.events)
  {
    ParsedNext(field, before, "");
    if after == [] {
      assert before + [""] + after == before + [""];
    } else {
      BlankLineResets(field, before, Init(after));
      InitOfConcat(before + [""], after);
      var reset, step := Parsed(field, before + [""]).events, Parsed(field, Init(after));
      Reassociate(reset, step.events, Ended(step.eventType, step.buffered));
    }
  }

  /** The lines after the last blank line yield no event. */
  lemma {:induction false} UnterminatedIsDiscarded(field: string -> Field, lines: seq<string>, rest: seq<string>)
    requires EndsAtEmpty(field) && "" !in rest
    ensures Parsed(field, lines + rest).events == Parsed(field, lines).events
  {
    if rest == [] {
      assert lines + rest == lines;
    } else {
      UnterminatedIsDiscarded(field, lines, Init(rest));
      InitOfConcat(lines, rest);
    }
  }

  // ------------------------------------------------------------------------------------
  // Events, block by block
  // ------------------------------------------------------------------------------------

  /** The lines since the last blank line. */
  function Tail(lines: seq<string>): seq<string> {
    if lines == [] || Last(lines) == "" then [] else Tail(Init(lines)) + [Last(lines)]
  }

  /** The groups of lines that a blank line ends. */
  function Blocks(lines: seq<string>): seq<seq<string>> {
    if lines == [] then []
    else if Last(lines) == "" then Blocks(Init(lines)) + [Tail(Init(lines))]
    else Blocks(Init(lines))
  }

  function Closed(blocks: seq<seq<string>>): seq<string> {
    if blocks == [] then [] else Closed(Init(blocks)) + Last(blocks) + [""]
  }

  lemma ClosedNext(blocks: seq<seq<string>>, block: seq<string>)
    ensures Closed(blocks + [block]) == Closed(blocks) + block + [""]
  {
    assert Init(blocks + [block]) == blocks;
  }

  /** The blocks, each with the blank line that ends it, and the tail make up the lines. */
  lemma {:induction false} BlocksCover(lines: seq<string>)
    ensures Closed(Blocks(lines)) + Tail(lines) == lines
    ensures "" !in Tail(lines) && forall b | b in Blocks(lines) :: "" !in b
  {
    if lines == [] {
    } else {
      var before, line := Init(lines), Last(lines);
      BlocksCover(before);
      assert before + [line] == lines;
      if line == "" {
        ClosedNext(Blocks(before), Tail(before));
      } else {
        Reassociate(Closed(Blocks(before)), Tail(before), [line]);
      }
    }
  }

  /** The last event name in a block. */
  function NameIn(field: string -> Field, block: seq<string>): string {
    if block == [] then ""
    else if field(Last(block)).EventName? then field(Last(block)).name
    else NameIn(field, Init(block))
  }

  /** The data lines of a block. */
  function DataIn(field: string -> Field, block: seq<string>): seq<string> {
    if block == [] then []
    else DataIn(field, Init(block)) + if field(Last(block)).Data? then [field(Last(block)).value] else []
  }

  function BlockEvents(field: string -> Field, blocks: seq<seq<string>>): seq<Event> {
    if blocks == [] then []
    else
      var block := Last(blocks);
      BlockEvents(field, Init(blocks)) + Ended(NameIn(field, block), DataIn(field, block))
  }

  /** One pass over the lines finds, for each block, the last name and all the data of that block
      alone; blocks without data, and the tail, yield nothing. */
  lemma {:induction false} ParsedBlockByBlock(field: string -> Field, lines: seq<string>)
    requires EndsAtEmpty(field)
    ensures Parsed(field, lines) ==
      Parsing(NameIn(field, Tail(lines)), DataIn(field, Tail(lines)), BlockEvents(field, Blocks(lines)))
  {
    if lines == [] {
    } else {
      var before, line := Init(lines), Last(lines);
      ParsedBlockByBlock(field, before);
      if line == "" {
        assert Init(Blocks(lines)) == Blocks(before);
      } else {
        assert Init(Tail(lines)) == Tail(before);
      }
    }
  }
}
