/** When the two parsers of server-sent events deliver the same data. */
module SseAgreement {
  import opened Common
  import opened Text
  import opened Sse
  import opened SsePrinter

  predicate OneLiners(lines: seq<string>) {
    forall line | line in lines :: OneLine(line)
  }

  predicate HasData(line: string) { "data:" <= line }

  predicate HasSpace(line: string) { "data: " <= line }

  predicate AllSpaced(block: seq<string>) {
    forall line | line in block && HasData(line) :: HasSpace(line)
  }

  predicate AllBlank(block: seq<string>) {
    forall line | line in block && HasData(line) :: Blank(line[5..])
  }

  /** The data one block yields. */
  function BlockData(field: string -> Field, block: seq<string>): seq<string> {
    var data := Join(DataIn(field, block));
    if Blank(data) then [] else [data]
  }

  function AllData(field: string -> Field, blocks: seq<seq<string>>): seq<string> {
    if blocks == [] then [] else AllData(field, Init(blocks)) + BlockData(field, Last(blocks))
  }

  lemma {:induction false} PayloadsAreAllData(field: string -> Field, blocks: seq<seq<string>>)
    ensures Payloads(BlockEvents(field, blocks)) == AllData(field, blocks)
  {
    if blocks == [] {
    } else {
      PayloadsAreAllData(field, Init(blocks));
    }
  }

  // ------------------------------------------------------------------------------------
  // One block
  // ------------------------------------------------------------------------------------

  lemma FieldsOfLine(line: string)
    ensures CodexField(line).Data? <==> HasData(line)
    ensures GeminiField(line).Data? <==> HasSpace(line)
    ensures HasSpace(line) ==> HasData(line) && CodexField(line) == GeminiField(line)
    ensures HasData(line) ==> (Blank(CodexField(line).value) <==> Blank(line[5..]))
  {
    if HasSpace(line) {
      assert line[0] == 'd';
      assert line[5..] == [' '] + line[6..];
      BlankAfterSpace(line[6..]);
      TrimKeepsBlankness(line[6..]);
    } else if HasData(line) {
      assert line[0] == 'd';
      TrimKeepsBlankness(line[5..]);
    }
  }

  lemma BlankAfterSpace(s: string)
    ensures Blank([' '] + s) <==> Blank(s)
  {
    if Blank([' '] + s) {
      forall i | 0 <= i < |s| ensures IsSpace(s[i]) {
        assert s[i] == ([' '] + s)[i + 1];
      }
    }
  }

  lemma TrimKeepsBlankness(s: string)
    ensures Blank(Trim(s)) <==> Blank(s)
  {
    TrimEmptiesBlank(s);
    TrimEmptiesBlank(Trim(s));
    TrimIsIdempotent(s);
  }

  lemma BlankConcat(s: string, t: string)
    ensures Blank(s + t) <==> Blank(s) && Blank(t)
  {
    if Blank(s + t) {
      forall i | 0 <= i < |s| ensures IsSpace(s[i]) {
        assert s[i] == (s + t)[i];
      }
      forall i | 0 <= i < |t| ensures IsSpace(t[i]) {
        assert t[i] == (s + t)[|s| + i];
      }
    }
  }

  lemma {:induction false} BlankJoin(lines: seq<string>)
    ensures Blank(Join(lines)) <==> forall line | line in lines :: Blank(line)
  {
    if |lines| > 1 {
      BlankJoin(Init(lines));
      BlankConcat(Join(Init(lines)), "\n");
      BlankConcat(Join(Init(lines)) + "\n", Last(lines));
      assert Init(lines) + [Last(lines)] == lines;
    }
  }

  lemma {:induction false} BlankBlock(block: seq<string>)
    ensures AllBlank(block) <==> forall d | d in DataIn(CodexField, block) :: Blank(d)
    ensures AllBlank(block) ==> forall d | d in DataIn(GeminiField, block) :: Blank(d)
  {
    if block == [] {
    } else {
      var before, line := Init(block), Last(block);
      BlankBlock(before);
      FieldsOfLine(line);
      assert before + [line] == block;
      assert AllBlank(block) <==> AllBlank(before) && (HasData(line) ==> Blank(line[5..]));
    }
  }

  /** Gemini's parser sees some of the data lines, and all of them only if all are spaced. */
  lemma {:induction false} SeenLines(block: seq<string>)
    ensures |DataIn(GeminiField, block)| <= |DataIn(CodexField, block)|
    ensures AllSpaced(block) <==> |DataIn(GeminiField, block)| == |DataIn(CodexField, block)|
    ensures AllSpaced(block) ==> DataIn(GeminiField, block) == DataIn(CodexField, block)
  {
    if block == [] {
    } else {
      var before, line := Init(block), Last(block);
      SeenLines(before);
      FieldsOfLine(line);
      assert before + [line] == block;
      assert AllSpaced(block) <==> AllSpaced(before) && (HasData(line) ==> HasSpace(line));
    }
  }

  function Newlines(s: string): nat {
    if s == "" then 0 else Newlines(Init(s)) + if Last(s) == '\n' then 1 else 0
  }

  lemma {:induction false} NewlinesConcat(s: string, t: string)
    ensures Newlines(s + t) == Newlines(s) + Newlines(t)
  {
    if t == "" {
      assert s + t == s;
    } else {
      NewlinesConcat(s, Init(t));
      assert Init(s + t) == s + Init(t);
    }
  }

  lemma {:induction false} NoNewlines(s: string)
    requires OneLine(s)
    ensures Newlines(s) == 0
  {
    if s == "" {
    } else {
      NoNewlines(Init(s));
    }
  }

  lemma {:induction false} NewlinesOfJoin(lines: seq<string>)
    requires lines != [] && forall line | line in lines :: OneLine(line)
    ensures Newlines(Join(lines)) == |lines| - 1
  {
    NoNewlines(Last(lines));
    if |lines| > 1 {
      NewlinesOfJoin(Init(lines));
      NewlinesConcat(Join(Init(lines)), "\n");
      NewlinesConcat(Join(Init(lines)) + "\n", Last(lines));
      assert Newlines("\n") == 1;
    }
  }

  lemma {:induction false} DataIsOneLine(block: seq<string>)
    requires OneLiners(block)
    ensures forall d | d in DataIn(CodexField, block) :: OneLine(d)
    ensures forall d | d in DataIn(GeminiField, block) :: OneLine(d)
  {
    if block == [] {
    } else {
      DataIsOneLine(Init(block));
      FieldsOfLine(Last(block));
      CodexFieldIsTrimmed(Last(block));
    }
  }

  /** On one block: the same data exactly if every data line has the space, or all are blank. */
  lemma BlockAgreement(block: seq<string>)
    requires OneLiners(block)
    ensures BlockData(CodexField, block) == BlockData(GeminiField, block) <==> AllSpaced(block) || AllBlank(block)
    ensures |BlockData(GeminiField, block)| <= |BlockData(CodexField, block)|
  {
    var codex, gemini := DataIn(CodexField, block), DataIn(GeminiField, block);
    SeenLines(block);
    BlankBlock(block);
    BlankJoin(codex);
    BlankJoin(gemini);
    if !AllSpaced(block) && gemini != [] {
      DataIsOneLine(block);
      NewlinesOfJoin(codex);
      NewlinesOfJoin(gemini);
    }
  }

  // ------------------------------------------------------------------------------------
  // A whole stream
  // ------------------------------------------------------------------------------------

  predicate Agreeing(blocks: seq<seq<string>>) {
    forall b | b in blocks :: AllSpaced(b) || AllBlank(b)
  }

  lemma {:induction false} BlocksAgreement(blocks: seq<seq<string>>)
    requires forall b | b in blocks :: OneLiners(b)
    ensures |AllData(GeminiField, blocks)| <= |AllData(CodexField, blocks)|
    ensures AllData(CodexField, blocks) == AllData(GeminiField, blocks) <==> Agreeing(blocks)
  {
    if blocks == [] {
    } else {
      var before, block := Init(blocks), Last(blocks);
      BlocksAgreement(before);
      BlockAgreement(block);
      DataStep(before, block);
      AgreeingStep(before, block);
      InitAndLast(blocks);
    }
  }

  lemma DataStep(before: seq<seq<string>>, block: seq<string>)
    requires |AllData(GeminiField, before)| <= |AllData(CodexField, before)|
    requires |BlockData(GeminiField, block)| <= |BlockData(CodexField, block)|
    ensures var blocks := before + [block];
      && |AllData(GeminiField, blocks)| <= |AllData(CodexField, blocks)|
      && (AllData(CodexField, blocks) == AllData(GeminiField, blocks) <==>
          && AllData(CodexField, before) == AllData(GeminiField, before)
          && BlockData(CodexField, block) == BlockData(GeminiField, block))
  {
    assert Init(before + [block]) == before;
    EqualEnds(AllData(CodexField, before), BlockData(CodexField, block),
              AllData(GeminiField, before), BlockData(GeminiField, block));
  }

  lemma AgreeingStep(before: seq<seq<string>>, block: seq<string>)
    ensures Agreeing(before + [block]) <==> Agreeing(before) && (AllSpaced(block) || AllBlank(block))
  {
    assert (before + [block])[|before|] == block;
    assert forall b | b in before :: b in before + [block];
  }

  lemma EqualEnds<T>(a: seq<T>, x: seq<T>, b: seq<T>, y: seq<T>)
    requires |b| <= |a| && |y| <= |x|
    ensures a + x == b + y <==> a == b && x == y
  {
    if a + x == b + y {
      assert a == (a + x)[..|a|] && b == (b + y)[..|b|];
      assert x == (a + x)[|a|..] && y == (b + y)[|b|..];
    }
  }

  predicate SameData(lines: seq<string>) {
    Payloads(Parsed(CodexField, lines).events) == Payloads(Parsed(GeminiField, lines).events)
  }

  lemma {:induction false} BlocksAreOneLine(lines: seq<string>)
    requires OneLiners(lines)
    ensures OneLiners(Tail(lines))
    ensures forall b | b in Blocks(lines) :: OneLiners(b)
  {
    if lines == [] {
    } else {
      BlocksAreOneLine(Init(lines));
    }
  }

  /** On any text the parsers deliver the same data exactly if, in every block that a blank line
      ends, every data line has a space after its colon or no data line says anything. */
  lemma ParsersAgreeIff(text: string)
    ensures SameData(ScanLines(text)) <==> Agreeing(Blocks(ScanLines(text)))
  {
    var lines := ScanLines(text);
    BothEndAtEmpty();
    ParsedBlockByBlock(CodexField, lines);
    ParsedBlockByBlock(GeminiField, lines);
    PayloadsAreAllData(CodexField, Blocks(lines));
    PayloadsAreAllData(GeminiField, Blocks(lines));
    ScannedLinesAreSingle(text);
    BlocksAreOneLine(lines);
    BlocksAgreement(Blocks(lines));
  }

  lemma {:induction false} SpacedBlocksAgree(lines: seq<string>)
    requires AllSpaced(lines)
    ensures AllSpaced(Tail(lines)) && Agreeing(Blocks(lines))
  {
    if lines == [] {
    } else {
      SpacedBlocksAgree(Init(lines));
    }
  }

  /** In particular a stream whose every data line has the space is read alike. */
  lemma SpacedStreamsAgree(text: string)
    requires AllSpaced(ScanLines(text))
    ensures SameData(ScanLines(text))
  {
    SpacedBlocksAgree(ScanLines(text));
    ParsersAgreeIff(text);
  }
}
