/** The tools of a Kiro request: unusable ones left out, names and descriptions cut to size. */
module KiroTools {
  import opened Common
  import opened Utf8
  import Text

  const MAX_DESCRIPTION := 10237
  const MAX_NAME := 64

  /** Text is bytes, as Go's strings are; the constants here are all ASCII. */
  function Ascii(s: string): (b: Bytes)
    ensures |b| == |s|
    ensures forall i | 0 <= i < |s| :: b[i] < 0x80 && (s[i] < '\U{80}' ==> b[i] == s[i] as int)
  {
    seq(|s|, i requires 0 <= i < |s| => if s[i] < '\U{80}' then s[i] as int else 0x3F)
  }

  const TRUNCATED := Ascii("... (description truncated)")
  const MCP := Ascii("mcp__")
  const TOOL_COLON := Ascii("Tool: ")
  const WEB_SEARCH: Bytes := Ascii("web_search")
  const WEBSEARCH: Bytes := Ascii("websearch")

  /** The schema conversion is not looked into. */
  datatype Schema<P> = NoProperties | Converted(parameters: P)

  datatype Tool<P> = Tool(name: Bytes, description: Bytes, parameters: P)

  datatype KiroTool<P> = KiroTool(name: Bytes, description: Bytes, schema: Schema<P>)

  const PLACEHOLDER_TEXT :=
    "This is a placeholder tool when no other tools are available." + " It does nothing."

  const PLACEHOLDER_NAME: Bytes := Ascii("no_tool_available")
  const PLACEHOLDER_DESCRIPTION: Bytes := Ascii(PLACEHOLDER_TEXT)

  function Placeholder<P>(): KiroTool<P> {
    KiroTool(PLACEHOLDER_NAME, PLACEHOLDER_DESCRIPTION, NoProperties)
  }

  // ------------------------------------------------------------------------------------
  // White space in bytes
  // ------------------------------------------------------------------------------------

  /** How many bytes the white space takes that s begins with. */
  function SpaceWidth(s: Bytes): (n: nat)
    ensures n <= |s|
  {
    if |s| >= 1 && (s[0] == 0x20 || 0x09 <= s[0] <= 0x0D) then 1
    else if |s| >= 2 && s[0] == 0xC2 && s[1] in {0x85, 0xA0} then 2
    else if |s| >= 3 && s[0] == 0xE1 && s[1] == 0x9A && s[2] == 0x80 then 3
    else if |s| >= 3 && s[0] == 0xE2 && s[1] == 0x80 && (0x80 <= s[2] <= 0x8A || s[2] in {0xA8, 0xA9, 0xAF}) then 3
    else if |s| >= 3 && s[0] == 0xE2 && s[1] == 0x81 && s[2] == 0x9F then 3
    else if |s| >= 3 && s[0] == 0xE3 && s[1] == 0x80 && s[2] == 0x80 then 3
    else 0
  }

  predicate Blank(s: Bytes)
    decreases |s|
  {
    s == [] || (SpaceWidth(s) > 0 && Blank(s[SpaceWidth(s)..]))
  }

  /** The UTF-8 octets of a character below U+10000, as white space all is. */
  function Encoded(c: char): Bytes
    requires c as int < 0x10000
  {
    var n := c as int;
    if n < 0x80 then [n]
    else if n < 0x800 then [0xC0 + n / 64, 0x80 + n % 64]
    else [0xE0 + n / 4096, 0x80 + n / 64 % 64, 0x80 + n % 64]
  }

  /** The character of three octets. */
  function Decoded(a: byte, b: byte, c: byte): int {
    (a - 0xE0) * 4096 + (b - 0x80) * 64 + c - 0x80
  }

  /** White space in bytes is the encoding of white space, of the same characters. */
  lemma SpaceIsEncoded(s: Bytes) returns (c: char)
    requires SpaceWidth(s) > 0
    ensures Text.IsSpace(c) && c as int < 0x10000 && s[..SpaceWidth(s)] == Encoded(c)
  {
    if SpaceWidth(s) == 1 {
      c := s[0] as char;
    } else if SpaceWidth(s) == 2 {
      c := s[1] as char;
    } else {
      c := Decoded(s[0], s[1], s[2]) as char;
    }
  }

  lemma EncodedIsSpace(c: char, rest: Bytes)
    requires Text.IsSpace(c)
    ensures c as int < 0x10000 && SpaceWidth(Encoded(c) + rest) == |Encoded(c)|
  {
  }

  /** Some text of white space, encoded. */
  function EncodedAll(text: string): Bytes
    requires Text.Blank(text)
  {
    if text == "" then []
    else
      assert Text.IsSpace(text[0]);
      Encoded(text[0]) + EncodedAll(text[1..])
  }

  lemma {:induction false} BlankIsSpaces(s: Bytes) returns (text: string)
    requires Blank(s)
    ensures Text.Blank(text) && s == EncodedAll(text)
    decreases |s|
  {
    if s == [] {
      text := "";
    } else {
      var c := SpaceIsEncoded(s);
      var rest := BlankIsSpaces(s[SpaceWidth(s)..]);
      text := [c] + rest;
      assert text[1..] == rest && s == s[..SpaceWidth(s)] + s[SpaceWidth(s)..];
    }
  }

  lemma {:induction false} SpacesAreBlank(text: string)
    requires Text.Blank(text)
    ensures Blank(EncodedAll(text))
  {
    if text == "" {
    } else {
      assert Text.IsSpace(text[0]);
      EncodedIsSpace(text[0], EncodedAll(text[1..]));
      SpacesAreBlank(text[1..]);
      assert EncodedAll(text)[|Encoded(text[0])|..] == EncodedAll(text[1..]);
    }
  }

  predicate Printing(b: byte) { 0x21 <= b <= 0x7E }

  lemma {:induction false} PrintingIsNotBlank(s: Bytes, i: nat)
    requires i < |s| && Printing(s[i])
    ensures !Blank(s)
    decreases |s|
  {
    var w := SpaceWidth(s);
    if w == 0 || i < w {
    } else {
      PrintingIsNotBlank(s[w..], i - w);
    }
  }

  // ------------------------------------------------------------------------------------
  // Names
  // ------------------------------------------------------------------------------------

  predicate IsMcp(name: Bytes) {
    MCP <= name
  }

  /** The index of the last "__" that begins before n. */
  function LastUnderscores(name: Bytes, n: nat): (i: Option<nat>)
    requires n < |name|
    ensures i.Some? ==> i.value < n && name[i.value] == name[i.value + 1] == 0x5F
    ensures forall j | (if i.Some? then i.value + 1 else 0) <= j < n :: name[j] != 0x5F || name[j + 1] != 0x5F
  {
    if n == 0 then None
    else if name[n - 1] == name[n] == 0x5F then Some(n - 1)
    else LastUnderscores(name, n - 1)
  }

  /** A long MCP name keeps its prefix and its last segment. */
  function Candidate(name: Bytes): Bytes
    requires |name| > MAX_NAME
  {
    var i := LastUnderscores(name, |name| - 1);
    if IsMcp(name) && i.Some? && i.value > 0 then MCP + name[i.value + 2..] else name
  }

  function Shortened(name: Bytes): Bytes {
    if |name| <= MAX_NAME then name
    else
      var candidate := Candidate(name);
      if |candidate| > MAX_NAME then candidate[..MAX_NAME] else candidate
  }

  // ------------------------------------------------------------------------------------
  // Tools
  // ------------------------------------------------------------------------------------

  function Lower(s: Bytes): Bytes {
    seq(|s|, i requires 0 <= i < |s| => if 0x41 <= s[i] <= 0x5A then s[i] + 0x20 else s[i])
  }

  predicate Usable<P>(t: Tool<P>) {
    t.name != [] && Lower(t.name) != WEB_SEARCH && Lower(t.name) != WEBSEARCH
  }

  function UsableTools<P>(tools: seq<Tool<P>>): seq<Tool<P>> {
    if tools == [] then []
    else UsableTools(Init(tools)) + if Usable(Last(tools)) then [Last(tools)] else []
  }

  function CutDescription(text: Bytes): Bytes {
    if |text| <= MAX_DESCRIPTION then text else text[..Cut(text, MAX_DESCRIPTION - 30)] + TRUNCATED
  }

  function Described<P>(t: Tool<P>): Bytes {
    if Blank(t.description) then TOOL_COLON + Shortened(t.name) else t.description
  }

  function Built<P>(t: Tool<P>): KiroTool<P> {
    KiroTool(Shortened(t.name), CutDescription(Described(t)), Converted(t.parameters))
  }

  function BuiltAll<P>(tools: seq<Tool<P>>): (built: seq<KiroTool<P>>)
    ensures |built| == |tools|
  {
    if tools == [] then [] else BuiltAll(Init(tools)) + [Built(Last(tools))]
  }

  function KiroToolsOf<P>(tools: seq<Tool<P>>): seq<KiroTool<P>> {
    var usable := UsableTools(tools);
    if usable == [] then [Placeholder()] else BuiltAll(usable)
  }

  lemma CutFrom(s: Bytes, n: nat, i: nat)
    requires n < |s| && i <= n
    requires (i == 0 || RuneStart(s[i])) && forall j | i < j <= n :: Tail(s[j])
    ensures Cut(s, n) == i
  {
  }

  method CutToSize(text: Bytes) returns (desc: Bytes)
    ensures desc == CutDescription(text)
  {
    desc := text;
    if |desc| > MAX_DESCRIPTION {
      var truncLen := MAX_DESCRIPTION - 30;
      while truncLen > 0 && !RuneStart(desc[truncLen])
        invariant 0 <= truncLen <= MAX_DESCRIPTION - 30
        invariant forall j | truncLen < j <= MAX_DESCRIPTION - 30 :: Tail(desc[j])
      {
        truncLen := truncLen - 1;
      }
      CutFrom(desc, MAX_DESCRIPTION - 30, truncLen);
      desc := desc[..truncLen] + TRUNCATED;
    }
  }

  method FilterTools<P>(tools: seq<Tool<P>>) returns (filtered: seq<Tool<P>>)
    ensures filtered == UsableTools(tools)
  {
    filtered := [];
    for i := 0 to |tools|
      invariant filtered == UsableTools(tools[..i])
    {
      var tool := tools[i];
      assert Init(tools[..i + 1]) == tools[..i];
      if tool.name == [] {
        continue;
      }
      var name := Lower(tool.name);
      if name == WEB_SEARCH || name == WEBSEARCH {
        continue;
      }
      filtered := filtered + [tool];
    }
    assert tools[..|tools|] == tools;
  }

  method BuildEach<P>(filtered: seq<Tool<P>>) returns (built: seq<KiroTool<P>>)
    ensures built == BuiltAll(filtered)
  {
    built := [];
    for i := 0 to |filtered|
      invariant |built| == i && built == BuiltAll(filtered[..i])
    {
      var tool := filtered[i];
      assert Init(filtered[..i + 1]) == filtered[..i];
      var name := Shortened(tool.name);
      var desc := tool.description;
      if Blank(desc) {
        desc := TOOL_COLON + name;
      }
      desc := CutToSize(desc);
      built := built + [KiroTool(name, desc, Converted(tool.parameters))];
    }
    assert filtered[..|filtered|] == filtered;
  }

  method BuildKiroTools<P>(tools: seq<Tool<P>>) returns (built: seq<KiroTool<P>>)
    ensures built == KiroToolsOf(tools)
  {
    if |tools| == 0 {
      return [Placeholder()];
    }
    var filtered := FilterTools(tools);
    if |filtered| == 0 {
      return [Placeholder()];
    }
    built := BuildEach(filtered);
  }

  // ------------------------------------------------------------------------------------
  // What is promised of them
  // ------------------------------------------------------------------------------------

  lemma {:induction false} AsciiIsValid(s: Bytes)
    requires forall i | 0 <= i < |s| :: s[i] < 0x80
    ensures Valid(s)
    decreases |s|
  {
    if s == [] {
    } else {
      WidthIsUnique(s, 1);
      AsciiIsValid(s[1..]);
    }
  }

  /** A description over the limit becomes valid UTF-8 within the limit: it keeps the longest prefix
      of at most 10207 bytes that ends between code points, losing at most three bytes to that. */
  lemma CutDescriptionIsSafe(text: Bytes)
    requires Valid(text) && |text| > MAX_DESCRIPTION
    ensures var kept := |CutDescription(text)| - |TRUNCATED|;
      && MAX_DESCRIPTION - 33 <= kept <= MAX_DESCRIPTION - 30
      && CutDescription(text) == text[..kept] + TRUNCATED
      && Boundary(text, kept)
      && forall j | kept < j <= MAX_DESCRIPTION - 30 :: !Boundary(text, j)
    ensures Valid(CutDescription(text))
  {
    var kept := Cut(text, MAX_DESCRIPTION - 30);
    CutIsLastBoundary(text, MAX_DESCRIPTION - 30);
    PrefixIsValidIff(text, kept);
    AsciiIsValid(TRUNCATED);
    ValidConcat(text[..kept], TRUNCATED);
  }

  /** Long MCP names are cut behind ASCII bytes only, so what is left to cut is still valid. */
  lemma CandidateIsValid(name: Bytes)
    requires Valid(name) && |name| > MAX_NAME
    ensures Valid(Candidate(name)) && Candidate(name) != []
  {
    var i := LastUnderscores(name, |name| - 1);
    if IsMcp(name) && i.Some? && i.value > 0 {
      var segment := name[i.value + 2..];
      if segment != [] {
        AfterAscii(name, i.value + 1);
      }
      AsciiIsValid(MCP);
      ValidConcat(MCP, segment);
    }
  }

  lemma {:induction false} AfterAscii(s: Bytes, i: nat)
    requires Valid(s) && i < |s| && s[i] < 0x80
    ensures Boundary(s, i + 1) && Valid(s[i + 1..])
    decreases |s|
  {
    var w := Width(s);
    if w <= i {
      AfterAscii(s[w..], i - w);
      assert s[w..][i - w + 1..] == s[i + 1..];
    } else {
      assert i == 0;
    }
  }

  /** A name never exceeds 64 bytes, and one that fits is not changed. A long MCP name begins and, if
      its last segment has at most 59 bytes, ends as before. */
  lemma ShortenedFits(name: Bytes)
    ensures |Shortened(name)| <= MAX_NAME
    ensures Shortened(name) == name <==> |name| <= MAX_NAME
    ensures IsMcp(name) ==> IsMcp(Shortened(name))
    ensures name != [] ==> Shortened(name) != []
  {
    if |name| > MAX_NAME && IsMcp(name) {
      assert MCP <= Candidate(name);
    }
  }

  lemma McpKeepsLastSegment(name: Bytes, segment: Bytes, before: Bytes)
    requires name == before + Ascii("__") + segment && IsMcp(before + Ascii("__"))
    requires |name| > MAX_NAME && |segment| <= MAX_NAME - |MCP|
    requires forall j | 0 <= j < |segment| - 1 :: segment[j] != 0x5F || segment[j + 1] != 0x5F
    requires segment != [] ==> segment[0] != 0x5F
    ensures Shortened(name) == MCP + segment
  {
    var at := |before|;
    assert name[at] == 0x5F && name[at + 1] == 0x5F;
    assert name[at + 2..] == segment;
    forall j | at < j < |name| - 1 ensures name[j] != 0x5F || name[j + 1] != 0x5F {
      if j >= at + 2 {
        assert name[j] == segment[j - at - 2] && name[j + 1] == segment[j - at - 1];
      }
    }
  }

  /** Names are cut by bytes: of a valid name a valid one remains exactly if no code point is cut. */
  lemma ShortenedIsValidIff(name: Bytes)
    requires Valid(name)
    ensures Valid(Shortened(name)) <==>
      |name| <= MAX_NAME || |Candidate(name)| <= MAX_NAME || RuneStart(Candidate(name)[MAX_NAME])
  {
    if |name| > MAX_NAME {
      var candidate := Candidate(name);
      CandidateIsValid(name);
      if |candidate| > MAX_NAME {
        PrefixIsValidIff(candidate, MAX_NAME);
        BoundaryIffStart(candidate, MAX_NAME);
      }
    }
  }

  lemma DescriptionIsSaid<P>(t: Tool<P>)
    ensures !Blank(CutDescription(Described(t)))
    ensures |CutDescription(Described(t))| <= MAX_DESCRIPTION
  {
    var text := Described(t);
    if |text| > MAX_DESCRIPTION {
      PrintingIsNotBlank(CutDescription(text), |CutDescription(text)| - 1);
    } else if Blank(t.description) {
      PrintingIsNotBlank(text, 0);
    }
  }

  predicate Acceptable<P>(t: KiroTool<P>) {
    t.name != [] && |t.name| <= MAX_NAME && !Blank(t.description) && |t.description| <= MAX_DESCRIPTION
  }

  lemma {:induction false} BuiltAreAcceptable<P>(tools: seq<Tool<P>>)
    requires forall t | t in tools :: t.name != []
    ensures forall t | t in BuiltAll(tools) :: Acceptable(t)
  {
    if tools == [] {
    } else {
      BuiltAreAcceptable(Init(tools));
      ShortenedFits(Last(tools).name);
      DescriptionIsSaid(Last(tools));
    }
  }

  lemma {:induction false} UsableAreNamed<P>(tools: seq<Tool<P>>)
    ensures forall t | t in UsableTools(tools) :: t in tools && Usable(t)
  {
    if tools == [] {
    } else {
      UsableAreNamed(Init(tools));
    }
  }

  /** Whatever the caller's tools are, the request has at least one, and each meets the API's limits. */
  lemma EveryToolIsAcceptable<P>(tools: seq<Tool<P>>)
    ensures KiroToolsOf(tools) != []
    ensures forall t | t in KiroToolsOf(tools) :: Acceptable(t)
  {
    UsableAreNamed(tools);
    BuiltAreAcceptable(UsableTools(tools));
    var last := |PLACEHOLDER_TEXT| - 1;
    assert PLACEHOLDER_TEXT[last] == '.';
    PrintingIsNotBlank(PLACEHOLDER_DESCRIPTION, last);
  }

  // ------------------------------------------------------------------------------------
  // Names that become the same
  // ------------------------------------------------------------------------------------

  function Front(s: Bytes, n: nat): Bytes {
    if |s| <= n then s else s[..n]
  }

  lemma McpHasUnderscores(name: Bytes)
    requires IsMcp(name)
    ensures LastUnderscores(name, |name| - 1).Some? && LastUnderscores(name, |name| - 1).value >= 3
  {
    assert MCP[3] == 0x5F && MCP[4] == 0x5F;
    assert name[3] == 0x5F && name[4] == 0x5F;
  }

  /** What follows the last "__" of an MCP name. */
  function Segment(name: Bytes): Bytes
    requires IsMcp(name)
  {
    McpHasUnderscores(name);
    name[LastUnderscores(name, |name| - 1).value + 2..]
  }

  /** What a long name is sent as. */
  function Abbreviated(name: Bytes): Bytes
    requires |name| > MAX_NAME
  {
    if IsMcp(name) then MCP + Front(Segment(name), MAX_NAME - |MCP|) else name[..MAX_NAME]
  }

  lemma ShortenedIsAbbreviated(name: Bytes)
    requires |name| > MAX_NAME
    ensures Shortened(name) == Abbreviated(name)
  {
    if IsMcp(name) {
      McpHasUnderscores(name);
      assert Candidate(name) == MCP + Segment(name);
      FrontOfConcat(MCP, Segment(name), MAX_NAME);
    }
  }

  lemma FrontOfConcat(a: Bytes, s: Bytes, n: nat)
    requires |a| <= n
    ensures Front(a + s, n) == a + Front(s, n - |a|)
  {
  }

  /** Two different names that are sent as one: both are long and agree in the first 64 bytes, or are of
      MCP tools whose last segments agree in their first 59 bytes; or one is short and the other is cut
      to just that. */
  predicate SentAlike(a: Bytes, b: Bytes) {
    if |a| > MAX_NAME && |b| > MAX_NAME then
      && (IsMcp(a) <==> IsMcp(b))
      && if IsMcp(a) && IsMcp(b) then Front(Segment(a), MAX_NAME - |MCP|) == Front(Segment(b), MAX_NAME - |MCP|)
         else a[..MAX_NAME] == b[..MAX_NAME]
    else if |a| > MAX_NAME then Abbreviated(a) == b
    else if |b| > MAX_NAME then Abbreviated(b) == a
    else a == b
  }

  lemma ShortenedAlikeIff(a: Bytes, b: Bytes)
    ensures Shortened(a) == Shortened(b) <==> SentAlike(a, b)
  {
    if |a| > MAX_NAME {
      ShortenedIsAbbreviated(a);
    }
    if |b| > MAX_NAME {
      ShortenedIsAbbreviated(b);
    }
    if |a| > MAX_NAME && |b| > MAX_NAME {
      AbbreviatedAlikeIff(a, b);
    }
  }

  lemma AbbreviatedAlikeIff(a: Bytes, b: Bytes)
    requires |a| > MAX_NAME && |b| > MAX_NAME
    ensures Abbreviated(a) == Abbreviated(b) <==> SentAlike(a, b)
  {
    if IsMcp(a) && IsMcp(b) {
      var x, y := Front(Segment(a), MAX_NAME - |MCP|), Front(Segment(b), MAX_NAME - |MCP|);
      assert (MCP + x)[|MCP|..] == x && (MCP + y)[|MCP|..] == y;
    } else if IsMcp(a) || IsMcp(b) {
      assert IsMcp(a) ==> MCP <= Abbreviated(a) && !(MCP <= b[..MAX_NAME]);
      assert IsMcp(b) ==> MCP <= Abbreviated(b) && !(MCP <= a[..MAX_NAME]);
    }
  }

  lemma {:induction false} BuiltAt<P>(tools: seq<Tool<P>>, i: nat)
    requires i < |tools|
    ensures BuiltAll(tools)[i] == Built(tools[i])
  {
    if i == |tools| - 1 {
    } else {
      BuiltAt(Init(tools), i);
    }
  }

  predicate DistinctNames<P>(tools: seq<KiroTool<P>>) {
    forall i, j | 0 <= i < j < |tools| :: tools[i].name != tools[j].name
  }

  predicate NoneSentAlike<P>(tools: seq<Tool<P>>) {
    forall i, j | 0 <= i < j < |tools| :: !SentAlike(tools[i].name, tools[j].name)
  }

  lemma BuiltAreDistinctIff<P>(tools: seq<Tool<P>>)
    ensures DistinctNames(BuiltAll(tools)) <==> NoneSentAlike(tools)
  {
    var built := BuiltAll(tools);
    forall i, j | 0 <= i < j < |tools|
      ensures built[i].name == built[j].name <==> SentAlike(tools[i].name, tools[j].name)
    {
      BuiltAt(tools, i);
      BuiltAt(tools, j);
      ShortenedAlikeIff(tools[i].name, tools[j].name);
    }
    if NoneSentAlike(tools) {
      forall i, j | 0 <= i < j < |built| ensures built[i].name != built[j].name {
        assert !SentAlike(tools[i].name, tools[j].name);
      }
    }
  }

  /** The names of a request are distinct if and only if no two usable tools are sent alike; that their
      own names are distinct is not enough. */
  lemma NamesAreDistinctIff<P>(tools: seq<Tool<P>>)
    ensures DistinctNames(KiroToolsOf(tools)) <==> NoneSentAlike(UsableTools(tools))
  {
    BuiltAreDistinctIff(UsableTools(tools));
  }

  function ToolOf(server: Bytes, tool: Bytes): Bytes {
    MCP + server + Ascii("__") + tool
  }

  /** A tool of a server with a long name is sent without the server. */
  lemma ToolOfLongServer(server: Bytes, tool: Bytes)
    requires |server| >= 57 && 0 < |tool| <= MAX_NAME - |MCP| && forall j | 0 <= j < |tool| :: tool[j] != 0x5F
    ensures |ToolOf(server, tool)| == |server| + |tool| + 7 && Shortened(ToolOf(server, tool)) == MCP + tool
  {
    var before := MCP + server;
    assert ToolOf(server, tool) == before + Ascii("__") + tool;
    assert MCP <= before + Ascii("__");
    McpKeepsLastSegment(ToolOf(server, tool), tool, before);
  }

  lemma TwoUsable<P>(a: Tool<P>, b: Tool<P>)
    requires Usable(a) && Usable(b)
    ensures |KiroToolsOf([a, b])| == 2
    ensures KiroToolsOf([a, b])[0].name == Shortened(a.name) && KiroToolsOf([a, b])[1].name == Shortened(b.name)
  {
    assert Init([a, b]) == [a] && Init([a]) == [];
    assert UsableTools([a]) == [] + [a] == [a];
    assert UsableTools([a, b]) == [a] + [b] == [a, b];
    BuiltAt([a, b], 0);
    BuiltAt([a, b], 1);
  }

  lemma ServerCanBeRead(server: Bytes, tool: Bytes)
    ensures var name := ToolOf(server, tool);
      |name| == |MCP| + |server| + 2 + |tool| && name[|MCP|..|name| - 2 - |tool|] == server
  {
  }

  lemma LongIsUsable<P>(t: Tool<P>)
    requires |t.name| > 10
    ensures Usable(t)
  {
    assert |Lower(t.name)| == |t.name|;
  }

  /** Two servers with long names that offer a tool of one name: the request declares it twice. */
  lemma ServersCollide<P>(server: Bytes, server': Bytes, tool: Bytes, p: P)
    requires |server| >= 57 && |server'| >= 57 && server != server'
    requires 0 < |tool| <= MAX_NAME - |MCP| && forall j | 0 <= j < |tool| :: tool[j] != 0x5F
    ensures var a, b := ToolOf(server, tool), ToolOf(server', tool);
      var sent := KiroToolsOf([Tool(a, [], p), Tool(b, [], p)]);
      a != b && |sent| == 2 && sent[0].name == sent[1].name == MCP + tool
  {
    ToolOfLongServer(server, tool);
    ToolOfLongServer(server', tool);
    ServerCanBeRead(server, tool);
    ServerCanBeRead(server', tool);
    LongIsUsable(Tool(ToolOf(server, tool), [], p));
    LongIsUsable(Tool(ToolOf(server', tool), [], p));
    TwoUsable(Tool(ToolOf(server, tool), [], p), Tool(ToolOf(server', tool), [], p));
  }

  lemma SearchCollides<P>(p: P)
    ensures var a, b := ToolOf(seq(60, _ => 0x61), Ascii("search")), ToolOf(seq(60, _ => 0x62), Ascii("search"));
      var sent := KiroToolsOf([Tool(a, [], p), Tool(b, [], p)]);
      a != b && |sent| == 2 && sent[0].name == sent[1].name == MCP + Ascii("search")
  {
    var server, server': Bytes := seq(60, _ => 0x61), seq(60, _ => 0x62);
    assert server[0] != server'[0];
    ServersCollide(server, server', Ascii("search"), p);
  }

  // ------------------------------------------------------------------------------------
  // The tools of a request, told from those given
  // ------------------------------------------------------------------------------------

  /** The bytes are the letters of a lower-case word, in either case. */
  predicate Spells(name: Bytes, word: string) {
    |name| == |word| &&
    forall i | 0 <= i < |word| ::
      (word[i] < '\U{80}' && name[i] == word[i] as int) || ('a' <= word[i] <= 'z' && name[i] == word[i] as int - 32)
  }

  /** Web search is left out by either of its names. */
  predicate IsOffered<P>(t: Tool<P>) {
    |t.name| > 0 && !Spells(t.name, "web_search") && !Spells(t.name, "websearch")
  }

  function Offered<P>(t: Tool<P>): seq<Tool<P>> {
    if IsOffered(t) then [t] else []
  }

  /** What a tool is sent as. A description that says nothing names the tool; one over 10237 bytes is cut
      somewhere before 10207, with a note. */
  ghost predicate IsSentAs<P>(t: Tool<P>, k: KiroTool<P>) {
    && k.name == (if |t.name| <= 64 then t.name else Abbreviated(t.name))
    && k.schema == Converted(t.parameters)
    && var text := if Blank(t.description) then Ascii("Tool: ") + k.name else t.description;
       if |text| <= 10237 then k.description == text
       else exists n: nat :: n <= 10207 && k.description == text[..n] + Ascii("... (description truncated)")
                             && (n == 0 || RuneStart(text[n])) && forall j | n < j <= 10207 :: Tail(text[j])
  }

  lemma LowerSpells(name: Bytes, word: string)
    requires forall c | c in word :: 'a' <= c <= 'z' || c == '_'
    ensures Lower(name) == Ascii(word) <==> Spells(name, word)
  {
    if |name| == |word| {
      assert forall i | 0 <= i < |word| :: word[i] in word;
      assert forall i | 0 <= i < |word| :: Lower(name)[i] == Ascii(word)[i] <==>
               name[i] == word[i] as int || ('a' <= word[i] <= 'z' && name[i] == word[i] as int - 32);
    }
  }

  lemma UsableIsOffered<P>(t: Tool<P>)
    ensures Usable(t) <==> IsOffered(t)
  {
    LowerSpells(t.name, "web_search");
    LowerSpells(t.name, "websearch");
  }

  lemma {:induction false} UsableAreOffered<P>(tools: seq<Tool<P>>)
    ensures UsableTools(tools) == Flatten(Mapped(Offered, tools))
  {
    if tools == [] {
    } else {
      UsableAreOffered(Init(tools));
      UsableIsOffered(Last(tools));
      MappedLast(Offered, tools);
    }
  }

  lemma BuiltIsSent<P>(t: Tool<P>)
    ensures IsSentAs(t, Built(t))
  {
    if |t.name| > MAX_NAME {
      ShortenedIsAbbreviated(t.name);
    }
    var text := Described(t);
    if |text| > MAX_DESCRIPTION {
      var n: nat := Cut(text, MAX_DESCRIPTION - 30);
      assert Built(t).description == text[..n] + Ascii("... (description truncated)");
    }
  }

  /** The tools of a request: each tool that is offered, in order, or else one that does nothing. */
  lemma ToolsAreSent<P>(tools: seq<Tool<P>>)
    ensures var offered, sent := Flatten(Mapped(Offered, tools)), KiroToolsOf(tools);
      if offered == [] then
        sent == [KiroTool(
          Ascii("no_tool_available"),
          Ascii("This is a placeholder tool when no other tools are available. It does nothing."), NoProperties)]
      else |sent| == |offered| && forall i | 0 <= i < |offered| :: IsSentAs(offered[i], sent[i])
  {
    var offered := Flatten(Mapped(Offered, tools));
    UsableAreOffered(tools);
    assert PLACEHOLDER_TEXT == "This is a placeholder tool when no other tools are available. It does nothing.";
    forall i | 0 <= i < |offered| ensures IsSentAs(offered[i], BuiltAll(offered)[i]) {
      BuiltAt(offered, i);
      BuiltIsSent(offered[i]);
    }
  }
}
