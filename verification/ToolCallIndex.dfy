/** How the providers number the tool calls of a stream, and what the numbering makes of the
    accumulated response. */
module ToolCallIndex {
  import opened Common
  import opened Accumulator

  /** One piece of a tool call as the Kiro event stream delivers it. */
  datatype Fragment = Fragment(id: string, name: string, args: string)

  function Note(order: seq<string>, id: string): seq<string> {
    if id in order then order else order + [id]
  }

  /** The tool-use ids in order of first appearance. */
  function Order(fs: seq<Fragment>): seq<string> {
    if fs == [] then [] else Note(Order(Init(fs)), Last(fs).id)
  }

  function Position(order: seq<string>, id: string): nat
    requires id in order
  {
    if order[0] == id then 0 else 1 + Position(order[1..], id)
  }

  predicate Distinct(order: seq<string>) {
    forall i, j | 0 <= i < j < |order| :: order[i] != order[j]
  }

  lemma {:induction false} PositionFinds(order: seq<string>, id: string)
    requires id in order
    ensures Position(order, id) < |order| && order[Position(order, id)] == id
    ensures forall more :: Position(order + more, id) == Position(order, id)
  {
    if order[0] != id {
      PositionFinds(order[1..], id);
      forall more ensures Position(order + more, id) == Position(order, id) {
        assert (order + more)[1..] == order[1..] + more;
      }
    }
  }

  /** The index manager: the map is filled as ids appear; a lock makes each call one step. */
  class ToolCallIndexManager {
    var toolUseIndexMap: map<string, nat>
    ghost var order: seq<string>

    ghost predicate Valid()
      reads this
    {
      && Distinct(order)
      && |toolUseIndexMap| == |order|
      && (forall id :: id in toolUseIndexMap <==> id in order)
      && (forall i | 0 <= i < |order| :: toolUseIndexMap[order[i]] == i)
    }

    constructor ()
      ensures Valid() && order == []
    {
      toolUseIndexMap := map[];
      order := [];
    }

    /** A known id keeps its index; a new id gets the next free one. */
    method GetToolCallIndex(toolUseId: string) returns (index: nat)
      requires Valid()
      modifies this
      ensures Valid() && order == Note(old(order), toolUseId)
      ensures index == Position(order, toolUseId)
    {
      if toolUseId in toolUseIndexMap {
        PositionFinds(order, toolUseId);
        return toolUseIndexMap[toolUseId];
      }
      index := |toolUseIndexMap|;
      toolUseIndexMap := toolUseIndexMap[toolUseId := index];
      order := order + [toolUseId];
      PositionFinds(order, toolUseId);
    }
  }

  /** The delta each fragment becomes, with the index the manager hands out for it. */
  function Deltas(fs: seq<Fragment>): seq<ToolCall> {
    if fs == [] then []
    else
      var f := Last(fs);
      var index := if f.id in Order(fs) then Position(Order(fs), f.id) else 0;
      Deltas(Init(fs)) + [ToolCall(f.id, "function", f.name, f.args, Some(index))]
  }

  // ------------------------------------------------------------------------------------
  // Grouping by id
  // ------------------------------------------------------------------------------------

  function ArgsOf(fs: seq<Fragment>, id: string): string {
    if fs == [] then "" else ArgsOf(Init(fs), id) + if Last(fs).id == id then Last(fs).args else ""
  }

  function LastName(fs: seq<Fragment>, id: string): string {
    if fs == [] then ""
    else if Last(fs).id == id && Last(fs).name != "" then Last(fs).name
    else LastName(Init(fs), id)
  }

  /** One tool call per id, in order of first appearance, with the arguments of that id's
      fragments concatenated in stream order and the last name given for it. */
  function GroupById(fs: seq<Fragment>): seq<ToolCall> {
    seq(|Order(fs)|, j requires 0 <= j < |Order(fs)| => Group(fs, Order(fs)[j], j))
  }

  function Group(fs: seq<Fragment>, id: string, j: nat): ToolCall {
    ToolCall(id, "function", LastName(fs, id), ArgsOf(fs, id), Some(j))
  }

  lemma GroupStep(fs: seq<Fragment>, id: string, j: nat)
    requires fs != []
    ensures var d := ToolCall(Last(fs).id, "function", Last(fs).name, Last(fs).args, Some(j));
      Group(fs, id, j) ==
        if Last(fs).id != id then Group(Init(fs), id, j)
        else MergeTool(if id in Order(Init(fs)) then Group(Init(fs), id, j) else NO_TOOL, d)
  {
    if id !in Order(Init(fs)) {
      UnknownId(Init(fs), id);
    }
    if Last(fs).id != id {
      assert ArgsOf(Init(fs), id) + "" == ArgsOf(Init(fs), id);
    }
  }

  lemma {:induction false} OrderIsDistinct(fs: seq<Fragment>)
    ensures Distinct(Order(fs))
    ensures fs != [] ==> Last(fs).id in Order(fs)
  {
    if fs == [] {
    } else {
      OrderIsDistinct(Init(fs));
    }
  }

  lemma {:induction false} UnknownId(fs: seq<Fragment>, id: string)
    requires id !in Order(fs)
    ensures ArgsOf(fs, id) == "" && LastName(fs, id) == ""
  {
    if fs == [] {
    } else {
      OrderIsDistinct(fs);
      assert forall x :: x in Order(Init(fs)) ==> x in Order(fs);
      UnknownId(Init(fs), id);
    }
  }

  lemma LastDelta(fs: seq<Fragment>)
    requires fs != []
    ensures Last(fs).id in Order(fs)
    ensures var f, p := Last(fs), Position(Order(fs), Last(fs).id);
      Last(Deltas(fs)) == ToolCall(f.id, "function", f.name, f.args, Some(p)) && p < |Order(fs)| && Order(fs)[p] == f.id
  {
    OrderIsDistinct(fs);
    PositionFinds(Order(fs), Last(fs).id);
  }

  /** One more fragment goes to the group of its id. */
  lemma GroupsNext(fs: seq<Fragment>)
    requires fs != []
    ensures AddTool(GroupById(Init(fs)), Last(Deltas(fs))) == GroupById(fs)
  {
    var f, order := Last(fs), Order(Init(fs));
    OrderIsDistinct(fs);
    LastDelta(fs);
    assert f.id !in order ==> Order(fs)[|order|] == f.id;
    var merged := AddTool(GroupById(Init(fs)), Last(Deltas(fs)));
    assert |merged| == |Order(fs)|;
    forall j | 0 <= j < |Order(fs)| ensures merged[j] == Group(fs, Order(fs)[j], j) {
      GroupStep(fs, Order(fs)[j], j);
    }
  }

  /** The fragments of a Kiro stream, numbered by the manager and merged by the accumulator, are
      exactly the group-by on the tool-use id. */
  lemma {:induction false} FragmentsAreGroupedById(fs: seq<Fragment>)
    ensures AddTools([], Deltas(fs)) == GroupById(fs)
  {
    if fs == [] {
    } else {
      FragmentsAreGroupedById(Init(fs));
      GroupsNext(fs);
      assert Init(Deltas(fs)) == Deltas(Init(fs));
    }
  }

  // ------------------------------------------------------------------------------------
  // Calls that arrive whole
  // ------------------------------------------------------------------------------------

  /** The Gemini and Codex streams number whole calls 0, 1, 2, ...; each becomes its own tool call. */
  lemma {:induction false} NumberedCallsStayApart(ds: seq<ToolCall>)
    requires forall i | 0 <= i < |ds| :: ds[i].index == Some(i)
    ensures AddTools([], ds) == ds
  {
    if ds == [] {
    } else {
      NumberedCallsStayApart(Init(ds));
      var d := Last(ds);
      assert "" + d.args == d.args;
      assert AddTool(Init(ds), d) == Init(ds) + [d];
    }
  }
}
