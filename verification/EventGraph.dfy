/**
 Turns and inverted indexes over a session's records, and faceted queries on them
 (scripts/prototype_event_graph.py).
 */
module EventGraph {
  import opened Sequences
  import opened Wrappers

  /**
   A record, with "" for every field that is missing or null: the code only asks whether they are truthy.
   The four paths are the typed input's `file_path` and the raw input's `file_path`, `file` and `path`.
   */
  datatype Record = Record(
    id: string, recordType: string, timestamp: string, agentId: string,
    text: string, name: string, isError: bool,
    typedPath: string, rawFilePath: string, rawFile: string, rawPath: string)

  predicate IsUserMessage(r: Record) {
    r.recordType == "user_message"
  }

  function Truthy(s: string): Option<string> {
    if s == "" then None else Some(s)
  }

  function ExtractFilePath(r: Record): Option<string> {
    if r.recordType != "tool_call" then None
    else if r.typedPath != "" then Some(r.typedPath)
    else if r.rawFilePath != "" then Some(r.rawFilePath)
    else if r.rawFile != "" then Some(r.rawFile)
    else Truthy(r.rawPath)
  }

  function ExtractToolName(r: Record): Option<string> {
    if r.recordType != "tool_call" then None else Truthy(r.name)
  }

  predicate IsError(r: Record) {
    r.recordType == "error" || (r.recordType == "tool_result" && r.isError)
  }

  // ------------------------------------------------------------------ turns

  datatype Turn = Turn(
    index: nat, promptText: Option<string>, promptTimestamp: string, responseText: Option<string>,
    eventIds: seq<string>, toolCounts: map<string, nat>, files: set<string>, hasError: bool)

  /** The records cut before every user message. */
  function Groups(records: seq<Record>): (groups: seq<seq<Record>>)
    ensures forall i :: 0 <= i < |groups| ==> groups[i] != []
    ensures groups == [] <==> records == []
  {
    if records == [] then []
    else
      var before, r := Groups(Front(records)), Last(records);
      if IsUserMessage(r) || before == [] then before + [[r]]
      else Front(before) + [Last(before) + [r]]
  }

  function Ids(records: seq<Record>): seq<string> {
    seq(|records|, i requires 0 <= i < |records| => records[i].id)
  }

  function ToolCounts(records: seq<Record>): map<string, nat> {
    if records == [] then map[]
    else
      var before, tool := ToolCounts(Front(records)), ExtractToolName(Last(records));
      if tool.None? then before
      else before[tool.value := (if tool.value in before then before[tool.value] else 0) + 1]
  }

  function FilesOf(records: seq<Record>): set<string> {
    if records == [] then {}
    else
      var before, file := FilesOf(Front(records)), ExtractFilePath(Last(records));
      if file.None? then before else before + {file.value}
  }

  predicate AnyError(records: seq<Record>) {
    records != [] && (AnyError(Front(records)) || IsError(Last(records)))
  }

  function Response(records: seq<Record>): Option<string> {
    if records == [] then None
    else if Last(records).recordType == "assistant_message" && Last(records).text != "" then Some(Last(records).text)
    else Response(Front(records))
  }

  function PromptText(r: Record): Option<string> {
    if r.text == "" then None else Some(if |r.text| <= 100 then r.text else r.text[..100])
  }

  /** The prompt of a group and its time, if the group starts with one. */
  function PromptOf(group: seq<Record>): Option<string>
    requires group != []
  {
    if IsUserMessage(group[0]) then PromptText(group[0]) else None
  }

  function TimeOf(group: seq<Record>): string
    requires group != []
  {
    if IsUserMessage(group[0]) then group[0].timestamp else ""
  }

  function MakeTurn(index: nat, group: seq<Record>): Turn
    requires group != []
  {
    Turn(index, PromptOf(group), TimeOf(group), Response(group), Ids(group), ToolCounts(group), FilesOf(group), AnyError(group))
  }

  function TurnsOf(groups: seq<seq<Record>>): seq<Turn>
    requires forall i :: 0 <= i < |groups| ==> groups[i] != []
  {
    seq(|groups|, i requires 0 <= i < |groups| => MakeTurn(i, groups[i]))
  }

  lemma TurnsOfMore(groups: seq<seq<Record>>, group: seq<Record>)
    requires group != [] && forall i :: 0 <= i < |groups| ==> groups[i] != []
    ensures TurnsOf(groups + [group]) == TurnsOf(groups) + [MakeTurn(|groups|, group)]
  {
  }

  function CallsOf(records: seq<Record>, tool: string): set<nat> {
    set i: nat | i < |records| && ExtractToolName(records[i]) == Some(tool)
  }

  /** A turn counts each tool's calls. */
  lemma {:induction false} TurnCountsCalls(group: seq<Record>, tool: string)
    ensures |CallsOf(group, tool)| == if tool in ToolCounts(group) then ToolCounts(group)[tool] else 0
    ensures tool in ToolCounts(group) ==> ToolCounts(group)[tool] > 0
  {
    if group == [] {
      assert CallsOf(group, tool) == {};
    } else {
      var n := |group| - 1;
      TurnCountsCalls(Front(group), tool);
      assert CallsOf(group, tool) == CallsOf(Front(group), tool) + if ExtractToolName(group[n]) == Some(tool) then {n} else {};
    }
  }

  /** A turn lists exactly the files touched, and whether anything failed. */
  lemma {:induction false} TurnListsFilesAndErrors(group: seq<Record>, file: string)
    ensures file in FilesOf(group) <==> exists r :: r in group && ExtractFilePath(r) == Some(file)
    ensures AnyError(group) <==> exists r :: r in group && IsError(r)
  {
    if group != [] {
      TurnListsFilesAndErrors(Front(group), file);
      assert group == Front(group) + [Last(group)];
    }
  }

  /** A tool call's path is the first of its four that is not empty; nothing else has one. */
  lemma PathIsTheFirstGiven(r: Record)
    ensures r.recordType != "tool_call" ==> ExtractFilePath(r) == None && ExtractToolName(r) == None
    ensures r.recordType == "tool_call" ==>
              var paths := [r.typedPath, r.rawFilePath, r.rawFile, r.rawPath];
              && (ExtractFilePath(r) == None <==> forall k :: 0 <= k < 4 ==> paths[k] == "")
              && forall k :: 0 <= k < 4 && paths[k] != "" && (forall j :: 0 <= j < k ==> paths[j] == "") ==>
                   ExtractFilePath(r) == Some(paths[k])
    ensures r.recordType == "tool_call" ==> ExtractToolName(r) == if r.name == "" then None else Some(r.name)
    ensures Attribute(r, ByFile) == ExtractFilePath(r) && Attribute(r, ByTool) == ExtractToolName(r)
    ensures Attribute(r, ByAgent) == if r.agentId == "" then None else Some(r.agentId)
  {
    var paths := [r.typedPath, r.rawFilePath, r.rawFile, r.rawPath];
    assert paths[0] == r.typedPath && paths[1] == r.rawFilePath && paths[2] == r.rawFile && paths[3] == r.rawPath;
  }

  /** A turn's response is the text of its last assistant message that has one. */
  lemma {:induction false} ResponseIsTheLast(group: seq<Record>) returns (i: int)
    ensures Response(group) == None ==> i == -1
    ensures Response(group).Some? ==>
              0 <= i < |group| && group[i].recordType == "assistant_message" && group[i].text == Response(group).value != ""
    ensures forall k :: i < k < |group| ==> group[k].recordType != "assistant_message" || group[k].text == ""
  {
    if group == [] {
      i := -1;
    } else if Last(group).recordType == "assistant_message" && Last(group).text != "" {
      i := |group| - 1;
    } else {
      i := ResponseIsTheLast(Front(group));
      assert forall k :: 0 <= k < |group| - 1 ==> group[k] == Front(group)[k];
    }
  }

  /** Every turn's fields that tell where it stands: its number, its records, and the prompt that opens it, if one does. */
  lemma {:induction false} TurnTellsItsGroup(records: seq<Record>, t: nat)
    requires t < |Groups(records)|
    ensures var turn, group := TurnsOf(Groups(records))[t], Groups(records)[t];
            && turn.index == t && |turn.eventIds| == |group|
            && (forall k :: 0 <= k < |group| ==> turn.eventIds[k] == group[k].id)
            && (if group[0].recordType == "user_message" then turn.promptTimestamp == group[0].timestamp
                else turn.promptTimestamp == "" && turn.promptText == None)
            && (group[0].recordType == "user_message" && group[0].text == "" ==> turn.promptText == None)
            && (group[0].recordType == "user_message" && group[0].text != "" ==>
                  && turn.promptText.Some? && turn.promptText.value <= group[0].text
                  && |turn.promptText.value| == if |group[0].text| <= 100 then |group[0].text| else 100)
  {
  }

  method Flush(index: nat, group: seq<Record>, prompt: Option<string>, timestamp: string) returns (t: Turn)
    requires group != []
    requires prompt == PromptOf(group) && timestamp == TimeOf(group)
    ensures t == MakeTurn(index, group)
  {
    var counts: map<string, nat> := map[];
    var files: set<string> := {};
    var hasError := false;
    var response: Option<string> := None;
    for i := 0 to |group|
      invariant counts == ToolCounts(group[..i]) && files == FilesOf(group[..i])
      invariant hasError == AnyError(group[..i]) && response == Response(group[..i])
    {
      var e := group[i];
      assert Front(group[..i + 1]) == group[..i] && Last(group[..i + 1]) == e;
      var tool := ExtractToolName(e);
      if tool.Some? {
        counts := counts[tool.value := (if tool.value in counts then counts[tool.value] else 0) + 1];
      }
      var file := ExtractFilePath(e);
      if file.Some? {
        files := files + {file.value};
      }
      if IsError(e) {
        hasError := true;
      }
      if e.recordType == "assistant_message" && e.text != "" {
        response := Some(e.text);
      }
    }
    assert group[..|group|] == group;
    t := Turn(index, prompt, timestamp, response, Ids(group), counts, files, hasError);
  }

  /** The loop's state: the turns flushed, and the records, prompt and time of the one still open. */
  predicate Splitting(records: seq<Record>, turns: seq<Turn>, current: seq<Record>, prompt: Option<string>, timestamp: string) {
    OpenTurn(Groups(records), turns, current, prompt, timestamp)
  }

  predicate OpenTurn(groups: seq<seq<Record>>, turns: seq<Turn>, current: seq<Record>, prompt: Option<string>, timestamp: string)
    requires forall i :: 0 <= i < |groups| ==> groups[i] != []
  {
    if groups == [] then turns == [] && current == [] && prompt == None && timestamp == ""
    else
      && current == Last(groups) && turns == TurnsOf(Front(groups))
      && prompt == PromptOf(current) && timestamp == TimeOf(current)
  }

  lemma {:induction false} SplittingDone(records: seq<Record>, turns: seq<Turn>, current: seq<Record>, prompt: Option<string>, timestamp: string)
    requires Splitting(records, turns, current, prompt, timestamp) && records != []
    ensures TurnsOf(Groups(records)) == turns + [MakeTurn(|turns|, current)]
  {
    TurnsOfMore(Front(Groups(records)), current);
    assert Groups(records) == Front(Groups(records)) + [current];
  }

  function GrowLast(groups: seq<seq<Record>>, r: Record): seq<seq<Record>> {
    if groups == [] then [[r]] else Front(groups) + [Last(groups) + [r]]
  }

  lemma {:induction false} GroupsGoOn(records: seq<Record>, r: Record)
    requires !IsUserMessage(r)
    ensures Groups(records + [r]) == GrowLast(Groups(records), r)
  {
    assert Front(records + [r]) == records && Last(records + [r]) == r;
    assert [] + [[r]] == [[r]];
  }

  lemma OpenTurnGrows(groups: seq<seq<Record>>, r: Record, turns: seq<Turn>, current: seq<Record>, prompt: Option<string>, timestamp: string)
    requires forall i :: 0 <= i < |groups| ==> groups[i] != []
    requires OpenTurn(groups, turns, current, prompt, timestamp) && !IsUserMessage(r)
    ensures forall i :: 0 <= i < |GrowLast(groups, r)| ==> GrowLast(groups, r)[i] != []
    ensures OpenTurn(GrowLast(groups, r), turns, current + [r], prompt, timestamp)
  {
    var grown := GrowLast(groups, r);
    if groups == [] {
      assert Front(grown) == [];
    } else {
      assert Front(grown) == Front(groups) && Last(grown) == current + [r];
    }
  }

  lemma SplittingGoesOn(records: seq<Record>, r: Record, turns: seq<Turn>, current: seq<Record>, prompt: Option<string>, timestamp: string)
    requires Splitting(records, turns, current, prompt, timestamp) && !IsUserMessage(r)
    ensures Splitting(records + [r], turns, current + [r], prompt, timestamp)
  {
    GroupsGoOn(records, r);
    OpenTurnGrows(Groups(records), r, turns, current, prompt, timestamp);
  }

  lemma {:induction false} SplittingStartsAnew(records: seq<Record>, r: Record)
    requires IsUserMessage(r)
    ensures Splitting(records + [r], TurnsOf(Groups(records)), [r], PromptText(r), r.timestamp)
  {
    assert Front(records + [r]) == records && Last(records + [r]) == r;
    assert Front(Groups(records) + [[r]]) == Groups(records);
  }

  method SplitIntoTurns(records: seq<Record>) returns (turns: seq<Turn>)
    ensures turns == TurnsOf(Groups(records))
  {
    turns := [];
    var current: seq<Record> := [];
    var prompt: Option<string> := None;
    var timestamp := "";
    for i := 0 to |records|
      invariant Splitting(records[..i], turns, current, prompt, timestamp)
    {
      var r := records[i];
      assert records[..i + 1] == records[..i] + [r];
      if IsUserMessage(r) {
        SplittingStartsAnew(records[..i], r);
        if current != [] {
          SplittingDone(records[..i], turns, current, prompt, timestamp);
          var t := Flush(|turns|, current, prompt, timestamp);
          turns := turns + [t];
        }
        current, prompt, timestamp := [r], PromptText(r), r.timestamp;
      } else {
        SplittingGoesOn(records[..i], r, turns, current, prompt, timestamp);
        current := current + [r];
      }
    }
    assert records[..|records|] == records;
    if current != [] {
      SplittingDone(records, turns, current, prompt, timestamp);
      var t := Flush(|turns|, current, prompt, timestamp);
      turns := turns + [t];
    }
  }

  lemma {:induction false} ConcatGrowsLast<T>(parts: seq<seq<T>>, x: T)
    requires parts != []
    ensures Concat(Front(parts) + [Last(parts) + [x]]) == Concat(parts) + [x]
  {
    assert parts == Front(parts) + [Last(parts)];
    ConcatLast(Front(parts), Last(parts));
    ConcatLast(Front(parts), Last(parts) + [x]);
    assert Concat(Front(parts)) + (Last(parts) + [x]) == (Concat(Front(parts)) + Last(parts)) + [x];
  }

  /** The turns' records, one turn after the other, are the records. */
  lemma {:induction false} GroupsConcatenate(records: seq<Record>)
    ensures Concat(Groups(records)) == records
  {
    if records != [] {
      var front, r := Front(records), Last(records);
      assert records == front + [r];
      GroupsConcatenate(front);
      if IsUserMessage(r) || Groups(front) == [] {
        ConcatLast(Groups(front), [r]);
      } else {
        ConcatGrowsLast(Groups(front), r);
      }
    }
  }

  /** Only the first turn may lack a leading user message, and no turn has one further on. */
  lemma {:induction false} TurnsStartWithUserMessages(records: seq<Record>)
    ensures forall t, k :: 0 <= t < |Groups(records)| && 0 <= k < |Groups(records)[t]| ==>
                             (t > 0 && k == 0 ==> IsUserMessage(Groups(records)[t][k]))
                             && (k > 0 ==> !IsUserMessage(Groups(records)[t][k]))
    ensures records != [] ==> Groups(records)[0][0] == records[0]
  {
    if records != [] {
      TurnsStartWithUserMessages(Front(records));
    }
  }

  // ---------------------------------------------------------------- indexes

  datatype Axis = ByFile | ByTool | ByAgent

  function Attribute(r: Record, axis: Axis): Option<string> {
    match axis
    case ByFile => ExtractFilePath(r)
    case ByTool => ExtractToolName(r)
    case ByAgent => Truthy(r.agentId)
  }

  type Index = map<string, seq<string>>

  function Lookup(index: Index, key: string): seq<string> {
    if key in index then index[key] else []
  }

  /** `index[key].append(id)` on a defaultdict, for a key that is truthy. */
  function Append(index: Index, key: Option<string>, id: string): Index {
    if key.None? then index else index[key.value := Lookup(index, key.value) + [id]]
  }

  function IndexOf(records: seq<Record>, axis: Axis): Index {
    if records == [] then map[]
    else Append(IndexOf(Front(records), axis), Attribute(Last(records), axis), Last(records).id)
  }

  function IdsWhere(records: seq<Record>, axis: Axis, value: string): seq<string> {
    if records == [] then []
    else IdsWhere(Front(records), axis, value) + if Attribute(Last(records), axis) == Some(value) then [Last(records).id] else []
  }

  /** An index agrees with a plain scan: under each value, the ids of the records that have it, in record order. */
  lemma {:induction false} IndexAgreesWithScan(records: seq<Record>, axis: Axis, value: string)
    ensures Lookup(IndexOf(records, axis), value) == IdsWhere(records, axis, value)
    ensures value in IndexOf(records, axis) <==> IdsWhere(records, axis, value) != []
  {
    if records != [] {
      IndexAgreesWithScan(Front(records), axis, value);
    }
  }

  function ErrorIds(records: seq<Record>): seq<string> {
    if records == [] then []
    else ErrorIds(Front(records)) + if IsError(Last(records)) then [Last(records).id] else []
  }

  /** The keys of `records_by_id`, in insertion order: every id where it first occurs. */
  function DistinctIds(records: seq<Record>): seq<string> {
    if records == [] then []
    else
      var before, id := DistinctIds(Front(records)), Last(records).id;
      if id in before then before else before + [id]
  }

  function ById(records: seq<Record>): map<string, Record> {
    if records == [] then map[] else ById(Front(records))[Last(records).id := Last(records)]
  }

  /** `records_by_id` is an insertion-ordered dictionary: its keys in order, and its contents. */
  datatype Graph = Graph(
    turns: seq<Turn>, fileIndex: Index, toolIndex: Index, agentIndex: Index,
    errorIds: seq<string>, idOrder: seq<string>, recordsById: map<string, Record>)

  function GraphOf(records: seq<Record>): Graph {
    Graph(TurnsOf(Groups(records)), IndexOf(records, ByFile), IndexOf(records, ByTool), IndexOf(records, ByAgent),
          ErrorIds(records), DistinctIds(records), ById(records))
  }

  method BuildEventGraph(records: seq<Record>) returns (graph: Graph)
    ensures graph == GraphOf(records)
  {
    var files: Index, tools: Index, agents: Index := map[], map[], map[];
    var errors: seq<string>, order: seq<string> := [], [];
    var byId: map<string, Record> := map[];
    for i := 0 to |records|
      invariant files == IndexOf(records[..i], ByFile) && tools == IndexOf(records[..i], ByTool)
      invariant agents == IndexOf(records[..i], ByAgent) && errors == ErrorIds(records[..i])
      invariant order == DistinctIds(records[..i]) && byId == ById(records[..i])
    {
      var r := records[i];
      assert Front(records[..i + 1]) == records[..i] && Last(records[..i + 1]) == r;
      if r.id !in order {
        order := order + [r.id];
      }
      byId := byId[r.id := r];
      files := Append(files, ExtractFilePath(r), r.id);
      tools := Append(tools, ExtractToolName(r), r.id);
      agents := Append(agents, Truthy(r.agentId), r.id);
      if IsError(r) {
        errors := errors + [r.id];
      }
    }
    assert records[..|records|] == records;
    var turns := SplitIntoTurns(records);
    graph := Graph(turns, files, tools, agents, errors, order, byId);
  }

  /** The errors are listed in record order. */
  lemma {:induction false} ErrorsAreListed(records: seq<Record>, r: Record)
    ensures ErrorIds([]) == []
    ensures ErrorIds(records + [r])
            == ErrorIds(records) + if r.recordType == "error" || (r.recordType == "tool_result" && r.isError) then [r.id] else []
  {
    assert Front(records + [r]) == records && Last(records + [r]) == r;
  }

  /** The dictionary holds, under every id, the last record that has it; its keys come in the order of their first use. */
  lemma {:induction false} RecordsAreKeptById(records: seq<Record>, id: string)
    ensures id in ById(records) <==> exists i :: 0 <= i < |records| && records[i].id == id
    ensures id in DistinctIds(records) <==> id in ById(records)
    ensures forall i :: 0 <= i < |records| && records[i].id == id && (forall j :: i < j < |records| ==> records[j].id != id) ==>
              ById(records)[id] == records[i]
  {
    if records != [] {
      var n, front := |records| - 1, Front(records);
      RecordsAreKeptById(front, id);
      assert forall i :: 0 <= i < n ==> front[i] == records[i];
      if id in ById(front) {
        var i :| 0 <= i < |front| && front[i].id == id;
        assert records[i].id == id;
      }
      assert records[n].id == id ==> ById(records)[id] == records[n];
    }
  }

  lemma {:induction false} KeysComeInOrderOfFirstUse(records: seq<Record>, k: nat, l: nat) returns (i: nat, j: nat)
    requires k < l < |DistinctIds(records)|
    ensures DistinctIds(records)[k] != DistinctIds(records)[l]
    ensures i < j < |records| && records[i].id == DistinctIds(records)[k] && records[j].id == DistinctIds(records)[l]
    ensures forall m :: 0 <= m < j ==> records[m].id != DistinctIds(records)[l]
  {
    var front, n := Front(records), |records| - 1;
    if l < |DistinctIds(front)| {
      i, j := KeysComeInOrderOfFirstUse(front, k, l);
      assert forall m :: 0 <= m < n ==> front[m] == records[m];
    } else {
      var id := DistinctIds(front)[k];
      assert id in DistinctIds(front);
      RecordsAreKeptById(front, id);
      RecordsAreKeptById(front, records[n].id);
      i :| 0 <= i < |front| && front[i].id == id;
      j := n;
      assert forall m :: 0 <= m < n ==> front[m] == records[m];
    }
  }

  // ---------------------------------------------------------------- queries

  datatype Facets = Facets(turn: Option<int>, file: Option<string>, tool: Option<string>, agent: Option<string>)

  predicate InTurn(graph: Graph, id: string, turn: int) {
    0 <= turn < |graph.turns| && id in graph.turns[turn].eventIds
  }

  predicate InFacets(graph: Graph, id: string, f: Facets) {
    && (f.turn.Some? ==> InTurn(graph, id, f.turn.value))
    && (f.file.Some? ==> id in Lookup(graph.fileIndex, f.file.value))
    && (f.tool.Some? ==> id in Lookup(graph.toolIndex, f.tool.value))
    && (f.agent.Some? ==> id in Lookup(graph.agentIndex, f.agent.value))
  }

  function Keep(graph: Graph, ids: seq<string>, f: Facets): seq<string> {
    if ids == [] then []
    else Keep(graph, Front(ids), f) + if InFacets(graph, Last(ids), f) then [Last(ids)] else []
  }

  function SetOf(ids: seq<string>): set<string> {
    set id | id in ids
  }

  lemma {:induction false} KeepNone(graph: Graph, ids: seq<string>, f: Facets)
    requires forall id :: id in ids ==> !InFacets(graph, id, f)
    ensures Keep(graph, ids, f) == []
  {
    if ids != [] {
      assert ids == Front(ids) + [Last(ids)];
      KeepNone(graph, Front(ids), f);
    }
  }

  lemma {:induction false} KeepAll(graph: Graph, ids: seq<string>, f: Facets)
    requires forall id :: id in ids ==> InFacets(graph, id, f)
    ensures Keep(graph, ids, f) == ids
  {
    if ids != [] {
      assert ids == Front(ids) + [Last(ids)];
      KeepAll(graph, Front(ids), f);
    }
  }

  predicate InAll(id: string, sets: seq<set<string>>) {
    forall s :: s in sets ==> id in s
  }

  lemma InAllMore(sets: seq<set<string>>, more: set<string>)
    ensures forall id :: InAll(id, sets + [more]) <==> InAll(id, sets) && id in more
  {
    forall id ensures InAll(id, sets + [more]) <==> InAll(id, sets) && id in more {
      if InAll(id, sets + [more]) {
        assert forall s :: s in sets ==> s in sets + [more];
        assert more in sets + [more];
      }
    }
  }

  /** One set of ids per active facet; None when the turn does not exist. */
  method FacetSets(graph: Graph, f: Facets) returns (r: Option<seq<set<string>>>)
    ensures r.None? <==> f.turn.Some? && !(0 <= f.turn.value < |graph.turns|)
    ensures r.Some? ==> forall id :: InAll(id, r.value) <==> InFacets(graph, id, f)
  {
    var sets: seq<set<string>> := [];
    if f.turn.Some? {
      if !(0 <= f.turn.value < |graph.turns|) {
        return None;
      }
      InAllMore(sets, SetOf(graph.turns[f.turn.value].eventIds));
      sets := sets + [SetOf(graph.turns[f.turn.value].eventIds)];
    }
    assert forall id :: InAll(id, sets) <==> (f.turn.Some? ==> InTurn(graph, id, f.turn.value));
    if f.file.Some? {
      InAllMore(sets, SetOf(Lookup(graph.fileIndex, f.file.value)));
      sets := sets + [SetOf(Lookup(graph.fileIndex, f.file.value))];
    }
    if f.tool.Some? {
      InAllMore(sets, SetOf(Lookup(graph.toolIndex, f.tool.value)));
      sets := sets + [SetOf(Lookup(graph.toolIndex, f.tool.value))];
    }
    if f.agent.Some? {
      InAllMore(sets, SetOf(Lookup(graph.agentIndex, f.agent.value)));
      sets := sets + [SetOf(Lookup(graph.agentIndex, f.agent.value))];
    }
    return Some(sets);
  }

  method Intersect(sets: seq<set<string>>) returns (result: set<string>)
    requires sets != []
    ensures forall id :: id in result <==> InAll(id, sets)
  {
    result := sets[0];
    for i := 1 to |sets|
      invariant forall id :: id in result <==> InAll(id, sets[..i])
    {
      assert sets[..i + 1] == sets[..i] + [sets[i]];
      InAllMore(sets[..i], sets[i]);
      result := result * sets[i];
    }
    assert sets[..|sets|] == sets;
  }

  method ApplyFacets(graph: Graph, f: Facets) returns (ids: seq<string>)
    ensures ids == Keep(graph, graph.idOrder, f)
  {
    var sets := FacetSets(graph, f);
    if sets.None? {
      KeepNone(graph, graph.idOrder, f);
      return [];
    }
    if sets.value == [] {
      KeepAll(graph, graph.idOrder, f);
      return graph.idOrder;
    }
    var result := Intersect(sets.value);
    ids := [];
    for i := 0 to |graph.idOrder|
      invariant ids == Keep(graph, graph.idOrder[..i], f)
    {
      assert Front(graph.idOrder[..i + 1]) == graph.idOrder[..i] && Last(graph.idOrder[..i + 1]) == graph.idOrder[i];
      if graph.idOrder[i] in result {
        ids := ids + [graph.idOrder[i]];
      }
    }
    assert graph.idOrder[..|graph.idOrder|] == graph.idOrder;
  }

  // ------------------------------------------------------- the plain scan

  /** The turn that a record falls into: how many user messages there are up to it, beyond a leading one. */
  function TurnAt(records: seq<Record>, i: nat): nat
    requires i < |records|
  {
    if i == 0 then 0 else TurnAt(records, i - 1) + if IsUserMessage(records[i]) then 1 else 0
  }

  predicate Accepts(records: seq<Record>, i: nat, f: Facets)
    requires i < |records|
  {
    && (f.turn.Some? ==> TurnAt(records, i) == f.turn.value)
    && (f.file.Some? ==> ExtractFilePath(records[i]) == f.file)
    && (f.tool.Some? ==> ExtractToolName(records[i]) == f.tool)
    && (f.agent.Some? ==> Truthy(records[i].agentId) == f.agent)
  }

  /** Brute force: the ids of the first n records that match, in order. */
  function Scan(records: seq<Record>, n: nat, f: Facets): seq<string>
    requires n <= |records|
  {
    if n == 0 then []
    else Scan(records, n - 1, f) + if Accepts(records, n - 1, f) then [records[n - 1].id] else []
  }

  predicate DistinctRecordIds(records: seq<Record>) {
    forall i, j :: 0 <= i < j < |records| ==> records[i].id != records[j].id
  }

  lemma {:induction false} DistinctIdsAreIds(records: seq<Record>)
    requires DistinctRecordIds(records)
    ensures DistinctIds(records) == Ids(records)
  {
    if records != [] {
      DistinctIdsAreIds(Front(records));
      assert Ids(records) == Ids(Front(records)) + [Last(records).id];
    }
  }

  lemma {:induction false} InIndex(records: seq<Record>, axis: Axis, value: string, i: nat)
    requires DistinctRecordIds(records) && i < |records|
    ensures records[i].id in IdsWhere(records, axis, value) <==> Attribute(records[i], axis) == Some(value)
  {
    var n := |records| - 1;
    OnlyTheirIds(Front(records), axis, value);
    if i < n {
      InIndex(Front(records), axis, value, i);
    }
  }

  lemma {:induction false} OnlyTheirIds(records: seq<Record>, axis: Axis, value: string)
    ensures forall id :: id in IdsWhere(records, axis, value) ==> exists j :: 0 <= j < |records| && records[j].id == id
  {
    if records != [] {
      OnlyTheirIds(Front(records), axis, value);
      forall id | id in IdsWhere(records, axis, value) ensures exists j :: 0 <= j < |records| && records[j].id == id {
        if id in IdsWhere(Front(records), axis, value) {
          var j :| 0 <= j < |Front(records)| && Front(records)[j].id == id;
          assert records[j].id == id;
        }
      }
    }
  }

  lemma {:induction false} GroupCount(records: seq<Record>)
    requires records != []
    ensures |Groups(records)| == TurnAt(records, |records| - 1) + 1
  {
    var n := |records| - 1;
    if n > 0 {
      GroupCount(Front(records));
      SameTurn(records, n, n - 1);
    }
  }

  lemma {:induction false} LastRecordIsInLastGroup(records: seq<Record>, t: nat)
    requires DistinctRecordIds(records) && records != [] && t < |Groups(records)|
    ensures Last(records).id in Ids(Groups(records)[t]) <==> t == |Groups(records)| - 1
  {
    var n := |records| - 1;
    var group := Groups(records)[t];
    if t == |Groups(records)| - 1 {
      assert Last(group) == records[n];
      assert Ids(group)[|group| - 1] == records[n].id;
    } else {
      GroupsHoldRecords(Front(records));
      assert group == Groups(Front(records))[t];
      forall k | 0 <= k < |group| ensures group[k].id != records[n].id {
        assert group[k] in Front(records);
        var j :| 0 <= j < n && Front(records)[j] == group[k];
        assert records[j].id != records[n].id;
      }
    }
  }

  /** The groups number their records as the plain scan does. */
  lemma {:induction false} InGroup(records: seq<Record>, i: nat, t: nat)
    requires DistinctRecordIds(records) && i < |records| && t < |Groups(records)|
    ensures records[i].id in Ids(Groups(records)[t]) <==> TurnAt(records, i) == t
  {
    var n := |records| - 1;
    GroupCount(records);
    if i == n {
      LastRecordIsInLastGroup(records, t);
    } else {
      var front, before := Front(records), Groups(Front(records));
      GroupCount(front);
      TurnsOnlyGrow(front, i);
      SameTurn(records, n, i);
      if t < |before| {
        InGroup(front, i, t);
      }
      EarlierRecordKeepsItsGroup(records, i, t);
    }
  }

  lemma {:induction false} EarlierRecordKeepsItsGroup(records: seq<Record>, i: nat, t: nat)
    requires DistinctRecordIds(records) && i < |records| - 1 && t < |Groups(records)|
    ensures var before := Groups(Front(records));
            records[i].id in Ids(Groups(records)[t]) <==> t < |before| && records[i].id in Ids(before[t])
  {
    var before, last := Groups(Front(records)), Last(records);
    assert records[i].id != last.id;
    assert Ids([last]) == [last.id];
    assert Ids(Last(before) + [last]) == Ids(Last(before)) + [last.id];
  }

  lemma {:induction false} SameTurn(records: seq<Record>, n: nat, i: nat)
    requires i < n < |records|
    ensures TurnAt(records[..n], i) == TurnAt(records, i)
    decreases i
  {
    if i > 0 {
      SameTurn(records, n, i - 1);
    }
  }

  lemma {:induction false} GroupsHoldRecords(records: seq<Record>)
    ensures forall t, k :: 0 <= t < |Groups(records)| && 0 <= k < |Groups(records)[t]| ==> Groups(records)[t][k] in records
  {
    if records != [] {
      GroupsHoldRecords(Front(records));
      assert records == Front(records) + [Last(records)];
    }
  }

  lemma FacetsMatchScan(records: seq<Record>, i: nat, f: Facets)
    requires DistinctRecordIds(records) && i < |records|
    ensures InFacets(GraphOf(records), records[i].id, f) <==> Accepts(records, i, f)
  {
    if f.file.Some? {
      IndexAgreesWithScan(records, ByFile, f.file.value);
      InIndex(records, ByFile, f.file.value, i);
    }
    if f.tool.Some? {
      IndexAgreesWithScan(records, ByTool, f.tool.value);
      InIndex(records, ByTool, f.tool.value, i);
    }
    if f.agent.Some? {
      IndexAgreesWithScan(records, ByAgent, f.agent.value);
      InIndex(records, ByAgent, f.agent.value, i);
    }
    InTurnMatchesScan(records, i, f.turn);
  }

  lemma {:induction false} InTurnMatchesScan(records: seq<Record>, i: nat, turn: Option<int>)
    requires DistinctRecordIds(records) && i < |records|
    ensures turn.Some? ==> (InTurn(GraphOf(records), records[i].id, turn.value) <==> TurnAt(records, i) == turn.value)
  {
    GroupCount(records);
    TurnsOnlyGrow(records, i);
    if turn.Some? && 0 <= turn.value < |Groups(records)| {
      InGroup(records, i, turn.value);
    }
  }

  lemma {:induction false} TurnsOnlyGrow(records: seq<Record>, i: nat)
    requires i < |records|
    ensures TurnAt(records, i) <= TurnAt(records, |records| - 1)
    decreases |records| - i
  {
    if i + 1 < |records| {
      TurnsOnlyGrow(records, i + 1);
    }
  }

  lemma {:induction false} KeepIsScan(records: seq<Record>, n: nat, f: Facets)
    requires DistinctRecordIds(records) && n <= |records|
    ensures Keep(GraphOf(records), Ids(records)[..n], f) == Scan(records, n, f)
  {
    if n > 0 {
      assert Front(Ids(records)[..n]) == Ids(records)[..n - 1] && Last(Ids(records)[..n]) == records[n - 1].id;
      KeepIsScan(records, n - 1, f);
      FacetsMatchScan(records, n - 1, f);
    }
  }

  /** Any combination of facets selects exactly what a brute-force scan of the records selects, in record order. */
  lemma {:induction false} FacetsAgreeWithScan(records: seq<Record>, f: Facets)
    requires DistinctRecordIds(records)
    ensures Keep(GraphOf(records), GraphOf(records).idOrder, f) == Scan(records, |records|, f)
  {
    DistinctIdsAreIds(records);
    assert Ids(records)[..|records|] == Ids(records);
    KeepIsScan(records, |records|, f);
  }

  // ------------------------------------------------- ids that records share

  /** Some record has the id and falls into the turn. */
  ghost predicate HasInTurn(records: seq<Record>, id: string, turn: int) {
    exists i :: 0 <= i < |records| && records[i].id == id && TurnAt(records, i) == turn
  }

  ghost predicate HasWith(records: seq<Record>, id: string, axis: Axis, value: string) {
    exists i :: 0 <= i < |records| && records[i].id == id && Attribute(records[i], axis) == Some(value)
  }

  lemma {:induction false} IndexedIds(records: seq<Record>, id: string, axis: Axis, value: string)
    ensures id in IdsWhere(records, axis, value) <==> HasWith(records, id, axis, value)
  {
    if records != [] {
      var front, n := Front(records), |records| - 1;
      IndexedIds(front, id, axis, value);
      assert forall i :: 0 <= i < n ==> front[i] == records[i];
      if HasWith(front, id, axis, value) {
        var i :| 0 <= i < n && front[i].id == id && Attribute(front[i], axis) == Some(value);
        assert records[i].id == id && Attribute(records[i], axis) == Some(value);
      }
    }
  }

  lemma {:induction false} HasInTurnMore(records: seq<Record>, id: string, turn: int)
    requires records != []
    ensures HasInTurn(records, id, turn) <==>
              HasInTurn(Front(records), id, turn) || (Last(records).id == id && TurnAt(records, |records| - 1) == turn)
  {
    var front, n := Front(records), |records| - 1;
    forall i | 0 <= i < n ensures TurnAt(front, i) == TurnAt(records, i) && front[i] == records[i] {
      SameTurn(records, n, i);
    }
    if HasInTurn(front, id, turn) {
      var i :| 0 <= i < n && front[i].id == id && TurnAt(front, i) == turn;
      assert records[i].id == id && TurnAt(records, i) == turn;
    }
    if HasInTurn(records, id, turn) {
      var i :| 0 <= i < |records| && records[i].id == id && TurnAt(records, i) == turn;
      if i < n {
        assert front[i].id == id && TurnAt(front, i) == turn;
      }
    }
  }

  lemma {:induction false} GroupedIdsMore(records: seq<Record>, id: string, t: nat)
    requires records != [] && t < |Groups(records)|
    ensures var before := Groups(Front(records));
            id in Ids(Groups(records)[t]) <==>
              (t < |before| && id in Ids(before[t])) || (Last(records).id == id && t == |Groups(records)| - 1)
  {
    var before, last := Groups(Front(records)), Last(records);
    assert Ids([last]) == [last.id];
    if before != [] {
      assert Ids(Last(before) + [last]) == Ids(Last(before)) + [last.id];
    }
  }

  lemma {:induction false} GroupedIds(records: seq<Record>, id: string, t: nat)
    requires t < |Groups(records)|
    ensures id in Ids(Groups(records)[t]) <==> HasInTurn(records, id, t)
  {
    var front := Front(records);
    GroupCount(records);
    HasInTurnMore(records, id, t);
    GroupedIdsMore(records, id, t);
    if front == [] {
      assert !HasInTurn(front, id, t);
    } else if t < |Groups(front)| {
      GroupedIds(front, id, t);
    } else {
      NoSuchTurn(front, id, t);
    }
  }

  lemma {:induction false} NoSuchTurn(records: seq<Record>, id: string, turn: int)
    requires !(0 <= turn < |Groups(records)|)
    ensures !HasInTurn(records, id, turn)
  {
    forall i | 0 <= i < |records| ensures TurnAt(records, i) != turn {
      GroupCount(records);
      TurnsOnlyGrow(records, i);
    }
  }

  /**
   For any records, whether or not they share ids: an id is selected if and only if some record has it and, for each
   facet asked for, some record with this id has that facet.
   */
  lemma {:induction false} SelectedExactlyWhen(records: seq<Record>, f: Facets, id: string)
    ensures id in Keep(GraphOf(records), GraphOf(records).idOrder, f) <==>
              && (exists i :: 0 <= i < |records| && records[i].id == id)
              && (f.turn.Some? ==> HasInTurn(records, id, f.turn.value))
              && (f.file.Some? ==> HasWith(records, id, ByFile, f.file.value))
              && (f.tool.Some? ==> HasWith(records, id, ByTool, f.tool.value))
              && (f.agent.Some? ==> HasWith(records, id, ByAgent, f.agent.value))
  {
    RecordsAreKeptById(records, id);
    InKeep(GraphOf(records), GraphOf(records).idOrder, f, id);
    if f.turn.Some? {
      TurnHolds(records, id, f.turn.value);
    }
    if f.file.Some? {
      IndexAgreesWithScan(records, ByFile, f.file.value);
      IndexedIds(records, id, ByFile, f.file.value);
    }
    if f.tool.Some? {
      IndexAgreesWithScan(records, ByTool, f.tool.value);
      IndexedIds(records, id, ByTool, f.tool.value);
    }
    if f.agent.Some? {
      IndexAgreesWithScan(records, ByAgent, f.agent.value);
      IndexedIds(records, id, ByAgent, f.agent.value);
    }
  }

  lemma {:induction false} TurnHolds(records: seq<Record>, id: string, turn: int)
    ensures InTurn(GraphOf(records), id, turn) <==> HasInTurn(records, id, turn)
  {
    if 0 <= turn < |Groups(records)| {
      GroupedIds(records, id, turn);
    } else {
      NoSuchTurn(records, id, turn);
    }
  }

  lemma {:induction false} InKeep(graph: Graph, ids: seq<string>, f: Facets, id: string)
    ensures id in Keep(graph, ids, f) <==> id in ids && InFacets(graph, id, f)
  {
    if ids != [] {
      assert ids == Front(ids) + [Last(ids)];
      InKeep(graph, Front(ids), f, id);
    }
  }
}
