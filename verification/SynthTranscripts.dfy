/** The synthetic session generator (scripts/synth_transcripts.py). Random draws are arbitrary; drawn ids are fresh. */
module SynthTranscripts {
  import opened Sequences
  import opened Transcripts
  import opened Wrappers

  // ------------------------------------------------------------ what is emitted

  datatype Body =
    | Snapshot
    | Hook
    | UserPrompt
    | Result(toolUseId: nat)
    | AssistantText(thinking: bool)
    | AssistantToolUse(toolId: nat, thinking: bool)
    | BashProgress
    | AgentProgress
    | TurnDuration
    | StopHook
    | ApiError
    | CompactBoundary

  function Said(role: string, thinking: bool, block: Block): Option<Message> {
    Some(Message(Some(role), (if thinking then [Thinking] else []) + [block]))
  }

  /** The `emit_*` functions: a body inside the common envelope. */
  function LineOf(body: Body, uuid: Uuid, parent: Option<Uuid>, time: int): Line {
    var bare := Line(NoType, Some(uuid), parent, Some(time), None, None, None);
    match body
    case Snapshot => bare.(kind := FileHistorySnapshot)
    case Hook => bare.(kind := Progress, data := Some(Data(Some("hook_progress"))))
    case UserPrompt => bare.(kind := User, message := Said("user", false, Prompt))
    case Result(toolUseId) => bare.(kind := User, message := Said("user", false, ToolResult(toolUseId)))
    case AssistantText(thinking) => bare.(kind := Assistant, message := Said("assistant", thinking, Text))
    case AssistantToolUse(toolId, thinking) => bare.(kind := Assistant, message := Said("assistant", thinking, ToolUse(toolId)))
    case BashProgress => bare.(kind := Progress, data := Some(Data(Some("bash_progress"))))
    case AgentProgress => bare.(kind := Progress, data := Some(Data(Some("agent_progress"))))
    case TurnDuration => bare.(kind := System, subtype := Some("turn_duration"))
    case StopHook => bare.(kind := System, subtype := Some("stop_hook_summary"))
    case ApiError => bare.(kind := System, subtype := Some("api_error"))
    case CompactBoundary => bare.(kind := System, subtype := Some("compact_boundary"))
  }

  /** The tool call that a line makes, or answers. */
  function CallIn(line: Line): Option<nat> {
    if line.message.None? || line.message.value.blocks == [] || !Last(line.message.value.blocks).ToolUse? then None
    else Some(Last(line.message.value.blocks).toolId)
  }

  function AnswerIn(line: Line): Option<nat> {
    if line.message.None? || line.message.value.blocks == [] || !Last(line.message.value.blocks).ToolResult? then None
    else Some(Last(line.message.value.blocks).toolUseId)
  }

  lemma WhatBodiesCarry(body: Body, uuid: Uuid, parent: Option<Uuid>, time: int)
    ensures var line := LineOf(body, uuid, parent, time);
            && WellFormedBody(line) && line.uuid == Some(uuid) && line.parent == parent && line.timestamp == Some(time)
            && CallIn(line) == (if body.AssistantToolUse? then Some(body.toolId) else None)
            && AnswerIn(line) == (if body.Result? then Some(body.toolUseId) else None)
  {
  }

  // ------------------------------------------------------- the tool protocol

  /** Where a session stands between tool calls: none is open, one is, or the protocol was broken. */
  datatype Protocol = Idle | Waiting(call: Option<Uuid>, toolId: nat) | Broken

  function After(p: Protocol, line: Line): Protocol {
    if CallIn(line).Some? then
      if p.Idle? then Waiting(line.uuid, CallIn(line).value) else Broken
    else if AnswerIn(line).Some? then
      if p.Waiting? && p.toolId == AnswerIn(line).value && p.call == line.parent then Idle else Broken
    else p
  }

  function Standing(lines: seq<Line>): Protocol {
    if lines == [] then Idle else After(Standing(Front(lines)), Last(lines))
  }

  predicate DistinctCalls(lines: seq<Line>) {
    forall i, j :: 0 <= i < j < |lines| && CallIn(lines[i]).Some? ==> CallIn(lines[i]) != CallIn(lines[j])
  }

  /** Line j answers the call in line i: it names it, hangs from it, and no other call lies between. */
  predicate Answers(lines: seq<Line>, i: nat, j: nat) {
    && i < j < |lines| && CallIn(lines[i]).Some?
    && AnswerIn(lines[j]) == CallIn(lines[i]) && lines[j].parent == lines[i].uuid
    && forall k :: i < k < j ==> CallIn(lines[k]).None?
  }

  /** The call in line i is the open one, and nothing has named it yet. */
  predicate IsOpen(lines: seq<Line>, i: nat) {
    && i < |lines| && CallIn(lines[i]).Some? && Standing(lines) == Waiting(lines[i].uuid, CallIn(lines[i]).value)
    && (forall k :: i < k < |lines| ==> CallIn(lines[k]).None?)
    && (forall k :: 0 <= k < |lines| ==> AnswerIn(lines[k]) != CallIn(lines[i]))
  }

  predicate AnsweredOnce(lines: seq<Line>, i: nat, j: nat) {
    Answers(lines, i, j) && forall k :: 0 <= k < |lines| && AnswerIn(lines[k]) == CallIn(lines[i]) ==> k == j
  }

  /** Every answer was to some call before it. */
  lemma {:induction false} AnswersHaveCalls(lines: seq<Line>, k: nat)
    requires !Standing(lines).Broken? && k < |lines| && AnswerIn(lines[k]).Some? && CallIn(lines[k]).None?
    ensures exists i :: 0 <= i < k && CallIn(lines[i]) == AnswerIn(lines[k])
  {
    var n := |lines| - 1;
    if k < n {
      AnswersHaveCalls(Front(lines), k);
      var i :| 0 <= i < k && CallIn(Front(lines)[i]) == AnswerIn(Front(lines)[k]);
      assert CallIn(lines[i]) == AnswerIn(lines[k]);
    } else {
      var i := OpenCall(Front(lines));
      assert CallIn(lines[i]) == AnswerIn(lines[k]);
    }
  }

  lemma {:induction false} OpenCall(lines: seq<Line>) returns (i: nat)
    requires Standing(lines).Waiting?
    ensures i < |lines| && CallIn(lines[i]) == Some(Standing(lines).toolId) && lines[i].uuid == Standing(lines).call
    ensures forall k :: i < k < |lines| ==> CallIn(lines[k]).None? && AnswerIn(lines[k]).None?
  {
    var n := |lines| - 1;
    if CallIn(lines[n]).Some? {
      i := n;
    } else {
      i := OpenCall(Front(lines));
      assert forall k :: i < k < n ==> Front(lines)[k] == lines[k];
    }
  }

  /** While the protocol holds, every call is either the open one or answered exactly once, before the next call. */
  lemma {:induction false} EveryCallIsOpenOrAnswered(lines: seq<Line>, i: nat)
    requires !Standing(lines).Broken? && DistinctCalls(lines) && i < |lines| && CallIn(lines[i]).Some?
    ensures IsOpen(lines, i) || exists j :: 0 <= j < |lines| && AnsweredOnce(lines, i, j)
  {
    var front, last := Front(lines), Last(lines);
    assert lines == front + [last];
    if i == |front| {
      NewCallIsOpen(front, last);
    } else {
      EveryCallIsOpenOrAnswered(front, i);
      if IsOpen(front, i) {
        OpenIsKeptOrAnswered(front, last, i);
      } else {
        var j :| 0 <= j < |front| && AnsweredOnce(front, i, j);
        AnsweredStays(front, last, i, j);
      }
    }
  }

  lemma {:induction false} NewCallIsOpen(front: seq<Line>, last: Line)
    requires CallIn(last).Some? && DistinctCalls(front + [last]) && !Standing(front + [last]).Broken?
    ensures IsOpen(front + [last], |front|)
  {
    var lines := front + [last];
    assert Front(lines) == front && Last(lines) == last;
    forall k | 0 <= k < |lines| ensures AnswerIn(lines[k]) != CallIn(last) {
      if k < |front| {
        assert lines[k] == front[k];
        NewCallIsNotAnswered(front, last, k);
      }
    }
  }

  lemma {:induction false} NewCallIsNotAnswered(front: seq<Line>, last: Line, k: nat)
    requires CallIn(last).Some? && DistinctCalls(front + [last]) && !Standing(front).Broken? && k < |front|
    ensures AnswerIn(front[k]) != CallIn(last)
  {
    var lines := front + [last];
    assert lines[|front|] == last && forall i :: 0 <= i < |front| ==> lines[i] == front[i];
    if AnswerIn(front[k]) == CallIn(last) {
      AnswersHaveCalls(front, k);
    }
  }

  lemma {:induction false} OpenIsKeptOrAnswered(front: seq<Line>, last: Line, i: nat)
    requires IsOpen(front, i) && !Standing(front + [last]).Broken?
    ensures IsOpen(front + [last], i) || AnsweredOnce(front + [last], i, |front|)
  {
    var lines := front + [last];
    assert Front(lines) == front && Last(lines) == last;
    assert forall k :: 0 <= k < |front| ==> lines[k] == front[k];
  }

  lemma {:induction false} AnsweredStays(front: seq<Line>, last: Line, i: nat, j: nat)
    requires DistinctCalls(front) && j < |front| && AnsweredOnce(front, i, j) && !Standing(front + [last]).Broken?
    ensures AnsweredOnce(front + [last], i, j)
  {
    var lines := front + [last];
    assert Front(lines) == front && Last(lines) == last;
    assert forall k :: 0 <= k < |front| ==> lines[k] == front[k];
    if CallIn(last).None? && AnswerIn(last) == CallIn(front[i]) {
      var open := OpenCall(front);
      assert false;
    }
  }

  /** In a finished session, every call is answered exactly once, by a result that hangs from it, before the next call. */
  lemma {:induction false} EveryCallIsAnsweredOnce(lines: seq<Line>, i: nat)
    requires Standing(lines) == Idle && DistinctCalls(lines) && i < |lines| && CallIn(lines[i]).Some?
    ensures exists j :: 0 <= j < |lines| && AnsweredOnce(lines, i, j)
  {
    EveryCallIsOpenOrAnswered(lines, i);
  }

  // ------------------------------------------------------------ the generator

  predicate Emitted(lines: seq<Line>, u: Uuid) {
    exists j :: 0 <= j < |lines| && lines[j].uuid == Some(u)
  }

  /** The lines emitted so far, against the ids drawn and the clock's microseconds. */
  ghost predicate Sound(lines: seq<Line>, usedIds: set<int>, usedTools: set<int>, now: nat) {
    && Valid(lines) && DistinctCalls(lines)
    && (forall i :: 0 <= i < |lines| ==>
          && lines[i].uuid.Some? && lines[i].uuid.value.Drawn? && lines[i].uuid.value.bits in usedIds
          && lines[i].timestamp.Some? && lines[i].timestamp.value <= now / 1000
          && (CallIn(lines[i]).Some? ==> CallIn(lines[i]).value in usedTools))
  }

  lemma {:induction false} EmitKeepsSound(lines: seq<Line>, usedIds: set<int>, usedTools: set<int>, now: nat,
                       body: Body, bits: nat, parent: Option<Uuid>, now': nat)
    requires Sound(lines, usedIds, usedTools, now)
    requires bits !in usedIds && now' >= now && (parent.Some? ==> Emitted(lines, parent.value))
    requires body.AssistantToolUse? ==> body.toolId in usedTools && forall i :: 0 <= i < |lines| ==> CallIn(lines[i]) != Some(body.toolId)
    ensures Sound(lines + [LineOf(body, Drawn(bits), parent, now' / 1000)], usedIds + {bits}, usedTools, now')
    ensures Standing(lines + [LineOf(body, Drawn(bits), parent, now' / 1000)])
            == After(Standing(lines), LineOf(body, Drawn(bits), parent, now' / 1000))
  {
    var line := LineOf(body, Drawn(bits), parent, now' / 1000);
    WhatBodiesCarry(body, Drawn(bits), parent, now' / 1000);
    assert Front(lines + [line]) == lines && Last(lines + [line]) == line;
    SoundExtends(lines, usedIds, usedTools, now, line, bits, now');
  }

  lemma SoundExtends(lines: seq<Line>, usedIds: set<int>, usedTools: set<int>, now: nat, line: Line, bits: nat, now': nat)
    requires Sound(lines, usedIds, usedTools, now) && WellFormedBody(line)
    requires line.uuid == Some(Drawn(bits)) && bits !in usedIds
    requires line.timestamp == Some(now' / 1000) && now' >= now
    requires line.parent.Some? ==> Emitted(lines, line.parent.value)
    requires CallIn(line).Some? ==> CallIn(line).value in usedTools && forall i :: 0 <= i < |lines| ==> CallIn(lines[i]) != CallIn(line)
    ensures Sound(lines + [line], usedIds + {bits}, usedTools, now')
  {
    assert Extends(lines, line);
    ValidExtends(lines, line);
  }

  /** More ids drawn and time gone by do no harm. */
  lemma SoundLater(lines: seq<Line>, usedIds: set<int>, usedTools: set<int>, now: nat, usedIds': set<int>, usedTools': set<int>, now': nat)
    requires Sound(lines, usedIds, usedTools, now) && usedIds <= usedIds' && usedTools <= usedTools' && now <= now'
    ensures Sound(lines, usedIds', usedTools', now')
  {
  }

  /** How an emitted body moves the tool protocol. */
  function Move(p: Protocol, body: Body, uuid: Uuid, parent: Option<Uuid>): Protocol {
    match body
    case AssistantToolUse(toolId, _) => if p.Idle? then Waiting(Some(uuid), toolId) else Broken
    case Result(toolUseId) => if p.Waiting? && p.toolId == toolUseId && p.call == parent then Idle else Broken
    case _ => p
  }

  lemma {:induction false} AfterIsMove(p: Protocol, body: Body, uuid: Uuid, parent: Option<Uuid>, time: int)
    ensures After(p, LineOf(body, uuid, parent, time)) == Move(p, body, uuid, parent)
  {
    WhatBodiesCarry(body, uuid, parent, time);
  }

  /** The lines' ids, and where the tool protocol stands after them. */
  ghost predicate Describes(lines: seq<Line>, emitted: set<Uuid>, standing: Protocol) {
    standing == Standing(lines) && forall u :: u in emitted ==> Emitted(lines, u)
  }

  lemma {:induction false} DescribesMore(lines: seq<Line>, emitted: set<Uuid>, standing: Protocol, body: Body, uuid: Uuid,
                                         parent: Option<Uuid>, time: int)
    requires Describes(lines, emitted, standing)
    ensures Describes(lines + [LineOf(body, uuid, parent, time)], emitted + {uuid}, Move(standing, body, uuid, parent))
  {
    var line := LineOf(body, uuid, parent, time);
    WhatBodiesCarry(body, uuid, parent, time);
    AfterIsMove(standing, body, uuid, parent, time);
    EmittedGrows(lines, line);
    assert Front(lines + [line]) == lines && Last(lines + [line]) == line;
  }

  /** What holds of the lines and the ghost fields beside them at any time. */
  datatype Law = Soundness | Description

  ghost predicate Holds(law: Law, lines: seq<Line>, usedIds: set<int>, usedTools: set<int>, now: nat, emitted: set<Uuid>, standing: Protocol) {
    match law
    case Soundness => Sound(lines, usedIds, usedTools, now)
    case Description => Describes(lines, emitted, standing)
  }

  ghost predicate Lawful(lines: seq<Line>, usedIds: set<int>, usedTools: set<int>, now: nat, emitted: set<Uuid>, standing: Protocol) {
    forall law: Law :: Holds(law, lines, usedIds, usedTools, now, emitted, standing)
  }

  lemma {:induction false} LawfulMeans(lines: seq<Line>, usedIds: set<int>, usedTools: set<int>, now: nat, emitted: set<Uuid>, standing: Protocol)
    ensures Lawful(lines, usedIds, usedTools, now, emitted, standing)
            <==> Sound(lines, usedIds, usedTools, now) && Describes(lines, emitted, standing)
  {
    if Lawful(lines, usedIds, usedTools, now, emitted, standing) {
      assert Holds(Soundness, lines, usedIds, usedTools, now, emitted, standing);
      assert Holds(Description, lines, usedIds, usedTools, now, emitted, standing);
    }
  }

  lemma {:induction false} LawfulLater(lines: seq<Line>, usedIds: set<int>, usedTools: set<int>, now: nat, emitted: set<Uuid>, standing: Protocol,
                                       usedIds': set<int>, usedTools': set<int>, now': nat)
    requires Lawful(lines, usedIds, usedTools, now, emitted, standing)
    requires usedIds <= usedIds' && usedTools <= usedTools' && now <= now'
    ensures Lawful(lines, usedIds', usedTools', now', emitted, standing)
  {
    LawfulMeans(lines, usedIds, usedTools, now, emitted, standing);
    SoundLater(lines, usedIds, usedTools, now, usedIds', usedTools', now');
    LawfulMeans(lines, usedIds', usedTools', now', emitted, standing);
  }

  lemma {:induction false} LawfulMore(lines: seq<Line>, usedIds: set<int>, usedTools: set<int>, now: nat, emitted: set<Uuid>, standing: Protocol,
                                      body: Body, bits: nat, parent: Option<Uuid>, now': nat)
    requires Lawful(lines, usedIds, usedTools, now, emitted, standing)
    requires bits !in usedIds && now' >= now && (parent.Some? ==> parent.value in emitted)
    requires body.AssistantToolUse? ==> body.toolId in usedTools && forall i :: 0 <= i < |lines| ==> CallIn(lines[i]) != Some(body.toolId)
    ensures Lawful(lines + [LineOf(body, Drawn(bits), parent, now' / 1000)], usedIds + {bits}, usedTools, now',
                   emitted + {Drawn(bits)}, Move(standing, body, Drawn(bits), parent))
  {
    var more := lines + [LineOf(body, Drawn(bits), parent, now' / 1000)];
    LawfulMeans(lines, usedIds, usedTools, now, emitted, standing);
    EmitKeepsSound(lines, usedIds, usedTools, now, body, bits, parent, now');
    DescribesMore(lines, emitted, standing, body, Drawn(bits), parent, now' / 1000);
    LawfulMeans(more, usedIds + {bits}, usedTools, now', emitted + {Drawn(bits)}, Move(standing, body, Drawn(bits), parent));
  }

  /** A tool id not drawn before names no call so far. */
  lemma {:induction false} NewToolId(lines: seq<Line>, usedIds: set<int>, usedTools: set<int>, now: nat, emitted: set<Uuid>, standing: Protocol, toolId: nat)
    requires Lawful(lines, usedIds, usedTools, now, emitted, standing) && toolId !in usedTools
    ensures forall i :: 0 <= i < |lines| ==> CallIn(lines[i]) != Some(toolId)
  {
    LawfulMeans(lines, usedIds, usedTools, now, emitted, standing);
  }

  class Context {
    var lines: seq<Line>
    var lastUuid: Option<Uuid>
    var usedIds: set<int>
    var usedTools: set<int>
    var now: nat
    ghost var emitted: set<Uuid>
    ghost var standing: Protocol

    constructor (start: nat)
      ensures Good() && lines == [] && emitted == {} && standing == Idle
    {
      lines, lastUuid, usedIds, usedTools, now := [], None, {}, {}, start;
      emitted, standing := {}, Idle;
      LawfulMeans([], {}, {}, start, {}, Idle);
    }

    ghost predicate Good()
      reads this
    {
      Lawful(lines, usedIds, usedTools, now, emitted, standing)
    }

    /** A fresh random id. */
    method DrawUuid() returns (bits: nat)
      modifies this`usedIds
      ensures bits !in old(usedIds) && usedIds == old(usedIds) + {bits}
    {
      SomeNumberIsFree(usedIds);
      var n: int :| n >= 0 && n !in usedIds;
      usedIds := usedIds + {n};
      bits := n;
    }

    method DrawToolId() returns (toolId: nat)
      requires Good()
      modifies this`usedTools
      ensures Good() && toolId in usedTools && forall i :: 0 <= i < |lines| ==> CallIn(lines[i]) != Some(toolId)
    {
      SomeNumberIsFree(usedTools);
      var n: int :| n >= 0 && n !in usedTools;
      NewToolId(lines, usedIds, usedTools, now, emitted, standing, n);
      LawfulLater(lines, usedIds, usedTools, now, emitted, standing, usedIds, usedTools + {n}, now);
      usedTools := usedTools + {n};
      toolId := n;
    }

    /** The clock moves on by at least 50 milliseconds. */
    method Tick() returns (stamp: int)
      modifies this`now
      ensures now >= old(now) + 50000 && stamp == now / 1000
    {
      var gap: nat :| gap >= 50000;
      now := now + gap;
      stamp := now / 1000;
    }

    /** A fresh id and the next time stamp. */
    method MakeEnvelope() returns (bits: nat, stamp: int)
      modifies this`usedIds, this`now, this`lastUuid
      ensures bits !in old(usedIds) && usedIds == old(usedIds) + {bits} && lastUuid == Some(Drawn(bits))
      ensures now >= old(now) + 50000 && stamp == now / 1000
    {
      bits := DrawUuid();
      stamp := Tick();
      lastUuid := Some(Drawn(bits));
    }

    method Emit(body: Body, parent: Option<Uuid>) returns (uuid: Uuid, ghost line: Line)
      requires Good() && (parent.Some? ==> parent.value in emitted)
      requires body.AssistantToolUse? ==> body.toolId in usedTools && forall i :: 0 <= i < |lines| ==> CallIn(lines[i]) != Some(body.toolId)
      modifies this
      ensures Good() && uuid.Drawn? && uuid.bits !in old(usedIds)
      ensures lines == old(lines) + [line] && line == LineOf(body, uuid, parent, now / 1000) && now >= old(now) + 50000
      ensures emitted == old(emitted) + {uuid} && standing == Move(old(standing), body, uuid, parent)
    {
      ghost var ids, time := usedIds, now;
      var bits, stamp := MakeEnvelope();
      uuid := Drawn(bits);
      line := LineOf(body, uuid, parent, stamp);
      LawfulMore(lines, ids, usedTools, time, emitted, standing, body, bits, parent, now);
      lines := lines + [LineOf(body, uuid, parent, stamp)];
      emitted, standing := emitted + {uuid}, Move(standing, body, uuid, parent);
    }
  }

  lemma {:induction false} EmittedGrows(lines: seq<Line>, line: Line)
    ensures line.uuid.Some? ==> Emitted(lines + [line], line.uuid.value)
    ensures forall u :: Emitted(lines, u) ==> Emitted(lines + [line], u)
  {
    var longer := lines + [line];
    assert longer[|lines|] == line;
    forall u | Emitted(lines, u) ensures Emitted(longer, u) {
      var j :| 0 <= j < |lines| && lines[j].uuid == Some(u);
      assert longer[j].uuid == Some(u);
    }
  }

  // ------------------------------------------------------ what a line looks like

  /** The line as its own fields tell: a prompt, a final text, the answer of a tool. */
  predicate IsPrompt(line: Line) {
    line.message.Some? && line.message.value.blocks == [Prompt]
  }

  predicate IsText(line: Line) {
    line.message.Some? && line.message.value.blocks != [] && Last(line.message.value.blocks) == Text
  }

  predicate IsAnswer(line: Line) {
    line.message.Some? && line.message.value.blocks != [] && Last(line.message.value.blocks).ToolResult?
  }

  predicate IsCall(line: Line) {
    line.message.Some? && line.message.value.blocks != [] && Last(line.message.value.blocks).ToolUse?
  }

  /** None of the lines is a prompt or a final text. */
  predicate Between(lines: seq<Line>) {
    forall k :: 0 <= k < |lines| ==> !IsPrompt(lines[k]) && !IsText(lines[k])
  }

  lemma {:induction false} BetweenConcat(a: seq<Line>, b: seq<Line>)
    ensures Between(a + b) <==> Between(a) && Between(b)
  {
    forall k | 0 <= k < |a| + |b| ensures (a + b)[k] == if k < |a| then a[k] else b[k - |a|] {
    }
    assert forall k :: 0 <= k < |b| ==> b[k] == (a + b)[|a| + k];
    assert forall k :: 0 <= k < |a| ==> a[k] == (a + b)[k];
  }

  predicate IsProgress(line: Line, parent: Option<Uuid>) {
    line.kind == Progress && line.parent == parent && line.message == None
  }

  /** All of the lines are progress on the call. */
  predicate OnlyProgress(lines: seq<Line>, call: Uuid) {
    forall k :: 0 <= k < |lines| ==> IsProgress(lines[k], Some(call))
  }

  /** How many of the lines call a tool. */
  function CallCount(lines: seq<Line>): nat {
    if lines == [] then 0 else CallCount(Front(lines)) + if IsCall(Last(lines)) then 1 else 0
  }

  lemma {:induction false} CallCountConcat(a: seq<Line>, b: seq<Line>)
    ensures CallCount(a + b) == CallCount(a) + CallCount(b)
  {
    if b == [] {
      assert a + b == a;
    } else {
      assert Front(a + b) == a + Front(b);
      CallCountConcat(a, Front(b));
    }
  }

  lemma {:induction false} NoCalls(lines: seq<Line>)
    requires forall k :: 0 <= k < |lines| ==> !IsCall(lines[k])
    ensures CallCount(lines) == 0
  {
    if lines != [] {
      NoCalls(Front(lines));
    }
  }

  // ------------------------------------------------------ what is drawn

  /** What a tool cycle draws: the tool, whether it thinks first, hooks before and after, and a delegation for any tool. */
  datatype CycleDraw = CycleDraw(tool: string, thinks: bool, hookBefore: bool, delegates: bool, hookAfter: bool)

  datatype TurnDraw = TurnDraw(cycles: seq<CycleDraw>, thinks: bool, stopHook: bool)

  /** What a session draws: `turn` tells of every turn that may be played. */
  datatype SessionDraw = SessionDraw(snapshot: bool, wanted: int, turn: nat -> TurnDraw, compacts: bool, fails: bool)

  function Bit(b: bool): nat {
    if b then 1 else 0
  }

  predicate Delegates(d: CycleDraw) {
    d.tool == "Agent" || d.delegates
  }

  /** The call, its result, and a line for each thing drawn. */
  function CycleLength(d: CycleDraw): nat {
    2 + Bit(d.hookBefore) + Bit(d.tool == "Bash") + Bit(Delegates(d)) + Bit(d.hookAfter)
  }

  function CyclesLength(cycles: seq<CycleDraw>): nat {
    if cycles == [] then 0 else CyclesLength(Front(cycles)) + CycleLength(Last(cycles))
  }

  // ------------------------------------------------------ the `emit_*` functions

  method EmitUserPrompt(ctx: Context, parent: Option<Uuid>) returns (uuid: Uuid, ghost line: Line)
    requires ctx.Good() && (parent.Some? ==> parent.value in ctx.emitted)
    modifies ctx
    ensures ctx.Good() && ctx.lines == old(ctx.lines) + [line]
    ensures ctx.emitted == old(ctx.emitted) + {uuid} && ctx.standing == old(ctx.standing)
    ensures line.kind == User && line.message == Some(Message(Some("user"), [Prompt]))
    ensures line.uuid == Some(uuid) && line.parent == parent
  {
    uuid, line := ctx.Emit(UserPrompt, parent);
    assert [] + [Prompt] == [Prompt];
  }

  method EmitToolResult(ctx: Context, toolUseId: nat, parent: Option<Uuid>) returns (uuid: Uuid, ghost line: Line)
    requires ctx.Good() && (parent.Some? ==> parent.value in ctx.emitted)
    modifies ctx
    ensures ctx.Good() && ctx.lines == old(ctx.lines) + [line]
    ensures ctx.emitted == old(ctx.emitted) + {uuid}
    ensures ctx.standing == if old(ctx.standing) == Waiting(parent, toolUseId) then Idle else Broken
    ensures line.kind == User && line.message == Some(Message(Some("user"), [ToolResult(toolUseId)]))
    ensures line.uuid == Some(uuid) && line.parent == parent
  {
    uuid, line := ctx.Emit(Result(toolUseId), parent);
    assert [] + [ToolResult(toolUseId)] == [ToolResult(toolUseId)];
  }

  method EmitAssistantText(ctx: Context, parent: Option<Uuid>, thinking: bool) returns (uuid: Uuid, ghost line: Line)
    requires ctx.Good() && (parent.Some? ==> parent.value in ctx.emitted)
    modifies ctx
    ensures ctx.Good() && ctx.lines == old(ctx.lines) + [line]
    ensures ctx.emitted == old(ctx.emitted) + {uuid} && ctx.standing == old(ctx.standing)
    ensures line.kind == Assistant
    ensures line.message == Some(Message(Some("assistant"), if thinking then [Thinking, Text] else [Text]))
    ensures line.uuid == Some(uuid) && line.parent == parent
  {
    uuid, line := ctx.Emit(AssistantText(thinking), parent);
    assert [Thinking] + [Text] == [Thinking, Text] && [] + [Text] == [Text];
  }

  method EmitToolUse(ctx: Context, parent: Option<Uuid>, thinking: bool) returns (uuid: Uuid, toolId: nat, ghost line: Line)
    requires ctx.Good() && (parent.Some? ==> parent.value in ctx.emitted)
    modifies ctx
    ensures ctx.Good() && ctx.lines == old(ctx.lines) + [line]
    ensures ctx.emitted == old(ctx.emitted) + {uuid}
    ensures ctx.standing == if old(ctx.standing) == Idle then Waiting(Some(uuid), toolId) else Broken
    ensures line.kind == Assistant
    ensures line.message == Some(Message(Some("assistant"), if thinking then [Thinking, ToolUse(toolId)] else [ToolUse(toolId)]))
    ensures line.uuid == Some(uuid) && line.parent == parent
  {
    toolId := ctx.DrawToolId();
    uuid, line := ctx.Emit(AssistantToolUse(toolId, thinking), parent);
    assert [Thinking] + [ToolUse(toolId)] == [Thinking, ToolUse(toolId)] && [] + [ToolUse(toolId)] == [ToolUse(toolId)];
  }

  /** Progress of a hook, the shell or an agent. */
  method EmitProgress(ctx: Context, body: Body, parent: Option<Uuid>) returns (ghost line: Line)
    requires ctx.Good() && (parent.Some? ==> parent.value in ctx.emitted) && body in {Hook, BashProgress, AgentProgress}
    modifies ctx
    ensures ctx.Good() && ctx.lines == old(ctx.lines) + [line]
    ensures ctx.emitted >= old(ctx.emitted) && ctx.standing == old(ctx.standing)
    ensures line.kind == Progress && line.message == None && line.parent == parent
    ensures line.data == Some(Data(Some(if body == Hook then "hook_progress"
                                        else if body == BashProgress then "bash_progress" else "agent_progress")))
  {
    var uuid;
    uuid, line := ctx.Emit(body, parent);
  }

  /** The end of a turn, a stop hook's summary, an error or a compact boundary. */
  method EmitSystem(ctx: Context, body: Body, parent: Option<Uuid>) returns (ghost line: Line)
    requires ctx.Good() && (parent.Some? ==> parent.value in ctx.emitted)
    requires body in {TurnDuration, StopHook, ApiError, CompactBoundary}
    modifies ctx
    ensures ctx.Good() && ctx.lines == old(ctx.lines) + [line]
    ensures ctx.emitted >= old(ctx.emitted) && ctx.standing == old(ctx.standing)
    ensures line.kind == System && line.message == None && line.parent == parent
    ensures line.subtype == Some(if body == TurnDuration then "turn_duration" else if body == StopHook then "stop_hook_summary"
                                 else if body == ApiError then "api_error" else "compact_boundary")
  {
    var uuid;
    uuid, line := ctx.Emit(body, parent);
  }

  method EmitFileSnapshot(ctx: Context) returns (ghost line: Line)
    requires ctx.Good()
    modifies ctx
    ensures ctx.Good() && ctx.lines == old(ctx.lines) + [line]
    ensures ctx.emitted >= old(ctx.emitted) && ctx.standing == old(ctx.standing)
    ensures line.kind == FileHistorySnapshot && line.message == None && line.parent == None
  {
    var uuid;
    uuid, line := ctx.Emit(Snapshot, None);
  }

  // ------------------------------------------------------ one cycle

  predicate IsProgressOf(line: Line, parent: Uuid, kind: string) {
    IsProgress(line, Some(parent)) && line.data == Some(Data(Some(kind)))
  }

  /** One line of progress, if it was drawn. */
  predicate Maybe(added: seq<Line>, drawn: bool, parent: Uuid, kind: string) {
    |added| == Bit(drawn) && (drawn ==> IsProgressOf(added[0], parent, kind))
  }

  method MaybeProgress(ctx: Context, body: Body, parent: Uuid, drawn: bool) returns (ghost added: seq<Line>)
    requires ctx.Good() && parent in ctx.emitted && body in {Hook, BashProgress, AgentProgress}
    modifies ctx
    ensures ctx.Good() && ctx.lines == old(ctx.lines) + added
    ensures ctx.emitted >= old(ctx.emitted) && ctx.standing == old(ctx.standing)
    ensures Maybe(added, drawn, parent, if body == Hook then "hook_progress"
                                        else if body == BashProgress then "bash_progress" else "agent_progress")
  {
    added := [];
    if drawn {
      ghost var line := EmitProgress(ctx, body, Some(parent));
      added := [line];
    }
    assert ctx.lines + [] == ctx.lines;
  }

  /** A delegation draws an id for the agent. */
  method MaybeDelegate(ctx: Context, call: Uuid, drawn: bool) returns (ghost added: seq<Line>)
    requires ctx.Good() && call in ctx.emitted
    modifies ctx
    ensures ctx.Good() && ctx.lines == old(ctx.lines) + added
    ensures ctx.emitted >= old(ctx.emitted) && ctx.standing == old(ctx.standing)
    ensures Maybe(added, drawn, call, "agent_progress")
  {
    if drawn {
      ghost var ids := ctx.usedIds;
      var agentId := ctx.DrawUuid();
      LawfulLater(ctx.lines, ids, ctx.usedTools, ctx.now, ctx.emitted, ctx.standing, ctx.usedIds, ctx.usedTools, ctx.now);
    }
    added := MaybeProgress(ctx, AgentProgress, call, drawn);
  }

  /** Progress on a call: of the shell if it is one, of an agent if it delegates, and of a hook if one was drawn. */
  predicate Reports(added: seq<Line>, d: CycleDraw, call: Uuid) {
    var bash, agent := Bit(d.tool == "Bash"), Bit(Delegates(d));
    && |added| == bash + agent + Bit(d.hookAfter) && OnlyProgress(added, call)
    && (d.tool == "Bash" ==> IsProgressOf(added[0], call, "bash_progress"))
    && (Delegates(d) ==> IsProgressOf(added[bash], call, "agent_progress"))
    && (d.hookAfter ==> IsProgressOf(added[bash + agent], call, "hook_progress"))
  }

  lemma {:induction false} ReportsOf(d: CycleDraw, call: Uuid, a: seq<Line>, b: seq<Line>, c: seq<Line>)
    requires Maybe(a, d.tool == "Bash", call, "bash_progress") && Maybe(b, Delegates(d), call, "agent_progress")
    requires Maybe(c, d.hookAfter, call, "hook_progress")
    ensures Reports(a + b + c, d, call)
  {
    var added := a + b + c;
    forall k | 0 <= k < |added|
      ensures added[k] == if k < |a| then a[k] else if k < |a| + |b| then b[k - |a|] else c[k - |a| - |b|]
    {
    }
  }

  method ReportProgress(ctx: Context, call: Uuid, d: CycleDraw) returns (ghost added: seq<Line>)
    requires ctx.Good() && call in ctx.emitted
    modifies ctx
    ensures ctx.Good() && ctx.lines == old(ctx.lines) + added
    ensures ctx.emitted >= old(ctx.emitted) && ctx.standing == old(ctx.standing)
    ensures Reports(added, d, call)
  {
    ghost var start := ctx.lines;
    ghost var a := MaybeProgress(ctx, BashProgress, call, d.tool == "Bash");
    ghost var b := MaybeDelegate(ctx, call, d.tool == "Agent" || d.delegates);
    ghost var c := MaybeProgress(ctx, Hook, call, d.hookAfter);
    added := a + b + c;
    ThreeParts(start, a, b, c);
    ReportsOf(d, call, a, b, c);
  }

  lemma {:induction false} ThreeParts<T>(start: seq<T>, a: seq<T>, b: seq<T>, c: seq<T>)
    ensures start + a + b + c == start + (a + b + c)
  {
  }

  /**
   What a cycle adds: a hook's progress if drawn, the call, with thinking if drawn in a turn's first cycle, the
   progress on it, and its result, last.
   */
  predicate Cycle(added: seq<Line>, d: CycleDraw, first: bool, parent: Uuid, result: Uuid) {
    var at := Bit(d.hookBefore);
    && |added| == CycleLength(d) && (d.hookBefore ==> IsProgressOf(added[0], parent, "hook_progress"))
    && IsCall(added[at]) && added[at].kind == Assistant && added[at].parent == Some(parent) && added[at].uuid.Some?
    && |added[at].message.value.blocks| == 1 + Bit(d.thinks && first)
    && Reports(added[at + 1..|added| - 1], d, added[at].uuid.value)
    && IsAnswer(Last(added)) && Last(added).kind == User && Last(added).uuid == Some(result)
    && Last(added).parent == added[at].uuid
    && Last(Last(added).message.value.blocks).toolUseId == Last(added[at].message.value.blocks).toolId
    && Between(added) && CallCount(added) == 1
  }

  lemma {:induction false} CycleOf(d: CycleDraw, first: bool, h: seq<Line>, c: Line, p: seq<Line>, r: Line, toolId: nat,
                                   parent: Uuid, call: Uuid, result: Uuid)
    requires Maybe(h, d.hookBefore, parent, "hook_progress") && Reports(p, d, call)
    requires c.kind == Assistant && c.uuid == Some(call) && c.parent == Some(parent)
    requires c.message == Some(Message(Some("assistant"), if d.thinks && first then [Thinking, ToolUse(toolId)] else [ToolUse(toolId)]))
    requires r.kind == User && r.uuid == Some(result) && r.parent == Some(call)
    requires r.message == Some(Message(Some("user"), [ToolResult(toolId)]))
    ensures Cycle(h + [c] + p + [r], d, first, parent, result)
  {
    var added, at := h + [c] + p + [r], |h|;
    assert added[at] == c && Last(added) == r && added[at + 1..|added| - 1] == p;
    assert h != [] ==> added[0] == h[0];
    CycleIsBetween(h, c, p, r);
    CycleCallsOnce(h, c, p, r);
  }

  lemma {:induction false} CycleIsBetween(h: seq<Line>, c: Line, p: seq<Line>, r: Line)
    requires Between(h) && IsCall(c) && Between(p) && IsAnswer(r)
    ensures Between(h + [c] + p + [r])
  {
    assert Last([Prompt]) == Prompt;
    BetweenConcat(h, [c]);
    BetweenConcat(h + [c], p);
    BetweenConcat(h + [c] + p, [r]);
  }

  lemma {:induction false} CycleCallsOnce(h: seq<Line>, c: Line, p: seq<Line>, r: Line)
    requires IsCall(c) && IsAnswer(r)
    requires (forall k :: 0 <= k < |h| ==> !IsCall(h[k])) && forall k :: 0 <= k < |p| ==> !IsCall(p[k])
    ensures CallCount(h + [c] + p + [r]) == 1
  {
    NoCalls(h);
    NoCalls(p);
    CallCountConcat(h, [c]);
    CallCountConcat(h + [c], p);
    CallCountConcat(h + [c] + p, [r]);
    assert Front([c]) == [] && Front([r]) == [];
  }

  /** One tool cycle. */
  method ToolCycle(ctx: Context, parent: Uuid, d: CycleDraw, first: bool) returns (result: Uuid, ghost added: seq<Line>)
    requires ctx.Good() && ctx.standing == Idle && parent in ctx.emitted
    modifies ctx
    ensures ctx.Good() && ctx.standing == Idle && ctx.lines == old(ctx.lines) + added
    ensures ctx.emitted >= old(ctx.emitted) && result in ctx.emitted
    ensures Cycle(added, d, first, parent, result)
  {
    ghost var start := ctx.lines;
    ghost var h := MaybeProgress(ctx, Hook, parent, d.hookBefore);
    var call, toolId;
    ghost var c;
    call, toolId, c := EmitToolUse(ctx, Some(parent), d.thinks && first);
    ghost var p := ReportProgress(ctx, call, d);
    ghost var r;
    result, r := EmitToolResult(ctx, toolId, Some(call));
    added := h + [c] + p + [r];
    FourParts(start, h, [c], p, [r]);
    CycleOf(d, first, h, c, p, r, toolId, parent, call, result);
  }

  lemma {:induction false} FourParts<T>(start: seq<T>, a: seq<T>, b: seq<T>, c: seq<T>, d: seq<T>)
    ensures start + a + b + c + d == start + (a + b + c + d)
  {
  }

  /** After some cycles: what they added, and where the next line will hang, from the last result or else the prompt. */
  predicate Cycles(added: seq<Line>, cycles: seq<CycleDraw>, prompt: Uuid, current: Uuid) {
    && Between(added) && |added| == CyclesLength(cycles) && CallCount(added) == |cycles|
    && if cycles == [] then current == prompt
       else added != [] && IsAnswer(Last(added)) && Last(added).uuid == Some(current)
  }

  lemma {:induction false} OneMoreCycle(start: seq<Line>, added: seq<Line>, cycles: seq<CycleDraw>, prompt: Uuid, parent: Uuid,
                                        more: seq<Line>, d: CycleDraw, first: bool, result: Uuid)
    requires Cycles(added, cycles, prompt, parent) && Cycle(more, d, first, parent, result)
    ensures Cycles(added + more, cycles + [d], prompt, result) && start + added + more == start + (added + more)
  {
    BetweenConcat(added, more);
    CallCountConcat(added, more);
    assert Front(cycles + [d]) == cycles && Last(cycles + [d]) == d;
    assert Last(added + more) == Last(more);
  }

  /** The cycles of a turn, each on the result of the one before. */
  method ToolCycles(ctx: Context, prompt: Uuid, cycles: seq<CycleDraw>) returns (current: Uuid, ghost added: seq<Line>)
    requires ctx.Good() && ctx.standing == Idle && prompt in ctx.emitted
    modifies ctx
    ensures ctx.Good() && ctx.standing == Idle && ctx.lines == old(ctx.lines) + added
    ensures ctx.emitted >= old(ctx.emitted) && current in ctx.emitted && Cycles(added, cycles, prompt, current)
  {
    current, added := prompt, [];
    assert ctx.lines + [] == ctx.lines;
    for i := 0 to |cycles|
      invariant ctx.Good() && ctx.standing == Idle && current in ctx.emitted && ctx.emitted >= old(ctx.emitted)
      invariant ctx.lines == old(ctx.lines) + added && Cycles(added, cycles[..i], prompt, current)
    {
      ghost var more, parent;
      parent := current;
      current, more := ToolCycle(ctx, current, cycles[i], i == 0);
      OneMoreCycle(old(ctx.lines), added, cycles[..i], prompt, parent, more, cycles[i], i == 0, current);
      TakeOneMore(cycles, i);
      added := added + more;
    }
    TakeAll(cycles);
  }

  // ------------------------------------------------------ one turn

  /** What ends a turn: the final text, the turn's duration, and the summary of a stop hook if one was drawn. */
  predicate Ending(lines: seq<Line>, d: TurnDraw, current: Uuid, final: Uuid) {
    && |lines| == 2 + Bit(d.stopHook)
    && lines[0].kind == Assistant && IsText(lines[0]) && |lines[0].message.value.blocks| == 1 + Bit(d.thinks)
    && lines[0].uuid == Some(final) && lines[0].parent == Some(current)
    && lines[1].kind == System && lines[1].subtype == Some("turn_duration") && lines[1].parent == Some(final)
    && lines[1].message == None
    && (d.stopHook ==>
          && lines[2].kind == System && lines[2].subtype == Some("stop_hook_summary") && lines[2].parent == Some(final)
          && lines[2].message == None)
  }

  method MaybeStopHook(ctx: Context, final: Uuid, drawn: bool) returns (ghost added: seq<Line>)
    requires ctx.Good() && final in ctx.emitted
    modifies ctx
    ensures ctx.Good() && ctx.lines == old(ctx.lines) + added && ctx.emitted >= old(ctx.emitted) && ctx.standing == old(ctx.standing)
    ensures |added| == Bit(drawn)
    ensures drawn ==> added[0].kind == System && added[0].subtype == Some("stop_hook_summary")
                      && added[0].parent == Some(final) && added[0].message == None
  {
    added := [];
    if drawn {
      ghost var line := EmitSystem(ctx, StopHook, Some(final));
      added := [line];
    }
    assert ctx.lines + [] == ctx.lines;
  }

  /** The gap between turns. */
  method Pause(ctx: Context)
    requires ctx.Good()
    modifies ctx`now
    ensures ctx.Good()
  {
    ghost var time := ctx.now;
    var _ := ctx.Tick();
    LawfulLater(ctx.lines, ctx.usedIds, ctx.usedTools, time, ctx.emitted, ctx.standing, ctx.usedIds, ctx.usedTools, ctx.now);
  }

  method FinishTurn(ctx: Context, current: Uuid, d: TurnDraw) returns (final: Uuid, ghost added: seq<Line>)
    requires ctx.Good() && ctx.standing == Idle && current in ctx.emitted
    modifies ctx
    ensures ctx.Good() && ctx.standing == Idle && ctx.lines == old(ctx.lines) + added
    ensures ctx.emitted >= old(ctx.emitted) && final in ctx.emitted && Ending(added, d, current, final)
  {
    ghost var start := ctx.lines;
    ghost var text;
    final, text := EmitAssistantText(ctx, Some(current), d.thinks);
    ghost var duration := EmitSystem(ctx, TurnDuration, Some(final));
    ghost var hook := MaybeStopHook(ctx, final, d.stopHook);
    Pause(ctx);
    added := [text] + [duration] + hook;
    ThreeParts(start, [text], [duration], hook);
  }

  /** At most twenty cycles are played. */
  function Played(d: TurnDraw): seq<CycleDraw> {
    if |d.cycles| <= 20 then d.cycles else d.cycles[..20]
  }

  /**
   One turn. Its first line is the user's prompt, its only one, and hangs from the turn's parent. The returned id is
   that of the assistant's text, the only one, in the `m`-th line added, which hangs from the line before it: the last
   tool's answer, or the prompt if there is none. Behind it come the turn's duration and a stop hook's summary if drawn.
   Between them are the cycles drawn, up to twenty, with one call each and a line for everything else drawn.
   */
  method GenerateTurn(ctx: Context, parent: Option<Uuid>, d: TurnDraw) returns (final: Uuid, ghost added: seq<Line>, ghost m: nat)
    requires ctx.Good() && ctx.standing == Idle && (parent.Some? ==> parent.value in ctx.emitted)
    modifies ctx
    ensures ctx.Good() && ctx.standing == Idle && ctx.lines == old(ctx.lines) + added
    ensures ctx.emitted >= old(ctx.emitted) && final in ctx.emitted
    ensures var n := if |d.cycles| <= 20 then |d.cycles| else 20;
            m == 1 + CyclesLength(d.cycles[..n]) && CallCount(added) == n && (m == 1 <==> n == 0)
    ensures |added| == m + if d.stopHook then 3 else 2
    ensures added[0].kind == User && added[0].message == Some(Message(Some("user"), [Prompt])) && added[0].parent == parent
    ensures forall k :: 0 < k < |added| ==> !(added[k].message.Some? && added[k].message.value.blocks == [Prompt])
    ensures added[m].kind == Assistant && added[m].uuid == Some(final) && added[m].parent == added[m - 1].uuid != None
    ensures added[m].message.Some? && added[m].message.value.blocks != [] && Last(added[m].message.value.blocks) == Text
    ensures m == 1 || (added[m - 1].message.Some? && added[m - 1].message.value.blocks != []
                       && Last(added[m - 1].message.value.blocks).ToolResult?)
    ensures forall k :: 0 <= k < |added| && k != m && added[k].message.Some? && added[k].message.value.blocks != [] ==>
              Last(added[k].message.value.blocks) != Text
    ensures added[m + 1].kind == System && added[m + 1].subtype == Some("turn_duration") && added[m + 1].parent == Some(final)
    ensures d.stopHook ==>
              added[m + 2].kind == System && added[m + 2].subtype == Some("stop_hook_summary") && added[m + 2].parent == Some(final)
  {
    ghost var start := ctx.lines;
    var prompt, current;
    ghost var p, cycles, ending;
    prompt, p := EmitUserPrompt(ctx, parent);
    current, cycles := ToolCycles(ctx, prompt, Played(d));
    final, ending := FinishTurn(ctx, current, d);
    added, m := [p] + cycles + ending, 1 + |cycles|;
    ThreeParts(start, [p], cycles, ending);
    PlayedIsCut(d);
    TurnOf(p, cycles, ending, d, prompt, current, final);
    TurnCalls(p, cycles, ending, d, current, final);
  }

  lemma PlayedIsCut(d: TurnDraw)
    ensures Played(d) == d.cycles[..if |d.cycles| <= 20 then |d.cycles| else 20]
  {
  }

  /** How a turn is put together, by the fields of its lines. */
  lemma {:induction false} TurnOf(p: Line, cycles: seq<Line>, ending: seq<Line>, d: TurnDraw, prompt: Uuid, current: Uuid, final: Uuid)
    requires IsPrompt(p) && p.uuid == Some(prompt) && Cycles(cycles, Played(d), prompt, current) && Ending(ending, d, current, final)
    ensures var added, m := [p] + cycles + ending, 1 + |cycles|;
            && added[m - 1].uuid == Some(current) && added[m] == ending[0] && added[m + 1] == ending[1]
            && (d.stopHook ==> added[m + 2] == ending[2])
            && (m == 1 <==> Played(d) == []) && (m == 1 || IsAnswer(added[m - 1]))
            && (forall k :: 0 < k < |added| ==> !IsPrompt(added[k]))
            && (forall k :: 0 <= k < |added| && k != m ==> !IsText(added[k]))
  {
    var added, m := [p] + cycles + ending, 1 + |cycles|;
    forall k | 0 <= k < |added|
      ensures added[k] == if k == 0 then p else if k < m then cycles[k - 1] else ending[k - m]
    {
    }
    assert Last([Prompt]) == Prompt;
    assert !IsPrompt(ending[0]);
  }

  lemma {:induction false} TurnCalls(p: Line, cycles: seq<Line>, ending: seq<Line>, d: TurnDraw, current: Uuid, final: Uuid)
    requires IsPrompt(p) && Ending(ending, d, current, final)
    ensures CallCount([p] + cycles + ending) == CallCount(cycles)
  {
    assert Last([Prompt]) == Prompt && Front([p]) == [];
    CallCountConcat([p], cycles);
    CallCountConcat([p] + cycles, ending);
    NoCalls(ending);
  }

  // ------------------------------------------------------ a session

  /** Where the prompts and final texts of a session stand, turn by turn. */
  ghost predicate Places(lines: seq<Line>, starts: seq<nat>, finals: seq<nat>) {
    && |starts| == |finals|
    && (forall t :: 0 <= t < |starts| ==> starts[t] < finals[t] < |lines| && IsPrompt(lines[starts[t]]) && IsText(lines[finals[t]]))
  }

  /** The first prompt hangs from nothing, every later one from the final text before it. */
  ghost predicate Chained(lines: seq<Line>, starts: seq<nat>, finals: seq<nat>)
    requires Places(lines, starts, finals)
  {
    && (forall t, u :: 0 <= t < u < |starts| && u == t + 1 ==>
          finals[t] < starts[u] && lines[starts[u]].parent == lines[finals[t]].uuid)
    && (starts != [] ==> lines[starts[0]].parent == None)
  }

  /** There are no other prompts and final texts. */
  ghost predicate NoOthers(lines: seq<Line>, starts: seq<nat>, finals: seq<nat>) {
    forall k :: 0 <= k < |lines| ==> Listed(lines, starts, finals, k)
  }

  predicate Listed(lines: seq<Line>, starts: seq<nat>, finals: seq<nat>, k: nat)
    requires k < |lines|
  {
    (IsPrompt(lines[k]) ==> k in starts) && (IsText(lines[k]) ==> k in finals)
  }

  ghost predicate Turns(lines: seq<Line>, starts: seq<nat>, finals: seq<nat>) {
    Places(lines, starts, finals) && Chained(lines, starts, finals) && NoOthers(lines, starts, finals)
  }

  /** Lines behind the turns change nothing of them. */
  lemma {:induction false} TurnsQuiet(lines: seq<Line>, starts: seq<nat>, finals: seq<nat>, more: seq<Line>)
    requires Turns(lines, starts, finals) && Between(more)
    ensures Turns(lines + more, starts, finals)
  {
    var all := lines + more;
    assert Places(all, starts, finals) by {
      forall t | 0 <= t < |starts|
        ensures starts[t] < finals[t] < |all| && all[starts[t]] == lines[starts[t]] && all[finals[t]] == lines[finals[t]]
      {
      }
    }
    assert Chained(all, starts, finals) by {
      ChainedQuiet(lines, starts, finals, more);
    }
    forall k | 0 <= k < |all| ensures Listed(all, starts, finals, k) {
      if k >= |lines| {
        assert all[k] == more[k - |lines|];
      } else {
        assert all[k] == lines[k] && Listed(lines, starts, finals, k);
      }
    }
  }

  lemma {:induction false} ChainedQuiet(lines: seq<Line>, starts: seq<nat>, finals: seq<nat>, more: seq<Line>)
    requires Places(lines, starts, finals) && Places(lines + more, starts, finals) && Chained(lines, starts, finals)
    ensures Chained(lines + more, starts, finals)
  {
    var all := lines + more;
    forall t, u | 0 <= t < u < |starts| && u == t + 1
      ensures finals[t] < starts[u] && all[starts[u]].parent == all[finals[t]].uuid
    {
      assert all[starts[u]] == lines[starts[u]] && all[finals[t]] == lines[finals[t]];
    }
    if starts != [] {
      assert starts[0] < finals[0] < |lines| && all[starts[0]] == lines[starts[0]];
    }
  }

  /** A prompt first, and a final text in `m`, the only ones. */
  predicate TurnShape(added: seq<Line>, m: nat, parent: Option<Uuid>) {
    && 1 <= m < |added| && IsPrompt(added[0]) && added[0].parent == parent && IsText(added[m])
    && (forall k :: 0 < k < |added| ==> !IsPrompt(added[k]))
    && (forall k :: 0 <= k < |added| && k != m ==> !IsText(added[k]))
  }

  /** The last turn's final text is where the next prompt will hang. */
  ghost predicate LastFinal(lines: seq<Line>, finals: seq<nat>, last: Option<Uuid>) {
    if finals == [] then last == None
    else Last(finals) < |lines| && last.Some? && lines[Last(finals)].uuid == last
  }

  lemma {:induction false} PlacesMore(lines: seq<Line>, starts: seq<nat>, finals: seq<nat>, added: seq<Line>, m: nat)
    requires Places(lines, starts, finals) && 1 <= m < |added| && IsPrompt(added[0]) && IsText(added[m])
    ensures Places(lines + added, starts + [|lines|], finals + [|lines| + m])
  {
    var all, starts', finals' := lines + added, starts + [|lines|], finals + [|lines| + m];
    forall t | 0 <= t < |starts'|
      ensures starts'[t] < finals'[t] < |all| && IsPrompt(all[starts'[t]]) && IsText(all[finals'[t]])
    {
      if t < |starts| {
        assert all[starts[t]] == lines[starts[t]] && all[finals[t]] == lines[finals[t]];
      } else {
        assert all[|lines|] == added[0] && all[|lines| + m] == added[m];
      }
    }
  }

  lemma {:induction false} ChainedMore(lines: seq<Line>, starts: seq<nat>, finals: seq<nat>, last: Option<Uuid>, added: seq<Line>, m: nat)
    requires Places(lines, starts, finals) && Chained(lines, starts, finals) && LastFinal(lines, finals, last)
    requires 1 <= m < |added| && added[0].parent == last
    requires Places(lines + added, starts + [|lines|], finals + [|lines| + m])
    ensures Chained(lines + added, starts + [|lines|], finals + [|lines| + m])
  {
    var all, starts', finals' := lines + added, starts + [|lines|], finals + [|lines| + m];
    var n := |starts|;
    assert all[|lines|] == added[0];
    forall t, u | 0 <= t < u < |starts'| && u == t + 1
      ensures finals'[t] < starts'[u] && all[starts'[u]].parent == all[finals'[t]].uuid
    {
      assert finals'[t] == finals[t] && all[finals[t]] == lines[finals[t]];
      if u < n {
        assert starts'[u] == starts[u] && all[starts[u]] == lines[starts[u]];
      } else {
        assert finals[t] == Last(finals);
      }
    }
    if n > 0 {
      assert starts'[0] == starts[0] && all[starts[0]] == lines[starts[0]];
    }
  }

  lemma {:induction false} NoOthersMore(lines: seq<Line>, starts: seq<nat>, finals: seq<nat>, added: seq<Line>, m: nat)
    requires NoOthers(lines, starts, finals)
    requires forall k :: 0 < k < |added| ==> !IsPrompt(added[k])
    requires forall k :: 0 <= k < |added| && k != m ==> !IsText(added[k])
    ensures NoOthers(lines + added, starts + [|lines|], finals + [|lines| + m])
  {
    var all, starts', finals' := lines + added, starts + [|lines|], finals + [|lines| + m];
    assert starts'[|starts|] == |lines| && finals'[|finals|] == |lines| + m;
    forall k | 0 <= k < |all| ensures Listed(all, starts', finals', k) {
      if k >= |lines| {
        assert all[k] == added[k - |lines|];
      } else {
        assert Listed(lines, starts, finals, k);
      }
    }
  }

  lemma {:induction false} TurnsMore(lines: seq<Line>, starts: seq<nat>, finals: seq<nat>, last: Option<Uuid>, added: seq<Line>, m: nat)
    requires Turns(lines, starts, finals) && LastFinal(lines, finals, last) && TurnShape(added, m, last)
    ensures Turns(lines + added, starts + [|lines|], finals + [|lines| + m])
    ensures added[m].uuid.Some? ==> LastFinal(lines + added, finals + [|lines| + m], added[m].uuid)
  {
    PlacesMore(lines, starts, finals, added, m);
    ChainedMore(lines, starts, finals, last, added, m);
    NoOthersMore(lines, starts, finals, added, m);
    assert Last(finals + [|lines| + m]) == |lines| + m && (lines + added)[|lines| + m] == added[m];
  }

  /** How many lines a turn adds. */
  function TurnLength(d: TurnDraw): nat {
    1 + CyclesLength(Played(d)) + 2 + Bit(d.stopHook)
  }

  /** The lines, and the calls, of the first n turns. */
  function TurnsLength(turn: nat -> TurnDraw, n: nat): nat {
    if n == 0 then 0 else TurnsLength(turn, n - 1) + TurnLength(turn(n - 1))
  }

  function TurnsCalls(turn: nat -> TurnDraw, n: nat): nat {
    if n == 0 then 0 else TurnsCalls(turn, n - 1) + |Played(turn(n - 1))|
  }

  /** The t-th turn's prompt and final text stand where the draws put them. */
  predicate StandsAt(turn: nat -> TurnDraw, first: nat, t: nat, start: nat, final: nat) {
    start == first + TurnsLength(turn, t) && final == start + 1 + CyclesLength(Played(turn(t)))
  }

  ghost predicate AsDrawn(turn: nat -> TurnDraw, first: nat, starts: seq<nat>, finals: seq<nat>) {
    |starts| == |finals| && forall t :: 0 <= t < |starts| ==> StandsAt(turn, first, t, starts[t], finals[t])
  }

  lemma {:induction false} AsDrawnMore(turn: nat -> TurnDraw, first: nat, starts: seq<nat>, finals: seq<nat>, start: nat, final: nat)
    requires AsDrawn(turn, first, starts, finals) && StandsAt(turn, first, |starts|, start, final)
    ensures AsDrawn(turn, first, starts + [start], finals + [final])
  {
    forall t | 0 <= t < |starts| + 1 ensures StandsAt(turn, first, t, (starts + [start])[t], (finals + [final])[t]) {
      if t < |starts| {
        assert StandsAt(turn, first, t, starts[t], finals[t]);
      }
    }
  }

  /** What holds of the lines so far: the turns are in place, and they stand as drawn between `head` and the end. */
  datatype Part = Linked | Framed | Counted

  ghost predicate PlaysAs(part: Part, lines: seq<Line>, head: seq<Line>, turn: nat -> TurnDraw,
                          starts: seq<nat>, finals: seq<nat>, last: Option<Uuid>) {
    match part
    case Linked => Turns(lines, starts, finals) && LastFinal(lines, finals, last)
    case Framed => |head| <= |lines| && lines[..|head|] == head && AsDrawn(turn, |head|, starts, finals)
    case Counted =>
      |lines| == |head| + TurnsLength(turn, |starts|) && CallCount(lines) == CallCount(head) + TurnsCalls(turn, |starts|)
  }

  ghost predicate Playing(lines: seq<Line>, head: seq<Line>, turn: nat -> TurnDraw,
                          starts: seq<nat>, finals: seq<nat>, last: Option<Uuid>) {
    forall part: Part :: PlaysAs(part, lines, head, turn, starts, finals, last)
  }

  lemma {:induction false} PlayingMore(lines: seq<Line>, head: seq<Line>, turn: nat -> TurnDraw, starts: seq<nat>, finals: seq<nat>,
                                       last: Option<Uuid>, added: seq<Line>, m: nat)
    requires Playing(lines, head, turn, starts, finals, last) && TurnShape(added, m, last) && added[m].uuid.Some?
    requires Measured(added, m, turn(|starts|))
    ensures Playing(lines + added, head, turn, starts + [|lines|], finals + [|lines| + m], added[m].uuid)
  {
    assert PlaysAs(Linked, lines, head, turn, starts, finals, last) && PlaysAs(Framed, lines, head, turn, starts, finals, last)
           && PlaysAs(Counted, lines, head, turn, starts, finals, last);
    LinkedMore(lines, head, turn, starts, finals, last, added, m);
    FramedMore(lines, head, turn, starts, finals, last, added, m);
    CountedMore(lines, head, turn, starts, finals, last, added, m);
  }

  lemma {:induction false} LinkedMore(lines: seq<Line>, head: seq<Line>, turn: nat -> TurnDraw, starts: seq<nat>, finals: seq<nat>,
                                      last: Option<Uuid>, added: seq<Line>, m: nat)
    requires PlaysAs(Linked, lines, head, turn, starts, finals, last) && TurnShape(added, m, last) && added[m].uuid.Some?
    ensures PlaysAs(Linked, lines + added, head, turn, starts + [|lines|], finals + [|lines| + m], added[m].uuid)
  {
    TurnsMore(lines, starts, finals, last, added, m);
  }

  lemma {:induction false} FramedMore(lines: seq<Line>, head: seq<Line>, turn: nat -> TurnDraw, starts: seq<nat>, finals: seq<nat>,
                                      last: Option<Uuid>, added: seq<Line>, m: nat)
    requires PlaysAs(Framed, lines, head, turn, starts, finals, last) && PlaysAs(Counted, lines, head, turn, starts, finals, last)
    requires m < |added| && Measured(added, m, turn(|starts|))
    ensures PlaysAs(Framed, lines + added, head, turn, starts + [|lines|], finals + [|lines| + m], added[m].uuid)
  {
    assert StandsAt(turn, |head|, |starts|, |lines|, |lines| + m);
    AsDrawnMore(turn, |head|, starts, finals, |lines|, |lines| + m);
    assert (lines + added)[..|head|] == lines[..|head|];
  }

  lemma {:induction false} CountedMore(lines: seq<Line>, head: seq<Line>, turn: nat -> TurnDraw, starts: seq<nat>, finals: seq<nat>,
                                       last: Option<Uuid>, added: seq<Line>, m: nat)
    requires PlaysAs(Counted, lines, head, turn, starts, finals, last)
    requires m < |added| && Measured(added, m, turn(|starts|))
    ensures PlaysAs(Counted, lines + added, head, turn, starts + [|lines|], finals + [|lines| + m], added[m].uuid)
  {
    CallCountConcat(lines, added);
  }

  /** The turn has the lines and calls drawn. */
  predicate Measured(added: seq<Line>, m: nat, d: TurnDraw) {
    m == 1 + CyclesLength(Played(d)) && |added| == TurnLength(d) && CallCount(added) == |Played(d)|
  }

  method PlayTurn(ctx: Context, last: Option<Uuid>, d: TurnDraw) returns (final: Uuid, ghost added: seq<Line>, ghost m: nat)
    requires ctx.Good() && ctx.standing == Idle && (last.Some? ==> last.value in ctx.emitted)
    modifies ctx
    ensures ctx.Good() && ctx.standing == Idle && final in ctx.emitted && ctx.lines == old(ctx.lines) + added
    ensures TurnShape(added, m, last) && Measured(added, m, d) && |added| >= 3 && added[m].uuid == Some(final)
  {
    PlayedIsCut(d);
    final, added, m := GenerateTurn(ctx, last, d);
  }

  /** A session's head as its lines' fields tell: maybe a file snapshot, then a hook's progress. */
  predicate Head(head: seq<Line>, snapshot: bool) {
    && |head| == 1 + Bit(snapshot) && Between(head) && CallCount(head) == 0
    && Last(head).kind == Progress && Last(head).data == Some(Data(Some("hook_progress"))) && Last(head).parent == None
    && (snapshot ==> head[0].kind == FileHistorySnapshot)
  }

  /** A session's tail: maybe a compact boundary, and maybe an error, hanging from the last final text. */
  predicate Tail(tail: seq<Line>, last: Option<Uuid>, compacts: bool, fails: bool) {
    && Between(tail) && CallCount(tail) == 0 && |tail| == Bit(compacts) + Bit(fails)
    && (forall k :: 0 <= k < |tail| ==> tail[k].kind == System && tail[k].parent == last)
    && (compacts ==> tail[0].subtype == Some("compact_boundary"))
    && (fails ==> Last(tail).subtype == Some("api_error"))
  }

  /** What a session starts with: maybe a file snapshot, then a hook's progress. */
  method OpenSession(ctx: Context, snapshot: bool) returns (ghost head: seq<Line>)
    requires ctx.Good() && ctx.lines == [] && ctx.standing == Idle
    modifies ctx
    ensures ctx.Good() && ctx.lines == head && ctx.standing == Idle && Head(head, snapshot)
  {
    head := [];
    if snapshot {
      ghost var s := EmitFileSnapshot(ctx);
      head := [s];
    }
    ghost var h := EmitProgress(ctx, Hook, None);
    head := head + [h];
    NoCalls(head);
  }

  method MaybeSystem(ctx: Context, body: Body, last: Option<Uuid>, drawn: bool) returns (ghost added: seq<Line>)
    requires ctx.Good() && (last.Some? ==> last.value in ctx.emitted) && body in {ApiError, CompactBoundary}
    modifies ctx
    ensures ctx.Good() && ctx.lines == old(ctx.lines) + added
    ensures ctx.emitted >= old(ctx.emitted) && ctx.standing == old(ctx.standing)
    ensures MaybeEnds(added, drawn, last, if body == ApiError then "api_error" else "compact_boundary")
  {
    added := [];
    if drawn {
      ghost var line := EmitSystem(ctx, body, last);
      added := [line];
    }
    assert ctx.lines + [] == ctx.lines;
  }

  predicate MaybeEnds(added: seq<Line>, drawn: bool, last: Option<Uuid>, subtype: string) {
    && |added| == Bit(drawn)
    && (drawn ==> added[0].kind == System && added[0].parent == last && added[0].subtype == Some(subtype) && added[0].message == None)
  }

  lemma {:induction false} TailOf(a: seq<Line>, b: seq<Line>, last: Option<Uuid>, compacts: bool, fails: bool)
    requires MaybeEnds(a, compacts, last, "compact_boundary") && MaybeEnds(b, fails, last, "api_error")
    ensures Tail(a + b, last, compacts, fails)
  {
    BetweenConcat(a, b);
    CallCountConcat(a, b);
    NoCalls(a);
    NoCalls(b);
    assert fails ==> Last(a + b) == b[0];
  }

  /** What it ends with: maybe a compact boundary if it is long, and maybe an error. */
  method CloseSession(ctx: Context, last: Option<Uuid>, compacts: bool, fails: bool) returns (ghost tail: seq<Line>)
    requires ctx.Good() && ctx.standing == Idle && (last.Some? ==> last.value in ctx.emitted)
    modifies ctx
    ensures ctx.Good() && ctx.lines == old(ctx.lines) + tail && ctx.standing == Idle
    ensures Tail(tail, last, |old(ctx.lines)| > 200 && compacts, fails)
  {
    ghost var start := ctx.lines;
    var long := |ctx.lines| > 200;
    ghost var a := MaybeSystem(ctx, CompactBoundary, last, long && compacts);
    ghost var b := MaybeSystem(ctx, ApiError, last, fails);
    tail := a + b;
    assert start + a + b == start + (a + b);
    TailOf(a, b, last, long && compacts, fails);
  }

  /** How many turns are wanted: those sampled, but at least one and at most fifty. */
  function Wanted(d: SessionDraw): nat {
    if d.wanted < 1 then 1 else if d.wanted > 50 then 50 else d.wanted
  }

  /** Turns, until there are as many as wanted and enough lines, but at most 101. */
  method PlayTurns(ctx: Context, d: SessionDraw, minEvents: int, ghost head: seq<Line>)
    returns (last: Option<Uuid>, turns: nat, ghost starts: seq<nat>, ghost finals: seq<nat>)
    requires ctx.Good() && ctx.standing == Idle && ctx.lines == head && Head(head, d.snapshot)
    modifies ctx
    ensures ctx.Good() && ctx.standing == Idle && (last.Some? ==> last.value in ctx.emitted)
    ensures Wanted(d) <= turns <= 101 && |starts| == turns && Playing(ctx.lines, head, d.turn, starts, finals, last)
    ensures turns > 100 || |ctx.lines| >= minEvents
    ensures turns <= Wanted(d) || starts[turns - 1] < minEvents
    ensures |ctx.lines| >= 1 + 3 * turns
  {
    starts, finals := [], [];
    last, turns := None, 0;
    HeadIsQuiet(head, d);
    while turns < Wanted(d) || |ctx.lines| < minEvents
      invariant ctx.Good() && ctx.standing == Idle
      invariant last.Some? ==> last.value in ctx.emitted
      invariant turns <= 100 && |ctx.lines| >= 1 + 3 * turns
      invariant |starts| == turns && (turns <= Wanted(d) || starts[turns - 1] < minEvents)
      invariant Playing(ctx.lines, head, d.turn, starts, finals, last)
      decreases 101 - turns
    {
      ghost var before, parent := ctx.lines, last;
      var final;
      ghost var added, m;
      final, added, m := PlayTurn(ctx, last, d.turn(turns));
      PlayingMore(before, head, d.turn, starts, finals, parent, added, m);
      starts, finals := starts + [|before|], finals + [|before| + m];
      last := Some(final);
      turns := turns + 1;
      if turns > 100 {
        break;
      }
    }
  }

  /** What is known of a session when it is done, by the fields of its lines. */
  ghost predicate Session(lines: seq<Line>, d: SessionDraw, starts: seq<nat>, finals: seq<nat>) {
    && Turns(lines, starts, finals) && Frame(lines, d, starts, finals)
    && AsDrawn(d.turn, 1 + Bit(d.snapshot), starts, finals) && CallCount(lines) == TurnsCalls(d.turn, |starts|)
  }

  /** Where the turns end. */
  function EndOfTurns(d: SessionDraw, turns: nat): nat {
    1 + Bit(d.snapshot) + TurnsLength(d.turn, turns)
  }

  /** What stands before the first prompt, and behind the last turn. */
  ghost predicate Frame(lines: seq<Line>, d: SessionDraw, starts: seq<nat>, finals: seq<nat>) {
    var h, end := Bit(d.snapshot), EndOfTurns(d, |starts|);
    && finals != [] && Last(finals) < end <= |lines| && h < |lines|
    && lines[h].kind == Progress && lines[h].data == Some(Data(Some("hook_progress"))) && lines[h].parent == None
    && (d.snapshot ==> lines[0].kind == FileHistorySnapshot)
    && Tail(lines[end..], lines[Last(finals)].uuid, end > 200 && d.compacts, d.fails)
  }

  lemma {:induction false} FrameOf(played: seq<Line>, head: seq<Line>, d: SessionDraw, starts: seq<nat>, finals: seq<nat>,
                                   last: Option<Uuid>, tail: seq<Line>)
    requires Playing(played, head, d.turn, starts, finals, last) && starts != [] && Head(head, d.snapshot)
    requires Tail(tail, last, |played| > 200 && d.compacts, d.fails)
    ensures Frame(played + tail, d, starts, finals)
  {
    var lines := played + tail;
    assert PlaysAs(Framed, played, head, d.turn, starts, finals, last) && PlaysAs(Counted, played, head, d.turn, starts, finals, last);
    assert LastFinal(played, finals, last) by {
      assert PlaysAs(Linked, played, head, d.turn, starts, finals, last);
    }
    assert lines[|head| - 1] == played[..|head|][|head| - 1] && lines[0] == played[..|head|][0];
    assert lines[|played|..] == tail && lines[Last(finals)] == played[Last(finals)];
  }

  lemma {:induction false} SessionOf(played: seq<Line>, head: seq<Line>, d: SessionDraw, starts: seq<nat>, finals: seq<nat>,
                                     last: Option<Uuid>, tail: seq<Line>)
    requires Playing(played, head, d.turn, starts, finals, last) && starts != [] && Head(head, d.snapshot)
    requires Tail(tail, last, |played| > 200 && d.compacts, d.fails)
    ensures Session(played + tail, d, starts, finals)
  {
    assert PlaysAs(Linked, played, head, d.turn, starts, finals, last);
    TurnsQuiet(played, starts, finals, tail);
    FrameOf(played, head, d, starts, finals, last, tail);
    CallCountConcat(played, tail);
    assert PlaysAs(Framed, played, head, d.turn, starts, finals, last) && PlaysAs(Counted, played, head, d.turn, starts, finals, last);
  }

  lemma {:induction false} PromptIsListed(lines: seq<Line>, starts: seq<nat>, finals: seq<nat>, k: nat)
    requires Places(lines, starts, finals) && NoOthers(lines, starts, finals) && k < |lines|
    ensures k in starts <==> IsPrompt(lines[k])
  {
    assert Listed(lines, starts, finals, k);
    if k in starts {
      var t :| 0 <= t < |starts| && starts[t] == k;
    }
  }

  lemma {:induction false} TextIsListed(lines: seq<Line>, starts: seq<nat>, finals: seq<nat>, k: nat)
    requires Places(lines, starts, finals) && NoOthers(lines, starts, finals) && k < |lines|
    ensures k in finals <==> IsText(lines[k])
  {
    assert Listed(lines, starts, finals, k);
    if k in finals {
      var t :| 0 <= t < |finals| && finals[t] == k;
      assert starts[t] < finals[t];
    }
  }

  /** The same without naming a predicate on lines. */
  lemma {:induction false} SessionTold(lines: seq<Line>, d: SessionDraw, starts: seq<nat>, finals: seq<nat>)
    requires Session(lines, d, starts, finals)
    ensures |finals| == |starts| > 0
    ensures forall t :: 0 <= t < |starts| ==> starts[t] < finals[t] < |lines|
    ensures lines[starts[0]].parent == None
    ensures forall t, u :: 0 <= t < u < |starts| && u == t + 1 ==>
              finals[t] < starts[u] && lines[starts[u]].parent == lines[finals[t]].uuid
    ensures forall k {:trigger k in starts} :: 0 <= k < |lines| ==>
              (k in starts <==> lines[k].message.Some? && lines[k].message.value.blocks == [Prompt])
    ensures forall k {:trigger k in finals} :: 0 <= k < |lines| ==>
              (k in finals <==> lines[k].message.Some? && lines[k].message.value.blocks != []
                                && Last(lines[k].message.value.blocks) == Text)
  {
    forall k | 0 <= k < |lines|
      ensures k in starts <==> lines[k].message.Some? && lines[k].message.value.blocks == [Prompt]
    {
      PromptIsListed(lines, starts, finals, k);
    }
    forall k | 0 <= k < |lines|
      ensures k in finals <==> lines[k].message.Some? && lines[k].message.value.blocks != []
                               && Last(lines[k].message.value.blocks) == Text
    {
      TextIsListed(lines, starts, finals, k);
    }
  }

  lemma {:induction false} FrameTold(lines: seq<Line>, d: SessionDraw, starts: seq<nat>, finals: seq<nat>)
    requires Frame(lines, d, starts, finals)
    ensures var h, end := lines[Bit(d.snapshot)], EndOfTurns(d, |starts|);
            && h.kind == Progress && h.data == Some(Data(Some("hook_progress"))) && h.parent == None
            && (d.snapshot ==> lines[0].kind == FileHistorySnapshot)
            && |lines| == end + (if end > 200 && d.compacts then 1 else 0) + (if d.fails then 1 else 0)
            && (end > 200 && d.compacts ==> lines[end].subtype == Some("compact_boundary"))
            && (d.fails ==> Last(lines).subtype == Some("api_error"))
            && forall k :: end <= k < |lines| ==> lines[k].kind == System && lines[k].parent == lines[Last(finals)].uuid
  {
    var end := EndOfTurns(d, |starts|);
    var tail := lines[end..];
    assert forall k :: end <= k < |lines| ==> lines[k] == tail[k - end];
  }

  method FillSession(ctx: Context, d: SessionDraw, minEvents: int) returns (turns: nat, ghost starts: seq<nat>, ghost finals: seq<nat>)
    requires ctx.Good() && ctx.lines == [] && ctx.standing == Idle
    modifies ctx
    ensures ctx.Good() && ctx.standing == Idle && Session(ctx.lines, d, starts, finals)
    ensures Wanted(d) <= turns <= 101 && |starts| == turns && (turns <= Wanted(d) || starts[turns - 1] < minEvents)
    ensures |ctx.lines| >= if minEvents < 304 then minEvents else 304
    ensures turns > 100 || EndOfTurns(d, turns) >= minEvents
  {
    ghost var head := OpenSession(ctx, d.snapshot);
    var last;
    last, turns, starts, finals := PlayTurns(ctx, d, minEvents, head);
    ghost var played := ctx.lines;
    assert PlaysAs(Counted, played, head, d.turn, starts, finals, last);
    ghost var tail := CloseSession(ctx, last, d.compacts, d.fails);
    SessionOf(played, head, d, starts, finals, last, tail);
  }

  /**
   `generate_session` for any draws: the validator finds nothing to object to, every tool call is answered, and the
   session stands as drawn. It starts with a hook's progress, behind a file snapshot if drawn. At most 101 turns run,
   more than wanted only for the lines asked for. The prompts are exactly those of the turns, in `starts`, and the final
   texts those in `finals`; the first prompt hangs from nothing, every later one from the final text of the turn before.
   Behind the turns come a compact boundary, if drawn and there are more than 200 lines, and an error, if drawn.
   */
  method GenerateSession(d: SessionDraw, minEvents: int, start: nat)
    returns (lines: seq<Line>, turns: nat, ghost starts: seq<nat>, ghost finals: seq<nat>)
    ensures Valid(lines) && Errors(lines) == []
    ensures Standing(lines) == Idle && DistinctCalls(lines)
    ensures (if d.wanted < 1 then 1 else if d.wanted > 50 then 50 else d.wanted) <= turns <= 101
    ensures |starts| == |finals| == turns
    ensures turns > 1 && (turns > d.wanted || turns > 50) ==> starts[turns - 1] < minEvents
    ensures turns > 100 || EndOfTurns(d, turns) >= minEvents
    ensures |lines| >= if minEvents < 304 then minEvents else 304
    ensures forall t :: 0 <= t < turns ==> starts[t] < finals[t] < |lines|
    ensures lines[starts[0]].parent == None
    ensures forall t, u :: 0 <= t < u < turns && u == t + 1 ==>
              finals[t] < starts[u] && lines[starts[u]].parent == lines[finals[t]].uuid
    ensures forall k {:trigger k in starts} :: 0 <= k < |lines| ==>
              (k in starts <==> lines[k].message.Some? && lines[k].message.value.blocks == [Prompt])
    ensures forall k {:trigger k in finals} :: 0 <= k < |lines| ==>
              (k in finals <==> lines[k].message.Some? && lines[k].message.value.blocks != []
                                && Last(lines[k].message.value.blocks) == Text)
    ensures AsDrawn(d.turn, if d.snapshot then 2 else 1, starts, finals) && CallCount(lines) == TurnsCalls(d.turn, turns)
    ensures var h, end := lines[if d.snapshot then 1 else 0], EndOfTurns(d, turns);
            && h.kind == Progress && h.data == Some(Data(Some("hook_progress"))) && h.parent == None
            && (d.snapshot ==> lines[0].kind == FileHistorySnapshot)
            && |lines| == end + (if end > 200 && d.compacts then 1 else 0) + (if d.fails then 1 else 0)
            && (end > 200 && d.compacts ==> lines[end].subtype == Some("compact_boundary"))
            && (d.fails ==> Last(lines).subtype == Some("api_error"))
            && forall k :: end <= k < |lines| ==> lines[k].kind == System && lines[k].parent == lines[finals[turns - 1]].uuid
  {
    var ctx := new Context(start);
    turns, starts, finals := FillSession(ctx, d, minEvents);
    lines := ctx.lines;
    SessionTold(lines, d, starts, finals);
    FrameTold(lines, d, starts, finals);
    LawfulMeans(lines, ctx.usedIds, ctx.usedTools, ctx.now, ctx.emitted, ctx.standing);
    NoErrorsExactlyWhenValid(lines);
  }

  lemma {:induction false} HeadIsQuiet(head: seq<Line>, d: SessionDraw)
    requires Head(head, d.snapshot)
    ensures Playing(head, head, d.turn, [], [], None)
  {
    assert PlaysAs(Linked, head, head, d.turn, [], [], None) by {
      assert forall k :: 0 <= k < |head| ==> Listed(head, [], [], k);
    }
  }
}
