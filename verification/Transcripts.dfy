/** Raw transcript lines and their validation (scripts/synth_transcripts.py, `validate_session`). */
module Transcripts {
  import opened Sequences
  import opened Wrappers

  /** A drawn identifier, or one written by hand. */
  datatype Uuid = Drawn(bits: nat) | Named(text: string)

  datatype Block =
    | Prompt
    | Text
    | Thinking
    | ToolUse(toolId: nat)
    | ToolResult(toolUseId: nat)

  datatype Message = Message(role: Option<string>, blocks: seq<Block>)

  datatype Data = Data(kind: Option<string>)

  /** A line's `type`; a missing or empty one is NoType. */
  datatype Kind = NoType | User | Assistant | Progress | System | FileHistorySnapshot | OtherType(name: string)

  /** The fields that validation looks at, each possibly absent. Times are milliseconds. */
  datatype Line = Line(
    kind: Kind, uuid: Option<Uuid>, parent: Option<Uuid>, timestamp: Option<int>,
    message: Option<Message>, data: Option<Data>, subtype: Option<string>)

  datatype Error =
    | MissingType(at: nat)
    | DuplicateUuid(at: nat)
    | UnknownParent(at: nat)
    | TimeRunsBack(at: nat)
    | MissingMessage(at: nat)
    | MissingRole(at: nat)
    | MissingData(at: nat)
    | MissingDataType(at: nat)
    | MissingSubtype(at: nat)

  predicate Truthy(u: Option<Uuid>) {
    u.Some? && u.value != Named("")
  }

  /** A parent from a hand-written fixture, which validation lets pass. */
  predicate Exempt(u: Uuid) {
    u.Named? && "p-" <= u.text
  }

  // ----------------------------------------------------------- what is valid

  predicate WellFormedBody(line: Line) {
    && !line.kind.NoType?
    && (line.kind.User? || line.kind.Assistant? ==> line.message.Some? && line.message.value.role.Some?)
    && (line.kind.Progress? ==> line.data.Some? && line.data.value.kind.Some?)
    && (line.kind.System? ==> line.subtype.Some?)
  }

  /** Unique ids, parents among the lines so far, time that never runs back, and complete bodies. */
  ghost predicate Valid(lines: seq<Line>) {
    && (forall i :: 0 <= i < |lines| ==> WellFormedBody(lines[i]))
    && (forall i, j :: 0 <= i < j < |lines| && Truthy(lines[i].uuid) ==> lines[i].uuid != lines[j].uuid)
    && (forall i :: 0 <= i < |lines| && Truthy(lines[i].parent) && !Exempt(lines[i].parent.value) ==>
          exists j :: 0 <= j <= i && lines[j].uuid == lines[i].parent)
    && (forall i, j :: 0 <= i < j < |lines| && lines[i].timestamp.Some? && lines[j].timestamp.Some? ==>
          lines[i].timestamp.value <= lines[j].timestamp.value)
  }

  // -------------------------------------------------------- the validator

  function SeenUuids(lines: seq<Line>): set<Uuid> {
    if lines == [] then {}
    else SeenUuids(Front(lines)) + if Truthy(Last(lines).uuid) then {Last(lines).uuid.value} else {}
  }

  function LastTime(lines: seq<Line>): Option<int> {
    if lines == [] then None
    else if Last(lines).timestamp.Some? then Last(lines).timestamp
    else LastTime(Front(lines))
  }

  function When(condition: bool, e: Error): seq<Error> {
    if condition then [e] else []
  }

  function BodyErrors(at: nat, line: Line): seq<Error> {
    (if line.kind.User? || line.kind.Assistant? then
       if line.message.None? then [MissingMessage(at)] else When(line.message.value.role.None?, MissingRole(at))
     else [])
    + (if line.kind.Progress? then
         if line.data.None? then [MissingData(at)] else When(line.data.value.kind.None?, MissingDataType(at))
       else [])
    + When(line.kind.System? && line.subtype.None?, MissingSubtype(at))
  }

  function UuidErrors(at: nat, line: Line, seen: set<Uuid>): seq<Error> {
    When(Truthy(line.uuid) && line.uuid.value in seen, DuplicateUuid(at))
  }

  function ParentErrors(at: nat, line: Line, seen: set<Uuid>): seq<Error> {
    var seen' := seen + if Truthy(line.uuid) then {line.uuid.value} else {};
    When(Truthy(line.parent) && line.parent.value !in seen' && !Exempt(line.parent.value), UnknownParent(at))
  }

  function TimeErrors(at: nat, line: Line, time: Option<int>): seq<Error> {
    When(line.timestamp.Some? && time.Some? && line.timestamp.value < time.value, TimeRunsBack(at))
  }

  /** The errors of one line, given the ids seen before it and the last time. */
  function LineErrors(at: nat, line: Line, seen: set<Uuid>, time: Option<int>): seq<Error> {
    When(line.kind.NoType?, MissingType(at)) + UuidErrors(at, line, seen) + ParentErrors(at, line, seen)
    + TimeErrors(at, line, time) + BodyErrors(at, line)
  }

  function Errors(lines: seq<Line>): seq<Error> {
    if lines == [] then []
    else Errors(Front(lines)) + LineErrors(|lines| - 1, Last(lines), SeenUuids(Front(lines)), LastTime(Front(lines)))
  }

  /** The body of the validator's loop: the errors of one line, and the ids seen with it. */
  method CheckLine(at: nat, line: Line, seen: set<Uuid>, time: Option<int>) returns (errors: seq<Error>, seen': set<Uuid>)
    ensures errors == LineErrors(at, line, seen, time)
    ensures seen' == seen + if Truthy(line.uuid) then {line.uuid.value} else {}
  {
    errors := When(line.kind.NoType?, MissingType(at));
    seen' := seen;
    errors := errors + When(Truthy(line.uuid) && line.uuid.value in seen, DuplicateUuid(at));
    if Truthy(line.uuid) {
      seen' := seen' + {line.uuid.value};
    }
    errors := errors + When(Truthy(line.parent) && line.parent.value !in seen' && !Exempt(line.parent.value), UnknownParent(at));
    errors := errors + When(line.timestamp.Some? && time.Some? && line.timestamp.value < time.value, TimeRunsBack(at));
    errors := errors + BodyErrors(at, line);
  }

  method ValidateSession(lines: seq<Line>) returns (errors: seq<Error>)
    ensures errors == Errors(lines)
  {
    errors := [];
    var seen: set<Uuid> := {};
    var time: Option<int> := None;
    for i := 0 to |lines|
      invariant errors == Errors(lines[..i]) && seen == SeenUuids(lines[..i]) && time == LastTime(lines[..i])
    {
      assert Front(lines[..i + 1]) == lines[..i] && Last(lines[..i + 1]) == lines[i];
      var more: seq<Error>;
      more, seen := CheckLine(i, lines[i], seen, time);
      errors := errors + more;
      if lines[i].timestamp.Some? {
        time := lines[i].timestamp;
      }
    }
    assert lines[..|lines|] == lines;
  }

  lemma {:induction false} SeenMeans(lines: seq<Line>, u: Uuid)
    ensures u in SeenUuids(lines) <==> Truthy(Some(u)) && exists j :: 0 <= j < |lines| && lines[j].uuid == Some(u)
  {
    if lines != [] {
      SeenMeans(Front(lines), u);
      if j :| 0 <= j < |lines| && lines[j].uuid == Some(u) {
        assert j < |lines| - 1 ==> Front(lines)[j].uuid == Some(u);
      }
    }
  }

  lemma {:induction false} LastTimeIsLatest(lines: seq<Line>)
    requires forall i, j :: 0 <= i < j < |lines| && lines[i].timestamp.Some? && lines[j].timestamp.Some? ==>
               lines[i].timestamp.value <= lines[j].timestamp.value
    ensures LastTime(lines).Some? ==> exists i :: 0 <= i < |lines| && lines[i].timestamp == LastTime(lines)
    ensures forall i :: 0 <= i < |lines| && lines[i].timestamp.Some? ==>
              LastTime(lines).Some? && lines[i].timestamp.value <= LastTime(lines).value
  {
    if lines != [] {
      LastTimeIsLatest(Front(lines));
    }
  }

  lemma NoBodyErrors(at: nat, line: Line)
    ensures BodyErrors(at, line) == [] && !line.kind.NoType? <==> WellFormedBody(line)
  {
  }

  /** What one more line must satisfy for a valid session to stay valid. */
  ghost predicate Extends(lines: seq<Line>, line: Line) {
    && WellFormedBody(line)
    && (Truthy(line.uuid) ==> forall i :: 0 <= i < |lines| ==> lines[i].uuid != line.uuid)
    && (Truthy(line.parent) && !Exempt(line.parent.value) ==>
          line.uuid == line.parent || exists j :: 0 <= j < |lines| && lines[j].uuid == line.parent)
    && (line.timestamp.Some? ==> forall i :: 0 <= i < |lines| && lines[i].timestamp.Some? ==>
                                              lines[i].timestamp.value <= line.timestamp.value)
  }

  lemma ValidExtends(lines: seq<Line>, line: Line)
    ensures Valid(lines + [line]) <==> Valid(lines) && Extends(lines, line)
  {
    var longer := lines + [line];
    assert forall i :: 0 <= i < |lines| ==> longer[i] == lines[i];
    assert longer[|lines|] == line;
    if Valid(longer) {
      ValidShorter(lines, line);
    }
  }

  lemma ValidShorter(lines: seq<Line>, line: Line)
    requires Valid(lines + [line])
    ensures Valid(lines) && Extends(lines, line)
  {
    var longer := lines + [line];
    assert forall i :: 0 <= i < |lines| ==> longer[i] == lines[i];
    assert longer[|lines|] == line;
    forall i | 0 <= i < |lines| && Truthy(lines[i].parent) && !Exempt(lines[i].parent.value)
      ensures exists j :: 0 <= j <= i && lines[j].uuid == lines[i].parent
    {
      var j :| 0 <= j <= i && longer[j].uuid == longer[i].parent;
      assert lines[j].uuid == lines[i].parent;
    }
    if Truthy(line.parent) && !Exempt(line.parent.value) && line.uuid != line.parent {
      var j :| 0 <= j <= |lines| && longer[j].uuid == longer[|lines|].parent;
      assert lines[j].uuid == line.parent;
    }
  }

  lemma NoneOfThese(at: nat, line: Line, seen: set<Uuid>, time: Option<int>)
    ensures LineErrors(at, line, seen, time) == [] <==>
              && WellFormedBody(line)
              && !(Truthy(line.uuid) && line.uuid.value in seen)
              && !(Truthy(line.parent) && line.parent.value !in seen && line.parent != line.uuid && !Exempt(line.parent.value))
              && !(line.timestamp.Some? && time.Some? && line.timestamp.value < time.value)
  {
    NoBodyErrors(at, line);
  }

  lemma {:induction false} NoLineErrors(lines: seq<Line>, line: Line)
    requires Valid(lines)
    ensures LineErrors(|lines|, line, SeenUuids(lines), LastTime(lines)) == [] <==> Extends(lines, line)
  {
    NoneOfThese(|lines|, line, SeenUuids(lines), LastTime(lines));
    if line.uuid.Some? {
      SeenMeans(lines, line.uuid.value);
    }
    if line.parent.Some? {
      SeenMeans(lines, line.parent.value);
    }
    NotBeforeLast(lines, line.timestamp);
  }

  lemma {:induction false} NotBeforeLast(lines: seq<Line>, time: Option<int>)
    requires Valid(lines)
    ensures !(time.Some? && LastTime(lines).Some? && time.value < LastTime(lines).value) <==>
              (time.Some? ==> forall i :: 0 <= i < |lines| && lines[i].timestamp.Some? ==> lines[i].timestamp.value <= time.value)
  {
    LastTimeIsLatest(lines);
  }

  /** Validity, line by line. */
  ghost predicate ValidByLine(lines: seq<Line>) {
    lines != [] ==> ValidByLine(Front(lines)) && Extends(Front(lines), Last(lines))
  }

  lemma {:induction false} ValidIsByLine(lines: seq<Line>)
    ensures Valid(lines) <==> ValidByLine(lines)
  {
    if lines != [] {
      ValidIsByLine(Front(lines));
      assert lines == Front(lines) + [Last(lines)];
      ValidExtends(Front(lines), Last(lines));
    }
  }

  lemma {:induction false} NoErrorsByLine(lines: seq<Line>)
    ensures Errors(lines) == [] <==> ValidByLine(lines)
  {
    if lines != [] {
      NoErrorsByLine(Front(lines));
      if ValidByLine(Front(lines)) {
        ValidIsByLine(Front(lines));
        NoLineErrors(Front(lines), Last(lines));
      }
    }
  }

  /** The validator reports nothing exactly on valid sessions. */
  lemma {:induction false} NoErrorsExactlyWhenValid(lines: seq<Line>)
    ensures Errors(lines) == [] <==> Valid(lines)
  {
    NoErrorsByLine(lines);
    ValidIsByLine(lines);
  }

  // ------------------------------------------------- which errors, exactly

  /** The fault that an error names, found in the line, given the ids seen before it and the last time. */
  predicate Faulty(line: Line, seen: set<Uuid>, time: Option<int>, e: Error) {
    match e
    case MissingType(_) => line.kind == NoType
    case DuplicateUuid(_) => line.uuid.Some? && line.uuid.value != Named("") && line.uuid.value in seen
    case UnknownParent(_) =>
      && line.parent.Some? && line.parent.value != Named("") && line.parent.value !in seen
      && line.parent != line.uuid && !(line.parent.value.Named? && "p-" <= line.parent.value.text)
    case TimeRunsBack(_) => line.timestamp.Some? && time.Some? && line.timestamp.value < time.value
    case MissingMessage(_) => (line.kind == User || line.kind == Assistant) && line.message == None
    case MissingRole(_) => (line.kind == User || line.kind == Assistant) && line.message.Some? && line.message.value.role == None
    case MissingData(_) => line.kind == Progress && line.data == None
    case MissingDataType(_) => line.kind == Progress && line.data.Some? && line.data.value.kind == None
    case MissingSubtype(_) => line.kind == System && line.subtype == None
  }

  lemma {:induction false} InWhen(condition: bool, e: Error, x: Error)
    ensures x in When(condition, e) <==> condition && x == e
  {
  }

  lemma {:induction false} InBoth(a: seq<Error>, b: seq<Error>, x: Error)
    ensures x in a + b <==> x in a || x in b
  {
  }

  lemma {:induction false} InBodyErrors(at: nat, line: Line, e: Error)
    ensures e in BodyErrors(at, line) <==>
              || (e == MissingMessage(at) && Faulty(line, {}, None, e)) || (e == MissingRole(at) && Faulty(line, {}, None, e))
              || (e == MissingData(at) && Faulty(line, {}, None, e)) || (e == MissingDataType(at) && Faulty(line, {}, None, e))
              || (e == MissingSubtype(at) && Faulty(line, {}, None, e))
  {
    match line.kind
    case User =>
    case Assistant =>
    case Progress =>
    case System =>
    case _ =>
  }

  lemma {:induction false} InTypePart(at: nat, line: Line, seen: set<Uuid>, time: Option<int>, e: Error)
    ensures e in When(line.kind.NoType?, MissingType(at)) <==> e.MissingType? && e.at == at && Faulty(line, seen, time, e)
  {
  }

  lemma {:induction false} InUuidErrors(at: nat, line: Line, seen: set<Uuid>, time: Option<int>, e: Error)
    ensures e in UuidErrors(at, line, seen) <==> e.DuplicateUuid? && e.at == at && Faulty(line, seen, time, e)
  {
  }

  lemma {:induction false} InParentErrors(at: nat, line: Line, seen: set<Uuid>, time: Option<int>, e: Error)
    ensures e in ParentErrors(at, line, seen) <==> e.UnknownParent? && e.at == at && Faulty(line, seen, time, e)
  {
  }

  lemma {:induction false} InTimeErrors(at: nat, line: Line, seen: set<Uuid>, time: Option<int>, e: Error)
    ensures e in TimeErrors(at, line, time) <==> e.TimeRunsBack? && e.at == at && Faulty(line, seen, time, e)
  {
  }

  lemma {:induction false} InFive(a: seq<Error>, b: seq<Error>, c: seq<Error>, d: seq<Error>, f: seq<Error>, x: Error)
    ensures x in a + b + c + d + f <==> x in a || x in b || x in c || x in d || x in f
  {
  }

  /** A line's errors are those whose fault it has. */
  lemma {:induction false} InLineErrors(at: nat, line: Line, seen: set<Uuid>, time: Option<int>, e: Error)
    ensures e in LineErrors(at, line, seen, time) <==> e.at == at && Faulty(line, seen, time, e)
  {
    InFive(When(line.kind.NoType?, MissingType(at)), UuidErrors(at, line, seen), ParentErrors(at, line, seen),
           TimeErrors(at, line, time), BodyErrors(at, line), e);
    InTypePart(at, line, seen, time, e);
    InUuidErrors(at, line, seen, time, e);
    InParentErrors(at, line, seen, time, e);
    InTimeErrors(at, line, seen, time, e);
    InBodyErrors(at, line, e);
  }

  lemma {:induction false} ErrorsOneMore(lines: seq<Line>, e: Error)
    requires lines != []
    ensures e in Errors(lines) <==>
              || e in Errors(Front(lines))
              || (e.at == |lines| - 1 && Faulty(Last(lines), SeenUuids(Front(lines)), LastTime(Front(lines)), e))
  {
    InLineErrors(|lines| - 1, Last(lines), SeenUuids(Front(lines)), LastTime(Front(lines)), e);
    InBoth(Errors(Front(lines)), LineErrors(|lines| - 1, Last(lines), SeenUuids(Front(lines)), LastTime(Front(lines))), e);
  }

  /** The line that the error names has its fault. */
  predicate FaultyLine(lines: seq<Line>, e: Error) {
    e.at < |lines| && Faulty(lines[e.at], SeenUuids(lines[..e.at]), LastTime(lines[..e.at]), e)
  }

  lemma {:induction false} FaultyOneMore(lines: seq<Line>, e: Error)
    requires lines != []
    ensures FaultyLine(lines, e) <==>
              || FaultyLine(Front(lines), e)
              || (e.at == |lines| - 1 && Faulty(Last(lines), SeenUuids(Front(lines)), LastTime(Front(lines)), e))
  {
    var n, front := |lines| - 1, Front(lines);
    assert lines[..n] == front;
    if e.at < n {
      assert front[..e.at] == lines[..e.at] && front[e.at] == lines[e.at];
    }
  }

  /** An error is reported if and only if the line that it names has its fault. */
  lemma {:induction false} ErrorsOfLines(lines: seq<Line>, e: Error)
    ensures e in Errors(lines) <==> FaultyLine(lines, e)
  {
    if lines != [] {
      ErrorsOfLines(Front(lines), e);
      ErrorsOneMore(lines, e);
      FaultyOneMore(lines, e);
    }
  }

  /** The time that a line is held against: that of the last line before it that has one. */
  lemma {:induction false} LastTimeMeans(lines: seq<Line>, time: int)
    ensures LastTime(lines) == Some(time) <==>
              exists j :: 0 <= j < |lines| && lines[j].timestamp == Some(time)
                          && forall k :: j < k < |lines| ==> lines[k].timestamp == None
  {
    if lines != [] {
      var n := |lines| - 1;
      LastTimeMeans(Front(lines), time);
      assert forall k :: 0 <= k < n ==> Front(lines)[k] == lines[k];
      if LastTime(lines) == Some(time) && Last(lines).timestamp.None? {
        var j :| 0 <= j < n && Front(lines)[j].timestamp == Some(time)
                 && forall k :: j < k < n ==> Front(lines)[k].timestamp == None;
        assert lines[j].timestamp == Some(time) && forall k :: j < k <= n ==> lines[k].timestamp == None;
      }
    }
  }

  /** Lines before i with the id. */
  ghost predicate UsedBefore(lines: seq<Line>, i: nat, u: Option<Uuid>)
    requires i <= |lines|
  {
    exists j :: 0 <= j < i && lines[j].uuid == u
  }

  lemma {:induction false} SeenBefore(lines: seq<Line>, i: nat, u: Uuid)
    requires i <= |lines| && u != Named("")
    ensures u in SeenUuids(lines[..i]) <==> UsedBefore(lines, i, Some(u))
  {
    SeenMeans(lines[..i], u);
    if UsedBefore(lines, i, Some(u)) {
      var j :| 0 <= j < i && lines[j].uuid == Some(u);
      assert lines[..i][j].uuid == Some(u);
    }
  }

  /**
   For any session and any of its lines: each kind of error is reported for the line if and only if the line has that
   fault, held against the ids and the last time stamp before it.
   */
  lemma {:induction false} ReportedExactlyWhen(lines: seq<Line>, i: nat)
    requires i < |lines|
    ensures MissingType(i) in Errors(lines) <==> lines[i].kind == NoType
    ensures DuplicateUuid(i) in Errors(lines) <==>
              lines[i].uuid.Some? && lines[i].uuid.value != Named("") && UsedBefore(lines, i, lines[i].uuid)
    ensures UnknownParent(i) in Errors(lines) <==>
              && lines[i].parent.Some? && lines[i].parent.value != Named("")
              && !UsedBefore(lines, i, lines[i].parent) && lines[i].uuid != lines[i].parent
              && !(lines[i].parent.value.Named? && "p-" <= lines[i].parent.value.text)
    ensures MissingMessage(i) in Errors(lines) <==> (lines[i].kind == User || lines[i].kind == Assistant) && lines[i].message == None
    ensures MissingRole(i) in Errors(lines) <==>
              (lines[i].kind == User || lines[i].kind == Assistant) && lines[i].message.Some? && lines[i].message.value.role == None
    ensures MissingData(i) in Errors(lines) <==> lines[i].kind == Progress && lines[i].data == None
    ensures MissingDataType(i) in Errors(lines) <==>
              lines[i].kind == Progress && lines[i].data.Some? && lines[i].data.value.kind == None
    ensures MissingSubtype(i) in Errors(lines) <==> lines[i].kind == System && lines[i].subtype == None
  {
    IdsReported(lines, i);
    BodiesReported(lines, i);
  }

  lemma {:induction false} IdsReported(lines: seq<Line>, i: nat)
    requires i < |lines|
    ensures DuplicateUuid(i) in Errors(lines) <==>
              lines[i].uuid.Some? && lines[i].uuid.value != Named("") && UsedBefore(lines, i, lines[i].uuid)
    ensures UnknownParent(i) in Errors(lines) <==>
              && lines[i].parent.Some? && lines[i].parent.value != Named("")
              && !UsedBefore(lines, i, lines[i].parent) && lines[i].uuid != lines[i].parent
              && !(lines[i].parent.value.Named? && "p-" <= lines[i].parent.value.text)
  {
    var line := lines[i];
    ErrorsOfLines(lines, DuplicateUuid(i));
    ErrorsOfLines(lines, UnknownParent(i));
    if line.uuid.Some? && line.uuid.value != Named("") {
      SeenBefore(lines, i, line.uuid.value);
    }
    if line.parent.Some? && line.parent.value != Named("") {
      SeenBefore(lines, i, line.parent.value);
    }
  }

  lemma {:induction false} BodiesReported(lines: seq<Line>, i: nat)
    requires i < |lines|
    ensures MissingType(i) in Errors(lines) <==> lines[i].kind == NoType
    ensures MissingMessage(i) in Errors(lines) <==> (lines[i].kind == User || lines[i].kind == Assistant) && lines[i].message == None
    ensures MissingRole(i) in Errors(lines) <==>
              (lines[i].kind == User || lines[i].kind == Assistant) && lines[i].message.Some? && lines[i].message.value.role == None
    ensures MissingData(i) in Errors(lines) <==> lines[i].kind == Progress && lines[i].data == None
    ensures MissingDataType(i) in Errors(lines) <==>
              lines[i].kind == Progress && lines[i].data.Some? && lines[i].data.value.kind == None
    ensures MissingSubtype(i) in Errors(lines) <==> lines[i].kind == System && lines[i].subtype == None
  {
    BodyReported(lines, MissingType(i));
    BodyReported(lines, MissingMessage(i));
    BodyReported(lines, MissingRole(i));
    BodyReported(lines, MissingData(i));
    BodyReported(lines, MissingDataType(i));
    BodyReported(lines, MissingSubtype(i));
  }

  lemma {:induction false} BodyReported(lines: seq<Line>, e: Error)
    requires e.at < |lines| && !e.DuplicateUuid? && !e.UnknownParent? && !e.TimeRunsBack?
    ensures e in Errors(lines) <==> Faulty(lines[e.at], {}, None, e)
  {
    ErrorsOfLines(lines, e);
  }

  /** Line j is the last before i that has a time stamp. */
  predicate LastStamped(lines: seq<Line>, i: nat, j: nat)
    requires i <= |lines|
  {
    j < i && lines[j].timestamp.Some? && forall k :: j < k < i ==> lines[k].timestamp == None
  }

  lemma {:induction false} LastStamp(lines: seq<Line>, i: nat) returns (j: nat)
    requires i <= |lines| && LastTime(lines[..i]).Some?
    ensures LastStamped(lines, i, j) && lines[j].timestamp == LastTime(lines[..i])
  {
    var before := lines[..i];
    var time := LastTime(before).value;
    LastTimeMeans(before, time);
    j :| 0 <= j < |before| && before[j].timestamp == Some(time) && forall k :: j < k < |before| ==> before[k].timestamp == None;
    assert forall k :: 0 <= k < i ==> before[k] == lines[k];
  }

  lemma {:induction false} StampIsLastTime(lines: seq<Line>, i: nat, j: nat)
    requires i <= |lines| && LastStamped(lines, i, j)
    ensures LastTime(lines[..i]) == lines[j].timestamp
  {
    var before := lines[..i];
    assert forall k :: 0 <= k < i ==> before[k] == lines[k];
    assert before[j].timestamp == lines[j].timestamp && forall k :: j < k < |before| ==> before[k].timestamp == None;
    LastTimeMeans(before, lines[j].timestamp.value);
  }

  lemma {:induction false} TimeReported(lines: seq<Line>, i: nat)
    requires i < |lines|
    ensures TimeRunsBack(i) in Errors(lines) <==>
              && lines[i].timestamp.Some? && LastTime(lines[..i]).Some?
              && lines[i].timestamp.value < LastTime(lines[..i]).value
  {
    ErrorsOfLines(lines, TimeRunsBack(i));
  }

  /** Time runs back at a line exactly if it has a time stamp that is earlier than the last one before it. */
  lemma {:induction false} TimeRunsBackExactlyWhen(lines: seq<Line>, i: nat)
    requires i < |lines|
    ensures TimeRunsBack(i) in Errors(lines) <==>
              && lines[i].timestamp.Some?
              && exists j :: 0 <= j < i && LastStamped(lines, i, j) && lines[i].timestamp.value < lines[j].timestamp.value
  {
    TimeReported(lines, i);
    if LastTime(lines[..i]).Some? {
      var j := LastStamp(lines, i);
      assert 0 <= j < i && LastStamped(lines, i, j);
    }
    if j :| 0 <= j < i && LastStamped(lines, i, j) && lines[i].timestamp.Some? && lines[i].timestamp.value < lines[j].timestamp.value {
      StampIsLastTime(lines, i, j);
    }
  }

  /** Nothing is reported about lines that do not exist. */
  lemma {:induction false} ReportsAreAboutLines(lines: seq<Line>, e: Error)
    requires e in Errors(lines)
    ensures e.at < |lines|
  {
    ErrorsOfLines(lines, e);
  }

  /** Reports come line by line. */
  lemma {:induction false} ReportsComeInOrder(lines: seq<Line>)
    ensures forall i, j :: 0 <= i < j < |Errors(lines)| ==> Errors(lines)[i].at <= Errors(lines)[j].at
  {
    if lines != [] {
      var n, front := |lines| - 1, Front(lines);
      var more := LineErrors(n, Last(lines), SeenUuids(front), LastTime(front));
      ReportsComeInOrder(front);
      forall e | e in Errors(front) ensures e.at < n {
        ReportsAreAboutLines(front, e);
      }
      forall e | e in more ensures e.at == n {
        InLineErrors(n, Last(lines), SeenUuids(front), LastTime(front), e);
      }
      InOrderTogether(Errors(front), more, n);
    }
  }

  lemma {:induction false} InOrderTogether(a: seq<Error>, b: seq<Error>, n: nat)
    requires forall i, j :: 0 <= i < j < |a| ==> a[i].at <= a[j].at
    requires (forall e :: e in a ==> e.at < n) && forall e :: e in b ==> e.at == n
    ensures forall i, j :: 0 <= i < j < |a + b| ==> (a + b)[i].at <= (a + b)[j].at
  {
    forall i, j | 0 <= i < j < |a + b| ensures (a + b)[i].at <= (a + b)[j].at {
      if i < |a| {
        assert (a + b)[i] == a[i] && a[i] in a;
      }
      if j >= |a| {
        assert (a + b)[j] == b[j - |a|] && b[j - |a|] in b;
      }
    }
  }
}
