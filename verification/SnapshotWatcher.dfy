/**
 Snapshot-diff watcher for Hermes sessions (rs/src/snapshot_watcher.rs).

 A session file is a whole JSON snapshot that is overwritten in place. The watcher keeps, per path,
 the session id and the number of messages it last saw, and hands on only what it takes to be new.
 Events are modelled as the envelope lines that are handed to the translator.
 */
module SnapshotWatcher {
  import opened Paths
  import opened Wrappers

  /** One entry of a snapshot's `messages` array; a missing role reads as "". */
  datatype Message = Message(role: string, body: string)

  newtype Byte = b: int | 0 <= b < 256

  /** What a session start is made of: the system prompt, as UTF-8 bytes, and the rest. */
  datatype Metadata = Metadata(prompt: seq<Byte>, rest: string)

  /** A parsed snapshot; a missing session id reads as "", and `messages` may be missing. */
  datatype Snapshot = Snapshot(sessionId: string, messages: Option<seq<Message>>, lastUpdated: string, metadata: Metadata)

  /** What reading a file at some moment gives: nothing usable, or a parsed snapshot. */
  datatype Poll = Unreadable | Seen(snapshot: Snapshot)

  datatype Line =
    | SessionStart(sessionId: string, metadata: Metadata)
    | MessageLine(sessionId: string, eventSeq: nat, timestamp: string, data: Message)

  /** The translator's state, up to its own unseen translation: what it was created with and what it was fed. */
  datatype Transcript = Transcript(sessionId: string, consumed: seq<Line>)

  /** The value of a `SnapshotState` object. */
  datatype Tracked = Tracked(sessionId: string, messageCount: nat, transcript: Transcript)

  function Fresh(sessionId: string): Tracked {
    Tracked(sessionId, 0, Transcript(sessionId, []))
  }

  // ---------------------------------------------------------------- the diff

  /** The guard of the reset branch: the session id changed or the array shrank. */
  predicate Resets(s: Tracked, snapshot: Snapshot) {
    snapshot.messages.Some? && (snapshot.sessionId != s.sessionId || |snapshot.messages.value| < s.messageCount)
  }

  function Diff(s: Tracked, snapshot: Snapshot): (r: (Tracked, seq<Message>))
    ensures |r.1| <= r.0.messageCount
    ensures snapshot.messages.None? ==> r == (s, [])
    ensures snapshot.messages.Some? ==>
              && r.0.sessionId == snapshot.sessionId && r.0.messageCount == |snapshot.messages.value|
              && r.1 == snapshot.messages.value[r.0.messageCount - |r.1|..]
  {
    if snapshot.messages.None? then (s, [])
    else
      var messages := snapshot.messages.value;
      if Resets(s, snapshot) then (Fresh(snapshot.sessionId).(messageCount := |messages|), messages)
      else (s.(messageCount := |messages|), messages[s.messageCount..])
  }

  // ----------------------------------------------------- the session start

  const PREVIEW: nat := 500

  /** The preview would end inside a character: byte 500 is not the first of one. Taking it panics. */
  predicate CutsCharacter(prompt: seq<Byte>) {
    |prompt| > PREVIEW && 0x80 <= prompt[PREVIEW] < 0xC0
  }

  /** A session start carries the first 500 bytes of the prompt. */
  function Previewed(metadata: Metadata): Metadata {
    metadata.(prompt := metadata.prompt[..if |metadata.prompt| < PREVIEW then |metadata.prompt| else PREVIEW])
  }

  /** A start is due: on first encounter, or if the session changed and there is something new. */
  predicate StartIsDue(s: Option<Tracked>, snapshot: Snapshot) {
    s.None? || (s.value.sessionId != snapshot.sessionId && Diff(s.value, snapshot).1 != [])
  }

  predicate Panics(s: Option<Tracked>, snapshot: Snapshot) {
    snapshot.sessionId != "" && StartIsDue(s, snapshot) && CutsCharacter(snapshot.metadata.prompt)
  }

  predicate PollPanics(s: Option<Tracked>, poll: Poll) {
    poll.Seen? && Panics(s, poll.snapshot)
  }

  // ------------------------------------------------- one poll of one file

  /** Envelopes for `messages`, the first of which stands at index `base` of its snapshot. */
  function Wrap(snapshot: Snapshot, base: nat, messages: seq<Message>): seq<Line>
    decreases messages
  {
    if messages == [] then []
    else
      (if messages[0].role == "system" then []
       else [MessageLine(snapshot.sessionId, base + 1, snapshot.lastUpdated, messages[0])])
      + Wrap(snapshot, base + 1, messages[1..])
  }

  /** The messages that a poll finds new, and the state that it leaves but for the translator. */
  function Found(s: Option<Tracked>, snapshot: Snapshot): (Tracked, seq<Message>) {
    Diff(s.GetOr(Fresh(snapshot.sessionId)), snapshot)
  }

  function StartLines(s: Option<Tracked>, snapshot: Snapshot): (lines: seq<Line>)
    ensures |lines| <= 1 && forall l :: l in lines ==> l.SessionStart?
  {
    if StartIsDue(s, snapshot) then [SessionStart(snapshot.sessionId, Previewed(snapshot.metadata))] else []
  }

  /** The index of the first message that a poll finds new. */
  function NewBase(s: Option<Tracked>, snapshot: Snapshot): nat {
    Found(s, snapshot).0.messageCount - |Found(s, snapshot).1|
  }

  /** The lines of a poll. */
  function LinesOf(s: Option<Tracked>, snapshot: Snapshot): seq<Line> {
    StartLines(s, snapshot) + Wrap(snapshot, NewBase(s, snapshot), Found(s, snapshot).1)
  }

  function Feed(s: Tracked, lines: seq<Line>): Tracked {
    s.(transcript := s.transcript.(consumed := s.transcript.consumed + lines))
  }

  /** What a poll does if it does not panic. */
  function Process(s: Option<Tracked>, snapshot: Snapshot): (Option<Tracked>, seq<Line>) {
    if snapshot.sessionId == "" then (s, [])
    else (Some(Feed(Found(s, snapshot).0, LinesOf(s, snapshot))), LinesOf(s, snapshot))
  }

  function ProcessPoll(s: Option<Tracked>, poll: Poll): (Option<Tracked>, seq<Line>) {
    match poll
    case Unreadable => (s, [])
    case Seen(snapshot) => Process(s, snapshot)
  }

  lemma {:induction false} WrapConcat(snapshot: Snapshot, base: nat, a: seq<Message>, b: seq<Message>)
    ensures Wrap(snapshot, base, a + b) == Wrap(snapshot, base, a) + Wrap(snapshot, base + |a|, b)
    decreases a
  {
    if a == [] {
      assert a + b == b;
    } else {
      assert (a + b)[1..] == a[1..] + b;
      WrapConcat(snapshot, base + 1, a[1..], b);
    }
  }

  /** Every envelope carries its message under (session id, index in the snapshot + 1), and none is a system message. */
  lemma {:induction false} WrapIndexes(snapshot: Snapshot, base: nat, messages: seq<Message>, line: Line)
    ensures line in Wrap(snapshot, base, messages) <==>
              exists i :: 0 <= i < |messages| && messages[i].role != "system"
                          && line == MessageLine(snapshot.sessionId, base + i + 1, snapshot.lastUpdated, messages[i])
    decreases messages
  {
    if messages != [] {
      var rest := messages[1..];
      WrapIndexes(snapshot, base + 1, rest, line);
      assert forall i :: 0 <= i < |rest| ==> rest[i] == messages[i + 1];
      if i :| 0 <= i < |messages| && messages[i].role != "system"
              && line == MessageLine(snapshot.sessionId, base + i + 1, snapshot.lastUpdated, messages[i]) {
        if i > 0 {
          assert rest[i - 1] == messages[i];
          assert line == MessageLine(snapshot.sessionId, base + 1 + (i - 1) + 1, snapshot.lastUpdated, rest[i - 1]);
        }
      }
    }
  }

  /** One file polled over and over by a new watcher, none of the polls panicking: its final state and everything emitted for it. */
  function Run(polls: seq<Poll>): (Option<Tracked>, seq<Line>) {
    if polls == [] then (None, [])
    else
      var (s, out) := Run(polls[..|polls| - 1]);
      var (s', lines) := ProcessPoll(s, polls[|polls| - 1]);
      (s', out + lines)
  }

  lemma {:induction false} RunStep(polls: seq<Poll>, poll: Poll)
    ensures Run(polls + [poll]).0 == ProcessPoll(Run(polls).0, poll).0
    ensures Run(polls + [poll]).1 == Run(polls).1 + ProcessPoll(Run(polls).0, poll).1
  {
    assert (polls + [poll])[..|polls|] == polls;
  }

  /** Everything one poll emits belongs to the session that the watcher tracks afterwards. */
  lemma OneSessionPerBatch(s: Option<Tracked>, poll: Poll, line: Line)
    requires line in ProcessPoll(s, poll).1
    ensures ProcessPoll(s, poll).0.Some? && line.sessionId == ProcessPoll(s, poll).0.value.sessionId
  {
    var snapshot := poll.snapshot;
    var (s', added) := Diff(s.GetOr(Fresh(snapshot.sessionId)), snapshot);
    WrapIndexes(snapshot, s'.messageCount - |added|, added, line);
  }

  // ------------------------------------------------------------ the objects

  /** The emitting half of `process_snapshot`: an optional session start, then one envelope per non-system message. */
  method Envelopes(snapshot: Snapshot, announce: bool, count: nat, added: seq<Message>) returns (events: seq<Line>)
    requires |added| <= count && (announce ==> !CutsCharacter(snapshot.metadata.prompt))
    ensures events == (if announce then [SessionStart(snapshot.sessionId, Previewed(snapshot.metadata))] else [])
                      + Wrap(snapshot, count - |added|, added)
  {
    events := [];
    if announce {
      events := [SessionStart(snapshot.sessionId, Previewed(snapshot.metadata))];
    }
    ghost var start := events;
    for i := 0 to |added|
      invariant events == start + Wrap(snapshot, count - |added|, added[..i])
    {
      WrapOneMore(snapshot, count - |added|, added, i);
      if added[i].role == "system" {
        continue;
      }
      var seqNo: nat := count - |added| + i + 1;
      events := events + [MessageLine(snapshot.sessionId, seqNo, snapshot.lastUpdated, added[i])];
    }
    assert added[..|added|] == added;
  }

  lemma {:induction false} WrapOneMore(snapshot: Snapshot, base: nat, added: seq<Message>, i: nat)
    requires i < |added|
    ensures Wrap(snapshot, base, added[..i + 1])
            == Wrap(snapshot, base, added[..i])
               + if added[i].role == "system" then []
                 else [MessageLine(snapshot.sessionId, base + i + 1, snapshot.lastUpdated, added[i])]
  {
    WrapConcat(snapshot, base, added[..i], [added[i]]);
    assert added[..i + 1] == added[..i] + [added[i]];
    assert [added[i]][1..] == [];
  }

  /** A panic, or the step of the model. */
  predicate TakesIn(s: Option<Tracked>, snapshot: Snapshot, s': Option<Tracked>, r: Result<seq<Line>, Failure>) {
    if Panics(s, snapshot) then r == Err(Panicked) && s' == Some(Found(s, snapshot).0)
    else r == Ok(Process(s, snapshot).1) && s' == Process(s, snapshot).0
  }

  class SnapshotState {
    var sessionId: string
    var messageCount: nat
    var transcript: Transcript

    constructor (sessionId: string)
      ensures Value() == Fresh(sessionId)
    {
      this.sessionId := sessionId;
      this.messageCount := 0;
      this.transcript := Transcript(sessionId, []);
    }

    function Value(): Tracked
      reads this
    {
      Tracked(sessionId, messageCount, transcript)
    }

    method DiffSnapshot(snapshot: Snapshot) returns (added: seq<Message>)
      modifies this
      ensures (Value(), added) == Diff(old(Value()), snapshot)
    {
      if snapshot.messages.None? {
        return [];
      }
      var messages := snapshot.messages.value;
      var count := |messages|;
      if snapshot.sessionId != sessionId || count < messageCount {
        sessionId := snapshot.sessionId;
        messageCount := count;
        transcript := Transcript(snapshot.sessionId, []);
        return messages;
      }
      if count == messageCount {
        assert messages[messageCount..] == [];
        return [];
      }
      added := messages[messageCount..];
      messageCount := count;
    }

    /** What `process_snapshot` does once it holds the state of the file. The diff is done before a panic. */
    method TakeIn(snapshot: Snapshot, isNew: bool) returns (r: Result<seq<Line>, Failure>)
      requires snapshot.sessionId != "" && (isNew ==> Value() == Fresh(snapshot.sessionId))
      modifies this
      ensures TakesIn(if isNew then None else Some(old(Value())), snapshot, Some(Value()), r)
    {
      var prevSid := sessionId;
      var added := DiffSnapshot(snapshot);
      ghost var s := if isNew then None else Some(old(Value()));
      assert (Value(), added) == Found(s, snapshot);
      if added == [] && !isNew {
        assert [] + Wrap(snapshot, messageCount, []) == [] && Feed(Value(), []) == Value();
        return Ok([]);
      }
      var sessionChanged := !isNew && prevSid != snapshot.sessionId;
      if (isNew || sessionChanged) && CutsCharacter(snapshot.metadata.prompt) {
        return Err(Panicked);
      }
      var events := Envelopes(snapshot, isNew || sessionChanged, messageCount, added);
      transcript := transcript.(consumed := transcript.consumed + events);
      return Ok(events);
    }
  }

  predicate IsSessionFile(path: Path) {
    "session_" <= path.name && EndsWith(path.name, ".json") && !("." <= path.name)
  }

  lemma Ends5(name: string)
    requires |name| >= 5 && name[|name| - 5..] == ".json"
    ensures name[|name| - 5] == '.'
  {
    assert name[|name| - 5] == name[|name| - 5..][0];
  }

  lemma NamesSplit(name: string) returns (id: string)
    requires "session_" <= name && EndsWith(name, ".json")
    ensures name == "session_" + id + ".json"
  {
    Ends5(name);
    var p := "session_";
    assert p[0] == 's' && p[1] == 'e' && p[2] == 's' && p[3] == 's' && p[4] == 'i' && p[5] == 'o' && p[6] == 'n' && p[7] == '_';
    assert forall k :: 0 <= k < 8 ==> name[k] == p[k];
    assert |name| - 5 >= 8;
    id := name[8..|name| - 5];
  }

  lemma OrdinaryName(d: string, id: string)
    ensures IsSessionFile(Path(d, "session_" + id + ".json"))
  {
    var name := "session_" + id + ".json";
    assert name[|name| - 5..] == ".json";
    assert name[0] == 's';
  }

  /** A session file is one whose name is `session_`, anything, and `.json`. */
  lemma IsSessionFileExactlyWhen(path: Path)
    ensures IsSessionFile(path) <==> exists id :: path.name == "session_" + id + ".json"
  {
    if IsSessionFile(path) {
      var id := NamesSplit(path.name);
    }
    if id :| path.name == "session_" + id + ".json" {
      OrdinaryName(path.directory, id);
      assert path == Path(path.directory, "session_" + id + ".json");
    }
  }

  /** An unreadable file is an error that is logged; a panic ends the thread that watches. */
  datatype Failure = Unread | Panicked

  /** A batch as the callback receives it: the session id it is published under, and its events. */
  datatype Batch = Batch(path: Path, sessionId: string, lines: seq<Line>)

  class Watcher {
    var states: map<Path, SnapshotState>

    constructor ()
      ensures Valid() && states == map[]
    {
      states := map[];
    }

    ghost predicate Valid()
      reads this
    {
      forall p, q :: p in states && q in states && p != q ==> states[p] != states[q]
    }

    ghost function At(path: Path): Option<Tracked>
      reads this, states.Values
    {
      if path in states then Some(states[path].Value()) else None
    }

    /** `entry(path).or_insert_with(..)`: the state tracked for a path, created on first encounter. */
    method Entry(path: Path, sessionId: string) returns (state: SnapshotState)
      requires Valid()
      modifies this
      ensures Valid() && path in states && states[path] == state
      ensures path in old(states) ==> states == old(states)
      ensures path !in old(states) ==> states == old(states)[path := state] && fresh(state) && state.Value() == Fresh(sessionId)
      ensures At(path) == Some(old(At(path)).GetOr(Fresh(sessionId))) && forall q :: q != path ==> At(q) == old(At(q))
    {
      if path !in states {
        var s := new SnapshotState(sessionId);
        states := states[path := s];
      }
      state := states[path];
    }

    /** Only files named `session_`, anything, `.json` are looked at; no other has any effect. */
    method ProcessSnapshot(path: Path, poll: Poll) returns (r: Result<seq<Line>, Failure>)
      requires Valid()
      modifies this, states.Values
      ensures Valid() && fresh(states.Values - old(states.Values))
      ensures (exists id :: path.name == "session_" + id + ".json") ==>
                && (r == Err(Unread) <==> poll.Unreadable?)
                && (r == Err(Panicked) <==> PollPanics(old(At(path)), poll))
                && (r.Ok? ==> (At(path), r.value) == ProcessPoll(old(At(path)), poll))
      ensures (forall id :: path.name != "session_" + id + ".json") ==> r == Ok([]) && states == old(states)
      ensures r == Err(Unread) <==> IsSessionFile(path) && poll.Unreadable?
      ensures r == Err(Panicked) <==> IsSessionFile(path) && PollPanics(old(At(path)), poll)
      ensures !IsSessionFile(path) ==> r == Ok([]) && At(path) == old(At(path))
      ensures IsSessionFile(path) && r != Err(Panicked) ==> At(path) == ProcessPoll(old(At(path)), poll).0
      ensures IsSessionFile(path) && r.Ok? ==> r.value == ProcessPoll(old(At(path)), poll).1
      ensures forall q :: q != path ==> At(q) == old(At(q))
    {
      IsSessionFileExactlyWhen(path);
      if !("session_" <= path.name) || !EndsWith(path.name, ".json") {
        return Ok([]);
      }
      if "." <= path.name {
        return Ok([]);
      }
      if poll.Unreadable? {
        return Err(Unread);
      }
      if poll.snapshot.sessionId == "" {
        return Ok([]);
      }
      r := Advance(path, poll.snapshot);
    }

    method TakeInto(path: Path, state: SnapshotState, snapshot: Snapshot, isNew: bool) returns (r: Result<seq<Line>, Failure>)
      requires Valid() && snapshot.sessionId != "" && path in states && states[path] == state
      requires isNew ==> state.Value() == Fresh(snapshot.sessionId)
      modifies state
      ensures Valid() && states == old(states)
      ensures isNew ==> TakesIn(None, snapshot, At(path), r)
      ensures !isNew ==> TakesIn(old(At(path)), snapshot, At(path), r)
      ensures forall q :: q != path ==> At(q) == old(At(q))
    {
      r := state.TakeIn(snapshot, isNew);
    }

    method Advance(path: Path, snapshot: Snapshot) returns (r: Result<seq<Line>, Failure>)
      requires Valid() && snapshot.sessionId != ""
      modifies this, states.Values
      ensures Valid() && fresh(states.Values - old(states.Values))
      ensures TakesIn(old(At(path)), snapshot, At(path), r)
      ensures forall q :: q != path ==> At(q) == old(At(q))
    {
      var isNew := path !in states;
      var state := Entry(path, snapshot.sessionId);
      r := TakeInto(path, state, snapshot, isNew);
    }
  }

  // ------------------------------------------------------- the watch loop

  function PollsOf(events: seq<(Path, Poll)>, path: Path): seq<Poll> {
    if events == [] then []
    else
      var before, last := PollsOf(events[..|events| - 1], path), events[|events| - 1];
      if last.0 == path then before + [last.1] else before
  }

  function LinesFor(sent: seq<Batch>, path: Path): seq<Line> {
    if sent == [] then []
    else
      var before, last := LinesFor(sent[..|sent| - 1], path), sent[|sent| - 1];
      if last.path == path then before + last.lines else before
  }

  predicate WellLabelled(batch: Batch) {
    batch.lines != [] && forall l :: l in batch.lines ==> l.sessionId == batch.sessionId
  }

  /** One event of the loop: process the file, and publish a non-empty result under the tracked session id. */
  method Handle(w: Watcher, path: Path, poll: Poll) returns (batches: seq<Batch>, alive: bool)
    requires w.Valid()
    modifies w, w.states.Values
    ensures w.Valid() && fresh(w.states.Values - old(w.states.Values))
    ensures alive <==> !(IsSessionFile(path) && PollPanics(old(w.At(path)), poll))
    ensures alive ==> w.At(path) == if IsSessionFile(path) then ProcessPoll(old(w.At(path)), poll).0 else old(w.At(path))
    ensures forall q :: q != path ==> w.At(q) == old(w.At(q))
    ensures |batches| <= 1 && forall b :: b in batches ==> WellLabelled(b) && b.path == path
    ensures LinesFor(batches, path) == if IsSessionFile(path) && alive then ProcessPoll(old(w.At(path)), poll).1 else []
  {
    ghost var before := w.At(path);
    batches := [];
    var r := w.ProcessSnapshot(path, poll);
    alive := r != Err(Panicked);
    if r.Ok? && r.value != [] {
      OneBatch(before, path, poll);
      batches := [Batch(path, w.states[path].sessionId, r.value)];
      assert w.At(path) == ProcessPoll(before, poll).0;
    } else {
      assert LinesFor(batches, path) == [];
      assert r.Err? ==> r.error.Unread? || r.error.Panicked?;
    }
  }

  lemma OneBatch(s: Option<Tracked>, path: Path, poll: Poll)
    ensures var (s', lines) := ProcessPoll(s, poll);
            lines != [] ==>
              && s'.Some? && WellLabelled(Batch(path, s'.value.sessionId, lines))
              && LinesFor([Batch(path, s'.value.sessionId, lines)], path) == lines
  {
    var (s', lines) := ProcessPoll(s, poll);
    forall l | l in lines ensures s'.Some? && l.sessionId == s'.value.sessionId {
      OneSessionPerBatch(s, poll, l);
    }
    if lines != [] {
      assert lines[0] in lines;
      var b := Batch(path, s'.value.sessionId, lines);
      assert [b][..0] == [] && [] + lines == lines;
    }
  }

  /** What a lone watcher of `path` would make of its share of the events. */
  function Alone(events: seq<(Path, Poll)>, path: Path): (Option<Tracked>, seq<Line>) {
    if IsSessionFile(path) then Run(PollsOf(events, path)) else (None, [])
  }

  lemma AloneStep(events: seq<(Path, Poll)>, path: Path, poll: Poll, p: Path)
    ensures p != path || !IsSessionFile(p) ==> Alone(events + [(path, poll)], p) == Alone(events, p)
    ensures p == path && IsSessionFile(p) ==>
              && Alone(events + [(path, poll)], p).0 == ProcessPoll(Alone(events, p).0, poll).0
              && Alone(events + [(path, poll)], p).1 == Alone(events, p).1 + ProcessPoll(Alone(events, p).0, poll).1
  {
    assert (events + [(path, poll)])[..|events|] == events;
    RunStep(PollsOf(events, path), poll);
  }

  ghost predicate Tracks(w: Watcher, events: seq<(Path, Poll)>)
    reads w, w.states.Values
  {
    forall p {:trigger w.At(p)} :: w.At(p) == Alone(events, p).0
  }

  ghost predicate Delivers(sent: seq<Batch>, events: seq<(Path, Poll)>) {
    && (forall b :: b in sent ==> WellLabelled(b))
    && forall p :: LinesFor(sent, p) == Alone(events, p).1
  }

  /** The event panics, after the ones in `past`. */
  predicate Ends(past: seq<(Path, Poll)>, path: Path, poll: Poll) {
    IsSessionFile(path) && PollPanics(Alone(past, path).0, poll)
  }

  /** The watch handles the events before the first that panics, or all of them. */
  predicate HandledUpTo(events: seq<(Path, Poll)>, handled: nat) {
    && handled <= |events|
    && (forall k :: 0 <= k < handled ==> !Ends(events[..k], events[k].0, events[k].1))
    && (handled < |events| ==> Ends(events[..handled], events[handled].0, events[handled].1))
  }

  lemma {:induction false} LinesMore(sent: seq<Batch>, events: seq<(Path, Poll)>, path: Path, poll: Poll, batches: seq<Batch>, p: Path)
    requires LinesFor(sent, p) == Alone(events, p).1
    requires LinesFor(batches, p)
             == if p == path && IsSessionFile(path) then ProcessPoll(Alone(events, path).0, poll).1 else []
    ensures LinesFor(sent + batches, p) == Alone(events + [(path, poll)], p).1
  {
    LinesForConcat(sent, batches, p);
    AloneStep(events, path, poll, p);
  }

  lemma {:induction false} NoLinesOfOthers(batches: seq<Batch>, path: Path, p: Path)
    requires p != path && forall b :: b in batches ==> b.path == path
    ensures LinesFor(batches, p) == []
  {
    if batches != [] {
      assert batches[|batches| - 1] in batches;
      NoLinesOfOthers(batches[..|batches| - 1], path, p);
    }
  }

  lemma {:induction false} DeliversMore(sent: seq<Batch>, events: seq<(Path, Poll)>, path: Path, poll: Poll, batches: seq<Batch>)
    requires Delivers(sent, events)
    requires forall b :: b in batches ==> WellLabelled(b) && b.path == path
    requires LinesFor(batches, path)
             == if IsSessionFile(path) then ProcessPoll(Alone(events, path).0, poll).1 else []
    ensures Delivers(sent + batches, events + [(path, poll)])
  {
    forall p ensures LinesFor(sent + batches, p) == Alone(events + [(path, poll)], p).1 {
      if p != path {
        NoLinesOfOthers(batches, path, p);
      }
      LinesMore(sent, events, path, poll, batches, p);
    }
  }

  lemma {:induction false} LinesForConcat(a: seq<Batch>, b: seq<Batch>, path: Path)
    ensures LinesFor(a + b, path) == LinesFor(a, path) + LinesFor(b, path)
  {
    if b == [] {
      assert a + b == a;
    } else {
      assert (a + b)[..|a + b| - 1] == a + b[..|b| - 1];
      LinesForConcat(a, b[..|b| - 1], path);
    }
  }

  /** Handling one more event, given as `past` the events handled before, keeps both facts unless it ends the watch. */
  method Deliver(w: Watcher, sent: seq<Batch>, path: Path, poll: Poll, ghost past: seq<(Path, Poll)>)
    returns (sent': seq<Batch>, alive: bool)
    requires w.Valid() && Tracks(w, past) && Delivers(sent, past)
    modifies w, w.states.Values
    ensures w.Valid() && fresh(w.states.Values - old(w.states.Values))
    ensures alive <==> !Ends(past, path, poll)
    ensures alive ==> Tracks(w, past + [(path, poll)]) && Delivers(sent', past + [(path, poll)])
    ensures !alive ==> sent' == sent
  {
    assert w.At(path) == Alone(past, path).0;
    var batches;
    batches, alive := Handle(w, path, poll);
    if !alive {
      return sent, false;
    }
    assert Tracks(w, past + [(path, poll)]) by {
      forall p ensures w.At(p) == Alone(past + [(path, poll)], p).0 {
        assert old(w.At(p)) == Alone(past, p).0;
        AloneStep(past, path, poll, p);
      }
    }
    DeliversMore(sent, past, path, poll, batches);
    sent' := sent + batches;
  }

  /**
   Backfill and live notifications, in the order they are handled; a failed read is only logged, and a panic
   ends the watch for all files. Until then files do not disturb one another: what is sent for a path is the
   run of that path's own polls, as far as they were handled.
   */
  method WatchSnapshots(events: seq<(Path, Poll)>) returns (sent: seq<Batch>, handled: nat)
    ensures HandledUpTo(events, handled)
    ensures forall b :: b in sent ==> b.lines != [] && forall l :: l in b.lines ==> l.sessionId == b.sessionId
    ensures forall p :: LinesFor(sent, p) == Alone(events[..handled], p).1
    ensures forall d, id :: var p := Path(d, "session_" + id + ".json");
                            LinesFor(sent, p) == Run(PollsOf(events[..handled], p)).1
    ensures forall p: Path :: (forall id :: p.name != "session_" + id + ".json") ==> LinesFor(sent, p) == []
  {
    var w := new Watcher();
    sent, handled := [], 0;
    while handled < |events|
      invariant handled <= |events|
      invariant forall k :: 0 <= k < handled ==> !Ends(events[..k], events[k].0, events[k].1)
      invariant w.Valid() && fresh(w) && fresh(w.states.Values)
      invariant Tracks(w, events[..handled]) && Delivers(sent, events[..handled])
      decreases |events| - handled
    {
      var (path, poll) := events[handled];
      assert events[..handled + 1] == events[..handled] + [(path, poll)];
      var alive;
      sent, alive := Deliver(w, sent, path, poll, events[..handled]);
      if !alive {
        break;
      }
      handled := handled + 1;
    }
    assert events[..|events|] == events;
    SentByName(sent, events[..handled]);
  }

  /** What is delivered for a path is told by its name. */
  lemma {:induction false} SentByName(sent: seq<Batch>, events: seq<(Path, Poll)>)
    requires Delivers(sent, events)
    ensures forall d, id :: var p := Path(d, "session_" + id + ".json"); LinesFor(sent, p) == Run(PollsOf(events, p)).1
    ensures forall p: Path :: (forall id :: p.name != "session_" + id + ".json") ==> LinesFor(sent, p) == []
  {
    forall d, id ensures var p := Path(d, "session_" + id + ".json"); LinesFor(sent, p) == Run(PollsOf(events, p)).1 {
      OrdinaryName(d, id);
      assert LinesFor(sent, Path(d, "session_" + id + ".json")) == Alone(events, Path(d, "session_" + id + ".json")).1;
    }
    forall p: Path | forall id :: p.name != "session_" + id + ".json" ensures LinesFor(sent, p) == [] {
      IsSessionFileExactlyWhen(p);
      assert LinesFor(sent, p) == Alone(events, p).1;
    }
  }
}
