/**
 Whole runs of the snapshot watcher against a writer that appends, undoes and compresses: when the
 diff converges, what is emitted, and when every message is announced by its session's start.
 */
module SnapshotRuns {
  import opened Paths
  import opened Wrappers
  import opened SnapshotWatcher

  /** The session and messages that a file showed last, whatever the watcher made of them. */
  datatype Observation = Observation(sessionId: string, messages: seq<Message>)

  function Observe(last: Option<Observation>, poll: Poll): Option<Observation> {
    match poll
    case Unreadable => last
    case Seen(snapshot) =>
      if snapshot.sessionId == "" || (last.Some? && snapshot.messages.None?) then last
      else Some(Observation(snapshot.sessionId, snapshot.messages.GetOr([])))
  }

  function Observed(polls: seq<Poll>): Option<Observation> {
    if polls == [] then None else Observe(Observed(polls[..|polls| - 1]), polls[|polls| - 1])
  }

  function Messages(last: Option<Observation>): seq<Message> {
    if last.None? then [] else last.value.messages
  }

  /** What the diff has handed on since it last reset: the consumer's copy of the `messages` array. */
  function Copy(polls: seq<Poll>): seq<Message> {
    if polls == [] then []
    else
      var before, s := Copy(polls[..|polls| - 1]), Run(polls[..|polls| - 1]).0;
      match polls[|polls| - 1]
      case Unreadable => before
      case Seen(snapshot) =>
        if snapshot.sessionId == "" then before
        else
          var tracked := s.GetOr(Fresh(snapshot.sessionId));
          if Resets(tracked, snapshot) then Diff(tracked, snapshot).1 else before + Diff(tracked, snapshot).1
  }

  /** The poll goes unnoticed as a rewrite: same session and no fewer messages than seen last. */
  predicate LooksLikeAppend(last: Option<Observation>, poll: Poll) {
    && poll.Seen? && poll.snapshot.sessionId != "" && poll.snapshot.messages.Some?
    && last.Some? && last.value.sessionId == poll.snapshot.sessionId
    && |last.value.messages| <= |poll.snapshot.messages.value|
  }

  predicate Honest(last: Option<Observation>, poll: Poll) {
    LooksLikeAppend(last, poll) ==> last.value.messages <= poll.snapshot.messages.value
  }

  /** Whenever a poll of the run looks like an append, it is one. */
  predicate HonestRun(polls: seq<Poll>) {
    polls != [] ==>
      var front := polls[..|polls| - 1];
      HonestRun(front) && Honest(Observed(front), polls[|polls| - 1])
  }

  /** After every poll of the run, the consumer's copy is the array that the file showed last. */
  predicate KeepsUp(polls: seq<Poll>) {
    && Copy(polls) == Messages(Observed(polls))
    && (polls != [] ==> KeepsUp(polls[..|polls| - 1]))
  }

  // ------------------------------------------------------------ convergence

  /** The watcher's two fields are exactly the id and the length of what it observed last. */
  lemma {:induction false} StateTracksObserved(polls: seq<Poll>)
    ensures Run(polls).0.None? <==> Observed(polls).None?
    ensures Run(polls).0.Some? ==>
              && Run(polls).0.value.sessionId == Observed(polls).value.sessionId != ""
              && Run(polls).0.value.messageCount == |Observed(polls).value.messages|
  {
    if polls != [] {
      StateTracksObserved(polls[..|polls| - 1]);
    }
  }

  /** The translator's state is the tracked session's own, and was fed the end of the output. */
  predicate Fed(s: Option<Tracked>, out: seq<Line>) {
    s.Some? ==>
      var t := s.value.transcript;
      && t.sessionId == s.value.sessionId
      && |t.consumed| <= |out| && out[|out| - |t.consumed|..] == t.consumed
      && forall l :: l in t.consumed ==> l.sessionId == s.value.sessionId
  }

  lemma FeedOrKeep(s: Option<Tracked>, poll: Poll)
    ensures var (s', lines) := ProcessPoll(s, poll);
            s'.Some? ==>
              || s'.value.transcript == Transcript(s'.value.sessionId, lines)
              || (s.Some? && s'.value.sessionId == s.value.sessionId
                  && s'.value.transcript == s.value.transcript.(consumed := s.value.transcript.consumed + lines))
  {
    var (s', lines) := ProcessPoll(s, poll);
    if s.Some? {
      assert s.value.transcript.consumed + [] == s.value.transcript.consumed;
    }
    assert [] + lines == lines;
  }

  lemma FeedStep(s: Option<Tracked>, out: seq<Line>, poll: Poll)
    requires Fed(s, out)
    ensures Fed(ProcessPoll(s, poll).0, out + ProcessPoll(s, poll).1)
  {
    var (s', lines) := ProcessPoll(s, poll);
    forall l | l in lines ensures s'.Some? && l.sessionId == s'.value.sessionId {
      OneSessionPerBatch(s, poll, l);
    }
    FeedOrKeep(s, poll);
    FedByLines(s, out, s', lines);
  }

  lemma FedByLines(s: Option<Tracked>, out: seq<Line>, s': Option<Tracked>, lines: seq<Line>)
    requires Fed(s, out) && (s'.Some? ==> forall l :: l in lines ==> l.sessionId == s'.value.sessionId)
    requires s'.Some? ==>
               || s'.value.transcript == Transcript(s'.value.sessionId, lines)
               || (s.Some? && s'.value.sessionId == s.value.sessionId
                   && s'.value.transcript == s.value.transcript.(consumed := s.value.transcript.consumed + lines))
    ensures Fed(s', out + lines)
  {
  }

  /** Whatever was polled: what the translator was fed since its last reset is the tracked session's, and ends the output. */
  lemma {:induction false} TranscriptFollowsTheSession(polls: seq<Poll>)
    ensures Fed(Run(polls).0, Run(polls).1)
  {
    if polls != [] {
      var front, poll := polls[..|polls| - 1], polls[|polls| - 1];
      assert polls == front + [poll];
      TranscriptFollowsTheSession(front);
      FeedStep(Run(front).0, Run(front).1, poll);
      RunStep(front, poll);
    }
  }

  lemma PrefixOrNot(copy: seq<Message>, messages: seq<Message>)
    requires |copy| <= |messages|
    ensures copy + messages[|copy|..] == messages <==> copy <= messages
  {
    if copy + messages[|copy|..] == messages {
      assert copy == (copy + messages[|copy|..])[..|copy|];
    }
  }

  lemma {:induction false} CopyStep(front: seq<Poll>, poll: Poll)
    requires Copy(front) == Messages(Observed(front))
    ensures Copy(front + [poll]) == Messages(Observed(front + [poll])) <==> Honest(Observed(front), poll)
  {
    StateTracksObserved(front);
    assert (front + [poll])[..|front|] == front;
    if LooksLikeAppend(Observed(front), poll) {
      PrefixOrNot(Copy(front), poll.snapshot.messages.value);
    }
  }

  /**
   As long as no poll panics, the diff converges after every poll exactly on honest runs: the consumer's copy is the polled array
   if and only if no poll with the same session and no fewer messages hides a rewrite.
   */
  lemma {:induction false} KeepsUpExactlyWhenHonest(polls: seq<Poll>)
    ensures KeepsUp(polls) <==> HonestRun(polls)
  {
    if polls != [] {
      var front, poll := polls[..|polls| - 1], polls[|polls| - 1];
      KeepsUpExactlyWhenHonest(front);
      assert front + [poll] == polls;
      if KeepsUp(front) {
        CopyStep(front, poll);
      }
    }
  }

  /** A rewrite that leaves the count alone goes unnoticed: nothing is emitted, and the copy stays wrong. */
  lemma {:induction false} HiddenRewriteIsLost(front: seq<Poll>, poll: Poll)
    requires KeepsUp(front)
    requires LooksLikeAppend(Observed(front), poll) && |poll.snapshot.messages.value| == |Messages(Observed(front))|
    requires poll.snapshot.messages.value != Messages(Observed(front))
    ensures ProcessPoll(Run(front).0, poll).1 == []
    ensures Copy(front + [poll]) == Messages(Observed(front)) != Messages(Observed(front + [poll]))
  {
    StateTracksObserved(front);
    NothingNew(Run(front).0.value, poll.snapshot);
    assert (front + [poll])[..|front|] == front;
    assert poll.snapshot.messages.value[|Copy(front)|..] == [];
  }

  /** One undone and replaced message, first polled afterwards. */
  lemma HiddenRegrowthExample(sid: string, a: Message, b: Message, c: Message, t: string, metadata: Metadata)
    requires sid != "" && b != c
    ensures var first, second := Seen(Snapshot(sid, Some([a, b]), t, metadata)), Seen(Snapshot(sid, Some([a, c]), t, metadata));
            ProcessPoll(Run([first]).0, second).1 == [] && !KeepsUp([first, second])
  {
    var first, second := Seen(Snapshot(sid, Some([a, b]), t, metadata)), Seen(Snapshot(sid, Some([a, c]), t, metadata));
    assert [first][..0] == [] && [first, second][..1] == [first];
    assert Observed([first]) == Some(Observation(sid, [a, b]));
    assert HonestRun([]) && Honest(None, first);
    KeepsUpExactlyWhenHonest([first]);
    assert [a, b][1] != [a, c][1];
    HiddenRewriteIsLost([first], second);
    assert [first] + [second] == [first, second];
  }

  /** A snapshot that shows what the state has already, or no array at all. */
  lemma NothingNew(t: Tracked, snapshot: Snapshot)
    requires snapshot.sessionId != ""
    requires snapshot.messages.Some? ==> t.sessionId == snapshot.sessionId && t.messageCount == |snapshot.messages.value|
    ensures Process(Some(t), snapshot) == (Some(t), [])
  {
    if snapshot.messages.Some? {
      assert snapshot.messages.value[t.messageCount..] == [];
    }
    assert Diff(t, snapshot) == (t, []);
    assert [] + Wrap(snapshot, t.messageCount, []) == [] && t.transcript.consumed + [] == t.transcript.consumed;
  }

  /** Seeing the same snapshot twice in a row changes nothing and emits nothing. */
  lemma Idempotent(s: Option<Tracked>, poll: Poll)
    ensures ProcessPoll(ProcessPoll(s, poll).0, poll) == (ProcessPoll(s, poll).0, [])
  {
    if poll.Seen? && poll.snapshot.sessionId != "" {
      NothingNew(ProcessPoll(s, poll).0.value, poll.snapshot);
    }
  }

  // ------------------------------------------- what is emitted, and under which keys

  datatype Triple = Triple(sessionId: string, eventSeq: nat, data: Message)

  /** The message events of an output, without their timestamps, in order. */
  function Triples(out: seq<Line>): seq<Triple> {
    if out == [] then []
    else
      var last, before := out[|out| - 1], Triples(out[..|out| - 1]);
      if last.MessageLine? then before + [Triple(last.sessionId, last.eventSeq, last.data)] else before
  }

  /** The message is a non-system one and stands in the snapshot at the place its key says. */
  ghost predicate Holds(poll: Poll, t: Triple) {
    && poll.Seen? && poll.snapshot.sessionId == t.sessionId != "" && poll.snapshot.messages.Some?
    && 1 <= t.eventSeq <= |poll.snapshot.messages.value|
    && poll.snapshot.messages.value[t.eventSeq - 1] == t.data && t.data.role != "system"
  }

  lemma {:induction false} TriplesConcat(a: seq<Line>, b: seq<Line>)
    ensures Triples(a + b) == Triples(a) + Triples(b)
  {
    if b == [] {
      assert a + b == a;
    } else {
      assert (a + b)[..|a + b| - 1] == a + b[..|b| - 1];
      TriplesConcat(a, b[..|b| - 1]);
    }
  }

  lemma {:induction false} InTriples(out: seq<Line>, t: Triple)
    ensures t in Triples(out) <==>
              exists l :: l in out && l.MessageLine? && t == Triple(l.sessionId, l.eventSeq, l.data)
  {
    if out != [] {
      InTriples(out[..|out| - 1], t);
      assert out == out[..|out| - 1] + [out[|out| - 1]];
    }
  }

  /** The index from which a poll's messages are new to a watcher in state `s`. */
  function NewFrom(s: Option<Tracked>, snapshot: Snapshot): nat {
    if s.None? || Resets(s.value, snapshot) then 0 else s.value.messageCount
  }

  lemma NewTail(s: Option<Tracked>, snapshot: Snapshot)
    requires snapshot.messages.Some?
    ensures var (s', added) := Diff(s.GetOr(Fresh(snapshot.sessionId)), snapshot);
            && NewFrom(s, snapshot) == s'.messageCount - |added| <= |snapshot.messages.value|
            && added == snapshot.messages.value[NewFrom(s, snapshot)..]
  {
  }

  lemma {:induction false} TailLines(snapshot: Snapshot, base: nat, line: Line)
    requires snapshot.sessionId != "" && snapshot.messages.Some? && base <= |snapshot.messages.value| && line.MessageLine?
    ensures line in Wrap(snapshot, base, snapshot.messages.value[base..]) <==>
              && Holds(Seen(snapshot), Triple(line.sessionId, line.eventSeq, line.data))
              && line.timestamp == snapshot.lastUpdated && line.eventSeq > base
  {
    var messages := snapshot.messages.value;
    WrapIndexes(snapshot, base, messages[base..], line);
    if base < line.eventSeq <= |messages| {
      assert messages[base..][line.eventSeq - base - 1] == messages[line.eventSeq - 1];
    }
  }

  lemma MessageLines(s: Option<Tracked>, snapshot: Snapshot, line: Line)
    requires snapshot.sessionId != "" && line.MessageLine?
    ensures line in Process(s, snapshot).1 <==>
              && Holds(Seen(snapshot), Triple(line.sessionId, line.eventSeq, line.data))
              && line.timestamp == snapshot.lastUpdated && line.eventSeq > NewFrom(s, snapshot)
  {
    var (s', added) := Diff(s.GetOr(Fresh(snapshot.sessionId)), snapshot);
    assert line in Process(s, snapshot).1 <==> line in Wrap(snapshot, s'.messageCount - |added|, added);
    if snapshot.messages.Some? {
      NewTail(s, snapshot);
      TailLines(snapshot, NewFrom(s, snapshot), line);
    }
  }

  lemma MessageTriples(s: Option<Tracked>, snapshot: Snapshot, t: Triple)
    requires snapshot.sessionId != ""
    ensures t in Triples(Process(s, snapshot).1) <==> Holds(Seen(snapshot), t) && t.eventSeq > NewFrom(s, snapshot)
  {
    var out := Process(s, snapshot).1;
    InTriples(out, t);
    MessageLines(s, snapshot, MessageLine(t.sessionId, t.eventSeq, snapshot.lastUpdated, t.data));
    forall l | l in out && l.MessageLine? ensures l.timestamp == snapshot.lastUpdated {
      MessageLines(s, snapshot, l);
    }
  }

  /** The keys of one poll: exactly its non-system messages from the first one that is new. */
  lemma {:induction false} EmittedByOnePoll(front: seq<Poll>, poll: Poll, t: Triple)
    ensures t in Triples(ProcessPoll(Run(front).0, poll).1) <==>
              Holds(poll, t) && (LooksLikeAppend(Observed(front), poll) ==> t.eventSeq > |Messages(Observed(front))|)
  {
    StateTracksObserved(front);
    if poll.Seen? && poll.snapshot.sessionId != "" {
      MessageTriples(Run(front).0, poll.snapshot, t);
    }
  }

  ghost predicate HeldBySome(polls: seq<Poll>, t: Triple) {
    exists k :: 0 <= k < |polls| && Holds(polls[k], t)
  }

  /** Nothing is made up: every event's key and message were read from some polled snapshot. */
  lemma {:induction false} EmittedWasPolled(polls: seq<Poll>, t: Triple)
    requires t in Triples(Run(polls).1)
    ensures HeldBySome(polls, t)
  {
    var front, poll := polls[..|polls| - 1], polls[|polls| - 1];
    TriplesConcat(Run(front).1, ProcessPoll(Run(front).0, poll).1);
    if t in Triples(Run(front).1) {
      EmittedWasPolled(front, t);
      var k :| 0 <= k < |front| && Holds(front[k], t);
      assert Holds(polls[k], t);
    } else {
      EmittedByOnePoll(front, poll, t);
    }
  }

  ghost predicate Shows(o: Option<Observation>, t: Triple) {
    && o.Some? && o.value.sessionId == t.sessionId
    && 1 <= t.eventSeq <= |o.value.messages| && o.value.messages[t.eventSeq - 1] == t.data && t.data.role != "system"
  }

  lemma {:induction false} ShownWasEmitted(polls: seq<Poll>, t: Triple)
    requires HonestRun(polls) && Shows(Observed(polls), t)
    ensures t in Triples(Run(polls).1)
  {
    var front, poll := polls[..|polls| - 1], polls[|polls| - 1];
    StateTracksObserved(polls);
    TriplesConcat(Run(front).1, ProcessPoll(Run(front).0, poll).1);
    EmittedByOnePoll(front, poll, t);
    if Shows(Observed(front), t) {
      ShownWasEmitted(front, t);
    }
  }

  lemma {:induction false} PolledWasEmitted(polls: seq<Poll>, t: Triple)
    requires HonestRun(polls) && HeldBySome(polls, t)
    ensures t in Triples(Run(polls).1)
  {
    var front, poll := polls[..|polls| - 1], polls[|polls| - 1];
    TriplesConcat(Run(front).1, ProcessPoll(Run(front).0, poll).1);
    var k :| 0 <= k < |polls| && Holds(polls[k], t);
    if k < |front| {
      assert Holds(front[k], t);
      PolledWasEmitted(front, t);
    } else {
      ShownWasEmitted(polls, t);
    }
  }

  /** On an honest run, replays included, the events' keys and messages are exactly those of the polled snapshots. */
  lemma {:induction false} HandledReplayIsHarmless(polls: seq<Poll>, t: Triple)
    requires HonestRun(polls)
    ensures t in Triples(Run(polls).1) <==> HeldBySome(polls, t)
  {
    if t in Triples(Run(polls).1) {
      EmittedWasPolled(polls, t);
    }
    if HeldBySome(polls, t) {
      PolledWasEmitted(polls, t);
    }
  }

  /** No message event was emitted under the key of a different one; event ids are made of the keys. */
  ghost predicate KeysTellApart(out: seq<Line>) {
    forall t, u :: t in Triples(out) && u in Triples(out) && t.sessionId == u.sessionId && t.eventSeq == u.eventSeq ==> t == u
  }

  /** At every place of the same session, the two polls show the same message, or a system message in one of them. */
  ghost predicate Agree(p: Poll, q: Poll) {
    forall t, u :: Holds(p, t) && Holds(q, u) && t.sessionId == u.sessionId && t.eventSeq == u.eventSeq ==> t.data == u.data
  }

  /** On an honest run, keys tell messages apart exactly if no place of a session was polled with two different messages. */
  lemma {:induction false} KeysTellApartExactlyWhen(polls: seq<Poll>)
    requires HonestRun(polls)
    ensures KeysTellApart(Run(polls).1) <==> forall j, k :: 0 <= j < |polls| && 0 <= k < |polls| ==> Agree(polls[j], polls[k])
  {
    if KeysTellApart(Run(polls).1) {
      forall j, k | 0 <= j < |polls| && 0 <= k < |polls| ensures Agree(polls[j], polls[k]) {
        forall t, u | Holds(polls[j], t) && Holds(polls[k], u) && t.sessionId == u.sessionId && t.eventSeq == u.eventSeq
          ensures t.data == u.data
        {
          HandledReplayIsHarmless(polls, t);
          HandledReplayIsHarmless(polls, u);
        }
      }
    }
    if forall j, k :: 0 <= j < |polls| && 0 <= k < |polls| ==> Agree(polls[j], polls[k]) {
      forall t, u | t in Triples(Run(polls).1) && u in Triples(Run(polls).1) && t.sessionId == u.sessionId && t.eventSeq == u.eventSeq
        ensures t == u
      {
        HandledReplayIsHarmless(polls, t);
        HandledReplayIsHarmless(polls, u);
        var j :| 0 <= j < |polls| && Holds(polls[j], t);
        var k :| 0 <= k < |polls| && Holds(polls[k], u);
        assert Agree(polls[j], polls[k]);
      }
    }
  }

  // ------------------------------------------------- append-only histories

  /** The file only ever grew, within one session. */
  predicate AppendOnly(history: seq<Snapshot>, sid: string) {
    && (forall i :: 0 <= i < |history| ==> history[i].sessionId == sid && history[i].messages.Some?)
    && (forall i, j :: 0 <= i <= j < |history| ==> history[i].messages.value <= history[j].messages.value)
  }

  /** The moments at which a poller looked: indexes into the history, never going back. */
  predicate Schedule(at: seq<nat>, history: seq<Snapshot>) {
    && at != [] && (forall i :: 0 <= i < |at| ==> at[i] < |history|)
    && (forall i, j :: 0 <= i <= j < |at| ==> at[i] <= at[j])
  }

  function PollsAt(history: seq<Snapshot>, at: seq<nat>): (polls: seq<Poll>)
    requires forall i :: 0 <= i < |at| ==> at[i] < |history|
    ensures |polls| == |at| && forall i :: 0 <= i < |at| ==> polls[i] == Seen(history[at[i]])
  {
    if at == [] then []
    else PollsAt(history, at[..|at| - 1]) + [Seen(history[at[|at| - 1]])]
  }

  /** The keys of an array, in order; its first message stands at index `base`. */
  function Keys(sid: string, base: nat, messages: seq<Message>): seq<Triple>
    decreases messages
  {
    if messages == [] then []
    else
      (if messages[0].role == "system" then [] else [Triple(sid, base + 1, messages[0])])
      + Keys(sid, base + 1, messages[1..])
  }

  lemma {:induction false} KeysConcat(sid: string, base: nat, a: seq<Message>, b: seq<Message>)
    ensures Keys(sid, base, a + b) == Keys(sid, base, a) + Keys(sid, base + |a|, b)
    decreases a
  {
    if a == [] {
      assert a + b == b;
    } else {
      var whole, rest, next := a + b, a[1..], base + 1;
      var head := if a[0].role == "system" then [] else [Triple(sid, next, a[0])];
      assert whole[0] == a[0] && whole[1..] == rest + b;
      KeysConcat(sid, next, rest, b);
      assert next + |rest| == base + |a|;
      assert Keys(sid, base, whole) == head + Keys(sid, next, rest + b);
      assert head + (Keys(sid, next, rest) + Keys(sid, base + |a|, b)) == (head + Keys(sid, next, rest)) + Keys(sid, base + |a|, b);
    }
  }

  lemma {:induction false} WrapKeys(snapshot: Snapshot, base: nat, messages: seq<Message>)
    ensures Triples(Wrap(snapshot, base, messages)) == Keys(snapshot.sessionId, base, messages)
    decreases messages
  {
    if messages != [] {
      var rest := Wrap(snapshot, base + 1, messages[1..]);
      WrapKeys(snapshot, base + 1, messages[1..]);
      if messages[0].role != "system" {
        var head := [MessageLine(snapshot.sessionId, base + 1, snapshot.lastUpdated, messages[0])];
        assert head[..0] == [];
        TriplesConcat(head, rest);
      } else {
        assert [] + rest == rest;
      }
    }
  }

  /** The consumer's copy and what the translator was fed since its last reset agree, message for message. */
  predicate FedTheCopy(s: Option<Tracked>, copy: seq<Message>) {
    if s.None? then copy == []
    else
      && |copy| == s.value.messageCount
      && Triples(s.value.transcript.consumed) == Keys(s.value.sessionId, 0, copy)
  }

  lemma {:induction false} StartsOrNothing(start: seq<Line>)
    requires |start| <= 1 && forall l :: l in start ==> l.SessionStart?
    ensures Triples(start) == []
  {
    assert start != [] ==> start[0] in start;
  }

  lemma {:induction false} WrappedTriples(start: seq<Line>, snapshot: Snapshot, base: nat, added: seq<Message>)
    requires |start| <= 1 && forall l :: l in start ==> l.SessionStart?
    ensures Triples(start + Wrap(snapshot, base, added)) == Keys(snapshot.sessionId, base, added)
  {
    var wrapped := Wrap(snapshot, base, added);
    StartsOrNothing(start);
    WrapKeys(snapshot, base, added);
    TriplesConcat(start, wrapped);
    assert [] + Triples(wrapped) == Triples(wrapped);
  }

  /** The messages that one poll hands on are those that it emits, under the keys they have in the copy. */
  lemma FeedsItsMessages(s: Option<Tracked>, snapshot: Snapshot)
    ensures Triples(LinesOf(s, snapshot)) == Keys(snapshot.sessionId, NewBase(s, snapshot), Found(s, snapshot).1)
  {
    WrappedTriples(StartLines(s, snapshot), snapshot, NewBase(s, snapshot), Found(s, snapshot).1);
  }

  lemma FedTheCopyStep(s: Option<Tracked>, copy: seq<Message>, snapshot: Snapshot)
    requires FedTheCopy(s, copy) && snapshot.sessionId != ""
    ensures FedTheCopy(Process(s, snapshot).0,
                       if Resets(s.GetOr(Fresh(snapshot.sessionId)), snapshot) then Found(s, snapshot).1
                       else copy + Found(s, snapshot).1)
  {
    var t, lines := s.GetOr(Fresh(snapshot.sessionId)), LinesOf(s, snapshot);
    FeedsItsMessages(s, snapshot);
    assert FedTheCopy(Some(t), copy);
    if Resets(t, snapshot) {
      FeedsAnew(t, lines, snapshot);
    } else {
      FeedsOn(t, copy, lines, snapshot);
    }
  }

  lemma {:induction false} FeedsAnew(t: Tracked, lines: seq<Line>, snapshot: Snapshot)
    requires Resets(t, snapshot)
    requires var (s', added) := Diff(t, snapshot); Triples(lines) == Keys(snapshot.sessionId, s'.messageCount - |added|, added)
    ensures var (s', added) := Diff(t, snapshot); FedTheCopy(Some(Feed(s', lines)), added)
  {
    assert [] + lines == lines;
  }

  lemma {:induction false} FeedsOn(t: Tracked, copy: seq<Message>, lines: seq<Line>, snapshot: Snapshot)
    requires FedTheCopy(Some(t), copy) && !Resets(t, snapshot)
    requires var (s', added) := Diff(t, snapshot); Triples(lines) == Keys(snapshot.sessionId, s'.messageCount - |added|, added)
    ensures var (s', added) := Diff(t, snapshot); FedTheCopy(Some(Feed(s', lines)), copy + added)
  {
    var added := Diff(t, snapshot).1;
    TriplesConcat(t.transcript.consumed, lines);
    if snapshot.messages.Some? {
      KeysConcat(t.sessionId, 0, copy, added);
    } else {
      assert copy + added == copy && Triples(lines) == [];
    }
  }

  /**
   Whatever was polled, rewrites included: what the translator was fed since its last reset are the
   non-system messages of the consumer's copy, once each, in order, numbered from 1.
   */
  lemma {:induction false} TranslatorIsFedTheCopy(polls: seq<Poll>)
    ensures FedTheCopy(Run(polls).0, Copy(polls))
  {
    if polls != [] {
      var front, poll := polls[..|polls| - 1], polls[|polls| - 1];
      TranslatorIsFedTheCopy(front);
      if poll.Seen? && poll.snapshot.sessionId != "" {
        FedTheCopyStep(Run(front).0, Copy(front), poll.snapshot);
      }
    }
  }

  /** An append adds the keys of the new messages to what was emitted. */
  lemma {:induction false} AppendStep(front: seq<Poll>, snapshot: Snapshot)
    requires snapshot.sessionId != "" && snapshot.messages.Some?
    requires Observed(front).Some? ==> Observed(front).value.sessionId == snapshot.sessionId
    requires Messages(Observed(front)) <= snapshot.messages.value
    requires Triples(Run(front).1) == Keys(snapshot.sessionId, 0, Messages(Observed(front)))
    ensures Triples(Run(front + [Seen(snapshot)]).1) == Keys(snapshot.sessionId, 0, snapshot.messages.value)
  {
    var seen := Messages(Observed(front));
    var lines := ProcessPoll(Run(front).0, Seen(snapshot)).1;
    assert Run(front + [Seen(snapshot)]).1 == Run(front).1 + lines by {
      RunStep(front, Seen(snapshot));
    }
    assert Triples(lines) == Keys(snapshot.sessionId, |seen|, snapshot.messages.value[|seen|..]) by {
      StateTracksObserved(front);
      NewLines(Run(front).0, snapshot, |seen|);
    }
    TriplesConcat(Run(front).1, lines);
    KeysSplit(snapshot.sessionId, snapshot.messages.value, |seen|);
    assert snapshot.messages.value[..|seen|] == seen;
  }

  lemma {:induction false} KeysSplit(sid: string, messages: seq<Message>, k: nat)
    requires k <= |messages|
    ensures Keys(sid, 0, messages) == Keys(sid, 0, messages[..k]) + Keys(sid, k, messages[k..])
  {
    KeysConcat(sid, 0, messages[..k], messages[k..]);
    assert messages[..k] + messages[k..] == messages;
  }

  lemma {:induction false} ObserveLast(front: seq<Poll>, snapshot: Snapshot)
    requires snapshot.sessionId != "" && snapshot.messages.Some?
    ensures Observed(front + [Seen(snapshot)]) == Some(Observation(snapshot.sessionId, snapshot.messages.value))
  {
    assert (front + [Seen(snapshot)])[..|front|] == front;
  }

  lemma ScheduleMovesForward(history: seq<Snapshot>, sid: string, at: seq<nat>)
    requires AppendOnly(history, sid) && Schedule(at, history) && |at| > 1
    ensures var front, n := at[..|at| - 1], |at| - 1;
            && Schedule(front, history) && PollsAt(history, at) == PollsAt(history, front) + [Seen(history[at[n]])]
            && history[front[|front| - 1]].messages.value <= history[at[n]].messages.value
  {
    var n := |at| - 1;
    assert at[..n][n - 1] == at[n - 1] <= at[n];
  }

  lemma {:induction false} FirstPoll(history: seq<Snapshot>, sid: string, at: seq<nat>)
    requires sid != "" && AppendOnly(history, sid) && |at| == 1 && Schedule(at, history)
    ensures var polls := PollsAt(history, at);
            && Observed(polls) == Some(Observation(sid, history[at[0]].messages.value))
            && Triples(Run(polls).1) == Keys(sid, 0, history[at[0]].messages.value)
  {
    assert PollsAt(history, at) == [] + [Seen(history[at[0]])] by {
      assert at[..0] == [];
    }
    NextOutput([], history[at[0]]);
  }

  lemma {:induction false} ScheduleOutput(history: seq<Snapshot>, sid: string, at: seq<nat>)
    requires sid != "" && AppendOnly(history, sid) && Schedule(at, history)
    ensures Observed(PollsAt(history, at)) == Some(Observation(sid, history[at[|at| - 1]].messages.value))
    ensures Triples(Run(PollsAt(history, at)).1) == Keys(sid, 0, history[at[|at| - 1]].messages.value)
    decreases |at|
  {
    var n := |at| - 1;
    if n == 0 {
      FirstPoll(history, sid, at);
    } else {
      ScheduleMovesForward(history, sid, at);
      ScheduleOutput(history, sid, at[..n]);
      NextOutput(PollsAt(history, at[..n]), history[at[n]]);
    }
  }

  lemma {:induction false} NextOutput(front: seq<Poll>, snapshot: Snapshot)
    requires snapshot.sessionId != "" && snapshot.messages.Some?
    requires Observed(front).Some? ==> Observed(front).value.sessionId == snapshot.sessionId
    requires Messages(Observed(front)) <= snapshot.messages.value
    requires Triples(Run(front).1) == Keys(snapshot.sessionId, 0, Messages(Observed(front)))
    ensures var polls := front + [Seen(snapshot)];
            && Observed(polls) == Some(Observation(snapshot.sessionId, snapshot.messages.value))
            && Triples(Run(polls).1) == Keys(snapshot.sessionId, 0, snapshot.messages.value)
  {
    ObserveLast(front, snapshot);
    AppendStep(front, snapshot);
  }

  /** A poll of an unrestarted session translates exactly the tail of the array. */
  lemma {:induction false} NewLines(s: Option<Tracked>, snapshot: Snapshot, base: nat)
    requires snapshot.sessionId != "" && snapshot.messages.Some? && base <= |snapshot.messages.value|
    requires if s.None? then base == 0 else s.value.sessionId == snapshot.sessionId && s.value.messageCount == base
    ensures Triples(Process(s, snapshot).1) == Keys(snapshot.sessionId, base, snapshot.messages.value[base..])
  {
    var tracked := s.GetOr(Fresh(snapshot.sessionId));
    FeedsItsMessages(s, snapshot);
    assert tracked.messageCount == base && !Resets(tracked, snapshot);
    assert Diff(tracked, snapshot).1 == snapshot.messages.value[base..];
  }

  /** The watcher need not see every write: any two schedules that see the last version emit the same messages. */
  lemma {:induction false} ScheduleIsIrrelevant(history: seq<Snapshot>, sid: string, at: seq<nat>, at': seq<nat>)
    requires sid != "" && AppendOnly(history, sid) && Schedule(at, history) && Schedule(at', history)
    requires at[|at| - 1] == at'[|at'| - 1] == |history| - 1
    ensures Triples(Run(PollsAt(history, at)).1) == Triples(Run(PollsAt(history, at')).1)
            == Keys(sid, 0, history[|history| - 1].messages.value)
  {
    ScheduleOutput(history, sid, at);
    ScheduleOutput(history, sid, at');
  }

  // ------------------------------------------------------- session starts

  /** The session whose start was emitted last. */
  function Announced(out: seq<Line>): Option<string> {
    if out == [] then None
    else
      var last := out[|out| - 1];
      if last.SessionStart? then Some(last.sessionId) else Announced(out[..|out| - 1])
  }

  /** Before every message event, the last session start is that of its own session. */
  predicate WellAnnounced(out: seq<Line>) {
    out != [] ==>
      var front, last := out[..|out| - 1], out[|out| - 1];
      WellAnnounced(front) && (last.MessageLine? ==> Announced(front) == Some(last.sessionId))
  }

  /** A changed session id is first seen with an empty array. */
  predicate SilentChange(last: Option<Observation>, poll: Poll) {
    && poll.Seen? && poll.snapshot.sessionId != "" && poll.snapshot.messages == Some([])
    && last.Some? && last.value.sessionId != poll.snapshot.sessionId
  }

  predicate NoSilentChange(polls: seq<Poll>) {
    polls != [] ==>
      var front := polls[..|polls| - 1];
      NoSilentChange(front) && !SilentChange(Observed(front), polls[|polls| - 1])
  }

  /** After every poll, the session announced last is the one that the watcher tracks. */
  predicate TrackedIsAnnounced(polls: seq<Poll>) {
    && (Run(polls).0.Some? ==> Announced(Run(polls).1) == Some(Run(polls).0.value.sessionId))
    && (polls != [] ==> TrackedIsAnnounced(polls[..|polls| - 1]))
  }

  lemma {:induction false} AppendMessages(out: seq<Line>, more: seq<Line>, sid: string)
    requires forall l :: l in more ==> l.MessageLine? && l.sessionId == sid
    ensures Announced(out + more) == Announced(out)
    ensures WellAnnounced(out) && Announced(out) == Some(sid) ==> WellAnnounced(out + more)
  {
    if more == [] {
      assert out + more == out;
    } else {
      assert (out + more)[..|out + more| - 1] == out + more[..|more| - 1];
      AppendMessages(out, more[..|more| - 1], sid);
    }
  }

  /** When a poll emits a session start. */
  predicate Announces(last: Option<Observation>, poll: Poll) {
    && poll.Seen? && poll.snapshot.sessionId != ""
    && (last.None? || (last.value.sessionId != poll.snapshot.sessionId && poll.snapshot.messages.GetOr([]) != []))
  }

  /** A start comes first, once, and exactly on first encounter or on a changed id with a non-empty array. */
  lemma HandledStartsExactly(front: seq<Poll>, poll: Poll) returns (rest: seq<Line>)
    ensures ProcessPoll(Run(front).0, poll).1
            == (if Announces(Observed(front), poll) then [SessionStart(poll.snapshot.sessionId, Previewed(poll.snapshot.metadata))] else [])
               + rest
    ensures forall l :: l in rest ==> l.MessageLine? && poll.Seen? && l.sessionId == poll.snapshot.sessionId != ""
    ensures rest != [] && !Announces(Observed(front), poll)
            ==> poll.Seen? && Observed(front).Some? && Observed(front).value.sessionId == poll.snapshot.sessionId
  {
    StateTracksObserved(front);
    rest := [];
    if poll.Seen? && poll.snapshot.sessionId != "" {
      rest := Shape(Run(front).0, poll.snapshot);
    }
  }

  lemma Shape(s: Option<Tracked>, snapshot: Snapshot) returns (rest: seq<Line>)
    requires snapshot.sessionId != ""
    ensures var start := s.None? || (s.value.sessionId != snapshot.sessionId && snapshot.messages.GetOr([]) != []);
            && Process(s, snapshot).1 == (if start then [SessionStart(snapshot.sessionId, Previewed(snapshot.metadata))] else []) + rest
            && (rest != [] && s.Some? && s.value.sessionId != snapshot.sessionId ==> start)
    ensures forall l :: l in rest ==> l.MessageLine? && l.sessionId == snapshot.sessionId
  {
    var (s', added) := Diff(s.GetOr(Fresh(snapshot.sessionId)), snapshot);
    rest := Wrap(snapshot, s'.messageCount - |added|, added);
    forall l | l in rest ensures l.MessageLine? && l.sessionId == snapshot.sessionId {
      WrapIndexes(snapshot, s'.messageCount - |added|, added, l);
    }
  }

  lemma {:induction false} Extend(out: seq<Line>, head: seq<Line>, rest: seq<Line>, sid: string, metadata: Metadata)
    requires head == [] || head == [SessionStart(sid, metadata)]
    requires forall l :: l in rest ==> l.MessageLine? && l.sessionId == sid
    ensures Announced(out + (head + rest)) == if head == [] then Announced(out) else Some(sid)
    ensures WellAnnounced(out) && (head != [] || rest == [] || Announced(out) == Some(sid))
            ==> WellAnnounced(out + (head + rest))
  {
    assert out + (head + rest) == (out + head) + rest;
    if head == [] {
      assert out + head == out;
    } else {
      assert (out + head)[..|out|] == out;
    }
    if rest == [] {
      assert (out + head) + rest == out + head;
    }
    AppendMessages(out + head, rest, sid);
  }

  lemma {:induction false} AnnouncedAfter(front: seq<Poll>, poll: Poll)
    ensures Announced(Run(front + [poll]).1)
            == if Announces(Observed(front), poll) then Some(poll.snapshot.sessionId) else Announced(Run(front).1)
    ensures (Observed(front).Some? ==> Announced(Run(front).1) == Some(Observed(front).value.sessionId))
            && WellAnnounced(Run(front).1)
            ==> WellAnnounced(Run(front + [poll]).1)
  {
    RunStep(front, poll);
    var rest := HandledStartsExactly(front, poll);
    if poll.Seen? {
      var head := if Announces(Observed(front), poll) then [SessionStart(poll.snapshot.sessionId, Previewed(poll.snapshot.metadata))] else [];
      Extend(Run(front).1, head, rest, poll.snapshot.sessionId, Previewed(poll.snapshot.metadata));
    } else {
      Extend(Run(front).1, [], rest, "", Metadata([], ""));
    }
  }

  lemma {:induction false} AnnouncedStep(front: seq<Poll>, poll: Poll)
    requires Run(front).0.Some? ==> Announced(Run(front).1) == Some(Run(front).0.value.sessionId)
    ensures !SilentChange(Observed(front), poll) <==>
              (Run(front + [poll]).0.Some? ==>
                 Announced(Run(front + [poll]).1) == Some(Run(front + [poll]).0.value.sessionId))
    ensures WellAnnounced(Run(front).1) ==> WellAnnounced(Run(front + [poll]).1)
  {
    StateTracksObserved(front);
    StateTracksObserved(front + [poll]);
    AnnouncedAfter(front, poll);
    assert (front + [poll])[..|front|] == front;
    assert Observed(front + [poll]) == Observe(Observed(front), poll);
  }

  /** The tracked session is always the announced one, if and only if no id change is first seen with an empty array. */
  lemma {:induction false} AnnouncedExactlyWithoutSilentChange(polls: seq<Poll>)
    ensures TrackedIsAnnounced(polls) <==> NoSilentChange(polls)
    ensures NoSilentChange(polls) ==> WellAnnounced(Run(polls).1)
  {
    if polls != [] {
      var front, poll := polls[..|polls| - 1], polls[|polls| - 1];
      assert front + [poll] == polls;
      AnnouncedExactlyWithoutSilentChange(front);
      if TrackedIsAnnounced(front) {
        AnnouncedStep(front, poll);
      }
    }
  }

  // -------------------------------------------------------- the end of a watch

  /** The poll announces a session with a prompt whose preview would cut a character. */
  predicate CutStart(last: Option<Observation>, poll: Poll) {
    Announces(last, poll) && CutsCharacter(poll.snapshot.metadata.prompt)
  }

  /** The polls up to the first that panics. */
  function LivePart(polls: seq<Poll>): (live: seq<Poll>)
    ensures |live| <= |polls| && live == polls[..|live|]
  {
    if polls == [] then []
    else
      var front := polls[..|polls| - 1];
      var live := LivePart(front);
      if |live| < |front| || CutStart(Observed(front), polls[|polls| - 1]) then live else polls
  }

  /** A watch of one file: its state, what it emitted, and whether it goes on. */
  datatype Watched = Watched(tracked: Option<Tracked>, out: seq<Line>, alive: bool)

  function Watch(polls: seq<Poll>): Watched {
    if polls == [] then Watched(None, [], true)
    else
      var w, poll := Watch(polls[..|polls| - 1]), polls[|polls| - 1];
      if !w.alive then w
      else if PollPanics(w.tracked, poll) then w.(alive := false)
      else
        var (s, lines) := ProcessPoll(w.tracked, poll);
        Watched(s, w.out + lines, true)
  }

  lemma {:induction false} PanicsExactlyWhen(front: seq<Poll>, poll: Poll)
    ensures PollPanics(Run(front).0, poll) <==> CutStart(Observed(front), poll)
  {
    StateTracksObserved(front);
  }

  /** The watch goes on exactly if no poll was a cut start; what it emits is what the polls up to the first one give. */
  lemma {:induction false} WatchIsTheLiveRun(polls: seq<Poll>)
    ensures Watch(polls).alive <==> LivePart(polls) == polls
    ensures Watch(polls).out == Run(LivePart(polls)).1
    ensures Watch(polls).tracked == Run(LivePart(polls)).0
  {
    if polls != [] {
      var front, poll := polls[..|polls| - 1], polls[|polls| - 1];
      WatchIsTheLiveRun(front);
      PanicsExactlyWhen(front, poll);
    }
  }

  predicate NoCutStart(polls: seq<Poll>) {
    forall k :: 0 <= k < |polls| ==> !CutStart(Observed(polls[..k]), polls[k])
  }

  lemma {:induction false} NoCutStartMore(front: seq<Poll>, poll: Poll)
    ensures NoCutStart(front + [poll]) <==> NoCutStart(front) && !CutStart(Observed(front), poll)
  {
    var polls, n := front + [poll], |front|;
    assert forall k :: 0 <= k < n ==> front[..k] == polls[..k] && front[k] == polls[k];
    assert polls[..n] == front && polls[n] == poll;
  }

  /** A watch survives its polls exactly if none of them is a cut start. */
  lemma {:induction false} SurvivesExactlyWhen(polls: seq<Poll>)
    ensures Watch(polls).alive <==> NoCutStart(polls)
  {
    if polls != [] {
      var front, poll := polls[..|polls| - 1], polls[|polls| - 1];
      assert polls == front + [poll];
      SurvivesExactlyWhen(front);
      WatchIsTheLiveRun(front);
      PanicsExactlyWhen(front, poll);
      NoCutStartMore(front, poll);
    }
  }

  /** The consumer's copy after some polls, the watch having ended or not. */
  function HandedOn(polls: seq<Poll>): seq<Message> {
    Copy(LivePart(polls))
  }

  predicate Converges(polls: seq<Poll>) {
    && HandedOn(polls) == Messages(Observed(polls))
    && (polls != [] ==> Converges(polls[..|polls| - 1]))
  }

  /**
   Whenever a poll looks like an append, it is one; and from a cut start on, the file shows no other array
   than it showed before.
   */
  predicate Followable(polls: seq<Poll>) {
    polls != [] ==>
      var front, poll := polls[..|polls| - 1], polls[|polls| - 1];
      && Followable(front)
      && if LivePart(polls) == polls then Honest(Observed(front), poll)
         else Messages(Observed(polls)) == Messages(Observed(front))
  }

  /**
   The consumer's copy is the polled array after every poll if and only if no poll hides a rewrite and, if a
   cut start ended the watch, the array has not changed from there on.
   */
  lemma {:induction false} ConvergesExactlyWhen(polls: seq<Poll>)
    ensures Converges(polls) <==> Followable(polls)
  {
    if polls != [] {
      var front, poll := polls[..|polls| - 1], polls[|polls| - 1];
      assert front + [poll] == polls;
      ConvergesExactlyWhen(front);
      if LivePart(polls) == polls {
        assert LivePart(front) == front;
        if Converges(front) {
          CopyStep(front, poll);
        }
      } else {
        assert LivePart(polls) == LivePart(front);
      }
    }
  }

  /** While the watch goes on, that is honesty alone. */
  lemma {:induction false} FollowableWhileAlive(polls: seq<Poll>)
    requires LivePart(polls) == polls
    ensures Followable(polls) <==> HonestRun(polls)
  {
    if polls != [] {
      var front := polls[..|polls| - 1];
      assert LivePart(front) == front;
      FollowableWhileAlive(front);
    }
  }

  /**
   On runs that are honest up to the first cut start, replays included, the events' keys and messages are exactly
   those of the snapshots polled before it.
   */
  lemma {:induction false} ReplayIsHarmless(polls: seq<Poll>, t: Triple)
    requires HonestRun(LivePart(polls))
    ensures t in Triples(Watch(polls).out) <==> HeldBySome(LivePart(polls), t)
  {
    WatchIsTheLiveRun(polls);
    HandledReplayIsHarmless(LivePart(polls), t);
  }

  /**
   What one more poll does to a watch that goes on: a cut start ends it with nothing emitted; otherwise a start comes
   first, once, and exactly on first encounter or on a changed id with a non-empty array.
   */
  lemma StartsExactly(front: seq<Poll>, poll: Poll) returns (rest: seq<Line>)
    requires Watch(front).alive
    ensures Watch(front + [poll]).alive <==> !CutStart(Observed(front), poll)
    ensures Watch(front + [poll]).out
            == Watch(front).out
               + if CutStart(Observed(front), poll) then []
                 else (if Announces(Observed(front), poll)
                       then [SessionStart(poll.snapshot.sessionId, Previewed(poll.snapshot.metadata))] else []) + rest
    ensures forall l :: l in rest ==> l.MessageLine? && poll.Seen? && l.sessionId == poll.snapshot.sessionId != ""
  {
    WatchIsTheLiveRun(front);
    PanicsExactlyWhen(front, poll);
    assert (front + [poll])[..|front|] == front;
    rest := HandledStartsExactly(front, poll);
    assert Watch(front).out + [] == Watch(front).out;
  }

  /** 499 letters and a two-byte character. */
  function CutPrompt(): seq<Byte> {
    seq(499, _ => 0x61 as Byte) + [0xC3, 0xA9]
  }

  /** The first poll of an ordinary session with such a prompt, however honest: nothing is emitted, and the watch ends. */
  lemma CutPromptEndsTheWatch(sid: string, m: Message, time: string, rest: string)
    requires sid != ""
    ensures var poll := Seen(Snapshot(sid, Some([m]), time, Metadata(CutPrompt(), rest)));
            HonestRun([poll]) && Watch([poll]) == Watched(None, [], false) && !Converges([poll])
  {
    var poll := Seen(Snapshot(sid, Some([m]), time, Metadata(CutPrompt(), rest)));
    assert [poll][..0] == [];
    assert HonestRun([]) && Honest(None, poll);
    assert CutPrompt()[500] == 0xA9;
    assert Watch([]) == Watched(None, [], true);
    assert LivePart([poll]) == [];
  }

  // ------------------------------------------------------------- many files

  /** Event k ends the watch, told by what the files showed. */
  predicate EndsTheWatch(events: seq<(Path, Poll)>, k: nat)
    requires k < |events|
  {
    IsSessionFile(events[k].0) && CutStart(Observed(PollsOf(events[..k], events[k].0)), events[k].1)
  }

  lemma EndsExactlyWhen(events: seq<(Path, Poll)>, k: nat)
    requires k < |events|
    ensures Ends(events[..k], events[k].0, events[k].1) <==> EndsTheWatch(events, k)
  {
    PanicsExactlyWhen(PollsOf(events[..k], events[k].0), events[k].1);
  }

  /** All events are handled if and only if no event of any file is a cut start; otherwise those before the first. */
  lemma AllAreHandledExactlyWhen(events: seq<(Path, Poll)>, handled: nat)
    requires HandledUpTo(events, handled)
    ensures handled == |events| <==> forall k :: 0 <= k < |events| ==> !EndsTheWatch(events, k)
    ensures forall k :: 0 <= k < handled ==> !EndsTheWatch(events, k)
    ensures handled < |events| ==> EndsTheWatch(events, handled)
  {
    forall k | 0 <= k < |events| ensures Ends(events[..k], events[k].0, events[k].1) <==> EndsTheWatch(events, k) {
      EndsExactlyWhen(events, k);
    }
  }

  /** One session file with a cut prompt, seen first: whatever other files show afterwards is never handled. */
  lemma CutPromptSilencesAllFiles(path: Path, sid: string, m: Message, time: string, rest: string, later: seq<(Path, Poll)>,
                                  handled: nat)
    requires IsSessionFile(path) && sid != ""
    requires HandledUpTo([(path, Seen(Snapshot(sid, Some([m]), time, Metadata(CutPrompt(), rest))))] + later, handled)
    ensures handled == 0
  {
    var events := [(path, Seen(Snapshot(sid, Some([m]), time, Metadata(CutPrompt(), rest))))] + later;
    assert CutPrompt()[500] == 0xA9;
    assert events[..0] == [];
    assert EndsTheWatch(events, 0);
    EndsExactlyWhen(events, 0);
  }

  // ------------------------------------ when every message follows its own start

  /** The session of the last start, told by the polls alone. */
  function LastStart(polls: seq<Poll>): Option<string> {
    if polls == [] then None
    else
      var front, poll := polls[..|polls| - 1], polls[|polls| - 1];
      if Announces(Observed(front), poll) then Some(poll.snapshot.sessionId) else LastStart(front)
  }

  /** The poll shows a non-system message that is new: beyond those seen last, if it looks like an append. */
  predicate HasNews(last: Option<Observation>, poll: Poll) {
    && poll.Seen? && poll.snapshot.sessionId != "" && poll.snapshot.messages.Some?
    && exists i :: (if LooksLikeAppend(last, poll) then |Messages(last)| else 0) <= i < |poll.snapshot.messages.value|
                   && poll.snapshot.messages.value[i].role != "system"
  }

  /** New messages of a session other than the one announced last, without a start of their own. */
  predicate Unannounced(front: seq<Poll>, poll: Poll) {
    && HasNews(Observed(front), poll) && !Announces(Observed(front), poll)
    && LastStart(front) != Some(poll.snapshot.sessionId)
  }

  predicate NoneUnannounced(polls: seq<Poll>) {
    polls != [] ==>
      var front := polls[..|polls| - 1];
      NoneUnannounced(front) && !Unannounced(front, polls[|polls| - 1])
  }

  lemma {:induction false} NewsIsEmitted(front: seq<Poll>, poll: Poll)
    ensures HasNews(Observed(front), poll) <==> Triples(ProcessPoll(Run(front).0, poll).1) != []
  {
    var triples := Triples(ProcessPoll(Run(front).0, poll).1);
    if HasNews(Observed(front), poll) {
      var t := SomeNews(Observed(front), poll);
      EmittedByOnePoll(front, poll, t);
    }
    if triples != [] {
      EmittedByOnePoll(front, poll, triples[0]);
      NewsOf(Observed(front), poll, triples[0]);
    }
  }

  lemma SomeNews(last: Option<Observation>, poll: Poll) returns (t: Triple)
    requires HasNews(last, poll)
    ensures Holds(poll, t) && (LooksLikeAppend(last, poll) ==> t.eventSeq > |Messages(last)|)
  {
    var messages := poll.snapshot.messages.value;
    var i :| (if LooksLikeAppend(last, poll) then |Messages(last)| else 0) <= i < |messages| && messages[i].role != "system";
    t := Triple(poll.snapshot.sessionId, i + 1, messages[i]);
  }

  lemma NewsOf(last: Option<Observation>, poll: Poll, t: Triple)
    requires Holds(poll, t) && (LooksLikeAppend(last, poll) ==> t.eventSeq > |Messages(last)|)
    ensures HasNews(last, poll)
  {
    assert poll.snapshot.messages.value[t.eventSeq - 1].role != "system";
  }

  lemma {:induction false} OnlyMessages(lines: seq<Line>)
    requires forall l :: l in lines ==> l.MessageLine?
    ensures Triples(lines) == [] <==> lines == []
  {
    if lines != [] {
      assert lines[|lines| - 1] in lines;
    }
  }

  /** The messages of a poll, behind a start of its own or behind whatever came before. */
  lemma {:induction false} RestIsMessages(lines: seq<Line>, head: seq<Line>, rest: seq<Line>)
    requires lines == head + rest && (head == [] || (|head| == 1 && head[0].SessionStart?))
    requires forall l :: l in rest ==> l.MessageLine?
    ensures rest != [] <==> Triples(lines) != []
  {
    StartsOrNothing(head);
    TriplesConcat(head, rest);
    OnlyMessages(rest);
  }

  lemma {:induction false} AnnouncedExactly(front: seq<Poll>, poll: Poll)
    requires Announced(Run(front).1) == LastStart(front)
    ensures Announced(Run(front + [poll]).1) == LastStart(front + [poll])
    ensures WellAnnounced(Run(front + [poll]).1) <==> WellAnnounced(Run(front).1) && !Unannounced(front, poll)
  {
    AnnouncedAfter(front, poll);
    assert (front + [poll])[..|front|] == front;
    RunStep(front, poll);
    var rest := HandledStartsExactly(front, poll);
    var out := Run(front).1;
    if Announces(Observed(front), poll) {
      var head := [SessionStart(poll.snapshot.sessionId, Previewed(poll.snapshot.metadata))];
      Extend(out, head, rest, poll.snapshot.sessionId, Previewed(poll.snapshot.metadata));
      StillWellAnnounced(out, head + rest);
    } else {
      assert [] + rest == rest;
      RestIsMessages(ProcessPoll(Run(front).0, poll).1, [], rest);
      NewsIsEmitted(front, poll);
      StillWellAnnounced(out, rest);
      if rest == [] {
        assert out + rest == out;
      } else if LastStart(front) == Some(poll.snapshot.sessionId) {
        AppendMessages(out, rest, poll.snapshot.sessionId);
      } else {
        FirstUnannounced(out, rest, poll.snapshot.sessionId);
      }
    }
  }

  lemma {:induction false} StillWellAnnounced(out: seq<Line>, more: seq<Line>)
    ensures WellAnnounced(out + more) ==> WellAnnounced(out)
  {
    if more == [] {
      assert out + more == out;
    } else {
      assert (out + more)[..|out + more| - 1] == out + more[..|more| - 1];
      StillWellAnnounced(out, more[..|more| - 1]);
    }
  }

  /**
   Every message follows its own session's start if and only if no poll shows news of a session without
   announcing it while the start before was another session's, or none.
   */
  lemma {:induction false} WellAnnouncedExactlyWhen(polls: seq<Poll>)
    ensures WellAnnounced(Run(polls).1) <==> NoneUnannounced(polls)
    ensures Announced(Run(polls).1) == LastStart(polls)
  {
    if polls != [] {
      var front, poll := polls[..|polls| - 1], polls[|polls| - 1];
      assert front + [poll] == polls;
      WellAnnouncedExactlyWhen(front);
      AnnouncedExactly(front, poll);
    }
  }

  /** The poll shows no other session. */
  predicate StaysIn(sid: string, poll: Poll) {
    poll.Seen? ==> poll.snapshot.sessionId == sid || poll.snapshot.sessionId == ""
  }

  lemma {:induction false} StayingIsSilent(front: seq<Poll>, between: seq<Poll>, sid: string)
    requires sid != "" && Observed(front).Some? && Observed(front).value.sessionId == sid
    requires forall p :: p in between ==> StaysIn(sid, p)
    ensures LastStart(front + between) == LastStart(front)
    ensures Observed(front + between).Some? && Observed(front + between).value.sessionId == sid
  {
    if between == [] {
      assert front + between == front;
    } else {
      var n := |between| - 1;
      assert (front + between)[..|front + between| - 1] == front + between[..n];
      assert between[n] in between;
      StayingIsSilent(front, between[..n], sid);
    }
  }

  /**
   After any silent change to a session other than the one announced last, and for as long as the file stays
   with it, its first news follow no start of their own.
   */
  lemma {:induction false} SilentChangeIsNeverAnnounced(front: seq<Poll>, empty: Poll, between: seq<Poll>, next: Poll)
    requires SilentChange(Observed(front), empty) && LastStart(front) != Some(empty.snapshot.sessionId)
    requires forall p :: p in between ==> StaysIn(empty.snapshot.sessionId, p)
    requires next.Seen? && next.snapshot.sessionId == empty.snapshot.sessionId
    requires HasNews(Observed(front + [empty] + between), next)
    ensures !WellAnnounced(Run(front + [empty] + between + [next]).1)
  {
    var sid, before := empty.snapshot.sessionId, front + [empty] + between;
    assert (front + [empty])[..|front|] == front;
    StayingIsSilent(front + [empty], between, sid);
    assert (before + [next])[..|before|] == before;
    WellAnnouncedExactlyWhen(before + [next]);
    assert Unannounced(before, next);
  }

  /** A silent change away and back again costs nothing, although the tracked session was not the announced one. */
  lemma SilentChangeAndBack(sid: string, other: string, m: Message, time: string, metadata: Metadata)
    requires sid != "" && other != "" && sid != other
    ensures var polls := [Seen(Snapshot(sid, Some([]), time, metadata)), Seen(Snapshot(other, Some([]), time, metadata)),
                          Seen(Snapshot(sid, Some([]), time, metadata)), Seen(Snapshot(sid, Some([m]), time, metadata))];
            WellAnnounced(Run(polls).1) && !TrackedIsAnnounced(polls)
  {
    var a, b, c := Seen(Snapshot(sid, Some([]), time, metadata)), Seen(Snapshot(other, Some([]), time, metadata)),
                   Seen(Snapshot(sid, Some([m]), time, metadata));
    var polls := [a, b, a, c];
    assert polls[..3] == [a, b, a] && [a, b, a][..2] == [a, b] && [a, b][..1] == [a] && [a][..0] == [];
    assert Observed([a]) == Some(Observation(sid, [])) && LastStart([a]) == Some(sid);
    assert Observed([a, b]) == Some(Observation(other, [])) && LastStart([a, b]) == Some(sid);
    assert Observed([a, b, a]) == Some(Observation(sid, [])) && LastStart([a, b, a]) == Some(sid);
    assert NoneUnannounced([]) && NoneUnannounced([a]) && NoneUnannounced([a, b]) && NoneUnannounced([a, b, a]);
    WellAnnouncedExactlyWhen(polls);
    assert SilentChange(Observed([a]), b);
    assert !NoSilentChange([a, b]);
    AnnouncedExactlyWithoutSilentChange(polls);
  }

  lemma {:induction false} FirstUnannounced(out: seq<Line>, more: seq<Line>, sid: string)
    requires more != [] && forall l :: l in more ==> l.MessageLine? && l.sessionId == sid
    requires Announced(out) != Some(sid)
    ensures !WellAnnounced(out + more)
  {
    assert (out + more)[..|out + more| - 1] == out + more[..|more| - 1];
    AppendMessages(out, more[..|more| - 1], sid);
  }
}
