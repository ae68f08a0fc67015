/**
 Whole runs of the incremental watcher over append-only transcripts: which lines its offsets pass, and
 what forgetting a file costs (rs/src/watcher.rs, rs/core/src/reader.rs).
 */
module FileRuns {
  import opened FileWatcher
  import opened LineReader
  import opened Lines
  import opened Paths
  import opened Sequences
  import opened Wrappers

  /** An event together with the canonical file that it comes from. */
  datatype Delivery = Delivery(key: Path, event: Event)

  function Deliveries(naming: Naming, batches: seq<Batch>): seq<Delivery> {
    if batches == [] then []
    else Deliveries(naming, Front(batches)) + From(naming.canonical(Last(batches).path), Last(batches).events)
  }

  function From(key: Path, events: seq<Event>): seq<Delivery> {
    seq(|events|, i requires 0 <= i < |events| => Delivery(key, events[i]))
  }

  /** The events of one file in a log, in order. */
  function EventsFor(log: seq<Delivery>, key: Path): seq<Event> {
    if log == [] then []
    else EventsFor(Front(log), key) + if Last(log).key == key then [Last(log).event] else []
  }

  lemma {:induction false} EventsForConcat(a: seq<Delivery>, b: seq<Delivery>, key: Path)
    ensures EventsFor(a + b, key) == EventsFor(a, key) + EventsFor(b, key)
  {
    if b == [] {
      assert a + b == a;
    } else {
      assert Front(a + b) == a + Front(b);
      EventsForConcat(a, Front(b), key);
    }
  }

  lemma {:induction false} EventsForFrom(from: Path, events: seq<Event>, key: Path)
    ensures EventsFor(From(from, events), key) == if from == key then events else []
  {
    if events != [] {
      assert Front(From(from, events)) == From(from, Front(events));
      EventsForFrom(from, Front(events), key);
    }
  }

  lemma {:induction false} DeliveriesConcat(naming: Naming, a: seq<Batch>, b: seq<Batch>)
    ensures Deliveries(naming, a + b) == Deliveries(naming, a) + Deliveries(naming, b)
  {
    if b == [] {
      assert a + b == a;
    } else {
      assert Front(a + b) == a + Front(b);
      DeliveriesConcat(naming, a, Front(b));
    }
  }

  /** What one call adds to a file's events. */
  function Share(naming: Naming, path: Path, passed: seq<Event>, key: Path): seq<Event> {
    if naming.canonical(path) == key then passed else []
  }

  lemma {:induction false} BatchEvents(naming: Naming, before: seq<Batch>, path: Path, passed: seq<Event>, key: Path)
    ensures EventsFor(Deliveries(naming, before + BatchOf(path, passed)), key)
            == EventsFor(Deliveries(naming, before), key) + Share(naming, path, passed, key)
  {
    var b := BatchOf(path, passed);
    DeliveriesConcat(naming, before, b);
    EventsForConcat(Deliveries(naming, before), Deliveries(naming, b), key);
    EventsForFrom(naming.canonical(path), passed, key);
    if b != [] {
      assert Front(b) == [] && Deliveries(naming, b) == [] + From(naming.canonical(path), passed);
      assert [] + From(naming.canonical(path), passed) == From(naming.canonical(path), passed);
    }
  }

  // --------------------------------------------------------- one file's story

  function Content(disk: Disk, key: Path): string {
    if key in disk then disk[key].content else ""
  }

  /** The events of a text's complete lines, given the text before it. */
  function Heard(codec: Codec, before: string, text: string): seq<Event> {
    LineEvents(Spoken(codec, before, LinesOf(text)))
  }

  function HeardTo(codec: Codec, content: string, end: nat): seq<Event>
    requires end <= |content|
  {
    Heard(codec, "", content[..end])
  }

  function HeardFrom(codec: Codec, content: string, a: nat, b: nat): seq<Event>
    requires a <= b <= |content|
  {
    Heard(codec, content[..a], content[a..b])
  }

  lemma LineEventsConcat(a: seq<string>, b: seq<string>)
    ensures LineEvents(a + b) == LineEvents(a) + LineEvents(b)
  {
  }

  lemma TextOfLines(s: string)
    requires AtLineStart(s, |s|)
    ensures "" + Unsplit(LinesOf(s)) == s
  {
    SplitRebuilds(s);
    NothingIsPending(s);
    assert Unsplit(LinesOf(s)) + [] == Unsplit(LinesOf(s)) && "" + Unsplit(LinesOf(s)) == Unsplit(LinesOf(s));
  }

  lemma HeardBetween(codec: Codec, content: string, a: nat, b: nat)
    requires AtLineStart(content, a) && a <= b <= |content|
    ensures HeardTo(codec, content, b) == HeardTo(codec, content, a) + HeardFrom(codec, content, a, b)
  {
    var before, between := LinesOf(content[..a]), LinesOf(content[a..b]);
    LinesBetween(content, a, b);
    TextOfLines(content[..a]);
    SpokenConcat(codec, "", before, between);
    LineEventsConcat(Spoken(codec, "", before), Spoken(codec, content[..a], between));
  }

  lemma HeardNothing(codec: Codec, content: string, a: nat)
    requires a <= |content|
    ensures HeardFrom(codec, content, a, a) == []
  {
    assert content[a..a] == [];
  }

  /** Passed up to `mark`: the events are, as a set, those of the complete lines before it. */
  ghost predicate PassedUpTo(codec: Codec, content: string, events: seq<Event>, mark: int) {
    0 <= mark && AtLineStart(content, mark) && forall e :: e in events <==> e in HeardTo(codec, content, mark)
  }

  function Offset(s: Option<FileState>): nat {
    if s.None? then 0 else s.value.byteOffset
  }

  /**
   The offset never goes past the lines that were passed; and while the file was never forgotten, those
   are the lines up to the offset, once each and in order.
   */
  ghost predicate Caught(codec: Codec, content: string, s: Option<FileState>, events: seq<Event>, forgotten: bool) {
    && AtLineStart(content, Offset(s))
    && (exists mark :: PassedUpTo(codec, content, events, mark) && Offset(s) <= mark)
    && (!forgotten ==> events == HeardTo(codec, content, Offset(s)))
  }

  lemma GrowKeeps(codec: Codec, content: string, content': string, s: Option<FileState>, events: seq<Event>, forgotten: bool)
    requires Caught(codec, content, s, events, forgotten) && content <= content'
    ensures Caught(codec, content', s, events, forgotten)
  {
    var mark :| PassedUpTo(codec, content, events, mark) && Offset(s) <= mark;
    assert content'[..mark] == content[..mark];
    assert content'[..Offset(s)] == content[..Offset(s)];
    assert PassedUpTo(codec, content', events, mark);
  }

  /** Forgetting a file loses its offset but none of its lines. */
  lemma ForgetKeeps(codec: Codec, content: string, s: Option<FileState>, events: seq<Event>, forgotten: bool)
    requires Caught(codec, content, s, events, forgotten)
    ensures Caught(codec, content, None, events, true)
  {
  }

  /** Reading from an offset to an end that may lie before or behind the mark. */
  lemma MarkMoves(codec: Codec, content: string, events: seq<Event>, offset: nat, mark: nat, end: nat)
    requires PassedUpTo(codec, content, events, mark) && AtLineStart(content, offset) && AtLineStart(content, end)
    requires offset <= mark && offset <= end
    ensures PassedUpTo(codec, content, events + HeardFrom(codec, content, offset, end), if end > mark then end else mark)
  {
    HeardBetween(codec, content, offset, end);
    HeardBetween(codec, content, offset, mark);
    if end > mark {
      HeardBetween(codec, content, mark, end);
    } else {
      HeardBetween(codec, content, end, mark);
    }
  }

  lemma ReadKeeps(codec: Codec, content: string, s: Option<FileState>, t: FileState, events: seq<Event>, forgotten: bool)
    requires Caught(codec, content, s, events, forgotten)
    requires Offset(s) <= t.byteOffset && AtLineStart(content, t.byteOffset)
    ensures Caught(codec, content, Some(t), events + HeardFrom(codec, content, Offset(s), t.byteOffset), forgotten)
  {
    var offset, end := Offset(s), t.byteOffset;
    var mark :| PassedUpTo(codec, content, events, mark) && offset <= mark;
    MarkMoves(codec, content, events, offset, mark, end);
    HeardBetween(codec, content, offset, end);
  }

  /**
   Whether it succeeds or fails, a call for a transcript moves the offset to a line start further on and
   passes the lines between; if it succeeds on a file that is there, that is behind the last complete line.
   */
  lemma {:induction false} ReadPasses(codec: Codec, s: Option<FileState>, sid: string, file: Option<File>, content: string)
    requires AtLineStart(content, Offset(s)) && (file.Some? ==> file.value.content == content)
    ensures var o := ProcessTranscript(codec, s, sid, file);
            && o.state.Some? && Offset(s) <= Offset(o.state) && AtLineStart(content, Offset(o.state))
            && o.passed == HeardFrom(codec, content, Offset(s), Offset(o.state))
            && (o.ok && file.Some? ==> Offset(o.state) == CompleteEnd(content))
  {
    HeardNothing(codec, content, Offset(s));
    if file.Some? {
      ReadTakesLines(codec, file.value, Offset(s));
      assert Offset(s) == |content| ==> CompleteEnd(content) == |content|;
    }
  }

  // ------------------------------------------------------------- whole runs

  /** Every way to reach the file is as a transcript, or ignored. */
  ghost predicate TranscriptOnly(naming: Naming, key: Path) {
    forall q :: naming.canonical(q) == key ==> !IsArtifact(naming.kindOf(q))
  }

  /** The disk, the watcher, what its offsets passed, and what it handed to the callback. */
  datatype World = World(disk: Disk, watch: Watch, passed: seq<Delivery>, delivered: seq<Delivery>)

  /**
   A file changes: it grows, goes missing or comes back, and its faults come and go. Or a notification
   arrives, for one file or for a directory and what a walk of it finds.
   */
  datatype Action =
    | Change(path: Path, file: File)
    | Notify(candidates: seq<Path>)

  /** A walk that fails throws away what it had collected, the failing file's own events included. */
  ghost predicate Steps(naming: Naming, w: World, a: Action, w': World) {
    match a
    case Change(path, file) =>
      Content(w.disk, path) <= file.content && w' == w.(disk := w.disk[path := file])
    case Notify(candidates) =>
      exists batches, failed :: Notified(naming, w, candidates, w', batches, failed)
  }

  ghost predicate Notified(naming: Naming, w: World, candidates: seq<Path>, w': World, batches: seq<Batch>, failed: bool) {
    && WalksTo(naming, w.watch, w.disk, candidates, w'.watch, batches, failed)
    && w' == World(w.disk, w'.watch, w.passed + Deliveries(naming, batches),
                   if failed then w.delivered else w.delivered + Deliveries(naming, batches))
  }

  /** The worlds that a run goes through. */
  ghost predicate Runs(naming: Naming, ws: seq<World>, actions: seq<Action>) {
    |ws| == |actions| + 1 && forall i :: 0 <= i < |actions| ==> Steps(naming, ws[i], actions[i], ws[i + 1])
  }

  ghost predicate KeyCaught(naming: Naming, w: World, key: Path) {
    TableCaught(naming, w.disk, w.watch, EventsFor(w.passed, key), key)
  }

  ghost predicate TableCaught(naming: Naming, disk: Disk, w: Watch, events: seq<Event>, key: Path) {
    Caught(naming.codec, Content(disk, key), Lookup(w.states, key), events, key in w.forgotten)
  }

  /** Storing leaves any entry as the call made it, or forgets it and says so. */
  lemma StoreLooksUp(w: Watch, disk: Disk, called: Path, o: Outcome, w': Watch, key: Path)
    requires Stores(w, disk, called, o, w')
    ensures var stored := if called == key && o.state.Some? then o.state else Lookup(w.states, key);
            || (Lookup(w'.states, key) == stored && w'.forgotten[key] == w.forgotten[key])
            || (Lookup(w'.states, key) == None && w'.forgotten[key] == w.forgotten[key] + 1)
  {
  }

  /** A call for any file keeps the account of every transcript. */
  lemma CallKeeps(naming: Naming, w: Watch, disk: Disk, path: Path, w': Watch, passed: seq<Event>, ok: bool,
                  events: seq<Event>, events': seq<Event>, key: Path)
    requires TranscriptOnly(naming, key) && TableCaught(naming, disk, w, events, key)
    requires Calls(naming, w, disk, path, w', passed, ok) && events' == events + Share(naming, path, passed, key)
    ensures TableCaught(naming, disk, w', events', key)
  {
    var called, s, content := naming.canonical(path), Lookup(w.states, key), Content(disk, key);
    var o := ProcessFile(naming, path, Lookup(w.states, called), Present(disk, called));
    StoreLooksUp(w, disk, called, o, w', key);
    assert events + [] == events;
    if called == key && naming.kindOf(path).Transcript? {
      ReadPasses(naming.codec, s, naming.sessionOf(path), Present(disk, key), content);
      ReadKeeps(naming.codec, content, s, o.state.value, events, key in w.forgotten);
      ForgetKeeps(naming.codec, content, o.state, events + passed, key in w.forgotten);
    } else {
      ForgetKeeps(naming.codec, content, s, events, key in w.forgotten);
    }
  }

  lemma {:induction false} VisitKeeps(naming: Naming, m: Watch, disk: Disk, path: Path, w': Watch, passed: seq<Event>, ok: bool,
                   before: seq<Batch>, events: seq<Event>, key: Path)
    requires TranscriptOnly(naming, key) && TableCaught(naming, disk, m, events + EventsFor(Deliveries(naming, before), key), key)
    requires Calls(naming, m, disk, path, w', passed, ok)
    ensures TableCaught(naming, disk, w', events + EventsFor(Deliveries(naming, before + BatchOf(path, passed)), key), key)
  {
    JoinShare(naming, path, passed, before, events, key);
    CallKeeps(naming, m, disk, path, w', passed, ok, events + EventsFor(Deliveries(naming, before), key),
              events + EventsFor(Deliveries(naming, before + BatchOf(path, passed)), key), key);
  }

  lemma {:induction false} JoinShare(naming: Naming, path: Path, passed: seq<Event>, before: seq<Batch>, events: seq<Event>, key: Path)
    ensures events + EventsFor(Deliveries(naming, before + BatchOf(path, passed)), key)
            == (events + EventsFor(Deliveries(naming, before), key)) + Share(naming, path, passed, key)
  {
    BatchEvents(naming, before, path, passed, key);
    Associates(events, EventsFor(Deliveries(naming, before), key), Share(naming, path, passed, key));
  }

  lemma Associates<T>(a: seq<T>, b: seq<T>, c: seq<T>)
    ensures a + (b + c) == (a + b) + c
  {
  }

  /** So does a walk, whether or not it fails. */
  lemma {:induction false} WalkKeeps(naming: Naming, w: Watch, disk: Disk, candidates: seq<Path>, w': Watch,
                                     batches: seq<Batch>, failed: bool, events: seq<Event>, key: Path)
    requires TranscriptOnly(naming, key) && TableCaught(naming, disk, w, events, key)
    requires WalksTo(naming, w, disk, candidates, w', batches, failed)
    ensures TableCaught(naming, disk, w', events + EventsFor(Deliveries(naming, batches), key), key)
  {
    if candidates == [] {
      assert events + [] == events;
    } else {
      var path := Last(candidates);
      var m, before, f := LastVisitOf(naming, w, disk, candidates, w', batches, failed);
      WalkKeeps(naming, w, disk, Front(candidates), m, before, f, events, key);
      if !f && !Skipped(naming.kindOf(path)) {
        var passed :| Calls(naming, m, disk, path, w', passed, !failed) && batches == before + BatchOf(path, passed);
        VisitKeeps(naming, m, disk, path, w', passed, !failed, before, events, key);
      }
    }
  }

  lemma StepKeeps(naming: Naming, w: World, a: Action, w': World, key: Path)
    requires TranscriptOnly(naming, key) && KeyCaught(naming, w, key) && Steps(naming, w, a, w')
    ensures KeyCaught(naming, w', key)
  {
    match a
    case Change(path, file) =>
      if path == key {
        GrowKeeps(naming.codec, Content(w.disk, key), file.content, Lookup(w.watch.states, key), EventsFor(w.passed, key),
                  key in w.watch.forgotten);
      }
    case Notify(candidates) =>
      var batches, failed :| Notified(naming, w, candidates, w', batches, failed);
      WalkKeeps(naming, w.watch, w.disk, candidates, w'.watch, batches, failed, EventsFor(w.passed, key), key);
      EventsForConcat(w.passed, Deliveries(naming, batches), key);
  }

  /**
   For every interleaving of changes, notifications, failed reads and evictions: the lines that the offsets
   passed are, as a set, the complete lines of some prefix of the file, never behind the watcher's own offset;
   and while the file was never forgotten, they are the complete lines up to that offset, once each and in order.
   */
  lemma {:induction false} EveryRunPassesCompleteLines(naming: Naming, ws: seq<World>, actions: seq<Action>, key: Path)
    requires Runs(naming, ws, actions) && TranscriptOnly(naming, key) && KeyCaught(naming, ws[0], key)
    ensures KeyCaught(naming, Last(ws), key)
  {
    if actions != [] {
      var n := |actions| - 1;
      EveryRunPassesCompleteLines(naming, Front(ws), Front(actions), key);
      StepKeeps(naming, ws[n], actions[n], ws[n + 1], key);
    }
  }

  /** A new watcher meets the premise. */
  lemma NewWatcherIsCaught(naming: Naming, disk: Disk, key: Path)
    ensures KeyCaught(naming, World(disk, Watch(map[], 0, multiset{}), [], []), key)
  {
    HeardNothing(naming.codec, Content(disk, key), 0);
    assert Content(disk, key)[..0] == [];
    assert PassedUpTo(naming.codec, Content(disk, key), [], 0);
  }
}
