/**
 The artifact events of the incremental watcher over whole runs: their numbers, lengths and sessions
 (rs/src/watcher.rs, `process_grok_l2_artifact`).
 */
module FileNumbers {
  import opened FileRuns
  import opened FileWatcher
  import opened LineReader
  import opened Paths
  import opened Sequences
  import opened Wrappers

  // ------------------------------------------------------------ one call

  /**
   A call for a terminal log, metadata or an attachment that is there, belongs to a session, has grown past what was
   seen and, if it is metadata, parses: it succeeds with one event, of that session, that length and the next number.
   */
  lemma {:induction false} GrownArtifactIsPassed(naming: Naming, disk: Disk, path: Path, s: Option<FileState>)
    requires naming.kindOf(path) in {TerminalLog, MetaJson, Attachment}
    requires naming.sessionOf(path) != "" && naming.sessionOf(path) != "unknown"
    requires naming.canonical(path) in disk && disk[naming.canonical(path)].present
    requires |disk[naming.canonical(path)].content| > if s.None? then 0 else s.value.byteOffset
    requires naming.kindOf(path) == MetaJson ==> disk[naming.canonical(path)].parses
    ensures var o := ProcessFile(naming, path, s, Present(disk, naming.canonical(path)));
            && o.ok && o.state.Some?
            && o.passed == [ArtifactEvent(naming.sessionOf(path), |disk[naming.canonical(path)].content|,
                                          1 + if s.None? then 0 else s.value.seqNo)]
            && o.state.value.byteOffset == |disk[naming.canonical(path)].content|
            && o.state.value.seqNo == 1 + if s.None? then 0 else s.value.seqNo
  {
  }

  /** Files of no interest: nothing is passed, and nothing is remembered. */
  lemma {:induction false} OtherFilesAreIgnored(naming: Naming, disk: Disk, path: Path, s: Option<FileState>)
    requires naming.kindOf(path) in {Noise, Other}
    ensures var o := ProcessFile(naming, path, s, Present(disk, naming.canonical(path)));
            o.ok && o.passed == [] && o.state == s && !o.checks
  {
  }

  /**
   Which calls reach the eviction check: those that succeed and make a new entry, but for an artifact that is there and
   empty. No call for a known file does.
   */
  lemma {:induction false} ChecksExactlyWhen(naming: Naming, disk: Disk, path: Path, s: Option<FileState>)
    ensures var o := ProcessFile(naming, path, s, Present(disk, naming.canonical(path)));
            o.checks <==>
              && s.None? && o.state.Some? && o.ok
              && (naming.kindOf(path) == Transcript || |disk[naming.canonical(path)].content| > 0)
    ensures naming.kindOf(path) == Transcript ==> ProcessFile(naming, path, s, Present(disk, naming.canonical(path))).state.Some?
  {
  }

  // ------------------------------------------------------------ one file's account

  /** Every way to reach the file is as an artifact, or ignored. */
  ghost predicate ArtifactOnly(naming: Naming, key: Path) {
    forall q :: naming.canonical(q) == key ==> naming.kindOf(q) != Transcript
  }

  /** The session of some way to reach the file, if it is a real one. */
  ghost predicate IsSessionOf(naming: Naming, key: Path, sid: string) {
    sid != "" && sid != "unknown" && exists q :: naming.canonical(q) == key && naming.sessionOf(q) == sid
  }

  /**
   The events of a file since it was last unknown: numbered from 1, of growing lengths, each of a session of the file;
   and what the table has of it is the last of them.
   */
  ghost predicate Numbered(naming: Naming, key: Path, s: Option<FileState>, era: seq<Event>) {
    && (forall i :: 0 <= i < |era| ==>
          era[i].ArtifactEvent? && era[i].seqNo == i + 1 && IsSessionOf(naming, key, era[i].sessionId))
    && (forall i, j :: 0 <= i < j < |era| ==> era[i].length < era[j].length)
    && (forall i :: 0 <= i < |era| ==> era[i].length > 0)
    && (if s.None? then era == []
        else s.value.seqNo == |era| && s.value.byteOffset == if era == [] then 0 else Last(era).length)
  }

  lemma {:induction false} NumberedOneMore(naming: Naming, key: Path, s: Option<FileState>, era: seq<Event>, e: Event, t: FileState)
    requires Numbered(naming, key, s, era) && e.ArtifactEvent? && IsSessionOf(naming, key, e.sessionId)
    requires e.seqNo == |era| + 1 && e.length > (if s.None? then 0 else s.value.byteOffset)
    requires t.seqNo == |era| + 1 && t.byteOffset == e.length
    ensures Numbered(naming, key, Some(t), era + [e])
  {
    var longer := era + [e];
    forall i, j | 0 <= i < j < |longer| ensures longer[i].length < longer[j].length {
      if j == |era| {
        assert i < |era| - 1 ==> era[i].length < era[|era| - 1].length;
      }
    }
  }

  /** All the events are as long as the file is on this disk. */
  predicate LengthsAre(events: seq<Event>, disk: Disk, key: Path) {
    forall e :: e in events ==> e.ArtifactEvent? && e.length == |Content(disk, key)|
  }

  function SeqNo(s: Option<FileState>): nat {
    if s.None? then 0 else s.value.seqNo
  }

  /** What a call for a file that is no transcript can come to. */
  lemma {:induction false} ArtifactOutcomes(naming: Naming, disk: Disk, path: Path, s: Option<FileState>)
    requires naming.kindOf(path) != Transcript
    ensures var key, sid := naming.canonical(path), naming.sessionOf(path);
            var o := ProcessFile(naming, path, s, Present(disk, key));
            var t := if o.state.Some? then o.state else s;
            && (o.passed == [] ==> SeqNo(t) == SeqNo(s) && Offset(t) == Offset(s) && (t.None? ==> s.None?))
            && (o.passed != [] ==>
                  && o.passed == [ArtifactEvent(sid, |Content(disk, key)|, SeqNo(s) + 1)] && sid != "" && sid != "unknown"
                  && |Content(disk, key)| > Offset(s) && t.Some? && SeqNo(t) == SeqNo(s) + 1 && Offset(t) == |Content(disk, key)|)
  {
  }

  lemma {:induction false} OutcomeNumbers(naming: Naming, disk: Disk, path: Path, s: Option<FileState>, era: seq<Event>)
    requires var key := naming.canonical(path); naming.kindOf(path) != Transcript && Numbered(naming, key, s, era)
    ensures var key := naming.canonical(path);
            var o := ProcessFile(naming, path, s, Present(disk, key));
            && Numbered(naming, key, if o.state.Some? then o.state else s, era + o.passed) && LengthsAre(o.passed, disk, key)
  {
    var key := naming.canonical(path);
    var o := ProcessFile(naming, path, s, Present(disk, key));
    var t := if o.state.Some? then o.state else s;
    ArtifactOutcomes(naming, disk, path, s);
    if o.passed == [] {
      assert era + o.passed == era;
    } else {
      assert IsSessionOf(naming, key, naming.sessionOf(path));
      NumberedOneMore(naming, key, s, era, o.passed[0], t.value);
    }
  }

  /** A call for any file that does not forget this one keeps its account. */
  lemma {:induction false} CallNumbers(naming: Naming, w: Watch, disk: Disk, path: Path, w': Watch, passed: seq<Event>, ok: bool,
                                       key: Path, era: seq<Event>)
    requires ArtifactOnly(naming, key) && Numbered(naming, key, Lookup(w.states, key), era)
    requires Calls(naming, w, disk, path, w', passed, ok) && w'.forgotten[key] == w.forgotten[key]
    ensures Numbered(naming, key, Lookup(w'.states, key), era + Share(naming, path, passed, key))
    ensures LengthsAre(Share(naming, path, passed, key), disk, key)
  {
    var called := naming.canonical(path);
    StoreLooksUp(w, disk, called, ProcessFile(naming, path, Lookup(w.states, called), Present(disk, called)), w', key);
    if called == key {
      OutcomeNumbers(naming, disk, path, Lookup(w.states, key), era);
    } else {
      assert era + [] == era;
    }
  }

  lemma {:induction false} VisitNumbers(naming: Naming, m: Watch, disk: Disk, path: Path, w': Watch, passed: seq<Event>, ok: bool,
                                        before: seq<Batch>, key: Path, era: seq<Event>)
    requires ArtifactOnly(naming, key)
    requires Numbered(naming, key, Lookup(m.states, key), era + EventsFor(Deliveries(naming, before), key))
    requires Calls(naming, m, disk, path, w', passed, ok) && w'.forgotten[key] == m.forgotten[key]
    ensures Numbered(naming, key, Lookup(w'.states, key), era + EventsFor(Deliveries(naming, before + BatchOf(path, passed)), key))
    ensures LengthsAre(Share(naming, path, passed, key), disk, key)
  {
    JoinShare(naming, path, passed, before, era, key);
    CallNumbers(naming, m, disk, path, w', passed, ok, key, era + EventsFor(Deliveries(naming, before), key));
  }

  lemma {:induction false} CallForgetsMore(naming: Naming, w: Watch, disk: Disk, path: Path, w': Watch, passed: seq<Event>, ok: bool, key: Path)
    requires Calls(naming, w, disk, path, w', passed, ok)
    ensures w'.forgotten[key] >= w.forgotten[key]
  {
    StoreLooksUp(w, disk, naming.canonical(path),
                 ProcessFile(naming, path, Lookup(w.states, naming.canonical(path)), Present(disk, naming.canonical(path))), w', key);
  }

  lemma {:induction false} OneVisitNumbers(naming: Naming, m: Watch, disk: Disk, path: Path, before: seq<Batch>, f: bool, w': Watch,
                                           batches: seq<Batch>, failed: bool, key: Path, era: seq<Event>)
    requires ArtifactOnly(naming, key) && w'.forgotten[key] == m.forgotten[key]
    requires VisitsOne(naming, m, disk, path, before, f, w', batches, failed)
    requires Numbered(naming, key, Lookup(m.states, key), era + EventsFor(Deliveries(naming, before), key))
    requires LengthsAre(EventsFor(Deliveries(naming, before), key), disk, key)
    ensures Numbered(naming, key, Lookup(w'.states, key), era + EventsFor(Deliveries(naming, batches), key))
    ensures LengthsAre(EventsFor(Deliveries(naming, batches), key), disk, key)
  {
    if !f && !Skipped(naming.kindOf(path)) {
      var passed :| Calls(naming, m, disk, path, w', passed, !failed) && batches == before + BatchOf(path, passed);
      VisitNumbers(naming, m, disk, path, w', passed, !failed, before, key, era);
      BatchEvents(naming, before, path, passed, key);
    }
  }

  lemma {:induction false} VisitForgetsMore(naming: Naming, m: Watch, disk: Disk, path: Path, before: seq<Batch>, f: bool, w': Watch,
                                            batches: seq<Batch>, failed: bool, key: Path)
    requires VisitsOne(naming, m, disk, path, before, f, w', batches, failed)
    ensures w'.forgotten[key] >= m.forgotten[key]
  {
    if !f && !Skipped(naming.kindOf(path)) {
      var passed :| Calls(naming, m, disk, path, w', passed, !failed);
      CallForgetsMore(naming, m, disk, path, w', passed, !failed, key);
    }
  }

  lemma {:induction false} WalkForgetsMore(naming: Naming, w: Watch, disk: Disk, candidates: seq<Path>, w': Watch, batches: seq<Batch>,
                                           failed: bool, key: Path)
    requires WalksTo(naming, w, disk, candidates, w', batches, failed)
    ensures w'.forgotten[key] >= w.forgotten[key]
  {
    if candidates != [] {
      var m, before, f := LastVisitOf(naming, w, disk, candidates, w', batches, failed);
      WalkForgetsMore(naming, w, disk, Front(candidates), m, before, f, key);
      VisitForgetsMore(naming, m, disk, Last(candidates), before, f, w', batches, failed, key);
    }
  }

  lemma {:induction false} WalkNumbers(naming: Naming, w: Watch, disk: Disk, candidates: seq<Path>, w': Watch, batches: seq<Batch>,
                                       failed: bool, key: Path, era: seq<Event>)
    requires ArtifactOnly(naming, key) && Numbered(naming, key, Lookup(w.states, key), era)
    requires WalksTo(naming, w, disk, candidates, w', batches, failed) && w'.forgotten[key] == w.forgotten[key]
    ensures Numbered(naming, key, Lookup(w'.states, key), era + EventsFor(Deliveries(naming, batches), key))
    ensures LengthsAre(EventsFor(Deliveries(naming, batches), key), disk, key)
  {
    if candidates == [] {
      assert era + [] == era;
    } else {
      var m, before, f := LastVisitOf(naming, w, disk, candidates, w', batches, failed);
      WalkForgetsMore(naming, w, disk, Front(candidates), m, before, f, key);
      VisitForgetsMore(naming, m, disk, Last(candidates), before, f, w', batches, failed, key);
      WalkNumbers(naming, w, disk, Front(candidates), m, before, f, key, era);
      OneVisitNumbers(naming, m, disk, Last(candidates), before, f, w', batches, failed, key, era);
    }
  }

  // ------------------------------------------------------------ whole runs

  /** The event is as long as the file was on the disk of some notification of the run. */
  ghost predicate MeasuredBySome(ws: seq<World>, actions: seq<Action>, key: Path, e: Event)
    requires |ws| == |actions| + 1
  {
    exists k :: 0 <= k < |actions| && actions[k].Notify? && e.ArtifactEvent? && e.length == |Content(ws[k].disk, key)|
  }

  lemma {:induction false} NotifiedNumbers(naming: Naming, w: World, candidates: seq<Path>, w': World, batches: seq<Batch>, failed: bool,
                                           key: Path, past: seq<Event>, era: seq<Event>)
    requires ArtifactOnly(naming, key) && Notified(naming, w, candidates, w', batches, failed)
    requires EventsFor(w.passed, key) == past + era && Numbered(naming, key, Lookup(w.watch.states, key), era)
    requires w'.watch.forgotten[key] == w.watch.forgotten[key]
    ensures var more := EventsFor(Deliveries(naming, batches), key);
            && EventsFor(w'.passed, key) == past + (era + more) && LengthsAre(more, w.disk, key)
            && Numbered(naming, key, Lookup(w'.watch.states, key), era + more)
  {
    var more := EventsFor(Deliveries(naming, batches), key);
    WalkNumbers(naming, w.watch, w.disk, candidates, w'.watch, batches, failed, key, era);
    EventsForConcat(w.passed, Deliveries(naming, batches), key);
    Associates(past, era, more);
  }

  lemma {:induction false} StepNumbers(naming: Naming, w: World, a: Action, w': World, key: Path, past: seq<Event>, era: seq<Event>)
    returns (more: seq<Event>)
    requires ArtifactOnly(naming, key) && Steps(naming, w, a, w')
    requires EventsFor(w.passed, key) == past + era && Numbered(naming, key, Lookup(w.watch.states, key), era)
    requires w'.watch.forgotten[key] == w.watch.forgotten[key]
    ensures EventsFor(w'.passed, key) == past + (era + more) && Numbered(naming, key, Lookup(w'.watch.states, key), era + more)
    ensures LengthsAre(more, w.disk, key) && (a.Change? ==> more == [])
  {
    if a.Change? {
      more := [];
      assert era + more == era;
    } else {
      var batches, failed :| Notified(naming, w, a.candidates, w', batches, failed);
      more := EventsFor(Deliveries(naming, batches), key);
      NotifiedNumbers(naming, w, a.candidates, w', batches, failed, key, past, era);
    }
  }

  lemma {:induction false} StepForgetsMore(naming: Naming, w: World, a: Action, w': World, key: Path)
    requires Steps(naming, w, a, w')
    ensures w'.watch.forgotten[key] >= w.watch.forgotten[key]
  {
    if a.Notify? {
      var batches, failed :| Notified(naming, w, a.candidates, w', batches, failed);
      WalkForgetsMore(naming, w.watch, w.disk, a.candidates, w'.watch, batches, failed, key);
    }
  }

  lemma {:induction false} RunForgetsMore(naming: Naming, ws: seq<World>, actions: seq<Action>, key: Path)
    requires Runs(naming, ws, actions)
    ensures Last(ws).watch.forgotten[key] >= ws[0].watch.forgotten[key]
  {
    if actions != [] {
      var n := |actions| - 1;
      RunForgetsMore(naming, Front(ws), Front(actions), key);
      StepForgetsMore(naming, ws[n], actions[n], ws[n + 1], key);
    }
  }

  /**
   From a moment at which an artifact is not known to any later one, as long as it is not forgotten in between: the
   events passed of it are numbered 1, 2, 3 and so on; their lengths grow; each is the length that the file had when
   it was notified of; and each carries a session of the file.
   */
  lemma {:induction false} ArtifactEventsAreNumbered(naming: Naming, ws: seq<World>, actions: seq<Action>, key: Path)
    returns (era: seq<Event>)
    requires ArtifactOnly(naming, key) && Runs(naming, ws, actions) && key !in ws[0].watch.states
    requires Last(ws).watch.forgotten[key] == ws[0].watch.forgotten[key]
    ensures EventsFor(Last(ws).passed, key) == EventsFor(ws[0].passed, key) + era
    ensures forall i :: 0 <= i < |era| ==> era[i].ArtifactEvent? && era[i].seqNo == i + 1
    ensures forall i, j :: 0 <= i < j < |era| ==> era[i].length < era[j].length
    ensures forall i :: 0 <= i < |era| ==> IsSessionOf(naming, key, era[i].sessionId)
    ensures forall e :: e in era ==> MeasuredBySome(ws, actions, key, e)
    ensures Numbered(naming, key, Lookup(Last(ws).watch.states, key), era)
  {
    if actions == [] {
      era := [];
      assert EventsFor(ws[0].passed, key) + [] == EventsFor(ws[0].passed, key);
    } else {
      var n := |actions| - 1;
      RunForgetsMore(naming, Front(ws), Front(actions), key);
      StepForgetsMore(naming, ws[n], actions[n], ws[n + 1], key);
      var front := ArtifactEventsAreNumbered(naming, Front(ws), Front(actions), key);
      var more := StepNumbers(naming, ws[n], actions[n], ws[n + 1], key, EventsFor(ws[0].passed, key), front);
      era := front + more;
      forall e | e in era ensures MeasuredBySome(ws, actions, key, e) {
        MeasuredLater(ws, actions, key, e, front, more);
      }
    }
  }

  lemma {:induction false} MeasuredLater(ws: seq<World>, actions: seq<Action>, key: Path, e: Event, front: seq<Event>, more: seq<Event>)
    requires |ws| == |actions| + 1 && actions != [] && e in front + more
    requires e in front ==> MeasuredBySome(Front(ws), Front(actions), key, e)
    requires LengthsAre(more, ws[|actions| - 1].disk, key) && (Last(actions).Change? ==> more == [])
    ensures MeasuredBySome(ws, actions, key, e)
  {
    var n := |actions| - 1;
    if e in front {
      var k :| 0 <= k < n && Front(actions)[k].Notify? && e.ArtifactEvent? && e.length == |Content(Front(ws)[k].disk, key)|;
      assert actions[k].Notify? && e.length == |Content(ws[k].disk, key)|;
    } else {
      assert actions[n].Notify? && e.length == |Content(ws[n].disk, key)|;
    }
  }

  // ------------------------------------------------------------ sessions

  /** What the table has of a file bears the session of some way to reach it. */
  ghost predicate SessionsFollow(naming: Naming, states: States) {
    forall key :: key in states ==> exists q :: naming.canonical(q) == key && naming.sessionOf(q) == states[key].sessionId
  }

  lemma {:induction false} OutcomeKeepsSession(naming: Naming, disk: Disk, path: Path, s: Option<FileState>)
    ensures var o := ProcessFile(naming, path, s, Present(disk, naming.canonical(path)));
            o.state.Some? ==> o.state.value.sessionId == naming.sessionOf(path) || (s.Some? && o.state.value.sessionId == s.value.sessionId)
  {
  }

  lemma {:induction false} CallKeepsSessions(naming: Naming, w: Watch, disk: Disk, path: Path, w': Watch, passed: seq<Event>, ok: bool)
    requires SessionsFollow(naming, w.states) && Calls(naming, w, disk, path, w', passed, ok)
    ensures SessionsFollow(naming, w'.states)
  {
    var called := naming.canonical(path);
    var o := ProcessFile(naming, path, Lookup(w.states, called), Present(disk, called));
    OutcomeKeepsSession(naming, disk, path, Lookup(w.states, called));
    forall key | key in w'.states
      ensures exists q :: naming.canonical(q) == key && naming.sessionOf(q) == w'.states[key].sessionId
    {
      StoreLooksUp(w, disk, called, o, w', key);
      if called == key && w'.states[key].sessionId == naming.sessionOf(path) {
        assert naming.canonical(path) == key;
      } else {
        assert key in w.states && w'.states[key].sessionId == w.states[key].sessionId;
      }
    }
  }

  lemma {:induction false} WalkKeepsSessions(naming: Naming, w: Watch, disk: Disk, candidates: seq<Path>, w': Watch, batches: seq<Batch>,
                                             failed: bool)
    requires SessionsFollow(naming, w.states) && WalksTo(naming, w, disk, candidates, w', batches, failed)
    ensures SessionsFollow(naming, w'.states)
  {
    if candidates != [] {
      var m, before, f := LastVisitOf(naming, w, disk, candidates, w', batches, failed);
      WalkKeepsSessions(naming, w, disk, Front(candidates), m, before, f);
      if !f && !Skipped(naming.kindOf(Last(candidates))) {
        var passed :| Calls(naming, m, disk, Last(candidates), w', passed, !failed);
        CallKeepsSessions(naming, m, disk, Last(candidates), w', passed, !failed);
      }
    }
  }

  /** Over every run, what the table has of a file bears the session of some way to reach it. */
  lemma {:induction false} EveryRunKeepsSessions(naming: Naming, ws: seq<World>, actions: seq<Action>)
    requires Runs(naming, ws, actions) && SessionsFollow(naming, ws[0].watch.states)
    ensures SessionsFollow(naming, Last(ws).watch.states)
  {
    if actions != [] {
      var n, a := |actions| - 1, Last(actions);
      EveryRunKeepsSessions(naming, Front(ws), Front(actions));
      if a.Notify? {
        var batches, failed :| Notified(naming, ws[n], a.candidates, ws[n + 1], batches, failed);
        WalkKeepsSessions(naming, ws[n].watch, ws[n].disk, a.candidates, ws[n + 1].watch, batches, failed);
      }
    }
  }
}
