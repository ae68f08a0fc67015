/**
 What the incremental watcher passes and never delivers: exactly which notifications lose events, as a
 matter of the disk and of the table before them (rs/src/watcher.rs, rs/core/src/reader.rs).
 */
module FileLosses {
  import opened FileRuns
  import opened FileWatcher
  import opened LineReader
  import opened Lines
  import opened Paths
  import opened Sequences
  import opened Wrappers

  // ------------------------------------------------------------- one call

  /** A transcript that is there and cannot be opened, or has a line past the offset that cannot be read. */
  ghost predicate Fails(naming: Naming, disk: Disk, path: Path, s: Option<FileState>) {
    var file := Present(disk, naming.canonical(path));
    && naming.kindOf(path).Transcript? && file.Some?
    && (!file.value.opens
        || (Offset(s) < |file.value.content| && SomeUnreadable(naming.codec, file.value, Offset(s))))
  }

  /** There is something to pass: a line that yields events before any that cannot be read, or an artifact that grew. */
  ghost predicate Yields(naming: Naming, disk: Disk, path: Path, s: Option<FileState>) {
    var file, kind, sid := Present(disk, naming.canonical(path)), naming.kindOf(path), naming.sessionOf(path);
    && file.Some? && Offset(s) < |file.value.content|
    && if IsArtifact(kind) then sid != "unknown" && sid != "" && (kind.MetaJson? ==> file.value.parses)
       else kind.Transcript? && file.value.opens && SomeReadable(naming.codec, file.value, Offset(s))
  }

  lemma CallFailsExactlyWhen(naming: Naming, disk: Disk, path: Path, s: Option<FileState>)
    ensures var o := ProcessFile(naming, path, s, Present(disk, naming.canonical(path)));
            (o.ok <==> !Fails(naming, disk, path, s)) && (o.passed != [] <==> Yields(naming, disk, path, s))
  {
    var file := Present(disk, naming.canonical(path));
    if file.Some? && naming.kindOf(path).Transcript? && Offset(s) < |file.value.content| {
      FailsExactlyWhen(naming.codec, file.value, Offset(s));
      YieldsExactlyWhen(naming.codec, file.value, Offset(s));
    }
  }

  /** Another call would succeed, pass nothing and change nothing. */
  ghost predicate Rests(naming: Naming, disk: Disk, path: Path, s: Option<FileState>) {
    s.Some? && ProcessFile(naming, path, s, Present(disk, naming.canonical(path))) == Outcome(s, [], true, false)
  }

  /** A call that succeeds leaves its file at rest, or leaves it untracked as it was. */
  lemma SuccessRests(naming: Naming, disk: Disk, path: Path, s: Option<FileState>)
    requires !Skipped(naming.kindOf(path))
    ensures var o := ProcessFile(naming, path, s, Present(disk, naming.canonical(path)));
            o.ok ==> Rests(naming, disk, path, o.state) || (o.state.None? && s.None?)
  {
    var file := Present(disk, naming.canonical(path));
    if file.Some? && naming.kindOf(path).Transcript? && file.value.opens && Offset(s) < |file.value.content| {
      var r := ReadFrom(naming.codec, file.value, Offset(s));
      if r.ok {
        ReadAgain(naming.codec, file.value, Offset(s));
      }
    }
  }

  // -------------------------------------------------------------- one walk

  /** Candidates that are the same file have the same kind and session. */
  ghost predicate Consistent(naming: Naming, candidates: seq<Path>) {
    forall p, q :: p in candidates && q in candidates && naming.canonical(p) == naming.canonical(q) ==>
                     naming.kindOf(p) == naming.kindOf(q) && naming.sessionOf(p) == naming.sessionOf(q)
  }

  /** The files among the candidates that the walk does not skip. */
  function KeysOf(naming: Naming, candidates: seq<Path>): set<Path> {
    set p | p in candidates && !Skipped(naming.kindOf(p)) :: naming.canonical(p)
  }

  /** The table has room for the candidates that come before the last, so that none is forgotten during the walk. */
  predicate RoomInside(naming: Naming, w: Watch, candidates: seq<Path>) {
    |candidates| <= 1 || |w.states.Keys + KeysOf(naming, Front(candidates))| <= MAX_WATCH_STATES
  }

  function Known(naming: Naming, w: Watch, path: Path): Option<FileState> {
    Lookup(w.states, naming.canonical(path))
  }

  /** Some candidate cannot be read from where the table has it. */
  ghost predicate WalkFails(naming: Naming, disk: Disk, w: Watch, candidates: seq<Path>) {
    exists j :: 0 <= j < |candidates| && Fails(naming, disk, candidates[j], Known(naming, w, candidates[j]))
  }

  /** The file has something past its offset, and no candidate before it cannot be read. */
  ghost predicate WalkYields(naming: Naming, disk: Disk, w: Watch, candidates: seq<Path>, key: Path) {
    exists i :: 0 <= i < |candidates| && naming.canonical(candidates[i]) == key
                && Yields(naming, disk, candidates[i], Known(naming, w, candidates[i]))
                && !WalkFails(naming, disk, w, candidates[..i])
  }

  lemma WalkFailsMore(naming: Naming, disk: Disk, w: Watch, candidates: seq<Path>)
    requires candidates != []
    ensures WalkFails(naming, disk, w, candidates) <==>
              || WalkFails(naming, disk, w, Front(candidates))
              || Fails(naming, disk, Last(candidates), Known(naming, w, Last(candidates)))
  {
    var front, n := Front(candidates), |candidates| - 1;
    assert forall j :: 0 <= j < n ==> front[j] == candidates[j];
    assert candidates[n] == Last(candidates);
  }

  lemma FrontSlices(candidates: seq<Path>)
    requires candidates != []
    ensures var front, n := Front(candidates), |candidates| - 1;
            && (forall j :: 0 <= j < n ==> front[j] == candidates[j] && front[..j] == candidates[..j])
            && candidates[n] == Last(candidates) && candidates[..n] == front
  {
  }

  lemma WalkYieldsMore(naming: Naming, disk: Disk, w: Watch, candidates: seq<Path>, key: Path)
    requires candidates != []
    ensures WalkYields(naming, disk, w, candidates, key) <==>
              || WalkYields(naming, disk, w, Front(candidates), key)
              || (&& naming.canonical(Last(candidates)) == key
                  && Yields(naming, disk, Last(candidates), Known(naming, w, Last(candidates)))
                  && !WalkFails(naming, disk, w, Front(candidates)))
  {
    FrontSlices(candidates);
  }

  /** Each entry is as it was, or its file was visited and is at rest; with eviction it may also be gone. */
  ghost predicate AsVisited(naming: Naming, disk: Disk, w: Watch, candidates: seq<Path>, m: Watch, evicting: bool) {
    forall key :: EntryAsVisited(naming, disk, w, candidates, m, evicting, key)
  }

  ghost predicate EntryAsVisited(naming: Naming, disk: Disk, w: Watch, candidates: seq<Path>, m: Watch, evicting: bool, key: Path) {
    || Lookup(m.states, key) == Lookup(w.states, key)
    || (evicting && Lookup(m.states, key) == None)
    || exists p :: p in candidates && naming.canonical(p) == key && Rests(naming, disk, p, Lookup(m.states, key))
  }

  /** A call that succeeds keeps that. */
  lemma CallVisits(naming: Naming, disk: Disk, w: Watch, front: seq<Path>, m: Watch, path: Path, w': Watch, passed: seq<Event>,
                   evicting: bool)
    requires AsVisited(naming, disk, w, front, m, evicting) && !Skipped(naming.kindOf(path))
    requires Calls(naming, m, disk, path, w', passed, true)
    requires evicting || |m.states.Keys + {naming.canonical(path)}| <= MAX_WATCH_STATES
    ensures AsVisited(naming, disk, w, front + [path], w', evicting)
  {
    var called := naming.canonical(path);
    var o := ProcessFile(naming, path, Lookup(m.states, called), Present(disk, called));
    SuccessRests(naming, disk, path, Lookup(m.states, called));
    forall key ensures EntryAsVisited(naming, disk, w, front + [path], w', evicting, key) {
      EntryAfterStore(m, disk, called, o, w', key);
      assert EntryAsVisited(naming, disk, w, front, m, evicting, key);
      assert forall p :: p in front ==> p in front + [path];
      assert path in front + [path];
    }
  }

  lemma EntryAfterStore(m: Watch, disk: Disk, called: Path, o: Outcome, w': Watch, key: Path)
    requires Stores(m, disk, called, o, w')
    ensures var stored := if called == key && o.state.Some? then o.state else Lookup(m.states, key);
            || Lookup(w'.states, key) == stored
            || (Lookup(w'.states, key) == None && |m.states.Keys + {called}| > MAX_WATCH_STATES)
  {
    if o.state.Some? {
      assert m.states[called := o.state.value].Keys == m.states.Keys + {called};
    } else {
      SubsetIsSmaller(m.states.Keys, m.states.Keys + {called});
    }
  }

  lemma SubsetIsSmaller(a: set<Path>, b: set<Path>)
    requires a <= b
    ensures |a| <= |b|
  {
    if a != {} {
      var x :| x in a;
      SubsetIsSmaller(a - {x}, b - {x});
    }
  }

  /** A walk without a failure has visited its candidates. */
  lemma {:induction false} WalkVisits(naming: Naming, disk: Disk, w: Watch, candidates: seq<Path>, m: Watch, batches: seq<Batch>,
                                      evicting: bool)
    requires WalksTo(naming, w, disk, candidates, m, batches, false)
    requires evicting || candidates == [] || |w.states.Keys + KeysOf(naming, candidates)| <= MAX_WATCH_STATES
    ensures AsVisited(naming, disk, w, candidates, m, evicting)
    ensures m.states.Keys <= w.states.Keys + KeysOf(naming, candidates)
  {
    if candidates != [] {
      var front, path := Front(candidates), Last(candidates);
      KeysOfFront(naming, w, candidates);
      var m', before, f := LastVisitOf(naming, w, disk, candidates, m, batches, false);
      WalkVisits(naming, disk, w, front, m', before, evicting);
      assert front + [path] == candidates;
      VisitOneMore(naming, disk, w, front, m', path, before, f, m, batches, evicting);
    }
  }

  lemma {:induction false} KeysOfFront(naming: Naming, w: Watch, candidates: seq<Path>)
    requires candidates != []
    ensures |w.states.Keys + KeysOf(naming, Front(candidates))| <= |w.states.Keys + KeysOf(naming, candidates)|
  {
    assert candidates == Front(candidates) + [Last(candidates)];
    KeysOfMore(naming, Front(candidates), Last(candidates));
    SubsetIsSmaller(w.states.Keys + KeysOf(naming, Front(candidates)), w.states.Keys + KeysOf(naming, candidates));
  }

  lemma VisitOneMore(naming: Naming, disk: Disk, w: Watch, front: seq<Path>, m: Watch, path: Path, before: seq<Batch>, f: bool,
                     w': Watch, batches: seq<Batch>, evicting: bool)
    requires VisitsOne(naming, m, disk, path, before, f, w', batches, false)
    requires AsVisited(naming, disk, w, front, m, evicting) && m.states.Keys <= w.states.Keys + KeysOf(naming, front)
    requires evicting || |w.states.Keys + KeysOf(naming, front + [path])| <= MAX_WATCH_STATES
    ensures AsVisited(naming, disk, w, front + [path], w', evicting)
    ensures w'.states.Keys <= w.states.Keys + KeysOf(naming, front + [path])
  {
    KeysOfMore(naming, front, path);
    if Skipped(naming.kindOf(path)) {
      VisitedMore(naming, disk, w, front, m, evicting, path);
    } else {
      var passed :| Calls(naming, m, disk, path, w', passed, true);
      CallKeys(naming, m, disk, path, w', passed, true);
      SubsetIsSmaller(m.states.Keys + {naming.canonical(path)}, w.states.Keys + KeysOf(naming, front + [path]));
      CallVisits(naming, disk, w, front, m, path, w', passed, evicting);
    }
  }

  lemma KeysOfMore(naming: Naming, front: seq<Path>, path: Path)
    ensures KeysOf(naming, front + [path])
            == KeysOf(naming, front) + if Skipped(naming.kindOf(path)) then {} else {naming.canonical(path)}
    ensures KeysOf(naming, front) <= KeysOf(naming, front + [path])
  {
    assert KeysOf(naming, front + [path])
           == KeysOf(naming, front) + if Skipped(naming.kindOf(path)) then {} else {naming.canonical(path)};
  }

  lemma CallKeys(naming: Naming, m: Watch, disk: Disk, path: Path, w': Watch, passed: seq<Event>, ok: bool)
    requires Calls(naming, m, disk, path, w', passed, ok)
    ensures w'.states.Keys <= m.states.Keys + {naming.canonical(path)}
  {
  }

  lemma VisitedMore(naming: Naming, disk: Disk, w: Watch, front: seq<Path>, m: Watch, evicting: bool, path: Path)
    requires AsVisited(naming, disk, w, front, m, evicting)
    ensures AsVisited(naming, disk, w, front + [path], m, evicting)
  {
    forall key ensures EntryAsVisited(naming, disk, w, front + [path], m, evicting, key) {
      assert EntryAsVisited(naming, disk, w, front, m, evicting, key);
      assert forall p :: p in front ==> p in front + [path];
    }
  }

  /** What the visit of one more candidate does, told by the table before the walk. */
  lemma VisitExactly(naming: Naming, disk: Disk, w: Watch, front: seq<Path>, m: Watch, path: Path, key: Path)
    requires AsVisited(naming, disk, w, front, m, false) && Consistent(naming, front + [path])
    requires !WalkFails(naming, disk, w, front)
    ensures var o := ProcessFile(naming, path, Known(naming, m, path), Present(disk, naming.canonical(path)));
            && (o.ok <==> !Fails(naming, disk, path, Known(naming, w, path)))
            && (o.passed != [] ==> Yields(naming, disk, path, Known(naming, w, path)))
            && (Yields(naming, disk, path, Known(naming, w, path)) ==>
                  o.passed != [] || WalkYields(naming, disk, w, front, naming.canonical(path)))
  {
    var called := naming.canonical(path);
    CallFailsExactlyWhen(naming, disk, path, Known(naming, w, path));
    assert EntryAsVisited(naming, disk, w, front, m, false, called);
    if Known(naming, m, path) != Known(naming, w, path) {
      var p :| p in front && naming.canonical(p) == called && Rests(naming, disk, p, Lookup(m.states, called));
      assert p in front + [path] && path in front + [path];
      SameFileSameCall(naming, disk, p, path, Known(naming, m, path));
      var i :| 0 <= i < |front| && front[i] == p;
      NoFailureBefore(naming, disk, w, front, i);
    }
  }

  lemma SameFileSameCall(naming: Naming, disk: Disk, p: Path, q: Path, s: Option<FileState>)
    requires naming.canonical(p) == naming.canonical(q)
    requires naming.kindOf(p) == naming.kindOf(q) && naming.sessionOf(p) == naming.sessionOf(q)
    ensures var file := Present(disk, naming.canonical(p)); ProcessFile(naming, p, s, file) == ProcessFile(naming, q, s, file)
    ensures forall t :: Fails(naming, disk, p, t) <==> Fails(naming, disk, q, t)
    ensures forall t :: Yields(naming, disk, p, t) <==> Yields(naming, disk, q, t)
  {
  }

  lemma NoFailureBefore(naming: Naming, disk: Disk, w: Watch, candidates: seq<Path>, i: nat)
    requires i <= |candidates| && !WalkFails(naming, disk, w, candidates)
    ensures !WalkFails(naming, disk, w, candidates[..i])
    ensures i < |candidates| ==> !Fails(naming, disk, candidates[i], Known(naming, w, candidates[i]))
  {
    assert forall j :: 0 <= j < i ==> candidates[..i][j] == candidates[j];
  }

  lemma {:induction false} VisitOutcome(naming: Naming, disk: Disk, w: Watch, front: seq<Path>, m: Watch, path: Path, before: seq<Batch>, f: bool,
                     w': Watch, batches: seq<Batch>, failed: bool, key: Path)
    requires VisitsOne(naming, m, disk, path, before, f, w', batches, failed) && Consistent(naming, front + [path])
    requires f <==> WalkFails(naming, disk, w, front)
    requires EventsFor(Deliveries(naming, before), key) != [] <==> WalkYields(naming, disk, w, front, key)
    requires !f ==> AsVisited(naming, disk, w, front, m, false)
    ensures failed <==> f || Fails(naming, disk, path, Known(naming, w, path))
    ensures EventsFor(Deliveries(naming, batches), key) != [] <==>
              || WalkYields(naming, disk, w, front, key)
              || (naming.canonical(path) == key && Yields(naming, disk, path, Known(naming, w, path)) && !f)
  {
    if !f && !Skipped(naming.kindOf(path)) {
      VisitExactly(naming, disk, w, front, m, path, key);
      var passed :| Calls(naming, m, disk, path, w', passed, !failed) && batches == before + BatchOf(path, passed);
      BatchEvents(naming, before, path, passed, key);
    }
  }

  lemma {:induction false} VisitStepExactly(naming: Naming, disk: Disk, w: Watch, candidates: seq<Path>, m: Watch, before: seq<Batch>, f: bool,
                         w': Watch, batches: seq<Batch>, failed: bool, key: Path)
    requires candidates != [] && Consistent(naming, candidates)
    requires VisitsOne(naming, m, disk, Last(candidates), before, f, w', batches, failed)
    requires f <==> WalkFails(naming, disk, w, Front(candidates))
    requires EventsFor(Deliveries(naming, before), key) != [] <==> WalkYields(naming, disk, w, Front(candidates), key)
    requires !f ==> AsVisited(naming, disk, w, Front(candidates), m, false)
    ensures failed <==> WalkFails(naming, disk, w, candidates)
    ensures EventsFor(Deliveries(naming, batches), key) != [] <==> WalkYields(naming, disk, w, candidates, key)
  {
    assert candidates == Front(candidates) + [Last(candidates)];
    VisitOutcome(naming, disk, w, Front(candidates), m, Last(candidates), before, f, w', batches, failed, key);
    WalkFailsMore(naming, disk, w, candidates);
    WalkYieldsMore(naming, disk, w, candidates, key);
  }

  /**
   A walk during which nothing is forgotten fails exactly if some candidate cannot be read from where the
   table has it; and it passes events of a file exactly if that file has some past its offset and comes no
   later than the first candidate that cannot be read.
   */
  lemma {:induction false} WalkExactly(naming: Naming, disk: Disk, w: Watch, candidates: seq<Path>, w': Watch, batches: seq<Batch>,
                                       failed: bool, key: Path)
    requires WalksTo(naming, w, disk, candidates, w', batches, failed)
    requires Consistent(naming, candidates) && RoomInside(naming, w, candidates)
    ensures failed <==> WalkFails(naming, disk, w, candidates)
    ensures EventsFor(Deliveries(naming, batches), key) != [] <==> WalkYields(naming, disk, w, candidates, key)
  {
    if candidates != [] {
      var m, before, f := LastVisit(naming, disk, w, candidates, w', batches, failed);
      WalkExactly(naming, disk, w, Front(candidates), m, before, f, key);
      VisitStepExactly(naming, disk, w, candidates, m, before, f, w', batches, failed, key);
    }
  }

  /** The walk up to its last candidate, and that one's visit. */
  lemma LastVisit(naming: Naming, disk: Disk, w: Watch, candidates: seq<Path>, w': Watch, batches: seq<Batch>, failed: bool)
    returns (m: Watch, before: seq<Batch>, f: bool)
    requires candidates != [] && WalksTo(naming, w, disk, candidates, w', batches, failed)
    requires Consistent(naming, candidates) && RoomInside(naming, w, candidates)
    ensures Consistent(naming, Front(candidates)) && RoomInside(naming, w, Front(candidates))
    ensures WalksTo(naming, w, disk, Front(candidates), m, before, f)
    ensures VisitsOne(naming, m, disk, Last(candidates), before, f, w', batches, failed)
    ensures !f ==> AsVisited(naming, disk, w, Front(candidates), m, false)
  {
    RoomBefore(naming, w, candidates);
    ConsistentBefore(naming, candidates);
    m, before, f := LastVisitOf(naming, w, disk, candidates, w', batches, failed);
    if !f {
      FrontVisited(naming, disk, w, Front(candidates), m, before);
    }
  }

  lemma {:induction false} FrontVisited(naming: Naming, disk: Disk, w: Watch, front: seq<Path>, m: Watch, before: seq<Batch>)
    requires WalksTo(naming, w, disk, front, m, before, false)
    requires front == [] || |w.states.Keys + KeysOf(naming, front)| <= MAX_WATCH_STATES
    ensures AsVisited(naming, disk, w, front, m, false)
  {
    WalkVisits(naming, disk, w, front, m, before, false);
  }

  lemma ConsistentBefore(naming: Naming, candidates: seq<Path>)
    requires candidates != [] && Consistent(naming, candidates)
    ensures Consistent(naming, Front(candidates))
  {
    assert forall p :: p in Front(candidates) ==> p in candidates;
  }

  lemma RoomBefore(naming: Naming, w: Watch, candidates: seq<Path>)
    requires candidates != [] && RoomInside(naming, w, candidates)
    ensures RoomInside(naming, w, Front(candidates))
    ensures Front(candidates) == [] || |w.states.Keys + KeysOf(naming, Front(candidates))| <= MAX_WATCH_STATES
  {
    var front := Front(candidates);
    if |front| > 1 {
      assert front == Front(front) + [Last(front)];
      KeysOfMore(naming, Front(front), Last(front));
      SubsetIsSmaller(w.states.Keys + KeysOf(naming, Front(front)), w.states.Keys + KeysOf(naming, front));
    }
  }

  // ---------------------------------------------- walks that may evict

  /** Some candidate cannot be read from where the table has it, or from the start. */
  ghost predicate MayFail(naming: Naming, disk: Disk, w: Watch, candidates: seq<Path>) {
    exists p :: p in candidates && (Fails(naming, disk, p, Known(naming, w, p)) || Fails(naming, disk, p, None))
  }

  ghost predicate MayYield(naming: Naming, disk: Disk, w: Watch, candidates: seq<Path>, key: Path) {
    exists p :: p in candidates && naming.canonical(p) == key
                && (Yields(naming, disk, p, Known(naming, w, p)) || Yields(naming, disk, p, None))
  }

  lemma VisitAtMost(naming: Naming, disk: Disk, w: Watch, front: seq<Path>, m: Watch, path: Path)
    requires AsVisited(naming, disk, w, front, m, true) && Consistent(naming, front + [path])
    ensures var o := ProcessFile(naming, path, Known(naming, m, path), Present(disk, naming.canonical(path)));
            && (o.ok || Fails(naming, disk, path, Known(naming, w, path)) || Fails(naming, disk, path, None))
            && (o.passed == [] || Yields(naming, disk, path, Known(naming, w, path)) || Yields(naming, disk, path, None))
  {
    var called := naming.canonical(path);
    CallFailsExactlyWhen(naming, disk, path, Known(naming, m, path));
    assert EntryAsVisited(naming, disk, w, front, m, true, called);
    if Known(naming, m, path) != Known(naming, w, path) && Known(naming, m, path) != None {
      var p :| p in front && naming.canonical(p) == called && Rests(naming, disk, p, Lookup(m.states, called));
      assert p in front + [path] && path in front + [path];
      SameFileSameCall(naming, disk, p, path, Known(naming, m, path));
    }
  }

  lemma {:induction false} VisitStepAtMost(naming: Naming, disk: Disk, w: Watch, front: seq<Path>, m: Watch, path: Path, before: seq<Batch>, f: bool,
                        w': Watch, batches: seq<Batch>, failed: bool, key: Path)
    requires VisitsOne(naming, m, disk, path, before, f, w', batches, failed) && Consistent(naming, front + [path])
    requires !f ==> AsVisited(naming, disk, w, front, m, true)
    ensures failed ==> f || Fails(naming, disk, path, Known(naming, w, path)) || Fails(naming, disk, path, None)
    ensures EventsFor(Deliveries(naming, batches), key) != [] ==>
              || EventsFor(Deliveries(naming, before), key) != []
              || (&& naming.canonical(path) == key
                  && (Yields(naming, disk, path, Known(naming, w, path)) || Yields(naming, disk, path, None)))
  {
    if !f && !Skipped(naming.kindOf(path)) {
      VisitAtMost(naming, disk, w, front, m, path);
      var passed :| Calls(naming, m, disk, path, w', passed, !failed) && batches == before + BatchOf(path, passed);
      BatchEvents(naming, before, path, passed, key);
    }
  }

  lemma MayFailMore(naming: Naming, disk: Disk, w: Watch, candidates: seq<Path>, key: Path)
    requires candidates != []
    ensures var path := Last(candidates);
            && (MayFail(naming, disk, w, Front(candidates)) ==> MayFail(naming, disk, w, candidates))
            && (Fails(naming, disk, path, Known(naming, w, path)) ==> MayFail(naming, disk, w, candidates))
            && (Fails(naming, disk, path, None) ==> MayFail(naming, disk, w, candidates))
    ensures var path := Last(candidates);
            && (MayYield(naming, disk, w, Front(candidates), key) ==> MayYield(naming, disk, w, candidates, key))
            && (naming.canonical(path) == key && Yields(naming, disk, path, Known(naming, w, path)) ==>
                  MayYield(naming, disk, w, candidates, key))
            && (naming.canonical(path) == key && Yields(naming, disk, path, None) ==> MayYield(naming, disk, w, candidates, key))
  {
    assert Last(candidates) in candidates && forall p :: p in Front(candidates) ==> p in candidates;
  }

  /** Any walk fails, and passes events, only if some candidate may, from its offset or from the start. */
  lemma {:induction false} WalkAtMost(naming: Naming, disk: Disk, w: Watch, candidates: seq<Path>, w': Watch, batches: seq<Batch>,
                                      failed: bool, key: Path)
    requires WalksTo(naming, w, disk, candidates, w', batches, failed) && Consistent(naming, candidates)
    ensures failed ==> MayFail(naming, disk, w, candidates)
    ensures EventsFor(Deliveries(naming, batches), key) != [] ==> MayYield(naming, disk, w, candidates, key)
  {
    if candidates != [] {
      var front, path := Front(candidates), Last(candidates);
      assert candidates == front + [path];
      var m, before, f := LastVisitOf(naming, w, disk, candidates, w', batches, failed);
      ConsistentBefore(naming, candidates);
      WalkAtMost(naming, disk, w, front, m, before, f, key);
      if !f {
        WalkVisits(naming, disk, w, front, m, before, true);
      }
      VisitStepAtMost(naming, disk, w, front, m, path, before, f, w', batches, failed, key);
      MayFailMore(naming, disk, w, candidates, key);
    }
  }

  // ------------------------------------------------------------ whole runs

  /** The notification loses events of the file: it fails, on this disk and with this table, and passes some. */
  ghost predicate Loses(naming: Naming, w: World, a: Action, key: Path) {
    a.Notify? && WalkFails(naming, w.disk, w.watch, a.candidates) && WalkYields(naming, w.disk, w.watch, a.candidates, key)
  }

  ghost predicate MayLose(naming: Naming, w: World, a: Action, key: Path) {
    a.Notify? && MayFail(naming, w.disk, w.watch, a.candidates) && MayYield(naming, w.disk, w.watch, a.candidates, key)
  }

  /** Of one file, a step delivers all the events that it passes, or drops them all. */
  lemma StepDelivers(naming: Naming, w: World, a: Action, w': World, key: Path) returns (more: seq<Event>, dropped: bool)
    requires Steps(naming, w, a, w')
    ensures EventsFor(w'.passed, key) == EventsFor(w.passed, key) + more
    ensures EventsFor(w'.delivered, key) == EventsFor(w.delivered, key) + if dropped then [] else more
    ensures dropped ==> more != []
    ensures a.Notify? && Consistent(naming, a.candidates) ==> (dropped ==> MayLose(naming, w, a, key))
    ensures a.Notify? && Consistent(naming, a.candidates) && RoomInside(naming, w.watch, a.candidates) ==>
              (dropped <==> Loses(naming, w, a, key))
    ensures a.Change? ==> !dropped
  {
    more, dropped := [], false;
    if a.Notify? {
      var batches, failed :| Notified(naming, w, a.candidates, w', batches, failed);
      more := EventsFor(Deliveries(naming, batches), key);
      dropped := failed && more != [];
      EventsForConcat(w.passed, Deliveries(naming, batches), key);
      EventsForConcat(w.delivered, Deliveries(naming, batches), key);
      LosesExactly(naming, w, a, w', batches, failed, key);
    } else {
      assert EventsFor(w.passed, key) + [] == EventsFor(w.passed, key);
      assert EventsFor(w.delivered, key) + [] == EventsFor(w.delivered, key);
    }
  }

  lemma {:induction false} LosesExactly(naming: Naming, w: World, a: Action, w': World, batches: seq<Batch>, failed: bool, key: Path)
    requires a.Notify? && Notified(naming, w, a.candidates, w', batches, failed)
    ensures var dropped := failed && EventsFor(Deliveries(naming, batches), key) != [];
            Consistent(naming, a.candidates) ==>
              && (dropped ==> MayLose(naming, w, a, key))
              && (RoomInside(naming, w.watch, a.candidates) ==> (dropped <==> Loses(naming, w, a, key)))
  {
    if Consistent(naming, a.candidates) {
      WalkAtMost(naming, w.disk, w.watch, a.candidates, w'.watch, batches, failed, key);
      if RoomInside(naming, w.watch, a.candidates) {
        WalkExactly(naming, w.disk, w.watch, a.candidates, w'.watch, batches, failed, key);
      }
    }
  }

  lemma AppendedEqual<T>(a: seq<T>, b: seq<T>, more: seq<T>, dropped: bool)
    requires |a| <= |b| && (|a| == |b| ==> a == b) && (dropped ==> more != [])
    ensures var a', b' := a + (if dropped then [] else more), b + more;
            |a'| <= |b'| && (|a'| == |b'| <==> |a| == |b| && !dropped) && (a' == b' <==> a == b && !dropped)
  {
    var a', b' := a + (if dropped then [] else more), b + more;
    if a' == b' && !dropped {
      assert a == a'[..|a|] && b == b'[..|b|];
    }
  }

  ghost predicate Settled(naming: Naming, ws: seq<World>, actions: seq<Action>) {
    && Runs(naming, ws, actions)
    && forall i :: 0 <= i < |actions| && actions[i].Notify? ==> Consistent(naming, actions[i].candidates)
  }

  /** No notification is for so many files that one may be forgotten while it is handled. */
  predicate NoneForgottenInside(naming: Naming, ws: seq<World>, actions: seq<Action>)
    requires |ws| == |actions| + 1
  {
    forall i :: 0 <= i < |actions| && actions[i].Notify? ==> RoomInside(naming, ws[i].watch, actions[i].candidates)
  }

  /**
   All events of a file that the offsets pass are delivered, in order, if and only if no notification on the
   way finds a candidate that cannot be read after having passed events of the file, that candidate's included.
   */
  lemma {:induction false} DeliveredExactlyWhen(naming: Naming, ws: seq<World>, actions: seq<Action>, key: Path)
    requires Settled(naming, ws, actions) && NoneForgottenInside(naming, ws, actions)
    requires EventsFor(ws[0].delivered, key) == EventsFor(ws[0].passed, key)
    ensures var delivered, passed := EventsFor(Last(ws).delivered, key), EventsFor(Last(ws).passed, key);
            && (delivered == passed <==> forall i :: 0 <= i < |actions| ==> !Loses(naming, ws[i], actions[i], key))
            && |delivered| <= |passed| && (|delivered| == |passed| ==> delivered == passed)
  {
    if actions != [] {
      var w := LastStepOf(naming, ws, actions);
      SettledBefore(naming, ws, actions);
      DeliveredExactlyWhen(naming, Front(ws), Front(actions), key);
      var more, dropped := StepDelivers(naming, w, Last(actions), Last(ws), key);
      AppendedEqual(EventsFor(w.delivered, key), EventsFor(w.passed, key), more, dropped);
      NoneLosesMore(naming, ws, actions, key);
    }
  }

  lemma SettledBefore(naming: Naming, ws: seq<World>, actions: seq<Action>)
    requires Settled(naming, ws, actions) && actions != []
    ensures Settled(naming, Front(ws), Front(actions)) && Front(ws)[0] == ws[0] && Last(Front(ws)) == ws[|actions| - 1]
    ensures NoneForgottenInside(naming, ws, actions) ==> NoneForgottenInside(naming, Front(ws), Front(actions))
  {
  }

  lemma NoneLosesMore(naming: Naming, ws: seq<World>, actions: seq<Action>, key: Path)
    requires |ws| == |actions| + 1 && actions != []
    ensures (forall i :: 0 <= i < |actions| ==> !Loses(naming, ws[i], actions[i], key)) <==>
              && (forall i :: 0 <= i < |Front(actions)| ==> !Loses(naming, Front(ws)[i], Front(actions)[i], key))
              && !Loses(naming, ws[|actions| - 1], actions[|actions| - 1], key)
  {
    assert forall i :: 0 <= i < |Front(actions)| ==> Front(ws)[i] == ws[i] && Front(actions)[i] == actions[i];
  }

  /** With evictions inside notifications: all is delivered if none finds a candidate that may fail and one that may yield. */
  lemma {:induction false} DeliveredUnlessMayLose(naming: Naming, ws: seq<World>, actions: seq<Action>, key: Path)
    requires Settled(naming, ws, actions) && EventsFor(ws[0].delivered, key) == EventsFor(ws[0].passed, key)
    requires forall i :: 0 <= i < |actions| ==> !MayLose(naming, ws[i], actions[i], key)
    ensures EventsFor(Last(ws).delivered, key) == EventsFor(Last(ws).passed, key)
  {
    if actions != [] {
      var w := LastStepOf(naming, ws, actions);
      DeliveredUnlessMayLose(naming, Front(ws), Front(actions), key);
      var more, dropped := StepDelivers(naming, w, Last(actions), Last(ws), key);
    }
  }

  /**
   Every complete line before the offset is delivered, once and in order, if and only if no read fails behind
   a line of the file that was passed with it: for a transcript that was never forgotten.
   */
  lemma {:induction false} EveryLineOnceExactlyWhen(naming: Naming, ws: seq<World>, actions: seq<Action>, key: Path)
    requires Settled(naming, ws, actions) && NoneForgottenInside(naming, ws, actions)
    requires TranscriptOnly(naming, key) && KeyCaught(naming, ws[0], key)
    requires EventsFor(ws[0].delivered, key) == EventsFor(ws[0].passed, key)
    requires key !in Last(ws).watch.forgotten
    ensures var w := Last(ws);
            var offset := Offset(Lookup(w.watch.states, key));
            && offset <= |Content(w.disk, key)|
            && (EventsFor(w.delivered, key) == HeardTo(naming.codec, Content(w.disk, key), offset) <==>
                  forall i :: 0 <= i < |actions| ==> !Loses(naming, ws[i], actions[i], key))
  {
    EveryRunPassesCompleteLines(naming, ws, actions, key);
    DeliveredExactlyWhen(naming, ws, actions, key);
  }

  /** The events passed of a file are, as a set, those of all its complete lines; if never forgotten, those in order. */
  ghost predicate PassedWhole(naming: Naming, w: World, key: Path) {
    var heard, events := Heard(naming.codec, "", Content(w.disk, key)), EventsFor(w.passed, key);
    && (forall e :: e in events <==> e in heard)
    && (key !in w.watch.forgotten ==> events == heard)
  }

  /**
   Right after a notification of a transcript that can be read, the lines that the run passed of it are, as a
   set, all its complete lines; and if it was never forgotten, they are those lines, once each and in order.
   */
  lemma NotifiedFileIsReadToTheEnd(naming: Naming, ws: seq<World>, actions: seq<Action>, path: Path)
    requires var key := naming.canonical(path);
             Runs(naming, ws, actions) && TranscriptOnly(naming, key) && KeyCaught(naming, ws[0], key)
    requires naming.kindOf(path).Transcript? && actions != [] && Last(actions) == Notify([path])
    requires var w := ws[|actions| - 1];
             Present(w.disk, naming.canonical(path)).Some? && !Fails(naming, w.disk, path, Known(naming, w.watch, path))
    ensures PassedWhole(naming, Last(ws), naming.canonical(path))
  {
    var w := LastStepOf(naming, ws, actions);
    EveryRunPassesCompleteLines(naming, Front(ws), Front(actions), naming.canonical(path));
    NotificationReadsToTheEnd(naming, w, path, Last(ws));
  }

  lemma LastStepOf(naming: Naming, ws: seq<World>, actions: seq<Action>) returns (w: World)
    requires Runs(naming, ws, actions) && actions != []
    ensures Runs(naming, Front(ws), Front(actions)) && Front(ws)[0] == ws[0]
    ensures w == Last(Front(ws)) == ws[|actions| - 1] && Steps(naming, w, Last(actions), Last(ws))
  {
    w := ws[|actions| - 1];
  }

  lemma NotificationReadsToTheEnd(naming: Naming, w: World, path: Path, w': World)
    requires KeyCaught(naming, w, naming.canonical(path)) && Steps(naming, w, Notify([path]), w')
    requires naming.kindOf(path).Transcript? && Present(w.disk, naming.canonical(path)).Some?
    requires !Fails(naming, w.disk, path, Known(naming, w.watch, path))
    ensures PassedWhole(naming, w', naming.canonical(path))
  {
    var key, s := naming.canonical(path), Known(naming, w.watch, path);
    var content := Content(w.disk, key);
    var batches, failed :| Notified(naming, w, [path], w', batches, failed);
    var passed := OnlyCall(naming, w.watch, w.disk, path, w'.watch, batches, failed);
    assert passed == HeardFrom(naming.codec, content, Offset(s), CompleteEnd(content)) by {
      CallFailsExactlyWhen(naming, w.disk, path, s);
      ReadPasses(naming.codec, s, naming.sessionOf(path), Present(w.disk, key), content);
    }
    OnlyBatch(naming, w.passed, path, passed, key);
    ReadsOn(naming, w.disk, path, s);
    PassedToTheEnd(naming.codec, content, s, EventsFor(w.passed, key), key in w.watch.forgotten);
    assert key in w.watch.forgotten ==> key in w'.watch.forgotten;
  }

  lemma ReadsOn(naming: Naming, disk: Disk, path: Path, s: Option<FileState>)
    requires naming.kindOf(path).Transcript? && Present(disk, naming.canonical(path)).Some?
    requires AtLineStart(Content(disk, naming.canonical(path)), Offset(s)) && !Fails(naming, disk, path, s)
    ensures Offset(s) <= CompleteEnd(Content(disk, naming.canonical(path)))
  {
    PassesBehindOffset(naming, disk, path, s, LineEvent(""));
  }

  lemma {:induction false} OneBatchEvents(naming: Naming, path: Path, passed: seq<Event>, key: Path)
    ensures EventsFor(Deliveries(naming, BatchOf(path, passed)), key) == Share(naming, path, passed, key)
  {
    BatchEvents(naming, [], path, passed, key);
    assert [] + BatchOf(path, passed) == BatchOf(path, passed);
    assert EventsFor(Deliveries(naming, []), key) == [] && [] + Share(naming, path, passed, key) == Share(naming, path, passed, key);
  }

  lemma {:induction false} OnlyBatch(naming: Naming, log: seq<Delivery>, path: Path, passed: seq<Event>, key: Path)
    requires naming.canonical(path) == key
    ensures EventsFor(log + Deliveries(naming, BatchOf(path, passed)), key) == EventsFor(log, key) + passed
  {
    EventsForConcat(log, Deliveries(naming, BatchOf(path, passed)), key);
    OneBatchEvents(naming, path, passed, key);
  }

  lemma {:induction false} PassedToTheEnd(codec: Codec, content: string, s: Option<FileState>, events: seq<Event>, forgotten: bool)
    requires Caught(codec, content, s, events, forgotten) && Offset(s) <= CompleteEnd(content)
    ensures var all := events + HeardFrom(codec, content, Offset(s), CompleteEnd(content));
            && (forall e :: e in all <==> e in Heard(codec, "", content))
            && (!forgotten ==> all == Heard(codec, "", content))
  {
    var end := CompleteEnd(content);
    var mark :| PassedUpTo(codec, content, events, mark) && Offset(s) <= mark;
    NoLineStartBehind(content, mark);
    MarkMoves(codec, content, events, Offset(s), mark, end);
    HeardBetween(codec, content, Offset(s), end);
    NothingPastTheEnd(content);
  }

  lemma {:induction false} NoLineStartBehind(content: string, mark: nat)
    requires AtLineStart(content, mark)
    ensures mark <= CompleteEnd(content)
  {
    var end := CompleteEnd(content);
    assert forall k :: end <= k < |content| ==> content[end..][k - end] == content[k];
  }

  lemma OnlyCall(naming: Naming, m: Watch, disk: Disk, path: Path, w': Watch, batches: seq<Batch>, failed: bool)
    returns (passed: seq<Event>)
    requires !Skipped(naming.kindOf(path)) && WalksTo(naming, m, disk, [path], w', batches, failed)
    ensures Calls(naming, m, disk, path, w', passed, !failed) && batches == BatchOf(path, passed)
  {
    assert Front([path]) == [];
    passed :| Calls(naming, m, disk, path, w', passed, !failed) && batches == [] + BatchOf(path, passed);
  }

  // ---------------------------------------- which events, with forgetting

  /** The call passes the event. */
  ghost predicate Passes(naming: Naming, disk: Disk, path: Path, s: Option<FileState>, e: Event) {
    e in ProcessFile(naming, path, s, Present(disk, naming.canonical(path))).passed
  }

  /** A call for a transcript that can be read passes the events of its complete lines behind the offset. */
  lemma PassesBehindOffset(naming: Naming, disk: Disk, path: Path, s: Option<FileState>, e: Event)
    requires naming.kindOf(path).Transcript? && Present(disk, naming.canonical(path)).Some?
    requires var content := Content(disk, naming.canonical(path)); AtLineStart(content, Offset(s))
    requires !Fails(naming, disk, path, s)
    ensures var content := Content(disk, naming.canonical(path));
            && Offset(s) <= CompleteEnd(content)
            && (Passes(naming, disk, path, s, e) <==> e in HeardFrom(naming.codec, content, Offset(s), CompleteEnd(content)))
  {
    var key := naming.canonical(path);
    CallFailsExactlyWhen(naming, disk, path, s);
    ReadPasses(naming.codec, s, naming.sessionOf(path), Present(disk, key), Content(disk, key));
  }

  /** Some candidate that is the file passes the event from its offset, and no candidate before it fails. */
  ghost predicate WalkPasses(naming: Naming, disk: Disk, w: Watch, candidates: seq<Path>, key: Path, e: Event) {
    exists i :: 0 <= i < |candidates| && naming.canonical(candidates[i]) == key
                && Passes(naming, disk, candidates[i], Known(naming, w, candidates[i]), e)
                && !WalkFails(naming, disk, w, candidates[..i])
  }

  lemma WalkPassesMore(naming: Naming, disk: Disk, w: Watch, candidates: seq<Path>, key: Path, e: Event)
    requires candidates != []
    ensures WalkPasses(naming, disk, w, candidates, key, e) <==>
              || WalkPasses(naming, disk, w, Front(candidates), key, e)
              || (&& naming.canonical(Last(candidates)) == key
                  && Passes(naming, disk, Last(candidates), Known(naming, w, Last(candidates)), e)
                  && !WalkFails(naming, disk, w, Front(candidates)))
  {
    FrontSlices(candidates);
  }

  lemma VisitPasses(naming: Naming, disk: Disk, w: Watch, front: seq<Path>, m: Watch, path: Path, e: Event)
    requires AsVisited(naming, disk, w, front, m, false) && Consistent(naming, front + [path])
    requires !WalkFails(naming, disk, w, front)
    ensures Passes(naming, disk, path, Known(naming, m, path), e) ==> Passes(naming, disk, path, Known(naming, w, path), e)
    ensures Passes(naming, disk, path, Known(naming, w, path), e) ==>
              || Passes(naming, disk, path, Known(naming, m, path), e)
              || WalkPasses(naming, disk, w, front, naming.canonical(path), e)
  {
    var called := naming.canonical(path);
    assert EntryAsVisited(naming, disk, w, front, m, false, called);
    if Known(naming, m, path) != Known(naming, w, path) {
      var p :| p in front && naming.canonical(p) == called && Rests(naming, disk, p, Lookup(m.states, called));
      assert p in front + [path] && path in front + [path];
      SameFileSameCall(naming, disk, p, path, Known(naming, m, path));
      SameFileSameCall(naming, disk, p, path, Known(naming, w, path));
      var i :| 0 <= i < |front| && front[i] == p;
      NoFailureBefore(naming, disk, w, front, i);
    }
  }

  lemma {:induction false} VisitStepPasses(naming: Naming, disk: Disk, w: Watch, candidates: seq<Path>, m: Watch, before: seq<Batch>, f: bool,
                        w': Watch, batches: seq<Batch>, failed: bool, key: Path, e: Event)
    requires candidates != [] && Consistent(naming, candidates)
    requires VisitsOne(naming, m, disk, Last(candidates), before, f, w', batches, failed)
    requires f <==> WalkFails(naming, disk, w, Front(candidates))
    requires e in EventsFor(Deliveries(naming, before), key) <==> WalkPasses(naming, disk, w, Front(candidates), key, e)
    requires !f ==> AsVisited(naming, disk, w, Front(candidates), m, false)
    ensures e in EventsFor(Deliveries(naming, batches), key) <==> WalkPasses(naming, disk, w, candidates, key, e)
  {
    var front, path := Front(candidates), Last(candidates);
    assert candidates == front + [path];
    WalkPassesMore(naming, disk, w, candidates, key, e);
    if !f && !Skipped(naming.kindOf(path)) {
      VisitPasses(naming, disk, w, front, m, path, e);
      var passed :| Calls(naming, m, disk, path, w', passed, !failed) && batches == before + BatchOf(path, passed);
      BatchEvents(naming, before, path, passed, key);
    }
  }

  /** A walk during which nothing is forgotten passes exactly these events of a file. */
  lemma {:induction false} WalkPassesExactly(naming: Naming, disk: Disk, w: Watch, candidates: seq<Path>, w': Watch,
                                             batches: seq<Batch>, failed: bool, key: Path, e: Event)
    requires WalksTo(naming, w, disk, candidates, w', batches, failed)
    requires Consistent(naming, candidates) && RoomInside(naming, w, candidates)
    ensures e in EventsFor(Deliveries(naming, batches), key) <==> WalkPasses(naming, disk, w, candidates, key, e)
  {
    if candidates != [] {
      var m, before, f := LastVisit(naming, disk, w, candidates, w', batches, failed);
      WalkExactly(naming, disk, w, Front(candidates), m, before, f, key);
      WalkPassesExactly(naming, disk, w, Front(candidates), m, before, f, key, e);
      VisitStepPasses(naming, disk, w, candidates, m, before, f, w', batches, failed, key, e);
    }
  }

  /** The notification passes the event, and nothing that it finds cannot be read. */
  ghost predicate Hands(naming: Naming, w: World, a: Action, key: Path, e: Event) {
    && a.Notify? && WalkPasses(naming, w.disk, w.watch, a.candidates, key, e)
    && !WalkFails(naming, w.disk, w.watch, a.candidates)
  }

  lemma {:induction false} StepHands(naming: Naming, w: World, a: Action, w': World, key: Path, e: Event)
    requires Steps(naming, w, a, w')
    requires a.Notify? ==> Consistent(naming, a.candidates) && RoomInside(naming, w.watch, a.candidates)
    ensures e in EventsFor(w'.delivered, key) <==> e in EventsFor(w.delivered, key) || Hands(naming, w, a, key, e)
  {
    if a.Notify? {
      var batches, failed :| Notified(naming, w, a.candidates, w', batches, failed);
      WalkPassesExactly(naming, w.disk, w.watch, a.candidates, w'.watch, batches, failed, key, e);
      WalkExactly(naming, w.disk, w.watch, a.candidates, w'.watch, batches, failed, key);
      EventsForConcat(w.delivered, Deliveries(naming, batches), key);
    }
  }

  ghost predicate SomeHands(naming: Naming, ws: seq<World>, actions: seq<Action>, key: Path, e: Event)
    requires |ws| == |actions| + 1
  {
    exists i :: 0 <= i < |actions| && Hands(naming, ws[i], actions[i], key, e)
  }

  lemma SomeHandsMore(naming: Naming, ws: seq<World>, actions: seq<Action>, key: Path, e: Event)
    requires |ws| == |actions| + 1 && actions != []
    ensures var n := |actions| - 1;
            SomeHands(naming, ws, actions, key, e) <==>
              SomeHands(naming, Front(ws), Front(actions), key, e) || Hands(naming, ws[n], actions[n], key, e)
  {
    assert forall i :: 0 <= i < |Front(actions)| ==> Front(ws)[i] == ws[i] && Front(actions)[i] == actions[i];
  }

  /** An event of a file is delivered exactly by those notifications that pass it and do not fail. */
  lemma {:induction false} DeliveredBySome(naming: Naming, ws: seq<World>, actions: seq<Action>, key: Path, e: Event)
    requires Settled(naming, ws, actions) && NoneForgottenInside(naming, ws, actions) && EventsFor(ws[0].delivered, key) == []
    ensures e in EventsFor(Last(ws).delivered, key) <==> SomeHands(naming, ws, actions, key, e)
  {
    if actions != [] {
      var n := |actions| - 1;
      SettledBefore(naming, ws, actions);
      DeliveredBySome(naming, Front(ws), Front(actions), key, e);
      StepHands(naming, ws[n], actions[n], ws[n + 1], key, e);
      SomeHandsMore(naming, ws, actions, key, e);
    }
  }

  /** What is delivered was passed, by the same step at the latest. */
  lemma {:induction false} DeliveredWasPassed(naming: Naming, ws: seq<World>, actions: seq<Action>, key: Path, e: Event)
    requires Runs(naming, ws, actions) && EventsFor(ws[0].delivered, key) == EventsFor(ws[0].passed, key)
    ensures e in EventsFor(Last(ws).delivered, key) ==> e in EventsFor(Last(ws).passed, key)
  {
    if actions != [] {
      var w := LastStepOf(naming, ws, actions);
      DeliveredWasPassed(naming, Front(ws), Front(actions), key, e);
      var more, dropped := StepDelivers(naming, w, Last(actions), Last(ws), key);
    }
  }

  /**
   For a transcript that may have been forgotten and replayed: the lines delivered are, as a set, the complete
   lines of the prefix that was passed, if and only if each of those was passed by some notification that did not
   fail, the replay of a lost line included.
   */
  lemma EveryLineDeliveredExactlyWhen(naming: Naming, ws: seq<World>, actions: seq<Action>, key: Path) returns (mark: nat)
    requires Settled(naming, ws, actions) && NoneForgottenInside(naming, ws, actions)
    requires TranscriptOnly(naming, key) && KeyCaught(naming, ws[0], key)
    requires EventsFor(ws[0].delivered, key) == EventsFor(ws[0].passed, key) == []
    ensures var w := Last(ws);
            && PassedUpTo(naming.codec, Content(w.disk, key), EventsFor(w.passed, key), mark)
            && Offset(Lookup(w.watch.states, key)) <= mark
            && ((forall e :: e in EventsFor(w.delivered, key) <==> e in HeardTo(naming.codec, Content(w.disk, key), mark)) <==>
                  (forall e :: e in HeardTo(naming.codec, Content(w.disk, key), mark) ==> SomeHands(naming, ws, actions, key, e)))
  {
    EveryRunPassesCompleteLines(naming, ws, actions, key);
    var w := Last(ws);
    var m :| PassedUpTo(naming.codec, Content(w.disk, key), EventsFor(w.passed, key), m)
             && Offset(Lookup(w.watch.states, key)) <= m;
    mark := m;
    forall e ensures e in EventsFor(w.delivered, key) <==> SomeHands(naming, ws, actions, key, e)
             ensures e in EventsFor(w.delivered, key) ==> e in HeardTo(naming.codec, Content(w.disk, key), mark)
    {
      DeliveredBySome(naming, ws, actions, key, e);
      DeliveredWasPassed(naming, ws, actions, key, e);
    }
  }

  // ------------------------------------------------------- how a line gets lost

  lemma {:induction false} LineEndIs(s: string, i: nat, end: nat)
    requires i < end <= |s| && NEWLINE !in s[i..end - 1]
    requires s[end - 1] == NEWLINE || end == |s|
    ensures LineEnd(s, i) == end
  {
    assert forall k :: i <= k < end - 1 ==> s[i..end - 1][k - i] == s[k];
  }

  /** A complete line is read, and the character half written behind it is not. */
  lemma {:induction false} HalfCharacterStopsRead(codec: Codec, file: File, line: string, half: string)
    requires file.content == line + [NEWLINE] + half && file.faults == {}
    requires NEWLINE !in line && NEWLINE !in half && half != []
    requires codec.decodes(line + [NEWLINE]) && !codec.decodes(half)
    ensures ReadFrom(codec, file, 0) == Reading(|line| + 1, [line], false)
  {
    var content, next := file.content, |line| + 1;
    assert content[0..next - 1] == line && content[0..next] == line + [NEWLINE] && content[next..|content|] == half;
    assert forall k :: next <= k < |content| ==> content[k] == half[k - next];
    LineEndIs(content, 0, next);
    LineEndIs(content, next, |content|);
    assert ReadFrom(codec, file, next) == Reading(next, [], false);
  }

  /** Once the second line is complete, a read from behind the first takes it. */
  lemma {:induction false} CompletedLineIsRead(codec: Codec, file: File, line: string, second: string)
    requires file.content == line + [NEWLINE] + second + [NEWLINE] && file.faults == {}
    requires NEWLINE !in second && codec.decodes(second + [NEWLINE])
    ensures ReadFrom(codec, file, |line| + 1) == Reading(|file.content|, [second], true)
  {
    var content, next := file.content, |line| + 1;
    SecondLine(line, second);
    assert !Unreadable(codec, file, next) && CompleteAt(content, next) && LineAt(content, next) == second;
    NothingLeftToRead(codec, file);
    assert [second] + [] == [second];
  }

  lemma SecondLine(line: string, second: string)
    requires NEWLINE !in second
    ensures var content, next := line + [NEWLINE] + second + [NEWLINE], |line| + 1;
            && LineEnd(content, next) == |content|
            && content[next..|content| - 1] == second && content[next..|content|] == second + [NEWLINE]
  {
    var content, next := line + [NEWLINE] + second + [NEWLINE], |line| + 1;
    assert content[next..|content| - 1] == second && content[next..|content|] == second + [NEWLINE];
    LineEndIs(content, next, |content|);
  }

  lemma {:induction false} NothingLeftToRead(codec: Codec, file: File)
    requires file.faults == {}
    ensures ReadFrom(codec, file, |file.content|) == Reading(|file.content|, [], true)
  {
  }

  lemma OneVisit(naming: Naming, w: World, path: Path, w': World, passed: seq<Event>, ok: bool)
    requires !Skipped(naming.kindOf(path)) && Calls(naming, w.watch, w.disk, path, w'.watch, passed, ok) && passed != []
    requires var more := From(naming.canonical(path), passed);
             w' == World(w.disk, w'.watch, w.passed + more, if ok then w.delivered + more else w.delivered)
    ensures Steps(naming, w, Notify([path]), w')
  {
    var b := [Batch(path, passed)];
    assert Front(b) == [] && Deliveries(naming, b) == [] + From(naming.canonical(path), passed);
    assert [] + From(naming.canonical(path), passed) == From(naming.canonical(path), passed);
    assert WalksTo(naming, w.watch, w.disk, [], w.watch, [], false);
    assert [] + BatchOf(path, passed) == b && [] + [path] == [path];
    assert VisitsOne(naming, w.watch, w.disk, path, [], false, w'.watch, b, !ok);
    WalkStep(naming, w.watch, w.disk, [], w.watch, [], false, path, w'.watch, b, !ok);
    assert Notified(naming, w, [path], w', b, !ok);
  }

  function Ordinary(content: string): File {
    File(true, content, 0, true, {}, false)
  }

  function ReadBehind(sid: string, offset: nat): FileState {
    NewState(sid).(byteOffset := offset)
  }

  lemma FailedOutcome(naming: Naming, path: Path, line: string, half: string)
    requires naming.kindOf(path).Transcript? && NEWLINE !in line && NEWLINE !in half && half != []
    requires naming.codec.decodes(line + [NEWLINE]) && !naming.codec.decodes(half) && naming.codec.speaks("", line)
    ensures ProcessFile(naming, path, None, Some(Ordinary(line + [NEWLINE] + half)))
            == Outcome(Some(ReadBehind(naming.sessionOf(path), |line| + 1)), [LineEvent(line)], false, false)
  {
    HalfCharacterStopsRead(naming.codec, Ordinary(line + [NEWLINE] + half), line, half);
    var file := Ordinary(line + [NEWLINE] + half);
    assert file.content[..0] == "";
    SpokenOne(naming.codec, "", line);
    assert LineEvents([line]) == [LineEvent(line)];
  }

  /** The first read: the table keeps the offset behind the line, and the callback gets nothing. */
  lemma FailedReadStep(naming: Naming, path: Path, line: string, half: string, w: World, w': World)
    requires naming.kindOf(path).Transcript? && NEWLINE !in line && NEWLINE !in half && half != []
    requires naming.codec.decodes(line + [NEWLINE]) && !naming.codec.decodes(half) && naming.codec.speaks("", line)
    requires var key := naming.canonical(path);
             && w == World(map[key := Ordinary(line + [NEWLINE] + half)], Watch(map[], 0, multiset{}), [], [])
             && w' == w.(watch := Watch(map[key := ReadBehind(naming.sessionOf(path), |line| + 1)], 1, multiset{}),
                         passed := From(key, [LineEvent(line)]))
    ensures Steps(naming, w, Notify([path]), w')
  {
    var key := naming.canonical(path);
    FailedOutcome(naming, path, line, half);
    assert Calls(naming, w.watch, w.disk, path, w'.watch, [LineEvent(line)], false);
    assert w'.passed == w.passed + From(key, [LineEvent(line)]);
    OneVisit(naming, w, path, w', [LineEvent(line)], false);
  }

  lemma LaterReadStep(naming: Naming, path: Path, line: string, second: string, w: World, w': World)
    requires naming.kindOf(path).Transcript? && NEWLINE !in second
    requires naming.codec.decodes(second + [NEWLINE]) && naming.codec.speaks(line + [NEWLINE], second)
    requires var key, sid, content := naming.canonical(path), naming.sessionOf(path), line + [NEWLINE] + second + [NEWLINE];
             && w.disk == map[key := Ordinary(content)] && w.watch == Watch(map[key := ReadBehind(sid, |line| + 1)], 1, multiset{})
             && w' == World(w.disk, Watch(map[key := ReadBehind(sid, |content|)], 1, multiset{}),
                            w.passed + From(key, [LineEvent(second)]), w.delivered + From(key, [LineEvent(second)]))
    ensures Steps(naming, w, Notify([path]), w')
  {
    LaterOutcome(naming, path, line, second);
    assert Calls(naming, w.watch, w.disk, path, w'.watch, [LineEvent(second)], true);
    OneVisit(naming, w, path, w', [LineEvent(second)], true);
  }

  lemma LaterOutcome(naming: Naming, path: Path, line: string, second: string)
    requires naming.kindOf(path).Transcript? && NEWLINE !in second
    requires naming.codec.decodes(second + [NEWLINE]) && naming.codec.speaks(line + [NEWLINE], second)
    ensures var sid, content := naming.sessionOf(path), line + [NEWLINE] + second + [NEWLINE];
            ProcessFile(naming, path, Some(ReadBehind(sid, |line| + 1)), Some(Ordinary(content)))
            == Outcome(Some(ReadBehind(sid, |content|)), [LineEvent(second)], true, false)
  {
    var file := Ordinary(line + [NEWLINE] + second + [NEWLINE]);
    var s := ReadBehind(naming.sessionOf(path), |line| + 1);
    assert ReadFrom(naming.codec, file, s.byteOffset) == Reading(|file.content|, [second], true) by {
      CompletedLineIsRead(naming.codec, file, line, second);
    }
    assert Spoken(naming.codec, file.content[..s.byteOffset], [second]) == [second] by {
      FirstLineIs(line, second);
      SpokenOne(naming.codec, line + [NEWLINE], second);
    }
    ReadingIsOutcome(naming, path, s, file, Reading(|file.content|, [second], true), second);
  }

  lemma FirstLineIs(line: string, second: string)
    ensures (line + [NEWLINE] + second + [NEWLINE])[..|line| + 1] == line + [NEWLINE]
  {
  }

  lemma {:induction false} ReadingIsOutcome(naming: Naming, path: Path, s: FileState, file: File, r: Reading, line: string)
    requires naming.kindOf(path).Transcript? && file.opens && s.byteOffset < |file.content|
    requires r == ReadFrom(naming.codec, file, s.byteOffset)
    requires Spoken(naming.codec, file.content[..s.byteOffset], r.lines) == [line]
    ensures ProcessFile(naming, path, Some(s), Some(file))
            == Outcome(Some(s.(byteOffset := r.end)), [LineEvent(line)], r.ok, false)
  {
    assert LineEvents([line]) == [LineEvent(line)];
  }

  /**
   A new watcher and an append-only file of valid text. It is notified while a character of the second line is half
   written, and again when the line is complete. The first line is passed by a read that then fails, and is
   never delivered; nothing was walked, forgotten or missing.
   */
  lemma HalfWrittenCharacterLosesALine(naming: Naming, path: Path, line: string, half: string, rest: string) returns (ws: seq<World>)
    requires naming.kindOf(path).Transcript? && NEWLINE !in line && NEWLINE !in half && NEWLINE !in rest && half != []
    requires naming.codec.decodes(line + [NEWLINE]) && naming.codec.decodes(half + rest + [NEWLINE]) && !naming.codec.decodes(half)
    requires naming.codec.speaks("", line) && naming.codec.speaks(line + [NEWLINE], half + rest)
    ensures var key := naming.canonical(path);
            var grown := Ordinary(line + [NEWLINE] + (half + rest) + [NEWLINE]);
            && Runs(naming, ws, [Notify([path]), Change(key, grown), Notify([path])])
            && ws[0] == World(map[key := Ordinary(line + [NEWLINE] + half)], Watch(map[], 0, multiset{}), [], [])
            && EventsFor(ws[3].passed, key) == [LineEvent(line), LineEvent(half + rest)]
            && EventsFor(ws[3].delivered, key) == [LineEvent(half + rest)]
            && ws[3].watch.forgotten == multiset{}
  {
    var key, sid, second := naming.canonical(path), naming.sessionOf(path), half + rest;
    var grown := Ordinary(line + [NEWLINE] + second + [NEWLINE]);
    var one, two := From(key, [LineEvent(line)]), From(key, [LineEvent(second)]);
    var w0 := World(map[key := Ordinary(line + [NEWLINE] + half)], Watch(map[], 0, multiset{}), [], []);
    var w1 := w0.(watch := Watch(map[key := ReadBehind(sid, |line| + 1)], 1, multiset{}), passed := one);
    var w2 := w1.(disk := map[key := grown]);
    var w3 := World(w2.disk, Watch(map[key := ReadBehind(sid, |grown.content|)], 1, multiset{}), one + two, [] + two);
    FailedReadStep(naming, path, line, half, w0, w1);
    GrowthStep(naming, key, line + [NEWLINE] + half, rest + [NEWLINE], grown.content, w1, w2);
    LaterReadStep(naming, path, line, second, w2, w3);
    ws := ThreeSteps(naming, w0, Notify([path]), w1, Change(key, grown), w2, Notify([path]), w3);
    TwoEvents(key, LineEvent(line), LineEvent(second));
  }

  lemma GrowthStep(naming: Naming, key: Path, before: string, more: string, after: string, w: World, w': World)
    requires w.disk == map[key := Ordinary(before)] && w' == w.(disk := map[key := Ordinary(after)]) && after == before + more
    ensures Steps(naming, w, Change(key, Ordinary(after)), w')
  {
    assert w.disk[key := Ordinary(after)] == w'.disk;
  }

  lemma ThreeSteps(naming: Naming, w0: World, a0: Action, w1: World, a1: Action, w2: World, a2: Action, w3: World)
    returns (ws: seq<World>)
    requires Steps(naming, w0, a0, w1) && Steps(naming, w1, a1, w2) && Steps(naming, w2, a2, w3)
    ensures ws == [w0, w1, w2, w3] && Runs(naming, ws, [a0, a1, a2])
  {
    ws := [w0, w1, w2, w3];
  }

  lemma {:induction false} TwoEvents(key: Path, e: Event, e': Event)
    ensures EventsFor(From(key, [e]) + From(key, [e']), key) == [e, e'] && EventsFor([] + From(key, [e']), key) == [e']
  {
    EventsForConcat(From(key, [e]), From(key, [e']), key);
    EventsForConcat([], From(key, [e']), key);
    EventsForFrom(key, [e], key);
    EventsForFrom(key, [e'], key);
  }
}
