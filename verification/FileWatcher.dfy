/**
 Incremental file watcher (rs/src/watcher.rs): per-file read offsets in a table that is kept small by
 forgetting the files that were modified longest ago.
 */
module FileWatcher {
  import opened LineReader
  import opened Paths
  import opened Sequences
  import opened Sorting
  import opened Wrappers

  const MAX_WATCH_STATES: nat := 4096
  const WATCH_STATES_LOW_WATER: nat := 3584
  const BATCH_CHUNK_SIZE: nat := 100

  // -------------------------------------------------------- the outside world

  /** What a path is to the watcher, judged by its name and place. */
  datatype Kind = Transcript | Noise | TerminalLog | MetaJson | Attachment | Other

  predicate IsArtifact(k: Kind) {
    k.TerminalLog? || k.MetaJson? || k.Attachment?
  }

  /** How paths are classified, spelled canonically and mapped to sessions, and how lines are judged; not part of this model. */
  datatype Naming = Naming(kindOf: Path -> Kind, canonical: Path -> Path, sessionOf: Path -> string, codec: Codec)

  type Disk = map<Path, File>

  /** `seqNo` is the number given out last. */
  datatype FileState = FileState(sessionId: string, byteOffset: nat, seqNo: nat)

  datatype Event = LineEvent(text: string) | ArtifactEvent(sessionId: string, length: nat, seqNo: nat)

  datatype ReadError = ReadError

  function NewState(sessionId: string): FileState {
    FileState(sessionId, 0, 0)
  }

  function LineEvents(lines: seq<string>): seq<Event> {
    seq(|lines|, i requires 0 <= i < |lines| => LineEvent(lines[i]))
  }

  // -------------------------------------------------------- one file, one call

  /**
   What one call does: the state of its file, the events that its offset passed, whether it succeeds, and
   whether it goes on to the eviction check. The events of a call that fails are dropped.
   */
  datatype Outcome = Outcome(state: Option<FileState>, passed: seq<Event>, ok: bool, checks: bool)

  function ResultOf(passed: seq<Event>, ok: bool): Result<seq<Event>, ReadError> {
    if ok then Ok(passed) else Err(ReadError)
  }

  function ProcessTranscript(codec: Codec, s: Option<FileState>, sid: string, file: Option<File>): Outcome {
    var state := s.GetOr(NewState(sid));
    if file.None? then Outcome(Some(state), [], true, s.None?)
    else if !file.value.opens then Outcome(Some(state), [], false, false)
    else if |file.value.content| <= state.byteOffset then Outcome(Some(state), [], true, s.None?)
    else
      var r := ReadFrom(codec, file.value, state.byteOffset);
      Outcome(Some(state.(byteOffset := r.end)), LineEvents(Spoken(codec, file.value.content[..state.byteOffset], r.lines)), r.ok, r.ok && s.None?)
  }

  function ProcessArtifact(s: Option<FileState>, kind: Kind, sid: string, file: Option<File>): Outcome {
    if sid == "unknown" || sid == "" || file.None? then Outcome(s, [], true, false)
    else
      var state := s.GetOr(NewState(sid)).(sessionId := sid);
      var length := |file.value.content|;
      if length <= state.byteOffset then Outcome(Some(state), [], true, false)
      else if kind.MetaJson? && !file.value.parses then Outcome(Some(state), [], true, s.None?)
      else
        Outcome(Some(state.(byteOffset := length, seqNo := state.seqNo + 1)),
                [ArtifactEvent(sid, length, state.seqNo + 1)], true, s.None?)
  }

  function ProcessFile(naming: Naming, path: Path, s: Option<FileState>, file: Option<File>): Outcome {
    var kind, sid := naming.kindOf(path), naming.sessionOf(path);
    if IsArtifact(kind) then ProcessArtifact(s, kind, sid, file)
    else if kind.Transcript? then ProcessTranscript(naming.codec, s, sid, file)
    else Outcome(s, [], true, false)
  }

  // ---------------------------------------------------------------- eviction

  type States = map<Path, FileState>

  function Lookup<T>(m: map<Path, T>, p: Path): Option<T> {
    if p in m then Some(m[p]) else None
  }

  /** The file that is there just now. */
  function Present(disk: Disk, p: Path): Option<File> {
    if p in disk && disk[p].present then Some(disk[p]) else None
  }

  /** A file whose metadata cannot be read counts as modified at the epoch. */
  function Mtime(disk: Disk, p: Path): nat {
    match Present(disk, p)
    case Some(file) => file.mtime
    case None => 0
  }

  /** Over the cap, the longest-unmodified entries go until the low-water mark is reached; nothing else changes. */
  ghost predicate Evicts(states: States, disk: Disk, cap: nat, lowWater: nat, states': States) {
    if |states| <= cap then states' == states
    else
      && states'.Keys <= states.Keys && (forall p :: p in states' ==> states'[p] == states[p])
      && |states'| == (if lowWater < |states| then lowWater else |states|)
      && forall p, q :: p in states' && q in states.Keys - states'.Keys ==> Mtime(disk, q) <= Mtime(disk, p)
  }

  /**
   The watcher's table. `early` counts the insertions that left before the eviction check since the last
   one that reached it, and `forgotten` holds every file as often as it was evicted.
   */
  datatype Watch = Watch(states: States, early: nat, forgotten: multiset<Path>)

  /** The table after a call, given what the call did to its file. */
  ghost predicate Stores(w: Watch, disk: Disk, key: Path, o: Outcome, w': Watch) {
    var stored := StoredStates(w, key, o);
    && w'.forgotten == w.forgotten + multiset(stored.Keys - w'.states.Keys)
    && if o.checks then Evicts(stored, disk, MAX_WATCH_STATES, WATCH_STATES_LOW_WATER, w'.states) && w'.early == 0
       else w'.states == stored && w'.early == w.early + if o.state.Some? && key !in w.states then 1 else 0
  }

  function StoredStates(w: Watch, key: Path, o: Outcome): States {
    if o.state.Some? then w.states[key := o.state.value] else w.states
  }

  lemma StoredPlainly(w: Watch, disk: Disk, key: Path, o: Outcome, w': Watch)
    requires (!o.checks || |StoredStates(w, key, o)| <= MAX_WATCH_STATES) && w'.states == StoredStates(w, key, o)
    requires w'.early == if o.checks then 0 else w.early + if o.state.Some? && key !in w.states then 1 else 0
    requires w'.forgotten == w.forgotten
    ensures Stores(w, disk, key, o, w')
  {
    assert w'.states.Keys - w'.states.Keys == {};
    assert w.forgotten + multiset{} == w.forgotten;
  }

  lemma StoredAndChecked(w: Watch, disk: Disk, key: Path, o: Outcome, w': Watch)
    requires o.checks && w'.early == 0
    requires Evicts(StoredStates(w, key, o), disk, MAX_WATCH_STATES, WATCH_STATES_LOW_WATER, w'.states)
    requires w'.forgotten == w.forgotten + multiset(StoredStates(w, key, o).Keys - w'.states.Keys)
    ensures Stores(w, disk, key, o, w')
  {
  }

  ghost predicate Calls(naming: Naming, w: Watch, disk: Disk, path: Path, w': Watch, passed: seq<Event>, ok: bool) {
    var key := naming.canonical(path);
    var o := ProcessFile(naming, path, Lookup(w.states, key), Present(disk, key));
    passed == o.passed && ok == o.ok && Stores(w, disk, key, o, w')
  }

  /** What a call forgets it evicts. */
  lemma {:induction false} ForgottenIsEvicted(w: Watch, disk: Disk, key: Path, o: Outcome, w': Watch, gone: Path)
    requires Stores(w, disk, key, o, w') && w'.forgotten[gone] > w.forgotten[gone]
    ensures var stored := StoredStates(w, key, o);
            && gone in stored && gone !in w'.states && |stored| > MAX_WATCH_STATES
            && Evicts(stored, disk, MAX_WATCH_STATES, WATCH_STATES_LOW_WATER, w'.states)
  {
    var stored := StoredStates(w, key, o);
    assert gone in multiset(stored.Keys - w'.states.Keys);
  }

  lemma StoringAddsOne(w: Watch, key: Path, o: Outcome)
    ensures |StoredStates(w, key, o)| <= |w.states| + 1
  {
    if o.state.Some? {
      assert StoredStates(w, key, o).Keys == w.states.Keys + {key};
    }
  }

  /**
   What a call forgets, if anything: it leaves 3584 files, and no file forgotten was modified later than one kept;
   files that are gone count as oldest.
   */
  lemma {:induction false} CallForgetsOldest(naming: Naming, w: Watch, disk: Disk, path: Path, w': Watch, passed: seq<Event>, ok: bool,
                                             gone: Path, kept: Path)
    requires Calls(naming, w, disk, path, w', passed, ok) && w'.forgotten[gone] > w.forgotten[gone]
    ensures gone !in w'.states && |w'.states| == 3584 && |w.states| >= 4096
    ensures kept in w'.states && gone in disk && disk[gone].present ==>
              disk[gone].mtime <= if kept in disk && disk[kept].present then disk[kept].mtime else 0
  {
    var key := naming.canonical(path);
    var o := ProcessFile(naming, path, Lookup(w.states, key), Present(disk, key));
    ForgottenIsEvicted(w, disk, key, o, w', gone);
    StoringAddsOne(w, key, o);
    if kept in w'.states {
      assert Mtime(disk, gone) <= Mtime(disk, kept);
    }
  }

  predicate Bounded(w: Watch) {
    |w.states| <= MAX_WATCH_STATES + w.early
  }

  /**
   The table never holds more than the cap plus the insertions that left early (a failed open or read, an
   empty artifact) since the last insertion that went on to the eviction check.
   */
  lemma {:induction false} BoundIsKept(naming: Naming, w: Watch, disk: Disk, path: Path, w': Watch, passed: seq<Event>, ok: bool)
    requires Bounded(w) && Calls(naming, w, disk, path, w', passed, ok)
    ensures Bounded(w')
    ensures w'.states.Keys - w.states.Keys != {} && w'.early <= w.early ==> |w'.states| <= MAX_WATCH_STATES
  {
    var key := naming.canonical(path);
    StoringIsBounded(w, disk, key, ProcessFile(naming, path, Lookup(w.states, key), Present(disk, key)), w');
  }

  lemma StoringIsBounded(w: Watch, disk: Disk, key: Path, o: Outcome, w': Watch)
    requires Bounded(w) && Stores(w, disk, key, o, w')
    ensures Bounded(w')
    ensures w'.states.Keys - w.states.Keys != {} && w'.early <= w.early ==> |w'.states| <= MAX_WATCH_STATES
  {
    if o.state.Some? {
      assert w.states[key := o.state.value].Keys == w.states.Keys + {key};
    }
  }

  datatype Stamped = Stamped(path: Path, mtime: int)

  function Stamp(f: Stamped): int {
    f.mtime
  }

  function PathsOf(stamped: seq<Stamped>): (paths: set<Path>) {
    set f | f in stamped :: f.path
  }

  ghost predicate DistinctPaths(stamped: seq<Stamped>) {
    forall i, j :: 0 <= i < j < |stamped| ==> stamped[i].path != stamped[j].path
  }

  lemma {:induction false} CountPaths(stamped: seq<Stamped>)
    requires DistinctPaths(stamped)
    ensures |PathsOf(stamped)| == |stamped|
  {
    if stamped != [] {
      CountPaths(Front(stamped));
      assert stamped == Front(stamped) + [Last(stamped)];
      PathsOfMore(Front(stamped), Last(stamped));
    }
  }

  lemma PathsOfMore(stamped: seq<Stamped>, f: Stamped)
    ensures PathsOf(stamped + [f]) == PathsOf(stamped) + {f.path}
    ensures |PathsOf(stamped + [f])| == |PathsOf(stamped)| + if f.path in PathsOf(stamped) then 0 else 1
  {
    assert PathsOf(stamped + [f]) == PathsOf(stamped) + {f.path};
  }

  lemma DistinctMore(stamped: seq<Stamped>, f: Stamped)
    requires DistinctPaths(stamped) && f.path !in PathsOf(stamped)
    ensures DistinctPaths(stamped + [f])
  {
    assert forall i :: 0 <= i < |stamped| ==> stamped[i] in stamped;
  }

  lemma {:induction false} AsManyPathsAsStampsAreDistinct(stamped: seq<Stamped>)
    ensures |PathsOf(stamped)| <= |stamped|
    ensures |PathsOf(stamped)| == |stamped| ==> DistinctPaths(stamped)
  {
    if stamped != [] {
      var front, f := Front(stamped), Last(stamped);
      assert stamped == front + [f];
      AsManyPathsAsStampsAreDistinct(front);
      PathsOfMore(front, f);
      if |PathsOf(stamped)| == |stamped| {
        DistinctMore(front, f);
      }
    }
  }

  /** Sorting keeps every stamp, so distinct paths stay distinct. */
  lemma {:induction false} SortKeepsPaths(stamped: seq<Stamped>)
    requires DistinctPaths(stamped)
    ensures var sorted := SortByKey(stamped, Stamp);
            && DistinctPaths(sorted) && PathsOf(sorted) == PathsOf(stamped) && |sorted| == |stamped|
            && forall f :: f in sorted <==> f in stamped
  {
    var sorted := SortByKey(stamped, Stamp);
    assert |sorted| == |multiset(sorted)| == |multiset(stamped)| == |stamped|;
    assert forall f :: f in sorted <==> f in multiset(sorted);
    assert forall f :: f in stamped <==> f in multiset(stamped);
    CountPaths(stamped);
    assert PathsOf(sorted) == PathsOf(stamped);
    AsManyPathsAsStampsAreDistinct(sorted);
  }

  /** The stamps of all entries, in the map's arbitrary order. */
  method StampAll(states: States, disk: Disk) returns (stamped: seq<Stamped>)
    ensures DistinctPaths(stamped) && PathsOf(stamped) == states.Keys && |stamped| == |states|
    ensures forall f :: f in stamped ==> f.mtime == Mtime(disk, f.path)
  {
    stamped := [];
    var rest := states.Keys;
    while rest != {}
      invariant rest <= states.Keys && PathsOf(stamped) == states.Keys - rest && DistinctPaths(stamped)
      invariant forall f :: f in stamped ==> f.mtime == Mtime(disk, f.path)
      decreases rest
    {
      var p := Choose(rest);
      rest := rest - {p};
      assert forall f :: f in stamped ==> f.path in PathsOf(stamped);
      ghost var before := stamped;
      stamped := stamped + [Stamped(p, Mtime(disk, p))];
      assert PathsOf(stamped) == PathsOf(before) + {p};
    }
    assert states.Keys - rest == states.Keys;
    CountPaths(stamped);
  }

  lemma {:induction false} RemovingOldestEvicts(states: States, disk: Disk, cap: nat, lowWater: nat, sorted: seq<Stamped>, n: nat)
    requires |states| > cap && DistinctPaths(sorted) && PathsOf(sorted) == states.Keys && |sorted| == |states|
    requires forall f :: f in sorted ==> f.mtime == Mtime(disk, f.path)
    requires Ascending(sorted, Stamp)
    requires n == if lowWater < |states| then |states| - lowWater else 0
    ensures Evicts(states, disk, cap, lowWater, states - PathsOf(sorted[..n]))
  {
    var gone := PathsOf(sorted[..n]);
    var states' := states - gone;
    CountPaths(sorted[..n]);
    assert states'.Keys == states.Keys - gone;
    assert gone <= states.Keys by {
      assert forall f :: f in sorted[..n] ==> f in sorted;
    }
    assert |states'.Keys| == |states.Keys| - n;
    forall p, q | p in states' && q in states.Keys - states'.Keys ensures Mtime(disk, q) <= Mtime(disk, p) {
      OldestGoFirst(disk, sorted, n, p, q);
    }
  }

  lemma OldestGoFirst(disk: Disk, sorted: seq<Stamped>, n: nat, p: Path, q: Path)
    requires n <= |sorted| && Ascending(sorted, Stamp)
    requires forall f :: f in sorted ==> f.mtime == Mtime(disk, f.path)
    requires p in PathsOf(sorted) && p !in PathsOf(sorted[..n]) && q in PathsOf(sorted[..n])
    ensures Mtime(disk, q) <= Mtime(disk, p)
  {
    var j :| 0 <= j < |sorted| && sorted[j].path == p;
    var i :| 0 <= i < n && sorted[..n][i].path == q;
    assert sorted[i] in sorted && sorted[j] in sorted;
    assert Stamp(sorted[i]) <= Stamp(sorted[j]);
  }

  method RemoveFirst(states: States, sorted: seq<Stamped>, n: nat) returns (states': States)
    requires n <= |sorted|
    ensures states' == states - PathsOf(sorted[..n])
  {
    states' := states;
    for i := 0 to n
      invariant states' == states - PathsOf(sorted[..i])
    {
      states' := states' - {sorted[i].path};
      RemoveOneMore(states, sorted, i);
    }
  }

  method EvictStaleStates(states: States, disk: Disk, cap: nat, lowWater: nat) returns (states': States)
    ensures Evicts(states, disk, cap, lowWater, states')
    ensures |states'| == if |states| > cap && lowWater < |states| then lowWater else |states|
    ensures forall p :: p in states' ==> p in states && states'[p] == states[p]
    ensures forall p, q :: p in states' && q in states && q !in states' ==> Mtime(disk, q) <= Mtime(disk, p)
  {
    if |states| <= cap {
      return states;
    }
    var stamped := StampAll(states, disk);
    var sorted := SortByKey(stamped, Stamp);
    SortKeepsPaths(stamped);
    var evict := if lowWater < |states| then |states| - lowWater else 0;
    states' := RemoveFirst(states, sorted, evict);
    RemovingOldestEvicts(states, disk, cap, lowWater, sorted, evict);
  }

  lemma RemoveOneMore(states: States, sorted: seq<Stamped>, i: nat)
    requires i < |sorted|
    ensures states - PathsOf(sorted[..i]) - {sorted[i].path} == states - PathsOf(sorted[..i + 1])
  {
    assert sorted[..i + 1] == sorted[..i] + [sorted[i]];
    assert PathsOf(sorted[..i + 1]) == PathsOf(sorted[..i]) + {sorted[i].path};
  }

  // ------------------------------------------------- notifications and walks

  datatype Batch = Batch(path: Path, events: seq<Event>)

  /** What one call passes, as a batch. */
  function BatchOf(path: Path, passed: seq<Event>): seq<Batch> {
    if passed == [] then [] else [Batch(path, passed)]
  }

  predicate Skipped(k: Kind) {
    !k.Transcript? && !IsArtifact(k)
  }

  /** The candidates of a walk, one call each, up to the first that fails; `batches` is what their offsets passed, that one's included. */
  ghost predicate WalksTo(naming: Naming, w: Watch, disk: Disk, candidates: seq<Path>, w': Watch, batches: seq<Batch>, failed: bool) {
    if candidates == [] then w' == w && batches == [] && !failed
    else
      exists m, before, f ::
        && WalksTo(naming, w, disk, Front(candidates), m, before, f)
        && VisitsOne(naming, m, disk, Last(candidates), before, f, w', batches, failed)
  }

  ghost predicate VisitsOne(naming: Naming, m: Watch, disk: Disk, path: Path, before: seq<Batch>, f: bool,
                            w': Watch, batches: seq<Batch>, failed: bool) {
    if f then w' == m && batches == before && failed
    else if Skipped(naming.kindOf(path)) then w' == m && batches == before && !failed
    else exists passed ::
           && Calls(naming, m, disk, path, w', passed, !failed)
           && batches == before + BatchOf(path, passed)
  }

  /** The walk up to its last candidate, and that one's visit. */
  lemma {:induction false} LastVisitOf(naming: Naming, w: Watch, disk: Disk, candidates: seq<Path>, w': Watch, batches: seq<Batch>, failed: bool)
    returns (m: Watch, before: seq<Batch>, f: bool)
    requires candidates != [] && WalksTo(naming, w, disk, candidates, w', batches, failed)
    ensures WalksTo(naming, w, disk, Front(candidates), m, before, f)
    ensures VisitsOne(naming, m, disk, Last(candidates), before, f, w', batches, failed)
  {
    m, before, f :| WalksTo(naming, w, disk, Front(candidates), m, before, f)
                    && VisitsOne(naming, m, disk, Last(candidates), before, f, w', batches, failed);
  }

  lemma {:induction false} WalkStep(naming: Naming, w: Watch, disk: Disk, candidates: seq<Path>, m: Watch, before: seq<Batch>, f: bool,
                 path: Path, w': Watch, batches: seq<Batch>, failed: bool)
    requires WalksTo(naming, w, disk, candidates, m, before, f)
    requires VisitsOne(naming, m, disk, path, before, f, w', batches, failed)
    ensures WalksTo(naming, w, disk, candidates + [path], w', batches, failed)
  {
    var longer := candidates + [path];
    assert Front(longer) == candidates && Last(longer) == path;
    assert WalksTo(naming, w, disk, Front(longer), m, before, f);
    assert VisitsOne(naming, m, disk, Last(longer), before, f, w', batches, failed);
  }

  /** `chunks(100)`: full chunks in order, the last one possibly shorter, none empty. */
  function Chunks(events: seq<Event>): (chunks: seq<seq<Event>>)
    ensures events == Concat(chunks)
    ensures forall c :: c in chunks ==> 0 < |c| <= 100
    ensures forall i :: 0 <= i < |chunks| - 1 ==> |chunks[i]| == 100
  {
    if events == [] then []
    else if |events| <= BATCH_CHUNK_SIZE then [events]
    else [events[..BATCH_CHUNK_SIZE]] + Chunks(events[BATCH_CHUNK_SIZE..])
  }

  // ---------------------------------------------------------------- the object

  class Watcher {
    const naming: Naming
    var states: States
    ghost var early: nat
    ghost var forgotten: multiset<Path>

    constructor (naming: Naming)
      ensures this.naming == naming && Contents() == Watch(map[], 0, multiset{}) && Valid()
    {
      this.naming := naming;
      states, early, forgotten := map[], 0, multiset{};
    }

    ghost function Contents(): Watch
      reads this
    {
      Watch(states, early, forgotten)
    }

    ghost predicate Valid()
      reads this
    {
      Bounded(Contents())
    }

    method ProcessFileRaw(path: Path, disk: Disk) returns (r: Result<seq<Event>, ReadError>, ghost passed: seq<Event>)
      requires Valid()
      modifies this
      ensures Valid() && Calls(naming, old(Contents()), disk, path, Contents(), passed, r.Ok?) && r == ResultOf(passed, r.Ok?)
    {
      ghost var w := Contents();
      var kind := naming.kindOf(path);
      if IsArtifact(kind) {
        r := ProcessArtifactFile(path, kind, disk);
        passed := r.value;
      } else if kind.Transcript? {
        r, passed := ProcessTranscriptFile(path, disk);
      } else {
        r, passed := Ok([]), [];
      }
      BoundIsKept(naming, w, disk, path, Contents(), passed, r.Ok?);
    }

    method ProcessTranscriptFile(path: Path, disk: Disk) returns (r: Result<seq<Event>, ReadError>, ghost passed: seq<Event>)
      modifies this
      ensures var key, w := naming.canonical(path), old(Contents());
              var o := ProcessTranscript(naming.codec, Lookup(w.states, key), naming.sessionOf(path), Present(disk, key));
              passed == o.passed && r == ResultOf(o.passed, o.ok) && Stores(w, disk, key, o, Contents())
    {
      var key, sid := naming.canonical(path), naming.sessionOf(path);
      ghost var w := Contents();
      ghost var o := ProcessTranscript(naming.codec, Lookup(states, key), sid, Present(disk, key));
      var grew := key !in states;
      NewOrKnown(naming.codec, Lookup(states, key), sid, Present(disk, key));
      if grew {
        states := states[key := NewState(sid)];
      }
      var state, events, ok := ReadNewLines(naming.codec, Present(disk, key), states[key]);
      states := states[key := state];
      passed := events;
      if !ok {
        early := early + if grew then 1 else 0;
        StoredPlainly(w, disk, key, o, Contents());
        return Err(ReadError), passed;
      }
      if grew {
        Evict(disk);
        StoredAndChecked(w, disk, key, o, Contents());
      } else {
        StoredPlainly(w, disk, key, o, Contents());
      }
      return Ok(events), passed;
    }

    method ProcessArtifactFile(path: Path, kind: Kind, disk: Disk) returns (r: Result<seq<Event>, ReadError>)
      modifies this
      ensures var key, w := naming.canonical(path), old(Contents());
              var o := ProcessArtifact(Lookup(w.states, key), kind, naming.sessionOf(path), Present(disk, key));
              o.ok && r == Ok(o.passed) && Stores(w, disk, key, o, Contents())
    {
      var key, sid := naming.canonical(path), naming.sessionOf(path);
      ghost var w := Contents();
      ghost var o := ProcessArtifact(Lookup(states, key), kind, sid, Present(disk, key));
      if sid == "unknown" || sid == "" || Present(disk, key).None? {
        StoredPlainly(w, disk, key, o, w);
        return Ok([]);
      }
      var file := disk[key];
      var length := |file.content|;
      var grew := key !in states;
      var state := (if grew then NewState(sid) else states[key]).(sessionId := sid);
      if length <= state.byteOffset {
        states := states[key := state];
        early := early + if grew then 1 else 0;
        StoredPlainly(w, disk, key, o, Contents());
        return Ok([]);
      }
      var events: seq<Event> := [];
      if !kind.MetaJson? || file.parses {
        state := state.(seqNo := state.seqNo + 1);
        events := [ArtifactEvent(sid, length, state.seqNo)];
        state := state.(byteOffset := length);
      }
      states := states[key := state];
      if grew {
        Evict(disk);
        StoredAndChecked(w, disk, key, o, Contents());
      } else {
        StoredPlainly(w, disk, key, o, Contents());
      }
      return Ok(events);
    }

    method Evict(disk: Disk)
      modifies this
      ensures Evicts(old(states), disk, MAX_WATCH_STATES, WATCH_STATES_LOW_WATER, states) && early == 0
      ensures forgotten == old(forgotten) + multiset(old(states).Keys - states.Keys)
    {
      ghost var before := states;
      states := EvictStaleStates(states, disk, MAX_WATCH_STATES, WATCH_STATES_LOW_WATER);
      early, forgotten := 0, forgotten + multiset(before.Keys - states.Keys);
    }

    /**
     A notified directory is walked (its entries are given); a notified file is the only candidate.
     The batches passed are handed on if nothing fails, and dropped otherwise.
     */
    method ProcessWatchPath(path: Path, listing: Option<seq<Path>>, disk: Disk)
      returns (r: Result<seq<Batch>, ReadError>, ghost passed: seq<Batch>)
      requires Valid()
      modifies this
      ensures Valid()
      ensures WalksTo(naming, old(Contents()), disk, listing.GetOr([path]), Contents(), passed, r.Err?)
      ensures r.Ok? ==> r.value == passed
    {
      ghost var w := Contents();
      assert WalksTo(naming, w, disk, [], w, [], false);
      if listing.None? {
        var f;
        ghost var events;
        f, events := ProcessFileRaw(path, disk);
        passed := BatchOf(path, events);
        assert [] + [path] == [path] && [] + passed == passed;
        if Skipped(naming.kindOf(path)) {
          assert Contents() == w;
        }
        WalkStep(naming, w, disk, [], w, [], false, path, Contents(), passed, f.Err?);
        if f.Err? {
          return Err(f.error), passed;
        }
        return Ok(if f.value == [] then [] else [Batch(path, f.value)]), passed;
      }
      var candidates := listing.value;
      var batches: seq<Batch> := [];
      for i := 0 to |candidates|
        invariant Valid() && WalksTo(naming, w, disk, candidates[..i], Contents(), batches, false)
      {
        TakeOneMore(candidates, i);
        ghost var m, before := Contents(), batches;
        if !Skipped(naming.kindOf(candidates[i])) {
          var f;
          ghost var events;
          f, events := ProcessFileRaw(candidates[i], disk);
          if f.Err? {
            passed := before + BatchOf(candidates[i], events);
            WalkStep(naming, w, disk, candidates[..i], m, before, false, candidates[i], Contents(), passed, true);
            WalkFails(naming, w, disk, candidates, i + 1, Contents(), passed);
            return Err(f.error), passed;
          }
          if f.value != [] {
            batches := batches + [Batch(candidates[i], f.value)];
          }
          assert batches == before + BatchOf(candidates[i], f.value);
        }
        WalkStep(naming, w, disk, candidates[..i], m, before, false, candidates[i], Contents(), batches, false);
      }
      TakeAll(candidates);
      return Ok(batches), batches;
    }
  }

  /** A new entry is read like one that was there; only the eviction check tells them apart. */
  lemma NewOrKnown(codec: Codec, s: Option<FileState>, sid: string, file: Option<File>)
    ensures var state := s.GetOr(NewState(sid));
            var o, known := ProcessTranscript(codec, s, sid, file), ProcessTranscript(codec, Some(state), state.sessionId, file);
            && o.state == known.state && o.passed == known.passed && o.ok == known.ok && !known.checks
            && o.checks == (o.ok && s.None?)
  {
  }

  /** The reader on one file: nothing to read if it is not there or has not grown. */
  method ReadNewLines(codec: Codec, file: Option<File>, s: FileState) returns (state: FileState, events: seq<Event>, ok: bool)
    ensures var o := ProcessTranscript(codec, Some(s), s.sessionId, file);
            Some(state) == o.state && events == o.passed && ok == o.ok
  {
    if file.None? {
      return s, [], true;
    }
    if !file.value.opens {
      return s, [], false;
    }
    if |file.value.content| <= s.byteOffset {
      return s, [], true;
    }
    var end, spoken, fine := ReadLines(codec, file.value, s.byteOffset);
    return s.(byteOffset := end), LineEvents(spoken), fine;
  }

  /** Nothing is visited after a failure. */
  lemma {:induction false} WalkFails(naming: Naming, w: Watch, disk: Disk, candidates: seq<Path>, i: nat, w': Watch, batches: seq<Batch>)
    requires i <= |candidates| && WalksTo(naming, w, disk, candidates[..i], w', batches, true)
    ensures WalksTo(naming, w, disk, candidates, w', batches, true)
    decreases |candidates| - i
  {
    if i < |candidates| {
      TakeOneMore(candidates, i);
      assert VisitsOne(naming, w', disk, candidates[i], batches, true, w', batches, true);
      WalkStep(naming, w, disk, candidates[..i], w', batches, true, candidates[i], w', batches, true);
      WalkFails(naming, w, disk, candidates, i + 1, w', batches);
    } else {
      TakeAll(candidates);
    }
  }
}
