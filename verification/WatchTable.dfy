/**
 The kqueue watch table as a value, and the steps that its operations take (rs/src/kqueue_watcher.rs).

 The kernel may refuse any request and may hand out any descriptor that is not open, so a step is a
 relation between the table before and the table after.
 */
module WatchTable {
  import opened Paths

  datatype Entry = Entry(path: Path, isDir: bool, lastActive: nat)

  datatype FdEvent = Opened(fd: int) | Closed(fd: int)

  /**
   `entries` and `byPath` are the watcher's two maps. `clock` is the last instant read, `log` every
   open and close made for this watcher, and `evicted` the last-active stamp of each file that was
   evicted and not registered since.
   */
  datatype Table = Table(
    kq: int,
    entries: map<int, Entry>,
    byPath: map<Path, int>,
    budget: nat,
    clock: nat,
    log: seq<FdEvent>,
    evicted: map<Path, nat>)

  /** The descriptors left open by a log, if it never opens an open one nor closes one that is not open. */
  function OpenAfter(log: seq<FdEvent>): (open: set<int>)
    requires WellPaired(log)
    decreases log, 1
  {
    if log == [] then {}
    else
      var before := OpenAfter(log[..|log| - 1]);
      match log[|log| - 1]
      case Opened(fd) => before + {fd}
      case Closed(fd) => before - {fd}
  }

  predicate WellPaired(log: seq<FdEvent>)
    decreases log, 0
  {
    log != [] ==>
      && WellPaired(log[..|log| - 1])
      && match log[|log| - 1]
         case Opened(fd) => fd !in OpenAfter(log[..|log| - 1])
         case Closed(fd) => fd in OpenAfter(log[..|log| - 1])
  }

  function Count(log: seq<FdEvent>, e: FdEvent): nat {
    if log == [] then 0 else Count(log[..|log| - 1], e) + if log[|log| - 1] == e then 1 else 0
  }

  /** In a well-paired log every open is matched by exactly one close, but for those still open. */
  lemma {:induction false} EveryOpenIsClosedOnce(log: seq<FdEvent>, fd: int)
    requires WellPaired(log)
    ensures Count(log, Opened(fd)) == Count(log, Closed(fd)) + if fd in OpenAfter(log) then 1 else 0
  {
    if log != [] {
      EveryOpenIsClosedOnce(log[..|log| - 1], fd);
    }
  }

  lemma {:induction false} LogMore(log: seq<FdEvent>, e: FdEvent)
    requires WellPaired(log)
    requires e.fd in OpenAfter(log) <==> e.Closed?
    ensures WellPaired(log + [e])
    ensures OpenAfter(log + [e]) == if e.Opened? then OpenAfter(log) + {e.fd} else OpenAfter(log) - {e.fd}
  {
    assert (log + [e])[..|log|] == log;
  }

  // -------------------------------------------------------------- invariant

  function Files(t: Table): set<int> {
    set fd | fd in t.entries && !t.entries[fd].isDir
  }

  function Owned(t: Table): set<int> {
    t.entries.Keys + {t.kq}
  }

  predicate Inverse(t: Table) {
    && (forall fd :: fd in t.entries ==> t.entries[fd].path in t.byPath && t.byPath[t.entries[fd].path] == fd)
    && (forall p :: p in t.byPath ==> t.byPath[p] in t.entries && t.entries[t.byPath[p]].path == p)
  }

  predicate WithinBudget(t: Table) {
    |Files(t)| <= if t.budget == 0 then 1 else t.budget
  }

  /** Exactly the table's descriptors and the queue's own are open, and none was closed twice. */
  predicate OwnsExactlyItsFds(t: Table) {
    t.kq !in t.entries && WellPaired(t.log) && OpenAfter(t.log) == Owned(t)
  }

  /** No evicted file was active later than a file that is still watched. */
  predicate LeastRecentlyUsed(t: Table) {
    && (forall fd :: fd in t.entries ==> t.entries[fd].lastActive <= t.clock)
    && (forall p :: p in t.evicted ==> p !in t.byPath && t.evicted[p] <= t.clock)
    && (forall p, fd :: p in t.evicted && fd in Files(t) ==> t.evicted[p] <= t.entries[fd].lastActive)
  }

  predicate Invariant(t: Table) {
    Inverse(t) && WithinBudget(t) && OwnsExactlyItsFds(t) && LeastRecentlyUsed(t)
  }

  // ------------------------------------------------------------------ steps

  predicate Touches(t: Table, fd: int, t': Table)
    requires fd in t.entries
  {
    && t'.clock >= t.clock
    && t' == t.(clock := t'.clock, entries := t.entries[fd := t.entries[fd].(lastActive := t'.clock)])
  }

  function Unregister(t: Table, fd: int): Table
    requires fd in t.entries
  {
    t.(entries := t.entries - {fd}, byPath := t.byPath - {t.entries[fd].path}, log := t.log + [Closed(fd)])
  }

  /** `fd` is a file that no other file undercuts in recent activity. */
  predicate Victim(t: Table, fd: int) {
    fd in Files(t) && forall g :: g in Files(t) ==> t.entries[fd].lastActive <= t.entries[g].lastActive
  }

  function Evict(t: Table, fd: int): Table
    requires fd in t.entries
  {
    Unregister(t, fd).(evicted := t.evicted[t.entries[fd].path := t.entries[fd].lastActive])
  }

  ghost predicate EvictsIdle(t: Table, t': Table) {
    if Files(t) == {} then t' == t else exists fd :: Victim(t, fd) && t' == Evict(t, fd)
  }

  function Insert(t: Table, fd: int, path: Path, isDir: bool, now: nat): Table {
    t.(entries := t.entries[fd := Entry(path, isDir, now)], byPath := t.byPath[path := fd],
       clock := now, log := t.log + [Opened(fd)], evicted := t.evicted - {path})
  }

  /** `open`, then the kqueue registration, then the insertion; either of the first two may fail. */
  ghost predicate Opens(t: Table, path: Path, isDir: bool, t': Table, ok: bool) {
    || (!ok && t' == t)
    || (exists fd :: fd !in Owned(t) && !ok && t' == t.(log := t.log + [Opened(fd)] + [Closed(fd)]))
    || (exists fd :: fd !in Owned(t) && ok && t'.clock >= t.clock && t' == Insert(t, fd, path, isDir, t'.clock))
  }

  predicate AtBudget(t: Table) {
    |Files(t)| >= t.budget
  }

  ghost predicate Registers(t: Table, path: Path, isDir: bool, t': Table, ok: bool) {
    if path in t.byPath then
      ok && t.byPath[path] in t.entries && Touches(t, t.byPath[path], t')
    else if !isDir && AtBudget(t) then
      exists m :: EvictsIdle(t, m) && Opens(m, path, isDir, t', ok)
    else
      Opens(t, path, isDir, t', ok)
  }

  // ------------------------------------------------ the invariant is kept

  lemma TouchKeeps(t: Table, fd: int, t': Table)
    requires Invariant(t) && fd in t.entries && Touches(t, fd, t')
    ensures Invariant(t')
  {
    assert Files(t') == Files(t);
    assert Owned(t') == Owned(t);
  }

  lemma UnregisterKeeps(t: Table, fd: int)
    requires Invariant(t) && fd in t.entries
    ensures Invariant(Unregister(t, fd))
    ensures Files(Unregister(t, fd)) == Files(t) - {fd}
  {
    var t' := Unregister(t, fd);
    LogMore(t.log, Closed(fd));
    assert Owned(t') == Owned(t) - {fd};
    assert Files(t') == Files(t) - {fd};
  }

  lemma EvictKeeps(t: Table, m: Table)
    requires Invariant(t) && EvictsIdle(t, m)
    ensures Invariant(m) && m.clock == t.clock && m.budget == t.budget
    ensures Files(t) != {} ==> |Files(m)| == |Files(t)| - 1
    ensures m.byPath.Keys <= t.byPath.Keys
  {
    if Files(t) != {} {
      var fd :| Victim(t, fd) && m == Evict(t, fd);
      UnregisterKeeps(t, fd);
      assert Files(m) == Files(t) - {fd};
      assert Owned(m) == Owned(Unregister(t, fd));
    }
  }

  lemma InsertOwns(t: Table, fd: int, path: Path, isDir: bool, now: nat)
    requires OwnsExactlyItsFds(t) && fd !in Owned(t)
    ensures OwnsExactlyItsFds(Insert(t, fd, path, isDir, now))
  {
    LogMore(t.log, Opened(fd));
    assert Owned(Insert(t, fd, path, isDir, now)) == Owned(t) + {fd};
  }

  lemma InsertFiles(t: Table, fd: int, path: Path, isDir: bool, now: nat)
    requires fd !in t.entries
    ensures Files(Insert(t, fd, path, isDir, now)) == if isDir then Files(t) else Files(t) + {fd}
    ensures |Files(Insert(t, fd, path, isDir, now))| == |Files(t)| + if isDir then 0 else 1
  {
    assert Files(Insert(t, fd, path, isDir, now)) == if isDir then Files(t) else Files(t) + {fd};
  }

  lemma InsertInverse(t: Table, fd: int, path: Path, isDir: bool, now: nat)
    requires Inverse(t) && path !in t.byPath && fd !in t.entries
    ensures Inverse(Insert(t, fd, path, isDir, now))
  {
  }

  lemma InsertLru(t: Table, fd: int, path: Path, isDir: bool, now: nat)
    requires LeastRecentlyUsed(t) && fd !in t.entries && now >= t.clock
    ensures LeastRecentlyUsed(Insert(t, fd, path, isDir, now))
  {
    var t' := Insert(t, fd, path, isDir, now);
    forall p, g | p in t'.evicted && g in Files(t') ensures t'.evicted[p] <= t'.entries[g].lastActive {
      if g != fd {
        assert g in Files(t);
      }
    }
  }

  lemma InsertKeeps(t: Table, fd: int, path: Path, isDir: bool, now: nat)
    requires Invariant(t) && path !in t.byPath && fd !in Owned(t) && now >= t.clock
    requires !isDir ==> |Files(t)| < (if t.budget == 0 then 1 else t.budget)
    ensures Invariant(Insert(t, fd, path, isDir, now))
  {
    InsertInverse(t, fd, path, isDir, now);
    InsertOwns(t, fd, path, isDir, now);
    InsertFiles(t, fd, path, isDir, now);
    InsertLru(t, fd, path, isDir, now);
  }

  /** A descriptor that could not be put on the queue is closed again. */
  lemma RefusalKeeps(t: Table, fd: int)
    requires Invariant(t) && fd !in Owned(t)
    ensures Invariant(t.(log := t.log + [Opened(fd)] + [Closed(fd)]))
  {
    LogMore(t.log, Opened(fd));
    LogMore(t.log + [Opened(fd)], Closed(fd));
    assert Owned(t) + {fd} - {fd} == Owned(t);
    var t' := t.(log := t.log + [Opened(fd)] + [Closed(fd)]);
    assert Files(t') == Files(t) && Owned(t') == Owned(t);
  }

  lemma OpenKeeps(t: Table, path: Path, isDir: bool, t': Table, ok: bool)
    requires Invariant(t) && path !in t.byPath && Opens(t, path, isDir, t', ok)
    requires !isDir ==> |Files(t)| < (if t.budget == 0 then 1 else t.budget)
    ensures Invariant(t')
  {
    if ok {
      var fd :| fd !in Owned(t) && t'.clock >= t.clock && t' == Insert(t, fd, path, isDir, t'.clock);
      InsertKeeps(t, fd, path, isDir, t'.clock);
    } else if t' != t {
      var fd :| fd !in Owned(t) && t' == t.(log := t.log + [Opened(fd)] + [Closed(fd)]);
      RefusalKeeps(t, fd);
    }
  }

  lemma {:induction false} RegisterKeeps(t: Table, path: Path, isDir: bool, t': Table, ok: bool)
    requires Invariant(t) && Registers(t, path, isDir, t', ok)
    ensures Invariant(t')
  {
    if path in t.byPath {
      TouchKeeps(t, t.byPath[path], t');
    } else if !isDir && AtBudget(t) {
      var m :| EvictsIdle(t, m) && Opens(m, path, isDir, t', ok);
      EvictKeeps(t, m);
      OpenKeeps(m, path, isDir, t', ok);
    } else {
      OpenKeeps(t, path, isDir, t', ok);
    }
  }

  /** With a budget of zero a granted registration still inserts its file, the only one then. */
  lemma ZeroBudgetStillInserts(t: Table, path: Path, t': Table)
    requires Invariant(t) && t.budget == 0 && path !in t.byPath && Registers(t, path, false, t', true)
    ensures |Files(t')| == 1 && path in t'.byPath && t'.byPath[path] in Files(t')
  {
    var m :| EvictsIdle(t, m) && Opens(m, path, false, t', true);
    EvictKeeps(t, m);
    var fd :| fd !in Owned(m) && t' == Insert(m, fd, path, false, t'.clock);
    InsertFiles(m, fd, path, false, t'.clock);
  }
}
