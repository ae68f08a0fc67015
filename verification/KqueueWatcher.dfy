/**
 The kqueue watcher as an object (rs/src/kqueue_watcher.rs), proved against the steps of the watch table.
 */
module KqueueWatcher {
  import opened Paths
  import opened Sequences
  import opened Wrappers
  import opened WatchTable
  import opened WatchRuns
  import opened WatchEvents
  import opened WatchHistory

  /** The operating system: which descriptors are open, and the monotonic clock. It may refuse any request. */
  class Kernel {
    var open: set<int>
    var clock: nat

    constructor ()
      ensures open == {} && clock == 0
    {
      open, clock := {}, 0;
    }

    method Now() returns (now: nat)
      modifies this`clock
      ensures now == clock >= old(clock)
    {
      var later: nat :| true;
      clock := clock + later;
      now := clock;
    }

    /** Hands out any descriptor that is not open, so numbers of closed ones come back. */
    method Open() returns (r: Option<int>)
      modifies this`open
      ensures r.None? ==> open == old(open)
      ensures r.Some? ==> r.value !in old(open) && open == old(open) + {r.value}
    {
      if * {
        return None;
      }
      SomeNumberIsFree(open);
      var fd :| fd !in open;
      open := open + {fd};
      return Some(fd);
    }

    method Add(kq: int, fd: int) returns (ok: bool)
      requires kq in open && fd in open
    {
      ok := *;
    }

    method Close(fd: int)
      requires fd in open
      modifies this`open
      ensures open == old(open) - {fd}
    {
      open := open - {fd};
    }
  }

  class KqueueWatcher {
    const kernel: Kernel
    const kq: int
    const fileBudget: nat
    var entries: map<int, Entry>
    var byPath: map<Path, int>
    ghost var log: seq<FdEvent>
    ghost var evicted: map<Path, nat>
    ghost const foreign: set<int>

    ghost function Contents(): Table
      reads this, kernel
    {
      Table(kq, entries, byPath, fileBudget, kernel.clock, log, evicted)
    }

    /** The table's invariant holds, and beside its own descriptors only foreign ones are open. */
    ghost predicate Valid()
      reads this, kernel
    {
      Invariant(Contents()) && kernel.open == foreign + Owned(Contents()) && foreign !! Owned(Contents())
    }

    /** The watcher of a queue descriptor that was just opened. */
    constructor (kernel: Kernel, kq: int, fileBudget: nat)
      requires kq in kernel.open
      ensures Valid() && this.kernel == kernel && foreign == kernel.open - {kq}
      ensures Contents() == Table(kq, map[], map[], fileBudget, kernel.clock, [Opened(kq)], map[])
    {
      this.kernel, this.kq, this.fileBudget := kernel, kq, fileBudget;
      entries, byPath := map[], map[];
      log, evicted := [Opened(kq)], map[];
      foreign := kernel.open - {kq};
      new;
      LogMore([], Opened(kq));
      assert [] + [Opened(kq)] == [Opened(kq)];
      assert Files(Contents()) == {};
    }

    method FileCount() returns (n: nat)
      ensures n == |Files(Contents())|
    {
      n := |set fd | fd in entries && !entries[fd].isDir|;
    }

    method Touch(fd: int)
      requires Valid()
      modifies this, kernel
      ensures Valid() && kernel.open == old(kernel.open)
      ensures if fd in old(entries) then Touches(old(Contents()), fd, Contents()) else Contents() == old(Contents())
    {
      if fd in entries {
        var now := kernel.Now();
        entries := entries[fd := entries[fd].(lastActive := now)];
        TouchKeeps(old(Contents()), fd, Contents());
        assert Owned(Contents()) == old(Owned(Contents()));
      }
    }

    method Unregister(fd: int)
      requires Valid()
      modifies this, kernel
      ensures Valid()
      ensures Contents() == if fd in old(entries) then WatchTable.Unregister(old(Contents()), fd) else old(Contents())
    {
      if fd in entries {
        var path := entries[fd].path;
        entries := entries - {fd};
        byPath := byPath - {path};
        kernel.Close(fd);
        log := log + [Closed(fd)];
        UnregisterKeeps(old(Contents()), fd);
        assert Owned(Contents()) == old(Owned(Contents())) - {fd};
      }
    }

    /** `min_by_key` over the files, in the map's arbitrary order. */
    method IdlestFile() returns (victim: Option<int>)
      ensures victim.None? <==> Files(Contents()) == {}
      ensures victim.Some? ==> Victim(Contents(), victim.value)
    {
      victim := None;
      var files := set fd | fd in entries && !entries[fd].isDir;
      var rest := files;
      while rest != {}
        invariant rest <= files == Files(Contents())
        invariant victim.None? ==> rest == files
        invariant victim.Some? ==> victim.value in files
        invariant victim.Some? ==>
                    forall g :: g in files - rest ==> entries[victim.value].lastActive <= entries[g].lastActive
        decreases rest
      {
        var fd := Choose(rest);
        rest := rest - {fd};
        if victim.None? || entries[fd].lastActive < entries[victim.value].lastActive {
          victim := Some(fd);
        }
      }
    }

    method EvictIdleFile()
      requires Valid()
      modifies this, kernel
      ensures Valid() && EvictsIdle(old(Contents()), Contents())
    {
      var victim := IdlestFile();
      if victim.Some? {
        ghost var t := Contents();
        Unregister(victim.value);
        evicted := evicted[t.entries[victim.value].path := t.entries[victim.value].lastActive];
        EvictKeeps(t, Contents());
        assert Owned(Contents()) == Owned(WatchTable.Unregister(t, victim.value));
      }
    }

    /** The second half of `register`: open, put on the queue, insert. */
    method OpenAndInsert(path: Path, isDir: bool) returns (ok: bool)
      requires Valid() && path !in byPath && (isDir || |Files(Contents())| < if fileBudget == 0 then 1 else fileBudget)
      modifies this, kernel
      ensures Valid() && Opens(old(Contents()), path, isDir, Contents(), ok)
    {
      ghost var t := Contents();
      var answer := kernel.Open();
      if answer.None? {
        return false;
      }
      var fd := answer.value;
      var added := kernel.Add(kq, fd);
      if !added {
        kernel.Close(fd);
        log := log + [Opened(fd)] + [Closed(fd)];
        RefusalKeeps(t, fd);
        assert Owned(Contents()) == Owned(t);
        return false;
      }
      var now := kernel.Now();
      entries := entries[fd := Entry(path, isDir, now)];
      byPath := byPath[path := fd];
      log, evicted := log + [Opened(fd)], evicted - {path};
      InsertKeeps(t, fd, path, isDir, now);
      assert Contents() == Insert(t, fd, path, isDir, now);
      assert Owned(Contents()) == Owned(t) + {fd};
      return true;
    }

    method Register(path: Path, isDir: bool) returns (ok: bool)
      requires Valid()
      modifies this, kernel
      ensures Valid() && Registers(old(Contents()), path, isDir, Contents(), ok)
    {
      if path in byPath {
        Touch(byPath[path]);
        return true;
      }
      if !isDir {
        var count := FileCount();
        if count >= fileBudget {
          ghost var t := Contents();
          EvictIdleFile();
          EvictKeeps(t, Contents());
          assert old(AtBudget(Contents()));
        }
      }
      ok := OpenAndInsert(path, isDir);
    }

    /** Closes every descriptor of the table, in the map's arbitrary order. */
    method CloseEntries() returns (ghost fds: seq<int>)
      requires Owned(Contents()) <= kernel.open
      requires kq !in entries
      modifies kernel`open
      ensures Enumerates(fds, entries.Keys) && kernel.open == old(kernel.open) - entries.Keys
    {
      fds := [];
      var rest := entries.Keys;
      while rest != {}
        invariant rest <= entries.Keys && Enumerates(fds, entries.Keys - rest)
        invariant kernel.open == old(kernel.open) - (entries.Keys - rest)
        decreases rest
      {
        var fd := Choose(rest);
        EnumeratesMore(fds, entries.Keys - rest, fd);
        assert entries.Keys - rest + {fd} == entries.Keys - (rest - {fd});
        rest := rest - {fd};
        kernel.Close(fd);
        fds := fds + [fd];
      }
      assert entries.Keys - rest == entries.Keys;
    }

    method Drop() returns (ghost fds: seq<int>)
      requires Valid()
      modifies this, kernel
      ensures Enumerates(fds, old(entries).Keys) && log == old(log) + Closing(fds) + [Closed(kq)]
      ensures kernel.open == foreign
      ensures WellPaired(log) && OpenAfter(log) == {}
    {
      ghost var t := Contents();
      fds := CloseEntries();
      kernel.Close(kq);
      DropClosesEverything(t, fds, kq);
      log := log + Closing(fds) + [Closed(kq)];
    }
  }

  /** One registration; a failed one is ignored. */
  method RegisterItem(w: KqueueWatcher, item: Item, ghost t: Table, ghost done: seq<Item>, ghost oks: seq<bool>)
    returns (ghost oks': seq<bool>)
    requires w.Valid() && |oks| == |done| && RegistersAll(t, done, w.Contents(), oks)
    modifies w, w.kernel
    ensures w.Valid() && |oks'| == |done| + 1 && RegistersAll(t, done + [item], w.Contents(), oks')
  {
    ghost var m := w.Contents();
    var ok := w.Register(item.path, item.isDir);
    RegisterStep(t, done, m, oks, item, w.Contents(), ok);
    oks' := oks + [ok];
  }

  method RegisterEach(w: KqueueWatcher, items: seq<Item>) returns (ghost oks: seq<bool>)
    requires w.Valid()
    modifies w, w.kernel
    ensures w.Valid() && |oks| == |items| && RegistersAll(old(w.Contents()), items, w.Contents(), oks)
  {
    ghost var t := w.Contents();
    oks := [];
    for i := 0 to |items|
      invariant w.Valid() && |oks| == i && RegistersAll(t, items[..i], w.Contents(), oks)
    {
      assert items[..i + 1] == items[..i] + [items[i]];
      oks := RegisterItem(w, items[i], t, items[..i], oks);
    }
    assert items[..|items|] == items;
  }

  /** `register_tree`: the directories that the walk finds, then its newest files up to the budget. */
  method RegisterTree(w: KqueueWatcher, dirs: seq<Path>, files: seq<Stamped>) returns (ghost oks: seq<bool>)
    requires w.Valid()
    modifies w, w.kernel
    ensures w.Valid()
    ensures |oks| == |TreeItems(dirs, files, w.fileBudget)|
    ensures RegistersAll(old(w.Contents()), TreeItems(dirs, files, w.fileBudget), w.Contents(), oks)
  {
    ghost var t := w.Contents();
    ghost var dirOks := RegisterEach(w, Dirs(dirs));
    ghost var m := w.Contents();
    ghost var fileOks := RegisterEach(w, Newest(files, w.fileBudget));
    RegistersConcat(t, Dirs(dirs), m, dirOks, Newest(files, w.fileBudget), w.Contents(), fileOks);
    oks := dirOks + fileOks;
  }

  /** `rescan_dir` of a directory whose listing is given; None stands for a failed read. */
  method RescanDir(w: KqueueWatcher, listing: Option<seq<Found>>) returns (added: seq<Path>)
    requires w.Valid()
    modifies w, w.kernel
    ensures w.Valid()
    ensures listing.None? ==> w.Contents() == old(w.Contents()) && added == []
    ensures listing.Some? ==> exists refused :: Rescans(old(w.Contents()), listing.value, w.Contents(), added, refused)
  {
    if listing.None? {
      return [];
    }
    ghost var refused: seq<Path>;
    added, refused := RescanEntries(w, listing.value);
  }

  method RescanEntries(w: KqueueWatcher, found: seq<Found>) returns (added: seq<Path>, ghost refused: seq<Path>)
    requires w.Valid()
    modifies w, w.kernel
    ensures w.Valid() && Rescans(old(w.Contents()), found, w.Contents(), added, refused)
  {
    ghost var t := w.Contents();
    added, refused := [], [];
    for i := 0 to |found|
      invariant w.Valid() && Rescans(t, found[..i], w.Contents(), added, refused)
    {
      added, refused := RescanNext(w, found, i, t, added, refused);
    }
    assert found[..|found|] == found;
  }

  method RescanNext(w: KqueueWatcher, found: seq<Found>, i: nat, ghost t: Table, added: seq<Path>, ghost refused: seq<Path>)
    returns (added': seq<Path>, ghost refused': seq<Path>)
    requires w.Valid() && i < |found| && Rescans(t, found[..i], w.Contents(), added, refused)
    modifies w, w.kernel
    ensures w.Valid() && Rescans(t, found[..i + 1], w.Contents(), added', refused')
  {
    ghost var m := w.Contents();
    var a: seq<Path>;
    ghost var r: seq<Path>;
    a, r := RescanEntry(w, found[i]);
    assert found[..i + 1] == found[..i] + [found[i]];
    RescanStep(t, found[..i], m, added, refused, found[i], w.Contents(), a, r);
    added', refused' := added + a, refused + r;
  }

  method RescanEntry(w: KqueueWatcher, e: Found) returns (added: seq<Path>, ghost refused: seq<Path>)
    requires w.Valid()
    modifies w, w.kernel
    ensures w.Valid() && RescansOne(old(w.Contents()), e, w.Contents(), added, refused)
  {
    added, refused := [], [];
    if e.kind.Directory? {
      var ok := w.Register(e.path, true);
      refused := if ok then [] else [e.path];
    } else if e.kind.Watchable? && e.path !in w.byPath {
      var ok := w.Register(e.path, false);
      if ok {
        added := [e.path];
      } else {
        refused := [e.path];
      }
    }
  }

  method HandleEvent(w: KqueueWatcher, o: Occurrence) returns (changed: seq<Path>)
    requires w.Valid()
    modifies w, w.kernel
    ensures w.Valid() && Handles(old(w.Contents()), o, w.Contents(), changed)
  {
    var fd := o.event.fd;
    if fd !in w.entries {
      return [];
    }
    var entry := w.entries[fd];
    if o.event.gone {
      w.Unregister(fd);
      return [];
    }
    if entry.isDir {
      changed := RescanDir(w, o.listing);
    } else {
      w.Touch(fd);
      changed := [entry.path];
    }
  }

  method HandleNext(w: KqueueWatcher, o: Occurrence, ghost t: Table, ghost done: seq<Occurrence>, calls: seq<Path>)
    returns (calls': seq<Path>)
    requires w.Valid() && Loops(t, done, w.Contents(), calls)
    modifies w, w.kernel
    ensures w.Valid() && Loops(t, done + [o], w.Contents(), calls')
  {
    ghost var m := w.Contents();
    var c := HandleEvent(w, o);
    LoopStep(t, done, m, calls, o, w.Contents(), c);
    calls' := calls + c;
  }

  method HandleEvents(w: KqueueWatcher, events: seq<Occurrence>) returns (calls: seq<Path>)
    requires w.Valid()
    modifies w, w.kernel
    ensures w.Valid() && Loops(old(w.Contents()), events, w.Contents(), calls)
  {
    ghost var t := w.Contents();
    calls := [];
    for i := 0 to |events|
      invariant w.Valid() && Loops(t, events[..i], w.Contents(), calls)
    {
      assert events[..i + 1] == events[..i] + [events[i]];
      calls := HandleNext(w, events[i], t, events[..i], calls);
    }
    assert events[..|events|] == events;
  }

  /** Start-up and loop of a new watcher, with what is known of it event by event. */
  method Live(w: KqueueWatcher, dirs: seq<Path>, files: seq<Stamped>, events: seq<Occurrence>)
    returns (changed: seq<Path>, ghost ready: Table, ghost oks: seq<bool>,
             ghost ts: seq<Table>, ghost answers: seq<seq<Path>>, ghost ops: seq<Op>)
    requires w.Valid() && w.entries == map[] && w.byPath == map[]
    modifies w, w.kernel
    ensures w.Valid() && Invariant(ready)
    ensures var items := TreeItems(dirs, files, w.fileBudget);
            |oks| == |items| && RegistersAll(old(w.Contents()), items, ready, oks)
    ensures Loops(ready, events, w.Contents(), changed)
    ensures |ts| == |events| + 1 && |answers| == |events| && ts[0] == ready && ts[|events|] == w.Contents()
    ensures changed == Concat(answers)
    ensures forall i :: 0 <= i < |events| ==> Call(ts[i], events[i], ts[i + 1], answers[i])
    ensures History(old(w.Contents()), ops, w.Contents()) && StampsAreUses(w.Contents(), ops)
  {
    ghost var start := w.Contents();
    oks := RegisterTree(w, dirs, files);
    ready := w.Contents();
    changed := HandleEvents(w, events);
    ts, answers, ops := WholeLife(start, TreeItems(dirs, files, w.fileBudget), ready, oks, events, w.Contents(), changed);
  }

  /**
   `run_event_loop` up to the failure of a poll. The events are those that the polls deliver, in order, and
   `changed` lists the calls to `on_file_changed`. Whatever happens, no descriptor is leaked.
   */
  method RunEventLoop(kernel: Kernel, fileBudget: nat, dirs: seq<Path>, files: seq<Stamped>, events: seq<Occurrence>)
    returns (changed: Option<seq<Path>>, ghost start: Table, ghost ready: Table, ghost oks: seq<bool>, ghost end: Table,
             ghost ts: seq<Table>, ghost answers: seq<seq<Path>>, ghost ops: seq<Op>)
    modifies kernel
    ensures kernel.open == old(kernel.open)
    ensures changed.Some? ==>
              && start == Table(start.kq, map[], map[], fileBudget, start.clock, [Opened(start.kq)], map[])
              && |oks| == |TreeItems(dirs, files, fileBudget)|
              && RegistersAll(start, TreeItems(dirs, files, fileBudget), ready, oks)
              && Loops(ready, events, end, changed.value)
              && Invariant(start) && Invariant(ready) && Invariant(end)
    ensures changed.Some? ==>
              && |ts| == |events| + 1 && ts[0] == ready && ts[|events|] == end
              && |answers| == |events| && changed.value == Concat(answers)
    ensures changed.Some? ==> forall i :: 0 <= i < |events| ==> Call(ts[i], events[i], ts[i + 1], answers[i])
    ensures changed.Some? ==> History(start, ops, end) && StampsAreUses(end, ops)
  {
    ts, answers, ops := [], [], [];
    start := Table(0, map[], map[], fileBudget, 0, [], map[]);
    ready, end, oks := start, start, [];
    var kq := kernel.Open();
    if kq.None? {
      return None, start, ready, oks, end, ts, answers, ops;
    }
    var w := new KqueueWatcher(kernel, kq.value, fileBudget);
    start := w.Contents();
    var calls;
    calls, ready, oks, ts, answers, ops := Live(w, dirs, files, events);
    end := w.Contents();
    ghost var _ := w.Drop();
    changed := Some(calls);
  }
}
