/**
 Whole runs of the kqueue watcher: start-up, directory rescans, the event loop and the final drop,
 as chains of the table's steps (rs/src/kqueue_watcher.rs).
 */
module WatchRuns {
  import opened Paths
  import opened Sorting
  import opened Wrappers
  import opened WatchTable

  // -------------------------------------------------------------- start-up

  datatype Item = Item(path: Path, isDir: bool)

  /** One registration after another; failures are ignored. */
  ghost predicate RegistersAll(t: Table, items: seq<Item>, t': Table, oks: seq<bool>)
    requires |oks| == |items|
  {
    if items == [] then t' == t
    else
      var n := |items| - 1;
      exists m :: RegistersAll(t, items[..n], m, oks[..n]) && Registers(m, items[n].path, items[n].isDir, t', oks[n])
  }

  lemma {:induction false} RegisterStep(t: Table, items: seq<Item>, m: Table, oks: seq<bool>, item: Item, t': Table, ok: bool)
    requires |oks| == |items| && RegistersAll(t, items, m, oks) && Registers(m, item.path, item.isDir, t', ok)
    ensures RegistersAll(t, items + [item], t', oks + [ok])
  {
    var items', oks' := items + [item], oks + [ok];
    var n := |items|;
    assert items'[..n] == items && oks'[..n] == oks;
    assert RegistersAll(t, items'[..n], m, oks'[..n]) && Registers(m, items'[n].path, items'[n].isDir, t', oks'[n]);
  }

  lemma RegistersLast(t: Table, items: seq<Item>, t': Table, oks: seq<bool>) returns (m: Table)
    requires |oks| == |items| > 0 && RegistersAll(t, items, t', oks)
    ensures var n := |items| - 1;
            RegistersAll(t, items[..n], m, oks[..n]) && Registers(m, items[n].path, items[n].isDir, t', oks[n])
  {
    var n := |items| - 1;
    m :| RegistersAll(t, items[..n], m, oks[..n]) && Registers(m, items[n].path, items[n].isDir, t', oks[n]);
  }

  lemma {:induction false} RegistersConcat(t: Table, a: seq<Item>, m: Table, oks: seq<bool>, b: seq<Item>, t': Table, oks': seq<bool>)
    requires |oks| == |a| && |oks'| == |b| && RegistersAll(t, a, m, oks) && RegistersAll(m, b, t', oks')
    ensures RegistersAll(t, a + b, t', oks + oks')
    decreases |b|
  {
    if b == [] {
      assert a + b == a && oks + oks' == oks;
    } else {
      var n := |b| - 1;
      var m' := RegistersLast(m, b, t', oks');
      RegistersConcat(t, a, m, oks, b[..n], m', oks'[..n]);
      RegistersOneMore(t, a, oks, b, oks', m', t');
    }
  }

  lemma RegistersOneMore(t: Table, a: seq<Item>, oks: seq<bool>, b: seq<Item>, oks': seq<bool>, m: Table, t': Table)
    requires |oks| == |a| && |oks'| == |b| > 0
    requires RegistersAll(t, a + b[..|b| - 1], m, oks + oks'[..|b| - 1])
    requires Registers(m, b[|b| - 1].path, b[|b| - 1].isDir, t', oks'[|b| - 1])
    ensures RegistersAll(t, a + b, t', oks + oks')
  {
    var n := |b| - 1;
    RegisterStep(t, a + b[..n], m, oks + oks'[..n], b[n], t', oks'[n]);
    EndsWithLast(a, b);
    EndsWithLast(oks, oks');
  }

  lemma EndsWithLast<T>(a: seq<T>, b: seq<T>)
    requires b != []
    ensures a + b[..|b| - 1] + [b[|b| - 1]] == a + b
  {
  }

  predicate WatchedAs(t: Table, path: Path, isDir: bool) {
    path in t.byPath && t.byPath[path] in t.entries && t.entries[t.byPath[path]].isDir == isDir
  }

  function FileItems(items: seq<Item>): nat {
    if items == [] then 0 else FileItems(items[..|items| - 1]) + if items[|items| - 1].isDir then 0 else 1
  }

  /** Nothing that was watched changes its kind or is dropped, and nothing new counts as evicted. */
  ghost predicate OnlyAdds(t: Table, t': Table) {
    && t'.budget == t.budget && t'.evicted.Keys <= t.evicted.Keys
    && forall p, d :: WatchedAs(t, p, d) ==> WatchedAs(t', p, d)
  }

  lemma InsertOnlyAdds(t: Table, fd: int, path: Path, isDir: bool, now: nat)
    requires path !in t.byPath && fd !in t.entries
    ensures var t' := Insert(t, fd, path, isDir, now);
            OnlyAdds(t, t') && WatchedAs(t', path, isDir) && t'.byPath.Keys == t.byPath.Keys + {path}
  {
  }

  lemma TouchOnlyAdds(t: Table, fd: int, t': Table)
    requires fd in t.entries && Touches(t, fd, t')
    ensures OnlyAdds(t, t') && t'.byPath == t.byPath && Files(t') == Files(t)
  {
    assert Files(t') == Files(t);
  }

  lemma OpenOnlyAdds(t: Table, path: Path, isDir: bool, t': Table, ok: bool)
    requires path !in t.byPath && Opens(t, path, isDir, t', ok)
    ensures OnlyAdds(t, t') && t'.byPath.Keys == t.byPath.Keys + if ok then {path} else {}
    ensures |Files(t')| <= |Files(t)| + if isDir then 0 else 1
    ensures ok ==> WatchedAs(t', path, isDir)
  {
    if ok {
      var fd :| fd !in Owned(t) && t'.clock >= t.clock && t' == Insert(t, fd, path, isDir, t'.clock);
      InsertFiles(t, fd, path, isDir, t'.clock);
      InsertOnlyAdds(t, fd, path, isDir, t'.clock);
    } else {
      assert t' == t.(log := t'.log);
      RefusalChangesNothing(t, t'.log);
    }
  }

  lemma RefusalChangesNothing(t: Table, log: seq<FdEvent>)
    ensures OnlyAdds(t, t.(log := log)) && Files(t.(log := log)) == Files(t)
  {
    assert Files(t.(log := log)) == Files(t);
  }

  /** With room in the budget, a registration evicts nothing and only adds its own path. */
  lemma {:induction false} RegisterWithRoom(t: Table, path: Path, isDir: bool, t': Table, ok: bool)
    requires Invariant(t) && Registers(t, path, isDir, t', ok) && (isDir || !AtBudget(t))
    ensures OnlyAdds(t, t') && t'.byPath.Keys == t.byPath.Keys + if ok then {path} else {}
    ensures |Files(t')| <= |Files(t)| + if isDir then 0 else 1
    ensures ok && path !in t.byPath ==> WatchedAs(t', path, isDir)
  {
    if path in t.byPath {
      TouchOnlyAdds(t, t.byPath[path], t');
    } else {
      OpenOnlyAdds(t, path, isDir, t', ok);
    }
  }

  ghost predicate Asked(items: seq<Item>, oks: seq<bool>, p: Path)
    requires |oks| == |items|
  {
    exists i :: 0 <= i < |items| && oks[i] && items[i].path == p
  }

  lemma AskedMore(items: seq<Item>, oks: seq<bool>, p: Path)
    requires |oks| == |items| > 0
    ensures var n := |items| - 1;
            Asked(items, oks, p) <==> Asked(items[..n], oks[..n], p) || (oks[n] && items[n].path == p)
  {
    var n := |items| - 1;
    if i :| 0 <= i < n && oks[i] && items[i].path == p {
      assert items[..n][i].path == p && oks[..n][i];
    }
  }

  lemma RegisterOneWithRoom(t: Table, item: Item, t': Table, ok: bool)
    requires Invariant(t) && Registers(t, item.path, item.isDir, t', ok) && (item.isDir || !AtBudget(t))
    ensures Invariant(t') && OnlyAdds(t, t') && |Files(t')| <= |Files(t)| + (if item.isDir then 0 else 1)
    ensures forall p :: p in t'.byPath <==> p in t.byPath || (ok && p == item.path)
  {
    RegisterWithRoom(t, item.path, item.isDir, t', ok);
    RegisterKeeps(t, item.path, item.isDir, t', ok);
    assert forall p :: p in t'.byPath <==> p in t'.byPath.Keys;
  }

  lemma {:induction false} RegisterAllWithRoom(t: Table, items: seq<Item>, t': Table, oks: seq<bool>)
    requires |oks| == |items| && Invariant(t) && RegistersAll(t, items, t', oks)
    requires |Files(t)| + FileItems(items) <= t.budget
    ensures Invariant(t') && OnlyAdds(t, t') && |Files(t')| <= |Files(t)| + FileItems(items)
    ensures forall p :: p in t'.byPath <==> p in t.byPath || Asked(items, oks, p)
  {
    if items != [] {
      var n := |items| - 1;
      var m :| RegistersAll(t, items[..n], m, oks[..n]) && Registers(m, items[n].path, items[n].isDir, t', oks[n]);
      RegisterAllWithRoom(t, items[..n], m, oks[..n]);
      RegisterOneWithRoom(m, items[n], t', oks[n]);
      forall p { AskedMore(items, oks, p); }
    }
  }

  datatype Stamped = Stamped(path: Path, mtime: nat)

  /** `sort_by_key(Reverse(mtime))`. */
  function SortNewest(files: seq<Stamped>): seq<Stamped> {
    SortByKey(files, Age)
  }

  function Age(f: Stamped): int {
    0 - f.mtime
  }

  function Dirs(paths: seq<Path>): seq<Item> {
    seq(|paths|, i requires 0 <= i < |paths| => Item(paths[i], true))
  }

  function Newest(files: seq<Stamped>, budget: nat): seq<Item> {
    var sorted := SortNewest(files);
    seq(if |sorted| < budget then |sorted| else budget, i requires 0 <= i < |sorted| => Item(sorted[i].path, false))
  }

  /** `register_tree`: all directories, then the newest files, as many as the budget allows. */
  function TreeItems(dirs: seq<Path>, files: seq<Stamped>, budget: nat): seq<Item> {
    Dirs(dirs) + Newest(files, budget)
  }

  lemma {:induction false} FileItemsAdd(a: seq<Item>, b: seq<Item>)
    ensures FileItems(a + b) == FileItems(a) + FileItems(b)
  {
    if b == [] {
      assert a + b == a;
    } else {
      assert (a + b)[..|a + b| - 1] == a + b[..|b| - 1];
      FileItemsAdd(a, b[..|b| - 1]);
    }
  }

  lemma {:induction false} FileItemsOfOneKind(items: seq<Item>, isDir: bool)
    requires forall i :: i in items ==> i.isDir == isDir
    ensures FileItems(items) == if isDir then 0 else |items|
  {
    if items != [] {
      FileItemsOfOneKind(items[..|items| - 1], isDir);
    }
  }

  lemma TreeFitsTheBudget(dirs: seq<Path>, files: seq<Stamped>, budget: nat)
    ensures FileItems(TreeItems(dirs, files, budget)) <= budget
  {
    FileItemsAdd(Dirs(dirs), Newest(files, budget));
    FileItemsOfOneKind(Dirs(dirs), true);
    FileItemsOfOneKind(Newest(files, budget), false);
  }

  ghost predicate KindsFollow(t: Table, dirs: set<Path>) {
    forall p :: p in t.byPath ==> WatchedAs(t, p, p in dirs)
  }

  /** Paths are watched as what they were asked for, if no path is asked for as both. */
  lemma {:induction false} KindsAreKept(t: Table, items: seq<Item>, t': Table, oks: seq<bool>, dirs: set<Path>)
    requires |oks| == |items| && Invariant(t) && RegistersAll(t, items, t', oks)
    requires |Files(t)| + FileItems(items) <= t.budget
    requires KindsFollow(t, dirs) && forall i :: i in items ==> (i.isDir <==> i.path in dirs)
    ensures KindsFollow(t', dirs)
  {
    if items != [] {
      var n := |items| - 1;
      var m :| RegistersAll(t, items[..n], m, oks[..n]) && Registers(m, items[n].path, items[n].isDir, t', oks[n]);
      RegisterAllWithRoom(t, items[..n], m, oks[..n]);
      KindsAreKept(t, items[..n], m, oks[..n], dirs);
      RegisterWithRoom(m, items[n].path, items[n].isDir, t', oks[n]);
      forall p | p in t'.byPath ensures WatchedAs(t', p, p in dirs) {
        if p in m.byPath {
          assert WatchedAs(m, p, p in dirs);
        } else {
          assert items[n] in items;
        }
      }
    }
  }

  /** The files registered at start-up are no older than any file left out, and there are budget-many if the tree has them. */
  lemma NewestAreNewest(files: seq<Stamped>, budget: nat)
    ensures |SortNewest(files)| == |files| && multiset(SortNewest(files)) == multiset(files)
    ensures |Newest(files, budget)| == if |files| < budget then |files| else budget
    ensures forall i :: 0 <= i < |Newest(files, budget)| ==> Newest(files, budget)[i] == Item(SortNewest(files)[i].path, false)
    ensures forall i, j :: 0 <= i < |Newest(files, budget)| <= j < |files|
                           ==> SortNewest(files)[i].mtime >= SortNewest(files)[j].mtime
  {
    assert |SortNewest(files)| == |multiset(SortNewest(files))| == |multiset(files)| == |files|;
  }

  /** Start-up asks for the directories first, in the order found, and then for files, newest first. */
  lemma TreeComesInOrder(dirs: seq<Path>, files: seq<Stamped>, budget: nat, i: nat)
    requires i < |TreeItems(dirs, files, budget)|
    ensures |TreeItems(dirs, files, budget)| == |dirs| + if |files| < budget then |files| else budget
    ensures i < |dirs| ==> TreeItems(dirs, files, budget)[i] == Item(dirs[i], true)
    ensures i >= |dirs| ==> exists f :: f in files && TreeItems(dirs, files, budget)[i] == Item(f.path, false)
    ensures forall k, l :: 0 <= k < l < |SortNewest(files)| ==> SortNewest(files)[k].mtime >= SortNewest(files)[l].mtime
  {
    NewestAreNewest(files, budget);
    if i >= |dirs| {
      var f := SortNewest(files)[i - |dirs|];
      assert f in multiset(SortNewest(files));
      assert TreeItems(dirs, files, budget)[i] == Newest(files, budget)[i - |dirs|];
    }
  }

  lemma ItemsAreDirsOrFiles(dirs: seq<Path>, files: seq<Stamped>, budget: nat)
    requires forall f :: f in files ==> f.path !in dirs
    ensures forall i :: i in Newest(files, budget) ==> !i.isDir && i.path !in dirs
    ensures forall i :: i in TreeItems(dirs, files, budget) <==> (i.isDir && i.path in dirs) || i in Newest(files, budget)
  {
    NewestAreNewest(files, budget);
    var sorted := SortNewest(files);
    forall f | f in sorted ensures f.path !in dirs {
      assert f in multiset(sorted);
      assert f in files;
    }
    forall i | i in Newest(files, budget) ensures !i.isDir && i.path !in dirs {
      var k :| 0 <= k < |Newest(files, budget)| && Newest(files, budget)[k] == i;
      assert sorted[k] in sorted;
    }
    forall i | i in Dirs(dirs) ensures i.isDir && i.path in dirs {
      var k :| 0 <= k < |Dirs(dirs)| && Dirs(dirs)[k] == i;
      assert dirs[k] == i.path;
    }
    forall i: Item | i.isDir && i.path in dirs ensures i in Dirs(dirs) {
      var k :| 0 <= k < |dirs| && dirs[k] == i.path;
      assert Dirs(dirs)[k] == i;
    }
  }

  /**
   Start-up on an empty table with every registration succeeding evicts nothing and watches exactly the
   directories, as directories, and the budget-many newest files, as files.
   */
  lemma {:induction false} TreeIsWatched(t: Table, dirs: seq<Path>, files: seq<Stamped>, t': Table, oks: seq<bool>)
    requires Invariant(t) && t.entries == map[] && t.evicted == map[]
    requires |oks| == |TreeItems(dirs, files, t.budget)| && RegistersAll(t, TreeItems(dirs, files, t.budget), t', oks)
    requires forall i :: 0 <= i < |oks| ==> oks[i]
    requires forall f :: f in files ==> f.path !in dirs
    ensures t'.evicted == map[]
    ensures forall p :: WatchedAs(t', p, true) <==> p in dirs
    ensures forall p :: WatchedAs(t', p, false) <==> Item(p, false) in Newest(files, t.budget)
  {
    var items, dirSet := TreeItems(dirs, files, t.budget), set p | p in dirs;
    assert Files(t) == {};
    TreeFitsTheBudget(dirs, files, t.budget);
    ItemsAreDirsOrFiles(dirs, files, t.budget);
    RegisterAllWithRoom(t, items, t', oks);
    KindsAreKept(t, items, t', oks, dirSet);
    forall p ensures p in t'.byPath <==> p in dirs || Item(p, false) in Newest(files, t.budget) {
      AskedIsListed(items, oks, p);
      assert p in dirs ==> Item(p, true) in items;
    }
    assert forall p :: p in t'.byPath ==> WatchedAs(t', p, p in dirSet);
  }

  lemma AskedIsListed(items: seq<Item>, oks: seq<bool>, p: Path)
    requires |oks| == |items| && forall i :: 0 <= i < |oks| ==> oks[i]
    ensures Asked(items, oks, p) <==> exists d :: Item(p, d) in items
  {
    if Asked(items, oks, p) {
      var i :| 0 <= i < |items| && oks[i] && items[i].path == p;
      assert Item(p, items[i].isDir) in items;
    }
    if d :| Item(p, d) in items {
      var i :| 0 <= i < |items| && items[i] == Item(p, d);
      assert oks[i];
    }
  }
}
