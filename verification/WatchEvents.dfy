/**
 Rescans, the event loop and the final drop of the kqueue watcher, as chains of the table's steps
 (rs/src/kqueue_watcher.rs).
 */
module WatchEvents {
  import opened Paths
  import opened Wrappers
  import opened WatchTable

  // --------------------------------------------------------------- rescans

  /** What a directory entry turns out to be; entries of other kinds or with unreadable types are ignored. */
  datatype Kind = Directory | Watchable | Ignored

  datatype Found = Found(path: Path, kind: Kind)

  /** One directory entry: `added` lists it if it is newly watched, `refused` if it could not be. */
  ghost predicate RescansOne(t: Table, e: Found, t': Table, added: seq<Path>, refused: seq<Path>) {
    match e.kind
    case Directory =>
      added == [] && exists ok :: Registers(t, e.path, true, t', ok) && refused == if ok then [] else [e.path]
    case Watchable =>
      if e.path in t.byPath then t' == t && added == [] && refused == []
      else
        || (Registers(t, e.path, false, t', true) && added == [e.path] && refused == [])
        || (Registers(t, e.path, false, t', false) && added == [] && refused == [e.path])
    case Ignored => t' == t && added == [] && refused == []
  }

  ghost predicate Rescans(t: Table, listing: seq<Found>, t': Table, added: seq<Path>, refused: seq<Path>)
    decreases |listing|, 1
  {
    if listing == [] then t' == t && added == [] && refused == []
    else exists m, a, r, a', r' :: Finishes(t, listing, t', added, refused, m, a, r, a', r')
  }

  /** A rescan up to the last entry, and the last entry. */
  ghost predicate Finishes(t: Table, listing: seq<Found>, t': Table, added: seq<Path>, refused: seq<Path>,
                           m: Table, a: seq<Path>, r: seq<Path>, a': seq<Path>, r': seq<Path>)
    requires listing != []
    decreases |listing|, 0
  {
    && Rescans(t, listing[..|listing| - 1], m, a, r) && RescansOne(m, listing[|listing| - 1], t', a', r')
    && added == a + a' && refused == r + r'
  }

  lemma LastEntry(t: Table, listing: seq<Found>, t': Table, added: seq<Path>, refused: seq<Path>)
    returns (m: Table, a: seq<Path>, r: seq<Path>, a': seq<Path>, r': seq<Path>)
    requires listing != [] && Rescans(t, listing, t', added, refused)
    ensures Rescans(t, listing[..|listing| - 1], m, a, r) && RescansOne(m, listing[|listing| - 1], t', a', r')
    ensures added == a + a' && refused == r + r'
  {
    m, a, r, a', r' :| Finishes(t, listing, t', added, refused, m, a, r, a', r');
  }

  lemma {:induction false} RescanStep(t: Table, listing: seq<Found>, m: Table, a: seq<Path>, r: seq<Path>,
                   e: Found, t': Table, a': seq<Path>, r': seq<Path>)
    requires Rescans(t, listing, m, a, r) && RescansOne(m, e, t', a', r')
    ensures Rescans(t, listing + [e], t', a + a', r + r')
  {
    var longer, n := listing + [e], |listing|;
    assert longer != [] && longer[..n] == listing && longer[n] == e;
    assert Finishes(t, longer, t', a + a', r + r', m, a, r, a', r');
  }

  /** The file is watched, or it was evicted to make room. */
  predicate Accounted(t: Table, p: Path) {
    p in t.byPath || p in t.evicted
  }

  lemma RegisterAccounts(t: Table, path: Path, isDir: bool, t': Table, ok: bool)
    requires Invariant(t) && Registers(t, path, isDir, t', ok)
    ensures ok ==> Accounted(t', path)
    ensures forall p :: Accounted(t, p) ==> Accounted(t', p)
  {
    if path !in t.byPath && !isDir && AtBudget(t) {
      var m :| EvictsIdle(t, m) && Opens(m, path, isDir, t', ok);
      EvictAccounts(t, m);
      OpenAccounts(m, path, isDir, t', ok);
    } else if path !in t.byPath {
      OpenAccounts(t, path, isDir, t', ok);
    }
  }

  lemma EvictAccounts(t: Table, m: Table)
    requires Inverse(t) && EvictsIdle(t, m)
    ensures forall p :: Accounted(t, p) ==> Accounted(m, p)
  {
  }

  lemma OpenAccounts(t: Table, path: Path, isDir: bool, t': Table, ok: bool)
    requires Opens(t, path, isDir, t', ok)
    ensures ok ==> Accounted(t', path)
    ensures forall p :: Accounted(t, p) ==> Accounted(t', p)
  {
  }

  predicate Distinct(paths: seq<Path>) {
    forall i, j :: 0 <= i < j < |paths| ==> paths[i] != paths[j]
  }

  predicate DistinctNames(listing: seq<Found>) {
    forall i, j :: 0 <= i < j < |listing| ==> listing[i].path != listing[j].path
  }

  /**
   A rescan keeps the invariant. What it reports is watched or accounted for, and afterwards every
   directory and watchable entry is watched, was evicted for a more recent one, or was refused by the system.
   */
  lemma {:induction false} RescanAccounts(t: Table, listing: seq<Found>, t': Table, added: seq<Path>, refused: seq<Path>)
    requires Invariant(t) && Rescans(t, listing, t', added, refused)
    ensures Invariant(t')
    ensures forall p :: Accounted(t, p) || p in added ==> Accounted(t', p)
    ensures forall e :: e in listing && !e.kind.Ignored? ==> Accounted(t', e.path) || e.path in refused
  {
    if listing != [] {
      var n := |listing| - 1;
      var m, a, r, a', r' := LastEntry(t, listing, t', added, refused);
      RescanAccounts(t, listing[..n], m, a, r);
      RescanOneAccounts(m, listing[n], t', a', r');
      forall e | e in listing && !e.kind.Ignored? ensures Accounted(t', e.path) || e.path in refused {
        assert e in listing[..n] || e == listing[n];
      }
    }
  }

  /** What is reported is in the listing, each path once. */
  lemma {:induction false} RescanReportsOnce(t: Table, listing: seq<Found>, t': Table, added: seq<Path>, refused: seq<Path>)
    requires Rescans(t, listing, t', added, refused) && DistinctNames(listing)
    ensures forall p :: p in added ==> Found(p, Watchable) in listing
    ensures Distinct(added)
  {
    if listing != [] {
      var n := |listing| - 1;
      var m, a, r, a', r' := LastEntry(t, listing, t', added, refused);
      RescanReportsOnce(t, listing[..n], m, a, r);
      forall p | p in a ensures p != listing[n].path {
        var i :| 0 <= i < n && listing[..n][i] == Found(p, Watchable);
        assert listing[i].path == p;
      }
      assert a' == [] || a' == [listing[n].path];
    }
  }

  /** Reports come in the order of the listing. */
  lemma {:induction false} RescanReportsInOrder(t: Table, listing: seq<Found>, t': Table, added: seq<Path>, refused: seq<Path>, k: nat, l: nat)
    returns (i: nat, j: nat)
    requires Rescans(t, listing, t', added, refused) && k < l < |added|
    ensures i < j < |listing| && listing[i].path == added[k] && listing[j].path == added[l]
  {
    var n := |listing| - 1;
    var m, a, r, a', r' := LastEntry(t, listing, t', added, refused);
    assert a' == [] || a' == [listing[n].path];
    if l < |a| {
      i, j := RescanReportsInOrder(t, listing[..n], m, a, r, k, l);
    } else {
      i := ReportIsListed(t, listing[..n], m, a, r, k);
      j := n;
    }
  }

  lemma {:induction false} ReportIsListed(t: Table, listing: seq<Found>, t': Table, added: seq<Path>, refused: seq<Path>, k: nat)
    returns (i: nat)
    requires Rescans(t, listing, t', added, refused) && k < |added|
    ensures i < |listing| && listing[i].path == added[k]
  {
    var n := |listing| - 1;
    var m, a, r, a', r' := LastEntry(t, listing, t', added, refused);
    assert a' == [] || a' == [listing[n].path];
    if k < |a| {
      i := ReportIsListed(t, listing[..n], m, a, r, k);
    } else {
      i := n;
    }
  }

  predicate Lists(listing: seq<Found>, p: Path) {
    exists i :: 0 <= i < |listing| && listing[i].path == p
  }

  lemma RegisterAddsOnly(t: Table, path: Path, isDir: bool, t': Table, ok: bool)
    requires Registers(t, path, isDir, t', ok)
    ensures forall p :: p in t'.byPath ==> p in t.byPath || p == path
  {
    if path !in t.byPath && !isDir && AtBudget(t) {
      var m :| EvictsIdle(t, m) && Opens(m, path, isDir, t', ok);
      assert forall p :: p in m.byPath ==> p in t.byPath;
    }
  }

  lemma RescanOneAddsOnly(t: Table, e: Found, t': Table, added: seq<Path>, refused: seq<Path>)
    requires RescansOne(t, e, t', added, refused)
    ensures forall p :: p in t'.byPath ==> p in t.byPath || p == e.path
    ensures forall p :: p in added + refused ==> p == e.path
    ensures e.kind.Watchable? && e.path !in t.byPath ==> (e.path in added <==> e.path !in refused)
  {
    if ok :| Registers(t, e.path, true, t', ok) {
      RegisterAddsOnly(t, e.path, true, t', ok);
    }
    if ok :| Registers(t, e.path, false, t', ok) {
      RegisterAddsOnly(t, e.path, false, t', ok);
    }
  }

  lemma ListsMore(listing: seq<Found>, p: Path)
    requires listing != []
    ensures Lists(listing, p) <==> Lists(listing[..|listing| - 1], p) || p == listing[|listing| - 1].path
  {
    var n := |listing| - 1;
    assert listing[..n] + [listing[n]] == listing;
    assert Lists(listing[..n], p) ==> exists i :: 0 <= i < n && listing[..n][i].path == p && listing[i].path == p;
  }

  lemma DistinctLast(listing: seq<Found>)
    requires DistinctNames(listing) && listing != []
    ensures DistinctNames(listing[..|listing| - 1]) && !Lists(listing[..|listing| - 1], listing[|listing| - 1].path)
  {
    var n := |listing| - 1;
    assert forall i :: 0 <= i < n ==> listing[..n][i] == listing[i] && listing[i].path != listing[n].path;
  }

  /** Every watchable entry that was not watched before is either reported or refused, even if it is evicted again. */
  lemma {:induction false} RescanReportsEveryNewFile(t: Table, listing: seq<Found>, t': Table, added: seq<Path>, refused: seq<Path>)
    requires Rescans(t, listing, t', added, refused) && DistinctNames(listing)
    ensures forall p :: p in t'.byPath ==> p in t.byPath || Lists(listing, p)
    ensures forall p :: p in added + refused ==> Lists(listing, p)
    ensures forall e :: e in listing && e.kind.Watchable? && e.path !in t.byPath
                        ==> (e.path in added <==> e.path !in refused)
  {
    if listing != [] {
      var n := |listing| - 1;
      var m, a, r, a', r' := LastEntry(t, listing, t', added, refused);
      DistinctLast(listing);
      RescanReportsEveryNewFile(t, listing[..n], m, a, r);
      RescanOneAddsOnly(m, listing[n], t', a', r');
      forall p { ListsMore(listing, p); }
      forall e | e in listing && e.kind.Watchable? && e.path !in t.byPath
        ensures e.path in added <==> e.path !in refused
      {
        if e != listing[n] {
          EarlierEntry(listing, e);
        } else {
          assert e.path !in a + r;
        }
      }
    }
  }

  ghost predicate RescanStepTo(t: Table, e: Found, t': Table) {
    exists added, refused :: RescansOne(t, e, t', added, refused)
  }

  /** The tables that a rescan goes through. */
  ghost predicate RescanTrace(listing: seq<Found>, ms: seq<Table>) {
    |ms| == |listing| + 1 && forall i :: 0 <= i < |listing| ==> RescanStepTo(ms[i], listing[i], ms[i + 1])
  }

  /** The entry, examined with the given table, is reported or refused exactly if it is unwatched then, and never both. */
  predicate ToldRight(e: Found, m: Table, added: seq<Path>, refused: seq<Path>) {
    e.kind.Watchable? ==>
      && (e.path in added || e.path in refused <==> e.path !in m.byPath)
      && !(e.path in added && e.path in refused)
  }

  /** Whatever is evicted on the way, a rescan tells right of each entry by the table with which it examines it. */
  lemma {:induction false} RescanReportsWhatItFindsUnwatched(t: Table, listing: seq<Found>, t': Table, added: seq<Path>, refused: seq<Path>)
    returns (ms: seq<Table>)
    requires Rescans(t, listing, t', added, refused) && DistinctNames(listing)
    ensures RescanTrace(listing, ms) && ms[0] == t && ms[|listing|] == t'
    ensures forall i :: 0 <= i < |listing| ==> ToldRight(listing[i], ms[i], added, refused)
    ensures forall p :: p in added + refused ==> Lists(listing, p)
  {
    if listing == [] {
      ms := [t];
    } else {
      var n := |listing| - 1;
      var m, a, r, a', r' := LastEntry(t, listing, t', added, refused);
      DistinctLast(listing);
      var front := RescanReportsWhatItFindsUnwatched(t, listing[..n], m, a, r);
      OneReport(m, listing[n], t', a', r');
      ms := front + [t'];
      assert listing[n].path !in a + r;
      forall i | 0 <= i < n ensures ToldRight(listing[i], ms[i], added, refused) {
        ToldStill(listing, i, front[i], a, r, a', r');
      }
      assert ToldRight(listing[n], m, added, refused);
      forall p | p in added + refused ensures Lists(listing, p) {
        ListsMore(listing, p);
      }
      TraceMore(listing, front, t', a', r');
    }
  }

  /** What the last entry adds does not change what was told of an earlier one. */
  lemma ToldStill(listing: seq<Found>, i: nat, m: Table, a: seq<Path>, r: seq<Path>, a': seq<Path>, r': seq<Path>)
    requires DistinctNames(listing) && i < |listing| - 1
    requires ToldRight(listing[..|listing| - 1][i], m, a, r)
    requires forall p :: p in a' + r' ==> p == listing[|listing| - 1].path
    ensures ToldRight(listing[i], m, a + a', r + r')
  {
    assert listing[i].path != listing[|listing| - 1].path;
    assert forall p :: p in a' || p in r' ==> p in a' + r';
  }

  lemma TraceMore(listing: seq<Found>, front: seq<Table>, t': Table, added: seq<Path>, refused: seq<Path>)
    requires listing != [] && RescanTrace(listing[..|listing| - 1], front)
    requires RescansOne(front[|listing| - 1], listing[|listing| - 1], t', added, refused)
    ensures RescanTrace(listing, front + [t'])
  {
    var ms, n := front + [t'], |listing| - 1;
    forall i | 0 <= i < |listing| ensures RescanStepTo(ms[i], listing[i], ms[i + 1]) {
      assert i < n ==> RescanStepTo(front[i], listing[..n][i], front[i + 1]);
    }
  }

  lemma {:induction false} RegisterWatchesAs(t: Table, path: Path, isDir: bool, t': Table, ok: bool, p: Path, d: bool)
    requires Invariant(t) && Registers(t, path, isDir, t', ok)
    requires p in t'.byPath && t'.entries[t'.byPath[p]].isDir == d
    ensures (p in t.byPath && t.entries[t.byPath[p]].isDir == d) || (p == path && d == isDir)
  {
    RegisterKeeps(t, path, isDir, t', ok);
    if path !in t.byPath && !isDir && AtBudget(t) {
      var m :| EvictsIdle(t, m) && Opens(m, path, isDir, t', ok);
      EvictKeeps(t, m);
      OpenWatchesAs(m, path, isDir, t', ok, p, d);
    } else if path !in t.byPath {
      OpenWatchesAs(t, path, isDir, t', ok, p, d);
    }
  }

  lemma {:induction false} OpenWatchesAs(t: Table, path: Path, isDir: bool, t': Table, ok: bool, p: Path, d: bool)
    requires Inverse(t) && Opens(t, path, isDir, t', ok) && path !in t.byPath
    requires p in t'.byPath && t'.byPath[p] in t'.entries && t'.entries[t'.byPath[p]].isDir == d
    ensures (p in t.byPath && t.entries[t.byPath[p]].isDir == d) || (p == path && d == isDir)
  {
  }

  /** What is newly watched after a rescan was in the listing, as a directory or as a watchable file, and is watched as that. */
  lemma {:induction false} RescanWatchesAsFound(t: Table, listing: seq<Found>, t': Table, added: seq<Path>, refused: seq<Path>, p: Path, d: bool)
    requires Invariant(t) && Rescans(t, listing, t', added, refused)
    requires p in t'.byPath && t'.byPath[p] in t'.entries && t'.entries[t'.byPath[p]].isDir == d
    ensures || (p in t.byPath && t.entries[t.byPath[p]].isDir == d)
            || Found(p, if d then Directory else Watchable) in listing
  {
    if listing != [] {
      var n := |listing| - 1;
      var m, a, r, a', r' := LastEntry(t, listing, t', added, refused);
      RescanAccounts(t, listing[..n], m, a, r);
      EntryWatchesAs(m, listing[n], t', a', r', p, d);
      if p in m.byPath && m.entries[m.byPath[p]].isDir == d {
        RescanWatchesAsFound(t, listing[..n], m, a, r, p, d);
      } else {
        assert listing[n] in listing;
      }
    }
  }

  lemma {:induction false} EntryWatchesAs(t: Table, e: Found, t': Table, added: seq<Path>, refused: seq<Path>, p: Path, d: bool)
    requires Invariant(t) && RescansOne(t, e, t', added, refused)
    requires p in t'.byPath && t'.byPath[p] in t'.entries && t'.entries[t'.byPath[p]].isDir == d
    ensures (p in t.byPath && t.entries[t.byPath[p]].isDir == d) || e == Found(p, if d then Directory else Watchable)
  {
    match e.kind
    case Directory =>
      var ok :| Registers(t, e.path, true, t', ok);
      RegisterWatchesAs(t, e.path, true, t', ok, p, d);
    case Watchable =>
      if e.path !in t.byPath {
        RegisterWatchesAs(t, e.path, false, t', refused == [], p, d);
      }
    case Ignored =>
  }

  // ---------------------------------------------- what a rescan does not see

  /** What stands below a directory. */
  datatype Tree = Tree(path: Path, kind: Kind, children: seq<Tree>)

  /** The entries of the directory itself, which is all that a rescan reads. */
  function Listing(children: seq<Tree>): seq<Found> {
    seq(|children|, i requires 0 <= i < |children| => Found(children[i].path, children[i].kind))
  }

  /** The watchable files at any depth. */
  function FilesBelow(children: seq<Tree>): set<Path> {
    if children == [] then {}
    else
      var first := children[0];
      (if first.kind.Watchable? then {first.path} else {})
      + (if first.kind.Directory? then FilesBelow(first.children) else {})
      + FilesBelow(children[1..])
  }

  predicate IsDirectChild(children: seq<Tree>, p: Path) {
    exists i :: 0 <= i < |children| && children[i].path == p
  }

  /**
   Of the watchable files below a directory, at any depth, that are not watched yet, a rescan reports or refuses
   exactly its direct children. The others, in a new subdirectory for one, stay unwatched.
   */
  lemma {:induction false} RescanFindsExactlyDirectChildren(t: Table, children: seq<Tree>, t': Table, added: seq<Path>, refused: seq<Path>, p: Path)
    requires Rescans(t, Listing(children), t', added, refused) && DistinctNames(Listing(children))
    requires p in FilesBelow(children) && p !in t.byPath
    requires forall i :: 0 <= i < |children| && children[i].path == p ==> children[i].kind.Watchable?
    ensures p in added || p in refused <==> IsDirectChild(children, p)
    ensures !IsDirectChild(children, p) ==> p !in t'.byPath
  {
    RescanReportsEveryNewFile(t, Listing(children), t', added, refused);
    assert Lists(Listing(children), p) ==> IsDirectChild(children, p);
    assert p in added || p in refused ==> p in added + refused;
    if IsDirectChild(children, p) {
      var i :| 0 <= i < |children| && children[i].path == p;
      assert Listing(children)[i] in Listing(children);
    }
  }

  /**
   A path that the table has is not opened again, whatever became of what stood there: a directory deleted and
   made anew keeps the descriptor of the old one until that one's own event.
   */
  lemma KnownPathIsNotReopened(t: Table, path: Path, isDir: bool, t': Table, ok: bool)
    requires Registers(t, path, isDir, t', ok)
    ensures path in t.byPath ==> ok && t'.byPath == t.byPath && t'.log == t.log && t'.entries.Keys == t.entries.Keys
    ensures path !in t.byPath && ok ==> |t'.log| > |t.log|
  {
    if path !in t.byPath && !isDir && AtBudget(t) {
      var m :| EvictsIdle(t, m) && Opens(m, path, isDir, t', ok);
      assert |m.log| >= |t.log|;
    }
  }

  lemma OneReport(t: Table, e: Found, t': Table, added: seq<Path>, refused: seq<Path>)
    requires RescansOne(t, e, t', added, refused)
    ensures forall p :: p in added + refused ==> p == e.path
    ensures e.kind.Watchable? ==> (e.path in added || e.path in refused <==> e.path !in t.byPath)
    ensures !(e.path in added && e.path in refused)
  {
  }

  lemma EarlierEntry(listing: seq<Found>, e: Found)
    requires e in listing && DistinctNames(listing) && e != listing[|listing| - 1]
    ensures e in listing[..|listing| - 1] && e.path != listing[|listing| - 1].path
  {
    var i :| 0 <= i < |listing| && listing[i] == e;
    assert listing[..|listing| - 1][i] == e;
  }

  lemma RescanOneAccounts(t: Table, e: Found, t': Table, added: seq<Path>, refused: seq<Path>)
    requires Invariant(t) && RescansOne(t, e, t', added, refused)
    ensures Invariant(t')
    ensures forall p :: Accounted(t, p) ==> Accounted(t', p)
    ensures added == [] || (added == [e.path] && e.kind.Watchable? && e.path !in t.byPath && Accounted(t', e.path))
    ensures !e.kind.Ignored? ==> Accounted(t', e.path) || e.path in refused
  {
    match e.kind
    case Directory =>
      var ok :| Registers(t, e.path, true, t', ok) && refused == if ok then [] else [e.path];
      RegisterKeeps(t, e.path, true, t', ok);
      RegisterAccounts(t, e.path, true, t', ok);
    case Watchable =>
      if e.path !in t.byPath {
        var ok := refused == [];
        RegisterKeeps(t, e.path, false, t', ok);
        RegisterAccounts(t, e.path, false, t', ok);
      }
    case Ignored =>
  }

  // ------------------------------------------------------------ event loop

  /** `gone` stands for a delete or rename flag. */
  datatype VnodeEvent = VnodeEvent(fd: int, gone: bool)

  /** An event, and what listing the directory would give at that moment if it is one. */
  datatype Occurrence = Occurrence(event: VnodeEvent, listing: Option<seq<Found>>)

  /** `changed` lists the calls made back to the file reader. */
  ghost predicate Handles(t: Table, o: Occurrence, t': Table, changed: seq<Path>) {
    var fd := o.event.fd;
    if fd !in t.entries then t' == t && changed == []
    else if o.event.gone then t' == Unregister(t, fd) && changed == []
    else if t.entries[fd].isDir then
      if o.listing.None? then t' == t && changed == []
      else exists refused :: Rescans(t, o.listing.value, t', changed, refused)
    else Touches(t, fd, t') && changed == [t.entries[fd].path]
  }

  ghost predicate Loops(t: Table, os: seq<Occurrence>, t': Table, changed: seq<Path>) {
    if os == [] then t' == t && changed == []
    else
      var n := |os| - 1;
      exists m, c, c' :: Loops(t, os[..n], m, c) && Handles(m, os[n], t', c') && changed == c + c'
  }

  lemma {:induction false} LoopStep(t: Table, os: seq<Occurrence>, m: Table, c: seq<Path>, o: Occurrence, t': Table, c': seq<Path>)
    requires Loops(t, os, m, c) && Handles(m, o, t', c')
    ensures Loops(t, os + [o], t', c + c')
  {
    var os' := os + [o];
    assert os'[..|os'| - 1] == os;
    assert Loops(t, os'[..|os'| - 1], m, c) && Handles(m, os'[|os'| - 1], t', c');
  }

  lemma HandleKeeps(t: Table, o: Occurrence, t': Table, changed: seq<Path>)
    requires Invariant(t) && Handles(t, o, t', changed)
    ensures Invariant(t')
  {
    var fd := o.event.fd;
    if fd in t.entries {
      if o.event.gone {
        UnregisterKeeps(t, fd);
      } else if t.entries[fd].isDir {
        if o.listing.Some? {
          var refused :| Rescans(t, o.listing.value, t', changed, refused);
          RescanAccounts(t, o.listing.value, t', changed, refused);
        }
      } else {
        TouchKeeps(t, fd, t');
      }
    }
  }

  /** Whatever events arrive, stale ones included, and whatever the system refuses, the invariant holds. */
  lemma {:induction false} EveryRunKeepsTheInvariant(t: Table, os: seq<Occurrence>, t': Table, changed: seq<Path>)
    requires Invariant(t) && Loops(t, os, t', changed)
    ensures Invariant(t')
  {
    if os != [] {
      var n := |os| - 1;
      var m, c, c' :| Loops(t, os[..n], m, c) && Handles(m, os[n], t', c') && changed == c + c';
      EveryRunKeepsTheInvariant(t, os[..n], m, c);
      HandleKeeps(m, os[n], t', c');
    }
  }

  // --------------------------------------------- directories are never evicted

  ghost predicate KeepsDirs(t: Table, t': Table) {
    forall fd :: fd in t.entries && t.entries[fd].isDir ==>
                   fd in t'.entries && t'.entries[fd].isDir && t'.entries[fd].path == t.entries[fd].path
  }

  lemma OpenKeepsDirs(t: Table, path: Path, isDir: bool, t': Table, ok: bool)
    requires Opens(t, path, isDir, t', ok)
    ensures KeepsDirs(t, t')
  {
  }

  lemma EvictKeepsDirs(t: Table, m: Table)
    requires EvictsIdle(t, m)
    ensures KeepsDirs(t, m)
  {
  }

  lemma RegisterKeepsDirs(t: Table, path: Path, isDir: bool, t': Table, ok: bool)
    requires Registers(t, path, isDir, t', ok)
    ensures KeepsDirs(t, t')
  {
    if path !in t.byPath && !isDir && AtBudget(t) {
      var m :| EvictsIdle(t, m) && Opens(m, path, isDir, t', ok);
      EvictKeepsDirs(t, m);
      OpenKeepsDirs(m, path, isDir, t', ok);
    } else if path !in t.byPath {
      OpenKeepsDirs(t, path, isDir, t', ok);
    }
  }

  lemma {:induction false} RescanKeepsDirs(t: Table, listing: seq<Found>, t': Table, added: seq<Path>, refused: seq<Path>)
    requires Rescans(t, listing, t', added, refused)
    ensures KeepsDirs(t, t')
  {
    if listing != [] {
      var n := |listing| - 1;
      var m, a, r, a', r' := LastEntry(t, listing, t', added, refused);
      RescanKeepsDirs(t, listing[..n], m, a, r);
      if ok :| Registers(m, listing[n].path, true, t', ok) {
        RegisterKeepsDirs(m, listing[n].path, true, t', ok);
      }
      if ok :| Registers(m, listing[n].path, false, t', ok) {
        RegisterKeepsDirs(m, listing[n].path, false, t', ok);
      }
      assert KeepsDirs(m, t');
    }
  }

  /** A directory's watch ends only with a delete or rename event on its own descriptor. */
  lemma {:induction false} DirsAreNeverEvicted(t: Table, os: seq<Occurrence>, t': Table, changed: seq<Path>, fd: int)
    requires Loops(t, os, t', changed) && fd in t.entries && t.entries[fd].isDir
    requires VnodeEvent(fd, true) !in seq(|os|, i requires 0 <= i < |os| => os[i].event)
    ensures fd in t'.entries && t'.entries[fd].isDir && t'.entries[fd].path == t.entries[fd].path
  {
    if os != [] {
      var n := |os| - 1;
      var m, c, c' :| Loops(t, os[..n], m, c) && Handles(m, os[n], t', c') && changed == c + c';
      var events := seq(|os|, i requires 0 <= i < |os| => os[i].event);
      assert events[n] == os[n].event;
      assert seq(n, i requires 0 <= i < n => os[..n][i].event) == events[..n];
      DirsAreNeverEvicted(t, os[..n], m, c, fd);
      var g := os[n].event.fd;
      if g in m.entries && !os[n].event.gone && m.entries[g].isDir && os[n].listing.Some? {
        var refused :| Rescans(m, os[n].listing.value, t', c', refused);
        RescanKeepsDirs(m, os[n].listing.value, t', c', refused);
      }
    }
  }

  /**
   What a poll can deliver: events of descriptors that the table holds when it returns, and deletes or renames
   only of files, since directories are watched for changed entries alone.
   */
  predicate Polled(t: Table, os: seq<Occurrence>) {
    forall o :: o in os ==> o.event.fd in t.entries && (o.event.gone ==> !t.entries[o.event.fd].isDir)
  }

  /** One batch after another, as polled. */
  ghost predicate Batches(ts: seq<Table>, batches: seq<seq<Occurrence>>, changed: seq<seq<Path>>) {
    && |ts| == |batches| + 1 && |changed| == |batches|
    && forall i :: 0 <= i < |batches| ==> Polled(ts[i], batches[i]) && Loops(ts[i], batches[i], ts[i + 1], changed[i])
  }

  lemma {:induction false} BatchKeepsDirs(t: Table, os: seq<Occurrence>, t': Table, changed: seq<Path>)
    requires Polled(t, os) && Loops(t, os, t', changed)
    ensures KeepsDirs(t, t')
  {
    forall fd | fd in t.entries && t.entries[fd].isDir
      ensures fd in t'.entries && t'.entries[fd].isDir && t'.entries[fd].path == t.entries[fd].path
    {
      var events := seq(|os|, i requires 0 <= i < |os| => os[i].event);
      forall i | 0 <= i < |os| ensures events[i] != VnodeEvent(fd, true) {
        assert os[i] in os;
      }
      DirsAreNeverEvicted(t, os, t', changed, fd);
    }
  }

  /** A directory that is watched when some poll returns stays watched for the rest of the run, under its descriptor. */
  lemma {:induction false} PolledDirsStayWatched(ts: seq<Table>, batches: seq<seq<Occurrence>>, changed: seq<seq<Path>>, i: nat, j: nat)
    requires Batches(ts, batches, changed) && i <= j <= |batches|
    ensures KeepsDirs(ts[i], ts[j])
    decreases j
  {
    if i < j {
      PolledDirsStayWatched(ts, batches, changed, i, j - 1);
      BatchKeepsDirs(ts[j - 1], batches[j - 1], ts[j], changed[j - 1]);
      assert forall fd :: fd in ts[i].entries && ts[i].entries[fd].isDir ==> fd in ts[j - 1].entries && ts[j - 1].entries[fd].isDir;
    }
  }

  // ------------------------------------------------------------------ drop

  function Closing(fds: seq<int>): seq<FdEvent> {
    seq(|fds|, i requires 0 <= i < |fds| => Closed(fds[i]))
  }

  ghost predicate Enumerates(fds: seq<int>, s: set<int>) {
    && (forall i, j :: 0 <= i < j < |fds| ==> fds[i] != fds[j])
    && (forall fd :: fd in fds <==> fd in s)
  }

  lemma EnumeratesMore(fds: seq<int>, s: set<int>, fd: int)
    requires Enumerates(fds, s) && fd !in s
    ensures Enumerates(fds + [fd], s + {fd})
  {
    forall g ensures g in fds + [fd] <==> g in s + {fd} {
    }
  }

  lemma {:induction false} CloseAll(log: seq<FdEvent>, fds: seq<int>, s: set<int>)
    requires WellPaired(log) && s <= OpenAfter(log) && Enumerates(fds, s)
    ensures WellPaired(log + Closing(fds)) && OpenAfter(log + Closing(fds)) == OpenAfter(log) - s
    decreases |fds|
  {
    if fds == [] {
      assert log + Closing(fds) == log;
      assert forall fd :: fd in s ==> fd in fds;
    } else {
      var n := |fds| - 1;
      assert fds[n] in fds;
      CloseAll(log, fds[..n], s - {fds[n]});
      LogMore(log + Closing(fds[..n]), Closed(fds[n]));
      assert log + Closing(fds) == log + Closing(fds[..n]) + [Closed(fds[n])];
    }
  }

  /** Dropping the watcher leaves nothing open: over its whole life every descriptor was closed as often as opened. */
  lemma DropClosesEverything(t: Table, fds: seq<int>, fd: int)
    requires Invariant(t) && Enumerates(fds, t.entries.Keys)
    ensures var log := t.log + Closing(fds) + [Closed(t.kq)];
            WellPaired(log) && OpenAfter(log) == {} && Count(log, Opened(fd)) == Count(log, Closed(fd))
  {
    CloseAll(t.log, fds, t.entries.Keys);
    LogMore(t.log + Closing(fds), Closed(t.kq));
    EveryOpenIsClosedOnce(t.log + Closing(fds) + [Closed(t.kq)], fd);
  }

  // ----------------------------------------------------------- two surprises

  /**
   A registration that the system refuses still costs an idle file its watch, exactly when it asked for
   room: the eviction comes before the attempt to open.
   */
  lemma {:induction false} RefusedRegistrationStillEvicts(t: Table, path: Path, isDir: bool, t': Table)
    requires Invariant(t) && Registers(t, path, isDir, t', false)
    ensures t'.byPath != t.byPath <==> !isDir && AtBudget(t) && Files(t) != {}
    ensures t'.byPath != t.byPath ==>
              exists fd :: Victim(t, fd) && t'.byPath == t.byPath - {t.entries[fd].path}
                           && t.entries[fd].path in t'.evicted
  {
    if !isDir && AtBudget(t) {
      var m :| EvictsIdle(t, m) && Opens(m, path, isDir, t', false);
      if Files(t) != {} {
        var fd :| Victim(t, fd) && m == Evict(t, fd);
        assert t.entries[fd].path in t.byPath && t.entries[fd].path !in m.byPath;
      }
    }
  }

  /** An event whose descriptor is watched acts on the file that the descriptor stands for when it is handled. */
  lemma GoneEventsActOnTheCurrentEntry(t: Table, o: Occurrence, t': Table, changed: seq<Path>, p: Path)
    requires Invariant(t) && o.event.gone && Handles(t, o, t', changed)
    ensures p in t.byPath && p !in t'.byPath <==> p in t.byPath && t.byPath[p] == o.event.fd
  {
  }

  /**
   In any table at its budget, within one batch, the event that was meant for the idlest file can drop the
   watch of a file that has just taken over its descriptor: a directory's event comes first, its rescan
   evicts the idle file, and the system hands the freed descriptor to the new one.
   */
  lemma StaleEventHitsReusedDescriptor(t: Table, dir: int, idle: int, taken: Path) returns (t1: Table, t2: Table)
    requires Invariant(t) && AtBudget(t) && Victim(t, idle)
    requires dir in t.entries && t.entries[dir].isDir && taken !in t.byPath
    ensures Handles(t, Occurrence(VnodeEvent(dir, false), Some([Found(taken, Watchable)])), t1, [taken])
    ensures Handles(t1, Occurrence(VnodeEvent(idle, true), None), t2, [])
    ensures taken in t1.byPath && taken !in t2.byPath
  {
    var m := Evict(t, idle);
    t1 := Insert(m, idle, taken, false, m.clock);
    t2 := Unregister(t1, idle);
    EvictThenOpen(t, idle, taken);
    var e := Found(taken, Watchable);
    assert Rescans(t, [], t, [], []);
    assert RescansOne(t, e, t1, [taken], []);
    RescanStep(t, [], t, [], [], e, t1, [taken], []);
    assert [] + [e] == [e] && [] + [taken] == [taken];
  }

  lemma EvictThenOpen(t: Table, idle: int, taken: Path)
    requires Invariant(t) && AtBudget(t) && Victim(t, idle) && taken !in t.byPath
    ensures Registers(t, taken, false, Insert(Evict(t, idle), idle, taken, false, t.clock), true)
  {
    var m := Evict(t, idle);
    var t1 := Insert(m, idle, taken, false, t.clock);
    assert EvictsIdle(t, m);
    assert idle !in Owned(m);
    assert Opens(m, taken, false, t1, true);
  }
}
