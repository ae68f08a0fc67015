/**
 What a run of the kqueue watcher did, event by event: which calls to the file reader it made, and which
 file was used when, which is what evictions go by (rs/src/kqueue_watcher.rs).
 */
module WatchHistory {
  import opened Paths
  import opened Sequences
  import opened Wrappers
  import opened WatchTable
  import opened WatchRuns
  import opened WatchEvents

  // ------------------------------------------------------------ the history

  /** A registration and whether it was granted, a write to a watched file, or the end of a watch; and the clock after it. */
  datatype Op =
    | Enrol(path: Path, isDir: bool, ok: bool, at: nat)
    | Write(fd: int, path: Path, at: nat)
    | Gone(fd: int)

  ghost predicate Takes(t: Table, op: Op, t': Table) {
    match op
    case Enrol(path, isDir, ok, at) => Registers(t, path, isDir, t', ok) && at == t'.clock
    case Write(fd, path, at) =>
      && fd in t.entries && !t.entries[fd].isDir && path == t.entries[fd].path && at == t'.clock
      && Handles(t, Occurrence(VnodeEvent(fd, false), None), t', [path])
    case Gone(fd) => fd in t.entries && Handles(t, Occurrence(VnodeEvent(fd, true), None), t', [])
  }

  ghost predicate History(t: Table, ops: seq<Op>, t': Table) {
    if ops == [] then t' == t
    else exists m :: History(t, Front(ops), m) && Takes(m, Last(ops), t')
  }

  lemma {:induction false} HistoryMore(t: Table, ops: seq<Op>, m: Table, op: Op, t': Table)
    requires History(t, ops, m) && Takes(m, op, t')
    ensures History(t, ops + [op], t')
  {
    var longer := ops + [op];
    assert Front(longer) == ops && Last(longer) == op;
    assert History(t, Front(longer), m) && Takes(m, Last(longer), t');
  }

  lemma {:induction false} HistoryConcat(t: Table, a: seq<Op>, m: Table, b: seq<Op>, t': Table)
    requires History(t, a, m) && History(m, b, t')
    ensures History(t, a + b, t')
    decreases |b|
  {
    if b == [] {
      assert a + b == a;
    } else {
      var m' := LastOp(m, b, t');
      HistoryConcat(t, a, m, Front(b), m');
      HistoryOneMore(t, a, b, m', t');
    }
  }

  lemma {:induction false} HistoryOneMore(t: Table, a: seq<Op>, b: seq<Op>, m: Table, t': Table)
    requires b != [] && History(t, a + Front(b), m) && Takes(m, Last(b), t')
    ensures History(t, a + b, t')
  {
    var whole := a + b;
    assert whole != [] && Front(whole) == a + Front(b) && Last(whole) == Last(b);
    assert History(t, Front(whole), m) && Takes(m, Last(whole), t');
  }

  lemma LastOp(t: Table, ops: seq<Op>, t': Table) returns (m: Table)
    requires ops != [] && History(t, ops, t')
    ensures History(t, Front(ops), m) && Takes(m, Last(ops), t')
  {
    m :| History(t, Front(ops), m) && Takes(m, Last(ops), t');
  }

  /** When the path was last used: registered, or registered again, or written to while watched. */
  function LastUsed(ops: seq<Op>, p: Path): Option<nat> {
    if ops == [] then None
    else
      match Last(ops)
      case Enrol(path, _, ok, at) => if ok && path == p then Some(at) else LastUsed(Front(ops), p)
      case Write(_, path, at) => if path == p then Some(at) else LastUsed(Front(ops), p)
      case Gone(_) => LastUsed(Front(ops), p)
  }

  // --------------------------------------------------------- stamps and uses

  /** Every watched path bears the time of its last use. */
  ghost predicate StampsAreUses(t: Table, ops: seq<Op>) {
    forall p :: p in t.byPath ==> t.byPath[p] in t.entries && LastUsed(ops, p) == Some(t.entries[t.byPath[p]].lastActive)
  }

  /** Any path but the registered one that is still watched is so as before. */
  lemma RegisterLeavesOthers(t: Table, path: Path, isDir: bool, t': Table, ok: bool, p: Path)
    requires Invariant(t) && Registers(t, path, isDir, t', ok) && p in t'.byPath
    ensures p != path || !ok ==>
              p in t.byPath && t'.byPath[p] == t.byPath[p] && t.byPath[p] in t.entries && t.byPath[p] in t'.entries
              && t'.entries[t.byPath[p]] == t.entries[t.byPath[p]]
    ensures p == path && ok ==> t'.byPath[p] in t'.entries && t'.entries[t'.byPath[p]].lastActive == t'.clock
  {
    if path !in t.byPath && !isDir && AtBudget(t) {
      var m :| EvictsIdle(t, m) && Opens(m, path, isDir, t', ok);
      EvictKeeps(t, m);
      OpenLeavesOthers(m, path, isDir, t', ok, p);
      EvictLeavesOthers(t, m);
    } else if path !in t.byPath {
      OpenLeavesOthers(t, path, isDir, t', ok, p);
    }
  }

  lemma EvictLeavesOthers(t: Table, m: Table)
    requires Inverse(t) && EvictsIdle(t, m) && Inverse(m)
    ensures forall p :: p in m.byPath ==> p in t.byPath && m.byPath[p] == t.byPath[p]
                                          && m.entries[m.byPath[p]] == t.entries[m.byPath[p]]
  {
  }

  lemma OpenLeavesOthers(t: Table, path: Path, isDir: bool, t': Table, ok: bool, p: Path)
    requires Inverse(t) && Opens(t, path, isDir, t', ok) && path !in t.byPath && p in t'.byPath
    ensures p != path || !ok ==>
              p in t.byPath && t'.byPath[p] == t.byPath[p] && t.byPath[p] in t.entries && t.byPath[p] in t'.entries
              && t'.entries[t.byPath[p]] == t.entries[t.byPath[p]]
    ensures p == path && ok ==> t'.byPath[p] in t'.entries && t'.entries[t'.byPath[p]].lastActive == t'.clock
  {
  }

  lemma TakingKeepsInvariant(t: Table, op: Op, t': Table)
    requires Invariant(t) && Takes(t, op, t')
    ensures Invariant(t')
  {
    match op
    case Enrol(path, isDir, ok, _) => RegisterKeeps(t, path, isDir, t', ok);
    case Write(fd, path, _) => HandleKeeps(t, Occurrence(VnodeEvent(fd, false), None), t', [path]);
    case Gone(fd) => HandleKeeps(t, Occurrence(VnodeEvent(fd, true), None), t', []);
  }

  lemma TakingKeepsStamps(t: Table, ops: seq<Op>, op: Op, t': Table)
    requires Invariant(t) && Takes(t, op, t') && StampsAreUses(t, ops)
    ensures StampsAreUses(t', ops + [op])
  {
    var longer := ops + [op];
    assert Front(longer) == ops && Last(longer) == op;
    TakingKeepsInvariant(t, op, t');
    forall p | p in t'.byPath
      ensures t'.byPath[p] in t'.entries && LastUsed(longer, p) == Some(t'.entries[t'.byPath[p]].lastActive)
    {
      if op.Enrol? {
        RegisterLeavesOthers(t, op.path, op.isDir, t', op.ok, p);
      } else {
        assert p in t.byPath && t.byPath[p] in t.entries;
      }
    }
  }

  /** Over any history from an empty table, the stamps that evictions go by are the times of last use. */
  lemma {:induction false} StampsAreTimesOfLastUse(t: Table, ops: seq<Op>, t': Table)
    requires Invariant(t) && t.entries == map[] && t.byPath == map[] && History(t, ops, t')
    ensures Invariant(t') && StampsAreUses(t', ops)
  {
    if ops != [] {
      var m := LastOp(t, ops, t');
      StampsAreTimesOfLastUse(t, Front(ops), m);
      TakingKeepsInvariant(m, Last(ops), t');
      TakingKeepsStamps(m, Front(ops), Last(ops), t');
      assert ops == Front(ops) + [Last(ops)];
    }
  }

  /**
   Of two watched files, the one used later, by the history, outlives the other: a registration that loses one of
   them loses the one used earlier and keeps the one used later.
   */
  lemma {:induction false} LaterUsedFileIsKept(t0: Table, ops: seq<Op>, t: Table, path: Path, isDir: bool, t': Table, ok: bool, later: Path, earlier: Path)
    requires Invariant(t0) && t0.entries == map[] && t0.byPath == map[] && History(t0, ops, t)
    requires Registers(t, path, isDir, t', ok)
    requires later in t.byPath && earlier in t.byPath && t.byPath[later] in t.entries && t.byPath[earlier] in t.entries
    requires !t.entries[t.byPath[later]].isDir && !t.entries[t.byPath[earlier]].isDir
    requires LastUsed(ops, later).Some? && LastUsed(ops, earlier).Some?
    requires LastUsed(ops, earlier).value < LastUsed(ops, later).value
    ensures later !in t'.byPath || earlier !in t'.byPath ==> later in t'.byPath && earlier !in t'.byPath
  {
    StampsAreTimesOfLastUse(t0, ops, t);
    RegisterLosesIdler(t, path, isDir, t', ok, later, earlier);
  }

  lemma RegisterLosesIdler(t: Table, path: Path, isDir: bool, t': Table, ok: bool, later: Path, earlier: Path)
    requires Invariant(t) && Registers(t, path, isDir, t', ok) && later in t.byPath && earlier in t.byPath
    requires t.byPath[later] in Files(t) && t.byPath[earlier] in Files(t)
    requires t.entries[t.byPath[earlier]].lastActive < t.entries[t.byPath[later]].lastActive
    ensures later in t'.byPath
  {
    if path !in t.byPath && !isDir && AtBudget(t) {
      var m :| EvictsIdle(t, m) && Opens(m, path, isDir, t', ok);
      IdlerGoes(t, m, later, earlier);
    }
  }

  lemma IdlerGoes(t: Table, m: Table, later: Path, earlier: Path)
    requires Inverse(t) && EvictsIdle(t, m) && later in t.byPath && earlier in t.byPath
    requires t.byPath[later] in Files(t) && t.byPath[earlier] in Files(t)
    requires t.entries[t.byPath[earlier]].lastActive < t.entries[t.byPath[later]].lastActive
    ensures later in m.byPath
  {
    var g, h := t.byPath[earlier], t.byPath[later];
    assert g in Files(t) && h in Files(t);
    var fd :| Victim(t, fd) && m == Evict(t, fd);
    assert fd in Files(t) && (g in Files(t) ==> t.entries[fd].lastActive <= t.entries[g].lastActive);
    assert fd != h;
  }

  /** A write stamps its file with the clock, and no entry bears a later stamp; everything else stays. */
  lemma WriteStampsLatest(t: Table, fd: int, t': Table, changed: seq<Path>)
    requires Invariant(t) && fd in t.entries && !t.entries[fd].isDir
    requires Handles(t, Occurrence(VnodeEvent(fd, false), None), t', changed)
    ensures fd in t'.entries && t'.entries[fd].lastActive == t'.clock >= t.clock && t'.entries[fd].path == t.entries[fd].path
    ensures forall g :: g in t'.entries ==> t'.entries[g].lastActive <= t'.entries[fd].lastActive
    ensures t'.byPath == t.byPath && t'.log == t.log && t'.entries.Keys == t.entries.Keys
    ensures forall g :: g in t.entries && g != fd ==> t'.entries[g] == t.entries[g]
    ensures changed == [t.entries[fd].path]
  {
  }

  // ------------------------------------------------------- registrations

  predicate Enrols(op: Op, item: Item, ok: bool) {
    op.Enrol? && op.path == item.path && op.isDir == item.isDir && op.ok == ok
  }

  predicate EnrolsAll(ops: seq<Op>, items: seq<Item>, oks: seq<bool>) {
    |ops| == |items| == |oks| && forall i :: 0 <= i < |ops| ==> Enrols(ops[i], items[i], oks[i])
  }

  lemma {:induction false} RegistrationsAreHistory(t: Table, items: seq<Item>, t': Table, oks: seq<bool>) returns (ops: seq<Op>)
    requires |oks| == |items| && RegistersAll(t, items, t', oks)
    ensures History(t, ops, t') && EnrolsAll(ops, items, oks)
    decreases |items|
  {
    if items == [] {
      ops := [];
    } else {
      var n := |items| - 1;
      var m := RegistersLast(t, items, t', oks);
      var front := RegistrationsAreHistory(t, items[..n], m, oks[..n]);
      ops := OneMoreRegistration(t, front, m, items[n], oks[n], t');
      EnrolsOneMore(front, ops, items, oks);
    }
  }

  lemma EnrolsOneMore(front: seq<Op>, ops: seq<Op>, items: seq<Item>, oks: seq<bool>)
    requires |items| == |oks| > 0 && |ops| == |front| + 1 && ops[..|front|] == front
    requires EnrolsAll(front, items[..|items| - 1], oks[..|items| - 1])
    requires |front| == |items| - 1 && Enrols(ops[|front|], items[|front|], oks[|front|])
    ensures EnrolsAll(ops, items, oks)
  {
    forall i | 0 <= i < |front| ensures Enrols(ops[i], items[i], oks[i]) {
      assert ops[i] == front[i];
    }
  }

  lemma OneMoreRegistration(t: Table, front: seq<Op>, m: Table, item: Item, ok: bool, t': Table) returns (ops: seq<Op>)
    requires History(t, front, m) && Registers(m, item.path, item.isDir, t', ok)
    ensures History(t, ops, t') && |ops| == |front| + 1 && ops[..|front|] == front && Enrols(ops[|front|], item, ok)
  {
    var op := Enrol(item.path, item.isDir, ok, t'.clock);
    HistoryMore(t, front, m, op, t');
    ops := front + [op];
  }

  lemma EntryIsHistory(t: Table, e: Found, t': Table, added: seq<Path>, refused: seq<Path>) returns (ops: seq<Op>)
    requires RescansOne(t, e, t', added, refused)
    ensures History(t, ops, t') && forall op :: op in ops ==> op.Enrol? && op.path == e.path && !e.kind.Ignored?
  {
    ops := [];
    match e.kind
    case Directory =>
      var ok :| Registers(t, e.path, true, t', ok) && refused == if ok then [] else [e.path];
      HistoryMore(t, [], t, Enrol(e.path, true, ok, t'.clock), t');
      ops := [] + [Enrol(e.path, true, ok, t'.clock)];
    case Watchable =>
      if e.path !in t.byPath {
        HistoryMore(t, [], t, Enrol(e.path, false, refused == [], t'.clock), t');
        ops := [] + [Enrol(e.path, false, refused == [], t'.clock)];
      }
    case Ignored =>
  }

  lemma {:induction false} RescanIsHistory(t: Table, listing: seq<Found>, t': Table, added: seq<Path>, refused: seq<Path>)
    returns (ops: seq<Op>)
    requires Rescans(t, listing, t', added, refused)
    ensures History(t, ops, t')
    ensures forall op :: op in ops ==> op.Enrol? && exists e :: e in listing && e.path == op.path && !e.kind.Ignored?
  {
    if listing == [] {
      ops := [];
    } else {
      var n := |listing| - 1;
      var m, a, r, a', r' := LastEntry(t, listing, t', added, refused);
      var front := RescanIsHistory(t, listing[..n], m, a, r);
      var more := EntryIsHistory(m, listing[n], t', a', r');
      HistoryConcat(t, front, m, more, t');
      ops := front + more;
      forall op | op in ops ensures op.Enrol? && exists e :: e in listing && e.path == op.path && !e.kind.Ignored? {
        if op in front {
          var e :| e in listing[..n] && e.path == op.path && !e.kind.Ignored?;
          assert e in listing;
        } else {
          assert listing[n] in listing;
        }
      }
    }
  }

  // ----------------------------------------------------------- event by event

  /** A rescan of the listing reports these paths; what a rescan reports is told in `WatchEvents`. */
  ghost predicate RescanAdds(t: Table, listing: seq<Found>, t': Table, added: seq<Path>) {
    exists refused :: Rescans(t, listing, t', added, refused)
  }

  /** What one event does, told by the table with which it is handled. */
  lemma EventAnswers(t: Table, o: Occurrence, t': Table, changed: seq<Path>) returns (ops: seq<Op>)
    requires Handles(t, o, t', changed)
    ensures History(t, ops, t')
    ensures o.event.fd !in t.entries ==> changed == [] && ops == [] && t' == t
    ensures o.event.fd in t.entries && o.event.gone ==> changed == [] && ops == [Gone(o.event.fd)]
    ensures o.event.fd in t.entries && !o.event.gone && !t.entries[o.event.fd].isDir ==>
              changed == [t.entries[o.event.fd].path] && ops == [Write(o.event.fd, t.entries[o.event.fd].path, t'.clock)]
    ensures o.event.fd in t.entries && !o.event.gone && t.entries[o.event.fd].isDir && o.listing.None? ==>
              changed == [] && ops == [] && t' == t
    ensures o.event.fd in t.entries && !o.event.gone && t.entries[o.event.fd].isDir && o.listing.Some? ==>
              && RescanAdds(t, o.listing.value, t', changed)
              && forall op :: op in ops ==>
                   op.Enrol? && exists e :: e in o.listing.value && e.path == op.path && !e.kind.Ignored?
  {
    var fd := o.event.fd;
    ops := [];
    if fd in t.entries && o.event.gone {
      HistoryMore(t, [], t, Gone(fd), t');
      ops := [] + [Gone(fd)];
    } else if fd in t.entries && !t.entries[fd].isDir {
      HistoryMore(t, [], t, Write(fd, t.entries[fd].path, t'.clock), t');
      ops := [] + [Write(fd, t.entries[fd].path, t'.clock)];
    } else if fd in t.entries && o.listing.Some? {
      var refused :| Rescans(t, o.listing.value, t', changed, refused);
      ops := RescanIsHistory(t, o.listing.value, t', changed, refused);
    }
  }

  /**
   How an event is answered, told by the table with which it is handled: a write to a watched file with a call for
   that file, once; a change of a directory with what its rescan adds; anything else with nothing.
   */
  ghost predicate Answered(t: Table, o: Occurrence, t': Table, answer: seq<Path>, ops: seq<Op>) {
    var fd := o.event.fd;
    && History(t, ops, t')
    && (fd !in t.entries ==> answer == [] && ops == [] && t' == t)
    && (fd in t.entries && o.event.gone ==> answer == [] && ops == [Gone(fd)])
    && (fd in t.entries && !o.event.gone && !t.entries[fd].isDir ==>
          answer == [t.entries[fd].path] && ops == [Write(fd, t.entries[fd].path, t'.clock)])
    && (fd in t.entries && !o.event.gone && t.entries[fd].isDir ==>
          if o.listing.None? then answer == [] && t' == t else RescanAdds(t, o.listing.value, t', answer))
  }

  ghost predicate AllAnswered(ts: seq<Table>, os: seq<Occurrence>, answers: seq<seq<Path>>, ops: seq<seq<Op>>) {
    && |ts| == |os| + 1 && |answers| == |ops| == |os|
    && forall i :: 0 <= i < |os| ==> Answered(ts[i], os[i], ts[i + 1], answers[i], ops[i])
  }

  lemma AllAnsweredMore(ts: seq<Table>, os: seq<Occurrence>, answers: seq<seq<Path>>, ops: seq<seq<Op>>,
                        t': Table, answer: seq<Path>, op: seq<Op>)
    requires os != [] && AllAnswered(ts, os[..|os| - 1], answers, ops)
    requires Answered(ts[|os| - 1], os[|os| - 1], t', answer, op)
    ensures AllAnswered(ts + [t'], os, answers + [answer], ops + [op])
  {
    forall i | 0 <= i < |os| - 1
      ensures Answered((ts + [t'])[i], os[i], (ts + [t'])[i + 1], (answers + [answer])[i], (ops + [op])[i])
    {
      assert Answered(ts[i], os[..|os| - 1][i], ts[i + 1], answers[i], ops[i]);
    }
  }

  /** A run of the loop, event by event: the tables that it goes through, the calls made, in order, and the history. */
  lemma {:induction false} EveryEventIsAnswered(t: Table, os: seq<Occurrence>, t': Table, changed: seq<Path>)
    returns (ts: seq<Table>, answers: seq<seq<Path>>, ops: seq<seq<Op>>)
    requires Loops(t, os, t', changed)
    ensures AllAnswered(ts, os, answers, ops) && ts[0] == t && ts[|os|] == t'
    ensures changed == Concat(answers) && History(t, Concat(ops), t')
  {
    if os == [] {
      ts, answers, ops := [t], [], [];
    } else {
      var n := |os| - 1;
      var m, c, c' :| Loops(t, os[..n], m, c) && Handles(m, os[n], t', c') && changed == c + c';
      ts, answers, ops := EveryEventIsAnswered(t, os[..n], m, c);
      var last := EventAnswers(m, os[n], t', c');
      AllAnsweredMore(ts, os, answers, ops, t', c', last);
      ConcatLast(answers, c');
      ConcatLast(ops, last);
      HistoryConcat(t, Concat(ops), m, last, t');
      ts, answers, ops := ts + [t'], answers + [c'], ops + [last];
    }
  }

  /**
   The whole life of a watcher, start-up and loop: one history, and every path still watched bears the time of its
   last use in it.
   */
  lemma WatcherHistory(start: Table, items: seq<Item>, ready: Table, oks: seq<bool>, os: seq<Occurrence>, end: Table, changed: seq<Path>)
    returns (ops: seq<Op>)
    requires Invariant(start) && start.entries == map[] && start.byPath == map[]
    requires |oks| == |items| && RegistersAll(start, items, ready, oks) && Loops(ready, os, end, changed)
    ensures History(start, ops, end) && StampsAreUses(end, ops)
  {
    var first := RegistrationsAreHistory(start, items, ready, oks);
    var ts, answers, more := EveryEventIsAnswered(ready, os, end, changed);
    HistoryConcat(start, first, ready, Concat(more), end);
    ops := first + Concat(more);
    StampsAreTimesOfLastUse(start, ops, end);
  }

  /**
   Start-up and loop together: the tables that the loop goes through, the answer to each event, and the times of last
   use that the watches bear at the end.
   */
  lemma WholeLife(start: Table, items: seq<Item>, ready: Table, oks: seq<bool>, os: seq<Occurrence>, end: Table, changed: seq<Path>)
    returns (ts: seq<Table>, answers: seq<seq<Path>>, ops: seq<Op>)
    requires Invariant(start) && start.entries == map[] && start.byPath == map[]
    requires |oks| == |items| && RegistersAll(start, items, ready, oks) && Loops(ready, os, end, changed)
    ensures |ts| == |os| + 1 && |answers| == |os| && ts[0] == ready && ts[|os|] == end && changed == Concat(answers)
    ensures History(start, ops, end) && StampsAreUses(end, ops)
    ensures forall i :: 0 <= i < |os| ==> Call(ts[i], os[i], ts[i + 1], answers[i])
  {
    var opss;
    ts, answers, opss := EveryEventIsAnswered(ready, os, end, changed);
    ops := WatcherHistory(start, items, ready, oks, os, end, changed);
    forall i | 0 <= i < |os| ensures Call(ts[i], os[i], ts[i + 1], answers[i]) {
      assert Answered(ts[i], os[i], ts[i + 1], answers[i], opss[i]);
    }
  }

  /** The calls for one event. */
  ghost predicate Call(t: Table, o: Occurrence, t': Table, answer: seq<Path>) {
    var fd := o.event.fd;
    if fd !in t.entries || o.event.gone then answer == []
    else if !t.entries[fd].isDir then answer == [t.entries[fd].path]
    else if o.listing.None? then answer == []
    else RescanAdds(t, o.listing.value, t', answer)
  }

  lemma {:induction false} InConcat<T>(parts: seq<seq<T>>, x: T) returns (i: nat)
    requires x in Concat(parts)
    ensures i < |parts| && x in parts[i]
  {
    if x in parts[0] {
      i := 0;
    } else {
      var j := InConcat(parts[1..], x);
      i := j + 1;
    }
  }

  /** Nobody is called about anything else: each call is for a file that was written to, or newly found in a listing. */
  lemma CallsAreForWrittenOrFoundFiles(t: Table, os: seq<Occurrence>, t': Table, changed: seq<Path>, p: Path)
    returns (ts: seq<Table>, i: nat)
    requires Loops(t, os, t', changed) && p in changed
    requires forall o :: o in os && o.listing.Some? ==> DistinctNames(o.listing.value)
    ensures |ts| == |os| + 1 && i < |os| && os[i].event.fd in ts[i].entries && !os[i].event.gone
    ensures var e := ts[i].entries[os[i].event.fd];
            if e.isDir then os[i].listing.Some? && Found(p, Watchable) in os[i].listing.value else p == e.path
  {
    var answers, ops;
    ts, answers, ops := EveryEventIsAnswered(t, os, t', changed);
    i := InConcat(answers, p);
    assert os[i] in os && Answered(ts[i], os[i], ts[i + 1], answers[i], ops[i]);
    AnswerIsWrittenOrFound(ts[i], os[i], ts[i + 1], answers[i], ops[i], p);
  }

  lemma AnswerIsWrittenOrFound(t: Table, o: Occurrence, t': Table, answer: seq<Path>, ops: seq<Op>, p: Path)
    requires Answered(t, o, t', answer, ops) && p in answer && (o.listing.Some? ==> DistinctNames(o.listing.value))
    ensures o.event.fd in t.entries && !o.event.gone
    ensures var e := t.entries[o.event.fd];
            if e.isDir then o.listing.Some? && Found(p, Watchable) in o.listing.value else p == e.path
  {
    if o.event.fd in t.entries && t.entries[o.event.fd].isDir && o.listing.Some? {
      var refused :| Rescans(t, o.listing.value, t', answer, refused);
      RescanReportsOnce(t, o.listing.value, t', answer, refused);
    }
  }
}
