/**
 The writer's side of the snapshot protocol: it appends, undoes and compresses to a new session id,
 each time overwriting the whole file, while a poller looks whenever it likes.
 */
module SnapshotWriter {
  import opened Wrappers
  import opened SnapshotWatcher
  import opened SnapshotRuns

  datatype Action =
    | Append(more: seq<Message>)
    | Undo(keep: nat)
    | Compress(sessionId: string, messages: seq<Message>, metadata: Metadata)
    | Look(time: string)

  /**
   The file, the session ids used so far, the shortest the array has been since the poller last looked
   (or since the session began), and what the poller saw.
   */
  datatype World = World(sessionId: string, messages: seq<Message>, metadata: Metadata, used: set<string>, low: nat, polls: seq<Poll>)

  predicate Enabled(w: World, a: Action) {
    match a
    case Undo(keep) => keep <= |w.messages|
    case Compress(sessionId, _, _) => sessionId != "" && sessionId !in w.used
    case _ => true
  }

  /** What a look shows. */
  function Shown(w: World, time: string): Poll {
    Seen(Snapshot(w.sessionId, Some(w.messages), time, w.metadata))
  }

  function Step(w: World, a: Action): World
    requires Enabled(w, a)
  {
    match a
    case Append(more) => w.(messages := w.messages + more)
    case Undo(keep) => w.(messages := w.messages[..keep], low := if keep < w.low then keep else w.low)
    case Compress(sessionId, messages, metadata) =>
      World(sessionId, messages, metadata, w.used + {sessionId}, |messages|, w.polls)
    case Look(time) => w.(low := |w.messages|, polls := w.polls + [Shown(w, time)])
  }

  /** The array fell below the length polled last and has since grown back to it, all unseen. */
  predicate HiddenRegrowth(w: World) {
    && Observed(w.polls).Some? && Observed(w.polls).value.sessionId == w.sessionId
    && w.low < |Observed(w.polls).value.messages| <= |w.messages|
  }

  function Start(sessionId: string, metadata: Metadata): World {
    World(sessionId, [], metadata, {sessionId}, 0, [])
  }

  /** A look at a session that is announced by it and whose prompt would be cut. */
  predicate FatalLook(w: World, a: Action) {
    a.Look? && CutStart(Observed(w.polls), Shown(w, a.time))
  }

  /** A run from `w` in which every action is possible, no look comes after a hidden regrowth, and none is fatal. */
  predicate FairRun(w: World, actions: seq<Action>)
    decreases |actions|
  {
    actions != [] ==>
      && Enabled(w, actions[0])
      && (actions[0].Look? ==> !HiddenRegrowth(w)) && !FatalLook(w, actions[0])
      && FairRun(Step(w, actions[0]), actions[1..])
  }

  function After(w: World, actions: seq<Action>): World
    requires FairRun(w, actions)
    decreases |actions|
  {
    if actions == [] then w else After(Step(w, actions[0]), actions[1..])
  }

  /** How much of what the poller saw last is certain to be still there. */
  function Common(low: nat, seen: nat): nat {
    if low < seen then low else seen
  }

  predicate Invariant(w: World) {
    && w.sessionId in w.used && w.sessionId != "" && w.low <= |w.messages|
    && HonestRun(w.polls) && LivePart(w.polls) == w.polls
    && (Observed(w.polls).Some? ==>
          var o := Observed(w.polls).value;
          && o.sessionId in w.used
          && (o.sessionId == w.sessionId ==>
                var common := Common(w.low, |o.messages|);
                o.messages[..common] == w.messages[..common]))
  }

  lemma LookStep(w: World, time: string)
    requires Invariant(w) && !HiddenRegrowth(w) && !FatalLook(w, Look(time))
    ensures Invariant(Step(w, Look(time)))
    ensures Observed(Step(w, Look(time)).polls) == Some(Observation(w.sessionId, w.messages))
  {
    var poll := Shown(w, time);
    assert (w.polls + [poll])[..|w.polls|] == w.polls;
    if LooksLikeAppend(Observed(w.polls), poll) {
      var seen := Observed(w.polls).value.messages;
      assert seen[..|seen|] == seen;
    }
    assert Honest(Observed(w.polls), poll);
  }

  lemma UndoStep(w: World, keep: nat)
    requires Invariant(w) && keep <= |w.messages|
    ensures Invariant(Step(w, Undo(keep)))
  {
    if Observed(w.polls).Some? && Observed(w.polls).value.sessionId == w.sessionId {
      var o := Observed(w.polls).value;
      var common, before := Common(Step(w, Undo(keep)).low, |o.messages|), Common(w.low, |o.messages|);
      assert common <= before && common <= keep;
      assert o.messages[..common] == o.messages[..before][..common];
      assert w.messages[..before][..common] == w.messages[..keep][..common];
      assert o.messages[..common] == Step(w, Undo(keep)).messages[..common];
    }
  }

  lemma GrowthStep(w: World, more: seq<Message>)
    requires Invariant(w)
    ensures Invariant(Step(w, Append(more)))
  {
    if Observed(w.polls).Some? && Observed(w.polls).value.sessionId == w.sessionId {
      var common := Common(w.low, |Observed(w.polls).value.messages|);
      assert (w.messages + more)[..common] == w.messages[..common];
    }
  }

  lemma {:induction false} InvariantStep(w: World, a: Action)
    requires Invariant(w) && Enabled(w, a) && (a.Look? ==> !HiddenRegrowth(w)) && !FatalLook(w, a)
    ensures Invariant(Step(w, a))
    ensures a.Look? ==> Observed(Step(w, a).polls) == Some(Observation(w.sessionId, w.messages))
  {
    match a
    case Append(more) => GrowthStep(w, more);
    case Undo(keep) => UndoStep(w, keep);
    case Compress(_, _, _) =>
    case Look(time) => LookStep(w, time);
  }

  /**
   For every interleaving of appends, undos, compressions and looks in which no look comes after a
   hidden regrowth and none is fatal, the watch goes on and the consumer's copy equals the polled array after
   every look; right after a look that is the file itself.
   */
  lemma {:induction false} EveryFairRunConverges(w: World, actions: seq<Action>)
    requires Invariant(w) && FairRun(w, actions)
    ensures Invariant(After(w, actions)) && Watch(After(w, actions).polls).alive && Converges(After(w, actions).polls)
    ensures actions != [] && actions[|actions| - 1].Look? ==>
              HandedOn(After(w, actions).polls) == After(w, actions).messages
    decreases |actions|
  {
    if actions == [] {
      WatchIsTheLiveRun(w.polls);
      FollowableWhileAlive(w.polls);
      ConvergesExactlyWhen(w.polls);
    } else {
      InvariantStep(w, actions[0]);
      EveryFairRunConverges(Step(w, actions[0]), actions[1..]);
      assert |actions| > 1 ==> actions[1..][|actions| - 2] == actions[|actions| - 1];
    }
  }

  /** A writer that never undoes, of sessions whose prompts are not cut, needs no polling discipline at all. */
  lemma {:induction false} WithoutUndoEveryRunIsFair(w: World, actions: seq<Action>)
    requires Invariant(w)
    requires Observed(w.polls).Some? && Observed(w.polls).value.sessionId == w.sessionId
             ==> |Observed(w.polls).value.messages| <= w.low
    requires !CutsCharacter(w.metadata.prompt)
    requires forall a :: a in actions ==> !a.Undo? && (a.Compress? ==> !CutsCharacter(a.metadata.prompt))
    requires forall a :: a in actions && a.Compress? ==> a.sessionId != "" && a.sessionId !in w.used
    requires forall i, j :: 0 <= i < j < |actions| && actions[i].Compress? && actions[j].Compress?
                            ==> actions[i].sessionId != actions[j].sessionId
    ensures FairRun(w, actions)
    decreases |actions|
  {
    if actions != [] {
      assert actions[0] in actions;
      InvariantStep(w, actions[0]);
      var next, rest := Step(w, actions[0]), actions[1..];
      assert forall i :: 0 <= i < |rest| ==> rest[i] == actions[i + 1];
      assert actions[0].Look? ==> Observed(next.polls) == Some(Observation(w.sessionId, w.messages));
      WithoutUndoEveryRunIsFair(next, rest);
    }
  }

  lemma StartIsInvariant(sessionId: string, metadata: Metadata)
    requires sessionId != ""
    ensures Invariant(Start(sessionId, metadata)) && Observed(Start(sessionId, metadata).polls).None?
  {
  }
}
