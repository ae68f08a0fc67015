/** Session starts: when the first one comes, and what every one carries (rs/src/snapshot_watcher.rs, `wrap_session_start`). */
module SnapshotStarts {
  import opened Sequences
  import opened SnapshotWatcher
  import opened Wrappers

  /** The poll shows a snapshot that names its session. */
  predicate Names(poll: Poll) {
    poll.Seen? && poll.snapshot.sessionId != ""
  }

  /** A start told of the snapshot: its session, the first 500 bytes of its prompt, all of the rest. */
  predicate Tells(line: Line, snapshot: Snapshot) {
    && line.SessionStart? && line.sessionId == snapshot.sessionId && line.metadata.rest == snapshot.metadata.rest
    && line.metadata.prompt <= snapshot.metadata.prompt
    && |line.metadata.prompt| == if |snapshot.metadata.prompt| <= 500 then |snapshot.metadata.prompt| else 500
  }

  lemma StartIsTold(snapshot: Snapshot)
    ensures Tells(SessionStart(snapshot.sessionId, Previewed(snapshot.metadata)), snapshot)
  {
  }

  /** The start is the first line of a poll that announces. */
  lemma {:induction false} StartTells(s: Option<Tracked>, snapshot: Snapshot)
    requires snapshot.sessionId != "" && StartIsDue(s, snapshot)
    ensures ProcessPoll(s, Seen(snapshot)).1 != [] && Tells(ProcessPoll(s, Seen(snapshot)).1[0], snapshot)
  {
    StartIsTold(snapshot);
    var start := SessionStart(snapshot.sessionId, Previewed(snapshot.metadata));
    assert ProcessPoll(s, Seen(snapshot)).1 == LinesOf(s, snapshot);
    assert LinesOf(s, snapshot) == [start] + Wrap(snapshot, NewBase(s, snapshot), Found(s, snapshot).1);
  }

  /** Until a session is named, a poll leaves no trace. */
  lemma {:induction false} NothingUnnamed(polls: seq<Poll>)
    requires forall k :: 0 <= k < |polls| ==> !Names(polls[k])
    ensures Run(polls) == (None, [])
  {
    if polls != [] {
      var front := polls[..|polls| - 1];
      assert polls == front + [polls[|polls| - 1]];
      NothingUnnamed(front);
      RunStep(front, polls[|polls| - 1]);
    }
  }

  /** The output of a run only grows. */
  lemma {:induction false} OutputGrows(polls: seq<Poll>, more: seq<Poll>)
    ensures Run(polls).1 <= Run(polls + more).1
  {
    if more == [] {
      assert polls + more == polls;
    } else {
      var front, last := more[..|more| - 1], more[|more| - 1];
      OutputGrows(polls, front);
      assert polls + more == (polls + front) + [last];
      RunStep(polls + front, last);
    }
  }

  /** A run's output starts with the start that its first named session calls for, whatever comes later. */
  lemma {:induction false} RunStartsWithStart(polls: seq<Poll>, k: nat)
    requires k < |polls| && polls[k].Seen? && polls[k].snapshot.sessionId != ""
    requires forall i :: 0 <= i < k ==> polls[i].Unreadable? || polls[i].snapshot.sessionId == ""
    ensures var out, polled := Run(polls).1, polls[k].snapshot;
            && out != [] && out[0].SessionStart? && out[0].sessionId == polled.sessionId
            && out[0].metadata.rest == polled.metadata.rest && out[0].metadata.prompt <= polled.metadata.prompt
            && |out[0].metadata.prompt| == if |polled.metadata.prompt| <= 500 then |polled.metadata.prompt| else 500
  {
    var first := Run(polls[..k] + [polls[k]]).1;
    assert first != [] && Tells(first[0], polls[k].snapshot) by {
      NothingUnnamed(polls[..k]);
      RunStep(polls[..k], polls[k]);
      StartTells(None, polls[k].snapshot);
      assert [] + ProcessPoll(None, polls[k]).1 == ProcessPoll(None, polls[k]).1;
    }
    OutputGrows(polls[..k] + [polls[k]], polls[k + 1..]);
    assert polls[..k] + [polls[k]] + polls[k + 1..] == polls;
  }

  /** Every start that is sent tells of some snapshot that was polled. */
  lemma {:induction false} StartsTell(polls: seq<Poll>, line: Line)
    requires line in Run(polls).1 && line.SessionStart?
    ensures exists k :: 0 <= k < |polls| && polls[k].Seen? && Tells(line, polls[k].snapshot)
  {
    var front, last := polls[..|polls| - 1], polls[|polls| - 1];
    assert polls == front + [last];
    RunStep(front, last);
    if line in Run(front).1 {
      StartsTell(front, line);
      var k :| 0 <= k < |front| && front[k].Seen? && Tells(line, front[k].snapshot);
      assert polls[k] == front[k];
    } else {
      StartOfPoll(Run(front).0, last, line);
      assert polls[|polls| - 1].Seen?;
    }
  }

  lemma {:induction false} StartOfPoll(s: Option<Tracked>, poll: Poll, line: Line)
    requires line in ProcessPoll(s, poll).1 && line.SessionStart?
    ensures poll.Seen? && Tells(line, poll.snapshot)
  {
    WrapIndexes(poll.snapshot, NewBase(s, poll.snapshot), Found(s, poll.snapshot).1, line);
    assert line in StartLines(s, poll.snapshot);
  }

  // ------------------------------------------------------------ cut starts

  /** The UTF-8 form of a character: one leading byte, the rest continue it. */
  predicate Character(bytes: seq<Byte>) {
    && bytes != [] && !(0x80 <= bytes[0] < 0xC0)
    && forall i :: 1 <= i < |bytes| ==> 0x80 <= bytes[i] < 0xC0
  }

  predicate Characters(text: seq<seq<Byte>>) {
    forall i :: 0 <= i < |text| ==> Character(text[i])
  }

  /** Some whole characters of the text make up its first n bytes. */
  ghost predicate EndsAt(text: seq<seq<Byte>>, n: nat) {
    exists k :: 0 <= k <= |text| && |Concat(text[..k])| == n
  }

  lemma {:induction false} ConcatFirst(text: seq<seq<Byte>>, k: nat)
    requires 1 <= k <= |text|
    ensures Concat(text[..k]) == text[0] + Concat(text[1..][..k - 1])
  {
    assert text[..k][1..] == text[1..][..k - 1];
  }

  /** A byte continues a character exactly if no characters end before it. */
  lemma {:induction false} ContinuesExactlyWhen(text: seq<seq<Byte>>, n: nat)
    requires Characters(text) && n < |Concat(text)|
    ensures 0x80 <= Concat(text)[n] < 0xC0 <==> !EndsAt(text, n)
  {
    var first, rest := text[0], text[1..];
    if n == 0 {
      assert |Concat(text[..0])| == 0;
    } else if n < |first| {
      forall k | 0 <= k <= |text| ensures |Concat(text[..k])| != n {
        if k > 0 {
          ConcatFirst(text, k);
        }
      }
    } else {
      ContinuesExactlyWhen(rest, n - |first|);
      EndsLater(text, n);
    }
  }

  lemma {:induction false} EndsLater(text: seq<seq<Byte>>, n: nat)
    requires text != [] && n >= |text[0]| > 0
    ensures EndsAt(text, n) <==> EndsAt(text[1..], n - |text[0]|)
  {
    if k :| 0 <= k <= |text| && |Concat(text[..k])| == n {
      ConcatFirst(text, k);
      assert |Concat(text[1..][..k - 1])| == n - |text[0]|;
    }
    if k :| 0 <= k <= |text| - 1 && |Concat(text[1..][..k])| == n - |text[0]| {
      ConcatFirst(text, k + 1);
      assert |Concat(text[..k + 1])| == n;
    }
  }

  /** The preview is cut, and the watch panics, exactly if the prompt is longer than 500 bytes and none of its characters ends there. */
  lemma {:induction false} CutExactlyInsideACharacter(text: seq<seq<Byte>>)
    requires Characters(text)
    ensures CutsCharacter(Concat(text)) <==>
              |Concat(text)| > 500 && !exists k :: 0 <= k <= |text| && |Concat(text[..k])| == 500
  {
    if |Concat(text)| > 500 {
      ContinuesExactlyWhen(text, 500);
    }
  }
}
