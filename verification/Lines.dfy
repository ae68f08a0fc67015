/** Splitting text at newlines. */
module Lines {
  import opened Sequences

  const NEWLINE := '\n'

  /** A character before text that was already split. */
  function Put(c: char, pieces: seq<string>): (r: seq<string>)
    requires pieces != []
    ensures r != []
  {
    if c == NEWLINE then [[]] + pieces else [[c] + pieces[0]] + pieces[1..]
  }

  /** `split("\n")`: the pieces between newlines, always at least one. */
  function Split(s: string): (pieces: seq<string>)
    ensures pieces != []
  {
    if s == [] then [[]] else Put(s[0], Split(s[1..]))
  }

  /** Where two split texts meet, the last piece of the one and the first of the other become one piece. */
  function Glue(a: seq<string>, b: seq<string>): seq<string>
    requires a != [] && b != []
  {
    Front(a) + [Last(a) + b[0]] + b[1..]
  }

  lemma GluePut(c: char, a: seq<string>, b: seq<string>)
    requires a != [] && b != []
    ensures Glue(Put(c, a), b) == Put(c, Glue(a, b))
  {
    if c != NEWLINE && |a| == 1 {
      assert [c] + (a[0] + b[0]) == ([c] + a[0]) + b[0];
    }
  }

  lemma {:induction false} SplitConcat(a: string, b: string)
    ensures Split(a + b) == Glue(Split(a), Split(b))
  {
    if a == [] {
      assert a + b == b;
      assert [] + Split(b)[0] == Split(b)[0];
      assert [Split(b)[0]] + Split(b)[1..] == Split(b);
    } else {
      assert (a + b)[1..] == a[1..] + b;
      SplitConcat(a[1..], b);
      GluePut(a[0], Split(a[1..]), Split(b));
    }
  }

  lemma {:induction false} NoNewlineInPieces(s: string)
    ensures forall p :: p in Split(s) ==> NEWLINE !in p
    ensures NEWLINE in s <==> |Split(s)| > 1
    ensures NEWLINE !in s ==> Split(s) == [s]
  {
    if s != [] {
      NoNewlineInPieces(s[1..]);
      assert s == [s[0]] + s[1..];
    }
  }

  /** A newline, or nothing, stands before index `i`. */
  predicate AtLineStart(s: string, i: nat) {
    i <= |s| && (i == 0 || s[i - 1] == NEWLINE)
  }

  /** The complete lines of a text; an unfinished last line does not count. */
  function LinesOf(s: string): seq<string> {
    Front(Split(s))
  }

  /** Where the complete lines end: behind the last newline. */
  function CompleteEnd(s: string): (end: nat)
    ensures AtLineStart(s, end) && NEWLINE !in s[end..]
  {
    if s == [] || Last(s) == NEWLINE then |s|
    else
      assert forall i :: 0 <= i < |s| - 1 ==> s[i] == Front(s)[i];
      assert s[CompleteEnd(Front(s))..] == Front(s)[CompleteEnd(Front(s))..] + [Last(s)];
      CompleteEnd(Front(s))
  }

  lemma {:induction false} NothingIsPending(s: string)
    requires AtLineStart(s, |s|)
    ensures Last(Split(s)) == []
  {
    if s != [] {
      assert s == Front(s) + [NEWLINE];
      SplitConcat(Front(s), [NEWLINE]);
      assert Split([NEWLINE]) == [[], []] by {
        assert [NEWLINE][1..] == [];
      }
    }
  }

  /** There is one place only behind which no newline stands and before which, if anything, one does. */
  lemma {:induction false} OneCompleteEnd(s: string, end: nat)
    requires AtLineStart(s, end) && NEWLINE !in s[end..]
    ensures CompleteEnd(s) == end
  {
    var c := CompleteEnd(s);
    assert forall k :: end <= k < |s| ==> s[end..][k - end] == s[k];
    assert forall k :: c <= k < |s| ==> s[c..][k - c] == s[k];
  }

  lemma {:induction false} EndSplit(s: string, i: nat)
    requires AtLineStart(s, i)
    ensures CompleteEnd(s) == i + CompleteEnd(s[i..])
  {
    var tail, end := s[i..], CompleteEnd(s[i..]);
    assert tail[end..] == s[i + end..];
    assert end > 0 ==> s[i + end - 1] == tail[end - 1];
    OneCompleteEnd(s, i + end);
  }

  /** Splitting a text at a line start splits its lines. */
  lemma {:induction false} LinesSplit(s: string, i: nat)
    requires AtLineStart(s, i)
    ensures LinesOf(s) == LinesOf(s[..i]) + LinesOf(s[i..])
    ensures CompleteEnd(s) == i + CompleteEnd(s[i..])
  {
    var head, tail := s[..i], s[i..];
    assert head + tail == s;
    SplitConcat(head, tail);
    NothingIsPending(head);
    GlueNothing(Split(head), Split(tail));
    EndSplit(s, i);
  }

  /** What the lines of any text are: each ends at the next newline, and what no newline follows is not a line. */
  lemma {:induction false} LinesEndAtNewlines(line: string, rest: string)
    requires '\n' !in line
    ensures LinesOf(line) == [] && CompleteEnd(line) == 0
    ensures LinesOf(line + "\n" + rest) == [line] + LinesOf(rest)
    ensures CompleteEnd(line + "\n" + rest) == |line| + 1 + CompleteEnd(rest)
  {
    var first, text := line + "\n", line + "\n" + rest;
    NoNewlineInPieces(line);
    OneCompleteEnd(line, 0);
    assert text[..|first|] == first && text[|first|..] == rest && first[|first|..] == [];
    LinesSplit(text, |first|);
    SplitConcat(line, "\n");
    assert Split("\n") == [[], []] by {
      assert "\n"[1..] == [];
    }
    assert Glue([line], [[], []]) == [line, []] by {
      assert line + [] == line;
    }
    assert LinesOf(first) == [line];
  }

  lemma GlueNothing(a: seq<string>, b: seq<string>)
    requires a != [] && b != [] && Last(a) == []
    ensures Glue(a, b) == Front(a) + b && Front(Glue(a, b)) == Front(a) + Front(b)
  {
    assert [] + b[0] == b[0];
    assert Glue(a, b) == Front(a) + b;
  }

  /** The lines up to b are those up to a and those between. */
  lemma LinesBetween(s: string, a: nat, b: nat)
    requires AtLineStart(s, a) && a <= b <= |s|
    ensures LinesOf(s[..b]) == LinesOf(s[..a]) + LinesOf(s[a..b])
  {
    var head := s[..b];
    assert head[..a] == s[..a] && head[a..] == s[a..b];
    assert a > 0 ==> head[a - 1] == s[a - 1];
    LinesSplit(head, a);
  }

  /** The complete lines are those up to where they end. */
  lemma {:induction false} NothingPastTheEnd(s: string)
    ensures LinesOf(s[..CompleteEnd(s)]) == LinesOf(s)
  {
    LinesSplit(s, CompleteEnd(s));
    NoNewlineInPieces(s[CompleteEnd(s)..]);
  }
}
