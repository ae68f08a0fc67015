/**
 Reading the last lines of a file backwards in chunks (scripts/event_viewer.py, `read_last_n_lines`).
 */
module TailReader {
  import opened Lines
  import opened Sequences
  import opened Wrappers

  /** What `str.strip` removes, among the ASCII characters. */
  predicate IsSpace(c: char) {
    '\t' <= c <= '\r' || '\U{1c}' <= c <= ' '
  }

  predicate Blank(s: string) {
    forall c :: c in s ==> IsSpace(c)
  }

  function Strip(s: string): string {
    if s == [] then []
    else if IsSpace(s[0]) then Strip(s[1..])
    else if IsSpace(Last(s)) then Strip(Front(s))
    else s
  }

  lemma {:induction false} StripIsEmpty(s: string)
    ensures Strip(s) == [] <==> Blank(s)
  {
    if s != [] {
      assert s == [s[0]] + s[1..] && s == Front(s) + [Last(s)];
      StripIsEmpty(s[1..]);
      StripIsEmpty(Front(s));
      assert s[0] in s;
    }
  }

  lemma SpacesAre(c: char)
    ensures IsSpace(c) <==> c in ['\t', '\n', '\U{b}', '\U{c}', '\r', '\U{1c}', '\U{1d}', '\U{1e}', '\U{1f}', ' ']
  {
  }

  /** Stripping takes the spaces from both ends, and nothing else. */
  lemma {:induction false} StripTakesTheEnds(s: string) returns (front: string, back: string)
    ensures s == front + Strip(s) + back && Blank(front) && Blank(back)
    ensures Strip(s) != [] ==> !IsSpace(Strip(s)[0]) && !IsSpace(Last(Strip(s)))
  {
    front, back := [], [];
    if s != [] && IsSpace(s[0]) {
      front, back := StripTakesTheEnds(s[1..]);
      assert s == [s[0]] + s[1..];
      front := [s[0]] + front;
    } else if s != [] && IsSpace(Last(s)) {
      front, back := StripTakesTheEnds(Front(s));
      assert s == Front(s) + [Last(s)];
      back := back + [Last(s)];
    }
  }

  /** The stripped lines that are not empty, in order. */
  function Cleaned(pieces: seq<string>): seq<string> {
    if pieces == [] then []
    else (if Strip(pieces[0]) == [] then [] else [Strip(pieces[0])]) + Cleaned(pieces[1..])
  }

  /** `items[-n:]`, for any integer n: the whole list when n is zero. */
  function LastN<T>(items: seq<T>, n: int): seq<T> {
    if n == 0 || n >= |items| then items
    else if n > 0 then items[|items| - n..]
    else if -n <= |items| then items[-n..]
    else []
  }

  /** What the caller is after. */
  function Wanted(file: string, n: int): seq<string> {
    LastN(Cleaned(Split(file)), n)
  }

  /** For n at least one these are the last n cleaned lines, or all if there are fewer. */
  lemma WantedAreTheLast(file: string, n: int) returns (before: seq<string>)
    requires n >= 1
    ensures Cleaned(Split(file)) == before + Wanted(file, n)
    ensures |Wanted(file, n)| <= n && (|Wanted(file, n)| < n ==> before == [])
  {
    var all := Cleaned(Split(file));
    before := all[..|all| - |Wanted(file, n)|];
  }

  /** Where the backward loop stops: the first chunk boundary with more than n newlines behind it, or the start. */
  function StopAt(file: string, n: int, chunkSize: nat, pos: nat): (stop: nat)
    requires chunkSize > 0 && pos <= |file|
    ensures stop <= pos
    decreases pos
  {
    if pos > 0 && |Split(file[pos..])| - 1 < n + 1
    then StopAt(file, n, chunkSize, pos - if chunkSize < pos then chunkSize else pos)
    else pos
  }

  function Tail(file: string, n: int, chunkSize: nat): seq<string>
    requires chunkSize > 0
  {
    LastN(Cleaned(Split(file[StopAt(file, n, chunkSize, |file|)..])), n)
  }

  // -------------------------------------------------------------- the loop

  lemma GlueFirst(a: seq<string>, b: seq<string>)
    requires a != [] && b != []
    ensures Glue(a, b) == Glue(a, [b[0]]) + b[1..]
  {
    assert [b[0]][1..] == [];
  }

  lemma {:induction false} PrependChunk(chunk: string, rest: string)
    ensures Split(chunk + rest) == Split(chunk + Split(rest)[0]) + Split(rest)[1..]
  {
    var first := Split(rest)[0];
    SplitConcat(chunk, rest);
    SplitConcat(chunk, first);
    NoNewlineInPieces(rest);
    NoNewlineInPieces(first);
    GlueFirst(Split(chunk), Split(rest));
  }

  lemma ReadOneChunk(text: string, start: nat, pos: nat)
    requires start <= pos <= |text|
    ensures var chunkLines := Split(text[start..pos] + Split(text[pos..])[0]);
            && Split(text[start..])[0] == chunkLines[0]
            && Split(text[start..])[1..] == chunkLines[1..] + Split(text[pos..])[1..]
  {
    PrependChunk(text[start..pos], text[pos..]);
    assert text[start..pos] + text[pos..] == text[start..];
  }

  /** The backward loop: pieces from the stopping point on, the first of them possibly only the end of a line. */
  method ReadBack(text: string, n: int, chunkSize: nat) returns (lines: seq<string>)
    requires chunkSize > 0
    ensures Cleaned(lines) == Cleaned(Split(text[StopAt(text, n, chunkSize, |text|)..]))
  {
    lines := [];
    var pos := |text|;
    var leftover := "";
    assert text[pos..] == "";
    while pos > 0 && |lines| < n + 1
      invariant 0 <= pos <= |text|
      invariant leftover == Split(text[pos..])[0] && lines == Split(text[pos..])[1..]
      invariant StopAt(text, n, chunkSize, pos) == StopAt(text, n, chunkSize, |text|)
    {
      var readSize := if chunkSize < pos then chunkSize else pos;
      ReadOneChunk(text, pos - readSize, pos);
      pos := pos - readSize;
      var chunkLines := Split(text[pos..pos + readSize] + leftover);
      leftover := chunkLines[0];
      lines := chunkLines[1..] + lines;
    }
    assert Split(text[pos..]) == [leftover] + lines;
    assert ([leftover] + lines)[1..] == lines;
    if leftover != [] {
      lines := [leftover] + lines;
    }
  }

  method CleanLines(lines: seq<string>) returns (result: seq<string>)
    ensures result == Cleaned(lines)
  {
    result := [];
    for i := 0 to |lines|
      invariant result == Cleaned(lines[..i])
    {
      assert lines[..i + 1] == lines[..i] + [lines[i]];
      CleanedConcat(lines[..i], [lines[i]]);
      var line := Strip(lines[i]);
      if line != [] {
        result := result + [line];
      }
    }
    assert lines[..|lines|] == lines;
  }

  /** None stands for a file that does not exist; the code's chunk size is CHUNK_SIZE. */
  method ReadLastNLines(file: Option<string>, n: int, chunkSize: nat) returns (result: seq<string>)
    requires chunkSize > 0
    ensures result == if file.None? || file.value == "" then [] else Tail(file.value, n, chunkSize)
  {
    if file.None? || |file.value| == 0 {
      return [];
    }
    var lines := ReadBack(file.value, n, chunkSize);
    result := CleanLines(lines);
    result := LastN(result, n);
  }

  lemma {:induction false} CleanedConcat(a: seq<string>, b: seq<string>)
    ensures Cleaned(a + b) == Cleaned(a) + Cleaned(b)
  {
    if a == [] {
      assert a + b == b;
    } else {
      assert (a + b)[1..] == a[1..] + b;
      CleanedConcat(a[1..], b);
    }
  }

  // ------------------------------------------------------ when it is right

  function BlankPieces(pieces: seq<string>): nat {
    if pieces == [] then 0 else (if Blank(pieces[0]) then 1 else 0) + BlankPieces(pieces[1..])
  }

  lemma {:induction false} CleanedCount(pieces: seq<string>)
    ensures |Cleaned(pieces)| == |pieces| - BlankPieces(pieces)
  {
    if pieces != [] {
      StripIsEmpty(pieces[0]);
      CleanedCount(pieces[1..]);
    }
  }

  lemma {:induction false} OnlyBlankTextIsCleanedAway(s: string)
    ensures Cleaned(Split(s)) == [] <==> Blank(s)
  {
    CleanedCount(Split(s));
    AllPiecesBlank(s);
    CountBlank(Split(s));
  }

  lemma {:induction false} AllPiecesBlank(s: string)
    ensures (forall p :: p in Split(s) ==> Blank(p)) <==> Blank(s)
  {
    if s != [] {
      AllPiecesBlank(s[1..]);
      var rest := Split(s[1..]);
      assert s == [s[0]] + s[1..];
      assert rest == [rest[0]] + rest[1..];
      assert Blank(s) <==> IsSpace(s[0]) && Blank(s[1..]);
      assert Blank([s[0]] + rest[0]) <==> IsSpace(s[0]) && Blank(rest[0]);
    }
  }

  lemma {:induction false} CountBlank(pieces: seq<string>)
    ensures BlankPieces(pieces) <= |pieces|
    ensures BlankPieces(pieces) == |pieces| <==> forall p :: p in pieces ==> Blank(p)
  {
    if pieces != [] {
      CountBlank(pieces[1..]);
      assert pieces == [pieces[0]] + pieces[1..];
    }
  }

  /** Behind any newline that follows some text, at most one piece is blank; the empty tail after a final newline is one. */
  ghost predicate Tidy(file: string) {
    forall i :: 0 <= i < |file| && file[i] == NEWLINE && !Blank(file[..i]) ==> BlankPieces(Split(file[i + 1..])) <= 1
  }

  lemma GlueEmpty(a: seq<string>, b: seq<string>)
    requires a != []
    ensures Glue(a, [""] + b) == a + b
  {
    assert Last(a) + "" == Last(a);
    assert ([""] + b)[1..] == b;
  }

  lemma {:induction false} SplitAtNewline(s: string, i: nat)
    requires i < |s| && s[i] == NEWLINE
    ensures Split(s) == Split(s[..i]) + Split(s[i + 1..])
    ensures Split(s[i..]) == [""] + Split(s[i + 1..])
  {
    var head, tail := s[..i], s[i..];
    assert s == head + tail;
    assert tail[1..] == s[i + 1..];
    SplitConcat(head, tail);
    GlueEmpty(Split(head), Split(s[i + 1..]));
  }

  /** Cutting a text at a newline cuts its lines. */
  lemma {:induction false} CleanedAtNewline(s: string, i: nat)
    requires i < |s| && s[i] == NEWLINE
    ensures Split(s) == Split(s[..i]) + Split(s[i + 1..])
    ensures Cleaned(Split(s)) == Cleaned(Split(s[..i])) + Cleaned(Split(s[i + 1..]))
  {
    SplitAtNewline(s, i);
    CleanedConcat(Split(s[..i]), Split(s[i + 1..]));
  }

  lemma FirstNewline(s: string) returns (i: nat)
    requires |Split(s)| > 1
    ensures i < |s| && s[i] == NEWLINE && NEWLINE !in s[..i] && Split(s)[0] == s[..i] && Split(s)[1..] == Split(s[i + 1..])
  {
    NoNewlineInPieces(s);
    i := 0;
    assert s[..|s|] == s;
    while s[i] != NEWLINE
      invariant i < |s| && NEWLINE !in s[..i] && NEWLINE in s
      decreases |s| - i
    {
      assert s[..i + 1] == s[..i] + [s[i]];
      i := i + 1;
    }
    CleanedAtNewline(s, i);
    NoNewlineInPieces(s[..i]);
  }

  /** If the loop stops short of the start, the pieces behind the first newline it saw are the last lines of the file. */
  lemma StopsBehindNewline(file: string, n: int, chunkSize: nat) returns (i: nat)
    requires chunkSize > 0 && n >= 1 && StopAt(file, n, chunkSize, |file|) > 0
    ensures var pos := StopAt(file, n, chunkSize, |file|);
            && pos <= i < |file| && file[i] == NEWLINE && NEWLINE !in file[pos..i]
            && Cleaned(Split(file[pos..])) == Cleaned([file[pos..i]]) + Cleaned(Split(file[i + 1..]))
            && Cleaned(Split(file)) == Cleaned(Split(file[..i])) + Cleaned(Split(file[i + 1..]))
            && |Split(file[i + 1..])| > n
  {
    var pos := StopAt(file, n, chunkSize, |file|);
    StopsWithEnough(file, n, chunkSize, |file|);
    var y := file[pos..];
    var j := FirstNewline(y);
    i := pos + j;
    assert y[..j] == file[pos..i] && y[j + 1..] == file[i + 1..];
    CleanedAtNewline(file, i);
    CleanedConcat([y[..j]], Split(y[j + 1..]));
    assert Split(y) == [y[..j]] + Split(y[j + 1..]);
  }

  lemma {:induction false} StopsWithEnough(file: string, n: int, chunkSize: nat, pos: nat)
    requires chunkSize > 0 && pos <= |file| && StopAt(file, n, chunkSize, pos) > 0
    ensures |Split(file[StopAt(file, n, chunkSize, pos)..])| > n + 1
    decreases pos
  {
    if pos > 0 && |Split(file[pos..])| - 1 < n + 1 {
      StopsWithEnough(file, n, chunkSize, pos - if chunkSize < pos then chunkSize else pos);
    }
  }

  lemma LastNOfLonger<T>(a: seq<T>, b: seq<T>, n: int)
    requires n >= 1 && (|b| >= n || a == [])
    ensures LastN(a + b, n) == LastN(b, n)
  {
    if a == [] {
      assert a + b == b;
    } else if |a + b| > n {
      assert (a + b)[|a + b| - n..] == b[|b| - n..];
    }
  }

  /** Reading a tidy file gives the last lines, whatever the chunk size. */
  lemma {:induction false} TidyFilesAreReadRight(file: string, n: int, chunkSize: nat)
    requires chunkSize > 0 && n >= 1 && (Tidy(file) || StopAt(file, n, chunkSize, |file|) == 0)
    ensures Tail(file, n, chunkSize) == Wanted(file, n)
  {
    var pos := StopAt(file, n, chunkSize, |file|);
    if pos == 0 {
      assert file[0..] == file;
    } else {
      var i := StopsBehindNewline(file, n, chunkSize);
      var lines := Cleaned(Split(file[i + 1..]));
      CleanedCount(Split(file[i + 1..]));
      if Blank(file[..i]) {
        OnlyBlankTextIsCleanedAway(file[..i]);
        assert forall c :: c in file[pos..i] ==> c in file[..i];
        StripIsEmpty(file[pos..i]);
        assert Cleaned([file[pos..i]]) == [];
      }
      LastNOfLonger(Cleaned([file[pos..i]]), lines, n);
      LastNOfLonger(Cleaned(Split(file[..i])), lines, n);
    }
  }

  // ------------------------------------------- one call, exactly

  /** The code's chunk size. */
  const CHUNK_SIZE: nat := 8192

  /** The first newline at or behind the point where the loop stops. */
  ghost predicate FirstSeen(file: string, n: int, chunkSize: nat, i: int)
    requires chunkSize > 0
  {
    var pos := StopAt(file, n, chunkSize, |file|);
    pos <= i < |file| && file[i] == NEWLINE && NEWLINE !in file[pos..i]
  }

  /**
   Enough non-blank lines lie behind the newline at i; or nothing but blanks lies before it; or one line is
   missing, or one is all there is, and what was seen of it before the newline is, stripped, the whole of it.
   */
  predicate NothingMissed(file: string, n: int, pos: nat, i: nat)
    requires pos <= i < |file|
  {
    var behind, before := Cleaned(Split(file[i + 1..])), Cleaned(Split(file[..i]));
    || |behind| >= n
    || Blank(file[..i])
    || (before != [] && (|behind| == n - 1 || |before| == 1) && Strip(file[pos..i]) == Last(before))
  }

  lemma TakenHead(head: seq<string>, before: seq<string>, behind: seq<string>, n: int)
    requires n >= 1 && |head| <= 1 && |behind| < n
    ensures LastN(head + behind, n) == LastN(before + behind, n) <==> head == LastN(before, n - |behind|)
  {
    var k := n - |behind|;
    assert LastN(head + behind, n) == head + behind;
    assert LastN(before + behind, n) == LastN(before, k) + behind;
    assert head + behind == LastN(before, k) + behind ==> |head| == |LastN(before, k)|;
    assert |head| == |LastN(before, k)| && head + behind == LastN(before, k) + behind ==>
        head == (head + behind)[..|head|] == LastN(before, k);
  }

  lemma SameAsLast(head: seq<string>, before: seq<string>, k: int)
    requires k >= 1 && |head| <= 1
    ensures head == LastN(before, k) <==>
              (before == [] && head == []) || (before != [] && (k == 1 || |before| == 1) && head == [Last(before)])
  {
  }

  lemma {:induction false} CleanedOne(text: string)
    ensures Cleaned([text]) == if Strip(text) == [] then [] else [Strip(text)]
  {
    assert [text][1..] == [] && Cleaned([]) == [];
  }

  lemma MissedOrNot(file: string, n: int, pos: nat, i: nat)
    requires n >= 1 && pos <= i < |file|
    ensures var head, before, behind := Cleaned([file[pos..i]]), Cleaned(Split(file[..i])), Cleaned(Split(file[i + 1..]));
            LastN(head + behind, n) == LastN(before + behind, n) <==> NothingMissed(file, n, pos, i)
  {
    var text := file[pos..i];
    var head, before, behind := Cleaned([text]), Cleaned(Split(file[..i])), Cleaned(Split(file[i + 1..]));
    CleanedOne(text);
    OnlyBlankTextIsCleanedAway(file[..i]);
    StripIsEmpty(text);
    assert Blank(file[..i]) ==> Blank(text) by {
      assert forall c :: c in text ==> c in file[..i];
    }
    if |behind| >= n {
      LastNOfLonger(head, behind, n);
      LastNOfLonger(before, behind, n);
    } else {
      TakenHead(head, before, behind, n);
      SameAsLast(head, before, n - |behind|);
      if before != [] {
        CleanedAreNotEmpty(Split(file[..i]));
        assert Last(before) in before;
      }
    }
  }

  lemma {:induction false} CleanedAreNotEmpty(pieces: seq<string>)
    ensures [] !in Cleaned(pieces)
  {
    if pieces != [] {
      CleanedAreNotEmpty(pieces[1..]);
    }
  }

  /**
   For any file, any n and any chunk size: a call gives the last n lines if and only if it reads to the start, or
   nothing is missed before the first newline that it saw.
   */
  lemma RightExactlyWhen(file: string, n: int, chunkSize: nat) returns (i: int)
    requires chunkSize > 0 && n >= 1
    ensures StopAt(file, n, chunkSize, |file|) == 0 ==> Tail(file, n, chunkSize) == Wanted(file, n)
    ensures StopAt(file, n, chunkSize, |file|) > 0 ==>
              && FirstSeen(file, n, chunkSize, i)
              && (Tail(file, n, chunkSize) == Wanted(file, n) <==>
                    NothingMissed(file, n, StopAt(file, n, chunkSize, |file|), i))
  {
    var pos := StopAt(file, n, chunkSize, |file|);
    if pos == 0 {
      assert file[0..] == file;
      i := 0;
    } else {
      i := StopsBehindNewline(file, n, chunkSize);
      MissedOrNot(file, n, pos, i);
    }
  }

  /** A file of at most one chunk is always read right. */
  lemma SmallFilesAreReadRight(file: string, n: int)
    requires n >= 1 && |file| <= 8192
    ensures Tail(file, n, CHUNK_SIZE) == Wanted(file, n)
  {
    assert file[|file|..] == [];
    OneChunkStops(file, n, CHUNK_SIZE);
    var _ := RightExactlyWhen(file, n, CHUNK_SIZE);
  }

  lemma {:induction false} OneChunkStops(file: string, n: int, chunkSize: nat)
    requires n >= 1 && |file| <= chunkSize && chunkSize > 0 && file[|file|..] == []
    ensures StopAt(file, n, chunkSize, |file|) == 0
  {
    assert |Split([])| == 1;
    var next := |file| - if chunkSize < |file| then chunkSize else |file|;
    assert next == 0 && StopAt(file, n, chunkSize, 0) == 0;
  }

  // ----------------------------------------- and no other file always is

  lemma {:induction false} MoreBehindEarlier(file: string, p: nat, q: nat)
    requires p <= q <= |file|
    ensures |Split(file[p..])| >= |Split(file[q..])|
  {
    assert file[p..] == file[p..q] + file[q..];
    SplitConcat(file[p..q], file[q..]);
  }

  /** Chunks of one character stop at the newline that has exactly n pieces behind it, one more than asked for counted. */
  lemma {:induction false} SingleStepsStopAt(file: string, n: int, pos: nat, i: nat)
    requires n >= 1 && 0 < i <= pos <= |file| && i < |file| && file[i] == NEWLINE && |Split(file[i + 1..])| == n + 1
    ensures StopAt(file, n, 1, pos) == i
    decreases pos
  {
    if pos == i {
      assert file[i..] == [NEWLINE] + file[i + 1..];
      assert file[i..][1..] == file[i + 1..];
    } else {
      MoreBehindEarlier(file, i + 1, pos);
      SingleStepsStopAt(file, n, pos - 1, i);
    }
  }

  /** Nothing is lost to a newline at the front. */
  lemma CleanedFromNewline(file: string, i: nat)
    requires i < |file| && file[i] == NEWLINE
    ensures Cleaned(Split(file[i..])) == Cleaned(Split(file[i + 1..]))
  {
    SplitAtNewline(file, i);
    CleanedConcat([""], Split(file[i + 1..]));
    assert Cleaned([""]) == [] && Cleaned([""]) + Cleaned(Split(file[i + 1..])) == Cleaned(Split(file[i + 1..]));
  }

  /** Fewer lines behind than asked for, and some before. */
  lemma TooFewLines(before: seq<string>, behind: seq<string>, n: int)
    requires n >= 1 && |behind| < n && before != []
    ensures LastN(behind, n) != LastN(before + behind, n)
  {
    assert |LastN(behind, n)| == |behind| < |LastN(before + behind, n)|;
  }

  /** A file that is not tidy is read wrongly for some n, with chunks of one character. */
  lemma UntidyFilesAreReadWrong(file: string) returns (n: int)
    requires !Tidy(file)
    ensures n >= 1 && Tail(file, n, 1) != Wanted(file, n)
  {
    var i :| 0 <= i < |file| && file[i] == NEWLINE && !Blank(file[..i]) && BlankPieces(Split(file[i + 1..])) > 1;
    var pieces := Split(file[i + 1..]);
    n := |pieces| - 1;
    CountBlank(pieces);
    CleanedCount(pieces);
    SingleStepsStopAt(file, n, |file|, i);
    CleanedFromNewline(file, i);
    CleanedAtNewline(file, i);
    OnlyBlankTextIsCleanedAway(file[..i]);
    TooFewLines(Cleaned(Split(file[..i])), Cleaned(pieces), n);
  }

  /** The reader can be trusted with a file for every n and every chunk size, if and only if the file is tidy. */
  lemma RightExactlyForTidyFiles(file: string)
    ensures Tidy(file) <==> forall n: int, chunkSize: int :: n >= 1 && chunkSize >= 1 ==> Tail(file, n, chunkSize) == Wanted(file, n)
  {
    if Tidy(file) {
      forall n: int, chunkSize: int | n >= 1 && chunkSize >= 1 ensures Tail(file, n, chunkSize) == Wanted(file, n) {
        TidyFilesAreReadRight(file, n, chunkSize);
      }
    } else {
      var n := UntidyFilesAreReadWrong(file);
    }
  }

  /** For any chunk size: text that ends in one chunk of blank lines is reported as empty. */
  lemma BlankEndHidesEverything(file: string, n: int, chunkSize: nat)
    requires 1 <= n && 0 < chunkSize < |file| && !Blank(file)
    requires Blank(file[|file| - chunkSize..]) && |Split(file[|file| - chunkSize..])| > n + 1
    ensures Tail(file, n, chunkSize) == [] && Wanted(file, n) != []
  {
    var pos := |file| - chunkSize;
    assert file[|file|..] == [];
    assert StopAt(file, n, chunkSize, pos) == pos;
    OnlyBlankTextIsCleanedAway(file[pos..]);
    OnlyBlankTextIsCleanedAway(file);
  }
}
