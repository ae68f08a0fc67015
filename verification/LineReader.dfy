/**
 Reading the new complete lines of a transcript (rs/core/src/reader.rs, `read_new_lines`).

 Characters stand for bytes. Which lines are valid text, and which yield events once translated, is
 left open.
 */
module LineReader {
  import opened Lines
  import opened Sequences

  /**
   Whether a line as read is valid UTF-8, and whether a complete line yields any event, given the text
   before it: the lines there settle in which format it is understood.
   */
  datatype Codec = Codec(decodes: string -> bool, speaks: (string, string) -> bool)

  /**
   What stands at a path: whether it is there just now, its text, its modification time, whether it
   can be opened, where reading a line meets a fault, and whether it parses as a whole.
   A file that is gone keeps its text here, which it has again if it comes back.
   */
  datatype File = File(present: bool, content: string, mtime: nat, opens: bool, faults: set<nat>, parses: bool)

  /** Where the line that `read_line` takes at index i ends: behind the next newline, or at the end of the text. */
  function LineEnd(s: string, i: nat): (end: nat)
    requires i <= |s|
    ensures i <= end <= |s| && (i < |s| ==> i < end)
    ensures forall k :: i <= k < end - 1 ==> s[k] != NEWLINE
    ensures !(i < end && s[end - 1] == NEWLINE) ==> end == |s|
    decreases |s| - i
  {
    if i == |s| then i else if s[i] == NEWLINE then i + 1 else LineEnd(s, i + 1)
  }

  /** A complete line starts at index i. */
  predicate CompleteAt(s: string, i: nat)
    requires i <= |s|
  {
    LineEnd(s, i) > i && s[LineEnd(s, i) - 1] == NEWLINE
  }

  /** Its text, without the newline. */
  function LineAt(s: string, i: nat): string
    requires i <= |s| && CompleteAt(s, i)
  {
    s[i..LineEnd(s, i) - 1]
  }

  /** `read_line` at index i fails: the device does, or the line is not valid text. */
  predicate Unreadable(codec: Codec, file: File, i: nat)
    requires i <= |file.content|
  {
    i in file.faults || (i < |file.content| && !codec.decodes(file.content[i..LineEnd(file.content, i)]))
  }

  /** Where a read got to, the complete lines it took, and whether it ended well. */
  datatype Reading = Reading(end: nat, lines: seq<string>, ok: bool)

  function ReadFrom(codec: Codec, file: File, i: nat): (r: Reading)
    requires i <= |file.content|
    ensures i <= r.end <= |file.content|
    decreases |file.content| - i
  {
    if Unreadable(codec, file, i) then Reading(i, [], false)
    else if !CompleteAt(file.content, i) then Reading(i, [], true)
    else
      var rest := ReadFrom(codec, file, LineEnd(file.content, i));
      rest.(lines := [LineAt(file.content, i)] + rest.lines)
  }

  /** Lines as text again. */
  function Unsplit(lines: seq<string>): string {
    if lines == [] then "" else Unsplit(Front(lines)) + Last(lines) + [NEWLINE]
  }

  lemma {:induction false} UnsplitConcat(a: seq<string>, b: seq<string>)
    ensures Unsplit(a + b) == Unsplit(a) + Unsplit(b)
  {
    if b == [] {
      assert a + b == a;
    } else {
      var front, last := Front(b), Last(b) + [NEWLINE];
      assert Front(a + b) == a + front && Last(a + b) == Last(b);
      UnsplitConcat(a, front);
      assert Unsplit(b) == Unsplit(front) + last;
      assert Unsplit(a + b) == (Unsplit(a) + Unsplit(front)) + last;
    }
  }

  lemma UnsplitOne(line: string)
    ensures Unsplit([line]) == line + [NEWLINE]
  {
    assert Front([line]) == [];
  }

  lemma UnsplitFirst(c: char, pieces: seq<string>)
    requires |pieces| > 0
    ensures var put := Put(c, pieces); Unsplit(Front(put)) + Last(put) == [c] + (Unsplit(Front(pieces)) + Last(pieces))
  {
    var put := Put(c, pieces);
    if c == NEWLINE {
      assert Front(put) == [[]] + Front(pieces);
      UnsplitConcat([[]], Front(pieces));
      UnsplitOne([]);
    } else if |pieces| > 1 {
      var first, mid := pieces[0], Front(pieces)[1..];
      assert Front(pieces) == [first] + mid && Front(put) == [[c] + first] + mid;
      UnsplitConcat([first], mid);
      UnsplitConcat([[c] + first], mid);
      UnsplitOne(first);
      UnsplitOne([c] + first);
    }
  }

  /** Splitting loses nothing. */
  lemma {:induction false} SplitRebuilds(s: string)
    ensures Unsplit(Front(Split(s))) + Last(Split(s)) == s
  {
    if s != [] {
      SplitRebuilds(s[1..]);
      UnsplitFirst(s[0], Split(s[1..]));
      assert s == [s[0]] + s[1..];
    }
  }

  /** The lines that yield events, in order, of those that follow the given text. */
  function Spoken(codec: Codec, before: string, lines: seq<string>): seq<string> {
    if lines == [] then []
    else
      Spoken(codec, before, Front(lines))
      + if codec.speaks(before + Unsplit(Front(lines)), Last(lines)) then [Last(lines)] else []
  }

  lemma {:induction false} SpokenConcat(codec: Codec, before: string, a: seq<string>, b: seq<string>)
    ensures Spoken(codec, before, a + b) == Spoken(codec, before, a) + Spoken(codec, before + Unsplit(a), b)
  {
    if b == [] {
      assert a + b == a;
    } else {
      var front := Front(b);
      assert Front(a + b) == a + front;
      SpokenConcat(codec, before, a, front);
      UnsplitConcat(a, front);
      assert before + (Unsplit(a) + Unsplit(front)) == (before + Unsplit(a)) + Unsplit(front);
    }
  }

  lemma {:induction false} SpokenOne(codec: Codec, before: string, line: string)
    ensures Spoken(codec, before, [line]) == if codec.speaks(before, line) then [line] else []
  {
    assert Front([line]) == [];
    assert before + [] == before;
  }

  predicate Continues(taken: seq<string>, rest: Reading, all: Reading) {
    rest.end == all.end && rest.ok == all.ok && taken + rest.lines == all.lines
  }

  lemma {:induction false} TextTo(s: string, i: nat)
    requires i <= |s| && CompleteAt(s, i)
    ensures s[..LineEnd(s, i)] == s[..i] + Unsplit([LineAt(s, i)])
  {
    UnsplitOne(LineAt(s, i));
  }

  lemma {:induction false} TextBehind(s: string, offset: nat, i: nat, taken: seq<string>)
    requires offset <= i <= |s| && CompleteAt(s, i) && s[..i] == s[..offset] + Unsplit(taken)
    ensures s[..LineEnd(s, i)] == s[..offset] + Unsplit(taken + [LineAt(s, i)])
  {
    TextTo(s, i);
    UnsplitConcat(taken, [LineAt(s, i)]);
  }

  lemma {:induction false} SpokenBehind(codec: Codec, s: string, offset: nat, i: nat, taken: seq<string>)
    requires offset <= i <= |s| && CompleteAt(s, i) && s[..i] == s[..offset] + Unsplit(taken)
    ensures Spoken(codec, s[..offset], taken + [LineAt(s, i)])
            == Spoken(codec, s[..offset], taken) + if codec.speaks(s[..i], LineAt(s, i)) then [LineAt(s, i)] else []
  {
    SpokenConcat(codec, s[..offset], taken, [LineAt(s, i)]);
    SpokenOne(codec, s[..i], LineAt(s, i));
  }

  /** A read that has taken some lines, and now takes the one at index i. */
  lemma {:induction false} ContinuesBehindLine(codec: Codec, file: File, i: nat, taken: seq<string>, all: Reading)
    requires i <= |file.content| && !Unreadable(codec, file, i) && CompleteAt(file.content, i)
    requires Continues(taken, ReadFrom(codec, file, i), all)
    ensures Continues(taken + [LineAt(file.content, i)], ReadFrom(codec, file, LineEnd(file.content, i)), all)
  {
    var line, rest := LineAt(file.content, i), ReadFrom(codec, file, LineEnd(file.content, i));
    assert taken + ([line] + rest.lines) == (taken + [line]) + rest.lines;
  }

  /** The reading loop: the offset moves line by line, so a failure leaves it where it got to; the caller drops the events of a failed read. */
  method ReadLines(codec: Codec, file: File, offset: nat) returns (end: nat, spoken: seq<string>, ok: bool)
    requires offset <= |file.content|
    ensures var r := ReadFrom(codec, file, offset);
            end == r.end && spoken == Spoken(codec, file.content[..offset], r.lines) && ok == r.ok
  {
    end, spoken := offset, [];
    ghost var taken: seq<string>, all := [], ReadFrom(codec, file, offset);
    assert [] + all.lines == all.lines && file.content[..offset] + [] == file.content[..offset];
    while !Unreadable(codec, file, end) && CompleteAt(file.content, end)
      invariant offset <= end <= |file.content|
      invariant Continues(taken, ReadFrom(codec, file, end), all) && spoken == Spoken(codec, file.content[..offset], taken)
      invariant file.content[..end] == file.content[..offset] + Unsplit(taken)
      decreases |file.content| - end
    {
      var line := LineAt(file.content, end);
      ContinuesBehindLine(codec, file, end, taken, all);
      SpokenBehind(codec, file.content, offset, end, taken);
      TextBehind(file.content, offset, end, taken);
      if codec.speaks(file.content[..end], line) {
        spoken := spoken + [line];
      } else {
        assert spoken + [] == spoken;
      }
      end, taken := LineEnd(file.content, end), taken + [line];
    }
    assert taken + [] == taken;
    ok := !Unreadable(codec, file, end);
  }

  // ------------------------------------------------ what a read takes, and when it fails

  lemma {:induction false} OneLine(s: string, i: nat)
    requires i <= |s| && CompleteAt(s, i)
    ensures LinesOf(s[i..LineEnd(s, i)]) == [LineAt(s, i)]
  {
    var text := LineAt(s, i);
    assert s[i..LineEnd(s, i)] == text + [NEWLINE];
    forall c | c in text ensures c != NEWLINE {
      var k :| 0 <= k < |text| && text[k] == c;
      assert s[i + k] == c;
    }
    SplitConcat(text, [NEWLINE]);
    assert [NEWLINE][1..] == [];
    NoNewlineInPieces(text);
    assert text + [] == text;
  }

  lemma {:induction false} OneMoreLine(s: string, i: nat, end: nat)
    requires i <= |s| && CompleteAt(s, i) && LineEnd(s, i) <= end <= |s|
    ensures LinesOf(s[i..end]) == [LineAt(s, i)] + LinesOf(s[LineEnd(s, i)..end])
  {
    var taken, n := s[i..end], LineEnd(s, i) - i;
    assert taken[..n] == s[i..LineEnd(s, i)] && taken[n..] == s[LineEnd(s, i)..end];
    LinesSplit(taken, n);
    OneLine(s, i);
  }

  lemma {:induction false} NoLineLeft(s: string, i: nat)
    requires AtLineStart(s, i) && !CompleteAt(s, i)
    ensures CompleteEnd(s) == i
  {
    var end := CompleteEnd(s);
    LinesSplit(s, i);
    assert forall k :: i <= k < |s| ==> s[k] != NEWLINE;
  }

  /** From a line start, a read takes the complete lines up to where it got; if all goes well, that is behind the last newline. */
  lemma {:induction false} ReadTakesLines(codec: Codec, file: File, i: nat)
    requires AtLineStart(file.content, i)
    ensures var r := ReadFrom(codec, file, i);
            && AtLineStart(file.content, r.end) && r.lines == LinesOf(file.content[i..r.end])
            && (r.ok ==> r.end == CompleteEnd(file.content))
    decreases |file.content| - i
  {
    var content := file.content;
    if Unreadable(codec, file, i) {
      assert content[i..i] == [];
    } else if !CompleteAt(content, i) {
      assert content[i..i] == [];
      NoLineLeft(content, i);
    } else {
      ReadTakesLines(codec, file, LineEnd(content, i));
      OneMoreLine(content, i, ReadFrom(codec, file, i).end);
    }
  }

  predicate LineStartFrom(content: string, o: nat, k: int) {
    o <= k <= |content| && (k == o || content[k - 1] == NEWLINE)
  }

  /** The line starts from o on are o itself and those from the next one on. */
  lemma {:induction false} NextLineStart(content: string, o: nat)
    requires o <= |content|
    ensures forall k :: LineStartFrom(content, o, k) <==>
                          k == o || (CompleteAt(content, o) && LineStartFrom(content, LineEnd(content, o), k))
  {
  }

  /** A complete line that yields events starts here. */
  predicate SpeaksAt(codec: Codec, content: string, k: nat)
    requires k <= |content|
  {
    CompleteAt(content, k) && codec.speaks(content[..k], LineAt(content, k))
  }

  /** Some line from o on cannot be read. */
  ghost predicate SomeUnreadable(codec: Codec, file: File, o: nat) {
    exists k :: LineStartFrom(file.content, o, k) && Unreadable(codec, file, k)
  }

  ghost predicate ReadableTo(codec: Codec, file: File, o: nat, k: int) {
    forall m :: LineStartFrom(file.content, o, m) && m <= k ==> !Unreadable(codec, file, m)
  }

  /** Some line from o on yields events, and it and all lines before it can be read. */
  ghost predicate SomeReadable(codec: Codec, file: File, o: nat) {
    exists k :: LineStartFrom(file.content, o, k) && SpeaksAt(codec, file.content, k) && ReadableTo(codec, file, o, k)
  }

  /** A read fails exactly if some line from its offset on cannot be read, the unfinished last one included. */
  lemma {:induction false} FailsExactlyWhen(codec: Codec, file: File, o: nat)
    requires o <= |file.content|
    ensures ReadFrom(codec, file, o).ok <==> !SomeUnreadable(codec, file, o)
    decreases |file.content| - o
  {
    NextLineStart(file.content, o);
    assert LineStartFrom(file.content, o, o);
    if !Unreadable(codec, file, o) && CompleteAt(file.content, o) {
      FailsExactlyWhen(codec, file, LineEnd(file.content, o));
    }
  }

  /** A read passes something exactly if a line that yields events comes before everything that cannot be read. */
  lemma {:induction false} YieldsExactlyWhen(codec: Codec, file: File, o: nat)
    requires o <= |file.content|
    ensures Spoken(codec, file.content[..o], ReadFrom(codec, file, o).lines) != [] <==> SomeReadable(codec, file, o)
    decreases |file.content| - o
  {
    var content := file.content;
    NextLineStart(content, o);
    assert LineStartFrom(content, o, o);
    if !Unreadable(codec, file, o) && CompleteAt(content, o) {
      var next := LineEnd(content, o);
      YieldsExactlyWhen(codec, file, next);
      SpokenConcat(codec, content[..o], [LineAt(content, o)], ReadFrom(codec, file, next).lines);
      SpokenOne(codec, content[..o], LineAt(content, o));
      TextTo(content, o);
      YieldsNowOrLater(codec, file, o);
    }
  }

  lemma {:induction false} YieldsNowOrLater(codec: Codec, file: File, o: nat)
    requires o <= |file.content| && !Unreadable(codec, file, o) && CompleteAt(file.content, o)
    ensures SomeReadable(codec, file, o) <==>
              SpeaksAt(codec, file.content, o) || SomeReadable(codec, file, LineEnd(file.content, o))
  {
    var content, next := file.content, LineEnd(file.content, o);
    NextLineStart(content, o);
    assert LineStartFrom(content, o, o);
    if SpeaksAt(codec, content, o) {
      assert ReadableTo(codec, file, o, o);
    } else if k :| LineStartFrom(content, next, k) && SpeaksAt(codec, content, k) && ReadableTo(codec, file, next, k) {
      assert LineStartFrom(content, o, k) && ReadableTo(codec, file, o, k);
    }
    if k :| LineStartFrom(content, o, k) && SpeaksAt(codec, content, k) && ReadableTo(codec, file, o, k) {
      assert k != o ==> LineStartFrom(content, next, k) && ReadableTo(codec, file, next, k);
    }
  }

  /** Where a read ended well, the next one finds nothing and ends well. */
  lemma {:induction false} ReadAgain(codec: Codec, file: File, i: nat)
    requires i <= |file.content| && ReadFrom(codec, file, i).ok
    ensures var end := ReadFrom(codec, file, i).end; ReadFrom(codec, file, end) == Reading(end, [], true)
    decreases |file.content| - i
  {
    if CompleteAt(file.content, i) {
      ReadAgain(codec, file, LineEnd(file.content, i));
    }
  }
}
