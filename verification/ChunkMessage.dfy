/** Splitting a long message at the messenger's length limit (telegram-bot/bot.py, `chunk_message`). */
module ChunkMessage {
  import opened Sequences

  const NEWLINE := '\n'
  const MAX_LENGTH: nat := 4096

  /** `s.rfind("\n", 0, end)`. */
  function RFindNewline(s: string, end: nat): (i: int)
    requires end <= |s|
    ensures -1 <= i < end && (i >= 0 ==> s[i] == NEWLINE)
    ensures forall x :: i < x < end ==> s[x] != NEWLINE
  {
    if end == 0 then -1 else if s[end - 1] == NEWLINE then end - 1 else RFindNewline(s, end - 1)
  }

  /** How many newlines `lstrip("\n")` takes off. */
  function LeadingNewlines(s: string): (n: nat)
    ensures n <= |s|
  {
    if s == [] || s[0] != NEWLINE then 0 else 1 + LeadingNewlines(s[1..])
  }

  /** Where to cut a text longer than the limit: at the last newline within it, unless that is too early. */
  function SplitAt(text: string, limit: nat): (k: nat)
    requires |text| > limit
    ensures limit / 2 <= k <= limit
    ensures k < limit ==> text[k] == NEWLINE && forall x :: k < x < limit ==> text[x] != NEWLINE
    ensures k == limit ==> forall x :: limit / 2 <= x < limit ==> text[x] != NEWLINE
  {
    var i := RFindNewline(text, limit);
    if i == -1 || i < limit / 2 then limit else i
  }

  function Rest(text: string, limit: nat): (rest: string)
    requires |text| > limit >= 2
    ensures |rest| < |text|
  {
    var tail := text[SplitAt(text, limit)..];
    tail[LeadingNewlines(tail)..]
  }

  /** The loop's output, for any limit of at least two characters. */
  function Pieces(text: string, limit: nat): seq<string>
    requires limit >= 2
    decreases |text|
  {
    if text == "" then []
    else if |text| <= limit then [text]
    else [text[..SplitAt(text, limit)]] + Pieces(Rest(text, limit), limit)
  }

  function Chunked(text: string, limit: nat): seq<string>
    requires limit >= 2
  {
    if |text| <= limit then [text] else Pieces(text, limit)
  }

  lemma {:induction false} NextPiece(done: seq<string>, text: string, limit: nat)
    requires |text| > limit >= 2
    ensures done + Pieces(text, limit) == done + [text[..SplitAt(text, limit)]] + Pieces(Rest(text, limit), limit)
  {
  }

  /** The body of the loop: one chunk off the front, and the newlines behind it. */
  method CutOne(text: string, limit: nat) returns (chunk: string, rest: string)
    requires |text| > limit >= 2
    ensures chunk == text[..SplitAt(text, limit)] && rest == Rest(text, limit)
  {
    var splitAt := RFindNewline(text, limit);
    if splitAt == -1 || splitAt < limit / 2 {
      splitAt := limit;
    }
    chunk := text[..splitAt];
    var tail := text[splitAt..];
    rest := tail[LeadingNewlines(tail)..];
  }

  method Chunk(text: string, limit: nat) returns (chunks: seq<string>)
    requires limit >= 2
    ensures chunks == Chunked(text, limit)
  {
    if |text| <= limit {
      return [text];
    }
    chunks := [];
    var rest := text;
    while rest != ""
      invariant Pieces(text, limit) == chunks + Pieces(rest, limit)
      decreases |rest|
    {
      if |rest| <= limit {
        return chunks + [rest];
      }
      NextPiece(chunks, rest, limit);
      var chunk: string;
      chunk, rest := CutOne(rest, limit);
      chunks := chunks + [chunk];
    }
  }

  predicate Fit(chunks: seq<string>, limit: nat) {
    && (forall i :: 0 <= i < |chunks| ==> 0 < |chunks[i]| <= limit)
    && (forall i :: 0 <= i < |chunks| - 1 ==> |chunks[i]| >= limit / 2)
  }

  lemma OneMoreFits(chunk: string, chunks: seq<string>, limit: nat)
    requires Fit(chunks, limit) && 0 < |chunk| <= limit && |chunk| >= limit / 2
    ensures Fit([chunk] + chunks, limit)
  {
  }

  /** Every chunk fits; those of an over-long text are not empty, and all but the last are at least half full. */
  lemma {:induction false} PiecesFit(text: string, limit: nat)
    requires limit >= 2
    ensures Fit(Pieces(text, limit), limit) && (Pieces(text, limit) == [] <==> text == "")
    decreases |text|
  {
    if |text| > limit {
      var rest := Rest(text, limit);
      PiecesFit(rest, limit);
      OneMoreFits(text[..SplitAt(text, limit)], Pieces(rest, limit), limit);
    }
  }

  function Newlines(n: nat): string {
    seq(n, _ => NEWLINE)
  }

  /** How many newlines were dropped behind each chunk. */
  function Gaps(text: string, limit: nat): seq<nat>
    requires limit >= 2
    decreases |text|
  {
    if text == "" then []
    else if |text| <= limit then [0]
    else [LeadingNewlines(text[SplitAt(text, limit)..])] + Gaps(Rest(text, limit), limit)
  }

  function Weave(chunks: seq<string>, gaps: seq<nat>): string
    requires |chunks| == |gaps|
  {
    if chunks == [] then "" else chunks[0] + Newlines(gaps[0]) + Weave(chunks[1..], gaps[1..])
  }

  lemma {:induction false} LeadingNewlinesAreNewlines(s: string)
    ensures s[..LeadingNewlines(s)] == Newlines(LeadingNewlines(s))
    ensures LeadingNewlines(s) < |s| ==> s[LeadingNewlines(s)] != NEWLINE
  {
    if s != [] && s[0] == NEWLINE {
      LeadingNewlinesAreNewlines(s[1..]);
    }
  }

  /** The text is its chunks in order with runs of newlines between and behind them: nothing else is dropped. */
  lemma {:induction false} PiecesRebuildText(text: string, limit: nat)
    requires limit >= 2
    ensures |Pieces(text, limit)| == |Gaps(text, limit)| && Weave(Pieces(text, limit), Gaps(text, limit)) == text
    decreases |text|
  {
    if text != "" && |text| <= limit {
      assert [text][1..] == [] && text + Newlines(0) + "" == text;
    } else if text != "" {
      PiecesRebuildText(Rest(text, limit), limit);
      CutAndStripped(text, limit);
    }
  }

  lemma CutAndStripped(text: string, limit: nat)
    requires |text| > limit >= 2
    ensures var k := SplitAt(text, limit);
            text == text[..k] + Newlines(LeadingNewlines(text[k..])) + Rest(text, limit)
  {
    var k := SplitAt(text, limit);
    LeadingNewlinesAreNewlines(text[k..]);
    CutTwice(text, k, LeadingNewlines(text[k..]));
  }

  lemma CutTwice(s: string, k: nat, n: nat)
    requires k <= |s| && n <= |s[k..]|
    ensures s == s[..k] + s[k..][..n] + s[k..][n..]
  {
  }

  function WithoutNewlines(s: string): string {
    if s == [] then [] else (if s[0] == NEWLINE then [] else [s[0]]) + WithoutNewlines(s[1..])
  }

  lemma {:induction false} WithoutNewlinesConcat(a: string, b: string)
    ensures WithoutNewlines(a + b) == WithoutNewlines(a) + WithoutNewlines(b)
  {
    if a == [] {
      assert a + b == b;
    } else {
      assert (a + b)[1..] == a[1..] + b;
      WithoutNewlinesConcat(a[1..], b);
    }
  }

  lemma {:induction false} NewlinesAreNothing(n: nat)
    ensures WithoutNewlines(Newlines(n)) == []
  {
    if n > 0 {
      assert Newlines(n)[1..] == Newlines(n - 1);
      NewlinesAreNothing(n - 1);
    }
  }

  lemma {:induction false} WeaveKeepsText(chunks: seq<string>, gaps: seq<nat>)
    requires |chunks| == |gaps|
    ensures WithoutNewlines(Weave(chunks, gaps)) == WithoutNewlines(Concat(chunks))
  {
    if chunks != [] {
      WeaveKeepsText(chunks[1..], gaps[1..]);
      WithoutNewlinesConcat(chunks[0] + Newlines(gaps[0]), Weave(chunks[1..], gaps[1..]));
      WithoutNewlinesConcat(chunks[0], Newlines(gaps[0]));
      NewlinesAreNothing(gaps[0]);
      WithoutNewlinesConcat(chunks[0], Concat(chunks[1..]));
    }
  }

  /** The chunks of any text carry all its characters but newlines, in order. */
  lemma {:induction false} NothingElseIsLost(text: string, limit: nat)
    requires limit >= 2
    ensures WithoutNewlines(Concat(Chunked(text, limit))) == WithoutNewlines(text)
  {
    if |text| <= limit {
      assert [text][1..] == [] && text + [] == text;
    } else {
      PiecesRebuildText(text, limit);
      WeaveKeepsText(Pieces(text, limit), Gaps(text, limit));
    }
  }

  lemma CutIsForced(text: string, limit: nat)
    requires |text| > limit >= 2 && LeadingNewlines(text[SplitAt(text, limit)..]) == 0
    ensures SplitAt(text, limit) == limit && NEWLINE !in text[..limit][limit / 2..]
  {
    var k := SplitAt(text, limit);
    assert text[k..][0] == text[k];
  }

  predicate BrokenOnlyWhereForced(chunks: seq<string>, gaps: seq<nat>, limit: nat) {
    && |chunks| == |gaps|
    && forall i :: 0 <= i < |chunks| - 1 && gaps[i] == 0 ==> |chunks[i]| == limit && NEWLINE !in chunks[i][limit / 2..]
  }

  lemma OneMoreChunk(chunk: string, gap: nat, chunks: seq<string>, gaps: seq<nat>, limit: nat)
    requires BrokenOnlyWhereForced(chunks, gaps, limit)
    requires gap == 0 ==> |chunk| == limit && NEWLINE !in chunk[limit / 2..]
    ensures BrokenOnlyWhereForced([chunk] + chunks, [gap] + gaps, limit)
  {
  }

  /** A line is broken in two only where its chunk is full and has no newline in its second half. */
  lemma {:induction false} LinesAreBrokenOnlyWhenTheyMust(text: string, limit: nat)
    requires limit >= 2
    ensures BrokenOnlyWhereForced(Pieces(text, limit), Gaps(text, limit), limit)
    decreases |text|
  {
    if |text| > limit {
      var k, rest := SplitAt(text, limit), Rest(text, limit);
      LinesAreBrokenOnlyWhenTheyMust(rest, limit);
      var gap := LeadingNewlines(text[k..]);
      if gap == 0 {
        CutIsForced(text, limit);
      }
      OneMoreChunk(text[..k], gap, Pieces(rest, limit), Gaps(rest, limit), limit);
    }
  }

  lemma {:induction false} RestStartsClean(text: string, limit: nat)
    requires |text| > limit >= 2 && Rest(text, limit) != ""
    ensures Rest(text, limit)[0] != NEWLINE
  {
    LeadingNewlinesAreNewlines(text[SplitAt(text, limit)..]);
  }

  /** No chunk but the first starts with a newline. */
  lemma {:induction false} LaterPiecesStartClean(text: string, limit: nat)
    requires limit >= 2
    ensures forall i :: 0 < i < |Pieces(text, limit)| ==> Pieces(text, limit)[i] != "" && Pieces(text, limit)[i][0] != NEWLINE
    ensures text != "" ==> Pieces(text, limit) != [] && Pieces(text, limit)[0] != "" && Pieces(text, limit)[0][0] == text[0]
    decreases |text|
  {
    if |text| > limit {
      var rest := Rest(text, limit);
      LaterPiecesStartClean(rest, limit);
      if rest != "" {
        RestStartsClean(text, limit);
      }
      PutFirst(text[..SplitAt(text, limit)], Pieces(rest, limit));
    }
  }

  lemma PutFirst(chunk: string, pieces: seq<string>)
    ensures forall i :: 0 < i < |[chunk] + pieces| ==> ([chunk] + pieces)[i] == pieces[i - 1]
  {
  }

  /**
   `chunk_message`: a text of up to 4096 characters is left alone. Of a longer one, every chunk has up to 4096 and all
   but the last at least 2048, no later one starts with a newline, the text is the chunks with the newlines dropped
   behind them, and where none was dropped the chunk is full and has no newline in its second half.
   */
  method ChunkForTelegram(text: string) returns (chunks: seq<string>, ghost gaps: seq<nat>)
    ensures chunks == Chunked(text, MAX_LENGTH)
    ensures |text| <= 4096 ==> chunks == [text]
    ensures |text| > 4096 ==> |gaps| == |chunks| && Weave(chunks, gaps) == text
    ensures |text| > 4096 ==> forall c :: c in chunks ==> 0 < |c| <= 4096
    ensures forall i :: 0 <= i < |chunks| - 1 ==> |chunks[i]| >= 2048
    ensures forall i :: 0 < i < |chunks| ==> chunks[i] != "" && chunks[i][0] != '\n'
    ensures |text| > 4096 ==>
              forall i :: 0 <= i < |chunks| - 1 && gaps[i] == 0 ==> |chunks[i]| == 4096 && '\n' !in chunks[i][2048..]
  {
    chunks := Chunk(text, MAX_LENGTH);
    gaps := Gaps(text, MAX_LENGTH);
    PiecesFit(text, MAX_LENGTH);
    PiecesRebuildText(text, MAX_LENGTH);
    LaterPiecesStartClean(text, MAX_LENGTH);
    LinesAreBrokenOnlyWhenTheyMust(text, MAX_LENGTH);
  }
}
