/**
  What chunking guarantees about the text: nothing but white space is lost, nothing is out
  of order, only carried prefixes are repeated, and how long a chunk can get.
 */
module ChunkCoverage {
  import opened Chunker
  import opened Whitespace

  // ----------------------------------------------------- the non-white-space text

  function Kept(c: char): string {
    if IsSpace(c) then "" else [c]
  }

  function NonSpace(s: string): string {
    if s == "" then "" else Kept(s[0]) + NonSpace(s[1..])
  }

  function NonSpaceAll(ss: seq<string>): string {
    if ss == [] then "" else NonSpace(ss[0]) + NonSpaceAll(ss[1..])
  }

  lemma {:induction false} NonSpaceAppend(a: string, b: string)
    ensures NonSpace(a + b) == NonSpace(a) + NonSpace(b)
  {
    if a == "" {
      assert a + b == b;
    } else {
      assert (a + b)[1..] == a[1..] + b;
      NonSpaceAppend(a[1..], b);
    }
  }

  lemma {:induction false} NonSpaceAllAppend(a: seq<string>, b: seq<string>)
    ensures NonSpaceAll(a + b) == NonSpaceAll(a) + NonSpaceAll(b)
  {
    if a == [] {
      assert a + b == b;
    } else {
      assert (a + b)[1..] == a[1..] + b;
      NonSpaceAllAppend(a[1..], b);
    }
  }

  lemma {:induction false} StripKeepsText(s: string)
    ensures NonSpace(Strip(s)) == NonSpace(s)
  {
    StripLeftKeepsText(s);
    StripRightKeepsText(StripLeft(s));
  }

  lemma {:induction false} StripLeftKeepsText(s: string)
    ensures NonSpace(StripLeft(s)) == NonSpace(s)
  {
    if s != "" && IsSpace(s[0]) {
      StripLeftKeepsText(s[1..]);
    }
  }

  lemma {:induction false} StripRightKeepsText(s: string)
    ensures NonSpace(StripRight(s)) == NonSpace(s)
  {
    if s != "" && IsSpace(s[|s| - 1]) {
      StripRightKeepsText(s[..|s| - 1]);
      NonSpaceAppend(s[..|s| - 1], [s[|s| - 1]]);
      assert s[..|s| - 1] + [s[|s| - 1]] == s;
    }
  }

  lemma {:induction false} StripShortens(s: string)
    ensures |Strip(s)| <= |s|
  {
    StripLeftShortens(s);
    StripRightShortens(StripLeft(s));
  }

  lemma {:induction false} StripLeftShortens(s: string)
    ensures |StripLeft(s)| <= |s|
  {
    if s != "" && IsSpace(s[0]) {
      StripLeftShortens(s[1..]);
    }
  }

  lemma {:induction false} StripRightShortens(s: string)
    ensures |StripRight(s)| <= |s|
  {
    if s != "" && IsSpace(s[|s| - 1]) {
      StripRightShortens(s[..|s| - 1]);
    }
  }

  // ------------------------------------------------------------------ paragraphs

  lemma {:induction false} UnifyKeepsText(s: string)
    ensures NonSpace(Unify(s)) == NonSpace(s)
  {
    if s == "" {
    } else if |s| >= 2 && s[0] == '\r' && s[1] == '\n' {
      UnifyKeepsText(s[2..]);
      assert s == "\r\n" + s[2..];
      NonSpaceAppend("\r\n", s[2..]);
      NonSpaceAppend("\n", Unify(s[2..]));
      assert NonSpace("\r\n") == NonSpace("\n") == "" by {
        assert "\r\n"[1..] == "\n" && "\n"[1..] == "";
      }
    } else {
      UnifyKeepsText(s[1..]);
      NonSpaceAppend([s[0]], Unify(s[1..]));
      NonSpaceAppend([s[0]], s[1..]);
      assert s == [s[0]] + s[1..];
    }
  }

  lemma NonSpaceHead(c: char, s: string)
    ensures NonSpace([c] + s) == Kept(c) + NonSpace(s)
  {
    assert ([c] + s)[1..] == s;
  }

  lemma NonSpaceAllHead(head: string, rest: seq<string>)
    ensures NonSpaceAll([head] + rest) == NonSpace(head) + NonSpaceAll(rest)
  {
    assert ([head] + rest)[1..] == rest;
  }

  lemma {:induction false} LinesKeepText(s: string)
    ensures NonSpaceAll(Lines(s)) == NonSpace(s)
  {
    if s == "" {
      NonSpaceAllHead("", []);
    } else {
      LinesKeepText(s[1..]);
      if s[0] == '\n' {
        NonSpaceAllHead("", Lines(s[1..]));
      } else {
        var lines := Lines(s[1..]);
        CharPrepended(s[0], lines[0], lines[1..]);
        assert [lines[0]] + lines[1..] == lines;
      }
    }
  }

  lemma Regroup(a: string, b: string, c: string)
    ensures (a + b) + c == a + (b + c)
  {
  }

  lemma CharPrepended(c: char, first: string, rest: seq<string>)
    ensures NonSpaceAll([[c] + first] + rest) == Kept(c) + NonSpaceAll([first] + rest)
  {
    NonSpaceHead(c, first);
    NonSpaceAllHead([c] + first, rest);
    NonSpaceAllHead(first, rest);
    Regroup(Kept(c), NonSpace(first), NonSpaceAll(rest));
  }

  lemma {:induction false} JoinKeepsText(lines: seq<string>)
    ensures NonSpace(Join(lines)) == NonSpaceAll(lines)
  {
    if |lines| == 1 {
      NonSpaceAllHead(lines[0], []);
      assert lines == [lines[0]] + [];
    } else if lines != [] {
      JoinKeepsText(lines[1..]);
      LineJoined(lines[0], '\n', Join(lines[1..]));
    }
  }

  lemma SpaceHead(c: char, s: string)
    requires IsSpace(c)
    ensures NonSpace([c] + s) == NonSpace(s)
  {
    assert ([c] + s)[1..] == s;
  }

  lemma LineJoined(line: string, newline: char, rest: string)
    requires IsSpace(newline)
    ensures NonSpace(line + [newline] + rest) == NonSpace(line) + NonSpace(rest)
  {
    Regroup(line, [newline], rest);
    NonSpaceAppend(line, [newline] + rest);
    SpaceHead(newline, rest);
  }

  lemma {:induction false} BlankIsEmptyText(s: string)
    requires Strip(s) == ""
    ensures NonSpace(s) == ""
  {
    StripKeepsText(s);
  }

  lemma ClosingKeepsText(current: seq<string>)
    ensures NonSpaceAll(Closing(current)) == NonSpaceAll(current)
  {
    if current != [] {
      JoinKeepsText(current);
      NonSpaceAllHead(Join(current), []);
      assert [Join(current)] + [] == [Join(current)];
    }
  }

  lemma {:induction false} BlocksFromKeepText(lines: seq<string>, current: seq<string>)
    ensures NonSpaceAll(BlocksFrom(lines, current)) == NonSpaceAll(current) + NonSpaceAll(lines)
    decreases |lines|
  {
    ClosingKeepsText(current);
    if lines != [] {
      if Strip(lines[0]) == "" {
        BlankIsEmptyText(lines[0]);
        BlocksFromKeepText(lines[1..], []);
        NonSpaceAllAppend(Closing(current), BlocksFrom(lines[1..], []));
      } else {
        BlocksFromKeepText(lines[1..], current + [lines[0]]);
        NonSpaceAllAppend(current, [lines[0]]);
        NonSpaceAllHead(lines[0], []);
        assert [lines[0]] + [] == [lines[0]];
        Regroup(NonSpaceAll(current), NonSpace(lines[0]), NonSpaceAll(lines[1..]));
      }
    }
  }

  /** Splitting into paragraphs loses nothing but white space. */
  lemma BlocksKeepText(text: string)
    ensures NonSpaceAll(Blocks(text)) == NonSpace(text)
  {
    UnifyKeepsText(text);
    LinesKeepText(Unify(text));
    BlocksFromKeepText(Lines(Unify(text)), []);
    assert [text][1..] == [];
  }

  // ---------------------------------------------------------------------- pieces

  /** A chunk before stripping: what it repeats of its predecessor, and the text it adds. */
  datatype Piece = Piece(carry: string, added: string)

  function Text(p: Piece): string {
    p.carry + p.added
  }

  function Texts(ps: seq<Piece>): seq<string> {
    if ps == [] then [] else [Text(ps[0])] + Texts(ps[1..])
  }

  function AddedParts(ps: seq<Piece>): seq<string> {
    if ps == [] then [] else [ps[0].added] + AddedParts(ps[1..])
  }

  predicate IsSuffix(a: string, b: string) {
    |a| <= |b| && b[|b| - |a|..] == a
  }

  /** Nothing is carried into the first piece, and each carry is the end of the piece before. */
  ghost predicate Carried(before: string, ps: seq<Piece>) {
    && (ps != [] ==> IsSuffix(ps[0].carry, before))
    && (forall i, j :: 0 <= i < j < |ps| && j == i + 1 ==> IsSuffix(ps[j].carry, Text(ps[i])))
  }

  lemma {:induction false} TextsAppend(a: seq<Piece>, b: seq<Piece>)
    ensures Texts(a + b) == Texts(a) + Texts(b)
  {
    if a == [] {
      assert a + b == b;
    } else {
      assert (a + b)[1..] == a[1..] + b;
      TextsAppend(a[1..], b);
    }
  }

  lemma {:induction false} AddedAppend(a: seq<Piece>, b: seq<Piece>)
    ensures AddedParts(a + b) == AddedParts(a) + AddedParts(b)
  {
    if a == [] {
      assert a + b == b;
    } else {
      assert (a + b)[1..] == a[1..] + b;
      AddedAppend(a[1..], b);
    }
  }

  /** The text one piece adds, and what a list of pieces adds. */
  function AddedText(ps: seq<Piece>): string {
    NonSpaceAll(AddedParts(ps))
  }

  lemma AddedTextOfOne(p: Piece)
    ensures Texts([p]) == [Text(p)] && AddedText([p]) == NonSpace(p.added)
  {
    assert [p][1..] == [] && AddedParts([p]) == [p.added] && [p.added][1..] == [];
    assert NonSpaceAll([p.added]) == NonSpace(p.added) + NonSpaceAll([p.added][1..]);
  }

  lemma AddedTextAppend(a: seq<Piece>, b: seq<Piece>)
    ensures AddedText(a + b) == AddedText(a) + AddedText(b)
  {
    AddedAppend(a, b);
    NonSpaceAllAppend(AddedParts(a), AddedParts(b));
  }

  lemma {:induction false} TextsAt(ps: seq<Piece>, i: nat)
    requires i < |ps|
    ensures |Texts(ps)| == |ps| && Texts(ps)[i] == Text(ps[i])
  {
    TextsLength(ps);
    if i > 0 {
      TextsAt(ps[1..], i - 1);
    }
  }

  lemma {:induction false} TextsLength(ps: seq<Piece>)
    ensures |Texts(ps)| == |ps|
  {
    if ps != [] {
      TextsLength(ps[1..]);
    }
  }

  // -------------------------------------------------------- windows over a long block

  /** The windows from `start`, when everything before `seen` has been covered. */
  function WindowPieces(text: string, start: nat, seen: nat, maxChars: int, overlap: int): seq<Piece>
    requires maxChars > 0 && 0 <= overlap < maxChars && start <= seen <= Min(start + maxChars, |text|)
    decreases |text| - start
  {
    if start >= |text| then []
    else
      var end := Min(start + maxChars, |text|);
      var piece := Piece(text[start..seen], text[seen..end]);
      if end == |text| then [piece]
      else [piece] + WindowPieces(text, end - overlap, end, maxChars, overlap)
  }

  function Concat(ss: seq<string>): string {
    if ss == [] then "" else ss[0] + Concat(ss[1..])
  }

  lemma {:induction false} WindowPiecesAreWindows(text: string, start: nat, seen: nat, maxChars: int, overlap: int)
    requires maxChars > 0 && 0 <= overlap < maxChars && start <= seen <= Min(start + maxChars, |text|)
    ensures Texts(WindowPieces(text, start, seen, maxChars, overlap)) == WindowsFrom(text, start, maxChars, overlap)
    decreases |text| - start
  {
    if start < |text| {
      var end := Min(start + maxChars, |text|);
      assert text[start..seen] + text[seen..end] == text[start..end];
      if end < |text| {
        WindowPiecesAreWindows(text, end - overlap, end, maxChars, overlap);
        assert Max(start, end - overlap) == end - overlap;
      }
    }
  }

  /**
    Splitting by length rebuilds its input exactly: the windows without their overlaps, laid end to end,
    are the text.
   */
  lemma {:induction false} WindowsRebuildText(text: string, start: nat, seen: nat, maxChars: int, overlap: int)
    requires maxChars > 0 && 0 <= overlap < maxChars && start <= seen <= Min(start + maxChars, |text|)
    requires start < |text|
    ensures Concat(AddedParts(WindowPieces(text, start, seen, maxChars, overlap))) == text[seen..]
    decreases |text| - start
  {
    var end := Min(start + maxChars, |text|);
    var piece := Piece(text[start..seen], text[seen..end]);
    if end == |text| {
      assert AddedParts([piece]) == [text[seen..end]] && [text[seen..end]][1..] == [];
    } else {
      var rest := WindowPieces(text, end - overlap, end, maxChars, overlap);
      WindowsRebuildText(text, end - overlap, end, maxChars, overlap);
      assert ([piece] + rest)[1..] == rest;
      assert ([piece.added] + AddedParts(rest))[1..] == AddedParts(rest);
      assert text[seen..end] + text[end..] == text[seen..];
    }
  }

  /** Each overlap is the end of the window before, at most `overlap` long, and no window is too long. */
  lemma {:induction false} WindowsAreBounded(text: string, start: nat, seen: nat, maxChars: int, overlap: int,
                                             before: string)
    requires maxChars > 0 && 0 <= overlap < maxChars && start <= seen <= Min(start + maxChars, |text|)
    requires start < |text| && seen - start <= overlap && IsSuffix(text[start..seen], before)
    ensures Bounded(before, WindowPieces(text, start, seen, maxChars, overlap), overlap, maxChars)
    decreases |text| - start
  {
    var end := Min(start + maxChars, |text|);
    var piece := Piece(text[start..seen], text[seen..end]);
    WindowIsBounded(text, start, seen, end, maxChars, overlap, before);
    if end < |text| {
      WindowsAreBounded(text, end - overlap, end, maxChars, overlap, Text(piece));
      MoreWindows(before, piece, WindowPieces(text, end - overlap, end, maxChars, overlap),
                  WindowPieces(text, start, seen, maxChars, overlap), overlap, maxChars);
    } else {
      assert WindowPieces(text, start, seen, maxChars, overlap) == [piece];
    }
  }

  lemma MoreWindows(before: string, piece: Piece, rest: seq<Piece>, all: seq<Piece>, overlap: int, limit: int)
    requires Bounded(before, [piece], overlap, limit) && Bounded(Text(piece), rest, overlap, limit)
    requires all == [piece] + rest
    ensures Bounded(before, all, overlap, limit)
  {
    BoundedAppend(before, [piece], rest, overlap, limit);
  }

  /** One window, and that the next one starts inside it. */
  lemma WindowIsBounded(text: string, start: nat, seen: nat, end: nat, maxChars: int, overlap: int, before: string)
    requires start <= seen <= end <= |text| && end - start <= maxChars
    requires 0 <= overlap && seen - start <= overlap && IsSuffix(text[start..seen], before)
    ensures
      var piece := Piece(text[start..seen], text[seen..end]);
      && Bounded(before, [piece], overlap, maxChars) && LastText(before, [piece]) == Text(piece)
      && (start + overlap <= end ==> IsSuffix(text[end - overlap..end], Text(piece)))
  {
    WindowText(text, start, seen, end);
    OneIsBounded(before, Piece(text[start..seen], text[seen..end]), overlap, maxChars);
    if start + overlap <= end {
      WindowOverlap(text, start, end, overlap);
    }
  }

  lemma WindowText(text: string, start: nat, seen: nat, end: nat)
    requires start <= seen <= end <= |text|
    ensures Text(Piece(text[start..seen], text[seen..end])) == text[start..end]
  {
  }

  lemma OneIsBounded(before: string, p: Piece, overlap: int, limit: int)
    requires IsSuffix(p.carry, before) && |p.carry| <= overlap && |Text(p)| <= limit
    ensures Bounded(before, [p], overlap, limit) && LastText(before, [p]) == Text(p)
  {
  }

  lemma WindowOverlap(text: string, start: nat, end: nat, overlap: nat)
    requires start + overlap <= end <= |text|
    ensures IsSuffix(text[end - overlap..end], text[start..end])
  {
    var w := text[start..end];
    assert w[|w| - overlap..] == text[end - overlap..end];
  }

  // ----------------------------------------------------------- termination, exactly

  /** The start after a window that is not the last one, and the windows from there. */
  lemma NextStart(text: string, maxChars: int, overlap: int, n: nat, start: nat)
    requires maxChars > 0 && Splittable(text, maxChars, overlap) && start == StartAfter(text, maxChars, overlap, n)
    requires |WindowsFrom(text, start, maxChars, overlap)| > 1
    ensures
      var next := Max(start, Min(start + maxChars, |text|) - overlap);
      && StartAfter(text, maxChars, overlap, n + 1) == next
      && WindowsFrom(text, start, maxChars, overlap)[1..] == WindowsFrom(text, next, maxChars, overlap)
  {
  }

  /** The windows are those at the loop's starts, up to the start that ends it. */
  lemma {:induction false} WindowsAtStarts(text: string, maxChars: int, overlap: int, n: nat, i: nat, start: nat)
    requires maxChars > 0 && Splittable(text, maxChars, overlap) && start == StartAfter(text, maxChars, overlap, n)
    requires i < |WindowsFrom(text, start, maxChars, overlap)|
    ensures
      var at := StartAfter(text, maxChars, overlap, n + i);
      at < |text| && WindowsFrom(text, start, maxChars, overlap)[i] == text[at..Min(at + maxChars, |text|)]
    decreases i
  {
    if i > 0 {
      var next := Max(start, Min(start + maxChars, |text|) - overlap);
      NextStart(text, maxChars, overlap, n, start);
      WindowsAtStarts(text, maxChars, overlap, n + 1, i - 1, next);
    }
  }

  /** The loop that splits by length ends iff the text fits or the overlap is smaller than the window. */
  lemma HardSplitEndsIff(text: string, maxChars: int, overlap: int)
    requires maxChars > 0
    ensures (exists n: nat :: StartAfter(text, maxChars, overlap, n) >= |text|) <==> Splittable(text, maxChars, overlap)
  {
    if overlap < maxChars {
      LoopAdvances(text, maxChars, overlap, |text|);
    } else if |text| <= maxChars {
      assert StartAfter(text, maxChars, overlap, 0) == 0;
      assert StartAfter(text, maxChars, overlap, 1) >= |text|;
    } else {
      forall n: nat
        ensures StartAfter(text, maxChars, overlap, n) == 0
      {
        LoopIsStuck(text, maxChars, overlap, n);
      }
    }
  }

  lemma {:induction false} LoopAdvances(text: string, maxChars: int, overlap: int, n: nat)
    requires maxChars > 0 && overlap < maxChars
    ensures StartAfter(text, maxChars, overlap, n) >= Min(n, |text|)
  {
    if n > 0 {
      LoopAdvances(text, maxChars, overlap, n - 1);
    }
  }

  lemma {:induction false} LoopIsStuck(text: string, maxChars: int, overlap: int, n: nat)
    requires 0 < maxChars <= overlap && maxChars < |text|
    ensures StartAfter(text, maxChars, overlap, n) == 0
  {
    if n > 0 {
      LoopIsStuck(text, maxChars, overlap, n - 1);
    }
  }

  // ------------------------------------------------------------------ all blocks

  function WholePiece(p: Piece): seq<Piece> {
    if Text(p) == "" then [] else [p]
  }

  const NOTHING := Piece("", "")

  /** The same packing as the loop's, remembering which part of each chunk is carried. */
  function AbsorbPiece(current: Piece, block: string, maxChars: int, overlap: int): (seq<Piece>, Piece)
    requires maxChars > 0 && 0 <= overlap < maxChars
  {
    if |block| > maxChars then
      (WholePiece(current) + WindowPieces(block, 0, 0, maxChars, overlap), NOTHING)
    else if Text(current) != "" && |Text(current)| + 1 + |block| > maxChars then
      ([current], Piece(Tail(Text(current), overlap), "\n" + block))
    else if Text(current) != "" then
      ([], Piece(current.carry, current.added + "\n" + block))
    else
      ([], Piece("", block))
  }

  function PiecesFrom(blocks: seq<string>, current: Piece, maxChars: int, overlap: int): seq<Piece>
    requires maxChars > 0 && 0 <= overlap < maxChars
    decreases |blocks|
  {
    if blocks == [] then WholePiece(current)
    else
      var (done, next) := AbsorbPiece(current, blocks[0], maxChars, overlap);
      done + PiecesFrom(blocks[1..], next, maxChars, overlap)
  }

  lemma AbsorbedTexts(current: Piece, block: string, maxChars: int, overlap: int)
    requires maxChars > 0 && 0 <= overlap < maxChars
    ensures
      var (pieces, next) := AbsorbPiece(current, block, maxChars, overlap);
      (Texts(pieces), Text(next)) == Absorb(Text(current), block, maxChars, overlap)
  {
    AddedTextOfOne(current);
    if |block| > maxChars {
      assert Text(NOTHING) == "";
      WindowPiecesAreWindows(block, 0, 0, maxChars, overlap);
      TextsAppend(WholePiece(current), WindowPieces(block, 0, 0, maxChars, overlap));
    } else if Text(current) != "" {
      assert Tail(Text(current), overlap) + ("\n" + block) == Tail(Text(current), overlap) + "\n" + block;
      assert current.carry + (current.added + "\n" + block) == Text(current) + "\n" + block;
    } else {
      assert "" + block == block;
    }
  }

  lemma {:induction false} PiecesAreChunks(blocks: seq<string>, current: Piece, maxChars: int, overlap: int)
    requires maxChars > 0 && 0 <= overlap < maxChars
    ensures Texts(PiecesFrom(blocks, current, maxChars, overlap))
        == ChunksFrom(blocks, Text(current), maxChars, overlap)
    decreases |blocks|
  {
    if blocks == [] {
      assert [current][1..] == [];
    } else {
      AbsorbedTexts(current, blocks[0], maxChars, overlap);
      var (done, next) := AbsorbPiece(current, blocks[0], maxChars, overlap);
      PiecesAreChunks(blocks[1..], next, maxChars, overlap);
      TextsAppend(done, PiecesFrom(blocks[1..], next, maxChars, overlap));
    }
  }

  lemma {:induction false} AddedByWindows(ps: seq<Piece>)
    ensures AddedText(ps) == NonSpace(Concat(AddedParts(ps)))
  {
    if ps != [] {
      AddedByWindows(ps[1..]);
      assert AddedParts(ps)[1..] == AddedParts(ps[1..]);
      NonSpaceAppend(ps[0].added, Concat(AddedParts(ps[1..])));
    }
  }

  lemma NewlineAdds(s: string, block: string)
    ensures NonSpace("\n" + block) == NonSpace(block)
    ensures NonSpace(s + "\n" + block) == NonSpace(s) + NonSpace(block)
  {
    NonSpaceAppend("\n", block);
    NonSpaceAppend(s, "\n" + block);
    assert s + ("\n" + block) == s + "\n" + block;
    assert NonSpace("\n") == "" by {
      assert "\n"[1..] == "";
    }
  }

  lemma LongBlockText(current: Piece, block: string, maxChars: int, overlap: int)
    requires maxChars > 0 && 0 <= overlap < maxChars && |block| > maxChars
    ensures AddedText(WholePiece(current) + WindowPieces(block, 0, 0, maxChars, overlap))
            == NonSpace(current.added) + NonSpace(block)
  {
    var windows := WindowPieces(block, 0, 0, maxChars, overlap);
    WindowsRebuildText(block, 0, 0, maxChars, overlap);
    assert block[0..] == block;
    AddedByWindows(windows);
    AddedTextAppend(WholePiece(current), windows);
    AddedTextOfOne(current);
  }

  lemma AbsorbedText(current: Piece, block: string, maxChars: int, overlap: int)
    requires maxChars > 0 && 0 <= overlap < maxChars
    ensures
      var (done, next) := AbsorbPiece(current, block, maxChars, overlap);
      AddedText(done) + NonSpace(next.added) == NonSpace(current.added) + NonSpace(block)
  {
    if |block| > maxChars {
      LongBlockText(current, block, maxChars, overlap);
    } else {
      AddedTextOfOne(current);
      NewlineAdds(current.added, block);
    }
  }

  lemma {:induction false} PiecesKeepText(blocks: seq<string>, current: Piece, maxChars: int, overlap: int)
    requires maxChars > 0 && 0 <= overlap < maxChars
    ensures AddedText(PiecesFrom(blocks, current, maxChars, overlap)) == NonSpace(current.added) + NonSpaceAll(blocks)
    decreases |blocks|
  {
    if blocks == [] {
      AddedTextOfOne(current);
    } else {
      AbsorbedText(current, blocks[0], maxChars, overlap);
      var (done, next) := AbsorbPiece(current, blocks[0], maxChars, overlap);
      PiecesKeepText(blocks[1..], next, maxChars, overlap);
      AddedTextAppend(done, PiecesFrom(blocks[1..], next, maxChars, overlap));
      Regroup(AddedText(done), NonSpace(next.added), NonSpaceAll(blocks[1..]));
      Regroup(NonSpace(current.added), NonSpace(blocks[0]), NonSpaceAll(blocks[1..]));
    }
  }

  // ------------------------------------------------------------ carries and lengths

  /** Each carry is the end of the piece before, at most `overlap` long, and no piece exceeds `limit`. */
  ghost predicate Bounded(before: string, ps: seq<Piece>, overlap: int, limit: int) {
    && Carried(before, ps)
    && (forall i :: 0 <= i < |ps| ==> |ps[i].carry| <= overlap && |Text(ps[i])| <= limit)
  }

  function LastText(before: string, ps: seq<Piece>): string {
    if ps == [] then before else Text(ps[|ps| - 1])
  }

  lemma CarriedAppend(before: string, a: seq<Piece>, b: seq<Piece>)
    requires Carried(before, a) && Carried(LastText(before, a), b)
    ensures Carried(before, a + b)
  {
    var ps := a + b;
    forall i, j | 0 <= i < j < |ps| && j == i + 1
      ensures IsSuffix(ps[j].carry, Text(ps[i]))
    {
      if i + 1 < |a| {
        assert IsSuffix(a[i + 1].carry, Text(a[i]));
      } else if i + 1 == |a| {
        assert b != [];
      } else {
        assert IsSuffix(b[i - |a| + 1].carry, Text(b[i - |a|]));
      }
    }
  }

  lemma BoundedAppend(before: string, a: seq<Piece>, b: seq<Piece>, overlap: int, limit: int)
    requires Bounded(before, a, overlap, limit) && Bounded(LastText(before, a), b, overlap, limit)
    ensures Bounded(before, a + b, overlap, limit)
    ensures LastText(before, a + b) == LastText(LastText(before, a), b)
  {
    CarriedAppend(before, a, b);
  }

  lemma LongBlockBounds(before: string, current: Piece, block: string, maxChars: int, overlap: int)
    requires 1 <= overlap < maxChars < |block|
    requires Bounded(before, [current], overlap, maxChars + overlap + 1)
    ensures
      var (done, next) := AbsorbPiece(current, block, maxChars, overlap);
      && Bounded(before, done, overlap, maxChars + overlap + 1)
      && Bounded(LastText(before, done), [next], overlap, maxChars + overlap + 1)
  {
    var whole := WholePiece(current);
    var windows := WindowPieces(block, 0, 0, maxChars, overlap);
    assert IsSuffix(block[0..0], LastText(before, whole));
    WindowsAreBounded(block, 0, 0, maxChars, overlap, LastText(before, whole));
    BoundedAppend(before, whole, windows, overlap, maxChars + overlap + 1);
  }

  lemma AbsorbedBounds(before: string, current: Piece, block: string, maxChars: int, overlap: int)
    requires 1 <= overlap < maxChars
    requires Bounded(before, [current], overlap, maxChars + overlap + 1)
    ensures
      var (done, next) := AbsorbPiece(current, block, maxChars, overlap);
      && Bounded(before, done, overlap, maxChars + overlap + 1)
      && Bounded(LastText(before, done), [next], overlap, maxChars + overlap + 1)
  {
    if |block| > maxChars {
      LongBlockBounds(before, current, block, maxChars, overlap);
    } else if Text(current) != "" && |Text(current)| + 1 + |block| > maxChars {
      assert IsSuffix(Tail(Text(current), overlap), Text(current));
    } else if Text(current) == "" {
      assert IsSuffix("", before);
    }
  }

  lemma {:induction false} PiecesAreBounded(before: string, blocks: seq<string>, current: Piece, maxChars: int,
                                            overlap: int)
    requires 1 <= overlap < maxChars
    requires Bounded(before, [current], overlap, maxChars + overlap + 1)
    ensures Bounded(before, PiecesFrom(blocks, current, maxChars, overlap), overlap, maxChars + overlap + 1)
    decreases |blocks|
  {
    if blocks != [] {
      AbsorbedBounds(before, current, blocks[0], maxChars, overlap);
      var (done, next) := AbsorbPiece(current, blocks[0], maxChars, overlap);
      PiecesAreBounded(LastText(before, done), blocks[1..], next, maxChars, overlap);
      BoundedAppend(before, done, PiecesFrom(blocks[1..], next, maxChars, overlap), overlap, maxChars + overlap + 1);
    }
  }

  // ----------------------------------------------------------------- main results

  /** The pieces behind the chunks of a text. */
  function PiecesOf(text: string, maxChars: int, overlap: int): seq<Piece>
    requires 0 <= overlap < EffectiveMax(maxChars)
  {
    var m := EffectiveMax(maxChars);
    if |text| <= m then WholePiece(Piece("", text))
    else PiecesFrom(Parts(text, m), NOTHING, m, overlap)
  }

  /**
    Coverage, for every text, size and non-negative overlap below the size: the chunks are the
    pieces, stripped unless the text fits in one; and the pieces without what they carry over
    hold exactly the non-white-space characters of the text, in order and once each.
   */
  lemma ChunkCoverage(text: string, maxChars: int, overlap: int)
    requires 0 <= overlap < EffectiveMax(maxChars)
    ensures
      var ps := PiecesOf(text, maxChars, overlap);
      && Chunkable(text, maxChars, overlap)
      && Chunks(text, maxChars, overlap)
         == (if |text| <= EffectiveMax(maxChars) then Texts(ps) else StripAll(Texts(ps)))
      && NonSpaceAll(Chunks(text, maxChars, overlap)) == NonSpaceAll(Texts(ps))
      && AddedText(ps) == NonSpace(text)
  {
    var m := EffectiveMax(maxChars);
    if |text| <= m {
      AddedTextOfOne(Piece("", text));
      assert Text(Piece("", text)) == text;
    } else {
      PiecesAreChunks(Parts(text, m), NOTHING, m, overlap);
      PartsKeepText(text, m, overlap);
      StripAllKeepsText(Texts(PiecesOf(text, maxChars, overlap)));
    }
  }

  lemma PartsKeepText(text: string, m: int, overlap: int)
    requires 0 <= overlap < m
    ensures AddedText(PiecesFrom(Parts(text, m), NOTHING, m, overlap)) == NonSpace(text)
  {
    PiecesKeepText(Parts(text, m), NOTHING, m, overlap);
    BlocksKeepText(text);
    NonSpaceAllHead(text, []);
    assert [text] + [] == [text];
  }

  /** Stripping a chunk, or dropping a blank one, loses none of its text. */
  lemma {:induction false} StripAllKeepsText(chunks: seq<string>)
    ensures NonSpaceAll(StripAll(chunks)) == NonSpaceAll(chunks)
  {
    if chunks != [] {
      StripAllKeepsText(chunks[1..]);
      StripKeepsText(chunks[0]);
      if Strip(chunks[0]) == "" {
        assert StripAll(chunks) == StripAll(chunks[1..]);
      } else {
        assert StripAll(chunks)[1..] == StripAll(chunks[1..]);
      }
    }
  }

  lemma {:induction false} StripAllLengths(chunks: seq<string>, limit: int)
    requires forall i :: 0 <= i < |chunks| ==> |chunks[i]| <= limit
    ensures forall i :: 0 <= i < |StripAll(chunks)| ==> 0 < |StripAll(chunks)[i]| <= limit
  {
    if chunks != [] {
      StripAllLengths(chunks[1..], limit);
      StripShortens(chunks[0]);
    }
  }

  /** What is carried is short and comes from the end of the piece before; no chunk exceeds `maxChars + overlap + 1`. */
  lemma ChunkLengths(text: string, maxChars: int, overlap: int)
    requires 1 <= overlap < EffectiveMax(maxChars)
    ensures
      var m := EffectiveMax(maxChars);
      var ps := PiecesOf(text, maxChars, overlap);
      && Bounded("", ps, overlap, m + overlap + 1)
      && Chunkable(text, maxChars, overlap)
      && forall i :: 0 <= i < |Chunks(text, maxChars, overlap)| ==>
           0 < |Chunks(text, maxChars, overlap)[i]| <= m + overlap + 1
  {
    var m := EffectiveMax(maxChars);
    ChunkCoverage(text, maxChars, overlap);
    if |text| > m {
      assert Bounded("", [NOTHING], overlap, m + overlap + 1);
      PiecesAreBounded("", Parts(text, m), NOTHING, m, overlap);
      var ps := PiecesOf(text, maxChars, overlap);
      TextsLength(ps);
      forall i | 0 <= i < |ps|
        ensures |Texts(ps)[i]| <= m + overlap + 1
      {
        TextsAt(ps, i);
      }
      StripAllLengths(Texts(ps), m + overlap + 1);
    }
  }

  // ------------------------------------------------------ when no chunk is too long

  /** Whatever the text, no chunk is longer than the size asked for. */
  ghost predicate AlwaysFits(maxChars: int, overlap: int)
    requires 0 <= overlap < EffectiveMax(maxChars)
  {
    forall text :: NoLongChunk(text, maxChars, overlap)
  }

  ghost predicate NoLongChunk(text: string, maxChars: int, overlap: int) {
    Chunkable(text, maxChars, overlap)
    && forall i :: 0 <= i < |Chunks(text, maxChars, overlap)| ==>
         |Chunks(text, maxChars, overlap)[i]| <= EffectiveMax(maxChars)
  }

  lemma {:induction false} WindowsFit(text: string, start: nat, maxChars: int, overlap: int)
    requires maxChars > 0 && Splittable(text, maxChars, overlap)
    ensures forall i :: 0 <= i < |WindowsFrom(text, start, maxChars, overlap)| ==>
        |WindowsFrom(text, start, maxChars, overlap)[i]| <= maxChars
    decreases |text| - start
  {
    if start < |text| {
      var end := Min(start + maxChars, |text|);
      if end < |text| {
        WindowsFit(text, Max(start, end - overlap), maxChars, overlap);
      }
    }
  }

  lemma OneBlockFits(text: string, m: int, overlap: int)
    requires 0 < m < |text| && overlap < m
    ensures ChunksFrom([text], "", m, overlap) == WindowsFrom(text, 0, m, overlap)
  {
    assert [text][1..] == [];
  }

  lemma WindowChunksFit(text: string, maxChars: int, overlap: int)
    requires 0 <= overlap < EffectiveMax(maxChars) < BLOCK_MODE_FROM
    ensures NoLongChunk(text, maxChars, overlap)
  {
    var m := EffectiveMax(maxChars);
    if |text| > m {
      WindowsFit(text, 0, m, overlap);
      OneBlockFits(text, m, overlap);
      StripAllLengths(WindowsFrom(text, 0, m, overlap), m);
    }
  }

  function Repeat(n: nat): string {
    seq(n, (i: nat) => 'a')
  }

  /** Two full paragraphs: the text on which the carried prefix does not fit. */
  function TwoParagraphs(n: nat): string {
    Repeat(n) + "\n" + ("\n" + Repeat(n))
  }

  lemma {:induction false} UnifyPlain(s: string)
    requires forall i :: 0 <= i < |s| ==> s[i] != '\r'
    ensures Unify(s) == s
  {
    if s != "" {
      UnifyPlain(s[1..]);
    }
  }

  lemma {:induction false} LinesOfLine(s: string)
    requires forall i :: 0 <= i < |s| ==> s[i] != '\n'
    ensures Lines(s) == [s]
  {
    if s != "" {
      LinesOfLine(s[1..]);
      assert [s[0]] + s[1..] == s;
    }
  }

  lemma {:induction false} LinesOfPrefix(s: string, rest: string)
    requires forall i :: 0 <= i < |s| ==> s[i] != '\n'
    ensures Lines(s + "\n" + rest) == [s] + Lines(rest)
  {
    if s == "" {
      assert (s + "\n" + rest)[1..] == rest;
    } else {
      assert (s + "\n" + rest)[1..] == s[1..] + "\n" + rest;
      LinesOfPrefix(s[1..], rest);
      assert [s[0]] + s[1..] == s;
      assert ([s[1..]] + Lines(rest))[1..] == Lines(rest);
    }
  }

  lemma NothingToStrip(s: string)
    requires s != "" && !IsSpace(s[0]) && !IsSpace(s[|s| - 1])
    ensures Strip(s) == s
  {
  }

  lemma BlocksOfTwoParagraphs(n: nat)
    requires n > 0
    ensures Blocks(TwoParagraphs(n)) == [Repeat(n), Repeat(n)]
  {
    var a := Repeat(n);
    UnifyPlain(TwoParagraphs(n));
    LinesOfPrefix(a, "\n" + a);
    LinesOfPrefix("", a);
    assert "" + "\n" + a == "\n" + a;
    LinesOfLine(a);
    var lines := [a, "", a];
    assert Lines(TwoParagraphs(n)) == [a] + ([""] + [a]) == lines;
    NothingToStrip(a);
    assert lines[1..] == ["", a] && ["", a][1..] == [a] && [a][1..] == [];
    assert BlocksFrom([], [a]) == [a];
    assert BlocksFrom([a], []) == [a];
    assert BlocksFrom(["", a], [a]) == [a] + [a];
    assert BlocksFrom(lines, []) == BlocksFrom(["", a], [a]);
  }

  lemma PackTwoFull(m: nat, overlap: int)
    requires 0 <= overlap < m
    ensures ChunksFrom([Repeat(m), Repeat(m)], "", m, overlap)
        == [Repeat(m), Tail(Repeat(m), overlap) + "\n" + Repeat(m)]
  {
    var a := Repeat(m);
    var long := Tail(a, overlap) + "\n" + a;
    assert [a, a][1..] == [a] && [a][1..] == [];
    assert ChunksFrom([], long, m, overlap) == [long];
    assert ChunksFrom([a], a, m, overlap) == [a] + [long];
    assert ChunksFrom([a, a], "", m, overlap) == [] + ChunksFrom([a], a, m, overlap);
  }

  lemma StripTwo(a: string, b: string)
    requires Strip(a) == a != "" && Strip(b) == b != ""
    ensures StripAll([a, b]) == [a, b]
  {
    assert [a, b][1..] == [b] && [b][1..] == [];
    assert StripAll([b]) == [b] + [];
  }

  lemma LongChunk(m: nat, overlap: int)
    requires 1 <= overlap < m
    ensures
      var long := Tail(Repeat(m), overlap) + "\n" + Repeat(m);
      Strip(long) == long && |long| > m
  {
    var long := Tail(Repeat(m), overlap) + "\n" + Repeat(m);
    assert long[0] == 'a' && long[|long| - 1] == 'a';
    NothingToStrip(long);
  }

  lemma LongChunkWithoutOverlap(m: nat)
    requires m > 0
    ensures
      var long := Tail(Repeat(m), 0) + "\n" + Repeat(m);
      Strip(long) == long && |long| > m
  {
    var long := Tail(Repeat(m), 0) + "\n" + Repeat(m);
    assert long[0] == 'a' && long[|long| - 1] == 'a';
    NothingToStrip(long);
  }

  lemma TwoParagraphsOverflow(maxChars: int, overlap: int)
    requires 0 <= overlap < EffectiveMax(maxChars) && EffectiveMax(maxChars) >= BLOCK_MODE_FROM
    ensures !NoLongChunk(TwoParagraphs(EffectiveMax(maxChars)), maxChars, overlap)
  {
    var m := EffectiveMax(maxChars);
    var text := TwoParagraphs(m);
    var long := Tail(Repeat(m), overlap) + "\n" + Repeat(m);
    if Chunkable(text, maxChars, overlap) {
      BlocksOfTwoParagraphs(m);
      PackTwoFull(m, overlap);
      NothingToStrip(Repeat(m));
      if overlap == 0 {
        LongChunkWithoutOverlap(m);
      } else {
        LongChunk(m, overlap);
      }
      StripTwo(Repeat(m), long);
      assert Chunks(text, maxChars, overlap)[1] == long;
    }
  }

  /**
    "Chunks of at most maxChars", exactly: it holds for every text iff the size is below 4000, from where
    on paragraphs are packed and the carried prefix is put in front of a whole one.
   */
  lemma AlwaysFitsIff(maxChars: int, overlap: int)
    requires 0 <= overlap < if maxChars <= 0 then 12_000 else maxChars
    ensures AlwaysFits(maxChars, overlap) <==> 0 < maxChars < 4_000
  {
    if EffectiveMax(maxChars) < BLOCK_MODE_FROM {
      forall text
        ensures NoLongChunk(text, maxChars, overlap)
      {
        WindowChunksFit(text, maxChars, overlap);
      }
    } else {
      TwoParagraphsOverflow(maxChars, overlap);
    }
  }
}
