/**
  Which lines make a paragraph, which paragraphs share a chunk, and what a new chunk starts with.
 */
module ChunkShape {
  import opened Whitespace
  import opened Chunker

  // ------------------------------------------------------------- white space

  /** The white space of the Unicode character database, as `str.isspace` has it. */
  lemma SpacesAre(c: char)
    ensures IsSpace(c) <==>
              c as int in {9, 10, 11, 12, 13, 28, 29, 30, 31, 32, 133, 160, 5760, 8192, 8193, 8194, 8195, 8196, 8197,
                           8198, 8199, 8200, 8201, 8202, 8232, 8233, 8239, 8287, 12288}
  {
  }

  ghost predicate AllSpace(s: string) {
    forall i :: 0 <= i < |s| ==> IsSpace(s[i])
  }

  lemma {:induction false} StripLeftIsExact(s: string) returns (a: nat)
    ensures a <= |s| && StripLeft(s) == s[a..] && AllSpace(s[..a])
    ensures a < |s| ==> !IsSpace(s[a])
  {
    if s != "" && IsSpace(s[0]) {
      var b := StripLeftIsExact(s[1..]);
      a := b + 1;
      assert s[1..][b..] == s[a..];
      assert forall i :: 0 < i < a ==> s[..a][i] == s[1..][..b][i - 1];
    } else {
      a := 0;
    }
  }

  lemma {:induction false} StripRightIsExact(s: string) returns (b: nat)
    ensures b <= |s| && StripRight(s) == s[..b] && AllSpace(s[b..])
    ensures b > 0 ==> !IsSpace(s[b - 1])
  {
    if s != "" && IsSpace(s[|s| - 1]) {
      b := StripRightIsExact(s[..|s| - 1]);
      assert s[..|s| - 1][..b] == s[..b];
      assert forall i :: 0 <= i < |s| - 1 - b ==> s[b..][i] == s[..|s| - 1][b..][i];
    } else {
      b := |s|;
    }
  }

  /** Stripping takes off white space at both ends, all of it and nothing else. */
  lemma StripIsExact(s: string) returns (a: nat, b: nat)
    ensures a <= b <= |s| && Strip(s) == s[a..b] && AllSpace(s[..a]) && AllSpace(s[b..])
    ensures a < b ==> !IsSpace(s[a]) && !IsSpace(s[b - 1])
  {
    a := StripLeftIsExact(s);
    var n := StripRightIsExact(s[a..]);
    b := a + n;
    assert s[a..][..n] == s[a..b] && s[a..][n..] == s[b..];
  }

  lemma BlankIff(s: string)
    ensures Strip(s) == "" <==> AllSpace(s)
  {
    var a, b := StripIsExact(s);
    assert s == s[..a] + s[a..b] + s[b..];
  }

  // ------------------------------------------------------------- lines

  /** The characters from `i` on but for each return that a newline follows. */
  function KeptFrom(s: string, i: nat): string
    requires i <= |s|
    decreases |s| - i
  {
    if i == |s| then ""
    else (if s[i] == '\r' && i + 1 < |s| && s[i + 1] == '\n' then [] else [s[i]]) + KeptFrom(s, i + 1)
  }

  lemma {:induction false} UnifyDropsReturns(s: string, i: nat)
    requires i <= |s|
    ensures Unify(s[i..]) == KeptFrom(s, i)
    decreases |s| - i
  {
    if i < |s| {
      assert s[i..][1..] == s[i + 1..];
      UnifyDropsReturns(s, i + 1);
      if s[i] == '\r' && i + 1 < |s| && s[i + 1] == '\n' {
        assert s[i..][2..] == s[i + 2..] && s[i + 1..][1..] == s[i + 2..];
        UnifyDropsReturns(s, i + 2);
      }
    }
  }

  ghost predicate OneLine(s: string) {
    forall i :: 0 <= i < |s| ==> s[i] != '\n'
  }

  lemma {:induction false} LinesAreLines(s: string)
    ensures forall i :: 0 <= i < |Lines(s)| ==> OneLine(Lines(s)[i])
  {
    if s != "" {
      LinesAreLines(s[1..]);
    }
  }

  lemma JoinHead(c: char, first: string, rest: seq<string>)
    ensures Join([[c] + first] + rest) == [c] + Join([first] + rest)
  {
    if rest != [] {
      assert ([[c] + first] + rest)[1..] == rest == ([first] + rest)[1..];
    }
  }

  /** Joining a text's lines with newlines gives the text back. */
  lemma {:induction false} JoinedLinesAreText(s: string)
    ensures Join(Lines(s)) == s
  {
    if s != "" {
      JoinedLinesAreText(s[1..]);
      var rest := Lines(s[1..]);
      assert [s[0]] + s[1..] == s;
      if s[0] == '\n' {
        assert ([""] + rest)[1..] == rest;
      } else {
        JoinHead(s[0], rest[0], rest[1..]);
        assert [rest[0]] + rest[1..] == rest;
      }
    }
  }

  lemma {:induction false} LinesOfJoined(line: string, rest: string)
    requires OneLine(line)
    ensures Lines(line) == [line]
    ensures Lines(line + "\n" + rest) == [line] + Lines(rest)
  {
    var all := line + "\n" + rest;
    if line == "" {
      assert all[1..] == rest;
    } else {
      assert forall i :: 0 <= i < |line[1..]| ==> line[1..][i] == line[i + 1];
      LinesOfJoined(line[1..], rest);
      assert all[1..] == line[1..] + "\n" + rest;
      assert [line[0]] + line[1..] == line;
    }
  }

  /** And splitting joined lines gives the lines back: a paragraph keeps its line breaks. */
  lemma {:induction false} LinesOfJoin(lines: seq<string>)
    requires lines != [] && forall i :: 0 <= i < |lines| ==> OneLine(lines[i])
    ensures Lines(Join(lines)) == lines
  {
    if |lines| == 1 {
      LinesOfJoined(lines[0], "");
    } else {
      LinesOfJoin(lines[1..]);
      LinesOfJoined(lines[0], Join(lines[1..]));
      assert [lines[0]] + lines[1..] == lines;
    }
  }

  // ------------------------------------------------------------- paragraphs

  /** A run of lines: the first of them, and the first after them. */
  datatype Run = Run(from: nat, to: nat)

  /** A longest run of lines that are not blank. */
  ghost predicate IsParagraph(lines: seq<string>, r: Run) {
    && r.from < r.to <= |lines|
    && (forall i :: r.from <= i < r.to ==> !AllSpace(lines[i]))
    && (r.from > 0 ==> AllSpace(lines[r.from - 1]))
    && (r.to < |lines| ==> AllSpace(lines[r.to]))
  }

  /** Each block is its run's lines, joined. */
  ghost predicate AreJoined(lines: seq<string>, runs: seq<Run>, blocks: seq<string>) {
    && |runs| == |blocks|
    && forall k :: 0 <= k < |runs| ==>
         IsParagraph(lines, runs[k]) && blocks[k] == Join(lines[runs[k].from..runs[k].to])
  }

  ghost predicate InOrder(runs: seq<Run>) {
    forall j, k :: 0 <= j < k < |runs| ==> runs[j].to < runs[k].from
  }

  ghost predicate InARun(runs: seq<Run>, l: nat) {
    exists k :: 0 <= k < |runs| && runs[k].from <= l < runs[k].to
  }

  /** Every line from `i` on that is not blank is in a run. */
  ghost predicate Covers(lines: seq<string>, i: nat, runs: seq<Run>) {
    forall l: nat :: i <= l < |lines| && !AllSpace(lines[l]) ==> InARun(runs, l)
  }

  ghost predicate AreParagraphs(lines: seq<string>, i: nat, runs: seq<Run>, blocks: seq<string>) {
    AreJoined(lines, runs, blocks) && InOrder(runs) && Covers(lines, i, runs)
  }

  /** The run of the lines from `from` to `i`, if there are any. */
  function RunUpTo(from: nat, i: nat): seq<Run> {
    if from < i then [Run(from, i)] else []
  }

  ghost predicate StartsAt(runs: seq<Run>, from: nat, i: nat) {
    && (from < i ==> runs != [] && runs[0].from == from)
    && (forall k :: 0 <= k < |runs| ==> from <= runs[k].from)
  }

  lemma LastRun(lines: seq<string>, i: nat, from: nat)
    requires from <= i <= |lines| && forall l :: from <= l < i ==> !AllSpace(lines[l])
    requires from > 0 ==> AllSpace(lines[from - 1])
    requires i < |lines| ==> AllSpace(lines[i])
    ensures AreJoined(lines, RunUpTo(from, i), Closing(lines[from..i])) && InOrder(RunUpTo(from, i))
  {
  }

  /** The run that a line belongs to covers it. */
  lemma CoversOne(lines: seq<string>, i: nat, from: nat, runs: seq<Run>, blocks: seq<string>)
    requires from <= i < |lines| && AreJoined(lines, runs, blocks) && Covers(lines, i + 1, runs)
    requires StartsAt(runs, from, i + 1) && forall l :: from <= l <= i ==> !AllSpace(lines[l])
    ensures Covers(lines, i, runs)
  {
    assert IsParagraph(lines, runs[0]);
    assert runs[0].to > i;
    assert InARun(runs, i);
  }

  lemma JoinedAppend(lines: seq<string>, a: seq<Run>, b: seq<Run>, x: seq<string>, y: seq<string>)
    requires AreJoined(lines, a, x) && AreJoined(lines, b, y)
    ensures AreJoined(lines, a + b, x + y)
  {
  }

  lemma InARunLater(a: seq<Run>, b: seq<Run>, l: nat)
    requires InARun(b, l)
    ensures InARun(a + b, l)
  {
    var k :| 0 <= k < |b| && b[k].from <= l < b[k].to;
    assert (a + b)[|a| + k] == b[k];
  }

  lemma OrderAppend(from: nat, i: nat, rest: seq<Run>)
    requires InOrder(rest) && StartsAt(rest, i + 1, i + 1)
    ensures InOrder(RunUpTo(from, i) + rest)
    ensures from <= i ==> StartsAt(RunUpTo(from, i) + rest, from, i)
  {
  }

  lemma ParagraphsAppend(lines: seq<string>, i: nat, from: nat, rest: seq<Run>, blocks: seq<string>)
    requires from <= i < |lines| && AllSpace(lines[i]) && AreParagraphs(lines, i + 1, rest, blocks)
    requires StartsAt(rest, i + 1, i + 1)
    requires AreJoined(lines, RunUpTo(from, i), Closing(lines[from..i]))
    ensures AreParagraphs(lines, i, RunUpTo(from, i) + rest, Closing(lines[from..i]) + blocks)
    ensures StartsAt(RunUpTo(from, i) + rest, from, i)
  {
    JoinedAppend(lines, RunUpTo(from, i), rest, Closing(lines[from..i]), blocks);
    OrderAppend(from, i, rest);
    forall l: nat | i <= l < |lines| && !AllSpace(lines[l])
      ensures InARun(RunUpTo(from, i) + rest, l)
    {
      InARunLater(RunUpTo(from, i), rest, l);
    }
  }

  /** A blank line closes the run. */
  lemma BlankLine(lines: seq<string>, i: nat, from: nat, rest: seq<Run>)
    requires from <= i < |lines| && AllSpace(lines[i])
    requires forall l :: from <= l < i ==> !AllSpace(lines[l])
    requires from > 0 ==> AllSpace(lines[from - 1])
    requires AreParagraphs(lines, i + 1, rest, BlocksFrom(lines[i + 1..], [])) && StartsAt(rest, i + 1, i + 1)
    ensures AreParagraphs(lines, i, RunUpTo(from, i) + rest, BlocksFrom(lines[i..], lines[from..i]))
    ensures StartsAt(RunUpTo(from, i) + rest, from, i)
  {
    BlankIff(lines[i]);
    assert lines[i..][1..] == lines[i + 1..];
    LastRun(lines, i, from);
    ParagraphsAppend(lines, i, from, rest, BlocksFrom(lines[i + 1..], []));
  }

  /** Any other line extends it. */
  lemma FullLine(lines: seq<string>, i: nat, from: nat, runs: seq<Run>)
    requires from <= i < |lines| && forall l :: from <= l <= i ==> !AllSpace(lines[l])
    requires AreParagraphs(lines, i + 1, runs, BlocksFrom(lines[i + 1..], lines[from..i + 1]))
    requires StartsAt(runs, from, i + 1)
    ensures AreParagraphs(lines, i, runs, BlocksFrom(lines[i..], lines[from..i]))
  {
    BlankIff(lines[i]);
    assert lines[i..][1..] == lines[i + 1..];
    assert lines[from..i] + [lines[i]] == lines[from..i + 1];
    CoversOne(lines, i, from, runs, BlocksFrom(lines[i + 1..], lines[from..i + 1]));
  }

  lemma {:induction false} BlocksAreParagraphs(lines: seq<string>, i: nat, from: nat) returns (runs: seq<Run>)
    requires from <= i <= |lines|
    requires forall l :: from <= l < i ==> !AllSpace(lines[l])
    requires from > 0 ==> AllSpace(lines[from - 1])
    ensures AreParagraphs(lines, i, runs, BlocksFrom(lines[i..], lines[from..i]))
    ensures StartsAt(runs, from, i)
    decreases |lines| - i
  {
    if i == |lines| {
      runs := RunUpTo(from, i);
      LastRun(lines, i, from);
    } else if AllSpace(lines[i]) {
      var rest := BlocksAreParagraphs(lines, i + 1, i + 1);
      assert lines[i + 1..i + 1] == [];
      runs := RunUpTo(from, i) + rest;
      BlankLine(lines, i, from, rest);
    } else {
      runs := BlocksAreParagraphs(lines, i + 1, from);
      FullLine(lines, i, from, runs);
    }
  }

  /**
    What a paragraph is: the blocks of a text are its longest runs of lines that are not blank, in order, each
    with its line breaks; a text of blank lines only is one block as it stands.
   */
  lemma BlocksAreRuns(text: string) returns (runs: seq<Run>)
    ensures
      var lines := Lines(KeptFrom(text, 0));
      if runs != [] then AreParagraphs(lines, 0, runs, Blocks(text))
      else Blocks(text) == [text] && forall l :: 0 <= l < |lines| ==> AllSpace(lines[l])
  {
    var lines := Lines(Unify(text));
    UnifyDropsReturns(text, 0);
    assert text[0..] == text && lines[0..] == lines;
    runs := BlocksAreParagraphs(lines, 0, 0);
    assert lines[0..0] == [];
  }

  lemma {:induction false} JoinNotEmpty(lines: seq<string>)
    requires lines != [] && lines[0] != ""
    ensures Join(lines) != ""
  {
  }

  /** No block of a text is empty, so packing can tell an empty chunk from one being filled. */
  lemma BlocksAreNotEmpty(text: string)
    requires text != ""
    ensures forall i :: 0 <= i < |Blocks(text)| ==> Blocks(text)[i] != ""
  {
    var runs := BlocksAreRuns(text);
    var lines := Lines(KeptFrom(text, 0));
    if runs != [] {
      forall i | 0 <= i < |Blocks(text)|
        ensures Blocks(text)[i] != ""
      {
        var r := runs[i];
        assert IsParagraph(lines, r) && !AllSpace(lines[r.from]);
        JoinNotEmpty(lines[r.from..r.to]);
      }
    }
  }

  // ------------------------------------------------------------- packing

  /** What a chunk being filled and more paragraphs make together. */
  function Together(current: string, blocks: seq<string>): string {
    Join(Whole(current) + blocks)
  }

  lemma {:induction false} JoinLast(lines: seq<string>, last: string)
    requires lines != []
    ensures Join(lines + [last]) == Join(lines) + "\n" + last
  {
    if |lines| > 1 {
      JoinLast(lines[1..], last);
      assert (lines + [last])[1..] == lines[1..] + [last];
    } else {
      assert (lines + [last])[1..] == [last];
    }
  }

  lemma TogetherNext(current: string, blocks: seq<string>, k: nat)
    requires k < |blocks| && (k > 0 || current != "")
    ensures Together(current, blocks[..k + 1]) == Together(current, blocks[..k]) + "\n" + blocks[k]
  {
    JoinLast(Whole(current) + blocks[..k], blocks[k]);
    assert Whole(current) + blocks[..k + 1] == Whole(current) + blocks[..k] + [blocks[k]];
  }

  lemma {:induction false} TogetherNotEmpty(current: string, blocks: seq<string>, k: nat)
    requires k <= |blocks| && forall i :: 0 <= i < |blocks| ==> blocks[i] != ""
    ensures Together(current, blocks[..k]) != "" <==> current != "" || k > 0
  {
    if k > 0 {
      if k > 1 || current != "" {
        TogetherNext(current, blocks, k - 1);
      } else {
        assert blocks[..1] == [blocks[0]];
        assert Whole("") + blocks[..1] == [blocks[0]];
      }
    } else {
      assert Whole(current) + blocks[..0] == Whole(current);
    }
  }

  lemma RestSplittable(blocks: seq<string>, maxChars: int, overlap: int, k: nat)
    requires AllSplittable(blocks, maxChars, overlap) && k <= |blocks|
    ensures AllSplittable(blocks[k..], maxChars, overlap)
  {
  }

  /** Paragraphs that fit together, and with what the chunk already holds, share the chunk. */
  lemma {:induction false} FittingShareAChunk(blocks: seq<string>, current: string, m: int, overlap: int, k: nat)
    requires m > 0 && AllSplittable(blocks, m, overlap) && k <= |blocks|
    requires forall i :: 0 <= i < |blocks| ==> blocks[i] != ""
    requires |Together(current, blocks[..k])| <= m
    ensures AllSplittable(blocks[k..], m, overlap)
    ensures ChunksFrom(blocks, current, m, overlap)
            == ChunksFrom(blocks[k..], Together(current, blocks[..k]), m, overlap)
  {
    RestSplittable(blocks, m, overlap, k);
    if k == 0 {
      assert Whole(current) + blocks[..0] == Whole(current);
      assert blocks[0..] == blocks;
    } else {
      var before, now := Together(current, blocks[..k - 1]), Together(current, blocks[..k]);
      RestSplittable(blocks, m, overlap, k - 1);
      TogetherNotEmpty(current, blocks, k - 1);
      if k > 1 || current != "" {
        TogetherNext(current, blocks, k - 1);
      } else {
        assert Whole("") + blocks[..1] == [blocks[0]] && Whole("") + blocks[..0] == [];
      }
      FittingShareAChunk(blocks, current, m, overlap, k - 1);
      assert blocks[k - 1..][1..] == blocks[k..];
    }
  }

  /** The last `overlap` characters; an overlap of 0 carries everything, a negative one all but the first `-overlap`. */
  function CarriedOver(s: string, overlap: int): string {
    if overlap >= |s| || overlap == 0 then s
    else if overlap > 0 then s[|s| - overlap..]
    else if -overlap <= |s| then s[-overlap..]
    else ""
  }

  /**
    Packing is greedy: a chunk takes paragraphs as long as they fit. The first that does not fit closes it and,
    unless it is too long for any chunk, starts the next one after what is carried over.
   */
  lemma PackingIsGreedy(blocks: seq<string>, current: string, m: int, overlap: int, k: nat)
    requires m > 0 && AllSplittable(blocks, m, overlap) && k < |blocks| && (k > 0 || current != "")
    requires forall i :: 0 <= i < |blocks| ==> blocks[i] != ""
    requires |Together(current, blocks[..k])| <= m < |Together(current, blocks[..k + 1])|
    ensures AllSplittable(blocks[k + 1..], m, overlap)
    ensures
      var full := Together(current, blocks[..k]);
      ChunksFrom(blocks, current, m, overlap)
      == if |blocks[k]| > m
         then [full] + WindowsFrom(blocks[k], 0, m, overlap) + ChunksFrom(blocks[k + 1..], "", m, overlap)
         else [full] + ChunksFrom(blocks[k + 1..], CarriedOver(full, overlap) + "\n" + blocks[k], m, overlap)
  {
    FittingShareAChunk(blocks, current, m, overlap, k);
    TogetherNotEmpty(current, blocks, k);
    TogetherNext(current, blocks, k);
    RestSplittable(blocks, m, overlap, k + 1);
    assert blocks[k..][1..] == blocks[k + 1..];
  }

  /** When everything fits, there is one chunk. */
  lemma AllFittingAreOneChunk(blocks: seq<string>, m: int, overlap: int)
    requires m > 0 && AllSplittable(blocks, m, overlap) && blocks != []
    requires forall i :: 0 <= i < |blocks| ==> blocks[i] != ""
    requires |Join(blocks)| <= m
    ensures ChunksFrom(blocks, "", m, overlap) == [Join(blocks)]
  {
    assert Whole("") + blocks[..|blocks|] == blocks;
    FittingShareAChunk(blocks, "", m, overlap, |blocks|);
    TogetherNotEmpty("", blocks, |blocks|);
  }

  // ------------------------------------------------------------- the chunks returned

  /** Not empty, and without white space at either end. */
  ghost predicate IsStripped(c: string) {
    c != "" && !IsSpace(c[0]) && !IsSpace(c[|c| - 1])
  }

  lemma StrippedIsStripped(s: string)
    ensures Strip(s) == "" || IsStripped(Strip(s))
  {
    var a, b := StripIsExact(s);
  }

  lemma {:induction false} StripAllIsStripped(chunks: seq<string>, c: string)
    requires c in StripAll(chunks)
    ensures IsStripped(c) && exists d :: d in chunks && c == Strip(d)
  {
    if c != "" && c == Strip(chunks[0]) {
      StrippedIsStripped(chunks[0]);
      assert chunks[0] in chunks;
    } else {
      StripAllIsStripped(chunks[1..], c);
      assert forall d :: d in chunks[1..] ==> d in chunks;
    }
  }

  /** A text that is one block too long for a chunk is cut into windows. */
  lemma OneLongBlock(text: string, m: int, overlap: int)
    requires 0 < m < |text| && Splittable(text, m, overlap)
    ensures AllSplittable([text], m, overlap)
    ensures ChunksFrom([text], "", m, overlap) == WindowsFrom(text, 0, m, overlap)
  {
    assert [text][1..] == [];
  }

  /**
    A text of at most `maxChars`, or 12000 if that is not positive, is returned as it is; of a longer one the
    windows, or from 4000 on the packed paragraphs, are returned stripped.
   */
  lemma ChunksAre(text: string, maxChars: int, overlap: int)
    requires Chunkable(text, maxChars, overlap)
    ensures
      var m := if maxChars <= 0 then 12_000 else maxChars;
      var chunks := Chunks(text, maxChars, overlap);
      if |text| <= m then chunks == if text == "" then [] else [text]
      else if m < 4_000 then
        Splittable(text, m, overlap) && chunks == StripAll(WindowsFrom(text, 0, m, overlap))
      else
        && AllSplittable(Blocks(text), m, overlap)
        && chunks == StripAll(ChunksFrom(Blocks(text), "", m, overlap))
  {
    var m := EffectiveMax(maxChars);
    if |text| > m && m < 4_000 {
      assert Splittable([text][0], m, overlap);
      OneLongBlock(text, m, overlap);
    }
  }

  /** No chunk of a text too long for one begins or ends with white space, or is empty. */
  lemma ChunksAreStripped(text: string, maxChars: int, overlap: int)
    requires Chunkable(text, maxChars, overlap) && |text| > if maxChars <= 0 then 12_000 else maxChars
    ensures forall c :: c in Chunks(text, maxChars, overlap) ==> IsStripped(c)
  {
    var m := EffectiveMax(maxChars);
    forall c | c in Chunks(text, maxChars, overlap)
      ensures IsStripped(c)
    {
      StripAllIsStripped(ChunksFrom(Parts(text, m), "", m, overlap), c);
    }
  }
}
