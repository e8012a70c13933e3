/**
  Splitting large extracted documents into overlapping chunks: the loops, and the functions
  that specify them. Strings are sequences of characters, without normalisation.
 */
module Chunker {
  import opened Whitespace

  const DEFAULT_MAX := 12_000
  const BLOCK_MODE_FROM := 4_000

  /** Every "\r\n" becomes "\n". */
  function Unify(s: string): string {
    if s == "" then ""
    else if |s| >= 2 && s[0] == '\r' && s[1] == '\n' then "\n" + Unify(s[2..])
    else [s[0]] + Unify(s[1..])
  }

  /** The text between newlines; always at least one line. */
  function Lines(s: string): (r: seq<string>)
    ensures |r| >= 1
  {
    if s == "" then [""]
    else
      var rest := Lines(s[1..]);
      if s[0] == '\n' then [""] + rest else [[s[0]] + rest[0]] + rest[1..]
  }

  function Join(lines: seq<string>): string {
    if lines == [] then ""
    else if |lines| == 1 then lines[0]
    else lines[0] + "\n" + Join(lines[1..])
  }

  function Closing(lines: seq<string>): seq<string> {
    if lines == [] then [] else [Join(lines)]
  }

  /** Paragraphs: the runs of non-blank lines, given the run collected so far. */
  function BlocksFrom(lines: seq<string>, current: seq<string>): seq<string> {
    if lines == [] then Closing(current)
    else if Strip(lines[0]) == "" then Closing(current) + BlocksFrom(lines[1..], [])
    else BlocksFrom(lines[1..], current + [lines[0]])
  }

  function Blocks(text: string): seq<string> {
    var blocks := BlocksFrom(Lines(Unify(text)), []);
    if blocks == [] then [text] else blocks
  }

  method SplitBlocks(text: string) returns (blocks: seq<string>)
    ensures blocks == Blocks(text)
  {
    var parts := Lines(Unify(text));
    blocks := [];
    var current: seq<string> := [];
    var i := 0;
    while i < |parts|
      invariant 0 <= i <= |parts|
      invariant blocks + BlocksFrom(parts[i..], current) == BlocksFrom(parts, [])
    {
      var line := parts[i];
      assert parts[i..][1..] == parts[i + 1..];
      if Strip(line) == "" {
        if current != [] {
          blocks := blocks + [Join(current)];
          current := [];
        }
      } else {
        current := current + [line];
      }
      i := i + 1;
    }
    if current != [] {
      blocks := blocks + [Join(current)];
    }
    if blocks == [] {
      blocks := [text];
    }
  }

  function Min(a: int, b: int): int {
    if a < b then a else b
  }

  function Max(a: int, b: int): int {
    if a < b then b else a
  }

  /** Splitting by length ends: the text fits, or each window starts after the one before. */
  predicate Splittable(text: string, maxChars: int, overlap: int) {
    |text| <= maxChars || overlap < maxChars
  }

  /** Windows of `maxChars` from `start` on, each starting `overlap` before the end of the last. */
  function WindowsFrom(text: string, start: nat, maxChars: int, overlap: int): seq<string>
    requires maxChars > 0 && Splittable(text, maxChars, overlap)
    decreases |text| - start
  {
    if start >= |text| then []
    else
      var end := Min(start + maxChars, |text|);
      if end == |text| then [text[start..end]]
      else [text[start..end]] + WindowsFrom(text, Max(start, end - overlap), maxChars, overlap)
  }

  /** Where the splitting loop stands after `n` rounds: a start, or done. */
  function StartAfter(text: string, maxChars: int, overlap: int, n: nat): (start: nat)
    requires maxChars > 0
  {
    if n == 0 then 0
    else
      var start := StartAfter(text, maxChars, overlap, n - 1);
      if start >= |text| || Min(start + maxChars, |text|) == |text| then |text|
      else Max(start, start + maxChars - overlap)
  }

  lemma AppendOne(chunks: seq<string>, one: string, rest: seq<string>)
    ensures chunks + [one] + rest == chunks + ([one] + rest)
  {
  }

  method HardSplit(text: string, maxChars: int, overlap: int) returns (chunks: seq<string>)
    requires maxChars > 0 && Splittable(text, maxChars, overlap)
    ensures chunks == WindowsFrom(text, 0, maxChars, overlap)
    ensures StartAfter(text, maxChars, overlap, |chunks|) >= |text|
  {
    chunks := [];
    var start: nat := 0;
    while start < |text|
      invariant start == StartAfter(text, maxChars, overlap, |chunks|)
      invariant chunks + WindowsFrom(text, start, maxChars, overlap) == WindowsFrom(text, 0, maxChars, overlap)
      decreases |text| - start
    {
      var end := Min(start + maxChars, |text|);
      AppendOne(chunks, text[start..end], WindowsFrom(text, Max(start, end - overlap), maxChars, overlap));
      chunks := chunks + [text[start..end]];
      if end == |text| {
        return;
      }
      start := Max(start, end - overlap);
    }
  }

  /** The slice `s[-overlap:]`: the last `overlap` characters, all of them for 0, or all but the first `-overlap`. */
  function Tail(s: string, overlap: int): string {
    if overlap > 0 then s[Max(0, |s| - overlap)..]
    else if overlap == 0 then s
    else s[Min(-overlap, |s|)..]
  }

  function Whole(current: string): seq<string> {
    if current == "" then [] else [current]
  }

  predicate AllSplittable(blocks: seq<string>, maxChars: int, overlap: int) {
    forall i :: 0 <= i < |blocks| ==> Splittable(blocks[i], maxChars, overlap)
  }

  /** What one more block does: the chunks it completes, and the chunk that is then being filled. */
  function Absorb(current: string, block: string, maxChars: int, overlap: int): (seq<string>, string)
    requires maxChars > 0 && Splittable(block, maxChars, overlap)
  {
    if |block| > maxChars then
      (Whole(current) + WindowsFrom(block, 0, maxChars, overlap), "")
    else if current != "" && |current| + 1 + |block| > maxChars then
      ([current], Tail(current, overlap) + "\n" + block)
    else if current != "" then
      ([], current + "\n" + block)
    else
      ([], block)
  }

  /** The chunks, before stripping, of the remaining blocks when `current` is being filled. */
  function ChunksFrom(blocks: seq<string>, current: string, maxChars: int, overlap: int): seq<string>
    requires maxChars > 0 && AllSplittable(blocks, maxChars, overlap)
    decreases |blocks|
  {
    if blocks == [] then Whole(current)
    else
      var (done, next) := Absorb(current, blocks[0], maxChars, overlap);
      done + ChunksFrom(blocks[1..], next, maxChars, overlap)
  }

  function EffectiveMax(maxChars: int): (m: int)
    ensures m > 0
  {
    if maxChars <= 0 then DEFAULT_MAX else maxChars
  }

  function Parts(text: string, maxChars: int): seq<string> {
    if maxChars >= BLOCK_MODE_FROM then Blocks(text) else [text]
  }

  /** The inputs on which chunking ends. */
  predicate Chunkable(text: string, maxChars: int, overlap: int) {
    var m := EffectiveMax(maxChars);
    |text| <= m || AllSplittable(Parts(text, m), m, overlap)
  }

  /** Each chunk stripped, and the empty ones dropped. */
  function StripAll(chunks: seq<string>): seq<string> {
    if chunks == [] then []
    else (if Strip(chunks[0]) == "" then [] else [Strip(chunks[0])]) + StripAll(chunks[1..])
  }

  function Chunks(text: string, maxChars: int, overlap: int): seq<string>
    requires Chunkable(text, maxChars, overlap)
  {
    var m := EffectiveMax(maxChars);
    if |text| <= m then Whole(text)
    else StripAll(ChunksFrom(Parts(text, m), "", m, overlap))
  }

  method ChunkText(text: string, maxChars: int, overlap: int) returns (result: seq<string>)
    requires Chunkable(text, maxChars, overlap)
    ensures result == Chunks(text, maxChars, overlap)
  {
    var m := if maxChars <= 0 then DEFAULT_MAX else maxChars;
    if |text| <= m {
      return if text == "" then [] else [text];
    }
    var blocks := [text];
    if m >= BLOCK_MODE_FROM {
      blocks := SplitBlocks(text);
    }
    var chunks := PackBlocks(blocks, m, overlap);
    result := StripAll(chunks);
  }

  method PackBlocks(blocks: seq<string>, m: int, overlap: int) returns (chunks: seq<string>)
    requires m > 0 && AllSplittable(blocks, m, overlap)
    ensures chunks == ChunksFrom(blocks, "", m, overlap)
  {
    chunks := [];
    var current := "";
    var i := 0;
    while i < |blocks|
      invariant 0 <= i <= |blocks|
      invariant chunks + ChunksFrom(blocks[i..], current, m, overlap) == ChunksFrom(blocks, "", m, overlap)
    {
      var block := blocks[i];
      ghost var before, filling := chunks, current;
      if |block| > m {
        if current != "" {
          chunks := chunks + [current];
          current := "";
        }
        var windows := HardSplit(block, m, overlap);
        chunks := chunks + windows;
      } else if current != "" && |current| + 1 + |block| > m {
        chunks := chunks + [current];
        current := Tail(current, overlap) + "\n" + block;
      } else {
        current := if current != "" then current + "\n" + block else block;
      }
      AbsorbStep(before, chunks, blocks[i..], filling, current, m, overlap);
      assert blocks[i..][1..] == blocks[i + 1..];
      i := i + 1;
    }
    if current != "" {
      chunks := chunks + [current];
    }
  }

  lemma AbsorbStep(before: seq<string>, after: seq<string>, blocks: seq<string>, filling: string, next: string,
                   m: int, overlap: int)
    requires m > 0 && AllSplittable(blocks, m, overlap) && blocks != []
    requires after == before + Absorb(filling, blocks[0], m, overlap).0
    requires next == Absorb(filling, blocks[0], m, overlap).1
    ensures after + ChunksFrom(blocks[1..], next, m, overlap) == before + ChunksFrom(blocks, filling, m, overlap)
  {
  }
}
