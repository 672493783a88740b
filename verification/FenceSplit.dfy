/** SplitMessageCodeFenceAware (core/markdown_html.go): a message cut between lines, where a
    code block that spans a cut is closed before it and reopened after it. Texts are runes;
    lengths are those of their UTF-8 encoding. */
module FenceSplit {
  import opened Text
  import Utf8

  /** The number of bytes of a rune in UTF-8. */
  function RuneBytes(c: char): (n: nat)
    ensures 1 <= n <= 4
  {
    if c < '\U{80}' then 1 else if c < '\U{800}' then 2 else if c < '\U{10000}' then 3 else 4
  }

  /** That many bytes encode the rune, by RFC 3629. */
  lemma RuneBytesEncode(c: char)
    ensures exists s: Utf8.Bytes :: |s| == RuneBytes(c) && Utf8.Encodes(s, |s|, c as int)
  {
    var n: nat := c as int;
    var q, r := n / 64, n % 64;
    if n < 0x80 {
      assert Utf8.Encodes([n], 1, n);
    } else if n < 0x800 {
      assert Utf8.Encodes([0xC0 + q, 0x80 + r], 2, n);
    } else if n < 0x10000 {
      assert Utf8.Encodes([0xE0 + q / 64, 0x80 + q % 64, 0x80 + r], 3, n);
    } else {
      assert Utf8.Encodes([0xF0 + q / 64 / 64, 0x80 + q / 64 % 64, 0x80 + q % 64, 0x80 + r], 4, n);
    }
  }

  function ByteLen(s: string): nat {
    if s == [] then 0 else RuneBytes(s[0]) + ByteLen(s[1..])
  }

  const FENCE := "```"

  /** A line with what the loop looks at: its bytes with the newline, and, when it opens or
      closes a code block, its trimmed text. */
  datatype Line = Line(text: string, len: nat, fence: Option<string>)

  function Mark(line: string): Line {
    Line(line, ByteLen(line) + 1, if FENCE <= Trim(line) then Some(Trim(line)) else None)
  }

  function MarkAll(lines: seq<string>): seq<Line> {
    seq(|lines|, i requires 0 <= i < |lines| => Mark(lines[i]))
  }

  function LineTexts(lines: seq<Line>): seq<string> {
    seq(|lines|, i requires 0 <= i < |lines| => lines[i].text)
  }

  // ---------------------------------------------------------------- blocks and chunks

  /** A chunk: its lines, their length, and the fence open at its end, "" outside code blocks. */
  datatype Chunk = Chunk(lines: seq<Line>, len: nat, open: string)

  /** The open fence again, as a line. */
  function Reopened(open: string): seq<Line> {
    if open != "" then [Line(open, ByteLen(open) + 1, Some(open))] else []
  }

  /** The start of a chunk. */
  function Fresh(open: string): Chunk {
    if open != "" then Chunk(Reopened(open), ByteLen(open) + 1, open) else Chunk([], 0, "")
  }

  function Toggle(open: string, line: Line): string {
    if line.fence.None? then open else if open != "" then "" else line.fence.value
  }

  function Take(c: Chunk, line: Line): Chunk {
    Chunk(c.lines + [line], c.len + line.len, Toggle(c.open, line))
  }

  /** Add lines from i on while they fit: the chunk, and the line that begins the next one. */
  function Fill(lines: seq<Line>, i: nat, c: Chunk, maxLen: int): (r: (Chunk, nat))
    requires i <= |lines|
    ensures i <= r.1 <= |lines|
    decreases |lines| - i
  {
    if i == |lines| || c.len + lines[i].len > maxLen then (c, i) else Fill(lines, i + 1, Take(c, lines[i]), maxLen)
  }

  /** The chunk that begins with line i, which is taken whatever its length. */
  function NextChunk(lines: seq<Line>, i: nat, before: string, maxLen: int): (r: (Chunk, nat))
    requires i < |lines|
    ensures i < r.1 <= |lines|
  {
    Fill(lines, i + 1, Take(Fresh(before), lines[i]), maxLen)
  }

  /** The chunks of the lines from i on, when `before` is open before them. */
  function Chunks(lines: seq<Line>, i: nat, before: string, maxLen: int): seq<Chunk>
    requires i <= |lines|
    decreases |lines| - i
  {
    if i == |lines| then [] else
      var (c, j) := NextChunk(lines, i, before, maxLen);
      [c] + Chunks(lines, j, c.open, maxLen)
  }

  /** The text of a chunk: an open fence is closed. */
  function ChunkText(c: Chunk): string {
    JoinLines(LineTexts(c.lines)) + (if c.open != "" then "\n" + FENCE else "")
  }

  function Texts(chunks: seq<Chunk>): seq<string> {
    seq(|chunks|, i requires 0 <= i < |chunks| => ChunkText(chunks[i]))
  }

  /** The chunks of a message. */
  function Split(text: string, maxLen: int): seq<string> {
    if ByteLen(text) <= maxLen then [text] else Texts(Chunks(MarkAll(Lines(text)), 0, "", maxLen))
  }

  // ---------------------------------------------------------------- the loop

  /** The chunks the loop still makes when c is its current one. */
  function Loop(lines: seq<Line>, i: nat, c: Chunk, maxLen: int): seq<Chunk>
    requires i <= |lines|
    decreases |lines| - i
  {
    if i == |lines| then (if c.lines != [] then [c] else [])
    else if c.len + lines[i].len > maxLen && c.lines != [] then
      [c] + Loop(lines, i + 1, Take(Fresh(c.open), lines[i]), maxLen)
    else Loop(lines, i + 1, Take(c, lines[i]), maxLen)
  }

  lemma {:induction false} LoopFills(lines: seq<Line>, i: nat, c: Chunk, maxLen: int)
    requires i <= |lines| && c.lines != []
    ensures var (d, j) := Fill(lines, i, c, maxLen);
      Loop(lines, i, c, maxLen) == [d] + Chunks(lines, j, d.open, maxLen)
    decreases |lines| - i
  {
    if i < |lines| {
      if c.len + lines[i].len > maxLen {
        LoopFills(lines, i + 1, Take(Fresh(c.open), lines[i]), maxLen);
      } else {
        LoopFills(lines, i + 1, Take(c, lines[i]), maxLen);
      }
    }
  }

  lemma LoopIsChunks(lines: seq<Line>, maxLen: int)
    requires lines != []
    ensures Loop(lines, 0, Fresh(""), maxLen) == Chunks(lines, 0, "", maxLen)
  {
    LoopFills(lines, 1, Take(Fresh(""), lines[0]), maxLen);
  }

  /** One round: the current chunk is made when the line does not fit, and the line is taken. */
  lemma LoopStep(lines: seq<Line>, i: nat, done: seq<Chunk>, c: Chunk, maxLen: int)
    requires i < |lines|
    ensures done + Loop(lines, i, c, maxLen) ==
      if c.len + lines[i].len > maxLen && c.lines != []
      then done + [c] + Loop(lines, i + 1, Take(Fresh(c.open), lines[i]), maxLen)
      else done + Loop(lines, i + 1, Take(c, lines[i]), maxLen)
  {}

  /** Turns the current lines into a chunk's text. */
  method CloseChunk(current: seq<string>, openFence: string, ghost c: Chunk) returns (chunk: string)
    requires LineTexts(c.lines) == current && c.open == openFence
    ensures chunk == ChunkText(c)
  {
    chunk := JoinLines(current);
    if openFence != "" { chunk := chunk + "\n" + FENCE; }
  }

  /** SplitMessageCodeFenceAware. */
  method SplitMessageCodeFenceAware(text: string, maxLen: int) returns (chunks: seq<string>)
    ensures chunks == Split(text, maxLen)
    ensures ByteLen(text) <= maxLen ==> chunks == [text]
  {
    if ByteLen(text) <= maxLen { return [text]; }
    var lines := MarkAll(Lines(text));
    chunks := SplitLines(lines, maxLen);
  }

  /** Its loop over the lines. */
  method SplitLines(lines: seq<Line>, maxLen: int) returns (chunks: seq<string>)
    requires lines != []
    ensures chunks == Texts(Chunks(lines, 0, "", maxLen))
  {
    chunks := [];
    var current: seq<string> := [];
    var currentLen: nat := 0;
    var openFence := "";
    ghost var c, done: seq<Chunk> := Fresh(""), [];
    for i := 0 to |lines|
      invariant |chunks| == |done| && forall k | 0 <= k < |done| :: chunks[k] == ChunkText(done[k])
      invariant LineTexts(c.lines) == current && c.len == currentLen && c.open == openFence
      invariant done + Loop(lines, i, c, maxLen) == Loop(lines, 0, Fresh(""), maxLen)
    {
      var line := lines[i];
      LoopStep(lines, i, done, c, maxLen);
      if currentLen + line.len > maxLen && |current| > 0 {
        var chunk := CloseChunk(current, openFence, c);
        chunks, done, c := chunks + [chunk], done + [c], Fresh(c.open);
        current := [];
        currentLen := 0;
        if openFence != "" {
          current := [openFence];
          currentLen := ByteLen(openFence) + 1;
        }
      }
      current := current + [line.text];
      currentLen := currentLen + line.len;
      if line.fence.Some? {
        if openFence != "" { openFence := ""; } else { openFence := line.fence.value; }
      }
      c := Take(c, line);
    }
    if |current| > 0 {
      var chunk := CloseChunk(current, openFence, c);
      chunks, done := chunks + [chunk], done + [c];
    }
    LoopIsChunks(lines, maxLen);
    assert chunks == Texts(done);
  }

  // ---------------------------------------------------------------- blocks of lines

  /** The fence that is open before line n. */
  function OpenBefore(lines: seq<Line>, n: nat): string
    requires n <= |lines|
  {
    if n == 0 then "" else Toggle(OpenBefore(lines, n - 1), lines[n - 1])
  }

  /** c is the chunk for the lines from a up to b: those lines after the fence open there;
      with more than one of them it keeps within maxLen. */
  ghost predicate IsBlock(lines: seq<Line>, a: nat, b: nat, c: Chunk, maxLen: int) {
    && a < b <= |lines|
    && c.lines == Reopened(OpenBefore(lines, a)) + lines[a..b]
    && c.open == OpenBefore(lines, b)
    && (b - a >= 2 ==> c.len <= maxLen)
  }

  lemma TakeIsBlock(lines: seq<Line>, a: nat, i: nat, c: Chunk, maxLen: int)
    requires i < |lines| && IsBlock(lines, a, i, c, maxLen) && c.len + lines[i].len <= maxLen
    ensures IsBlock(lines, a, i + 1, Take(c, lines[i]), maxLen)
  {
    assert lines[a..i + 1] == lines[a..i] + [lines[i]];
  }

  lemma StartIsBlock(lines: seq<Line>, a: nat, maxLen: int)
    requires a < |lines|
    ensures IsBlock(lines, a, a + 1, Take(Fresh(OpenBefore(lines, a)), lines[a]), maxLen)
  {
    assert lines[a..a + 1] == [lines[a]];
  }

  lemma {:induction false} FillIsBlock(lines: seq<Line>, a: nat, i: nat, c: Chunk, maxLen: int)
    requires IsBlock(lines, a, i, c, maxLen)
    ensures var (d, j) := Fill(lines, i, c, maxLen);
      IsBlock(lines, a, j, d, maxLen) && (j < |lines| ==> d.len + lines[j].len > maxLen)
    decreases |lines| - i
  {
    if i < |lines| && c.len + lines[i].len <= maxLen {
      TakeIsBlock(lines, a, i, c, maxLen);
      FillIsBlock(lines, a, i + 1, Take(c, lines[i]), maxLen);
    }
  }

  /** The line numbers where the chunks begin, and the end. */
  function Cuts(lines: seq<Line>, i: nat, before: string, maxLen: int): seq<nat>
    requires i <= |lines|
    decreases |lines| - i
  {
    if i == |lines| then [i] else
      var (c, j) := NextChunk(lines, i, before, maxLen);
      [i] + Cuts(lines, j, c.open, maxLen)
  }

  /** The k-th chunk is that of the block between the k-th cut and the next, which does not end
      before the limit forces it. */
  ghost predicate CutAt(lines: seq<Line>, cuts: seq<nat>, chunks: seq<Chunk>, maxLen: int, k: nat)
    requires k < |chunks| < |cuts|
  {
    var a, b, c := cuts[k], cuts[k + 1], chunks[k];
    IsBlock(lines, a, b, c, maxLen) && (b < |lines| ==> c.len + lines[b].len > maxLen)
  }

  ghost predicate CutWell(lines: seq<Line>, cuts: seq<nat>, chunks: seq<Chunk>, maxLen: int) {
    && |cuts| == |chunks| + 1
    && cuts[|chunks|] == |lines|
    && (forall k: nat | k < |chunks| :: CutAt(lines, cuts, chunks, maxLen, k))
  }

  lemma CutWellFirst(lines: seq<Line>, i: nat, c: Chunk, cuts: seq<nat>, chunks: seq<Chunk>, maxLen: int)
    requires CutWell(lines, cuts, chunks, maxLen) && IsBlock(lines, i, cuts[0], c, maxLen)
    requires cuts[0] < |lines| ==> c.len + lines[cuts[0]].len > maxLen
    ensures CutWell(lines, [i] + cuts, [c] + chunks, maxLen)
  {
    forall k: nat | k < 1 + |chunks| ensures CutAt(lines, [i] + cuts, [c] + chunks, maxLen, k) {
      if k > 0 { assert CutAt(lines, cuts, chunks, maxLen, k - 1); }
    }
  }

  lemma NextChunkIsBlock(lines: seq<Line>, i: nat, maxLen: int)
    requires i < |lines|
    ensures var (c, j) := NextChunk(lines, i, OpenBefore(lines, i), maxLen);
      IsBlock(lines, i, j, c, maxLen) && (j < |lines| ==> c.len + lines[j].len > maxLen)
  {
    StartIsBlock(lines, i, maxLen);
    FillIsBlock(lines, i, i + 1, Take(Fresh(OpenBefore(lines, i)), lines[i]), maxLen);
  }

  lemma {:induction false} ChunksAreBlocks(lines: seq<Line>, i: nat, maxLen: int)
    requires i <= |lines|
    ensures var cuts := Cuts(lines, i, OpenBefore(lines, i), maxLen);
      cuts[0] == i && CutWell(lines, cuts, Chunks(lines, i, OpenBefore(lines, i), maxLen), maxLen)
    decreases |lines| - i
  {
    if i < |lines| {
      NextChunkIsBlock(lines, i, maxLen);
      var (c, j) := NextChunk(lines, i, OpenBefore(lines, i), maxLen);
      ChunksAreBlocks(lines, j, maxLen);
      CutWellFirst(lines, i, c, Cuts(lines, j, c.open, maxLen), Chunks(lines, j, c.open, maxLen), maxLen);
    }
  }

  // ---------------------------------------------------------------- lengths and fences

  function TotalLen(lines: seq<Line>): nat {
    if lines == [] then 0 else TotalLen(lines[..|lines| - 1]) + lines[|lines| - 1].len
  }

  function Fences(lines: seq<Line>): nat {
    if lines == [] then 0 else Fences(lines[..|lines| - 1]) + (if lines[|lines| - 1].fence.Some? then 1 else 0)
  }

  predicate FenceOk(l: Line) { l.fence.Some? ==> l.fence.value != "" }

  /** The length is right, and the fences are odd in number exactly when one is open. */
  ghost predicate Good(c: Chunk) {
    c.len == TotalLen(c.lines) && Fences(c.lines) % 2 == (if c.open != "" then 1 else 0)
  }

  lemma CountsAppend(lines: seq<Line>, line: Line)
    ensures TotalLen(lines + [line]) == TotalLen(lines) + line.len
    ensures Fences(lines + [line]) == Fences(lines) + (if line.fence.Some? then 1 else 0)
  {
    assert (lines + [line])[..|lines|] == lines;
  }

  lemma OneLineCounts(line: Line)
    ensures TotalLen([line]) == line.len && Fences([line]) == (if line.fence.Some? then 1 else 0)
  {
    CountsAppend([], line);
    assert [] + [line] == [line];
  }

  lemma FreshIsGood(open: string)
    ensures Good(Fresh(open))
  {
    OneLineCounts(Line(open, ByteLen(open) + 1, Some(open)));
  }

  lemma TakeIsGood(c: Chunk, line: Line)
    requires Good(c) && FenceOk(line)
    ensures Good(Take(c, line))
  {
    CountsAppend(c.lines, line);
  }

  lemma {:induction false} FillIsGood(lines: seq<Line>, i: nat, c: Chunk, maxLen: int)
    requires (forall l | l in lines :: FenceOk(l)) && i <= |lines| && Good(c)
    ensures Good(Fill(lines, i, c, maxLen).0)
    decreases |lines| - i
  {
    if i < |lines| && c.len + lines[i].len <= maxLen {
      TakeIsGood(c, lines[i]);
      FillIsGood(lines, i + 1, Take(c, lines[i]), maxLen);
    }
  }

  lemma {:induction false} ChunksAreGood(lines: seq<Line>, i: nat, before: string, maxLen: int)
    requires (forall l | l in lines :: FenceOk(l)) && i <= |lines|
    ensures forall c | c in Chunks(lines, i, before, maxLen) :: Good(c)
    decreases |lines| - i
  {
    if i < |lines| {
      FreshIsGood(before);
      TakeIsGood(Fresh(before), lines[i]);
      FillIsGood(lines, i + 1, Take(Fresh(before), lines[i]), maxLen);
      var (c, j) := NextChunk(lines, i, before, maxLen);
      ChunksAreGood(lines, j, c.open, maxLen);
    }
  }

  // ---------------------------------------------------------------- what the marks say

  predicate IsFence(line: string) { "```" <= Trim(line) }

  /** How many of the lines open or close a code block. */
  function FenceCount(lines: seq<string>): nat {
    if lines == [] then 0 else FenceCount(lines[..|lines| - 1]) + (if IsFence(lines[|lines| - 1]) then 1 else 0)
  }

  /** A line is marked as it should be. */
  predicate LineOk(l: Line) {
    && NoNewline(l.text)
    && l.len == ByteLen(l.text) + 1
    && (l.fence.Some? <==> IsFence(l.text))
    && (l.fence.Some? ==> l.fence.value != "" && NoNewline(l.fence.value) && IsFence(l.fence.value))
  }

  predicate OpenOk(open: string) { open != "" ==> NoNewline(open) && IsFence(open) }

  lemma {:induction false} TrimLeftKeepsNoNewline(s: string)
    requires NoNewline(s)
    ensures NoNewline(TrimLeft(s))
  {
    if s != [] && IsSpace(s[0]) { TrimLeftKeepsNoNewline(s[1..]); }
  }

  lemma {:induction false} TrimRightKeepsNoNewline(s: string)
    requires NoNewline(s)
    ensures NoNewline(TrimRight(s))
  {
    if s != [] && IsSpace(s[|s| - 1]) { TrimRightKeepsNoNewline(s[..|s| - 1]); }
  }

  lemma MarkIsOk(line: string)
    requires NoNewline(line)
    ensures LineOk(Mark(line))
  {
    TrimLeftKeepsNoNewline(line);
    TrimRightKeepsNoNewline(TrimLeft(line));
    TrimTwice(line);
    assert |FENCE| == 3;
  }

  lemma {:induction false} OpenIsOk(lines: seq<Line>, n: nat)
    requires (forall l | l in lines :: LineOk(l)) && n <= |lines|
    ensures OpenOk(OpenBefore(lines, n))
  {
    if n > 0 {
      OpenIsOk(lines, n - 1);
      assert LineOk(lines[n - 1]);
    }
  }

  /** The lines of a block's chunk are marked as they should be. */
  lemma BlockLinesOk(lines: seq<Line>, a: nat, b: nat, c: Chunk, maxLen: int)
    requires (forall l | l in lines :: LineOk(l)) && IsBlock(lines, a, b, c, maxLen)
    ensures forall i | 0 <= i < |c.lines| :: LineOk(c.lines[i])
  {
    OpenIsOk(lines, a);
    var open := OpenBefore(lines, a);
    assert open != "" ==> LineOk(Reopened(open)[0]);
    forall i | 0 <= i < |c.lines| ensures LineOk(c.lines[i]) {
      var k := i - |Reopened(open)|;
      if k >= 0 { assert c.lines[i] == lines[a..b][k] == lines[a + k]; }
    }
  }

  lemma {:induction false} MarksCount(lines: seq<Line>)
    requires forall i | 0 <= i < |lines| :: LineOk(lines[i])
    ensures FenceCount(LineTexts(lines)) == Fences(lines)
  {
    if lines != [] {
      var n := |lines| - 1;
      MarksCount(lines[..n]);
      assert LineTexts(lines)[..n] == LineTexts(lines[..n]);
      assert LineOk(lines[n]) && LineTexts(lines)[n] == lines[n].text;
    }
  }

  lemma FenceIsFence()
    ensures IsFence(FENCE) && NoNewline(FENCE)
  {
    TrimOfTrimmed(FENCE);
  }

  // ---------------------------------------------------------------- theorems

  lemma {:induction false} ByteLenConcat(a: string, b: string)
    ensures ByteLen(a + b) == ByteLen(a) + ByteLen(b)
  {
    if a == [] {
      assert a + b == b;
    } else {
      ByteLenConcat(a[1..], b);
      assert (a + b)[1..] == a[1..] + b;
    }
  }

  lemma {:induction false} JoinAppend(lines: seq<string>, line: string)
    requires lines != []
    ensures JoinLines(lines + [line]) == JoinLines(lines) + "\n" + line
  {
    assert (lines + [line])[1..] == lines[1..] + [line];
    if |lines| > 1 { JoinAppend(lines[1..], line); }
  }

  lemma NewlineBytes(line: string)
    ensures ByteLen("\n" + line) == 1 + ByteLen(line)
  {
    assert ("\n" + line)[1..] == line;
  }

  lemma {:induction false} JoinLength(lines: seq<Line>)
    requires lines != [] && forall i | 0 <= i < |lines| :: lines[i].len == ByteLen(lines[i].text) + 1
    ensures ByteLen(JoinLines(LineTexts(lines))) == TotalLen(lines) - 1
  {
    var n := |lines| - 1;
    var front, last := LineTexts(lines[..n]), lines[n].text;
    assert LineTexts(lines) == front + [last];
    if n == 0 {
      assert TotalLen(lines[..0]) == 0;
    } else {
      JoinLength(lines[..n]);
      JoinAppend(front, last);
      Regroup(JoinLines(front), "\n", last);
      ByteLenConcat(JoinLines(front), "\n" + last);
      NewlineBytes(last);
    }
  }

  lemma ClosingBytes()
    ensures ByteLen("\n" + FENCE) == 4
  {
    NewlineBytes(FENCE);
    assert FENCE[1..] == "``" && FENCE[1..][1..] == "`" && FENCE[1..][1..][1..] == "";
    assert ByteLen(FENCE) == 3;
  }

  function Closed(open: string): seq<string> { if open != "" then [FENCE] else [] }

  lemma TextOfChunk(c: Chunk)
    requires c.lines != []
    ensures ChunkText(c) == JoinLines(LineTexts(c.lines) + Closed(c.open))
  {
    var texts := LineTexts(c.lines);
    if c.open != "" {
      JoinAppend(texts, FENCE);
      Regroup(JoinLines(texts), "\n", FENCE);
    } else {
      assert texts + Closed(c.open) == texts;
    }
  }

  lemma ChunkBytes(c: Chunk)
    requires Good(c) && c.lines != [] && forall i | 0 <= i < |c.lines| :: c.lines[i].len == ByteLen(c.lines[i].text) + 1
    ensures ByteLen(ChunkText(c)) <= c.len + 3
  {
    var text := JoinLines(LineTexts(c.lines));
    JoinLength(c.lines);
    if c.open != "" {
      ByteLenConcat(text, "\n" + FENCE);
      ClosingBytes();
    } else {
      assert text + "" == text;
    }
  }

  lemma {:induction false} FenceCountAppend(lines: seq<string>, open: string)
    ensures FenceCount(lines + Closed(open)) == FenceCount(lines) + |Closed(open)|
  {
    if open != "" {
      FenceIsFence();
      assert (lines + [FENCE])[..|lines|] == lines;
    } else {
      assert lines + Closed(open) == lines;
    }
  }

  lemma ClosedNoNewline(lines: seq<Line>, open: string)
    requires forall i | 0 <= i < |lines| :: NoNewline(lines[i].text)
    ensures AllNoNewline(LineTexts(lines) + Closed(open))
  {
    FenceIsFence();
  }

  lemma ChunkFences(c: Chunk)
    requires Good(c) && c.lines != [] && forall i | 0 <= i < |c.lines| :: LineOk(c.lines[i])
    ensures FenceCount(Lines(ChunkText(c))) % 2 == 0
  {
    TextOfChunk(c);
    ClosedNoNewline(c.lines, c.open);
    LinesOfJoin(LineTexts(c.lines) + Closed(c.open));
    MarksCount(c.lines);
    ClosedCount(c);
  }

  lemma ClosedCount(c: Chunk)
    requires Good(c) && FenceCount(LineTexts(c.lines)) == Fences(c.lines)
    ensures FenceCount(LineTexts(c.lines) + Closed(c.open)) % 2 == 0
  {
    FenceCountAppend(LineTexts(c.lines), c.open);
  }

  /** The lines of a text, marked. */
  function MarkedLines(text: string): seq<Line> { MarkAll(Lines(text)) }

  function LongChunks(text: string, maxLen: int): seq<Chunk> { Chunks(MarkedLines(text), 0, "", maxLen) }

  function CutsOf(text: string, maxLen: int): seq<nat> { Cuts(MarkedLines(text), 0, "", maxLen) }

  lemma LongSplit(text: string, maxLen: int, k: nat)
    requires ByteLen(text) > maxLen && k < |Split(text, maxLen)|
    ensures |LongChunks(text, maxLen)| == |Split(text, maxLen)|
    ensures Split(text, maxLen)[k] == ChunkText(LongChunks(text, maxLen)[k])
  {}

  lemma MarkedLinesOk(text: string)
    ensures forall l | l in MarkedLines(text) :: LineOk(l)
  {
    var lines := MarkedLines(text);
    LinesHaveNoNewline(text);
    forall l | l in lines ensures LineOk(l) {
      var i :| 0 <= i < |lines| && lines[i] == l;
      MarkIsOk(Lines(text)[i]);
    }
  }

  /** What is known of the k-th chunk of a long text. */
  lemma LongChunkIsBlock(text: string, maxLen: int, k: nat)
    requires k < |LongChunks(text, maxLen)|
    ensures var cuts := CutsOf(text, maxLen);
      && |cuts| == |LongChunks(text, maxLen)| + 1 && cuts[0] == 0 && cuts[|cuts| - 1] == |MarkedLines(text)|
      && IsBlock(MarkedLines(text), cuts[k], cuts[k + 1], LongChunks(text, maxLen)[k], maxLen)
  {
    ChunksAreBlocks(MarkedLines(text), 0, maxLen);
    assert CutAt(MarkedLines(text), CutsOf(text, maxLen), LongChunks(text, maxLen), maxLen, k);
  }

  lemma LongChunkIsGood(text: string, maxLen: int, k: nat)
    requires k < |LongChunks(text, maxLen)|
    ensures var c := LongChunks(text, maxLen)[k];
      Good(c) && c.lines != [] && forall i | 0 <= i < |c.lines| :: LineOk(c.lines[i])
  {
    var lines, cuts, c := MarkedLines(text), CutsOf(text, maxLen), LongChunks(text, maxLen)[k];
    MarkedLinesOk(text);
    assert forall l | l in lines :: FenceOk(l) by { forall l | l in lines ensures FenceOk(l) { assert LineOk(l); } }
    ChunksAreGood(lines, 0, "", maxLen);
    LongChunkIsBlock(text, maxLen, k);
    BlockLinesOk(lines, cuts[k], cuts[k + 1], c, maxLen);
    assert c in LongChunks(text, maxLen);
  }

  lemma TextsOfBlock(lines: seq<string>, a: nat, b: nat, open: string)
    requires a <= b <= |lines|
    ensures LineTexts(Reopened(open) + MarkAll(lines)[a..b]) == Reopening(open) + lines[a..b]
  {}

  lemma BlockText(lines: seq<string>, a: nat, b: nat, c: Chunk, maxLen: int)
    requires IsBlock(MarkAll(lines), a, b, c, maxLen)
    ensures var marked := MarkAll(lines);
      ChunkText(c) == JoinLines(Reopening(OpenBefore(marked, a)) + lines[a..b] + Closed(OpenBefore(marked, b)))
  {
    TextOfChunk(c);
    TextsOfBlock(lines, a, b, OpenBefore(MarkAll(lines), a));
  }

  function Reopening(open: string): seq<string> { if open != "" then [open] else [] }

  /** Line m is the last fence line before line n, and `open` is its text, with the language it
      names. */
  ghost predicate IsLastFence(lines: seq<string>, m: nat, n: nat, open: string)
    requires m < n <= |lines|
  {
    open == Trim(lines[m]) && "```" <= open && forall i | m < i < n :: !IsFence(lines[i])
  }

  /** `open` is what is open before line n: nothing after an even number of fence lines, else
      the last of them. */
  ghost predicate IsOpenAt(lines: seq<string>, n: nat, open: string)
    requires n <= |lines|
  {
    if FenceCount(lines[..n]) % 2 == 0 then open == "" else exists m: nat | m < n :: IsLastFence(lines, m, n, open)
  }

  lemma OpenStep(lines: seq<string>, m: nat)
    requires m < |lines|
    ensures var open, fence := OpenBefore(MarkAll(lines), m), IsFence(lines[m]);
      && OpenBefore(MarkAll(lines), m + 1) == (if !fence then open else if open != "" then "" else Trim(lines[m]))
      && FenceCount(lines[..m + 1]) == FenceCount(lines[..m]) + (if fence then 1 else 0)
  {
    assert lines[..m + 1][..m] == lines[..m];
  }

  lemma {:induction false} OpenIsLastFence(lines: seq<string>, n: nat)
    requires n <= |lines|
    ensures IsOpenAt(lines, n, OpenBefore(MarkAll(lines), n))
  {
    if n > 0 {
      OpenIsLastFence(lines, n - 1);
      OpenStep(lines, n - 1);
      LastFenceStep(lines, n - 1, OpenBefore(MarkAll(lines), n - 1));
    }
  }

  lemma LastFenceStep(lines: seq<string>, m: nat, open: string)
    requires m < |lines| && IsOpenAt(lines, m, open)
    requires FenceCount(lines[..m + 1]) == FenceCount(lines[..m]) + (if IsFence(lines[m]) then 1 else 0)
    ensures IsOpenAt(lines, m + 1, if !IsFence(lines[m]) then open else if open != "" then "" else Trim(lines[m]))
  {
    if IsFence(lines[m]) {
      assert open == "" ==> IsLastFence(lines, m, m + 1, Trim(lines[m]));
    } else if FenceCount(lines[..m]) % 2 == 1 {
      var l: nat :| l < m && IsLastFence(lines, l, m, open);
      assert IsLastFence(lines, l, m + 1, open);
    }
  }

  lemma JoinReopened(open: string, lines: seq<string>)
    requires lines != []
    ensures JoinLines(Reopening(open) + lines) == (if open != "" then open + "\n" else "") + JoinLines(lines)
  {
    var all := Reopening(open) + lines;
    if open != "" { assert all[1..] == lines && all[0] == open; } else { assert all == lines; }
  }

  lemma JoinClosed(lines: seq<string>, close: string)
    requires lines != []
    ensures JoinLines(lines + Closed(close)) == JoinLines(lines) + (if close != "" then "\n```" else "")
  {
    if close != "" {
      JoinAppend(lines, FENCE);
      Regroup(JoinLines(lines), "\n", FENCE);
    } else {
      assert lines + Closed(close) == lines;
    }
  }

  /** A text longer than the limit is cut into consecutive non-empty blocks of its lines; each
      chunk is its block behind the fence line that is open before it, if any, and in front of
      a closing one if any is open after it, and nothing else. */
  lemma ChunkIsItsBlock(text: string, maxLen: int, k: nat) returns (open: string, open': string)
    requires ByteLen(text) > maxLen && k < |Split(text, maxLen)|
    ensures var lines, cuts := Lines(text), CutsOf(text, maxLen);
      && |cuts| == |Split(text, maxLen)| + 1 && cuts[0] == 0 && cuts[|cuts| - 1] == |lines|
      && cuts[k] < cuts[k + 1] <= |lines|
      && IsOpenAt(lines, cuts[k], open) && IsOpenAt(lines, cuts[k + 1], open')
      && Split(text, maxLen)[k] ==
           (if open != "" then open + "\n" else "") + JoinLines(lines[cuts[k]..cuts[k + 1]]) + (if open' != "" then "\n```" else "")
  {
    var lines, cuts := Lines(text), CutsOf(text, maxLen);
    LongSplit(text, maxLen, k);
    LongChunkIsBlock(text, maxLen, k);
    var a, b := cuts[k], cuts[k + 1];
    BlockText(lines, a, b, LongChunks(text, maxLen)[k], maxLen);
    OpenIsLastFence(lines, a);
    OpenIsLastFence(lines, b);
    open, open' := OpenBefore(MarkedLines(text), a), OpenBefore(MarkedLines(text), b);
    JoinReopened(open, lines[a..b]);
    JoinClosed(Reopening(open) + lines[a..b], open');
  }

  lemma CutBeforeNext(lines: seq<Line>, cuts: seq<nat>, chunks: seq<Chunk>, maxLen: int, k: nat)
    requires CutWell(lines, cuts, chunks, maxLen) && k + 1 < |chunks|
    ensures cuts[k] < cuts[k + 1] < |lines|
    ensures chunks[k].lines == Reopened(OpenBefore(lines, cuts[k])) + lines[cuts[k]..cuts[k + 1]]
    ensures chunks[k].len + lines[cuts[k + 1]].len > maxLen
  {
    assert CutAt(lines, cuts, chunks, maxLen, k) && CutAt(lines, cuts, chunks, maxLen, k + 1);
  }

  lemma NoRoomForNext(text: string, maxLen: int, k: nat)
    requires k + 1 < |LongChunks(text, maxLen)|
    ensures var cuts, c := CutsOf(text, maxLen), LongChunks(text, maxLen)[k];
      && |cuts| == |LongChunks(text, maxLen)| + 1 && cuts[k] < cuts[k + 1] < |Lines(text)|
      && c.lines == Reopened(OpenBefore(MarkedLines(text), cuts[k])) + MarkedLines(text)[cuts[k]..cuts[k + 1]]
      && c.len + ByteLen(Lines(text)[cuts[k + 1]]) + 1 > maxLen
  {
    ChunksAreBlocks(MarkedLines(text), 0, maxLen);
    CutBeforeNext(MarkedLines(text), CutsOf(text, maxLen), LongChunks(text, maxLen), maxLen, k);
  }

  /** A block ends only where its chunk, before any closing fence, has no room for the next
      line and its newline. */
  lemma ChunkIsFull(text: string, maxLen: int, k: nat) returns (open: string)
    requires ByteLen(text) > maxLen && k + 1 < |Split(text, maxLen)|
    ensures var lines, cuts := Lines(text), CutsOf(text, maxLen);
      && |cuts| == |Split(text, maxLen)| + 1
      && cuts[k] < cuts[k + 1] < |lines|
      && IsOpenAt(lines, cuts[k], open)
      && ByteLen((if open != "" then open + "\n" else "") + JoinLines(lines[cuts[k]..cuts[k + 1]]))
           + 1 + ByteLen(lines[cuts[k + 1]]) + 1 > maxLen
  {
    NoRoomForNext(text, maxLen, k);
    LongChunkIsGood(text, maxLen, k);
    var a, b := CutsOf(text, maxLen)[k], CutsOf(text, maxLen)[k + 1];
    open := OpenBefore(MarkedLines(text), a);
    OpenIsLastFence(Lines(text), a);
    TextsOfBlock(Lines(text), a, b, open);
    BlockBytes(LongChunks(text, maxLen)[k], open, Lines(text)[a..b]);
  }

  lemma BlockBytes(c: Chunk, open: string, block: seq<string>)
    requires LineTexts(c.lines) == Reopening(open) + block && block != [] && Good(c)
    requires forall i | 0 <= i < |c.lines| :: c.lines[i].len == ByteLen(c.lines[i].text) + 1
    ensures ByteLen((if open != "" then open + "\n" else "") + JoinLines(block)) + 1 == c.len
  {
    assert |LineTexts(c.lines)| == |c.lines| > 0;
    JoinLength(c.lines);
    JoinReopened(open, block);
  }

  /** Every chunk of a long text has an even number of fence lines. */
  lemma ChunkHasEvenFences(text: string, maxLen: int, k: nat)
    requires ByteLen(text) > maxLen && k < |Split(text, maxLen)|
    ensures FenceCount(Lines(Split(text, maxLen)[k])) % 2 == 0
  {
    LongSplit(text, maxLen, k);
    LongChunkIsGood(text, maxLen, k);
    ChunkFences(LongChunks(text, maxLen)[k]);
  }

  /** Every chunk of a long text has at most maxLen + 3 bytes unless its block is one line. */
  lemma ChunkIsBounded(text: string, maxLen: int, k: nat)
    requires ByteLen(text) > maxLen && k < |Split(text, maxLen)|
    ensures |CutsOf(text, maxLen)| == |Split(text, maxLen)| + 1
    ensures ByteLen(Split(text, maxLen)[k]) <= maxLen + 3 || CutsOf(text, maxLen)[k + 1] == CutsOf(text, maxLen)[k] + 1
  {
    LongSplit(text, maxLen, k);
    LongChunkIsBlock(text, maxLen, k);
    LongChunkIsGood(text, maxLen, k);
    ChunkBytes(LongChunks(text, maxLen)[k]);
  }
}
