/** The speech chunker (core/engine.go): a text cut into pieces of at most maxLen runes, at
    paragraphs, then at sentences, then at commas and spaces. */
module TtsChunks {
  import opened Text

  predicate EndsSentence(c: char) {
    c == '\n' || c == '。' || c == '！' || c == '？' || c == '.' || c == '!' || c == '?' || c == ';' || c == '；'
  }

  predicate IsBreak(c: char) { EndsSentence(c) || c == ',' || c == '，' || c == ' ' }

  /** The trimmed text, unless it is blank. */
  function Keep(s: string): seq<string> {
    if Trim(s) != "" then [Trim(s)] else []
  }

  // ---------------------------------------------------------------- by length

  /** The largest i up to `from` and not below `least` after whose rune one may cut, or maxLen. */
  function SplitAt(runes: string, from: nat, least: nat, maxLen: nat): (i: nat)
    requires from <= |runes| && 0 < least <= maxLen && from <= maxLen
    ensures least <= i <= maxLen
    decreases from
  {
    if from < least then maxLen else if IsBreak(runes[from - 1]) then from else SplitAt(runes, from - 1, least, maxLen)
  }

  /** The cut is after the last rune within the limit that allows one, if there is any. */
  lemma {:induction false} SplitAtIsLast(runes: string, from: nat, least: nat, maxLen: nat, p: nat)
    requires from <= |runes| && 0 < least <= maxLen && from <= maxLen
    requires least <= p <= from && IsBreak(runes[p - 1])
    ensures var i := SplitAt(runes, from, least, maxLen); p <= i <= from && IsBreak(runes[i - 1])
    decreases from
  {
    if !IsBreak(runes[from - 1]) { SplitAtIsLast(runes, from - 1, least, maxLen, p); }
  }

  function LeastSplit(maxLen: nat): nat { if maxLen / 2 < 1 then 1 else maxLen / 2 }

  /** The chunks of runes by length. */
  function ByLength(runes: string, maxLen: nat): seq<string>
    requires maxLen > 0
    decreases |runes|
  {
    if runes == [] then []
    else if |runes| <= maxLen then Keep(runes)
    else
      var i := SplitAt(runes, maxLen, LeastSplit(maxLen), maxLen);
      Keep(runes[..i]) + ByLength(Trim(runes[i..]), maxLen)
  }

  /** The search of splitTTSByLength for a place to cut. */
  method FindSplit(runes: string, maxLen: nat) returns (splitAt: nat)
    requires 0 < maxLen < |runes|
    ensures splitAt == SplitAt(runes, maxLen, LeastSplit(maxLen), maxLen)
  {
    splitAt := maxLen;
    var minSplit := maxLen / 2;
    if minSplit < 1 { minSplit := 1; }
    var i := maxLen;
    while i >= minSplit
      invariant minSplit - 1 <= i <= maxLen
      invariant i >= minSplit ==> splitAt == maxLen
      invariant (if i < minSplit then splitAt else SplitAt(runes, i, minSplit, maxLen)) == SplitAt(runes, maxLen, minSplit, maxLen)
    {
      if IsBreak(runes[i - 1]) {
        splitAt := i;
        i := minSplit;
      }
      i := i - 1;
    }
  }

  lemma ByLengthStep(runes: string, maxLen: nat)
    requires 0 < maxLen < |runes|
    ensures var i := SplitAt(runes, maxLen, LeastSplit(maxLen), maxLen);
      ByLength(runes, maxLen) == Keep(runes[..i]) + ByLength(Trim(runes[i..]), maxLen)
  {}

  /** splitTTSByLength. Its only callers pass a positive limit. */
  method SplitByLength(text: string, maxLen: nat) returns (chunks: seq<string>)
    requires maxLen > 0
    ensures chunks == ByLength(Trim(text), maxLen)
  {
    var runes := Trim(text);
    ghost var all := ByLength(runes, maxLen);
    chunks := [];
    while |runes| > 0
      invariant chunks + ByLength(runes, maxLen) == all
      decreases |runes|
    {
      if |runes| <= maxLen {
        chunks := chunks + Keep(runes);
        break;
      }
      var splitAt := FindSplit(runes, maxLen);
      var piece, rest := Keep(runes[..splitAt]), Trim(runes[splitAt..]);
      ByLengthStep(runes, maxLen);
      Regroup(chunks, piece, ByLength(rest, maxLen));
      chunks, runes := chunks + piece, rest;
    }
  }

  // ---------------------------------------------------------------- sentences

  /** The sentences of a text when `current` is already written. */
  function Cut(text: string, current: string): seq<string>
    decreases |text|
  {
    if text == [] then Keep(current)
    else if EndsSentence(text[0]) then Keep(current + [text[0]]) + Cut(text[1..], "")
    else Cut(text[1..], current + [text[0]])
  }

  function Sentences(text: string): seq<string> {
    if Cut(text, "") == [] then [text] else Cut(text, "")
  }

  /** splitTTSSentences. */
  method SplitSentences(text: string) returns (parts: seq<string>)
    ensures parts == Sentences(text)
  {
    parts := [];
    var current := "";
    for i := 0 to |text|
      invariant parts + Cut(text[i..], current) == Cut(text, "")
    {
      assert text[i..][0] == text[i] && text[i..][1..] == text[i + 1..];
      current := current + [text[i]];
      if EndsSentence(text[i]) {
        parts := parts + Keep(current);
        current := "";
      }
    }
    parts := parts + Keep(current);
    if |parts| == 0 { return [text]; }
  }

  // ---------------------------------------------------------------- one paragraph

  /** What one trimmed sentence does to the text being packed: the chunks it completes, and
      the text after it. One that is too long is cut by length. */
  function AddSentence(current: string, s: string, maxLen: nat): (seq<string>, string)
    requires maxLen > 0
  {
    if s == "" then ([], current)
    else if |s| > maxLen then (Keep(current) + ByLength(Trim(s), maxLen), "")
    else if |current| > 0 && |current| + 1 + |s| > maxLen then (Keep(current), s)
    else ([], current + (if |current| > 0 then " " else "") + s)
  }

  /** Sentences joined by a space while they fit. */
  function Pack(sentences: seq<string>, current: string, maxLen: nat): seq<string>
    requires maxLen > 0
    decreases |sentences|
  {
    if sentences == [] then Keep(current)
    else
      var (done, next) := AddSentence(current, Trim(sentences[0]), maxLen);
      done + Pack(sentences[1..], next, maxLen)
  }

  function Paragraph(paragraph: string, maxLen: nat): seq<string>
    requires maxLen > 0
  {
    if |paragraph| <= maxLen then [paragraph] else Pack(Sentences(paragraph), "", maxLen)
  }

  /** The body of the loop of splitTTSParagraph. */
  method PackSentence(current: string, sentence: string, maxLen: nat) returns (done: seq<string>, next: string)
    requires maxLen > 0
    ensures (done, next) == AddSentence(current, sentence, maxLen)
  {
    if sentence == "" { return [], current; }
    if |sentence| > maxLen {
      done := SplitByLength(sentence, maxLen);
      return Keep(current) + done, "";
    }
    done, next := [], current;
    if |next| > 0 && |next| + 1 + |sentence| > maxLen { done, next := Keep(next), ""; }
    assert "" + sentence == sentence && current + "" == current;
    if |next| > 0 { next := next + " "; }
    next := next + sentence;
  }

  /** splitTTSParagraph. */
  method SplitParagraph(paragraph: string, maxLen: nat) returns (chunks: seq<string>)
    requires maxLen > 0
    ensures chunks == Paragraph(paragraph, maxLen)
    ensures |paragraph| <= maxLen ==> chunks == [paragraph]
  {
    if |paragraph| <= maxLen { return [paragraph]; }
    var sentences := SplitSentences(paragraph);
    chunks := [];
    var current := "";
    for i := 0 to |sentences|
      invariant chunks + Pack(sentences[i..], current, maxLen) == Pack(sentences, "", maxLen)
    {
      assert sentences[i..][0] == sentences[i] && sentences[i..][1..] == sentences[i + 1..];
      var done, next := PackSentence(current, Trim(sentences[i]), maxLen);
      chunks, current := chunks + done, next;
    }
    chunks := chunks + Keep(current);
  }

  // ---------------------------------------------------------------- paragraphs

  function Flush(current: seq<string>): seq<string> {
    if current == [] then [] else Keep(JoinLines(current))
  }

  /** What a line does to the lines of the current paragraph: a blank one ends it. */
  function AddLine(current: seq<string>, line: string): (seq<string>, seq<string>) {
    if Trim(line) == "" then (Flush(current), []) else ([], current + [line])
  }

  /** Lines joined into paragraphs; blank lines separate them. */
  function Group(lines: seq<string>, current: seq<string>): seq<string>
    decreases |lines|
  {
    if lines == [] then Flush(current)
    else
      var (done, next) := AddLine(current, lines[0]);
      done + Group(lines[1..], next)
  }

  function Paragraphs(text: string): seq<string> {
    if Group(Lines(text), []) == [] then [Trim(text)] else Group(Lines(text), [])
  }

  /** The body of the loop of splitTTSParagraphs. */
  method TakeLine(current: seq<string>, line: string) returns (done: seq<string>, next: seq<string>)
    ensures (done, next) == AddLine(current, line)
  {
    if Trim(line) == "" { return Flush(current), []; }
    return [], current + [line];
  }

  /** splitTTSParagraphs. */
  method SplitParagraphs(text: string) returns (paragraphs: seq<string>)
    ensures paragraphs == Paragraphs(text)
  {
    paragraphs := GroupLines(Lines(text));
    if |paragraphs| == 0 { return [Trim(text)]; }
  }

  /** Its loop over the lines. */
  method GroupLines(lines: seq<string>) returns (paragraphs: seq<string>)
    ensures paragraphs == Group(lines, [])
  {
    paragraphs := [];
    var current: seq<string> := [];
    for i := 0 to |lines|
      invariant paragraphs + Group(lines[i..], current) == Group(lines, [])
    {
      assert lines[i..][0] == lines[i] && lines[i..][1..] == lines[i + 1..];
      var done, next := TakeLine(current, lines[i]);
      paragraphs, current := paragraphs + done, next;
    }
    paragraphs := paragraphs + Flush(current);
  }

  // ---------------------------------------------------------------- the chunker

  function ChunkEach(paragraphs: seq<string>, maxLen: nat): seq<string>
    requires maxLen > 0
  {
    if paragraphs == [] then [] else Paragraph(paragraphs[0], maxLen) + ChunkEach(paragraphs[1..], maxLen)
  }

  function Chunks(text: string, maxLen: int): seq<string> {
    var trimmed := Trim(text);
    if trimmed == "" then []
    else if maxLen <= 0 || |trimmed| <= maxLen then [trimmed]
    else ChunkEach(Paragraphs(trimmed), maxLen)
  }

  /** splitTTSChunks. */
  method SplitChunks(text: string, maxLen: int) returns (chunks: seq<string>)
    ensures chunks == Chunks(text, maxLen)
    ensures Trim(text) != "" && (maxLen <= 0 || |Trim(text)| <= maxLen) ==> chunks == [Trim(text)]
  {
    var trimmed := Trim(text);
    if trimmed == "" { return []; }
    if maxLen <= 0 || |trimmed| <= maxLen { return [trimmed]; }
    var paragraphs := SplitParagraphs(trimmed);
    chunks := SplitEach(paragraphs, maxLen);
  }

  /** What splitTTSChunks does with one paragraph. */
  method SplitOne(paragraph: string, maxLen: nat) returns (chunks: seq<string>)
    requires maxLen > 0
    ensures chunks == Paragraph(paragraph, maxLen)
  {
    if |paragraph| <= maxLen { return [paragraph]; }
    chunks := SplitParagraph(paragraph, maxLen);
  }

  /** Its loop over the paragraphs. */
  method SplitEach(paragraphs: seq<string>, maxLen: nat) returns (chunks: seq<string>)
    requires maxLen > 0
    ensures chunks == ChunkEach(paragraphs, maxLen)
  {
    chunks := [];
    for i := 0 to |paragraphs|
      invariant chunks + ChunkEach(paragraphs[i..], maxLen) == ChunkEach(paragraphs, maxLen)
    {
      assert paragraphs[i..][0] == paragraphs[i] && paragraphs[i..][1..] == paragraphs[i + 1..];
      var pieces := SplitOne(paragraphs[i], maxLen);
      Regroup(chunks, pieces, ChunkEach(paragraphs[i + 1..], maxLen));
      chunks := chunks + pieces;
    }
  }

  // ---------------------------------------------------------------- theorems

  /** Every chunk is trimmed, not empty and within the limit. */
  ghost predicate Good(chunks: seq<string>, maxLen: nat) {
    forall i | 0 <= i < |chunks| :: GoodChunk(chunks[i], maxLen)
  }

  predicate GoodChunk(c: string, maxLen: nat) { c != "" && |c| <= maxLen && Trim(c) == c }

  function Flat(chunks: seq<string>): string {
    if chunks == [] then "" else chunks[0] + Flat(chunks[1..])
  }

  /** What the chunks say: their runes that are not whitespace, in order. */
  function Spoken(chunks: seq<string>): string { NonSpace(Flat(chunks)) }

  lemma {:induction false} FlatConcat(a: seq<string>, b: seq<string>)
    ensures Flat(a + b) == Flat(a) + Flat(b)
  {
    if a == [] {
      assert a + b == b;
    } else {
      var ab := a + b;
      FlatConcat(a[1..], b);
      assert ab[0] == a[0] && ab[1..] == a[1..] + b;
      Regroup(a[0], Flat(a[1..]), Flat(b));
    }
  }

  lemma SpokenConcat(a: seq<string>, b: seq<string>)
    ensures Spoken(a + b) == Spoken(a) + Spoken(b)
  {
    FlatConcat(a, b);
    NonSpaceConcat(Flat(a), Flat(b));
  }

  lemma SpokenCons(chunks: seq<string>)
    requires chunks != []
    ensures Spoken(chunks) == NonSpace(chunks[0]) + Spoken(chunks[1..])
  {
    NonSpaceConcat(chunks[0], Flat(chunks[1..]));
  }

  lemma SpokenOne(c: string)
    ensures Spoken([c]) == NonSpace(c)
  {
    assert [c][1..] == [] && Flat([c]) == c;
  }

  /** Keeping a text trims it and says it. */
  lemma {:induction false} KeepSays(s: string, maxLen: nat)
    ensures Spoken(Keep(s)) == NonSpace(s)
    ensures |s| <= maxLen ==> Good(Keep(s), maxLen)
  {
    NonSpaceTrim(s);
    SpokenOne(Trim(s));
    TrimTwice(s);
    if Trim(s) == "" { BlankHasNoRunes(s); }
  }

  lemma {:induction false} ByLengthSays(runes: string, maxLen: nat)
    requires maxLen > 0
    ensures Good(ByLength(runes, maxLen), maxLen) && Spoken(ByLength(runes, maxLen)) == NonSpace(runes)
    decreases |runes|
  {
    if runes == [] {
    } else if |runes| <= maxLen {
      KeepSays(runes, maxLen);
    } else {
      var i := SplitAt(runes, maxLen, LeastSplit(maxLen), maxLen);
      ByLengthSays(Trim(runes[i..]), maxLen);
      FirstPieceSays(runes, i, ByLength(Trim(runes[i..]), maxLen), maxLen);
    }
  }

  lemma {:induction false} FirstPieceSays(runes: string, i: nat, rest: seq<string>, maxLen: nat)
    requires i <= |runes| && i <= maxLen
    requires Good(rest, maxLen) && Spoken(rest) == NonSpace(Trim(runes[i..]))
    ensures Good(Keep(runes[..i]) + rest, maxLen) && Spoken(Keep(runes[..i]) + rest) == NonSpace(runes)
  {
    var a, b := runes[..i], runes[i..];
    KeepSays(a, maxLen);
    NonSpaceTrim(b);
    SpokenConcat(Keep(a), rest);
    NonSpaceConcat(a, b);
    assert runes == a + b;
  }

  lemma {:induction false} CutSays(text: string, current: string)
    ensures Spoken(Cut(text, current)) == NonSpace(current + text)
    decreases |text|
  {
    if text == [] {
      KeepSays(current, 0);
      assert current + text == current;
    } else {
      var next := current + [text[0]];
      assert current + text == next + text[1..];
      if EndsSentence(text[0]) {
        CutSays(text[1..], "");
        assert "" + text[1..] == text[1..];
        KeepSays(next, 0);
        SpokenConcat(Keep(next), Cut(text[1..], ""));
        NonSpaceConcat(next, text[1..]);
      } else {
        CutSays(text[1..], next);
      }
    }
  }

  lemma SentencesSay(text: string)
    ensures Spoken(Sentences(text)) == NonSpace(text)
  {
    CutSays(text, "");
    assert "" + text == text;
    SpokenOne(text);
  }

  lemma {:induction false} AddSentenceSays(current: string, s: string, maxLen: nat)
    requires maxLen > 0 && |current| <= maxLen
    ensures var (done, next) := AddSentence(current, s, maxLen);
      Good(done, maxLen) && |next| <= maxLen && Spoken(done) + NonSpace(next) == NonSpace(current) + NonSpace(s)
  {
    KeepSays(current, maxLen);
    if s == "" {
    } else if |s| > maxLen {
      ByLengthSays(Trim(s), maxLen);
      NonSpaceTrim(s);
      SpokenConcat(Keep(current), ByLength(Trim(s), maxLen));
    } else if |current| > 0 && |current| + 1 + |s| > maxLen {
    } else {
      JoinedSays(current, s);
    }
  }

  lemma JoinedSays(current: string, s: string)
    ensures NonSpace(current + (if |current| > 0 then " " else "") + s) == NonSpace(current) + NonSpace(s)
  {
    var gap := if |current| > 0 then " " else "";
    BlankGap(gap);
    NonSpaceConcat(current, gap);
    NonSpaceConcat(current + gap, s);
  }

  lemma BlankGap(gap: string)
    requires gap == " " || gap == "" || gap == "\n"
    ensures NonSpace(gap) == ""
  {
    assert gap != "" ==> gap[1..] == "";
  }

  lemma {:induction false} PackSays(sentences: seq<string>, current: string, maxLen: nat)
    requires maxLen > 0 && |current| <= maxLen
    ensures Good(Pack(sentences, current, maxLen), maxLen)
    ensures Spoken(Pack(sentences, current, maxLen)) == NonSpace(current) + Spoken(sentences)
    decreases |sentences|
  {
    if sentences == [] {
      KeepSays(current, maxLen);
    } else {
      var (done, next) := AddSentence(current, Trim(sentences[0]), maxLen);
      AddSentenceSays(current, Trim(sentences[0]), maxLen);
      PackSays(sentences[1..], next, maxLen);
      SpokenCons(sentences);
      NonSpaceTrim(sentences[0]);
      SpokenConcat(done, Pack(sentences[1..], next, maxLen));
      Regroup(Spoken(done), NonSpace(next), Spoken(sentences[1..]));
      Regroup(NonSpace(current), NonSpace(sentences[0]), Spoken(sentences[1..]));
    }
  }

  lemma {:induction false} ParagraphSays(p: string, maxLen: nat)
    requires maxLen > 0 && p != "" && Trim(p) == p
    ensures Good(Paragraph(p, maxLen), maxLen) && Spoken(Paragraph(p, maxLen)) == NonSpace(p)
  {
    if |p| <= maxLen {
      SpokenOne(p);
    } else {
      SentencesSay(p);
      PackSays(Sentences(p), "", maxLen);
    }
  }

  lemma {:induction false} JoinSays(lines: seq<string>)
    ensures NonSpace(JoinLines(lines)) == Spoken(lines)
  {
    if |lines| == 1 {
      SpokenOne(lines[0]);
      assert lines == [lines[0]];
    } else if lines != [] {
      var rest := JoinLines(lines[1..]);
      JoinSays(lines[1..]);
      SpokenCons(lines);
      LineBreakSays(lines[0], rest);
    }
  }

  lemma LineBreakSays(line: string, rest: string)
    ensures NonSpace(line + "\n" + rest) == NonSpace(line) + NonSpace(rest)
  {
    BlankGap("\n");
    NonSpaceConcat(line, "\n");
    NonSpaceConcat(line + "\n", rest);
  }

  /** Every paragraph is trimmed and not empty. */
  ghost predicate Trimmed(paragraphs: seq<string>) {
    forall i | 0 <= i < |paragraphs| :: paragraphs[i] != "" && Trim(paragraphs[i]) == paragraphs[i]
  }

  lemma FlushSays(current: seq<string>)
    ensures Trimmed(Flush(current)) && Spoken(Flush(current)) == Spoken(current)
  {
    if current != [] {
      KeepSays(JoinLines(current), 0);
      JoinSays(current);
      TrimTwice(JoinLines(current));
    }
  }

  lemma SpokenAppend(lines: seq<string>, line: string, rest: string)
    ensures Spoken(lines + [line]) + rest == Spoken(lines) + (NonSpace(line) + rest)
  {
    SpokenConcat(lines, [line]);
    SpokenOne(line);
    Regroup(Spoken(lines), NonSpace(line), rest);
  }

  lemma TrimmedConcat(a: seq<string>, b: seq<string>)
    requires Trimmed(a) && Trimmed(b)
    ensures Trimmed(a + b)
  {}

  lemma {:induction false} GroupSays(lines: seq<string>, current: seq<string>)
    ensures Trimmed(Group(lines, current)) && Spoken(Group(lines, current)) == Spoken(current) + Spoken(lines)
    decreases |lines|, 1
  {
    if lines == [] {
      FlushSays(current);
    } else if Trim(lines[0]) == "" {
      BlankSeparates(lines, current);
    } else {
      GroupSays(lines[1..], current + [lines[0]]);
      var grouped := Group(lines[1..], current + [lines[0]]);
      assert Group(lines, current) == [] + grouped && [] + grouped == grouped;
      SpokenCons(lines);
      SpokenAppend(current, lines[0], Spoken(lines[1..]));
    }
  }

  lemma {:induction false} BlankSeparates(lines: seq<string>, current: seq<string>)
    requires lines != [] && Trim(lines[0]) == ""
    ensures Trimmed(Group(lines, current)) && Spoken(Group(lines, current)) == Spoken(current) + Spoken(lines)
    decreases |lines|, 0
  {
    var flushed, rest := Flush(current), Group(lines[1..], []);
    FlushSays(current);
    GroupSays(lines[1..], []);
    BlankHasNoRunes(lines[0]);
    SpokenCons(lines);
    SpokenConcat(flushed, rest);
    TrimmedConcat(flushed, rest);
    assert Group(lines, current) == flushed + rest;
  }

  lemma {:induction false} ParagraphsSay(text: string)
    requires text != "" && Trim(text) == text
    ensures Trimmed(Paragraphs(text)) && Spoken(Paragraphs(text)) == NonSpace(text)
  {
    GroupSays(Lines(text), []);
    JoinSays(Lines(text));
    JoinOfLines(text);
    SpokenOne(text);
  }

  lemma {:induction false} ChunkEachSays(paragraphs: seq<string>, maxLen: nat)
    requires maxLen > 0 && Trimmed(paragraphs)
    ensures Good(ChunkEach(paragraphs, maxLen), maxLen)
    ensures Spoken(ChunkEach(paragraphs, maxLen)) == Spoken(paragraphs)
  {
    if paragraphs != [] {
      ParagraphSays(paragraphs[0], maxLen);
      SpokenCons(paragraphs);
      ChunkEachSays(paragraphs[1..], maxLen);
      SpokenConcat(Paragraph(paragraphs[0], maxLen), ChunkEach(paragraphs[1..], maxLen));
    }
  }

  /** For any text and any positive limit every chunk is trimmed, not empty and at most maxLen
      runes long, and the chunks say exactly the text's runes that are not whitespace. */
  lemma {:induction false} ChunksSayTheText(text: string, maxLen: nat)
    requires maxLen > 0
    ensures Good(Chunks(text, maxLen), maxLen)
    ensures Spoken(Chunks(text, maxLen)) == NonSpace(text)
  {
    var trimmed := Trim(text);
    NonSpaceTrim(text);
    TrimTwice(text);
    if trimmed == "" {
    } else if |trimmed| <= maxLen {
      SpokenOne(trimmed);
    } else {
      ParagraphsSay(trimmed);
      ChunkEachSays(Paragraphs(trimmed), maxLen);
    }
  }

  // ---------------------------------------------------------------- where the cuts are

  /** Cutting by length cuts in the upper half of the limit behind the last rune that allows it,
      and only where there is none at the limit. */
  lemma ByLengthCuts(runes: string, maxLen: nat) returns (i: nat)
    requires 0 < maxLen < |runes|
    ensures 1 <= i <= maxLen <= 2 * i + 1
    ensures forall q | i <= q < maxLen :: runes[q] !in "\n。！？.!?;；,， "
    ensures runes[i - 1] in "\n。！？.!?;；,， " ||
            (i == maxLen && forall q | 0 <= q < maxLen <= 2 * q + 3 :: runes[q] !in "\n。！？.!?;；,， ")
    ensures ByLength(runes, maxLen) == Keep(runes[..i]) + ByLength(Trim(runes[i..]), maxLen)
  {
    var least := LeastSplit(maxLen);
    i := SplitAt(runes, maxLen, least, maxLen);
    forall q | least - 1 <= q < maxLen ensures runes[q] in "\n。！？.!?;；,， " ==> q < i && IsBreak(runes[i - 1]) {
      if IsBreak(runes[q]) { SplitAtIsLast(runes, maxLen, least, maxLen, q + 1); }
    }
    if !IsBreak(runes[i - 1]) { CutAtLimit(runes, maxLen, least, maxLen); }
  }

  lemma {:induction false} CutAtLimit(runes: string, from: nat, least: nat, maxLen: nat)
    requires from <= |runes| && 0 < least <= maxLen && from <= maxLen <= |runes|
    ensures var i := SplitAt(runes, from, least, maxLen); i == maxLen || (i <= from && IsBreak(runes[i - 1]))
    decreases from
  {
    if from >= least && !IsBreak(runes[from - 1]) { CutAtLimit(runes, from - 1, least, maxLen); }
  }

  /** A text is cut into sentences right behind each rune that ends one. */
  lemma {:induction false} SentenceEnds(text: string, current: string, n: nat)
    requires n <= |text| && forall i | 0 <= i < n :: text[i] !in "\n。！？.!?;；"
    ensures n == |text| ==> Cut(text, current) == Keep(current + text)
    ensures n < |text| && text[n] in "\n。！？.!?;；" ==>
      Cut(text, current) == Keep(current + text[..n + 1]) + Cut(text[n + 1..], "")
    decreases n
  {
    if n > 0 {
      SentenceEnds(text[1..], current + [text[0]], n - 1);
      assert current + [text[0]] + text[1..] == current + text;
      assert n < |text| ==> current + [text[0]] + text[1..][..n] == current + text[..n + 1] && text[1..][n..] == text[n + 1..];
    } else {
      assert text == "" ==> current + text == current;
      assert text != "" ==> text[..1] == [text[0]];
    }
  }

  predicate IsSentence(s: string, maxLen: nat) { s != "" && Trim(s) == s && |s| <= maxLen }

  function Spaced(sentences: seq<string>): string {
    if sentences == [] then "" else if |sentences| == 1 then sentences[0] else Spaced(sentences[..|sentences| - 1]) + " " + sentences[|sentences| - 1]
  }

  lemma TrimmedEnds(s: string)
    requires s != "" && Trim(s) == s
    ensures !IsSpace(s[0]) && !IsSpace(s[|s| - 1])
  {}

  lemma {:induction false} SpacedIsTrimmed(sentences: seq<string>)
    requires sentences != [] && forall i | 0 <= i < |sentences| :: sentences[i] != "" && Trim(sentences[i]) == sentences[i]
    ensures Spaced(sentences) != "" && !IsSpace(Spaced(sentences)[0]) && !IsSpace(Spaced(sentences)[|Spaced(sentences)| - 1])
  {
    var last := |sentences| - 1;
    TrimmedEnds(sentences[last]);
    if last > 0 { SpacedIsTrimmed(sentences[..last]); }
  }

  lemma {:induction false} PackGoesOn(sentences: seq<string>, i: nat, maxLen: nat) returns (n: nat)
    requires maxLen > 0 && 0 < i <= |sentences| && |Spaced(sentences[..i])| <= maxLen
    requires forall k | 0 <= k < |sentences| :: IsSentence(sentences[k], maxLen)
    ensures i <= n <= |sentences| && |Spaced(sentences[..n])| <= maxLen
    ensures n < |sentences| ==> |Spaced(sentences[..n])| + 1 + |sentences[n]| > maxLen
    ensures Pack(sentences[i..], Spaced(sentences[..i]), maxLen) == [Spaced(sentences[..n])] + Pack(sentences[n..], "", maxLen)
    decreases |sentences| - i
  {
    var current := Spaced(sentences[..i]);
    SpacedIsTrimmed(sentences[..i]);
    TrimOfTrimmed(current);
    n := i;
    if i < |sentences| {
      assert sentences[i..][1..] == sentences[i + 1..] && sentences[..i + 1][..i] == sentences[..i];
      if |current| + 1 + |sentences[i]| <= maxLen {
        n := PackGoesOn(sentences, i + 1, maxLen);
      } else {
        assert "" + sentences[i] == sentences[i];
      }
    }
  }

  /** Sentences that fit are packed, with spaces between them, as far as they fit. */
  lemma PacksFull(sentences: seq<string>, maxLen: nat) returns (n: nat)
    requires maxLen > 0 && sentences != [] && forall k | 0 <= k < |sentences| :: IsSentence(sentences[k], maxLen)
    ensures 0 < n <= |sentences| && |Spaced(sentences[..n])| <= maxLen
    ensures n < |sentences| ==> |Spaced(sentences[..n])| + 1 + |sentences[n]| > maxLen
    ensures Pack(sentences, "", maxLen) == [Spaced(sentences[..n])] + Pack(sentences[n..], "", maxLen)
  {
    assert Spaced(sentences[..1]) == sentences[0] == "" + sentences[0];
    n := PackGoesOn(sentences, 1, maxLen);
  }

  /** A sentence that is too long, and no other, is cut by length, between what is packed before
      and after it. */
  lemma {:induction false} PacksAround(before: seq<string>, s: string, after: seq<string>, current: string, maxLen: nat)
    requires maxLen > 0 && |Trim(s)| > maxLen
    ensures Pack(before + [s] + after, current, maxLen) ==
            Pack(before, current, maxLen) + ByLength(Trim(s), maxLen) + Pack(after, "", maxLen)
    decreases |before|
  {
    var all := before + [s] + after;
    if before == [] {
      TrimTwice(s);
      assert all[0] == s && all[1..] == after;
    } else {
      var (done, next) := AddSentence(current, Trim(before[0]), maxLen);
      assert all[0] == before[0] && all[1..] == before[1..] + [s] + after;
      PacksAround(before[1..], s, after, next, maxLen);
      var packed, long := Pack(before[1..], next, maxLen), ByLength(Trim(s), maxLen);
      Regroup(done, packed, long);
      Regroup(done, packed + long, Pack(after, "", maxLen));
      assert Pack(all, current, maxLen) == done + Pack(all[1..], next, maxLen);
    }
  }

  /** Lines are joined into paragraphs up to each blank line. */
  lemma {:induction false} ParagraphEnds(lines: seq<string>, current: seq<string>, n: nat)
    requires n <= |lines| && forall i | 0 <= i < n :: Trim(lines[i]) != ""
    ensures n == |lines| ==> Group(lines, current) == Flush(current + lines)
    ensures n < |lines| && Trim(lines[n]) == "" ==> Group(lines, current) == Flush(current + lines[..n]) + Group(lines[n + 1..], [])
    decreases n
  {
    if n > 0 {
      ParagraphEnds(lines[1..], current + [lines[0]], n - 1);
      assert current + [lines[0]] + lines[1..] == current + lines;
      assert n < |lines| ==> current + [lines[0]] + lines[1..][..n - 1] == current + lines[..n] && lines[1..][n..] == lines[n + 1..];
    } else {
      assert lines == [] ==> current + lines == current;
      assert current + lines[..0] == current;
    }
  }
}
