/** splitMessage (core/engine.go): long messages cut into chunks of at most maxLen bytes,
    preferably after a newline and never inside a UTF-8 sequence. */
module SplitMessage {
  import opened Arithmetic
  import opened Utf8

  const NL: Byte := 10

  /** strings.LastIndex of a newline. */
  function LastNewline(s: Bytes): (i: int)
    ensures -1 <= i < |s|
    ensures i >= 0 ==> s[i] == NL
  {
    if s == [] then -1 else if s[|s| - 1] == NL then |s| - 1 else LastNewline(s[..|s| - 1])
  }

  /** The longest valid prefix of s of at most e bytes. */
  function LongestValid(s: Bytes, e: nat): (k: nat)
    requires e <= |s|
    ensures k <= e && Valid(s[..k])
    ensures forall j | k < j <= e :: !Valid(s[..j])
  {
    if e == 0 || Valid(s[..e]) then e else LongestValid(s, e - 1)
  }

  /** Where the newline preference puts the cut. */
  function Preferred(text: Bytes, maxLen: nat): (end: nat)
    requires maxLen < |text|
    ensures end <= maxLen
  {
    var idx := LastNewline(text[..maxLen]);
    if idx > 0 && idx >= maxLen / 2 then idx + 1 else maxLen
  }

  /** Where the next chunk of a text that is too long ends. */
  function Cut(text: Bytes, maxLen: nat): (end: nat)
    requires maxLen < |text|
    ensures 0 < end <= |text|
  {
    var end := LongestValid(text, Preferred(text, maxLen));
    if end == 0 then DecodeSize(text) else end
  }

  /** The chunks the loop makes of a text. */
  function Chunks(text: Bytes, maxLen: nat): seq<Bytes>
    decreases |text|
  {
    if text == [] then []
    else if |text| <= maxLen then [text]
    else [text[..Cut(text, maxLen)]] + Chunks(text[Cut(text, maxLen)..], maxLen)
  }

  /** splitMessage, as a function. A negative maxLen makes the program index out of range. */
  function Split(text: Bytes, maxLen: nat): seq<Bytes> {
    if |text| <= maxLen then [text] else Chunks(text, maxLen)
  }

  /** Where splitMessage ends the next chunk. */
  method FindCut(text: Bytes, maxLen: nat) returns (end: nat)
    requires maxLen < |text|
    ensures end == Cut(text, maxLen)
  {
    end := maxLen;
    var idx := LastNewline(text[..end]);
    if idx > 0 && idx >= end / 2 { end := idx + 1; }
    while end > 0 && !Valid(text[..end])
      invariant end <= Preferred(text, maxLen)
      invariant LongestValid(text, end) == LongestValid(text, Preferred(text, maxLen))
    {
      end := end - 1;
    }
    if end == 0 {
      var size: int := DecodeSize(text);
      if size <= 0 { size := 1; }
      end := size;
    }
  }

  /** splitMessage. */
  method SplitText(text: Bytes, maxLen: nat) returns (chunks: seq<Bytes>)
    ensures chunks == Split(text, maxLen)
  {
    if |text| <= maxLen { return [text]; }
    chunks := [];
    var rest := text;
    while |rest| > 0
      invariant chunks + Chunks(rest, maxLen) == Chunks(text, maxLen)
      decreases |rest|
    {
      if |rest| <= maxLen {
        chunks := chunks + [rest];
        break;
      }
      var end := FindCut(rest, maxLen);
      chunks, rest := chunks + [rest[..end]], rest[end..];
    }
  }

  // ---------------------------------------------------------------- nothing is lost

  lemma {:induction false} ChunksConcat(text: Bytes, maxLen: nat)
    ensures Concat(Chunks(text, maxLen)) == text
    ensures forall i | 0 <= i < |Chunks(text, maxLen)| :: Chunks(text, maxLen)[i] != []
    decreases |text|
  {
    if |text| > maxLen {
      var end := Cut(text, maxLen);
      var first, rest := text[..end], Chunks(text[end..], maxLen);
      ChunksConcat(text[end..], maxLen);
      assert Chunks(text, maxLen) == [first] + rest;
      assert ([first] + rest)[1..] == rest;
      assert text == first + text[end..];
    } else if text != [] {
      assert Concat([text]) == text + Concat([]);
    }
  }

  /** For arbitrary bytes and any limit the chunks concatenate to the text. */
  lemma SplitKeepsText(text: Bytes, maxLen: nat)
    ensures Concat(Split(text, maxLen)) == text
    ensures text != [] ==> forall i | 0 <= i < |Split(text, maxLen)| :: Split(text, maxLen)[i] != []
  {
    ChunksConcat(text, maxLen);
    if |text| <= maxLen { assert Concat([text]) == text + Concat([]); }
  }

  // ---------------------------------------------------------------- valid texts

  /** A chunk is valid, and within the limit unless it is one sequence that is longer. */
  predicate GoodChunk(c: Bytes, maxLen: nat) {
    Valid(c) && (|c| <= maxLen || (maxLen < 4 && RuneSize(c) == |c|))
  }

  lemma CutIsGood(text: Bytes, maxLen: nat)
    requires Valid(text) && maxLen < |text|
    ensures GoodChunk(text[..Cut(text, maxLen)], maxLen) && Valid(text[Cut(text, maxLen)..])
  {
    var end := Cut(text, maxLen);
    if LongestValid(text, Preferred(text, maxLen)) == 0 {
      RuneSizeOfPrefix(text, end);
      assert text[..end][end..] == [];
    }
    ValidSuffix(text, end);
  }

  lemma {:induction false} ChunksAreGood(text: Bytes, maxLen: nat)
    requires Valid(text)
    ensures forall i | 0 <= i < |Chunks(text, maxLen)| :: GoodChunk(Chunks(text, maxLen)[i], maxLen)
    decreases |text|
  {
    if |text| > maxLen {
      CutIsGood(text, maxLen);
      ChunksAreGood(text[Cut(text, maxLen)..], maxLen);
    }
  }

  /** Every chunk of a valid text is valid, and from a limit of four bytes on within the limit. */
  lemma SplitOfValid(text: Bytes, maxLen: nat, i: nat)
    requires Valid(text) && i < |Split(text, maxLen)|
    ensures Valid(Split(text, maxLen)[i])
    ensures maxLen >= 4 ==> |Split(text, maxLen)[i]| <= maxLen
  {
    ChunksAreGood(text, maxLen);
    if |text| > maxLen { assert GoodChunk(Chunks(text, maxLen)[i], maxLen); }
  }

  /** Of a valid text, a chunk that is not the last takes at least half the limit. */
  lemma CutIsLong(text: Bytes, maxLen: nat)
    requires Valid(text) && 6 <= maxLen < |text|
    ensures 2 * Cut(text, maxLen) >= maxLen
  {
    var end := Preferred(text, maxLen);
    var idx := LastNewline(text[..maxLen]);
    if idx > 0 && idx >= maxLen / 2 {
      assert text[idx] == text[..maxLen][idx] == NL;
      NewlineIsBoundary(text, idx);
    } else {
      var k := BoundaryNear(text, end);
      assert LongestValid(text, end) >= k;
    }
  }

  /** The last newline of the window, not in its first half and not its first byte. */
  predicate LateNewline(text: Bytes, maxLen: nat, p: nat) {
    && 0 < p < maxLen < |text| && p >= maxLen / 2 && text[p] == 10
    && forall i | p < i < maxLen :: text[i] != 10
  }

  lemma {:induction false} LastNewlineIsLast(s: Bytes)
    ensures forall i | LastNewline(s) < i < |s| :: s[i] != 10
  {
    if s != [] && s[|s| - 1] != NL { LastNewlineIsLast(s[..|s| - 1]); }
  }

  /** A text that is too long is cut behind the last newline of its window, unless that is in the
      first half. */
  lemma CutsBehindNewline(text: Bytes, maxLen: nat, p: nat)
    requires Valid(text) && LateNewline(text, maxLen, p)
    ensures Cut(text, maxLen) == p + 1
  {
    var window := text[..maxLen];
    LastNewlineIsLast(window);
    assert window[p] == 10;
    assert LastNewline(window) == p;
    NewlineIsBoundary(text, p);
  }

  lemma NewlineIsBoundary(text: Bytes, p: nat)
    requires Valid(text) && p < |text| && text[p] == 10
    ensures Valid(text[..p + 1])
  {
    BoundaryAtStart(text, p);
    ValidSuffix(text, p);
    assert RuneSize(text[p..]) == 1;
    assert Valid(text[p..][..1]) by { assert text[p..][..1][1..] == []; }
    ValidConcat(text[..p], text[p..][..1]);
    assert text[..p + 1] == text[..p] + text[p..][..1];
  }

  /** Without such a newline it is cut as late as the limit and the UTF-8 sequences allow, or
      behind its first sequence when the limit is shorter than that. */
  lemma CutsAtLimit(text: Bytes, maxLen: nat)
    requires maxLen < |text| && forall p :: !LateNewline(text, maxLen, p)
    ensures var cut := Cut(text, maxLen);
      if exists j :: 0 < j <= maxLen && Valid(text[..j])
      then cut <= maxLen && Valid(text[..cut]) && forall j | cut < j <= maxLen :: !Valid(text[..j])
      else cut == if RuneSize(text) > 0 then RuneSize(text) else 1
  {
    var window := text[..maxLen];
    LastNewlineIsLast(window);
    var idx := LastNewline(window);
    if idx > 0 && idx >= maxLen / 2 {
      assert forall i | idx < i < maxLen :: text[i] == window[i];
      assert text[idx] == window[idx] && LateNewline(text, maxLen, idx);
    }
  }

  /** Each chunk but the last one is what is cut off the text that is left. */
  lemma {:induction false} ChunkIsCutOff(text: Bytes, maxLen: nat, i: nat)
    requires i + 1 < |Chunks(text, maxLen)|
    ensures var rest := Concat(Chunks(text, maxLen)[i..]);
      maxLen < |rest| && Chunks(text, maxLen)[i] == rest[..Cut(rest, maxLen)] && (Valid(text) ==> Valid(rest))
    decreases i
  {
    var cut := Cut(text, maxLen);
    var more := Chunks(text[cut..], maxLen);
    assert Chunks(text, maxLen) == [text[..cut]] + more;
    if i == 0 {
      ChunksConcat(text, maxLen);
      assert Chunks(text, maxLen)[0..] == Chunks(text, maxLen);
    } else {
      ChunkIsCutOff(text[cut..], maxLen, i - 1);
      assert Chunks(text, maxLen)[i..] == more[i - 1..];
      if Valid(text) { CutIsGood(text, maxLen); }
    }
  }

  /** So a chunk of a valid text that is not the last ends behind the last newline of the window,
      when that is in its second half. */
  lemma ChunkEndsAtNewline(text: Bytes, maxLen: nat, i: nat, p: nat)
    requires Valid(text) && i + 1 < |Split(text, maxLen)|
    requires LateNewline(Concat(Split(text, maxLen)[i..]), maxLen, p)
    ensures Split(text, maxLen)[i] == Concat(Split(text, maxLen)[i..])[..p + 1]
  {
    ChunkIsCutOff(text, maxLen, i);
    CutsBehindNewline(Concat(Split(text, maxLen)[i..]), maxLen, p);
  }

  lemma OneMoreChunk(n: nat, cut: nat, left: nat, maxLen: nat)
    requires n * maxLen <= 2 * left + maxLen && 2 * cut >= maxLen
    ensures (n + 1) * maxLen <= 2 * (cut + left) + maxLen
  {}

  lemma {:induction false} ChunkCount(text: Bytes, maxLen: nat)
    requires Valid(text) && maxLen >= 6
    ensures |Chunks(text, maxLen)| * maxLen <= 2 * |text| + maxLen
    decreases |text|
  {
    if |text| > maxLen {
      var cut := Cut(text, maxLen);
      CutIsLong(text, maxLen);
      CutIsGood(text, maxLen);
      ChunkCount(text[cut..], maxLen);
      OneMoreChunk(|Chunks(text[cut..], maxLen)|, cut, |text[cut..]|, maxLen);
      assert |Chunks(text, maxLen)| == |Chunks(text[cut..], maxLen)| + 1;
    } else {
      MulUp(|Chunks(text, maxLen)|, 1, maxLen);
    }
  }

  lemma SplitCount(text: Bytes, maxLen: nat)
    requires Valid(text) && maxLen >= 6
    ensures |Split(text, maxLen)| * maxLen <= 2 * |text| + maxLen
  {
    if |text| > maxLen { ChunkCount(text, maxLen); } else { MulUp(|Split(text, maxLen)|, 1, maxLen); }
  }

  /** A valid text and a limit of at least six bytes give at most 2 * len / maxLen + 1 chunks. */
  lemma FewChunks(text: Bytes, maxLen: nat)
    requires Valid(text) && maxLen >= 6
    ensures |Split(text, maxLen)| <= 2 * |text| / maxLen + 1
  {
    SplitCount(text, maxLen);
    AtMostQuotient(|Split(text, maxLen)|, 2 * |text|, maxLen);
  }
}
