/** UTF-8 byte strings: validity as section 4 of RFC 3629 defines it, and what Go's
    unicode/utf8 does with a byte string. */
module Utf8 {

  type Byte = b: int | 0 <= b < 256

  type Bytes = seq<Byte>

  function Concat(parts: seq<Bytes>): Bytes {
    if parts == [] then [] else parts[0] + Concat(parts[1..])
  }

  predicate Tail(b: Byte) { 0x80 <= b <= 0xBF }

  /** utf8.RuneStart. */
  predicate RuneStart(b: Byte) { !Tail(b) }

  /** The second byte of a sequence of three or four, whose range depends on the first. */
  predicate Second(first: Byte, b: Byte) {
    if first == 0xE0 then 0xA0 <= b <= 0xBF
    else if first == 0xED then 0x80 <= b <= 0x9F
    else if first == 0xF0 then 0x90 <= b <= 0xBF
    else if first == 0xF4 then 0x80 <= b <= 0x8F
    else Tail(b)
  }

  /** The length of the UTF-8 sequence at the start of s, or 0 when there is none. */
  function RuneSize(s: Bytes): (n: nat)
    ensures n <= 4 && n <= |s|
  {
    if s == [] then 0
    else if s[0] <= 0x7F then 1
    else if 0xC2 <= s[0] <= 0xDF then (if |s| >= 2 && Tail(s[1]) then 2 else 0)
    else if 0xE0 <= s[0] <= 0xEF then (if |s| >= 3 && Second(s[0], s[1]) && Tail(s[2]) then 3 else 0)
    else if 0xF0 <= s[0] <= 0xF4 then (if |s| >= 4 && Second(s[0], s[1]) && Tail(s[2]) && Tail(s[3]) then 4 else 0)
    else 0
  }

  /** utf8.ValidString. */
  predicate Valid(s: Bytes)
    decreases |s|
  {
    s == [] || (RuneSize(s) > 0 && Valid(s[RuneSize(s)..]))
  }

  /** The size utf8.DecodeRuneInString returns: one for a byte that starts no sequence. */
  function DecodeSize(s: Bytes): nat {
    if s == [] then 0 else if RuneSize(s) > 0 then RuneSize(s) else 1
  }

  /** s begins with the encoding of the character number cp in n bytes, by the table in section 3
      of RFC 3629: the shortest that holds it, and none for the surrogates. */
  predicate Encodes(s: Bytes, n: nat, cp: nat) {
    && n <= |s|
    && match n
       case 1 => cp == s[0] && cp <= 0x7F
       case 2 => 0x80 <= cp <= 0x7FF && Tail(s[1]) && cp == 64 * (s[0] as int - 0xC0) + (s[1] as int - 0x80)
       case 3 =>
         && 0x800 <= cp <= 0xFFFF && !(0xD800 <= cp <= 0xDFFF)
         && Tail(s[1]) && Tail(s[2]) && cp == 4096 * (s[0] as int - 0xE0) + 64 * (s[1] as int - 0x80) + (s[2] as int - 0x80)
       case 4 =>
         && 0x10000 <= cp <= 0x10FFFF && Tail(s[1]) && Tail(s[2]) && Tail(s[3])
         && cp == 262144 * (s[0] as int - 0xF0) + 4096 * (s[1] as int - 0x80) + 64 * (s[2] as int - 0x80) + (s[3] as int - 0x80)
       case _ => false
  }

  /** The number that a first byte and continuation bytes spell. */
  function Spelled(s: Bytes, n: nat): int
    requires 1 <= n <= 4 && n <= |s|
  {
    if n == 1 then s[0]
    else if n == 2 then 64 * (s[0] as int - 0xC0) + (s[1] as int - 0x80)
    else if n == 3 then 4096 * (s[0] as int - 0xE0) + 64 * (s[1] as int - 0x80) + (s[2] as int - 0x80)
    else 262144 * (s[0] as int - 0xF0) + 4096 * (s[1] as int - 0x80) + 64 * (s[2] as int - 0x80) + (s[3] as int - 0x80)
  }

  /** There is a sequence of n bytes at the start of s exactly when those encode a character. */
  lemma SequencesEncode(s: Bytes, n: nat)
    requires n > 0
    ensures RuneSize(s) == n <==> exists cp :: Encodes(s, n, cp)
  {
    if RuneSize(s) == n { assert Encodes(s, n, Spelled(s, n)); }
  }

  /** The sequence at the start does not depend on what follows it. */
  lemma RuneSizeOfPrefix(s: Bytes, e: nat)
    requires e <= |s|
    ensures RuneSize(s[..e]) > 0 ==> RuneSize(s) == RuneSize(s[..e])
    ensures 0 < RuneSize(s) <= e ==> RuneSize(s[..e]) == RuneSize(s)
  {}

  lemma RuneSizeAppend(a: Bytes, b: Bytes)
    requires RuneSize(a) > 0
    ensures RuneSize(a + b) == RuneSize(a) && (a + b)[RuneSize(a)..] == a[RuneSize(a)..] + b
  {
    assert (a + b)[..|a|] == a;
    RuneSizeOfPrefix(a + b, |a|);
  }

  /** Valid texts concatenate. */
  lemma {:induction false} ValidConcat(a: Bytes, b: Bytes)
    requires Valid(a) && Valid(b)
    ensures Valid(a + b)
    decreases |a|
  {
    if a == [] {
      assert a + b == b;
    } else {
      RuneSizeAppend(a, b);
      ValidConcat(a[RuneSize(a)..], b);
    }
  }

  lemma {:induction false} ValidRest(a: Bytes, b: Bytes)
    requires Valid(a + b) && Valid(a)
    ensures Valid(b)
    decreases |a|
  {
    if a == [] {
      assert a + b == b;
    } else {
      RuneSizeAppend(a, b);
      ValidRest(a[RuneSize(a)..], b);
    }
  }

  /** What is left of a valid text after a valid prefix is valid. */
  lemma ValidSuffix(s: Bytes, e: nat)
    requires Valid(s) && e <= |s| && Valid(s[..e])
    ensures Valid(s[e..])
  {
    assert s == s[..e] + s[e..];
    ValidRest(s[..e], s[e..]);
  }

  lemma SliceOfSlice(s: Bytes, n: nat, k: nat)
    requires n + k <= |s|
    ensures s[..n + k][n..] == s[n..][..k]
  {
    var a, b := s[..n + k][n..], s[n..][..k];
    assert |a| == |b| && forall i | 0 <= i < k :: a[i] == s[n + i] == b[i];
  }

  /** A boundary inside the rest of a valid text is one of the whole text. */
  lemma BoundaryAfterRune(s: Bytes, k: nat)
    requires Valid(s) && s != [] && k <= |s| - RuneSize(s) && Valid(s[RuneSize(s)..][..k])
    ensures Valid(s[..RuneSize(s) + k])
  {
    var n := RuneSize(s);
    RuneSizeOfPrefix(s, n + k);
    SliceOfSlice(s, n, k);
  }

  lemma TailInside(s: Bytes, i: nat)
    requires 0 < i < RuneSize(s)
    ensures Tail(s[i])
  {}

  /** In a valid text a byte that is no continuation byte starts a sequence. */
  lemma {:induction false} BoundaryAtStart(s: Bytes, i: nat)
    requires Valid(s) && i < |s| && RuneStart(s[i])
    ensures Valid(s[..i])
    decreases |s|
  {
    var n := RuneSize(s);
    if 0 < i < n {
      TailInside(s, i);
    } else if i > 0 {
      BoundaryAtStart(s[n..], i - n);
      BoundaryAfterRune(s, i - n);
    }
  }

  /** Among any four consecutive positions of a valid text one is a boundary. */
  lemma {:induction false} BoundaryNear(s: Bytes, e: nat) returns (k: nat)
    requires Valid(s) && e <= |s|
    ensures k <= e <= k + 3 && Valid(s[..k])
    decreases |s|
  {
    var n := RuneSize(s);
    if e < n || s == [] {
      k := 0;
    } else {
      var j := BoundaryNear(s[n..], e - n);
      BoundaryAfterRune(s, j);
      k := n + j;
    }
  }
}
