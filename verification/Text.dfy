/** Text helpers shared by the other modules: whitespace as Go's unicode package
    defines it, strings.TrimSpace, strings.Join on newlines, decimal numerals. */
module Text {

  datatype Option<+T> = None | Some(value: T) {
    /** The value, or a default when there is none. */
    function GetOr(default: T): T {
      match this
      case Some(v) => v
      case None => default
    }
  }

  /** unicode.IsSpace: the Latin-1 spaces and the other White_Space code points. */
  predicate IsSpace(c: char) {
    || '\t' <= c <= '\r'
    || c == ' ' || c == '\U{85}' || c == '\U{A0}' || c == '\U{1680}'
    || '\U{2000}' <= c <= '\U{200A}'
    || c == '\U{2028}' || c == '\U{2029}' || c == '\U{202F}'
    || c == '\U{205F}' || c == '\U{3000}'
  }

  function TrimLeft(s: string): (t: string)
    ensures |t| <= |s|
    ensures t != [] ==> !IsSpace(t[0])
  {
    if s != [] && IsSpace(s[0]) then TrimLeft(s[1..]) else s
  }

  function TrimRight(s: string): (t: string)
    ensures |t| <= |s|
    ensures t != [] ==> t[0] == s[0] && !IsSpace(t[|t| - 1])
  {
    if s != [] && IsSpace(s[|s| - 1]) then TrimRight(s[..|s| - 1]) else s
  }

  /** strings.TrimSpace. */
  function Trim(s: string): (t: string)
    ensures |t| <= |s|
    ensures t != [] ==> !IsSpace(t[0]) && !IsSpace(t[|t| - 1])
  {
    TrimRight(TrimLeft(s))
  }

  lemma TrimOfTrimmed(s: string)
    requires s != [] ==> !IsSpace(s[0]) && !IsSpace(s[|s| - 1])
    ensures Trim(s) == s
  {}

  /** Trimming twice is trimming once. */
  lemma TrimTwice(s: string)
    ensures Trim(Trim(s)) == Trim(s)
  {
    TrimOfTrimmed(Trim(s));
  }

  lemma {:induction false} TrimLeftCuts(s: string) returns (a: nat)
    ensures a <= |s| && TrimLeft(s) == s[a..] && forall i | 0 <= i < a :: IsSpace(s[i])
  {
    if s != [] && IsSpace(s[0]) {
      a := TrimLeftCuts(s[1..]);
      assert forall i | 0 < i <= a :: s[i] == s[1..][i - 1];
      a := a + 1;
    } else {
      a := 0;
    }
  }

  lemma {:induction false} TrimRightCuts(s: string) returns (b: nat)
    ensures b <= |s| && TrimRight(s) == s[..b] && forall i | b <= i < |s| :: IsSpace(s[i])
  {
    if s != [] && IsSpace(s[|s| - 1]) {
      b := TrimRightCuts(s[..|s| - 1]);
    } else {
      b := |s|;
    }
  }

  /** Trimming cuts off white space at both ends, and nothing else. */
  lemma TrimCuts(s: string) returns (a: nat, b: nat)
    ensures a <= b <= |s| && Trim(s) == s[a..b]
    ensures forall i | 0 <= i < |s| && !(a <= i < b) :: IsSpace(s[i])
  {
    a := TrimLeftCuts(s);
    b := TrimRightCuts(s[a..]);
    assert forall i | b <= i < |s| - a :: s[a..][i] == s[a + i];
    b := a + b;
  }

  lemma Regroup<T>(a: seq<T>, b: seq<T>, c: seq<T>)
    ensures (a + b) + c == a + (b + c)
  {}

  /** The runes of s that are not whitespace, in order. */
  function NonSpace(s: string): string {
    if s == [] then [] else (if IsSpace(s[0]) then [] else [s[0]]) + NonSpace(s[1..])
  }

  lemma {:induction false} NonSpaceConcat(a: string, b: string)
    ensures NonSpace(a + b) == NonSpace(a) + NonSpace(b)
  {
    if a == [] {
      assert a + b == b;
    } else {
      NonSpaceConcat(a[1..], b);
      assert (a + b)[1..] == a[1..] + b && (a + b)[0] == a[0];
    }
  }

  lemma {:induction false} NonSpaceTrimLeft(s: string)
    ensures NonSpace(TrimLeft(s)) == NonSpace(s)
  {
    if s != [] && IsSpace(s[0]) {
      NonSpaceTrimLeft(s[1..]);
    }
  }

  lemma {:induction false} NonSpaceTrimRight(s: string)
    ensures NonSpace(TrimRight(s)) == NonSpace(s)
  {
    if s != [] && IsSpace(s[|s| - 1]) {
      var front, last := s[..|s| - 1], s[|s| - 1..];
      NonSpaceTrimRight(front);
      NonSpaceConcat(front, last);
      assert s == front + last;
    }
  }

  /** Trimming drops whitespace only. */
  lemma NonSpaceTrim(s: string)
    ensures NonSpace(Trim(s)) == NonSpace(s)
  {
    NonSpaceTrimLeft(s);
    NonSpaceTrimRight(TrimLeft(s));
  }

  /** A text that trims to nothing holds whitespace only. */
  lemma BlankHasNoRunes(s: string)
    requires Trim(s) == []
    ensures NonSpace(s) == []
  {
    NonSpaceTrim(s);
  }

  function Digit(n: nat): (c: char)
    requires n < 10
  {
    "0123456789"[n]
  }

  /** The decimal numeral fmt's %d prints for a natural number. */
  function Decimal(n: nat): (s: string)
    ensures |s| >= 1
  {
    if n < 10 then [Digit(n)] else Decimal(n / 10) + [Digit(n % 10)]
  }

  /** A larger number never has a shorter numeral. */
  lemma {:induction false} DecimalLengthMonotone(m: nat, n: nat)
    requires m <= n
    ensures |Decimal(m)| <= |Decimal(n)|
  {
    if m >= 10 {
      DecimalLengthMonotone(m / 10, n / 10);
    }
  }

  predicate IsDigit(c: char) { '0' <= c <= '9' }

  function DigitValue(c: char): nat
    requires IsDigit(c)
  {
    (c as int) - ('0' as int)
  }

  /** The value of a run of digits. */
  function ParseDigits(s: string): Option<nat> {
    if s == [] || !IsDigit(s[|s| - 1]) then None
    else if |s| == 1 then Some(DigitValue(s[0]))
    else match ParseDigits(s[..|s| - 1])
      case None => None
      case Some(n) => Some(10 * n + DigitValue(s[|s| - 1]))
  }

  /** A numeral says its number, without leading zeros. */
  lemma {:induction false} DecimalParses(n: nat)
    ensures ParseDigits(Decimal(n)) == Some(n) && IsDigit(Decimal(n)[0]) && (n > 0 ==> Decimal(n)[0] != '0')
  {
    if n < 10 {
      DigitParses(n);
    } else {
      DecimalParses(n / 10);
      DigitParses(n % 10);
      var s := Decimal(n);
      assert s[..|s| - 1] == Decimal(n / 10);
    }
  }

  lemma DigitParses(n: nat)
    requires n < 10
    ensures IsDigit(Digit(n)) && DigitValue(Digit(n)) == n
  {}

  lemma {:induction false} DigitsOnly(s: string, i: nat)
    requires ParseDigits(s).Some? && i < |s|
    ensures IsDigit(s[i])
  {
    if i < |s| - 1 { DigitsOnly(s[..|s| - 1], i); }
  }

  /** d is the decimal numeral of n. */
  predicate IsNumeral(d: string, n: nat) {
    ParseDigits(d) == Some(n) && (|d| > 1 ==> d[0] != '0')
  }

  /** A number has just one numeral, the one that is printed. */
  lemma {:induction false} NumeralIsDecimal(d: string, n: nat)
    ensures IsNumeral(d, n) <==> d == Decimal(n)
  {
    DecimalParses(n);
    if IsNumeral(d, n) { OnlyNumeral(d, n); }
  }

  lemma {:induction false} OnlyNumeral(d: string, n: nat)
    requires IsNumeral(d, n)
    ensures d == Decimal(n) && (n == 0 ==> d == "0")
    decreases |d|
  {
    var last := |d| - 1;
    if last > 0 {
      var m := ParseDigits(d[..last]).value;
      OnlyNumeral(d[..last], m);
      assert m > 0;
      assert n / 10 == m && n % 10 == DigitValue(d[last]);
      assert d == d[..last] + [d[last]];
    }
  }

  // ---------------------------------------------------------------- lines

  /** strings.Split on newlines. */
  function Lines(s: string): (lines: seq<string>)
    ensures |lines| > 0
  {
    if s == [] then [""]
    else
      var rest := Lines(s[1..]);
      if s[0] == '\n' then [""] + rest else [[s[0]] + rest[0]] + rest[1..]
  }

  /** strings.Join with newlines. */
  function JoinLines(lines: seq<string>): string {
    if lines == [] then ""
    else if |lines| == 1 then lines[0]
    else lines[0] + "\n" + JoinLines(lines[1..])
  }

  predicate NoNewline(s: string) { forall i | 0 <= i < |s| :: s[i] != '\n' }

  predicate AllNoNewline(lines: seq<string>) { forall i | 0 <= i < |lines| :: NoNewline(lines[i]) }

  lemma {:induction false} LinesHaveNoNewline(s: string)
    ensures AllNoNewline(Lines(s))
  {
    if s != [] { LinesHaveNoNewline(s[1..]); }
  }

  lemma {:induction false} JoinOfLines(s: string)
    ensures JoinLines(Lines(s)) == s
  {
    if s != [] {
      var rest := Lines(s[1..]);
      JoinOfLines(s[1..]);
      if s[0] == '\n' {
        assert ([""] + rest)[1..] == rest;
      } else {
        assert ([[s[0]] + rest[0]] + rest[1..])[1..] == rest[1..];
      }
    }
  }

  lemma {:induction false} LinesOfJoin(lines: seq<string>)
    requires lines != [] && AllNoNewline(lines)
    ensures Lines(JoinLines(lines)) == lines
    decreases |lines|, |lines[0]|
  {
    if lines[0] == "" {
      if |lines| > 1 {
        LinesOfJoin(lines[1..]);
        assert JoinLines(lines)[1..] == JoinLines(lines[1..]);
      }
    } else {
      var lines' := [lines[0][1..]] + lines[1..];
      LinesOfJoin(lines');
      assert lines'[1..] == lines[1..];
      assert JoinLines(lines)[1..] == JoinLines(lines');
      assert [lines[0][0]] + lines'[0] == lines[0];
    }
  }
}
