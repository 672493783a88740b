/** ParseLoopIntervalSpec (core/cron.go): intervals such as "10m", as 64-bit nanoseconds. */
module LoopInterval {
  import opened Text

  const SECOND: int := 1_000_000_000
  const MIN_INTERVAL := 5 * SECOND        // minLoopInterval
  const MAX_INT64 := 0x7FFF_FFFF_FFFF_FFFF
  const TWO_TO_64 := 0x1_0000_0000_0000_0000

  /** Conversion to int64: what a product of time.Duration wraps to. */
  function Wrap64(n: int): (w: int)
    ensures -MAX_INT64 - 1 <= w <= MAX_INT64
  {
    var m := n % TWO_TO_64;
    if m <= MAX_INT64 then m else m - TWO_TO_64
  }

  /** strings.ToLower, for the letters that matter here: no rune beyond ASCII becomes a digit,
      a sign or a unit. */
  function LowerChar(c: char): char { if 'A' <= c <= 'Z' then c - 'A' + 'a' else c }

  function Lower(s: string): string {
    seq(|s|, i requires 0 <= i < |s| => LowerChar(s[i]))
  }

  /** strconv.Atoi. */
  function Atoi(s: string): Option<int> {
    if s == [] then None
    else
      var negative := s[0] == '-';
      match ParseDigits(if negative || s[0] == '+' then s[1..] else s)
      case None => None
      case Some(n) =>
        var magnitude: int := n;
        var value := if negative then -magnitude else magnitude;
        if -MAX_INT64 - 1 <= value <= MAX_INT64 then Some(value) else None
  }

  /** The nanoseconds of a unit, or None. */
  function Unit(c: char): Option<int> {
    if c == 's' then Some(SECOND) else if c == 'm' then Some(60 * SECOND)
    else if c == 'h' then Some(3600 * SECOND) else if c == 'd' then Some(24 * 3600 * SECOND)
    else None
  }

  /** What an interval says: a number, a unit, and the duration the program computes. */
  datatype Interval = Interval(value: nat, unit: char, nanos: int)

  /** The part of Parse after trimming and lowering. */
  function ParseSpec(spec: string): Option<Interval> {
    if |spec| < 2 then None
    else
      var unit := spec[|spec| - 1];
      match Atoi(spec[..|spec| - 1])
      case None => None
      case Some(value) =>
        if value <= 0 || Unit(unit).None? then None
        else
          var nanos := Wrap64(value * Unit(unit).value);
          if nanos < MIN_INTERVAL then None else Some(Interval(value, unit, nanos))
  }

  /** ParseLoopIntervalSpec: the interval, or None for its errors. */
  function Parse(text: string): Option<Interval> { ParseSpec(Lower(Trim(text))) }

  /** The normalized text. */
  function Normal(i: Interval): string { Decimal(i.value) + [i.unit] }

  // ---------------------------------------------------------------- normal texts

  lemma AtoiOfDecimal(n: nat)
    requires n <= MAX_INT64
    ensures Atoi(Decimal(n)) == Some(n)
  {
    DecimalParses(n);
  }

  /** Neither trimming nor lowering changes a normalized text. */
  lemma NormalKept(n: nat, unit: char)
    requires Unit(unit).Some?
    ensures var s := Decimal(n) + [unit]; Lower(Trim(s)) == s
  {
    var s := Decimal(n) + [unit];
    DecimalParses(n);
    forall k | 0 <= k < |s| ensures LowerChar(s[k]) == s[k] {
      if k < |s| - 1 { DigitsOnly(Decimal(n), k); }
    }
    TrimOfTrimmed(s);
  }

  lemma ParsedFits(spec: string)
    requires ParseSpec(spec).Some?
    ensures var i := ParseSpec(spec).value;
      0 < i.value <= MAX_INT64 && Unit(i.unit).Some? && i.nanos == Wrap64(i.value * Unit(i.unit).value) >= MIN_INTERVAL
  {}

  /** The normalized text parses to the same interval again. */
  lemma {:induction false} NormalIsStable(text: string)
    requires Parse(text).Some?
    ensures Parse(Normal(Parse(text).value)) == Parse(text)
  {
    var i := Parse(text).value;
    ParsedFits(Lower(Trim(text)));
    NormalKept(i.value, i.unit);
    AtoiOfDecimal(i.value);
    assert Normal(i)[..|Normal(i)| - 1] == Decimal(i.value);
  }

  lemma WrapExact(n: nat)
    ensures Wrap64(n) == n <==> n <= MAX_INT64
  {}

  /** How many nanoseconds an interval says. */
  ghost predicate Says(value: nat, unit: char, nanos: int) {
    || (unit == 's' && nanos == value * 1_000_000_000)
    || (unit == 'm' && nanos == value * 60_000_000_000)
    || (unit == 'h' && nanos == value * 3_600_000_000_000)
    || (unit == 'd' && nanos == value * 86_400_000_000_000)
  }

  /** The duration is the one the interval says exactly when that fits into 64 bits. */
  lemma DurationExact(text: string) returns (said: int)
    requires Parse(text).Some?
    ensures var i := Parse(text).value;
      Says(i.value, i.unit, said) && 5_000_000_000 <= i.nanos && (i.nanos == said <==> said <= 0x7FFF_FFFF_FFFF_FFFF)
  {
    var i := Parse(text).value;
    ParsedFits(Lower(Trim(text)));
    said := i.value * Unit(i.unit).value;
    WrapExact(said);
  }

  /** A plain interval that fits into 64 bits is accepted if and only if it says five seconds
      or more, with the duration it says. */
  lemma PlainParses(value: nat, unit: char, said: int)
    requires Says(value, unit, said) && said <= 0x7FFF_FFFF_FFFF_FFFF
    ensures Parse(Decimal(value) + [unit]) == if said >= 5_000_000_000 then Some(Interval(value, unit, said)) else None
  {
    var text := Decimal(value) + [unit];
    NormalKept(value, unit);
    AtoiOfDecimal(value);
    assert text[..|text| - 1] == Decimal(value);
    WrapExact(said);
  }

  /** When it does not fit, the interval can still be accepted: 213504 days become some 25 minutes. */
  lemma LongIntervalWraps()
    ensures Parse("213504d") == Some(Interval(213504, 'd', 1526290448384))
  {
    var s := "213504d";
    assert Lower(s) == s;
    TrimOfTrimmed(s);
    assert s[..6] == "213504";
    DigitsOf213504();
  }

  lemma DigitsOf213504()
    ensures ParseDigits("213504") == Some(213504)
  {
    assert "213504"[..5] == "21350" && "21350"[..4] == "2135" && "2135"[..3] == "213" && "213"[..2] == "21" && "21"[..1] == "2";
    assert ParseDigits("21") == Some(21);
    assert ParseDigits("2135") == Some(2135);
    assert ParseDigits("213504") == Some(213504);
  }

  lemma PlusKept(n: nat, unit: char)
    requires Unit(unit).Some?
    ensures var s := "+" + (Decimal(n) + [unit]); Lower(Trim(s)) == s
  {
    var plain := Decimal(n) + [unit];
    var s := "+" + plain;
    DecimalParses(n);
    forall k | 0 <= k < |s| ensures LowerChar(s[k]) == s[k] {
      if 0 < k < |s| - 1 { DigitsOnly(Decimal(n), k - 1); }
    }
    TrimOfTrimmed(s);
  }

  lemma PlusAtoi(n: nat)
    ensures Atoi("+" + Decimal(n)) == Atoi(Decimal(n))
  {
    DecimalParses(n);
    assert ("+" + Decimal(n))[1..] == Decimal(n);
  }

  lemma SpecOfParts(number: string, unit: char)
    requires number != ""
    ensures ParseSpec(number + [unit]) ==
      match Atoi(number)
      case None => None
      case Some(value) =>
        if value <= 0 || Unit(unit).None? || Wrap64(value * Unit(unit).value) < MIN_INTERVAL then None
        else Some(Interval(value, unit, Wrap64(value * Unit(unit).value)))
  {
    var spec := number + [unit];
    assert spec[..|spec| - 1] == number;
  }

  /** A plus sign in front of the number says nothing. */
  lemma PlusParses(n: nat, unit: char)
    requires Unit(unit).Some?
    ensures Parse("+" + (Decimal(n) + [unit])) == Parse(Decimal(n) + [unit])
  {
    NormalKept(n, unit);
    PlusKept(n, unit);
    PlusAtoi(n);
    SpecOfParts(Decimal(n), unit);
    SpecOfParts("+" + Decimal(n), unit);
    Regroup("+", Decimal(n), [unit]);
  }

  /** Upper case and surrounding space do not matter. */
  lemma UpperParses()
    ensures Parse(" 1H") == Parse("1h")
  {
    assert " 1H"[1..] == "1H";
    TrimOfTrimmed("1H");
    TrimOfTrimmed("1h");
    assert Lower("1H") == Lower("1h");
  }

  lemma SomeParse()
    ensures Parse("1h") == Some(Interval(1, 'h', 3_600_000_000_000))
    ensures Parse("30s") == Some(Interval(30, 's', 30_000_000_000))
    ensures Parse("4s") == None
  {
    assert Decimal(1) == "1" && Decimal(3) == "3" && Decimal(4) == "4" && Decimal(30) == "30";
    PlainParses(1, 'h', 3_600_000_000_000);
    PlainParses(30, 's', 30_000_000_000);
    PlainParses(4, 's', 4_000_000_000);
    assert Decimal(1) + ['h'] == "1h" && Decimal(30) + ['s'] == "30s" && Decimal(4) + ['s'] == "4s";
  }

  lemma TenMinutesParse()
    ensures Parse("10m") == Some(Interval(10, 'm', 600_000_000_000)) && Normal(Parse("10m").value) == "10m"
  {
    assert Decimal(1) == "1" && Decimal(10) == "10";
    PlainParses(10, 'm', 600_000_000_000);
    assert Decimal(10) + ['m'] == "10m";
  }
}
