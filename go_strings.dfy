/**
 * The pieces of Go's standard library that the provider's mappers lean on:
 * strings.Split and strings.Join with the separator ",", strings.TrimSpace,
 * strconv.ParseInt(s, 10, 32), fmt.Sprint of an int32 and the int32(x)
 * conversion.  Strings are sequences of characters; Go works on UTF-8 bytes,
 * which makes no difference for the separator, the digits and the white space.
 */
module GoStrings {
  import opened Wrappers

  const MinInt32: int := -0x8000_0000
  const MaxInt32: int := 0x7FFF_FFFF

  /** Values of Go's int32. */
  type Int32 = x: int | MinInt32 <= x <= MaxInt32

  /** Go's `int32(x)` conversion: keep the low 32 bits, read them as two's complement. */
  function WrapInt32(x: int): (r: Int32)
    ensures MinInt32 <= x <= MaxInt32 ==> r == x
    ensures (x - r) % 0x1_0000_0000 == 0
  {
    (x + 0x8000_0000) % 0x1_0000_0000 - 0x8000_0000
  }

  // ---------------------------------------------------------------------------
  // strings.Split(s, ",") and strings.Join(parts, ",")
  // ---------------------------------------------------------------------------

  const Comma: char := ','

  /** strings.Split(s, ","): the pieces between commas; "" gives [""]. */
  function Split(s: string): (parts: seq<string>)
    ensures |parts| >= 1
    ensures forall i :: 0 <= i < |parts| ==> Comma !in parts[i]
    decreases |s|
  {
    if |s| == 0 then [""]
    else
      var rest := Split(s[1..]);
      if s[0] == Comma then [""] + rest
      else [[s[0]] + rest[0]] + rest[1..]
  }

  /** strings.Join(parts, ","). */
  function Join(parts: seq<string>): string
  {
    if |parts| == 0 then ""
    else if |parts| == 1 then parts[0]
    else parts[0] + [Comma] + Join(parts[1..])
  }

  /** Joining the pieces of a split gives back the string. */
  lemma {:induction false} JoinSplit(s: string)
    ensures Join(Split(s)) == s
    decreases |s|
  {
    if |s| > 0 {
      var rest := Split(s[1..]);
      JoinSplit(s[1..]);
      if s[0] == Comma {
        assert Split(s) == [""] + rest;
        assert Join(Split(s)) == "" + [Comma] + Join(rest);
        assert s == [s[0]] + s[1..];
      } else {
        assert Split(s) == [[s[0]] + rest[0]] + rest[1..];
        if |rest| == 1 {
          assert Join(rest) == rest[0];
        } else {
          assert Join(rest) == rest[0] + [Comma] + Join(rest[1..]);
          assert Split(s)[1..] == rest[1..];
        }
        assert s == [s[0]] + s[1..];
      }
    }
  }

  /** Splitting `a + rest`, where `a` holds no comma, glues `a` onto the first piece of `rest`. */
  lemma {:induction false} SplitPrefix(a: string, rest: string)
    requires Comma !in a
    ensures Split(a + rest) == [a + Split(rest)[0]] + Split(rest)[1..]
    decreases |a|
  {
    if |a| > 0 {
      SplitPrefix(a[1..], rest);
      assert (a + rest)[1..] == a[1..] + rest;
      assert (a + rest)[0] == a[0];
      assert [a[0]] + (a[1..] + Split(rest)[0]) == a + Split(rest)[0];
    } else {
      assert a + rest == rest;
      assert a + Split(rest)[0] == Split(rest)[0];
      assert Split(rest) == [Split(rest)[0]] + Split(rest)[1..];
    }
  }

  /** Splitting a join of comma-free pieces gives back the pieces. */
  lemma {:induction false} SplitJoin(parts: seq<string>)
    requires |parts| >= 1
    requires forall i :: 0 <= i < |parts| ==> Comma !in parts[i]
    ensures Split(Join(parts)) == parts
    decreases |parts|
  {
    if |parts| == 1 {
      SplitPrefix(parts[0], "");
      assert parts[0] + "" == parts[0];
    } else {
      var tail := Join(parts[1..]);
      SplitJoin(parts[1..]);
      var rest := [Comma] + tail;
      assert Split(rest) == [""] + Split(tail) by {
        assert rest[0] == Comma && rest[1..] == tail;
      }
      SplitPrefix(parts[0], rest);
      assert parts[0] + rest == Join(parts);
      assert parts[0] + "" == parts[0];
      assert parts == [parts[0]] + parts[1..];
    }
  }

  // ---------------------------------------------------------------------------
  // strings.TrimSpace
  // ---------------------------------------------------------------------------

  /** unicode.IsSpace: the Latin-1 spaces and the other White_Space code points. */
  predicate IsSpace(c: char)
  {
    var n := c as int;
    n == 0x20 || 0x09 <= n <= 0x0D || n == 0x85 || n == 0xA0 || n == 0x1680
    || 0x2000 <= n <= 0x200A || n == 0x2028 || n == 0x2029 || n == 0x202F
    || n == 0x205F || n == 0x3000
  }

  /** Drop leading white space; what is kept does not start with it (TrimLeftDropsBlank: what is dropped is white space). */
  function TrimLeft(s: string): (r: string)
    ensures |r| <= |s| && r == s[|s| - |r|..]
    ensures r == [] || !IsSpace(r[0])
    decreases |s|
  {
    if |s| > 0 && IsSpace(s[0]) then TrimLeft(s[1..]) else s
  }

  /** What TrimLeft drops is white space. */
  lemma {:induction false} TrimLeftDropsBlank(s: string)
    ensures Blank(s[..|s| - |TrimLeft(s)|])
    decreases |s|
  {
    if |s| > 0 && IsSpace(s[0]) {
      var k := |s| - |TrimLeft(s)|;
      TrimLeftDropsBlank(s[1..]);
      assert s[..k] == [s[0]] + s[1..][..k - 1];
    }
  }

  /** Drop trailing white space; what is kept does not end with it (TrimRightDropsBlank: what is dropped is white space). */
  function TrimRight(s: string): (r: string)
    ensures |r| <= |s| && r == s[..|r|]
    ensures r == [] || !IsSpace(r[|r| - 1])
    decreases |s|
  {
    if |s| > 0 && IsSpace(s[|s| - 1]) then TrimRight(s[..|s| - 1]) else s
  }

  /** What TrimRight drops is white space. */
  lemma {:induction false} TrimRightDropsBlank(s: string)
    ensures Blank(s[|TrimRight(s)|..])
    decreases |s|
  {
    if |s| > 0 && IsSpace(s[|s| - 1]) {
      var k := |TrimRight(s)|;
      TrimRightDropsBlank(s[..|s| - 1]);
      assert s[k..] == s[..|s| - 1][k..] + [s[|s| - 1]];
    }
  }

  /** strings.TrimSpace: drop leading and trailing white space. */
  function TrimSpace(s: string): (r: string)
    ensures r == [] || (!IsSpace(r[0]) && !IsSpace(r[|r| - 1]))
    ensures s == [] || (!IsSpace(s[0]) && !IsSpace(s[|s| - 1])) ==> r == s
  {
    TrimRight(TrimLeft(s))
  }

  /** TrimSpace removes white space at both ends and nothing else: it keeps a slice of `s` with blank surroundings. */
  lemma TrimSpaceStripsEnds(s: string)
    ensures exists a, b :: 0 <= a <= b <= |s| && TrimSpace(s) == s[a..b] && Blank(s[..a]) && Blank(s[b..])
  {
    var left := TrimLeft(s);
    var r := TrimRight(left);
    TrimLeftDropsBlank(s);
    TrimRightDropsBlank(left);
    KeptSlice(s, left, r);
    var a := |s| - |left|;
    var b := a + |r|;
    assert TrimSpace(s) == s[a..b] && Blank(s[..a]) && Blank(s[b..]);
  }

  /** One blank before a string without white space at its ends is all TrimSpace removes. */
  lemma LeadingBlankTrimmed(c: char, t: string)
    requires IsSpace(c) && |t| >= 1 && !IsSpace(t[0]) && !IsSpace(t[|t| - 1])
    ensures TrimSpace([c] + t) == t
  {
    var s := [c] + t;
    assert s[1..] == t;
    assert TrimLeft(s) == TrimLeft(t) && TrimLeft(t) == t;
  }

  /** A prefix `r` of a suffix `left` of `s` is a slice of `s`, and what follows it in `left` follows it in `s`. */
  lemma KeptSlice(s: string, left: string, r: string)
    requires |left| <= |s| && left == s[|s| - |left|..]
    requires |r| <= |left| && r == left[..|r|] && Blank(left[|r|..])
    ensures var b := |s| - |left| + |r|; r == s[|s| - |left|..b] && Blank(s[b..])
  {
    var b := |s| - |left| + |r|;
    assert s[b..] == left[|r|..];
  }

  /** Every character is white space. */
  predicate Blank(s: string)
  {
    forall i :: 0 <= i < |s| ==> IsSpace(s[i])
  }

  // ---------------------------------------------------------------------------
  // Decimal digits
  // ---------------------------------------------------------------------------

  predicate IsDigit(c: char) { '0' <= c <= '9' }

  function DigitChar(d: nat): (c: char)
    requires d < 10
    ensures IsDigit(c) && c as int - '0' as int == d
  {
    ('0' as int + d) as char
  }

  /** The value of a string of decimal digits, most significant first; None if any character is not a digit. */
  function DecimalValue(s: string): Option<nat>
  {
    if |s| == 0 then Some(0)
    else
      match DecimalValue(s[..|s| - 1])
      case None => None
      case Some(v) =>
        if IsDigit(s[|s| - 1]) then Some(10 * v + (s[|s| - 1] as int - '0' as int)) else None
  }

  predicate AllDigits(s: string)
  {
    forall i :: 0 <= i < |s| ==> IsDigit(s[i])
  }

  /** A digit string has a value exactly when every character is a decimal digit. */
  lemma {:induction false} DecimalValueDigits(s: string)
    ensures DecimalValue(s).Some? <==> AllDigits(s)
    decreases |s|
  {
    if |s| > 0 {
      var init := s[..|s| - 1];
      DecimalValueDigits(init);
      assert forall i :: 0 <= i < |init| ==> init[i] == s[i];
    }
  }

  /** The decimal digits of n, without leading zeros. */
  function NatToDecimal(n: nat): (r: string)
    ensures |r| >= 1 && DecimalValue(r) == Some(n)
    ensures forall i :: 0 <= i < |r| ==> IsDigit(r[i])
    ensures r[0] == '0' ==> n == 0
  {
    if n < 10 then [DigitChar(n)]
    else
      var r := NatToDecimal(n / 10) + [DigitChar(n % 10)];
      assert r[..|r| - 1] == NatToDecimal(n / 10);
      r
  }

  /** fmt.Sprint of an integer: an optional minus sign, then the digits. */
  function FormatInt(x: int): (r: string)
    ensures |r| >= 1 && Comma !in r
    ensures !IsSpace(r[0]) && !IsSpace(r[|r| - 1])
  {
    if x < 0 then "-" + NatToDecimal(-x) else NatToDecimal(x)
  }

  /** A leading sign, if any, is not part of the digits. */
  function Unsigned(s: string): string
  {
    if |s| > 0 && (s[0] == '-' || s[0] == '+') then s[1..] else s
  }

  /**
   * strconv.ParseInt(s, 10, 32): an optional sign, then at least one decimal
   * digit and nothing else, with a value that fits in an int32.  Base 10 is
   * given explicitly, so neither a base prefix nor underscores are accepted.
   * None stands for Go's syntax and range errors alike.
   */
  function ParseInt32(s: string): (r: Option<Int32>)
    ensures r.Some? ==> |Unsigned(s)| >= 1
    ensures r.Some? && (s == [] || s[0] != '-') ==> r.value >= 0
  {
    var digits := Unsigned(s);
    if |digits| == 0 then None
    else
      match DecimalValue(digits)
      case None => None
      case Some(u) =>
        var v: int := if s[0] == '-' then 0 - u else u;
        if MinInt32 <= v <= MaxInt32 then Some(v) else None
  }

  /** A digit string holding something other than a digit has no value. */
  lemma {:induction false} DecimalValueRejects(s: string, i: nat)
    requires i < |s| && !IsDigit(s[i])
    ensures DecimalValue(s) == None
    decreases |s|
  {
    if i < |s| - 1 {
      DecimalValueRejects(s[..|s| - 1], i);
    }
  }

  /** Any character after the optional sign that is not a digit makes ParseInt fail. */
  lemma ParseRejectsNonDigit(s: string, i: nat)
    requires i < |Unsigned(s)| && !IsDigit(Unsigned(s)[i])
    ensures ParseInt32(s) == None
  {
    DecimalValueRejects(Unsigned(s), i);
  }

  /** What fmt.Sprint prints for an int32, ParseInt parses back to the same value. */
  lemma ParseFormatInt32(x: Int32)
    ensures ParseInt32(FormatInt(x)) == Some(x)
  {
    var s := FormatInt(x);
    if x < 0 {
      var m: nat := -(x as int);
      var d := NatToDecimal(m);
      assert s[0] == '-' && Unsigned(s) == d;
    } else {
      assert s == NatToDecimal(x);
      assert Unsigned(s) == s;
    }
  }

  /** The number a sign and a magnitude stand for. */
  function Signed(s: string, magnitude: nat): int
  {
    if |s| > 0 && s[0] == '-' then 0 - magnitude as int else magnitude
  }

  /**
   * ParseInt succeeds exactly on an optional sign followed by one or more
   * decimal digits whose signed value fits in an int32, and then yields that
   * value.
   */
  lemma ParseInt32Spec(s: string)
    ensures ParseInt32(s).Some? <==>
              |Unsigned(s)| >= 1 && AllDigits(Unsigned(s))
              && DecimalValue(Unsigned(s)).Some? && MinInt32 <= Signed(s, DecimalValue(Unsigned(s)).value) <= MaxInt32
    ensures ParseInt32(s).Some? ==> ParseInt32(s).value == Signed(s, DecimalValue(Unsigned(s)).value)
  {
    DecimalValueDigits(Unsigned(s));
  }

  /** A decimal number beyond the int32 range is a range error, with or without a minus sign. */
  lemma ParseOutOfRange(n: nat)
    ensures n > MaxInt32 ==> ParseInt32(NatToDecimal(n)) == None
    ensures n > -MinInt32 ==> ParseInt32("-" + NatToDecimal(n)) == None
  {
    var d := NatToDecimal(n);
    assert Unsigned(d) == d;
    var m := "-" + d;
    assert m[0] == '-' && Unsigned(m) == d;
  }
}
