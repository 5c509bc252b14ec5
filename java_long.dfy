/** The 64-bit signed integers of `java.lang.Long`, with the decimal parser
    behind `Long.valueOf(String)` (restricted to ASCII input) and the decimal
    printer `Long.toString(long)` that produces the strings it reads. */
module JavaLong {
  import opened Wrappers

  const MinValue: int := -0x8000_0000_0000_0000
  const MaxValue: int := 0x7FFF_FFFF_FFFF_FFFF

  /** A value of Java's primitive `long` (and of a non-null boxed `Long`). */
  type Long = x: int | MinValue <= x <= MaxValue

  predicate IsDigit(ch: char) {
    '0' <= ch <= '9'
  }

  predicate AllDigits(s: string) {
    forall i :: 0 <= i < |s| ==> IsDigit(s[i])
  }

  predicate IsAscii(s: string) {
    forall i :: 0 <= i < |s| ==> s[i] as int < 128
  }

  function DigitValue(ch: char): (d: nat)
    requires IsDigit(ch)
    ensures d < 10
  {
    ch as int - '0' as int
  }

  function DigitChar(d: nat): (ch: char)
    requires d < 10
    ensures IsDigit(ch) && DigitValue(ch) == d
  {
    ('0' as int + d) as char
  }

  /** The number a string of decimal digits denotes, most significant first. */
  function Magnitude(s: string): nat
    requires AllDigits(s)
  {
    if |s| == 0 then 0 else Magnitude(s[..|s| - 1]) * 10 + DigitValue(s[|s| - 1])
  }

  /** `Long.parseLong(s, 10)`: an optional leading `-` or `+`, then at least
      one decimal digit, and the value must fit in 64 bits; anything else
      throws `NumberFormatException`, modelled as `None`. */
  function ParseLong(s: string): (r: Option<Long>)
    ensures r.Some? ==> |s| > 0 && (s[0] == '-' || s[0] == '+' || IsDigit(s[0]))
    ensures r.Some? ==> forall i :: 0 < i < |s| ==> IsDigit(s[i])
    ensures r.Some? && r.value < 0 ==> s[0] == '-'
  {
    if |s| == 0 then None
    else
      var negative := s[0] == '-';
      var digits := if s[0] == '-' || s[0] == '+' then s[1..] else s;
      if |digits| == 0 || !AllDigits(digits) then None
      else
        var v: int := if negative then -(Magnitude(digits) as int) else Magnitude(digits);
        if MinValue <= v <= MaxValue then Some(v) else None
  }

  /** The shortest decimal form of a natural number (no leading zeros). */
  function Digits(n: nat): (s: string)
    ensures |s| > 0 && AllDigits(s)
    ensures n > 0 ==> s[0] != '0'
  {
    if n < 10 then [DigitChar(n)] else Digits(n / 10) + [DigitChar(n % 10)]
  }

  /** `Long.toString(n)`: a `-` for negative values, then the digits of the magnitude. */
  function ToString(n: Long): (s: string)
    ensures |s| > 0 && IsAscii(s)
  {
    if n < 0 then ['-'] + Digits(-(n as int)) else Digits(n)
  }

  /** Whether `f` behaves as `Long.valueOf` on every ASCII string; the JDK's
      parser also accepts the other Unicode decimal digits, on which `f` is free. */
  ghost predicate ActsAsValueOf(f: string -> Option<Long>) {
    forall s :: IsAscii(s) ==> f(s) == ParseLong(s)
  }

  lemma {:induction false} MagnitudeOfDigits(n: nat)
    ensures Magnitude(Digits(n)) == n
  {
    if n >= 10 {
      var prefix := Digits(n / 10);
      var s := Digits(n);
      assert s[..|s| - 1] == prefix;
      MagnitudeOfDigits(n / 10);
    }
  }

  /** What `Long.toString` prints, `Long.valueOf` reads back unchanged. */
  lemma {:induction false} ParseLongRoundTrip(n: Long)
    ensures ParseLong(ToString(n)) == Some(n)
  {
    var s := ToString(n);
    if n < 0 {
      assert s[1..] == Digits(-(n as int));
      MagnitudeOfDigits(-(n as int));
    } else {
      MagnitudeOfDigits(n);
    }
  }

  lemma {:induction false} LeadingZeroMagnitude(s: string)
    requires AllDigits(s)
    ensures AllDigits(['0'] + s) && Magnitude(['0'] + s) == Magnitude(s)
  {
    var t := ['0'] + s;
    if |s| > 0 {
      assert t[..|t| - 1] == ['0'] + s[..|s| - 1];
      LeadingZeroMagnitude(s[..|s| - 1]);
    } else {
      assert t[..|t| - 1] == [];
    }
  }

  /** Leading zeros do not change the parsed value: "007" and "7" both read as 7. */
  lemma {:induction false} LeadingZeroIgnored(s: string)
    requires |s| > 0 && AllDigits(s)
    ensures ParseLong(['0'] + s) == ParseLong(s)
  {
    LeadingZeroMagnitude(s);
    assert (['0'] + s)[0] == '0';
  }

  /** The digits after an optional leading sign. */
  function Unsigned(s: string): string {
    if |s| > 0 && (s[0] == '-' || s[0] == '+') then s[1..] else s
  }

  /** A digit string with its leading zeros dropped, keeping at least one digit. */
  function StripZeros(t: string): (r: string)
    ensures |t| > 0 ==> |r| > 0
    ensures AllDigits(t) ==> AllDigits(r)
  {
    if |t| > 1 && t[0] == '0' then StripZeros(t[1..]) else t
  }

  /** Every string of an optional sign and at least one digit is read as its
      signed value when that fits in 64 bits, and rejected when it overflows. */
  lemma {:induction false} ParseLongSigned(sign: string, digits: string)
    requires sign == "" || sign == "+" || sign == "-"
    requires |digits| > 0 && AllDigits(digits)
    ensures var v := if sign == "-" then -(Magnitude(digits) as int) else Magnitude(digits);
            ParseLong(sign + digits) == if MinValue <= v <= MaxValue then Some(v) else None
  {
    var s := sign + digits;
    if sign == "-" {
      assert s[0] == '-' && s[1..] == digits;
      assert Unsigned(s) == digits;
    } else if sign == "+" {
      assert s[0] == '+' && s[1..] == digits;
      assert Unsigned(s) == digits;
    } else {
      assert s == digits && IsDigit(s[0]);
      assert Unsigned(s) == digits;
    }
  }

  /** The decimal forms of magnitudes beyond the `long` range are rejected. */
  lemma {:induction false} OverflowRejected(n: nat)
    ensures n > MaxValue ==> ParseLong(Digits(n)) == None
    ensures n > -MinValue ==> ParseLong(['-'] + Digits(n)) == None
  {
    MagnitudeOfDigits(n);
    ParseLongSigned("", Digits(n));
    ParseLongSigned("-", Digits(n));
    assert "" + Digits(n) == Digits(n);
  }

  lemma {:induction false} PositiveMagnitude(t: string)
    requires |t| > 0 && AllDigits(t) && t[0] != '0'
    ensures Magnitude(t) > 0
  {
    if |t| > 1 {
      PositiveMagnitude(t[..|t| - 1]);
    }
  }

  /** A digit string without leading zeros is the decimal form of its value. */
  lemma {:induction false} DigitsOfMagnitude(t: string)
    requires |t| > 0 && AllDigits(t) && (|t| > 1 ==> t[0] != '0')
    ensures Digits(Magnitude(t)) == t
  {
    var p := t[..|t| - 1];
    var d := DigitValue(t[|t| - 1]);
    if |t| == 1 {
      assert Magnitude(t) == d;
    } else {
      PositiveMagnitude(p);
      DigitsOfMagnitude(p);
      var m := Magnitude(t);
      assert m == Magnitude(p) * 10 + d;
      assert m / 10 == Magnitude(p) && m % 10 == d;
      assert t == p + [t[|t| - 1]];
    }
  }

  lemma {:induction false} StripZerosMagnitude(t: string)
    requires |t| > 0 && AllDigits(t)
    ensures Magnitude(StripZeros(t)) == Magnitude(t)
    ensures Digits(Magnitude(t)) == StripZeros(t)
  {
    if |t| > 1 && t[0] == '0' {
      StripZerosMagnitude(t[1..]);
      LeadingZeroMagnitude(t[1..]);
      assert ['0'] + t[1..] == t;
    } else {
      DigitsOfMagnitude(t);
    }
  }

  /** The converse of the round trip: whatever string `Long.valueOf` accepts
      is `Long.toString` of the result once a leading '+', leading zeros and
      the sign of a zero are dropped. */
  lemma {:induction false} ParseLongCanonical(s: string, n: Long)
    requires ParseLong(s) == Some(n)
    ensures ToString(n) == (if n < 0 then "-" else "") + StripZeros(Unsigned(s))
  {
    StripZerosMagnitude(Unsigned(s));
  }
}
