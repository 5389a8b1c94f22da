/**
 * The numbers of the session record, as text.
 *
 * `save_initial_slider_value` writes each number with Python's `str` and
 * `load_initial_slider_value` reads it back with `float`. The macro persists
 * integers (the slider's value, the default percentage 97) and floats (the
 * spin box's percentage, and a raw value read back with `float`), all of
 * them with a few decimals at most, so the model represents each exactly as
 * a finite decimal `mantissa / 10^scale`. A `Decimal` does not record
 * whether Python holds an int or a float: see `Show`.
 */
module Numerals {
  import opened Wrappers

  /** The number `mantissa / 10^scale`; `scale` is the count of digits after the point. */
  datatype Decimal = Decimal(mantissa: int, scale: nat)
  {
    function Value(): real
    {
      mantissa as real / Pow10(scale) as real
    }
  }

  function Pow10(n: nat): (r: nat)
    ensures r >= 1
  {
    if n == 0 then 1 else 10 * Pow10(n - 1)
  }

  function Abs(n: int): nat
  {
    if n < 0 then -n else n
  }

  predicate IsDigit(c: char)
  {
    '0' <= c <= '9'
  }

  predicate AllDigits(s: string)
  {
    forall i :: 0 <= i < |s| ==> IsDigit(s[i])
  }

  /**
   * The ASCII characters Python's `float` strips from both ends of its
   * argument: white space and the four separators U+001C to U+001F.
   */
  predicate IsSpace(c: char)
  {
    c == ' ' || c == '\t' || c == '\n' || c == '\r' || c == '\U{0B}' || c == '\U{0C}' ||
    c == '\U{1C}' || c == '\U{1D}' || c == '\U{1E}' || c == '\U{1F}'
  }

  function DigitChar(d: nat): (c: char)
    requires d < 10
    ensures IsDigit(c)
  {
    (('0' as int) + d) as char
  }

  function DigitValue(c: char): (d: nat)
    requires IsDigit(c)
    ensures d < 10
  {
    (c as int) - ('0' as int)
  }

  /** The canonical decimal digits of `n`, without leading zeros ("0" for zero). */
  function NatToDigits(n: nat): (s: string)
    ensures 1 <= |s| && AllDigits(s)
  {
    if n < 10 then [DigitChar(n)] else NatToDigits(n / 10) + [DigitChar(n % 10)]
  }

  /** The number a string of decimal digits denotes, most significant digit first. */
  function DigitsToNat(s: string): nat
    requires AllDigits(s)
  {
    if s == [] then 0 else DigitsToNat(s[..|s| - 1]) * 10 + DigitValue(s[|s| - 1])
  }

  function Zeros(k: nat): (s: string)
    ensures |s| == k && AllDigits(s)
  {
    if k == 0 then "" else "0" + Zeros(k - 1)
  }

  /** `s` padded on the left with zeros to at least `width` characters. */
  function PadLeft(s: string, width: nat): (r: string)
    requires AllDigits(s)
    ensures AllDigits(r) && |r| >= width && |r| >= |s|
  {
    if |s| >= width then s else Zeros(width - |s|) + s
  }

  /**
   * Python's `str` of the number: an integer (scale 0) prints as its digits,
   * any other decimal with exactly `scale` digits after the point and at
   * least one before it ("50.0", "0.05", "-12.5"). A float with a whole
   * value is the decimal of scale 1 (`Decimal(500, 1)` prints "50.0").
   */
  function Show(d: Decimal): (s: string)
    ensures |s| > 0 && IsDigit(s[|s| - 1])
    ensures s[0] == '-' <==> d.mantissa < 0
    ensures forall i :: 0 <= i < |s| ==> s[i] != ','
  {
    UnsignedTextShape(Abs(d.mantissa), d.scale);
    var sign := if d.mantissa < 0 then "-" else "";
    sign + UnsignedText(Abs(d.mantissa), d.scale)
  }

  /** The digits of `n / 10^scale` with the point placed, without a sign. */
  function UnsignedText(n: nat, scale: nat): (s: string)
  {
    var digits := PadLeft(NatToDigits(n), scale + 1);
    if scale == 0 then digits
    else digits[..|digits| - scale] + "." + digits[|digits| - scale..]
  }

  /** `s` without its leading white space. */
  function TrimStart(s: string): (r: string)
    ensures |r| <= |s|
  {
    if |s| > 0 && IsSpace(s[0]) then TrimStart(s[1..]) else s
  }

  /** `s` without its trailing white space. */
  function TrimEnd(s: string): (r: string)
    ensures |r| <= |s|
  {
    if |s| > 0 && IsSpace(s[|s| - 1]) then TrimEnd(s[..|s| - 1]) else s
  }

  /** Python's `s.strip()` over the characters of `IsSpace`. */
  function Strip(s: string): string
  {
    TrimEnd(TrimStart(s))
  }

  /** The index of the first `c` in `s`, or `|s|` when there is none. */
  function IndexOf(s: string, c: char): (k: nat)
    ensures k <= |s|
    ensures k < |s| ==> s[k] == c
    ensures forall i :: 0 <= i < k ==> s[i] != c
  {
    if s == [] then 0 else if s[0] == c then 0 else 1 + IndexOf(s[1..], c)
  }

  /** An unsigned decimal literal: digits, optionally a point and more digits, at least one digit in all. */
  function ParseUnsigned(body: string): (r: Option<Decimal>)
    ensures r.Some? ==> |body| > 0 && forall i :: 0 <= i < |body| ==> IsDigit(body[i]) || body[i] == '.'
  {
    var k := IndexOf(body, '.');
    var whole := body[..k];
    var fraction := if k < |body| then body[k + 1..] else "";
    if AllDigits(whole + fraction) && |whole + fraction| > 0 then
      assert forall i :: 0 <= i < |body| ==> IsDigit(body[i]) || body[i] == '.' by {
        forall i | 0 <= i < |body| ensures IsDigit(body[i]) || body[i] == '.' {
          if i < k {
            assert body[i] == (whole + fraction)[i];
          } else if i > k {
            assert body[i] == (whole + fraction)[i - 1];
          }
        }
      }
      Some(Decimal(DigitsToNat(whole + fraction), |fraction|))
    else
      None
  }

  /**
   * Python's `float` on a decimal literal: surrounding white space is
   * ignored, one optional sign is accepted; `None` stands for the
   * `ValueError` that `float` raises on anything else.
   */
  function ParseFloat(s: string): (r: Option<Decimal>)
    ensures r.Some? ==> |Strip(s)| > 0
  {
    var t := Strip(s);
    if |t| > 0 && (t[0] == '-' || t[0] == '+') then
      match ParseUnsigned(t[1..])
      case None => None
      case Some(d) => Some(if t[0] == '-' then Decimal(-d.mantissa, d.scale) else d)
    else
      ParseUnsigned(t)
  }

  /** Stripping removes white space only, and adds nothing. */
  lemma {:induction false} TrimStartDropsSpaces(s: string)
    ensures forall c :: c in s ==> c in TrimStart(s) || IsSpace(c)
    ensures forall c :: c in TrimStart(s) ==> c in s
  {
    if |s| > 0 && IsSpace(s[0]) {
      TrimStartDropsSpaces(s[1..]);
      assert forall c :: c in s ==> c == s[0] || c in s[1..];
    }
  }

  lemma {:induction false} TrimEndDropsSpaces(s: string)
    ensures forall c :: c in s ==> c in TrimEnd(s) || IsSpace(c)
    ensures forall c :: c in TrimEnd(s) ==> c in s
  {
    if |s| > 0 && IsSpace(s[|s| - 1]) {
      var front := s[..|s| - 1];
      TrimEndDropsSpaces(front);
      assert s == front + [s[|s| - 1]];
      assert forall c :: c in s ==> c == s[|s| - 1] || c in front;
    }
  }

  /**
   * What `float` accepts: text made of digits, points, signs and the
   * white space around them. Anything else (letters, commas, exponents)
   * is rejected, and so is white space inside the number (`"5 0"`).
   */
  lemma {:induction false} ParseFloatAlphabet(s: string)
    ensures ParseFloat(s).Some? ==>
      forall c :: c in s ==> IsDigit(c) || c == '.' || c == '+' || c == '-' || IsSpace(c)
    ensures ParseFloat(s).Some? ==> forall c :: c in Strip(s) ==> !IsSpace(c)
  {
    var t := Strip(s);
    TrimStartDropsSpaces(s);
    TrimEndDropsSpaces(TrimStart(s));
    if ParseFloat(s).Some? {
      if |t| > 0 && (t[0] == '-' || t[0] == '+') {
        assert ParseUnsigned(t[1..]).Some?;
        forall c | c in t ensures (IsDigit(c) || c == '.' || c == '+' || c == '-') && !IsSpace(c) {
          var i :| 0 <= i < |t| && t[i] == c;
          if i > 0 {
            assert t[1..][i - 1] == c;
          }
        }
      } else {
        assert ParseUnsigned(t).Some?;
      }
    }
  }

  // ---------------------------------------------------------------------------
  // Digit-string arithmetic

  lemma {:induction false} DigitsRoundTrip(n: nat)
    ensures DigitsToNat(NatToDigits(n)) == n
  {
    if n >= 10 {
      var s := NatToDigits(n / 10) + [DigitChar(n % 10)];
      assert s[..|s| - 1] == NatToDigits(n / 10);
      DigitsRoundTrip(n / 10);
    }
  }

  lemma {:induction false} DigitsAppend(a: string, b: string)
    requires AllDigits(a) && AllDigits(b)
    ensures AllDigits(a + b)
    ensures DigitsToNat(a + b) == DigitsToNat(a) * Pow10(|b|) + DigitsToNat(b)
  {
    if b == [] {
      assert a + b == a;
    } else {
      var b' := b[..|b| - 1];
      var last := b[|b| - 1];
      assert (a + b)[..|a + b| - 1] == a + b';
      assert (a + b)[|a + b| - 1] == last;
      DigitsAppend(a, b');
      assert DigitsToNat(a + b) == DigitsToNat(a + b') * 10 + DigitValue(last);
      assert DigitsToNat(b) == DigitsToNat(b') * 10 + DigitValue(last);
      assert Pow10(|b|) == 10 * Pow10(|b'|);
      ShiftDigit(DigitsToNat(a), Pow10(|b'|), DigitsToNat(b'), DigitValue(last));
    }
  }

  /** Appending one digit to `a` followed by `b'` shifts `a` by one more place. */
  lemma ShiftDigit(a: nat, p: nat, b: nat, d: nat)
    ensures (a * p + b) * 10 + d == a * (10 * p) + (b * 10 + d)
  {
  }

  lemma {:induction false} ZerosDenoteZero(k: nat)
    ensures DigitsToNat(Zeros(k)) == 0
  {
    if k > 0 {
      ZerosDenoteZero(k - 1);
      DigitsAppend("0", Zeros(k - 1));
    }
  }

  lemma {:induction false} PadLeftKeepsValue(s: string, width: nat)
    requires AllDigits(s)
    ensures DigitsToNat(PadLeft(s, width)) == DigitsToNat(s)
  {
    if |s| < width {
      ZerosDenoteZero(width - |s|);
      DigitsAppend(Zeros(width - |s|), s);
    }
  }

  // ---------------------------------------------------------------------------
  // Round trip

  lemma {:induction false} NoPointInDigits(s: string)
    requires AllDigits(s)
    ensures IndexOf(s, '.') == |s|
  {
  }

  lemma {:induction false} FirstPointAfterDigits(whole: string, fraction: string)
    requires AllDigits(whole)
    ensures IndexOf(whole + "." + fraction, '.') == |whole|
  {
    var body := whole + "." + fraction;
    assert body[|whole|] == '.';
    assert forall i :: 0 <= i < |whole| ==> body[i] == whole[i];
  }

  lemma {:induction false} ParseUnsignedInteger(s: string)
    requires AllDigits(s) && |s| > 0
    ensures ParseUnsigned(s) == Some(Decimal(DigitsToNat(s), 0))
  {
    NoPointInDigits(s);
    assert s[..|s|] + "" == s;
  }

  lemma {:induction false} ParseUnsignedFraction(whole: string, fraction: string)
    requires AllDigits(whole + fraction)
    ensures ParseUnsigned(whole + "." + fraction)
         == if |whole| + |fraction| > 0
            then Some(Decimal(DigitsToNat(whole + fraction), |fraction|))
            else None
  {
    var body := whole + "." + fraction;
    assert AllDigits(whole) by {
      assert forall i :: 0 <= i < |whole| ==> whole[i] == (whole + fraction)[i];
    }
    FirstPointAfterDigits(whole, fraction);
    assert body[..|whole|] == whole;
    assert body[|whole| + 1..] == fraction;
  }

  /** Reading back the unsigned text of `n / 10^scale` gives exactly that decimal. */
  lemma {:induction false} ParseUnsignedText(n: nat, scale: nat)
    ensures ParseUnsigned(UnsignedText(n, scale)) == Some(Decimal(n, scale))
  {
    var digits := PadLeft(NatToDigits(n), scale + 1);
    assert DigitsToNat(digits) == n by {
      DigitsRoundTrip(n);
      PadLeftKeepsValue(NatToDigits(n), scale + 1);
    }
    if scale == 0 {
      ParseUnsignedInteger(digits);
    } else {
      var whole := digits[..|digits| - scale];
      var fraction := digits[|digits| - scale..];
      assert UnsignedText(n, scale) == whole + "." + fraction;
      assert |fraction| == scale;
      assert whole + fraction == digits;
      ParseUnsignedFraction(whole, fraction);
    }
  }

  lemma {:induction false} UnsignedTextShape(n: nat, scale: nat)
    ensures var s := UnsignedText(n, scale);
      |s| > 0 && IsDigit(s[0]) && IsDigit(s[|s| - 1])
    ensures var s := UnsignedText(n, scale);
      forall i :: 0 <= i < |s| ==> IsDigit(s[i]) || s[i] == '.'
  {
    var digits := PadLeft(NatToDigits(n), scale + 1);
    if scale > 0 {
      var whole := digits[..|digits| - scale];
      var fraction := digits[|digits| - scale..];
      var s := whole + "." + fraction;
      assert UnsignedText(n, scale) == s;
      assert forall i :: 0 <= i < |s| ==> IsDigit(s[i]) || s[i] == '.' by {
        forall i | 0 <= i < |s| ensures IsDigit(s[i]) || s[i] == '.' {
          if i < |whole| { assert s[i] == whole[i]; }
          else if i > |whole| { assert s[i] == fraction[i - |whole| - 1]; }
        }
      }
    }
  }

  lemma {:induction false} ParseNonNegative(body: string, d: Decimal)
    requires |body| > 0 && IsDigit(body[0]) && IsDigit(body[|body| - 1])
    requires ParseUnsigned(body) == Some(d)
    ensures ParseFloat(body) == Some(d)
  {
  }

  lemma {:induction false} ParseNegative(body: string, d: Decimal)
    requires |body| > 0 && IsDigit(body[0]) && IsDigit(body[|body| - 1])
    requires ParseUnsigned(body) == Some(d)
    ensures ParseFloat("-" + body) == Some(Decimal(-d.mantissa, d.scale))
  {
  }

  lemma {:induction false} ParseSigned(sign: string, body: string, d: Decimal)
    requires sign == "" || sign == "-"
    requires |body| > 0 && IsDigit(body[0]) && IsDigit(body[|body| - 1])
    requires ParseUnsigned(body) == Some(d)
    ensures ParseFloat(sign + body) == Some(if sign == "-" then Decimal(-d.mantissa, d.scale) else d)
  {
    if sign == "-" {
      ParseNegative(body, d);
    } else {
      assert sign + body == body;
      ParseNonNegative(body, d);
    }
  }

  /** `float(str(d)) == d`: the persisted text of a number reads back as the same number. */
  lemma {:induction false} ParseShow(d: Decimal)
    ensures ParseFloat(Show(d)) == Some(d)
  {
    var n := Abs(d.mantissa);
    var body := UnsignedText(n, d.scale);
    assert |body| > 0 && IsDigit(body[0]) && IsDigit(body[|body| - 1]) by {
      UnsignedTextShape(n, d.scale);
    }
    ParseUnsignedText(n, d.scale);
    ParseSigned(if d.mantissa < 0 then "-" else "", body, Decimal(n, d.scale));
  }

  /** Python prints the float 97.0 as "97.0", the int 150 as "150" and -0.05 as "-0.05". */
  lemma ShowExamples()
    ensures Show(Decimal(970, 1)) == "97.0"
    ensures Show(Decimal(150, 0)) == "150"
    ensures Show(Decimal(-5, 2)) == "-0.05"
  {
  }
}
