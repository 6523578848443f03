/** Fixed-point decimal text for non-negative magnitudes: the number formatting
    the exporters apply to times, to speed ratios and to square roots of
    variances. Magnitudes are exact reals here, and an exact half rounds up. */
module Decimal {
  import opened Wrappers
  import Text
  import Roots

  function Pow10(d: nat): (p: nat)
    ensures p >= 1
  {
    if d == 0 then 1 else 10 * Pow10(d - 1)
  }

  predicate IsDigit(ch: char)
  {
    '0' <= ch <= '9'
  }

  predicate AllDigits(s: string)
  {
    forall i :: 0 <= i < |s| ==> IsDigit(s[i])
  }

  /** The characters a rendered number is made of: digits and the decimal point. */
  predicate NumberText(s: string)
  {
    forall i :: 0 <= i < |s| ==> IsDigit(s[i]) || s[i] == '.'
  }

  function DigitChar(k: nat): (ch: char)
    requires k < 10
    ensures IsDigit(ch)
  {
    "0123456789"[k]
  }

  function DigitValue(ch: char): (k: nat)
    requires IsDigit(ch)
    ensures k < 10
  {
    ch as int - '0' as int
  }

  /** The value of a string of decimal digits, most significant first. */
  function DigitsValue(s: string): nat
    requires AllDigits(s)
  {
    if |s| == 0 then 0 else 10 * DigitsValue(s[..|s| - 1]) + DigitValue(s[|s| - 1])
  }

  /** The shortest decimal spelling of `n`. */
  function NatText(n: nat): (s: string)
    ensures 1 <= |s|
    ensures AllDigits(s)
    ensures s[0] == '0' <==> n == 0
    ensures |s| == 1 <==> n < 10
    decreases n
  {
    if n < 10 then [DigitChar(n)] else NatText(n / 10) + [DigitChar(n % 10)]
  }

  /** `s` widened to `width` characters with leading zeros. */
  function ZeroPad(s: string, width: nat): (p: string)
    requires AllDigits(s)
    ensures AllDigits(p)
    ensures |p| == if |s| >= width then |s| else width
    ensures |s| >= width ==> p == s
    decreases width - |s|
  {
    if |s| >= width then s else ZeroPad("0" + s, width)
  }

  /** No superfluous leading zero: a number that starts with `0` is `0` itself or
      has its point right after that zero. */
  predicate NoLeadingZero(s: string)
  {
    |s| > 0 && (s[0] == '0' ==> |s| == 1 || s[1] == '.')
  }

  /** The mantissa `n` written with `d` digits after the decimal point: the text of
      `n / 10^d`, with at least one digit before the point. */
  function PointText(n: nat, d: nat): (s: string)
    requires 1 <= d
    ensures NumberText(s)
    ensures NoLeadingZero(s)
  {
    var digits := ZeroPad(NatText(n), d + 1);
    var cut := |digits| - d;
    NumberTextConcat(digits[..cut], ".");
    NumberTextConcat(digits[..cut] + ".", digits[cut..]);
    var s := digits[..cut] + "." + digits[cut..];
    assert s[0] == digits[0];
    assert cut == 1 ==> s[1] == '.';
    assert cut > 1 ==> digits == NatText(n);
    s
  }

  lemma NumberTextConcat(a: string, b: string)
    requires NumberText(a) || AllDigits(a)
    requires NumberText(b) || AllDigits(b)
    ensures NumberText(a + b)
  {
  }

  /** Reads `<digits>.<digits>` back as the mantissa and the number of decimals. */
  function ParseFixed(s: string): Option<(nat, nat)>
  {
    var pieces := Text.Split(s, '.');
    if |pieces| == 2 && 1 <= |pieces[0]| && 1 <= |pieces[1]|
       && AllDigits(pieces[0]) && AllDigits(pieces[1])
    then Some((DigitsValue(pieces[0]) * Pow10(|pieces[1]|) + DigitsValue(pieces[1]), |pieces[1]|))
    else None
  }

  /** The nearest integer to a non-negative real; an exact half rounds up. */
  function Round(x: real): (n: nat)
    requires 0.0 <= x
    ensures n as real - 0.5 <= x < n as real + 0.5
  {
    (x + 0.5).Floor
  }

  /** `v` with `d` digits after the decimal point. */
  function Fixed(v: real, d: nat): (s: string)
    requires 0.0 <= v
    requires 1 <= d
    ensures Shows(s, d, v)
  {
    var scaled := v * Pow10(d) as real;
    assert 0.0 <= scaled;
    var n := Round(scaled);
    ParsePointText(n, d);
    var s := PointText(n, d);
    assert ParseFixed(s).value.0 == n;
    s
  }

  /** `s` is a `d`-decimal text of a nearest value to `v`: digits around one point,
      exactly `d` of them after it, and no superfluous leading zero. */
  ghost predicate Shows(s: string, d: nat, v: real)
  {
    && NumberText(s) && NoLeadingZero(s)
    && ParseFixed(s).Some? && ParseFixed(s).value.1 == d
    && Nearest(ParseFixed(s).value.0, d, v)
  }

  /** `s` is a `d`-decimal text of a nearest value to the square root of `q`. */
  ghost predicate ShowsRoot(s: string, d: nat, q: real)
    requires 0.0 <= q
  {
    && NumberText(s) && NoLeadingZero(s)
    && ParseFixed(s).Some? && ParseFixed(s).value.1 == d
    && NearestRoot(ParseFixed(s).value.0, d, q)
  }

  /** `n / 10^d` is a nearest `d`-decimal to `v`. */
  ghost predicate Nearest(n: nat, d: nat, v: real)
  {
    n as real - 0.5 <= v * Pow10(d) as real < n as real + 0.5
  }

  /** A speed ratio or its uncertainty: always two decimals. */
  function RatioText(v: real): (s: string)
    requires 0.0 <= v
    ensures Shows(s, 2, v)
  {
    Fixed(v, 2)
  }

  /** The square root of `q`, written with `d` digits after the decimal point. */
  function SqrtFixed(q: real, d: nat): (s: string)
    requires 0.0 <= q
    requires 1 <= d
    ensures ShowsRoot(s, d, q)
  {
    var n := Roots.RoundSqrt(ScaledSquare(q, d));
    ParsePointText(n, d);
    PointText(n, d)
  }

  /** `q` scaled by `(10^d)^2`: the square of a root scaled by `10^d`. */
  function ScaledSquare(q: real, d: nat): (x: real)
    requires 0.0 <= q
    ensures 0.0 <= x
  {
    var scale := Pow10(d) as real;
    assert 0.0 <= q * scale;
    q * scale * scale
  }

  /** `n / 10^d` is a nearest `d`-decimal to the square root of `q`, stated in squares. */
  ghost predicate NearestRoot(n: nat, d: nat, q: real)
    requires 0.0 <= q
  {
    Roots.RootBracket(n, ScaledSquare(q, d))
  }

  lemma {:induction false} DigitsValueSnoc(s: string, ch: char)
    requires AllDigits(s) && IsDigit(ch)
    ensures AllDigits(s + [ch])
    ensures DigitsValue(s + [ch]) == 10 * DigitsValue(s) + DigitValue(ch)
  {
    assert (s + [ch])[..|s + [ch]| - 1] == s;
  }

  lemma {:induction false} NatTextValue(n: nat)
    ensures DigitsValue(NatText(n)) == n
    decreases n
  {
    if n >= 10 {
      NatTextValue(n / 10);
      DigitsValueSnoc(NatText(n / 10), DigitChar(n % 10));
    }
  }

  lemma {:induction false} LeadingZero(s: string)
    requires AllDigits(s)
    ensures AllDigits("0" + s)
    ensures DigitsValue("0" + s) == DigitsValue(s)
    decreases |s|
  {
    if |s| > 0 {
      var init := s[..|s| - 1];
      LeadingZero(init);
      assert ("0" + s)[..|"0" + s| - 1] == "0" + init;
    }
  }

  lemma {:induction false} ZeroPadValue(s: string, width: nat)
    requires AllDigits(s)
    ensures DigitsValue(ZeroPad(s, width)) == DigitsValue(s)
    decreases width - |s|
  {
    if |s| < width {
      LeadingZero(s);
      ZeroPadValue("0" + s, width);
    }
  }

  lemma DigitsHaveNoPoint(s: string)
    requires AllDigits(s)
    ensures '.' !in s
  {
  }

  /** The value of digits written after other digits. */
  lemma {:induction false} DigitsValueAppend(a: string, b: string)
    requires AllDigits(a) && AllDigits(b)
    ensures AllDigits(a + b)
    ensures DigitsValue(a + b) == DigitsValue(a) * Pow10(|b|) + DigitsValue(b)
    decreases |b|
  {
    if |b| == 0 {
      assert a + b == a;
    } else {
      var init := b[..|b| - 1];
      var last := b[|b| - 1];
      assert a + b == (a + init) + [last];
      assert b == init + [last];
      DigitsValueAppend(a, init);
      DigitsValueSnoc(a + init, last);
      DigitsValueSnoc(init, last);
      ShiftDigit(DigitsValue(a), DigitsValue(init), DigitValue(last), Pow10(|init|));
    }
  }

  /** One more digit behind a shifted prefix shifts it one more place. */
  lemma ShiftDigit(prefix: nat, rest: nat, digit: nat, scale: nat)
    ensures 10 * (prefix * scale + rest) + digit == prefix * (10 * scale) + (10 * rest + digit)
  {
  }

  /** Reading a rendered number back yields its mantissa and its number of decimals. */
  lemma ParsePointText(n: nat, d: nat)
    requires 1 <= d
    ensures ParseFixed(PointText(n, d)) == Some((n, d))
  {
    var digits := ZeroPad(NatText(n), d + 1);
    var cut := |digits| - d;
    PointTextPieces(n, d);
    PaddedValue(n, d);
    assert AllDigits(digits[..cut]) && AllDigits(digits[cut..]);
  }

  /** The whole and fraction digits of a padded mantissa put together give the mantissa back. */
  lemma PaddedValue(n: nat, d: nat)
    ensures var digits := ZeroPad(NatText(n), d + 1);
            DigitsValue(digits[..|digits| - d]) * Pow10(d) + DigitsValue(digits[|digits| - d..]) == n
  {
    var digits := ZeroPad(NatText(n), d + 1);
    var cut := |digits| - d;
    var whole := digits[..cut];
    var frac := digits[cut..];
    assert digits == whole + frac;
    assert |frac| == d;
    calc {
      DigitsValue(whole) * Pow10(d) + DigitsValue(frac);
      == { DigitsValueAppend(whole, frac); }
      DigitsValue(digits);
      == { ZeroPadValue(NatText(n), d + 1); }
      DigitsValue(NatText(n));
      == { NatTextValue(n); }
      n;
    }
  }

  /** A rendered number is its whole digits and exactly `d` fraction digits around one point. */
  lemma PointTextPieces(n: nat, d: nat)
    requires 1 <= d
    ensures var digits := ZeroPad(NatText(n), d + 1);
            Text.Split(PointText(n, d), '.') == [digits[..|digits| - d], digits[|digits| - d..]]
  {
    var digits := ZeroPad(NatText(n), d + 1);
    var cut := |digits| - d;
    var whole := digits[..cut];
    var frac := digits[cut..];
    DigitsHaveNoPoint(whole);
    DigitsHaveNoPoint(frac);
    assert PointText(n, d) == Text.Join([whole, frac], '.');
    Text.SplitJoin([whole, frac], '.');
  }

  /** The text of `v` to `d` decimals is the rendering of its one nearest mantissa. */
  lemma FixedOf(v: real, d: nat, n: nat)
    requires 0.0 <= v && 1 <= d
    requires Nearest(n, d, v)
    ensures Fixed(v, d) == PointText(n, d)
  {
  }

  /** The text of the square root of `q` to `d` decimals is the rendering of its one
      nearest mantissa. */
  lemma SqrtFixedOf(q: real, d: nat, n: nat)
    requires 0.0 <= q && 1 <= d
    requires NearestRoot(n, d, q)
    ensures SqrtFixed(q, d) == PointText(n, d)
  {
    Roots.RootBracketUnique(n, Roots.RoundSqrt(ScaledSquare(q, d)), ScaledSquare(q, d));
  }

  // One text per value: the contracts above pin the text down.

  /** Only one `d`-decimal text without superfluous leading zeros is nearest to `v`. */
  lemma ShowsUnique(s: string, t: string, d: nat, v: real)
    requires Shows(s, d, v) && Shows(t, d, v)
    ensures s == t
  {
    NearestUnique(ParseFixed(s).value.0, ParseFixed(t).value.0, d, v);
    CanonicalUnique(s, t);
  }

  /** Only one such text is nearest to the square root of `q`. */
  lemma ShowsRootUnique(s: string, t: string, d: nat, q: real)
    requires 0.0 <= q
    requires ShowsRoot(s, d, q) && ShowsRoot(t, d, q)
    ensures s == t
  {
    Roots.RootBracketUnique(ParseFixed(s).value.0, ParseFixed(t).value.0, ScaledSquare(q, d));
    CanonicalUnique(s, t);
  }

  /** The half-open window of `Nearest` holds one mantissa. */
  lemma NearestUnique(n: nat, m: nat, d: nat, v: real)
    requires Nearest(n, d, v) && Nearest(m, d, v)
    ensures n == m
  {
  }

  /** Two texts without superfluous leading zeros that read back alike are equal. */
  lemma CanonicalUnique(s: string, t: string)
    requires NoLeadingZero(s) && NoLeadingZero(t)
    requires ParseFixed(s).Some? && ParseFixed(s) == ParseFixed(t)
    ensures s == t
  {
    var ps := Text.Split(s, '.');
    var pt := Text.Split(t, '.');
    Text.JoinSplit(s, '.');
    Text.JoinSplit(t, '.');
    assert s == ps[0] + "." + ps[1];
    assert t == pt[0] + "." + pt[1];
    WholeCanonical(ps[0], ps[1], s);
    WholeCanonical(pt[0], pt[1], t);
    var scale := Pow10(|ps[1]|);
    DigitsBelow(ps[1]);
    DigitsBelow(pt[1]);
    PlaceValueUnique(DigitsValue(ps[0]), DigitsValue(ps[1]), DigitsValue(pt[0]), DigitsValue(pt[1]), scale);
    SameLengthDigits(ps[1], pt[1]);
    CanonicalDigits(ps[0], pt[0]);
  }

  /** The whole digits of a number without superfluous leading zeros have none either. */
  lemma WholeCanonical(whole: string, frac: string, s: string)
    requires s == whole + "." + frac && 1 <= |whole| && AllDigits(whole)
    requires NoLeadingZero(s)
    ensures whole[0] == '0' ==> |whole| == 1
  {
    if |whole| > 1 {
      assert s[0] == whole[0] && s[1] == whole[1];
    }
  }

  /** A quotient and a remainder below the divisor are unique. */
  lemma PlaceValueUnique(a: nat, b: nat, a': nat, b': nat, scale: nat)
    requires b < scale && b' < scale
    requires a * scale + b == a' * scale + b'
    ensures a == a' && b == b'
  {
    if a < a' {
      MoreScaled(a, a', scale);
    } else if a' < a {
      MoreScaled(a', a, scale);
    }
  }

  lemma MoreScaled(a: nat, a': nat, scale: nat)
    requires a < a'
    ensures a * scale + scale <= a' * scale
  {
    assert a' * scale == (a + 1) * scale + (a' - a - 1) * scale;
  }

  /** `d` digits stay below `10^d`. */
  lemma {:induction false} DigitsBelow(s: string)
    requires AllDigits(s)
    ensures DigitsValue(s) < Pow10(|s|)
    decreases |s|
  {
    if |s| > 0 {
      DigitsBelow(s[..|s| - 1]);
    }
  }

  /** Digits that start with a non-zero digit reach `10^(d-1)`. */
  lemma {:induction false} DigitsAtLeast(s: string)
    requires AllDigits(s) && 1 <= |s| && s[0] != '0'
    ensures Pow10(|s| - 1) <= DigitsValue(s)
    decreases |s|
  {
    if |s| > 1 {
      var init := s[..|s| - 1];
      assert init[0] == s[0];
      DigitsAtLeast(init);
    }
  }

  lemma {:induction false} Pow10Monotone(i: nat, j: nat)
    requires i <= j
    ensures Pow10(i) <= Pow10(j)
    decreases j
  {
    if i < j {
      Pow10Monotone(i, j - 1);
    }
  }

  /** Equally long digit strings with the same value are the same digits. */
  lemma {:induction false} SameLengthDigits(a: string, b: string)
    requires AllDigits(a) && AllDigits(b) && |a| == |b|
    requires DigitsValue(a) == DigitsValue(b)
    ensures a == b
    decreases |a|
  {
    if |a| > 0 {
      var ia := a[..|a| - 1];
      var ib := b[..|b| - 1];
      PlaceValueUnique(DigitsValue(ia), DigitValue(a[|a| - 1]), DigitsValue(ib), DigitValue(b[|b| - 1]), 10);
      SameLengthDigits(ia, ib);
      assert a == ia + [a[|a| - 1]] && b == ib + [b[|b| - 1]];
    }
  }

  /** Digit strings without superfluous leading zeros and with the same value are equal. */
  lemma CanonicalDigits(a: string, b: string)
    requires AllDigits(a) && AllDigits(b) && 1 <= |a| && 1 <= |b|
    requires a[0] == '0' ==> |a| == 1
    requires b[0] == '0' ==> |b| == 1
    requires DigitsValue(a) == DigitsValue(b)
    ensures a == b
  {
    if |a| < |b| {
      ShorterIsSmaller(a, b);
    } else if |b| < |a| {
      ShorterIsSmaller(b, a);
    }
    SameLengthDigits(a, b);
  }

  lemma ShorterIsSmaller(a: string, b: string)
    requires AllDigits(a) && AllDigits(b) && |a| < |b| && b[0] != '0'
    ensures DigitsValue(a) < DigitsValue(b)
  {
    DigitsBelow(a);
    DigitsAtLeast(b);
    Pow10Monotone(|a|, |b| - 1);
  }
}
