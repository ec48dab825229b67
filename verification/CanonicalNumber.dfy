// The canonical text of a number: the same value, and one text per value.
module CanonicalNumber {
  import opened Prelude
  import opened Text
  import opened Decimal

  function Render(whole: string, frac: string): string {
    whole + if frac == "" then "" else "." + frac
  }

  function SignText(negative: bool): string {
    if negative then "-" else ""
  }

  // Digits before the point without padding, digits after it without trailing zeros.
  predicate Normal(whole: string, frac: string) {
    && whole != "" && AllDigits(whole) && AllDigits(frac)
    && (whole[0] == '0' ==> whole == "0") && (frac != "" ==> frac[|frac|-1] != '0')
  }

  predicate CanonicalAs(s: string, negative: bool, whole: string, frac: string) {
    && Normal(whole, frac) && s == SignText(negative) + Render(whole, frac)
    && (negative ==> !(whole == "0" && frac == ""))
  }

  lemma RenderReads(negative: bool, whole: string, frac: string)
    requires whole != "" && AllDigits(whole) && AllDigits(frac)
    ensures Read(SignText(negative) + Render(whole, frac)) == Ok(Number(negative, whole, frac, 0))
  {
    var p := Spelling(SignText(negative), whole, frac != "", frac, None);
    var s := Spelled(p);
    NumeralsAreRead("", p, "");
    assert "" + s + "" == s;
    assert Unsigned(p) == Render(whole, frac);
  }

  // s is a canonical text of value v.
  ghost predicate Denotes(s: string, v: real) {
    exists negative, whole, frac ::
      CanonicalAs(s, negative, whole, frac) && Value(Number(negative, whole, frac, 0)) == v
  }

  // The result for a reading: its error, or a canonical text of the same value.
  ghost predicate Canonicalizes(reading: Outcome<Number>, r: Outcome<string>) {
    match reading
    case Malformed => r.Malformed?
    case ExponentTooLarge => r.ExponentTooLarge?
    case Ok(n) => r.Ok? && Denotes(r.value, Value(n))
  }

  // ---------------------------------------------------------------- placing the point

  // Where the point stands relative to the significant digits.
  function PointOf(whole: string, frac: string): int {
    var significant := TrimLeft(whole, IsZero);
    if significant == "" then -(|frac| - |TrimLeft(frac, IsZero)|) else |significant|
  }

  lemma {:induction false} TrimmedAmount(s: string)
    ensures Amount(TrimLeft(s, IsZero)) == Amount(s)
  {
    TrimsLeft(s, IsZero);
    ZeroPrefix(s, |s| - |TrimLeft(s, IsZero)|);
  }

  // The first significant digit of two strings end to end.
  lemma {:induction false} TrimLeftAppend(a: string, b: string)
    ensures TrimLeft(a + b, IsZero) == if TrimLeft(a, IsZero) == "" then TrimLeft(b, IsZero)
            else TrimLeft(a, IsZero) + b
    decreases |a|
  {
    if a == "" {
      assert a + b == b;
    } else if a[0] == '0' {
      assert (a + b)[1..] == a[1..] + b;
      TrimLeftAppend(a[1..], b);
    }
  }

  lemma PointLength(whole: string, frac: string)
    ensures TrimLeft(whole + frac, IsZero) == "" || PointOf(whole, frac) - |TrimLeft(whole + frac, IsZero)| == -|frac|
  {
    TrimLeftAppend(whole, frac);
  }

  // The value is that of the significant digits with the point at its place.
  lemma PointPlaces(n: Number)
    requires TrimLeft(n.whole + n.frac, IsZero) != ""
    ensures var digits := TrimLeft(n.whole + n.frac, IsZero);
            Value(n) == Scaled(Signed(n.negative, Amount(digits)), PointOf(n.whole, n.frac) + n.exp - |digits|)
  {
    PointLength(n.whole, n.frac);
    TrimmedAmount(n.whole + n.frac);
  }

  lemma {:induction false} NoDigitsIsZero(n: Number)
    requires TrimLeft(n.whole + n.frac, IsZero) == ""
    ensures Value(n) == 0.0
  {
    TrimmedAmount(n.whole + n.frac);
    ScaledZero(n.exp - |n.frac|);
  }

  lemma {:induction false} ScaledZero(e: int)
    ensures Scaled(0, e) == 0.0
    decreases if e < 0 then -e else e
  {
    if e > 0 { ScaledZero(e - 1); } else if e < 0 { ScaledZero(e + 1); }
  }

  lemma Significant(whole: string, frac: string)
    requires AllDigits(whole) && AllDigits(frac)
    ensures var digits := TrimLeft(whole + frac, IsZero); AllDigits(digits) && (digits != "" ==> digits[0] != '0')
  {
    TrimsLeft(whole + frac, IsZero);
  }

  // Digits around a point with the value of `digits` and the point at its place.
  ghost predicate Placed(negative: bool, digits: string, point: int, whole: string, frac: string) {
    && whole != "" && AllDigits(whole) && AllDigits(frac) && (whole[0] == '0' ==> whole == "0")
    && Value(Number(negative, whole, frac, 0)) == Scaled(Signed(negative, Amount(digits)), point - |digits|)
  }

  // Padding zeros between the point and the digits, after the digits, or the point among them.
  lemma PlacedBefore(negative: bool, digits: string, zeros: nat)
    requires AllDigits(digits)
    ensures Placed(negative, digits, -(zeros as int), "0", Zeros(zeros) + digits)
  {
    PointBefore(digits, zeros);
  }

  lemma PlacedAfter(negative: bool, digits: string, zeros: nat)
    requires digits != "" && AllDigits(digits) && digits[0] != '0'
    ensures Placed(negative, digits, |digits| + zeros, digits + Zeros(zeros), "")
  {
    PointAfter(negative, digits, zeros);
    assert digits + Zeros(zeros) + "" == digits + Zeros(zeros);
  }

  lemma PlacedWithin(negative: bool, digits: string, point: nat)
    requires 0 < point < |digits| && AllDigits(digits) && digits[0] != '0'
    ensures Placed(negative, digits, point, digits[..point], digits[point..])
  {
    assert digits[..point] + digits[point..] == digits;
  }

  lemma PlacedTrimmed(negative: bool, digits: string, point: int, whole: string, frac: string)
    requires Placed(negative, digits, point, whole, frac)
    ensures Placed(negative, digits, point, whole, TrimRight(frac, IsZero)) && Normal(whole, TrimRight(frac, IsZero))
    ensures TrimRight(TrimRight(whole + ("." + frac), IsZero), IsPoint) == Render(whole, TrimRight(frac, IsZero))
  {
    TrimsRight(frac, IsZero);
    PointTrimmed(whole, frac);
    FracTrimmed(negative, whole, frac);
  }

  lemma PointBefore(digits: string, zeros: nat)
    ensures Amount("0" + (Zeros(zeros) + digits)) == Amount(digits)
  {
    var s := "0" + (Zeros(zeros) + digits);
    ZeroPrefix(s, zeros + 1);
    assert s[zeros+1..] == digits;
  }

  lemma PointAfter(negative: bool, digits: string, zeros: nat)
    ensures Scaled(Signed(negative, Amount(digits + Zeros(zeros))), 0) ==
              Scaled(Signed(negative, Amount(digits)), zeros)
  {
    var s := digits + Zeros(zeros);
    ZeroSuffix(s, |digits|);
    assert s[..|digits|] == digits;
    SignedTimes(negative, Amount(digits), Ten(zeros));
    ScaledShift(Signed(negative, Amount(digits)), zeros, zeros);
  }

  lemma SignedTimes(negative: bool, m: int, k: int)
    ensures Signed(negative, m * k) == Signed(negative, m) * k
  {}

  // Trailing zeros after the point do not matter.
  lemma FracTrimmed(negative: bool, whole: string, frac: string)
    ensures Value(Number(negative, whole, TrimRight(frac, IsZero), 0)) == Value(Number(negative, whole, frac, 0))
  {
    var kept := TrimRight(frac, IsZero);
    var s := whole + frac;
    TrimsRight(frac, IsZero);
    ZeroSuffix(s, |whole| + |kept|);
    assert s[..|whole| + |kept|] == whole + kept;
    var k := |frac| - |kept|;
    SignedTimes(negative, Amount(whole + kept), Ten(k));
    ScaledShift(Signed(negative, Amount(whole + kept)), -|kept|, k);
  }

  lemma TrimZeros(s: string, n: nat)
    requires s == "" || !IsZero(s[|s|-1])
    ensures TrimRight(s + Zeros(n), IsZero) == s
  {
    var all := s + Zeros(n);
    assert all[..|s|] == s;
    TrimRightIs(all, IsZero, |s|);
  }

  lemma ZerosTrimmed(whole: string, frac: string)
    ensures TrimRight(whole + ("." + frac), IsZero) == whole + ("." + TrimRight(frac, IsZero))
  {
    var kept := TrimRight(frac, IsZero);
    var s, n := whole + ("." + kept), |frac| - |kept|;
    TrimsRight(frac, IsZero);
    assert frac == kept + Zeros(n);
    assert whole + ("." + frac) == s + Zeros(n);
    assert s[|s|-1] == if kept == "" then '.' else kept[|kept|-1];
    TrimZeros(s, n);
  }

  lemma TrailingPoint(whole: string, frac: string)
    requires whole != "" && AllDigits(whole) && AllDigits(frac)
    ensures TrimRight(whole + ("." + frac), IsPoint) == Render(whole, frac)
  {
    var s := whole + ("." + frac);
    if frac == "" {
      assert s == whole + "." && s[..|whole|] == whole;
      TrimRightIs(s, IsPoint, |whole|);
      assert whole + "" == whole;
    } else {
      assert s[|s|-1] == frac[|frac|-1];
      TrimRightIs(s, IsPoint, |s|);
    }
  }

  // Stripping zeros and then the point from the right.
  lemma PointTrimmed(whole: string, frac: string)
    requires whole != "" && AllDigits(whole) && AllDigits(frac)
    ensures TrimRight(TrimRight(whole + ("." + frac), IsZero), IsPoint) == Render(whole, TrimRight(frac, IsZero))
  {
    ZerosTrimmed(whole, frac);
    KeptDigits(frac);
    TrailingPoint(whole, TrimRight(frac, IsZero));
  }

  lemma KeptDigits(frac: string)
    requires AllDigits(frac)
    ensures AllDigits(TrimRight(frac, IsZero))
  {
    TrimsRight(frac, IsZero);
  }

  // ---------------------------------------------------------------- the algorithm

  method ParseNumber(raw: string) returns (r: Outcome<Number>)
    ensures r == ReadTrimmed(TrimSpace(raw)) && (r.Ok? ==> AllDigits(r.value.whole) && AllDigits(r.value.frac))
  {
    var s := TrimSpace(raw);
    if s == "" {
      return Malformed;
    }
    var negative := false;
    if s[0] == '-' {
      negative, s := true, s[1..];
    } else if s[0] == '+' {
      s := s[1..];
    }
    if s == "" {
      return Malformed;
    }
    r := ParseUnsigned(negative, s);
  }

  method ParseUnsigned(negative: bool, s: string) returns (r: Outcome<Number>)
    ensures r == ReadUnsigned(negative, s) && (r.Ok? ==> AllDigits(r.value.whole) && AllDigits(r.value.frac))
  {
    var base, exp := s, 0;
    var e := Index(s, IsMark);
    if e >= 0 {
      base := s[..e];
      var parsed := ParseInt(s[e+1..]);
      if parsed.None? {
        return Malformed;
      }
      exp := parsed.value;
      if exp > MAX_EXPONENT || exp < -MAX_EXPONENT {
        return ExponentTooLarge;
      }
    }
    r := ParseParts(negative, base, exp);
  }

  method ParseParts(negative: bool, base: string, exp: int) returns (r: Outcome<Number>)
    ensures r == ReadParts(negative, base, exp) && (r.Ok? ==> AllDigits(r.value.whole) && AllDigits(r.value.frac))
  {
    var dot := Index(base, IsPoint);
    var whole, frac := base, "";
    if dot >= 0 {
      whole, frac := base[..dot], base[dot+1..];
    }
    if whole == "" && frac == "" {
      return Malformed;
    }
    for i := 0 to |whole|
      invariant AllDigits(whole[..i])
    {
      if whole[i] < '0' || whole[i] > '9' {
        return Malformed;
      }
    }
    assert whole[..|whole|] == whole;
    for i := 0 to |frac|
      invariant AllDigits(frac[..i])
    {
      if frac[i] < '0' || frac[i] > '9' {
        return Malformed;
      }
    }
    assert frac[..|frac|] == frac;
    return Ok(Number(negative, whole, frac, exp));
  }

  // The digits with the point at its place, without trailing zeros after it.
  method PlacePoint(negative: bool, digits: string, point: int)
    returns (text: string, ghost whole: string, ghost frac: string)
    requires digits != "" && AllDigits(digits) && digits[0] != '0'
    ensures Normal(whole, frac) && text == Render(whole, frac) && Placed(negative, digits, point, whole, frac)
  {
    if point <= 0 {
      text := "0." + Zeros(-point) + digits;
      whole, frac := "0", Zeros(-point) + digits;
      PlacedBefore(negative, digits, -point);
      assert text == "0" + "." + frac;
      BesidePoint("0", frac);
    } else if point >= |digits| {
      text := digits + Zeros(point - |digits|);
      whole, frac := text, "";
      PlacedAfter(negative, digits, point - |digits|);
      NoPoint(text);
    } else {
      text := digits[..point] + "." + digits[point..];
      whole, frac := digits[..point], digits[point..];
      PlacedWithin(negative, digits, point);
      BesidePoint(whole, frac);
    }
    if '.' in text {
      PlacedTrimmed(negative, digits, point, whole, frac);
      text := TrimRight(text, IsZero);
      text := TrimRight(text, IsPoint);
      frac := TrimRight(frac, IsZero);
    }
  }

  lemma BesidePoint(whole: string, frac: string)
    ensures whole + "." + frac == whole + ("." + frac) && '.' in whole + "." + frac
  {
    assert (whole + "." + frac)[|whole|] == '.';
  }

  lemma NoPoint(digits: string)
    requires AllDigits(digits)
    ensures '.' !in digits && digits + "" == digits
  {}

  method CanonicalText(n: Number) returns (r: string)
    requires AllDigits(n.whole) && AllDigits(n.frac)
    ensures Denotes(r, Value(n))
  {
    var digits := TrimLeft(n.whole + n.frac, IsZero);
    if digits == "" {
      ZeroDenotes(n);
      return "0";
    }
    var point;
    if TrimLeft(n.whole, IsZero) == "" {
      point := -(|n.frac| - |TrimLeft(n.frac, IsZero)|);
    } else {
      point := |TrimLeft(n.whole, IsZero)|;
    }
    Significant(n.whole, n.frac);
    var text, whole, frac := PlacePoint(n.negative, digits, point + n.exp);
    PlacedDenotes(n, digits, whole, frac);
    if text == "0" || text == "" {
      return "0";
    }
    if n.negative {
      return "-" + text;
    }
    NoSign(text);
    return text;
  }

  // The exact decimal text: exponents expanded, trailing fractional zeros stripped, no negative zero.
  method CanonicalizeNumber(raw: string) returns (r: Outcome<string>)
    ensures Canonicalizes(Read(raw), r)
  {
    var parsed := ParseNumber(raw);
    match parsed
    case Malformed => return Malformed;
    case ExponentTooLarge => return ExponentTooLarge;
    case Ok(n) =>
      var text := CanonicalText(n);
      return Ok(text);
  }

  lemma ZeroText()
    ensures Denotes("0", 0.0)
  {
    NoDigitsIsZero(Number(false, "0", "", 0));
    assert SignText(false) + Render("0", "") == "0";
    assert CanonicalAs("0", false, "0", "") && Value(Number(false, "0", "", 0)) == 0.0;
  }

  lemma RenderZero(whole: string, frac: string)
    requires Normal(whole, frac)
    ensures Render(whole, frac) == "0" <==> whole == "0" && frac == ""
    ensures Render(whole, frac) != ""
  {
    if frac == "" { assert Render(whole, frac) == whole; }
    assert |Render(whole, frac)| == |whole| + if frac == "" then 0 else 1 + |frac|;
  }

  // The last branches: zero has no sign.
  function SignedText(negative: bool, text: string): string {
    if text == "0" || text == "" then "0" else SignText(negative) + text
  }

  lemma SignedTextDenotes(negative: bool, whole: string, frac: string)
    requires Normal(whole, frac)
    ensures Denotes(SignedText(negative, Render(whole, frac)), Value(Number(negative, whole, frac, 0)))
  {
    RenderZero(whole, frac);
    if whole == "0" && frac == "" {
      ZeroText();
      NoDigitsIsZero(Number(negative, whole, frac, 0));
    } else {
      assert CanonicalAs(SignText(negative) + Render(whole, frac), negative, whole, frac);
    }
  }

  lemma ZeroDenotes(n: Number)
    requires TrimLeft(n.whole + n.frac, IsZero) == ""
    ensures Denotes("0", Value(n))
  {
    NoDigitsIsZero(n);
    ZeroText();
  }

  lemma PlacedValue(n: Number, digits: string, whole: string, frac: string)
    requires digits == TrimLeft(n.whole + n.frac, IsZero) && digits != ""
    requires Placed(n.negative, digits, PointOf(n.whole, n.frac) + n.exp, whole, frac)
    ensures Value(Number(n.negative, whole, frac, 0)) == Value(n)
  {
    PointPlaces(n);
  }

  lemma PlacedDenotes(n: Number, digits: string, whole: string, frac: string)
    requires digits == TrimLeft(n.whole + n.frac, IsZero) && digits != "" && Normal(whole, frac)
    requires Placed(n.negative, digits, PointOf(n.whole, n.frac) + n.exp, whole, frac)
    ensures Denotes(SignedText(n.negative, Render(whole, frac)), Value(n))
  {
    PlacedValue(n, digits, whole, frac);
    SignedTextDenotes(n.negative, whole, frac);
  }

  lemma NoSign(text: string)
    ensures SignText(false) + text == text
  {}

  // ---------------------------------------------------------------- one text per value

  lemma {:induction false} DigitsUnique(a: string, b: string)
    requires AllDigits(a) && AllDigits(b) && |a| == |b| && Amount(a) == Amount(b)
    ensures a == b
  {
    if a != "" {
      DigitsUnique(a[..|a|-1], b[..|b|-1]);
      assert a == a[..|a|-1] + [a[|a|-1]] && b == b[..|b|-1] + [b[|b|-1]];
    }
  }

  lemma {:induction false} LeadingDigit(s: string)
    requires AllDigits(s) && s != "" && s[0] != '0'
    ensures Amount(s) >= Ten(|s| - 1)
  {
    if |s| > 1 { LeadingDigit(s[..|s|-1]); }
  }

  lemma {:induction false} TenGrows(m: nat, n: nat)
    requires m <= n
    ensures Ten(m) <= Ten(n)
    decreases n
  {
    if m < n { TenGrows(m, n - 1); }
  }

  predicate Unpadded(s: string) {
    s != "" && AllDigits(s) && (s[0] == '0' ==> s == "0")
  }

  lemma {:induction false} ShorterIsLess(a: string, b: string)
    requires Unpadded(a) && Unpadded(b) && |a| < |b|
    ensures Amount(a) < Amount(b)
  {
    AmountBounds(a);
    LeadingDigit(b);
    TenGrows(|a|, |b| - 1);
  }

  lemma UnpaddedUnique(a: string, b: string)
    requires Unpadded(a) && Unpadded(b) && Amount(a) == Amount(b)
    ensures a == b
  {
    if |a| < |b| { ShorterIsLess(a, b); } else if |b| < |a| { ShorterIsLess(b, a); } else { DigitsUnique(a, b); }
  }

  lemma QuotientUnique(p: int, q: int, r: int, s: int, t: int)
    requires p * t + q == r * t + s && 0 <= q < t && 0 <= s < t
    ensures p == r && q == s
  {
    Distributes(p, r, t);
    if p > r { AtLeast(p - r, t); } else if p < r { AtLeast(r - p, t); Distributes(r, p, t); }
  }

  lemma {:induction false} AtLeast(d: int, t: int)
    requires d >= 1 && t >= 0
    ensures d * t >= t
    decreases d
  {
    if d > 1 { AtLeast(d - 1, t); Distributes(d, 1, t); }
  }

  lemma SamePartsUnique(w: string, f: string, v: string, g: string)
    requires Normal(w, f) && Normal(v, g) && |f| == |g| && Amount(w + f) == Amount(v + g)
    ensures w == v && f == g
  {
    AmountAppend(w, f);
    AmountAppend(v, g);
    AmountBounds(f);
    AmountBounds(g);
    QuotientUnique(Amount(w), Amount(f), Amount(v), Amount(g), Ten(|f|));
    UnpaddedUnique(w, v);
    DigitsUnique(f, g);
  }

  lemma LastDigit(w: string, f: string)
    requires Normal(w, f) && f != ""
    ensures Amount(w + f) % 10 != 0
  {
    var s := w + f;
    assert s[|s|-1] == f[|f|-1];
    assert Amount(s) == 10 * Amount(s[..|s|-1]) + (f[|f|-1] as int - '0' as int);
  }

  lemma NotMultiple(p: int, n: int, e: int)
    requires n % 10 != 0
    ensures Scaled(10 * p, e) != Scaled(n, e)
  {
    if Scaled(10 * p, e) == Scaled(n, e) { ScaledEqual(10 * p, n, e); }
  }

  lemma TenFactor(m: int, k: nat)
    requires k > 0
    ensures m * Ten(k) == 10 * (m * Ten(k - 1))
  {}

  lemma ScaledDiffers(m: int, n: int, e: int, k: nat)
    requires k > 0 && n % 10 != 0
    ensures Scaled(m, e) != Scaled(n, e - k)
  {
    ScaledShift(m, e, k);
    TenFactor(m, k);
    NotMultiple(m * Ten(k - 1), n, e - k);
  }

  // More places after the point cannot give the same value.
  lemma LongerDiffers(negative: bool, w: string, f: string, minus: bool, v: string, g: string)
    requires Normal(w, f) && Normal(v, g) && |f| < |g|
    ensures Value(Number(negative, w, f, 0)) != Value(Number(minus, v, g, 0))
  {
    LastDigit(v, g);
    ScaledDiffers(Signed(negative, Amount(w + f)), Signed(minus, Amount(v + g)), -|f|, |g| - |f|);
  }

  lemma NormalNonZero(w: string, f: string)
    requires Normal(w, f) && !(w == "0" && f == "")
    ensures Amount(w + f) > 0
  {
    AmountBounds(w + f);
    if f != "" {
      LastDigit(w, f);
    } else {
      assert w + f == w;
      LeadingDigit(w);
      TenPositive(|w| - 1);
    }
  }

  lemma SignsAgree(s: string, negative: bool, w: string, f: string, t: string, minus: bool, v: string, g: string)
    requires CanonicalAs(s, negative, w, f) && CanonicalAs(t, minus, v, g)
    requires Signed(negative, Amount(w + f)) == Signed(minus, Amount(v + g))
    ensures negative == minus && Amount(w + f) == Amount(v + g)
  {
    AmountBounds(w + f);
    AmountBounds(v + g);
    if negative { NormalNonZero(w, f); }
    if minus { NormalNonZero(v, g); }
  }

  lemma SameParts(s: string, negative: bool, w: string, f: string, t: string, minus: bool, v: string, g: string)
    requires CanonicalAs(s, negative, w, f) && CanonicalAs(t, minus, v, g)
    requires Value(Number(negative, w, f, 0)) == Value(Number(minus, v, g, 0))
    ensures s == t
  {
    if |f| < |g| { LongerDiffers(negative, w, f, minus, v, g); }
    if |g| < |f| { LongerDiffers(minus, v, g, negative, w, f); }
    ScaledEqual(Signed(negative, Amount(w + f)), Signed(minus, Amount(v + g)), -|f|);
    SignsAgree(s, negative, w, f, t, minus, v, g);
    SamePartsUnique(w, f, v, g);
  }

  // A value has one canonical text.
  lemma CanonicalTextIsUnique(s: string, t: string, v: real)
    requires Denotes(s, v) && Denotes(t, v)
    ensures s == t
  {
    var negative, w, f :| CanonicalAs(s, negative, w, f) && Value(Number(negative, w, f, 0)) == v;
    var minus, u, g :| CanonicalAs(t, minus, u, g) && Value(Number(minus, u, g, 0)) == v;
    SameParts(s, negative, w, f, t, minus, u, g);
  }

  // A canonical text reads back as its value.
  lemma CanonicalTextReads(s: string, v: real)
    requires Denotes(s, v)
    ensures Read(s).Ok? && ValueOf(s) == v
  {
    var negative, w, f :| CanonicalAs(s, negative, w, f) && Value(Number(negative, w, f, 0)) == v;
    RenderReads(negative, w, f);
  }

  // Two accepted numerals get the same text exactly when they have the same value.
  lemma EqualTextsIffEqualValues(a: string, r: string, b: string, s: string)
    requires Read(a).Ok? && Canonicalizes(Read(a), Ok(r)) && Read(b).Ok? && Canonicalizes(Read(b), Ok(s))
    ensures r == s <==> ValueOf(a) == ValueOf(b)
  {
    var x, y := Read(a).value, Read(b).value;
    CanonicalTextReads(r, Value(x));
    CanonicalTextReads(s, Value(y));
    if Value(x) == Value(y) { CanonicalTextIsUnique(r, s, Value(x)); }
  }

  // The text has the value of the numeral and is left alone by a second pass.
  lemma CanonicalTextIsFixed(a: string, r: string, again: Outcome<string>)
    requires Read(a).Ok? && Canonicalizes(Read(a), Ok(r)) && Canonicalizes(Read(r), again)
    ensures Read(r).Ok? && ValueOf(r) == ValueOf(a) && again == Ok(r)
  {
    var v := Value(Read(a).value);
    CanonicalTextReads(r, v);
    CanonicalTextIsUnique(r, again.value, v);
  }
}
