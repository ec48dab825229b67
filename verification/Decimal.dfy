// Canonical decimal text without floating point: internal/platform/jsonpath/path_lookup.go. Values are
// exact rationals, held as reals.
module Decimal {
  import opened Prelude
  import opened Text

  datatype Outcome<T> = Ok(value: T) | Malformed | ExponentTooLarge

  // The parts of a numeral: the digits before and after the point and the power of ten.
  datatype Number = Number(negative: bool, whole: string, frac: string, exp: int)

  const MAX_EXPONENT := 308

  // ---------------------------------------------------------------- text

  predicate IsZero(c: char) { c == '0' }

  predicate IsPoint(c: char) { c == '.' }

  predicate IsMark(c: char) { c == 'e' || c == 'E' }

  predicate IsDigit(c: char) { '0' <= c <= '9' }

  predicate AllDigits(s: string) {
    forall i | 0 <= i < |s| :: IsDigit(s[i])
  }

  function Zeros(n: nat): (z: string)
    ensures |z| == n
  {
    seq(n, _ => '0')
  }

  // The number a digit string denotes.
  function Amount(s: string): int {
    if s == [] then 0 else Amount(s[..|s|-1]) * 10 + (s[|s|-1] as int - '0' as int)
  }

  // strconv.ParseInt in base 10 and 64 bits: a sign, at least one digit, and no overflow.
  function ParseInt(s: string): Option<int> {
    var signed := s != [] && (s[0] == '-' || s[0] == '+');
    var digits := if signed then s[1..] else s;
    var n := if signed && s[0] == '-' then -Amount(digits) else Amount(digits);
    if digits == [] || !AllDigits(digits) || n < MIN_INT64 || n > MAX_INT64 then None else Some(n)
  }

  // ---------------------------------------------------------------- reading

  function ReadParts(negative: bool, base: string, exp: int): Outcome<Number> {
    var dot := Index(base, IsPoint);
    var whole := if dot >= 0 then base[..dot] else base;
    var frac := if dot >= 0 then base[dot+1..] else "";
    if (whole == "" && frac == "") || !AllDigits(whole) || !AllDigits(frac) then Malformed
    else Ok(Number(negative, whole, frac, exp))
  }

  function ReadUnsigned(negative: bool, s: string): Outcome<Number> {
    var e := Index(s, IsMark);
    if e < 0 then ReadParts(negative, s, 0)
    else
      match ParseInt(s[e+1..])
      case None => Malformed
      case Some(exp) => if exp > MAX_EXPONENT || exp < -MAX_EXPONENT then ExponentTooLarge
        else ReadParts(negative, s[..e], exp)
  }

  function ReadTrimmed(s: string): Outcome<Number> {
    if s == "" then Malformed
    else
      var unsigned := if s[0] == '-' || s[0] == '+' then s[1..] else s;
      if unsigned == "" then Malformed else ReadUnsigned(s[0] == '-', unsigned)
  }

  // What a text denotes, or which error it is.
  function Read(raw: string): Outcome<Number> {
    ReadTrimmed(TrimSpace(raw))
  }

  // ---------------------------------------------------------------- values

  function Ten(n: nat): nat {
    if n == 0 then 1 else 10 * Ten(n - 1)
  }

  // m times ten to the e, moving the point one place at a time.
  function Scaled(m: int, e: int): real
    decreases if e < 0 then -e else e
  {
    if e == 0 then m as real else if e > 0 then Scaled(10 * m, e - 1) else Scaled(m, e + 1) / 10.0
  }

  function Signed(negative: bool, m: int): int {
    if negative then -m else m
  }

  function Value(n: Number): real {
    Scaled(Signed(n.negative, Amount(n.whole + n.frac)), n.exp - |n.frac|)
  }

  // The exact value of a text that is a number.
  function ValueOf(raw: string): real
    requires Read(raw).Ok?
  {
    Value(Read(raw).value)
  }

  lemma {:induction false} ScaledTimesTen(m: int, e: int)
    ensures Scaled(10 * m, e) == 10.0 * Scaled(m, e)
    decreases if e < 0 then -e else e
  {
    if e > 0 { ScaledTimesTen(10 * m, e - 1); } else if e < 0 { ScaledTimesTen(m, e + 1); }
  }

  lemma {:induction false} ScaledShift(m: int, e: int, k: nat)
    ensures Scaled(m * Ten(k), e - k) == Scaled(m, e)
    decreases k
  {
    if k > 0 {
      ScaledShift(m, e, k - 1);
      var n := m * Ten(k - 1);
      assert m * Ten(k) == 10 * n;
      ScaledTimesTen(n, e - k);
    }
  }

  lemma {:induction false} ScaledEqual(m: int, n: int, e: int)
    requires Scaled(m, e) == Scaled(n, e)
    ensures m == n
    decreases if e < 0 then -e else e
  {
    if e > 0 { ScaledEqual(10 * m, 10 * n, e - 1); } else if e < 0 { ScaledEqual(m, n, e + 1); }
  }

  lemma {:induction false} TenPositive(n: nat)
    ensures Ten(n) >= 1
  {
    if n > 0 { TenPositive(n - 1); }
  }

  lemma {:induction false} AmountAppend(a: string, b: string)
    ensures Amount(a + b) == Amount(a) * Ten(|b|) + Amount(b)
    decreases |b|
  {
    if b == [] {
      assert a + b == a;
    } else {
      var init := b[..|b|-1];
      assert (a + b)[..|a + b|-1] == a + init;
      AmountAppend(a, init);
      assert Amount(a) * Ten(|b|) == 10 * (Amount(a) * Ten(|init|));
    }
  }

  lemma {:induction false} AmountBounds(s: string)
    requires AllDigits(s)
    ensures 0 <= Amount(s) < Ten(|s|)
  {
    if s != [] { AmountBounds(s[..|s|-1]); }
  }

  lemma {:induction false} AmountZeros(n: nat)
    ensures Amount(Zeros(n)) == 0
  {
    if n > 0 {
      assert Zeros(n)[..n-1] == Zeros(n - 1);
      AmountZeros(n - 1);
    }
  }

  lemma ZeroPrefix(s: string, k: nat)
    requires k <= |s| && forall i | 0 <= i < k :: s[i] == '0'
    ensures Amount(s[k..]) == Amount(s)
  {
    assert s == s[..k] + s[k..] && s[..k] == Zeros(k);
    AmountAppend(s[..k], s[k..]);
    AmountZeros(k);
  }

  lemma ZeroSuffix(s: string, k: nat)
    requires k <= |s| && forall i | k <= i < |s| :: s[i] == '0'
    ensures Amount(s) == Amount(s[..k]) * Ten(|s| - k)
  {
    assert s == s[..k] + s[k..] && s[k..] == Zeros(|s| - k);
    AmountAppend(s[..k], s[k..]);
    AmountZeros(|s| - k);
  }

  // ---------------------------------------------------------------- the grammar

  datatype Exponent = Exponent(mark: char, sign: string, digits: string)

  datatype Spelling = Spelling(sign: string, whole: string, point: bool, frac: string, exponent: Option<Exponent>)

  // A sign, digits with at most one point among or beside them, and an exponent with at least one digit.
  predicate IsNumeral(p: Spelling) {
    && p.sign in ["", "+", "-"] && AllDigits(p.whole) && AllDigits(p.frac) && (p.whole != "" || p.frac != "")
    && (!p.point ==> p.frac == "")
    && match p.exponent
       case None => true
       case Some(x) => IsMark(x.mark) && x.sign in ["", "+", "-"] && x.digits != "" && AllDigits(x.digits)
  }

  // Section 6 of RFC 8259: no plus sign, no leading zero, a digit on each side of the point.
  predicate IsJsonNumber(p: Spelling) {
    && IsNumeral(p) && p.sign != "+" && p.whole != "" && (p.whole[0] == '0' ==> p.whole == "0")
       && (p.point ==> p.frac != "")
  }

  function BaseText(p: Spelling): string {
    p.whole + if p.point then "." + p.frac else ""
  }

  function ExponentText(x: Option<Exponent>): string {
    match x
    case None => ""
    case Some(x) => [x.mark] + (x.sign + x.digits)
  }

  function Unsigned(p: Spelling): string {
    BaseText(p) + ExponentText(p.exponent)
  }

  function Spelled(p: Spelling): string {
    p.sign + Unsigned(p)
  }

  function ExponentOf(p: Spelling): int {
    match p.exponent
    case None => 0
    case Some(x) => Signed(x.sign == "-", Amount(x.digits))
  }

  // What a numeral denotes: an exponent beyond 64 bits is malformed, one beyond 308 too large.
  function Meaning(p: Spelling): Outcome<Number> {
    var e := ExponentOf(p);
    if e < MIN_INT64 || e > MAX_INT64 then Malformed
    else if e > MAX_EXPONENT || e < -MAX_EXPONENT then ExponentTooLarge
    else Ok(Number(p.sign == "-", p.whole, p.frac, e))
  }

  lemma ReadsParts(p: Spelling, negative: bool, exp: int)
    requires IsNumeral(p)
    ensures ReadParts(negative, BaseText(p), exp) == Ok(Number(negative, p.whole, p.frac, exp))
  {
    var base := BaseText(p);
    if p.point {
      assert base[|p.whole|] == '.';
      assert forall i | 0 <= i < |p.whole| :: base[i] == p.whole[i];
      assert base[..|p.whole|] == p.whole && base[|p.whole|+1..] == p.frac;
      IndexIs(base, IsPoint, |p.whole|);
    } else {
      assert base == p.whole;
      IndexIs(base, IsPoint, |base|);
    }
  }

  lemma ReadsExponent(x: Exponent)
    requires x.sign in ["", "+", "-"] && x.digits != "" && AllDigits(x.digits)
    ensures var n := Signed(x.sign == "-", Amount(x.digits));
            ParseInt(x.sign + x.digits) == if n < MIN_INT64 || n > MAX_INT64 then None else Some(n)
  {
    var s := x.sign + x.digits;
    if x.sign == "" {
      assert s == x.digits;
      assert IsDigit(s[0]);
    } else {
      assert s[1..] == x.digits;
    }
  }

  predicate Plain(base: string) {
    forall i | 0 <= i < |base| :: IsDigit(base[i]) || base[i] == '.'
  }

  // The second half of reading, given the text before the exponent mark and the exponent.
  function ReadScaled(negative: bool, base: string, exp: Option<int>): Outcome<Number> {
    match exp
    case None => Malformed
    case Some(e) => if e > MAX_EXPONENT || e < -MAX_EXPONENT then ExponentTooLarge else ReadParts(negative, base, e)
  }

  lemma WithoutExponent(negative: bool, base: string)
    requires Plain(base)
    ensures ReadUnsigned(negative, base) == ReadParts(negative, base, 0)
  {
    IndexIs(base, IsMark, |base|);
  }

  lemma WithExponent(negative: bool, base: string, mark: char, tail: string)
    requires Plain(base) && IsMark(mark)
    ensures ReadUnsigned(negative, base + ([mark] + tail)) == ReadScaled(negative, base, ParseInt(tail))
  {
    var s := base + ([mark] + tail);
    assert s[|base|] == mark && forall i | 0 <= i < |base| :: s[i] == base[i];
    IndexIs(s, IsMark, |base|);
    assert s[..|base|] == base && s[|base|+1..] == tail;
  }

  lemma NoExponentText(p: Spelling)
    requires p.exponent.None?
    ensures Unsigned(p) == BaseText(p)
  {}

  lemma PlainMeans(p: Spelling)
    requires IsNumeral(p) && p.exponent.None?
    ensures ReadUnsigned(p.sign == "-", Unsigned(p)) == Meaning(p)
  {
    ReadsParts(p, p.sign == "-", 0);
    WithoutExponent(p.sign == "-", BaseText(p));
    NoExponentText(p);
  }

  lemma ScaledMeans(p: Spelling)
    requires IsNumeral(p) && p.exponent.Some?
    ensures var x := p.exponent.value;
            ReadScaled(p.sign == "-", BaseText(p), ParseInt(x.sign + x.digits)) == Meaning(p)
  {
    ReadsParts(p, p.sign == "-", ExponentOf(p));
    ReadsExponent(p.exponent.value);
  }

  lemma ReadsUnsigned(p: Spelling)
    requires IsNumeral(p)
    ensures ReadUnsigned(p.sign == "-", Unsigned(p)) == Meaning(p)
  {
    match p.exponent
    case None => PlainMeans(p);
    case Some(x) =>
      ScaledMeans(p);
      WithExponent(p.sign == "-", BaseText(p), x.mark, x.sign + x.digits);
  }

  lemma SpelledEnds(p: Spelling)
    requires IsNumeral(p)
    ensures var s := Spelled(p); s != "" && !IsSpace(s[0]) && !IsSpace(s[|s|-1])
  {
    var s := Spelled(p);
    assert forall i | 0 <= i < |s| ::
             s[i] in p.sign || s[i] in p.whole || s[i] == '.' || s[i] in p.frac || s[i] in ExponentText(p.exponent);
    assert forall i | 0 <= i < |s| :: !IsSpace(s[i]);
  }

  lemma WithoutSign(s: string)
    requires s != "" && s[0] != '-' && s[0] != '+'
    ensures ReadTrimmed(s) == ReadUnsigned(false, s)
  {}

  lemma WithSign(c: char, rest: string)
    requires rest != "" && (c == '-' || c == '+')
    ensures ReadTrimmed([c] + rest) == ReadUnsigned(c == '-', rest)
  {
    assert ([c] + rest)[1..] == rest;
  }

  lemma UnsignedStart(p: Spelling)
    requires IsNumeral(p)
    ensures Unsigned(p) != "" && (IsDigit(Unsigned(p)[0]) || Unsigned(p)[0] == '.')
  {
    assert BaseText(p) != "" && Unsigned(p)[0] == BaseText(p)[0];
  }

  lemma ReadsSigned(p: Spelling)
    requires IsNumeral(p)
    ensures ReadTrimmed(Spelled(p)) == Meaning(p)
  {
    ReadsUnsigned(p);
    UnsignedStart(p);
    if p.sign == "" {
      assert Spelled(p) == Unsigned(p);
      WithoutSign(Unsigned(p));
    } else {
      assert p.sign == [p.sign[0]];
      WithSign(p.sign[0], Unsigned(p));
    }
  }

  // Every numeral, padded or not, reads as what it denotes.
  lemma NumeralsAreRead(before: string, p: Spelling, after: string)
    requires AllSpace(before) && AllSpace(after) && IsNumeral(p)
    ensures Read(before + Spelled(p) + after) == Meaning(p)
  {
    SpelledEnds(p);
    TrimPadded(before, Spelled(p), after);
    ReadsSigned(p);
  }

  // Every JSON number is accepted, unless its exponent is out of range.
  lemma JsonNumbersAreAccepted(p: Spelling)
    requires IsJsonNumber(p)
    ensures Read(Spelled(p)).Ok? <==> -MAX_EXPONENT <= ExponentOf(p) <= MAX_EXPONENT
    ensures Read(Spelled(p)).Ok? ==> Read(Spelled(p)).value == Number(p.sign == "-", p.whole, p.frac, ExponentOf(p))
  {
    NumeralsAreRead("", p, "");
    assert "" + Spelled(p) + "" == Spelled(p);
  }

  ghost predicate PaddedNumeral(raw: string, before: string, p: Spelling, after: string) {
    AllSpace(before) && AllSpace(after) && IsNumeral(p) && raw == before + Spelled(p) + after
  }

  lemma {:induction false} LeftSplits(s: string) returns (before: string)
    ensures AllSpace(before) && s == before + TrimLeft(s, IsSpace)
  {
    TrimsLeft(s, IsSpace);
    before := s[..|s| - |TrimLeft(s, IsSpace)|];
  }

  lemma {:induction false} RightSplits(s: string) returns (after: string)
    ensures AllSpace(after) && s == TrimRight(s, IsSpace) + after
  {
    TrimsRight(s, IsSpace);
    var n := |TrimRight(s, IsSpace)|;
    after := s[n..];
    forall i | 0 <= i < |after| ensures IsSpace(after[i]) { assert after[i] == s[n + i]; }
  }

  lemma PartsSpelled(negative: bool, base: string, exp: int) returns (point: bool)
    requires ReadParts(negative, base, exp).Ok?
    ensures var n := ReadParts(negative, base, exp).value;
            && base == n.whole + (if point then "." + n.frac else "") && AllDigits(n.whole) && AllDigits(n.frac)
            && (n.whole != "" || n.frac != "") && (!point ==> n.frac == "")
  {
    var dot := Index(base, IsPoint);
    point := dot >= 0;
    Indexes(base, IsPoint);
    if point {
      assert base == base[..dot] + ([base[dot]] + base[dot+1..]);
      assert [base[dot]] == ".";
    }
  }

  lemma ExponentSpelled(tail: string) returns (sign: string, digits: string)
    requires ParseInt(tail).Some?
    ensures tail == sign + digits && sign in ["", "+", "-"] && digits != "" && AllDigits(digits)
  {
    var signed := tail[0] == '-' || tail[0] == '+';
    sign, digits := if signed then tail[..1] else "", if signed then tail[1..] else tail;
    assert signed ==> sign == [tail[0]];
  }

  lemma PlainSpelled(negative: bool, s: string) returns (p: Spelling)
    requires ReadParts(negative, s, 0).Ok?
    ensures IsNumeral(p) && p.sign == "" && p.exponent.None? && BaseText(p) == s && Unsigned(p) == s
  {
    var point := PartsSpelled(negative, s, 0);
    var n := ReadParts(negative, s, 0).value;
    p := Spelling("", n.whole, point, n.frac, None);
    assert BaseText(p) + "" == BaseText(p);
  }

  lemma ScaledSpelled(negative: bool, base: string, mark: char, tail: string) returns (p: Spelling)
    requires IsMark(mark) && ParseInt(tail).Some? && ReadParts(negative, base, 0).Ok?
    ensures IsNumeral(p) && p.sign == "" && Unsigned(p) == base + ([mark] + tail)
  {
    var q := PlainSpelled(negative, base);
    var sign, digits := ExponentSpelled(tail);
    p := q.(exponent := Some(Exponent(mark, sign, digits)));
    assert BaseText(p) == BaseText(q);
    assert ExponentText(p.exponent) == [mark] + tail;
  }

  lemma UnsignedSpelled(negative: bool, s: string) returns (p: Spelling)
    requires ReadUnsigned(negative, s).Ok?
    ensures IsNumeral(p) && p.sign == "" && Unsigned(p) == s
  {
    var e := Index(s, IsMark);
    Indexes(s, IsMark);
    if e < 0 {
      p := PlainSpelled(negative, s);
    } else {
      p := ScaledSpelled(negative, s[..e], s[e], s[e+1..]);
      MarkSplits(s, e);
    }
  }

  lemma MarkSplits(s: string, e: nat)
    requires e < |s|
    ensures s == s[..e] + ([s[e]] + s[e+1..])
  {}

  lemma TrimmedSpelled(s: string) returns (p: Spelling)
    requires ReadTrimmed(s).Ok?
    ensures IsNumeral(p) && Spelled(p) == s
  {
    var signed := s[0] == '-' || s[0] == '+';
    var q := UnsignedSpelled(s[0] == '-', if signed then s[1..] else s);
    p := q.(sign := if signed then [s[0]] else "");
    SignedText(q, p.sign);
    assert p.sign + Unsigned(q) == s;
  }

  lemma SignedText(p: Spelling, sign: string)
    ensures Spelled(p.(sign := sign)) == sign + Unsigned(p)
  {}

  // Nothing but a padded numeral is accepted.
  lemma OnlyNumeralsAreRead(raw: string)
    requires Read(raw).Ok?
    ensures exists before, p, after :: PaddedNumeral(raw, before, p, after)
  {
    var before := LeftSplits(raw);
    var after := RightSplits(TrimLeft(raw, IsSpace));
    var p := TrimmedSpelled(TrimSpace(raw));
    Reassociate(before, TrimSpace(raw), after);
    assert PaddedNumeral(raw, before, p, after);
  }

  lemma Reassociate(a: string, b: string, c: string)
    ensures a + (b + c) == a + b + c
  {}
}
