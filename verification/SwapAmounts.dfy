/**
 Exact decimal arithmetic for swap amounts: `convert_to_smallest_units` and
 `parse_zatoshis`, over arbitrary strings. Machine widths are explicit; a
 product or power that leaves 128 bits without a check is its own outcome.
*/
module SwapAmounts {
  import opened Wrappers

  const U64: nat := 0x1_0000_0000_0000_0000
  const U128: nat := 0x1_0000_0000_0000_0000_0000_0000_0000_0000

  // ---------------------------------------------------------------------------
  // Numerals
  // ---------------------------------------------------------------------------

  predicate IsDigit(c: char) {
    '0' <= c <= '9'
  }

  predicate AllDigits(s: string) {
    forall i | 0 <= i < |s| :: IsDigit(s[i])
  }

  function Val(s: string): nat
    requires AllDigits(s)
  {
    if s == [] then 0 else Val(s[..|s| - 1]) * 10 + (s[|s| - 1] - '0') as nat
  }

  function Pow10(k: nat): (r: nat)
    ensures r > 0
  {
    if k == 0 then 1 else 10 * Pow10(k - 1)
  }

  function Quotient(n: nat, k: nat): nat
    requires k > 0
  {
    n / k
  }

  /** The integer part of `w.f * 10^decimals`. */
  function FloorScaled(w: string, f: string, decimals: nat): nat
    requires AllDigits(w) && AllDigits(f)
  {
    Quotient(Val(w + f) * Pow10(decimals), Pow10(|f|))
  }

  /** Decimal digits without leading zeros. */
  function ToDecimal(n: nat): (s: string)
    ensures s != [] && AllDigits(s) && Val(s) == n
    ensures |s| > 1 ==> s[0] != '0'
  {
    var last := [(n % 10) as char + '0'];
    if n < 10 then
      assert last[..0] == [];
      last
    else
      var s := ToDecimal(n / 10) + last;
      assert s[..|s| - 1] == ToDecimal(n / 10);
      assert |ToDecimal(n / 10)| == 1 ==> Val(ToDecimal(n / 10)) > 0;
      s
  }

  lemma {:induction false} ValConcat(a: string, b: string)
    requires AllDigits(a) && AllDigits(b)
    ensures Val(a + b) == Val(a) * Pow10(|b|) + Val(b)
    decreases |b|
  {
    if b == [] {
      assert a + b == a;
    } else {
      var init, n := b[..|b| - 1], Pow10(|b| - 1);
      ValConcat(a, init);
      assert (a + b)[..|a + b| - 1] == a + init;
      assert Val(a) * (10 * n) == 10 * (Val(a) * n);
    }
  }

  lemma {:induction false} ValBound(s: string)
    requires AllDigits(s)
    ensures Val(s) < Pow10(|s|)
  {
    if s != [] {
      ValBound(s[..|s| - 1]);
    }
  }

  lemma {:induction false} Pow10Sum(a: nat, b: nat)
    ensures Pow10(a + b) == Pow10(a) * Pow10(b)
  {
    if a > 0 {
      Pow10Sum(a - 1, b);
      assert 10 * (Pow10(a - 1) * Pow10(b)) == 10 * Pow10(a - 1) * Pow10(b);
    }
  }

  lemma {:induction false} Pow10Grows(a: nat, b: nat)
    requires a <= b
    ensures Pow10(a) <= Pow10(b)
  {
    if a < b {
      Pow10Grows(a, b - 1);
    }
  }

  lemma Pow10Sixteen()
    ensures Pow10(8) == 100_000_000 && Pow10(16) == 10_000_000_000_000_000
  {
    assert Pow10(4) == 10_000;
    hide Pow10;
    Pow10Sum(4, 4);
    Pow10Sum(8, 8);
  }

  lemma Pow10Six()
    ensures Pow10(6) == 1_000_000
  {
    assert Pow10(3) == 1000;
    hide Pow10;
    Pow10Sum(3, 3);
  }

  /** 128 bits hold every power of ten up to the 38th, and no further. */
  lemma Pow10Limits()
    ensures Pow10(8) == 100_000_000
    ensures Pow10(38) < U128 <= Pow10(39) && U128 <= 9 * Pow10(38)
  {
    assert Pow10(39) == 10 * Pow10(38);
    hide Pow10;
    Pow10Sixteen();
    Pow10Six();
    Pow10Sum(16, 16);
    Pow10Sum(32, 6);
  }

  lemma MulMonotone(a: nat, b: nat, k: nat)
    requires a <= b
    ensures a * k <= b * k
  {
  }

  lemma QuotientIs(n: nat, k: nat, q: nat, r: nat)
    requires n == q * k + r && r < k
    ensures Quotient(n, k) == q
  {
    var p := n / k;
    assert p * k <= n < (p + 1) * k;
    if p + 1 <= q {
      MulMonotone(p + 1, q, k);
    } else if q + 1 <= p {
      MulMonotone(q + 1, p, k);
    }
  }

  lemma ProductBelow(v: nat, a: nat, b: nat)
    requires v < a && b > 0
    ensures v * b < a * b
  {
    MulMonotone(v + 1, a, b);
  }

  lemma FloorOfSum(n: nat, v: nat, d: nat, k: nat)
    requires k > 0
    ensures Quotient((n * k + v) * d, k) == n * d + Quotient(v * d, k)
  {
    var vd, nd := v * d, n * d;
    var q, r := vd / k, vd % k;
    assert (n * k + v) * d == nd * k + vd by {
      assert (n * k + v) * d == n * k * d + v * d;
      assert n * k * d == n * d * k;
    }
    SplitProduct(nd, q, k);
    QuotientIs(nd * k + vd, k, nd + q, r);
  }

  lemma SplitProduct(a: nat, b: nat, k: nat)
    ensures (a + b) * k == a * k + b * k
  {
  }

  // ---------------------------------------------------------------------------
  // String pieces of the standard library
  // ---------------------------------------------------------------------------

  /** The Unicode White_Space characters. */
  predicate IsWhitespace(c: char) {
    || '\t' <= c <= '\r' || c == ' ' || c == '\U{85}' || c == '\U{A0}' || c == '\U{1680}'
    || '\U{2000}' <= c <= '\U{200A}' || c == '\U{2028}' || c == '\U{2029}' || c == '\U{202F}'
    || c == '\U{205F}' || c == '\U{3000}'
  }

  function TrimStart(s: string): string {
    if s != [] && IsWhitespace(s[0]) then TrimStart(s[1..]) else s
  }

  function TrimEnd(s: string): string {
    if s != [] && IsWhitespace(s[|s| - 1]) then TrimEnd(s[..|s| - 1]) else s
  }

  function Trim(s: string): string {
    TrimEnd(TrimStart(s))
  }

  /** The parts around the first dot. */
  function SplitOnce(s: string): Option<(string, string)> {
    if s == [] then None
    else if s[0] == '.' then Some(([], s[1..]))
    else
      match SplitOnce(s[1..])
      case None => None
      case Some((a, b)) => Some(([s[0]] + a, b))
  }

  /** Parsing an unsigned integer: an optional plus sign, then digits. */
  function ParseUnsigned(s: string, limit: nat): Option<nat> {
    var digits := if |s| > 1 && s[0] == '+' then s[1..] else s;
    if digits == [] || !AllDigits(digits) then None
    else if Val(digits) >= limit then None
    else Some(Val(digits))
  }

  // ---------------------------------------------------------------------------
  // convert_to_smallest_units
  // ---------------------------------------------------------------------------

  datatype Conversion =
    | Units(text: string)
    | Invalid(reason: string)
    | UncheckedOverflow

  /** Repeated checked multiplication by ten. */
  function ScaleUp(n: nat, decimals: nat): Option<nat>
    decreases decimals
  {
    if decimals == 0 then Some(n)
    else if n * 10 >= U128 then None
    else ScaleUp(n * 10, decimals - 1)
  }

  function AddFraction(scaled: nat, frac: string, decimals: nat): Conversion
    requires AllDigits(frac)
  {
    if frac == [] then Total(scaled)
    else
      var len := if |frac| < decimals then |frac| else decimals;
      match ParseUnsigned(frac[..len], U128)
      case None => Invalid("invalid fractional part")
      case Some(value) =>
        if Pow10(decimals - len) >= U128 || value * Pow10(decimals - len) >= U128 then
          UncheckedOverflow
        else if scaled + value * Pow10(decimals - len) >= U128 then Invalid("amount overflow")
        else Total(scaled + value * Pow10(decimals - len))
  }

  function Total(n: nat): Conversion {
    if n == 0 then Invalid("amount must be greater than zero") else Units(ToDecimal(n))
  }

  function ConvertParts(whole: string, frac: string, decimals: nat): Conversion {
    if !AllDigits(whole) then Invalid("invalid whole part")
    else
      match ParseUnsigned(whole, U128)
      case None => Invalid("invalid whole part")
      case Some(n) =>
        if !AllDigits(frac) then Invalid("invalid fractional part")
        else
          match ScaleUp(n, decimals)
          case None => Invalid("amount overflow")
          case Some(scaled) => AddFraction(scaled, frac, decimals)
  }

  function Convert(amount: string, decimals: nat): Conversion {
    var s := Trim(amount);
    if s == [] then Invalid("empty amount")
    else
      match SplitOnce(s)
      case None => ConvertParts(s, [], decimals)
      case Some((whole, frac)) =>
        if '.' in frac then Invalid("invalid amount format")
        else ConvertParts(whole, frac, decimals)
  }

  /** The conversion as written, with its loop of checked multiplications. */
  method ConvertToSmallestUnits(amount: string, decimals: nat) returns (r: Conversion)
    requires decimals < 256
    ensures r == Convert(amount, decimals)
  {
    hide Pow10, Trim, SplitOnce, Val, ToDecimal;
    var s := Trim(amount);
    if s == [] {
      return Invalid("empty amount");
    }
    var parts := SplitOnce(s);
    if parts.Some? && '.' in parts.value.1 {
      return Invalid("invalid amount format");
    }
    var wholeStr := if parts.Some? then parts.value.0 else s;
    if !AllDigits(wholeStr) {
      return Invalid("invalid whole part");
    }
    var whole := ParseUnsigned(wholeStr, U128);
    if whole.None? {
      return Invalid("invalid whole part");
    }
    var fracStr := if parts.Some? then parts.value.1 else [];
    if fracStr != [] && !AllDigits(fracStr) {
      return Invalid("invalid fractional part");
    }
    var result: nat := whole.value;
    for i := 0 to decimals
      invariant ScaleUp(whole.value, decimals) == ScaleUp(result, decimals - i)
    {
      if result * 10 >= U128 {
        return Invalid("amount overflow");
      }
      result := result * 10;
    }
    if fracStr != [] {
      var fracLen := if |fracStr| < decimals then |fracStr| else decimals;
      var fracVal := ParseUnsigned(fracStr[..fracLen], U128);
      if fracVal.None? {
        return Invalid("invalid fractional part");
      }
      var multiplier := Pow10(decimals - fracLen);
      if multiplier >= U128 || fracVal.value * multiplier >= U128 {
        return UncheckedOverflow;
      }
      if result + fracVal.value * multiplier >= U128 {
        return Invalid("amount overflow");
      }
      result := result + fracVal.value * multiplier;
    }
    if result == 0 {
      return Invalid("amount must be greater than zero");
    }
    return Units(ToDecimal(result));
  }

  // ---------------------------------------------------------------------------
  // parse_zatoshis
  // ---------------------------------------------------------------------------

  function Zeros(k: nat): (s: string)
    ensures |s| == k && AllDigits(s)
  {
    seq(k, _ => '0')
  }

  /** The parts around the dot: whole coins, and a fraction padded to eight digits. */
  function ZatoshiParts(whole: string, frac: string): Option<nat> {
    var w := ParseUnsigned(whole, U64);
    if w.None? || |frac| > 8 then None
    else
      var f := ParseUnsigned(frac + Zeros(8 - |frac|), U64);
      if f.None? || w.value * 100_000_000 + f.value >= U64 then None
      else Some(w.value * 100_000_000 + f.value)
  }

  function ParseZatoshis(value: string): Option<nat> {
    var s := Trim(value);
    if s == [] then None
    else
      match SplitOnce(s)
      case None => ParseUnsigned(s, U64)
      case Some((whole, frac)) => ZatoshiParts(whole, frac)
  }

  method PadFraction(frac: string) returns (buf: string)
    requires |frac| <= 8
    ensures buf == frac + Zeros(8 - |frac|)
  {
    buf := frac;
    while |buf| < 8
      invariant |frac| <= |buf| <= 8 && buf == frac + Zeros(|buf| - |frac|)
    {
      buf := buf + ['0'];
    }
  }

  /** The parser as written, padding the fraction digit by digit. */
  method ParseZatoshisImpl(value: string) returns (r: Option<nat>)
    ensures r == ParseZatoshis(value)
  {
    hide Zeros, ParseUnsigned, Trim, SplitOnce;
    var s := Trim(value);
    if s == [] {
      return None;
    }
    var parts := SplitOnce(s);
    if parts.None? {
      return ParseUnsigned(s, U64);
    }
    var whole := ParseUnsigned(parts.value.0, U64);
    if whole.None? {
      return None;
    }
    var frac := parts.value.1;
    if |frac| > 8 {
      return None;
    }
    var buf := PadFraction(frac);
    var fracVal := ParseUnsigned(buf, U64);
    if fracVal.None? {
      return None;
    }
    if whole.value * 100_000_000 >= U64 {
      return None;
    }
    var sum := whole.value * 100_000_000 + fracVal.value;
    return if sum >= U64 then None else Some(sum);
  }

  // ---------------------------------------------------------------------------
  // Exactness
  // ---------------------------------------------------------------------------

  lemma {:induction false} ScaleUpExact(n: nat, decimals: nat)
    requires n < U128
    ensures ScaleUp(n, decimals)
         == if n * Pow10(decimals) < U128 then Some(n * Pow10(decimals)) else None
    decreases decimals
  {
    if decimals > 0 {
      var p := Pow10(decimals - 1);
      assert n * (10 * p) == n * 10 * p;
      if n * 10 >= U128 {
        MulMonotone(1, p, n * 10);
      } else {
        ScaleUpExact(n * 10, decimals - 1);
      }
    }
  }

  /** Digits beyond the decimals are dropped, missing ones count as zeros. */
  lemma FractionExact(f: string, decimals: nat)
    requires AllDigits(f)
    ensures var len := if |f| < decimals then |f| else decimals;
            Quotient(Val(f) * Pow10(decimals), Pow10(|f|)) == Val(f[..len]) * Pow10(decimals - len)
  {
    hide Val, Pow10, Quotient;
    PowZero();
    if |f| <= decimals {
      assert f[..|f|] == f;
      Pow10Sum(decimals - |f|, |f|);
      ShortQuotient(Val(f), Pow10(decimals - |f|), Pow10(|f|));
    } else {
      var head, tail := f[..decimals], f[decimals..];
      assert f == head + tail;
      ValConcat(head, tail);
      ValBound(tail);
      Pow10Sum(decimals, |tail|);
      LongQuotient(Val(head), Val(tail), Pow10(decimals), Pow10(|tail|));
    }
  }

  lemma ShortQuotient(v: nat, a: nat, b: nat)
    requires b > 0
    ensures Quotient(v * (a * b), b) == v * a
  {
    assert v * (a * b) == (v * a) * b;
    QuotientIs(v * (a * b), b, v * a, 0);
  }

  lemma LongQuotient(h: nat, t: nat, d: nat, k: nat)
    requires t < k && d > 0
    ensures d * k > 0 && Quotient((h * k + t) * d, d * k) == h
  {
    SplitProduct(h * k, t, d);
    assert (h * k) * d == h * (d * k);
    ProductBelow(t, k, d);
    QuotientIs((h * k + t) * d, d * k, h, t * d);
  }

  lemma PowZero()
    ensures Pow10(0) == 1
  {
  }

  /** The algorithm's sum is the integer part of the scaled numeral. */
  lemma SumIsFloor(w: string, f: string, decimals: nat)
    requires AllDigits(w) && AllDigits(f)
    ensures var len := if |f| < decimals then |f| else decimals;
            FloorScaled(w, f, decimals)
            == Val(w) * Pow10(decimals) + Val(f[..len]) * Pow10(decimals - len)
  {
    ValConcat(w, f);
    FractionExact(f, decimals);
    FloorOfSum(Val(w), Val(f), Pow10(decimals), Pow10(|f|));
    hide Val, Pow10, Quotient;
  }

  /** The right answer for a numeral worth `n` smallest units. */
  predicate Agrees(actual: Conversion, n: nat) {
    if 0 < n < U128 then actual == Units(ToDecimal(n)) else actual.Invalid?
  }

  lemma FractionBelow(f: string, decimals: nat)
    requires AllDigits(f) && f != [] && 1 <= decimals <= 38
    ensures var len := if |f| < decimals then |f| else decimals;
            && Val(f[..len]) * Pow10(decimals - len) < Pow10(decimals) < U128
            && Pow10(decimals - len) < U128 && Val(f[..len]) < U128
            && ParseUnsigned(f[..len], U128) == Some(Val(f[..len]))
  {
    var len := if |f| < decimals then |f| else decimals;
    Pow10Limits();
    Pow10Grows(decimals, 38);
    Pow10Grows(decimals - len, 38);
    Pow10Grows(len, 38);
    ValBound(f[..len]);
    Pow10Sum(len, decimals - len);
    hide Val, Pow10;
    ProductBelow(Val(f[..len]), Pow10(len), Pow10(decimals - len));
  }

  lemma FractionAddsExactly(scaled: nat, f: string, decimals: nat)
    requires AllDigits(f) && 1 <= decimals <= 38 && scaled < U128
    ensures var len := if |f| < decimals then |f| else decimals;
            Agrees(AddFraction(scaled, f, decimals),
                   scaled + Val(f[..len]) * Pow10(decimals - len))
  {
    if f != [] {
      FractionBelow(f, decimals);
    }
    hide Pow10, ToDecimal, ParseUnsigned;
  }

  lemma PartsExact(w: string, f: string, decimals: nat)
    requires w != [] && AllDigits(w) && AllDigits(f) && 1 <= decimals <= 38
    ensures Agrees(ConvertParts(w, f, decimals), FloorScaled(w, f, decimals))
  {
    hide Val, Pow10, ToDecimal, FloorScaled, AddFraction, ScaleUp;
    SumIsFloor(w, f, decimals);
    var len := if |f| < decimals then |f| else decimals;
    var scaled: nat, rest: nat := Val(w) * Pow10(decimals), Val(f[..len]) * Pow10(decimals - len);
    if Val(w) < U128 {
      ScaleUpExact(Val(w), decimals);
      if scaled < U128 {
        FractionAddsExactly(scaled, f, decimals);
      }
    } else {
      MulMonotone(1, Pow10(decimals), Val(w));
    }
  }

  // Numerals inside padded text

  predicate AllWhitespace(s: string) {
    forall i | 0 <= i < |s| :: IsWhitespace(s[i])
  }

  lemma {:induction false} TrimStartPadding(pad: string, s: string)
    requires AllWhitespace(pad) && s != [] && !IsWhitespace(s[0])
    ensures TrimStart(pad + s) == s
  {
    if pad == [] {
      assert pad + s == s;
    } else {
      TrimStartPadding(pad[1..], s);
      assert (pad + s)[1..] == pad[1..] + s;
    }
  }

  lemma {:induction false} TrimEndPadding(s: string, pad: string)
    requires AllWhitespace(pad) && s != [] && !IsWhitespace(s[|s| - 1])
    ensures TrimEnd(s + pad) == s
    decreases |pad|
  {
    if pad == [] {
      assert s + pad == s;
    } else {
      TrimEndPadding(s, pad[..|pad| - 1]);
      assert (s + pad)[..|s + pad| - 1] == s + pad[..|pad| - 1];
    }
  }

  lemma TrimPadding(left: string, s: string, right: string)
    requires AllWhitespace(left) && AllWhitespace(right)
    requires s != [] && !IsWhitespace(s[0]) && !IsWhitespace(s[|s| - 1])
    ensures Trim(left + s + right) == s
  {
    assert left + s + right == left + (s + right);
    TrimStartPadding(left, s + right);
    TrimEndPadding(s, right);
  }

  lemma {:induction false} SplitDotted(w: string, f: string)
    requires AllDigits(w)
    ensures SplitOnce(w + "." + f) == Some((w, f))
  {
    var s := w + "." + f;
    if w == [] {
      assert s[1..] == f;
    } else {
      SplitDotted(w[1..], f);
      assert s[1..] == w[1..] + "." + f;
      assert [w[0]] + w[1..] == w;
    }
  }

  lemma {:induction false} SplitUndotted(w: string)
    requires AllDigits(w)
    ensures SplitOnce(w) == None
  {
    if w != [] {
      SplitUndotted(w[1..]);
    }
  }

  /** The text of a numeral: `w` or `w.f`. */
  function Text(w: string, f: Option<string>): string {
    if f.None? then w else w + "." + f.value
  }

  function Fraction(f: Option<string>): string {
    if f.None? then [] else f.value
  }

  /** For every numeral, with any padding and 1 to 38 decimals, the conversion
      succeeds exactly when the integer part of the scaled numeral is positive
      and below 2^128, prints that number, and never overflows unchecked. */
  lemma ConversionIsExact(left: string, w: string, f: Option<string>, right: string, decimals: nat)
    requires AllWhitespace(left) && AllWhitespace(right)
    requires w != [] && AllDigits(w) && AllDigits(Fraction(f)) && 1 <= decimals <= 38
    ensures Agrees(Convert(left + Text(w, f) + right, decimals),
                   FloorScaled(w, Fraction(f), decimals))
  {
    hide FloorScaled, ConvertParts, Agrees, Trim, SplitOnce;
    TrimPadding(left, Text(w, f), right);
    PartsExact(w, Fraction(f), decimals);
    if f.Some? {
      SplitDotted(w, f.value);
    } else {
      SplitUndotted(w);
    }
  }

  /** On any text whatever, unchecked overflow is impossible exactly up to 38
      decimals. */
  lemma NoUncheckedOverflowExactlyUpTo38(decimals: nat)
    ensures (forall s: string :: Convert(s, decimals) != UncheckedOverflow) <==> decimals <= 38
  {
    if decimals <= 38 {
      forall s: string ensures Convert(s, decimals) != UncheckedOverflow {
        ConvertNeverOverflows(s, decimals);
      }
    } else {
      NineTenthsOverflows(decimals);
    }
  }

  lemma ConvertNeverOverflows(s: string, decimals: nat)
    requires decimals <= 38
    ensures Convert(s, decimals) != UncheckedOverflow
  {
    hide Trim, SplitOnce, Val, Pow10, ToDecimal, ScaleUp;
    var t := Trim(s);
    var f := match SplitOnce(t) case None => [] case Some((_, frac)) => frac;
    if AllDigits(f) && f != [] && decimals > 0 {
      FractionBelow(f, decimals);
    }
  }

  /** The fraction cut to the decimals. */
  function Cut(f: string, decimals: nat): string {
    if |f| < decimals then f else f[..decimals]
  }

  /** The whole part is zero, the cut fraction is read, and the power of ten or the
      product leaves 128 bits. */
  predicate OverflowingNumeral(w: string, f: string, decimals: nat) {
    var cut := Cut(f, decimals);
    && w != [] && AllDigits(w) && AllDigits(f)
    && Val(w) == 0 && cut != [] && Val(cut) < U128
    && (Pow10(decimals - |cut|) >= U128 || Val(cut) * Pow10(decimals - |cut|) >= U128)
  }

  lemma PartsOverflowExactlyWhen(w: string, f: string, decimals: nat)
    ensures ConvertParts(w, f, decimals) == UncheckedOverflow
       <==> OverflowingNumeral(w, f, decimals)
  {
    hide Val, Pow10, ToDecimal, ScaleUp;
    var cut := Cut(f, decimals);
    assert cut == f[..|cut|];
    if w != [] && AllDigits(w) && AllDigits(f) && Val(w) < U128 {
      ScaleUpExact(Val(w), decimals);
      if Val(w) > 0 && Val(w) * Pow10(decimals) < U128 {
        MulMonotone(1, Val(w), Pow10(decimals));
        AtMost38(decimals);
        if cut != [] {
          FractionBelow(f, decimals);
        }
      }
    }
  }

  /** Text by text: exactly the padded dotted numerals of that kind overflow. */
  lemma OverflowsExactlyWhen(s: string, decimals: nat)
    ensures Convert(s, decimals) == UncheckedOverflow <==>
              match SplitOnce(Trim(s))
              case None => false
              case Some((w, f)) => OverflowingNumeral(w, f, decimals)
  {
    hide Trim, SplitOnce, ConvertParts;
    match SplitOnce(Trim(s)) {
      case None =>
        PartsOverflowExactlyWhen(Trim(s), [], decimals);
        hide Val, Pow10;
      case Some((w, f)) =>
        PartsOverflowExactlyWhen(w, f, decimals);
        SplitIsNonempty(Trim(s));
        hide Val, Pow10;
    }
  }

  lemma AtMost38(decimals: nat)
    requires Pow10(decimals) < U128
    ensures decimals <= 38
  {
    Pow10Limits();
    if decimals > 38 {
      Pow10Grows(39, decimals);
    }
  }

  lemma NineTenthsOverflows(decimals: nat)
    requires decimals > 38
    ensures Convert("0.9", decimals) == UncheckedOverflow
  {
    hide Pow10, Trim, SplitOnce, Val, ScaleUp;
    assert "0.9" == [] + "0.9" + [] && "0.9" == "0" + "." + "9";
    TrimPadding([], "0.9", []);
    SplitDotted("0", "9");
    DigitValue('0');
    DigitValue('9');
    ScaleUpExact(0, decimals);
    Pow10Limits();
    Pow10Grows(38, decimals - 1);
    assert "9"[..1] == "9";
    MulMonotone(Pow10(38), Pow10(decimals - 1), 9);
  }

  lemma DigitValue(c: char)
    requires IsDigit(c)
    ensures Val([c]) == (c - '0') as nat
  {
    assert [c][..0] == [];
  }

  // ---------------------------------------------------------------------------
  // The two parsers compared
  // ---------------------------------------------------------------------------

  lemma {:induction false} ZerosValue(k: nat)
    ensures Val(Zeros(k)) == 0
  {
    if k > 0 {
      ZerosValue(k - 1);
      assert Zeros(k)[..k - 1] == Zeros(k - 1);
    }
  }

  lemma ZatoshiPartsExact(w: string, f: string)
    requires w != [] && AllDigits(w) && AllDigits(f)
    ensures ZatoshiParts(w, f)
         == if |f| <= 8 && FloorScaled(w, f, 8) < U64 then Some(FloorScaled(w, f, 8)) else None
  {
    hide Val, Pow10, FloorScaled, Zeros;
    Pow10Limits();
    SumIsFloor(w, f, 8);
    if |f| <= 8 {
      var padded := f + Zeros(8 - |f|);
      ZerosValue(8 - |f|);
      ValConcat(f, Zeros(8 - |f|));
      ValBound(padded);
      assert f[..|f|] == f;
      assert ParseUnsigned(padded, U64) == Some(Val(padded));
    }
  }

  /** `parse_zatoshis` reads a dotted numeral, with any padding, exactly when it
      has at most eight fractional digits and its value fits 64 bits. */
  lemma ZatoshisExact(left: string, w: string, f: string, right: string)
    requires AllWhitespace(left) && AllWhitespace(right)
    requires w != [] && AllDigits(w) && AllDigits(f)
    ensures ParseZatoshis(left + (w + "." + f) + right)
         == if |f| <= 8 && FloorScaled(w, f, 8) < U64 then Some(FloorScaled(w, f, 8)) else None
  {
    hide FloorScaled, Trim, SplitOnce, Zeros, ParseUnsigned;
    TrimPadding(left, w + "." + f, right);
    SplitDotted(w, f);
    ZatoshiPartsExact(w, f);
  }

  /** Both parsers accept and mean the same number of zatoshis. */
  predicate SameAmount(z: Option<nat>, c: Conversion) {
    z.Some? && c == Units(ToDecimal(z.value))
  }

  /** A dotted numeral of at most eight fractional digits worth a positive number
      of zatoshis below 2^64. */
  predicate CommonNumeral(w: string, f: string) {
    && w != [] && AllDigits(w) && AllDigits(f) && |f| <= 8
    && 0 < FloorScaled(w, f, 8) < U64
  }

  lemma DottedPartsAgree(w: string, f: string)
    ensures SameAmount(ZatoshiParts(w, f), ConvertParts(w, f, 8)) <==> CommonNumeral(w, f)
  {
    hide FloorScaled, ToDecimal, ZatoshiParts, AddFraction, ScaleUp, Val;
    if w != [] && AllDigits(w) && AllDigits(f) {
      ZatoshiPartsExact(w, f);
      PartsExact(w, f, 8);
    }
  }

  lemma DecimalsDiffer(m: nat, n: nat)
    requires m != n
    ensures ToDecimal(m) != ToDecimal(n)
  {
    hide Val, ToDecimal;
    assert Val(ToDecimal(m)) != Val(ToDecimal(n));
  }

  lemma UndottedIsWholeCoins(w: string)
    requires AllDigits(w)
    ensures FloorScaled(w, [], 8) == Val(w) * 100_000_000
  {
    assert Val([]) == 0;
    hide Val, Pow10, FloorScaled;
    SumIsFloor(w, [], 8);
    Pow10Limits();
  }

  /** Without a dot one reads zatoshis and the other whole coins. */
  lemma UndottedPartsDisagree(w: string)
    ensures !SameAmount(ParseUnsigned(w, U64), ConvertParts(w, [], 8))
  {
    hide FloorScaled, ToDecimal, AddFraction, ScaleUp, Val;
    if w != [] && AllDigits(w) {
      PartsExact(w, [], 8);
      UndottedIsWholeCoins(w);
      if 0 < Val(w) < U64 {
        DecimalsDiffer(Val(w) * 100_000_000, Val(w));
      }
    }
  }

  /** On any text whatever, the two parsers agree exactly on padded dotted numerals
      in the common range; in particular never on text without a dot. */
  lemma ParsersAgreeExactlyWhen(s: string)
    ensures SameAmount(ParseZatoshis(s), Convert(s, 8)) <==>
              match SplitOnce(Trim(s))
              case None => false
              case Some((w, f)) => CommonNumeral(w, f)
  {
    hide Trim, SplitOnce, CommonNumeral, ToDecimal, ConvertParts;
    var t := Trim(s);
    match SplitOnce(t) {
      case None => UndottedPartsDisagree(t);
      case Some((w, f)) =>
        assert ParseZatoshis(s) == if t == [] then None else ZatoshiParts(w, f);
        DottedPartsAgree(w, f);
        NoDotInNumeral(w, f);
        SplitIsNonempty(t);
    }
  }

  lemma NoDotInNumeral(w: string, f: string)
    ensures CommonNumeral(w, f) ==> '.' !in f
  {
    hide FloorScaled;
  }

  lemma SplitIsNonempty(t: string)
    requires SplitOnce(t).Some?
    ensures t != []
  {
  }

  /** Nine fractional digits: one parser refuses, the other drops the last digit. */
  lemma NinthDigitTellsThemApart(w: string, f: string)
    requires w != [] && AllDigits(w) && AllDigits(f) && |f| == 9
    requires 0 < FloorScaled(w, f, 8) < U128
    ensures ParseZatoshis(w + "." + f) == None
    ensures Convert(w + "." + f, 8) == Units(ToDecimal(FloorScaled(w, f, 8)))
  {
    var text := w + "." + f;
    assert [] + text + [] == text && Text(w, Some(f)) == text;
    ZatoshisExact([], w, f, []);
    ConversionIsExact([], w, Some(f), [], 8);
    hide FloorScaled, Convert, ParseZatoshis, ToDecimal;
  }

  // ---------------------------------------------------------------------------
  // Both parsers on any text
  // ---------------------------------------------------------------------------

  predicate IsNumeral(w: string, f: string) {
    w != [] && AllDigits(w) && AllDigits(f)
  }

  /** The conversion is exact for every numeral and any number of decimals but none,
      unless its unchecked product overflows. */
  lemma PartsExactUnlessOverflow(w: string, f: string, decimals: nat)
    requires IsNumeral(w, f) && decimals > 0
    ensures ConvertParts(w, f, decimals) == UncheckedOverflow
         || Agrees(ConvertParts(w, f, decimals), FloorScaled(w, f, decimals))
  {
    hide Val, Pow10, ToDecimal, FloorScaled, AddFraction, ScaleUp;
    SumIsFloor(w, f, decimals);
    var scaled: nat := Val(w) * Pow10(decimals);
    if Val(w) >= U128 {
      MulMonotone(1, Pow10(decimals), Val(w));
    } else {
      ScaleUpExact(Val(w), decimals);
      if scaled < U128 {
        FractionAddsUnlessOverflow(scaled, f, decimals);
      }
    }
  }

  lemma FractionAddsUnlessOverflow(scaled: nat, f: string, decimals: nat)
    requires AllDigits(f) && decimals > 0 && scaled < U128
    ensures var len := if |f| < decimals then |f| else decimals;
            AddFraction(scaled, f, decimals) == UncheckedOverflow
            || Agrees(AddFraction(scaled, f, decimals),
                      scaled + Val(f[..len]) * Pow10(decimals - len))
  {
    hide Val, Pow10, ToDecimal, ParseUnsigned;
    var len := if |f| < decimals then |f| else decimals;
    var v, pow := Val(f[..len]), Pow10(decimals - len);
    if f == [] {
      NothingIsZero(f[..len]);
    } else {
      ParseDigits(f[..len]);
      if v >= U128 {
        MulMonotone(1, pow, v);
      }
    }
  }

  lemma NothingIsZero(s: string)
    requires s == []
    ensures Val(s) == 0
  {
  }

  lemma ParseDigits(s: string)
    requires s != [] && AllDigits(s)
    ensures ParseUnsigned(s, U128) == if Val(s) < U128 then Some(Val(s)) else None
  {
    assert IsDigit(s[0]);
  }

  /** With no decimals any fraction is refused, zeros included. */
  lemma PartsWithoutDecimals(w: string, f: string)
    requires IsNumeral(w, f)
    ensures if f == [] then Agrees(ConvertParts(w, f, 0), Val(w))
            else ConvertParts(w, f, 0) == Invalid(if Val(w) < U128 then "invalid fractional part"
                                                  else "invalid whole part")
  {
    hide Val, ToDecimal;
    assert f[..0] == [];
  }

  lemma NonNumeralRefused(w: string, f: string, decimals: nat)
    requires !IsNumeral(w, f)
    ensures ConvertParts(w, f, decimals).Invalid?
  {
    hide Val, Pow10, ToDecimal, ScaleUp;
  }

  /** The right answer of the conversion for the parts of a text. */
  predicate ConvertsParts(w: string, f: string, decimals: nat, c: Conversion) {
    if !IsNumeral(w, f) then c.Invalid?
    else if decimals > 0 then
      if OverflowingNumeral(w, f, decimals) then c == UncheckedOverflow
      else Agrees(c, FloorScaled(w, f, decimals))
    else if f == [] then Agrees(c, Val(w))
    else c.Invalid?
  }

  lemma PartsAnswer(w: string, f: string, decimals: nat)
    ensures ConvertsParts(w, f, decimals, ConvertParts(w, f, decimals))
  {
    hide Val, Pow10, ToDecimal, FloorScaled, ConvertParts, OverflowingNumeral, Agrees;
    if !IsNumeral(w, f) {
      NonNumeralRefused(w, f, decimals);
    } else if decimals == 0 {
      PartsWithoutDecimals(w, f);
    } else {
      PartsExactUnlessOverflow(w, f, decimals);
      PartsOverflowExactlyWhen(w, f, decimals);
    }
  }

  /** What `convert_to_smallest_units` answers on any text and for any decimals: it
      refuses what is no numeral, a second dot included; it refuses a fraction when
      there are no decimals; and otherwise it gives the integer part of the scaled
      numeral if that is positive and below 2^128, unless the product overflows. */
  lemma ConvertsExactly(s: string, decimals: nat)
    ensures match SplitOnce(Trim(s))
            case None => ConvertsParts(Trim(s), [], decimals, Convert(s, decimals))
            case Some((w, f)) => ConvertsParts(w, f, decimals, Convert(s, decimals))
  {
    hide Trim, SplitOnce, ConvertParts, OverflowingNumeral, Agrees, FloorScaled, Val;
    match SplitOnce(Trim(s)) {
      case None => PartsAnswer(Trim(s), [], decimals);
      case Some((w, f)) =>
        SplitIsNonempty(Trim(s));
        if '.' in f {
          DotIsNoDigit(f);
        } else {
          PartsAnswer(w, f, decimals);
        }
    }
  }

  lemma DotIsNoDigit(f: string)
    requires '.' in f
    ensures !AllDigits(f)
  {
    var i :| 0 <= i < |f| && f[i] == '.';
    assert !IsDigit(f[i]);
  }

  /** A leading plus sign is skipped in front of at least one more character. */
  function WithoutPlus(s: string): string {
    if |s| > 1 && s[0] == '+' then s[1..] else s
  }

  /** A plus sign in front of the fraction stands where a zero would. */
  function PlusAsZero(f: string): string {
    if f != [] && f[0] == '+' then ['0'] + f[1..] else f
  }

  lemma ZeroInFront(g: string)
    requires AllDigits(g)
    ensures AllDigits(['0'] + g) && Val(['0'] + g) == Val(g)
  {
    ValConcat(['0'], g);
    DigitValue('0');
  }

  lemma PaddedFraction(f: string)
    requires |f| <= 8
    ensures ParseUnsigned(f + Zeros(8 - |f|), U64)
         == ParseUnsigned(PlusAsZero(f) + Zeros(8 - |f|), U64)
  {
    if f != [] && f[0] == '+' {
      var g := f[1..] + Zeros(8 - |f|);
      var padded := f + Zeros(8 - |f|);
      assert padded[1..] == g && padded[0] == '+';
      assert PlusAsZero(f) + Zeros(8 - |f|) == ['0'] + g;
      if AllDigits(g) {
        ZeroInFront(g);
      } else {
        var i :| 0 <= i < |g| && !IsDigit(g[i]);
        assert (['0'] + g)[i + 1] == g[i];
      }
    }
  }

  lemma PlusInWhole(w: string)
    ensures ParseUnsigned(w, U64)
         == (if WithoutPlus(w) != [] && AllDigits(WithoutPlus(w)) && Val(WithoutPlus(w)) < U64
             then Some(Val(WithoutPlus(w))) else None)
  {
  }

  lemma NonNumeralFraction(f: string)
    requires |f| <= 8 && !AllDigits(PlusAsZero(f))
    ensures ParseUnsigned(f + Zeros(8 - |f|), U64) == None
  {
    PaddedFraction(f);
    var g := PlusAsZero(f);
    var i :| 0 <= i < |g| && !IsDigit(g[i]);
    var padded := g + Zeros(8 - |f|);
    assert padded[i] == g[i] && padded[0] == g[0] != '+';
  }

  lemma DottedZatoshis(w: string, f: string)
    ensures ZatoshiParts(w, f)
         == (if IsNumeral(WithoutPlus(w), PlusAsZero(f)) && |f| <= 8
                && FloorScaled(WithoutPlus(w), PlusAsZero(f), 8) < U64
             then Some(FloorScaled(WithoutPlus(w), PlusAsZero(f), 8)) else None)
  {
    hide FloorScaled, ParseUnsigned, Val, Zeros, AllDigits;
    var w', f' := WithoutPlus(w), PlusAsZero(f);
    PlusInWhole(w);
    if |f| <= 8 {
      if !AllDigits(f') {
        NonNumeralFraction(f);
      } else if w' != [] && AllDigits(w') {
        PaddedFraction(f);
        DigitsHavePlusOff(w');
        PlusInWhole(w');
        ZatoshiPartsExact(w', f');
        assert |f'| == |f|;
      }
    }
  }

  lemma DigitsHavePlusOff(w: string)
    requires w != [] && AllDigits(w)
    ensures WithoutPlus(w) == w
  {
  }

  /** What `parse_zatoshis` answers on any text. Without a dot it reads zatoshis. With
      one it reads coins, and a plus sign in front of the fraction as the digit zero.
      Anything else, and anything that needs more than 64 bits, is refused. */
  lemma ZatoshisOfAnyText(s: string)
    ensures var t := Trim(s);
            ParseZatoshis(s)
            == match SplitOnce(t)
               case None =>
                 if IsNumeral(WithoutPlus(t), []) && Val(WithoutPlus(t)) < U64
                 then Some(Val(WithoutPlus(t))) else None
               case Some((w, f)) =>
                 if IsNumeral(WithoutPlus(w), PlusAsZero(f)) && |f| <= 8
                    && FloorScaled(WithoutPlus(w), PlusAsZero(f), 8) < U64
                 then Some(FloorScaled(WithoutPlus(w), PlusAsZero(f), 8)) else None
  {
    hide Trim, SplitOnce, FloorScaled, Val, ParseUnsigned, ZatoshiParts;
    var t := Trim(s);
    match SplitOnce(t) {
      case None => PlusInWhole(t);
      case Some((w, f)) =>
        SplitIsNonempty(t);
        DottedZatoshis(w, f);
    }
  }

  /** In particular, padded digits without a dot are zatoshis. */
  lemma UndottedZatoshis(left: string, w: string, right: string)
    requires AllWhitespace(left) && AllWhitespace(right) && w != [] && AllDigits(w)
    ensures ParseZatoshis(left + w + right) == if Val(w) < U64 then Some(Val(w)) else None
  {
    hide Trim, SplitOnce, Val;
    TrimPadding(left, w, right);
    SplitUndotted(w);
    assert WithoutPlus(w) == w;
  }

  /** And `1.+5` reads as `1.05`, where the conversion refuses it. */
  lemma PlusReadsAsZero(w: string, g: string)
    requires w != [] && AllDigits(w) && AllDigits(g) && |g| <= 7
    ensures ParseZatoshis(w + "." + (['+'] + g)) == ParseZatoshis(w + "." + (['0'] + g))
    ensures Convert(w + "." + (['+'] + g), 8).Invalid?
  {
    PlusTrims(w, ['+'] + g);
    PlusTrims(w, ['0'] + g);
    ZatoshisOfAnyText(w + "." + (['+'] + g));
    ZatoshisOfAnyText(w + "." + (['0'] + g));
    ConvertsExactly(w + "." + (['+'] + g), 8);
    assert (['+'] + g)[1..] == g && !IsDigit((['+'] + g)[0]);
    hide Trim, SplitOnce, FloorScaled, Val, ParseZatoshis, Convert;
  }

  lemma PlusTrims(w: string, f: string)
    requires w != [] && AllDigits(w) && f != [] && !IsWhitespace(f[|f| - 1])
    ensures Trim(w + "." + f) == w + "." + f && SplitOnce(w + "." + f) == Some((w, f))
  {
    TrimPadding([], w + "." + f, []);
    assert [] + (w + "." + f) + [] == w + "." + f;
    SplitDotted(w, f);
  }

  /** Where a text is cut: at its first dot. */
  lemma {:induction false} SplitExactly(s: string)
    ensures match SplitOnce(s)
            case None => '.' !in s
            case Some((a, b)) => s == a + "." + b && '.' !in a
  {
    if s != [] && s[0] != '.' {
      SplitExactly(s[1..]);
      assert s == [s[0]] + s[1..];
    }
  }

  /** What trimming leaves: white space off both ends, and no more. */
  lemma TrimExactly(s: string) returns (left: string, right: string)
    ensures AllWhitespace(left) && AllWhitespace(right) && s == left + Trim(s) + right
    ensures var t := Trim(s);
            t != [] ==> !IsWhitespace(t[0]) && !IsWhitespace(t[|t| - 1])
  {
    var u := TrimStart(s);
    left := TrimStartExactly(s);
    right := TrimEndExactly(u);
    assert s == left + (Trim(s) + right);
  }

  lemma {:induction false} TrimStartExactly(s: string) returns (left: string)
    ensures AllWhitespace(left) && s == left + TrimStart(s)
    ensures TrimStart(s) != [] ==> !IsWhitespace(TrimStart(s)[0])
  {
    left := [];
    if s != [] && IsWhitespace(s[0]) {
      left := TrimStartExactly(s[1..]);
      left := [s[0]] + left;
      assert s == [s[0]] + s[1..];
    }
  }

  lemma {:induction false} TrimEndExactly(s: string) returns (right: string)
    ensures AllWhitespace(right) && s == TrimEnd(s) + right
    ensures TrimEnd(s) != [] ==> TrimEnd(s)[0] == s[0] && !IsWhitespace(TrimEnd(s)[|TrimEnd(s)| - 1])
  {
    right := [];
    if s != [] && IsWhitespace(s[|s| - 1]) {
      right := TrimEndExactly(s[..|s| - 1]);
      right := right + [s[|s| - 1]];
      assert s == s[..|s| - 1] + [s[|s| - 1]];
    }
  }
}
