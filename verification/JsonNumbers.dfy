/** JSON numbers as Python writes and reads them: integers, and floats by their shortest digits. */
module JsonNumbers {
  import opened Texts

  /**
   A finite float by its shortest decimal digits: the value is 0.d1...dn times ten to the `point`,
   negated when `neg`. Zero has no digits.
   */
  datatype Decimal = Decimal(neg: bool, digits: Text, point: int)

  predicate Shortest(d: Decimal) {
    && AllDigits(d.digits)
    && (d.digits == [] ==> d.point == 0)
    && (d.digits != [] ==> d.digits[0] != ZERO && d.digits[|d.digits| - 1] != ZERO)
  }

  type Float = d: Decimal | Shortest(d) witness Decimal(false, [], 0)

  datatype Number = Int(n: int) | Real(d: Float)

  const MINUS: CodePoint := 45
  const PLUS: CodePoint := 43
  const DOT: CodePoint := 46
  const EXP: CodePoint := 101

  function PrintInt(n: int): (t: Text)
    ensures |t| > 0 && (t[0] == MINUS || IsDigit(t[0]))
  {
    if n < 0 then [MINUS] + Decimal10(-n) else Decimal10(n)
  }

  /** The digits before the point, in fixed notation. */
  function WholeDigits(d: Float): (t: Text)
    requires -4 < d.point <= 16
    ensures AllDigits(t) && |t| > 0 && (t[0] == ZERO ==> t == [ZERO])
  {
    if d.point <= 0 then [ZERO]
    else if d.point <= |d.digits| then d.digits[..d.point]
    else d.digits + Zeros(d.point - |d.digits|)
  }

  /** The digits after the point, in fixed notation. */
  function FractionDigits(d: Float): (t: Text)
    requires -4 < d.point <= 16
    ensures AllDigits(t) && |t| > 0
  {
    if d.point <= 0 then (if d.digits == [] then [ZERO] else Zeros(-d.point) + d.digits)
    else if d.point < |d.digits| then d.digits[d.point..]
    else [ZERO]
  }

  /** `repr` pads the exponent to two digits. */
  function ExponentDigits(n: nat): (t: Text)
    ensures AllDigits(t) && |t| > 0
    ensures DigitsValue(t) == n
  {
    DecimalValue(n);
    LeadingZeroValue(Decimal10(n));
    if n < 10 then [ZERO] + Decimal10(n) else Decimal10(n)
  }

  /** The mark, sign and digits of an exponent. */
  function ExponentText(e: int): (t: Text)
    ensures t != [] && t[0] == EXP
  {
    [EXP] + (if e < 0 then [MINUS] + ExponentDigits(-e) else [PLUS] + ExponentDigits(e))
  }

  /** Fixed notation while the point is in (-4, 16], otherwise scientific. */
  function PrintMagnitude(d: Float): (t: Text)
    ensures |t| > 0 && IsDigit(t[0])
  {
    if -4 < d.point <= 16 then WholeDigits(d) + ([DOT] + FractionDigits(d))
    else if |d.digits| > 1 then d.digits[..1] + ([DOT] + d.digits[1..] + ExponentText(d.point - 1))
    else d.digits[..1] + ExponentText(d.point - 1)
  }

  /** `float.__repr__` */
  function PrintFloat(d: Float): (t: Text)
    ensures |t| > 0 && (t[0] == MINUS || IsDigit(t[0]))
  {
    if d.neg then [MINUS] + PrintMagnitude(d) else PrintMagnitude(d)
  }

  function PrintNumber(v: Number): (t: Text)
    ensures |t| > 0 && (t[0] == MINUS || IsDigit(t[0]))
  {
    match v
    case Int(n) => PrintInt(n)
    case Real(d) => PrintFloat(d)
  }

  function StripLeft(ds: Text): (t: Text)
    requires AllDigits(ds)
    ensures |t| <= |ds| && AllDigits(t) && (t != [] ==> t[0] != ZERO)
    ensures ds != [] && ds[|ds| - 1] != ZERO ==> t != [] && t[|t| - 1] == ds[|ds| - 1]
  {
    if ds != [] && ds[0] == ZERO then StripLeft(ds[1..]) else ds
  }

  function StripRight(ds: Text): (t: Text)
    requires AllDigits(ds)
    ensures |t| <= |ds| && t == ds[..|t|] && (t != [] ==> t[|t| - 1] != ZERO)
  {
    if ds != [] && ds[|ds| - 1] == ZERO then StripRight(ds[..|ds| - 1]) else ds
  }

  /** The float read from digits with the decimal point after the first `point` of them. */
  function Normalized(neg: bool, ds: Text, point: int): (d: Float)
    requires AllDigits(ds)
  {
    var left := StripLeft(ds);
    var both := StripRight(left);
    if both == [] then Decimal(neg, [], 0) else Decimal(neg, both, point - (|ds| - |left|))
  }

  /** The length of a JSON integer part: a lone zero, or a run of digits. */
  function WholeRun(t: Text): (k: nat)
    ensures k <= |t| && AllDigits(t[..k])
  {
    if t != [] && t[0] == ZERO then 1 else DigitRun(t)
  }

  /** The length of a fraction, its dot included, or zero when there is none. */
  function FractionRun(t: Text): (k: nat)
    ensures k <= |t|
    ensures k > 0 ==> k >= 2 && t[0] == DOT && AllDigits(t[1..k])
  {
    if t == [] || t[0] != DOT || DigitRun(t[1..]) == 0 then 0
    else
      assert t[1..][..DigitRun(t[1..])] == t[1..1 + DigitRun(t[1..])];
      1 + DigitRun(t[1..])
  }

  /** The length of an exponent's mark and sign, or zero when there is no exponent. */
  function ExponentMark(t: Text): (k: nat)
    ensures k <= 2 && k < |t| + 1
  {
    if t == [] || (t[0] != EXP && t[0] != 69) then 0
    else if |t| > 1 && (t[1] == PLUS || t[1] == MINUS) then (if DigitRun(t[2..]) > 0 then 2 else 0)
    else if DigitRun(t[1..]) > 0 then 1 else 0
  }

  function Signed(neg: bool, n: int): int {
    if neg then -n else n
  }

  /** Digits, fraction and exponent at the head of a text, and what follows them. */
  function ParseUnsigned(neg: bool, u: Text): (r: Option<(Number, Text)>)
    ensures r.Some? ==> |r.value.1| < |u|
  {
    var w := WholeRun(u);
    if w == 0 then None
    else
      var whole, afterWhole := u[..w], u[w..];
      var f := FractionRun(afterWhole);
      var fraction: Text := if f > 0 then afterWhole[1..f] else [];
      var afterFraction := afterWhole[f..];
      var m := ExponentMark(afterFraction);
      if m == 0 then
        if f == 0 then Some((Int(Signed(neg, DigitsValue(whole))), afterFraction))
        else Some((Real(Normalized(neg, whole + fraction, w)), afterFraction))
      else
        var ds := afterFraction[m..];
        var e := DigitRun(ds);
        var exponent := Signed(afterFraction[1] == MINUS, DigitsValue(ds[..e]));
        Some((Real(Normalized(neg, whole + fraction, w + exponent)), ds[e..]))
  }

  /** The number at the head of a text and what follows it. */
  function ParseNumber(t: Text): (r: Option<(Number, Text)>)
    ensures r.Some? ==> |r.value.1| < |t|
  {
    if t != [] && t[0] == MINUS then ParseUnsigned(true, t[1..]) else ParseUnsigned(false, t)
  }

  /** What may follow a number without being read as part of it. */
  predicate EndsNumber(rest: Text) {
    rest == [] || !(IsDigit(rest[0]) || rest[0] == DOT || rest[0] == EXP || rest[0] == 69)
  }

  lemma {:induction false} StripLeftOf(k: nat, ds: Text)
    requires AllDigits(ds) && ds != [] && ds[0] != ZERO
    ensures StripLeft(Zeros(k) + ds) == ds
  {
    if k == 0 {
      assert Zeros(k) + ds == ds;
    } else {
      assert (Zeros(k) + ds)[1..] == Zeros(k - 1) + ds;
      StripLeftOf(k - 1, ds);
    }
  }

  lemma {:induction false} StripRightOf(ds: Text, k: nat)
    requires AllDigits(ds) && (ds != [] ==> ds[|ds| - 1] != ZERO)
    ensures StripRight(ds + Zeros(k)) == ds
  {
    if k == 0 {
      assert ds + Zeros(k) == ds;
    } else {
      var all := ds + Zeros(k);
      assert all[..|all| - 1] == ds + Zeros(k - 1);
      StripRightOf(ds, k - 1);
    }
  }

  lemma NormalizedPadded(d: Float, left: nat, right: nat, ds: Text)
    requires d.digits != []
    requires ds == Zeros(left) + d.digits + Zeros(right)
    ensures AllDigits(ds)
    ensures Normalized(d.neg, ds, d.point + left) == d
  {
    var tail := d.digits + Zeros(right);
    assert ds == Zeros(left) + tail;
    StripLeftOf(left, tail);
    StripRightOf(d.digits, right);
  }

  lemma WholeRunOf(ds: Text, rest: Text)
    requires AllDigits(ds) && |ds| > 0 && (ds[0] == ZERO ==> ds == [ZERO]) && NoDigitFirst(rest)
    ensures WholeRun(ds + rest) == |ds|
  {
    DigitRunOf(ds, rest);
  }

  lemma FractionRunOf(ds: Text, rest: Text)
    requires AllDigits(ds) && |ds| > 0 && NoDigitFirst(rest)
    ensures FractionRun([DOT] + ds + rest) == 1 + |ds|
  {
    DigitRunOf(ds, rest);
    assert ([DOT] + ds + rest)[1..] == ds + rest;
  }

  lemma UnsignedIntRoundTrip(neg: bool, n: nat, rest: Text)
    requires EndsNumber(rest)
    ensures ParseUnsigned(neg, Decimal10(n) + rest) == Some((Int(Signed(neg, n)), rest))
  {
    var ds := Decimal10(n);
    DecimalValue(n);
    WholeRunOf(ds, rest);
    assert (ds + rest)[..|ds|] == ds && (ds + rest)[|ds|..] == rest;
    assert rest[0..] == rest;
  }

  lemma FixedRoundTrip(d: Float, rest: Text)
    requires -4 < d.point <= 16 && EndsNumber(rest)
    ensures ParseUnsigned(d.neg, PrintMagnitude(d) + rest) == Some((Real(d), rest))
  {
    hide WholeDigits, FractionDigits, Normalized, DigitRun, FractionRun, WholeRun, DigitsValue;
    var w, f := WholeDigits(d), FractionDigits(d);
    var tail := [DOT] + f + rest;
    assert PrintMagnitude(d) + rest == w + tail;
    WholeRunOf(w, tail);
    FractionRunOf(f, rest);
    assert (w + tail)[..|w|] == w && (w + tail)[|w|..] == tail;
    assert tail[1..1 + |f|] == f && tail[1 + |f|..] == rest;
    FixedValue(d);
  }

  lemma ZeroValue(neg: bool)
    ensures Normalized(neg, [ZERO, ZERO], 1) == Decimal(neg, [], 0)
  {
    var one, none: Text := [ZERO], [];
    assert [ZERO, ZERO][1..] == one && one[1..] == none;
    assert StripLeft(one) == none;
  }

  lemma SmallValue(d: Float)
    requires -4 < d.point <= 0 && d.digits != []
    ensures Normalized(d.neg, WholeDigits(d) + FractionDigits(d), 1) == d
  {
    var ds := WholeDigits(d) + FractionDigits(d);
    assert ds == Zeros(1 - d.point) + d.digits + Zeros(0);
    NormalizedPadded(d, 1 - d.point, 0, ds);
  }

  lemma LargeValue(d: Float)
    requires 0 < d.point <= 16
    ensures Normalized(d.neg, WholeDigits(d) + FractionDigits(d), |WholeDigits(d)|) == d
  {
    var ds := WholeDigits(d) + FractionDigits(d);
    var right := if d.point < |d.digits| then 0 else d.point - |d.digits| + 1;
    assert ds == Zeros(0) + d.digits + Zeros(right);
    NormalizedPadded(d, 0, right, ds);
  }

  lemma FixedValue(d: Float)
    requires -4 < d.point <= 16
    ensures Normalized(d.neg, WholeDigits(d) + FractionDigits(d), |WholeDigits(d)|) == d
  {
    if d.digits == [] {
      assert WholeDigits(d) + FractionDigits(d) == [ZERO, ZERO];
      ZeroValue(d.neg);
    } else if d.point <= 0 {
      SmallValue(d);
    } else {
      LargeValue(d);
    }
  }

  lemma ExponentOf(e: int, rest: Text)
    requires NoDigitFirst(rest)
    ensures var t := ExponentText(e) + rest;
            && ExponentMark(t) == 2
            && DigitRun(t[2..]) == |t| - 2 - |rest|
            && (t[1] == MINUS <==> e < 0)
            && Signed(e < 0, DigitsValue(t[2..][..|t| - 2 - |rest|])) == e
            && t[2..][|t| - 2 - |rest|..] == rest
  {
    var ds := ExponentDigits(if e < 0 then -e else e);
    var t := ExponentText(e) + rest;
    DigitRunOf(ds, rest);
    assert t[2..] == ds + rest;
    assert (ds + rest)[..|ds|] == ds && (ds + rest)[|ds|..] == rest;
  }

  /** What is read when the whole digits, the fraction and the exponent have been told apart. */
  lemma ReadScientific(neg: bool, whole: Text, fraction: Text, e: int, tail: Text, rest: Text)
    requires AllDigits(whole) && AllDigits(fraction) && |whole| == 1 && NoDigitFirst(rest) && NoDigitFirst(tail)
    requires FractionRun(tail) == (if fraction == [] then 0 else 1 + |fraction|)
    requires fraction != [] ==> tail[1..1 + |fraction|] == fraction
    requires tail[FractionRun(tail)..] == ExponentText(e) + rest
    ensures ParseUnsigned(neg, whole + tail) == Some((Real(Normalized(neg, whole + fraction, 1 + e)), rest))
  {
    hide ExponentText, Normalized, ExponentMark, DigitRun, FractionRun, WholeRun, DigitsValue;
    var u := whole + tail;
    assert WholeRun(u) == 1 by {
      WholeRunOf(whole, tail);
    }
    assert u[..1] == whole && u[1..] == tail;
    ExponentOf(e, rest);
  }

  lemma ShortScientificRoundTrip(d: Float, rest: Text)
    requires !(-4 < d.point <= 16) && |d.digits| == 1 && EndsNumber(rest)
    ensures ParseUnsigned(d.neg, PrintMagnitude(d) + rest) == Some((Real(d), rest))
  {
    hide ExponentText, Normalized, ExponentMark, DigitRun, WholeRun, DigitsValue, ParseUnsigned;
    var mark := ExponentText(d.point - 1) + rest;
    assert mark[0..] == mark;
    assert d.digits[..1] == d.digits && d.digits[1..] == [];
    assert PrintMagnitude(d) + rest == d.digits + mark;
    ReadScientific(d.neg, d.digits, [], d.point - 1, mark, rest);
    ScientificValue(d);
  }

  lemma LongScientificRoundTrip(d: Float, rest: Text)
    requires !(-4 < d.point <= 16) && |d.digits| > 1 && EndsNumber(rest)
    ensures ParseUnsigned(d.neg, PrintMagnitude(d) + rest) == Some((Real(d), rest))
  {
    hide ExponentText, Normalized, ExponentMark, DigitRun, WholeRun, DigitsValue, FractionRun, ParseUnsigned;
    var mark := ExponentText(d.point - 1) + rest;
    var first, more := d.digits[..1], d.digits[1..];
    var tail := [DOT] + more + mark;
    ScientificText(d, rest, tail);
    FractionRunOf(more, mark);
    assert tail[1..1 + |more|] == more && tail[1 + |more|..] == mark;
    ReadScientific(d.neg, first, more, d.point - 1, tail, rest);
    ScientificValue(d);
  }

  lemma ScientificText(d: Float, rest: Text, tail: Text)
    requires !(-4 < d.point <= 16) && |d.digits| > 1
    requires tail == [DOT] + d.digits[1..] + (ExponentText(d.point - 1) + rest)
    ensures PrintMagnitude(d) + rest == d.digits[..1] + tail
  {
    assert tail == [DOT] + d.digits[1..] + ExponentText(d.point - 1) + rest;
  }

  lemma ScientificValue(d: Float)
    requires d.digits != []
    ensures Normalized(d.neg, d.digits[..1] + d.digits[1..], d.point) == d
  {
    assert d.digits[..1] + d.digits[1..] == d.digits == Zeros(0) + d.digits + Zeros(0);
    NormalizedPadded(d, 0, 0, d.digits);
  }

  lemma FloatRoundTrip(d: Float, rest: Text)
    requires EndsNumber(rest)
    ensures ParseUnsigned(d.neg, PrintMagnitude(d) + rest) == Some((Real(d), rest))
  {
    if -4 < d.point <= 16 {
      FixedRoundTrip(d, rest);
    } else if |d.digits| == 1 {
      ShortScientificRoundTrip(d, rest);
    } else {
      LongScientificRoundTrip(d, rest);
    }
  }

  lemma SignedText(neg: bool, u: Text, rest: Text)
    requires u != [] && IsDigit(u[0])
    ensures ParseNumber((if neg then [MINUS] + u else u) + rest) == ParseUnsigned(neg, u + rest)
  {
    assert ([MINUS] + u + rest)[1..] == u + rest;
  }

  /** Reading back a printed number gives that number and leaves what follows. */
  lemma NumberRoundTrip(v: Number, rest: Text)
    requires EndsNumber(rest)
    ensures ParseNumber(PrintNumber(v) + rest) == Some((v, rest))
  {
    match v
    case Int(n) =>
      var magnitude := if n < 0 then -n else n;
      SignedText(n < 0, Decimal10(magnitude), rest);
      UnsignedIntRoundTrip(n < 0, magnitude, rest);
    case Real(d) =>
      SignedText(d.neg, PrintMagnitude(d), rest);
      FloatRoundTrip(d, rest);
  }
}
