/** Python strings as sequences of code points, with the few text operations the program uses. */
module Texts {

  /** Any code point a Python `str` can hold, lone surrogates included. */
  type CodePoint = c: int | 0 <= c < 0x110000

  type Text = seq<CodePoint>

  type byte = b: int | 0 <= b < 256

  datatype Option<+T> = None | Some(value: T)

  /** The letters of a text, for comparing literals. */
  ghost function Letters(t: Text): string {
    seq(|t|, i requires 0 <= i < |t| => if t[i] < 0xD800 || 0xE000 <= t[i] then t[i] as char else '?')
  }

  /** A literal as a text. */
  function Lit(s: string): (t: Text)
    ensures |t| == |s|
    ensures forall i :: 0 <= i < |s| ==> t[i] == s[i] as int
    ensures Letters(t) == s
  {
    seq(|s|, i requires 0 <= i < |s| => s[i] as int)
  }

  const ZERO: CodePoint := 48

  predicate IsDigit(c: CodePoint) {
    48 <= c <= 57
  }

  predicate AllDigits(t: Text) {
    forall i :: 0 <= i < |t| ==> IsDigit(t[i])
  }

  predicate Printable(t: Text) {
    forall i :: 0 <= i < |t| ==> 32 <= t[i] < 127
  }

  /** Lower-case hexadecimal digits, the alphabet of `hexdigest`. */
  predicate IsHexDigit(c: CodePoint) {
    IsDigit(c) || 97 <= c <= 102
  }

  predicate AllHex(t: Text) {
    forall i :: 0 <= i < |t| ==> IsHexDigit(t[i])
  }

  function HexDigit(n: nat): (c: CodePoint)
    requires n < 16
    ensures IsHexDigit(c)
  {
    if n < 10 then 48 + n else 87 + n
  }

  /** The value of a hexadecimal digit of either case. */
  function HexValue(c: CodePoint): (v: Option<nat>)
    ensures v.Some? ==> v.value < 16
    ensures forall n: nat | n < 16 :: c == HexDigit(n) ==> v == Some(n)
  {
    if IsDigit(c) then Some(c - 48)
    else if 97 <= c <= 102 then Some(c - 87)
    else if 65 <= c <= 70 then Some(c - 55)
    else None
  }

  /** The low `width` hexadecimal digits of a number, most significant first. */
  function HexDigits(n: nat, width: nat): (t: Text)
    ensures |t| == width && AllHex(t)
  {
    if width == 0 then [] else HexDigits(n / 16, width - 1) + [HexDigit(n % 16)]
  }

  function Decimal10(n: nat): (t: Text)
    ensures |t| > 0 && AllDigits(t)
    ensures t[0] == ZERO ==> t == [ZERO]
  {
    if n < 10 then [48 + n] else Decimal10(n / 10) + [48 + n % 10]
  }

  function DigitsValue(t: Text): nat
    requires AllDigits(t)
  {
    if t == [] then 0 else DigitsValue(t[..|t| - 1]) * 10 + (t[|t| - 1] - 48)
  }

  lemma {:induction false} DecimalValue(n: nat)
    ensures DigitsValue(Decimal10(n)) == n
  {
    if n >= 10 {
      DecimalValue(n / 10);
      assert Decimal10(n)[..|Decimal10(n)| - 1] == Decimal10(n / 10);
    } else {
      assert DigitsValue([]) == 0;
      assert Decimal10(n)[..0] == [];
    }
  }

  lemma {:induction false} LeadingZeroValue(t: Text)
    requires AllDigits(t)
    ensures DigitsValue([ZERO] + t) == DigitsValue(t)
  {
    var z: Text := [ZERO] + t;
    if t == [] {
      assert z[..0] == [];
    } else {
      assert z[..|z| - 1] == [ZERO] + t[..|t| - 1];
      LeadingZeroValue(t[..|t| - 1]);
    }
  }

  /** The number of leading digits. */
  function DigitRun(t: Text): (k: nat)
    ensures k <= |t| && AllDigits(t[..k])
  {
    if t == [] || !IsDigit(t[0]) then 0 else 1 + DigitRun(t[1..])
  }

  predicate NoDigitFirst(t: Text) {
    t == [] || !IsDigit(t[0])
  }

  lemma {:induction false} DigitRunOf(ds: Text, rest: Text)
    requires AllDigits(ds) && NoDigitFirst(rest)
    ensures DigitRun(ds + rest) == |ds|
  {
    if ds == [] {
      assert ds + rest == rest;
    } else {
      assert (ds + rest)[1..] == ds[1..] + rest;
      DigitRunOf(ds[1..], rest);
    }
  }

  function Zeros(n: nat): (t: Text)
    ensures |t| == n && forall i :: 0 <= i < n ==> t[i] == ZERO
  {
    seq(n, _ => ZERO)
  }

  /** `sub in t`. */
  predicate Contains(t: Text, sub: Text) {
    sub <= t || (t != [] && Contains(t[1..], sub))
  }

  lemma {:induction false} ContainsAfter(pre: Text, t: Text, sub: Text)
    requires Contains(t, sub)
    ensures Contains(pre + t, sub)
  {
    if pre == [] {
      assert pre + t == t;
    } else {
      assert (pre + t)[1..] == pre[1..] + t;
      ContainsAfter(pre[1..], t, sub);
    }
  }

  lemma {:induction false} ContainsBefore(t: Text, post: Text, sub: Text)
    requires Contains(t, sub)
    ensures Contains(t + post, sub)
  {
    if sub <= t {
      assert sub <= t + post;
    } else {
      assert (t + post)[1..] == t[1..] + post;
      ContainsBefore(t[1..], post, sub);
    }
  }

  lemma ContainsWithin(pre: Text, t: Text, post: Text, sub: Text)
    requires Contains(t, sub)
    ensures Contains(pre + t + post, sub)
  {
    ContainsAfter(pre, t, sub);
    ContainsBefore(pre + t, post, sub);
  }

  lemma {:induction false} ContainsOnlyItsLetters(t: Text, sub: Text, c: CodePoint)
    requires Contains(t, sub) && c in sub
    ensures c in t
  {
    if !(sub <= t) {
      ContainsOnlyItsLetters(t[1..], sub, c);
    }
  }

  /** Python's order on strings: lexicographic by code point. */
  predicate TextLess(a: Text, b: Text) {
    b != [] && (a == [] || a[0] < b[0] || (a[0] == b[0] && TextLess(a[1..], b[1..])))
  }

  lemma {:induction false} TextLessTotal(a: Text, b: Text)
    ensures TextLess(a, b) || a == b || TextLess(b, a)
  {
    if a != [] && b != [] && a[0] == b[0] {
      TextLessTotal(a[1..], b[1..]);
      if a[1..] == b[1..] {
        assert a == [a[0]] + a[1..] && b == [b[0]] + b[1..];
      }
    }
  }

  lemma {:induction false} TextLessTransitive(a: Text, b: Text, c: Text)
    requires TextLess(a, b) && TextLess(b, c)
    ensures TextLess(a, c)
  {
    if a != [] && b != [] && a[0] == b[0] && b[0] == c[0] {
      TextLessTransitive(a[1..], b[1..], c[1..]);
    }
  }

  lemma {:induction false} TextLessIrreflexive(a: Text)
    ensures !TextLess(a, a)
  {
    if a != [] {
      TextLessIrreflexive(a[1..]);
    }
  }

  /** The characters `str.strip` removes. */
  predicate IsSpace(c: CodePoint) {
    || 9 <= c <= 13 || 28 <= c <= 32 || c == 0x85 || c == 0xA0 || c == 0x1680
    || 0x2000 <= c <= 0x200A || c == 0x2028 || c == 0x2029 || c == 0x202F || c == 0x205F || c == 0x3000
  }

  function StripStart(t: Text): Text {
    if t != [] && IsSpace(t[0]) then StripStart(t[1..]) else t
  }

  function StripEnd(t: Text): Text {
    if t != [] && IsSpace(t[|t| - 1]) then StripEnd(t[..|t| - 1]) else t
  }

  /** `str.strip` */
  function Strip(t: Text): Text {
    StripEnd(StripStart(t))
  }

  lemma StripNothing(t: Text)
    requires t != [] && !IsSpace(t[0]) && !IsSpace(t[|t| - 1])
    ensures Strip(t) == t
  {
  }
}
