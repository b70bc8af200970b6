/** The exact-decimal path, from text to the mirror. */
module Decimal {
  // Text to unscaled integer (dynamic.go), the precision check (poison.go), 128-bit
  // sign extension (internal/schemamap/adapt.go) and the mirror's low-word read
  // (internal/chmirror/decimal.go).

  import opened Bytes
  import opened Record

  datatype Refusal = Inexact | Malformed | OutOfRange

  datatype Scaled = Unscaled(v: int64) | Refused(why: Refusal)

  predicate IsDigit(c: char) { '0' <= c <= '9' }

  predicate AllDigits(s: string) {
    s != "" && forall c | c in s :: IsDigit(c)
  }

  function DigitsValue(s: string): nat
    requires forall c | c in s :: IsDigit(c)
  {
    if s == "" then 0
    else
      assert IsDigit(s[|s| - 1]);
      DigitsValue(s[..|s| - 1]) * 10 + (s[|s| - 1] as int - '0' as int)
  }

  function Pow10(n: nat): (p: nat)
    ensures p >= 1
  {
    if n == 0 then 1 else 10 * Pow10(n - 1)
  }

  function Zeros(n: nat): (s: string)
    ensures |s| == n && forall c | c in s :: c == '0'
  {
    if n == 0 then "" else Zeros(n - 1) + "0"
  }

  // The text before and after the first occurrence of a character.
  function Cut(s: string, sep: char): (r: (string, string, bool))
    ensures r.2 ==> s == r.0 + [sep] + r.1 && sep !in r.0
    ensures !r.2 ==> s == r.0 && r.1 == "" && sep !in s
  {
    if s == "" then ("", "", false)
    else if s[0] == sep then
      assert s == "" + [sep] + s[1..];
      ("", s[1..], true)
    else
      var r := Cut(s[1..], sep);
      assert s == [s[0]] + s[1..];
      assert r.2 ==> s == [s[0]] + r.0 + [sep] + r.1;
      ([s[0]] + r.0, r.1, r.2)
  }

  /** A decimal taken apart: its sign, whole digits and fraction digits. */
  datatype Spelling = Spelling(negative: bool, whole: string, fraction: string)
  {
    predicate Valid() {
      AllDigits(whole) && (fraction == "" || AllDigits(fraction))
    }

    function Body(): string {
      whole + (if fraction == "" then "" else "." + fraction)
    }

    function Text(): string {
      if negative then "-" + Body() else Body()
    }

    // The number spelled, without its point: the value is this over ten to the
    // fraction's length.
    function Digits(): int
      requires Valid()
    {
      var n: int := DigitsValue(whole + fraction);
      if negative then -n else n
    }
  }

  function SpellBody(negative: bool, digits: string): Option<Spelling> {
    var (whole, fraction, hasPoint) := Cut(digits, '.');
    if !AllDigits(whole) || (hasPoint && !AllDigits(fraction)) then None
    else Some(Spelling(negative, whole, fraction))
  }

  function Spell(text: string): Option<Spelling> {
    if text != "" && text[0] == '-' then SpellBody(true, text[1..]) else SpellBody(false, text)
  }

  function ScaleSpelling(sp: Spelling, scale: nat): Scaled
    requires sp.Valid()
  {
    if |sp.fraction| > scale then Refused(Inexact)
    else
      var combined := sp.whole + sp.fraction + Zeros(scale - |sp.fraction|);
      var n: int := DigitsValue(combined);
      if n >= TWO_63 then Refused(OutOfRange)
      else Unscaled(if sp.negative then -n else n)
  }

  function ScaleDecimal(text: string, scale: nat): Scaled {
    if 'e' in text || 'E' in text then Refused(Inexact)
    else match Spell(text)
      case None => Refused(Malformed)
      case Some(sp) => ScaleSpelling(sp, scale)
  }

  lemma {:induction false} ZerosMultiply(s: string, n: nat)
    requires forall c | c in s :: IsDigit(c)
    ensures forall c | c in s + Zeros(n) :: IsDigit(c)
    ensures DigitsValue(s + Zeros(n)) == DigitsValue(s) * Pow10(n)
  {
    if n == 0 {
      assert s + Zeros(0) == s;
    } else {
      ZerosMultiply(s, n - 1);
      var t := s + Zeros(n);
      assert t[..|t| - 1] == s + Zeros(n - 1) && t[|t| - 1] == '0';
      Reassociate(DigitsValue(s), Pow10(n - 1));
    }
  }

  lemma Reassociate(a: nat, b: nat)
    ensures a * b * 10 == a * (10 * b)
  {
  }

  lemma {:induction false} CutAt(front: string, back: string, sep: char)
    requires sep !in front
    ensures Cut(front + [sep] + back, sep) == (front, back, true)
  {
    var s := front + [sep] + back;
    if front == "" {
      assert s[1..] == back;
    } else {
      CutAt(front[1..], back, sep);
      assert s[1..] == front[1..] + [sep] + back;
      assert front == [front[0]] + front[1..] && s[0] == front[0];
    }
  }

  lemma {:induction false} CutNowhere(s: string, sep: char)
    requires sep !in s
    ensures Cut(s, sep) == (s, "", false)
  {
    if s != "" {
      CutNowhere(s[1..], sep);
      assert s == [s[0]] + s[1..];
    }
  }

  lemma BodyReadsBack(sp: Spelling)
    requires sp.Valid()
    ensures SpellBody(sp.negative, sp.Body()) == Some(sp)
    ensures forall c | c in sp.Body() :: IsDigit(c) || c == '.'
    ensures sp.Body() != "" && IsDigit(sp.Body()[0])
  {
    hide Cut;
    assert sp.whole[0] in sp.whole;
    if sp.fraction == "" {
      assert sp.Body() == sp.whole;
      CutNowhere(sp.whole, '.');
    } else {
      assert sp.Body() == sp.whole + ['.'] + sp.fraction;
      CutAt(sp.whole, sp.fraction, '.');
    }
  }

  lemma SpelledTextReadsBack(sp: Spelling)
    requires sp.Valid()
    ensures Spell(sp.Text()) == Some(sp) && 'e' !in sp.Text() && 'E' !in sp.Text()
  {
    hide SpellBody, AllDigits;
    BodyReadsBack(sp);
    assert sp.negative ==> sp.Text()[1..] == sp.Body();
  }

  lemma ReadBodyIsSpelled(negative: bool, digits: string)
    requires SpellBody(negative, digits).Some?
    ensures var sp := SpellBody(negative, digits).value; sp.Valid() && sp.Body() == digits && sp.negative == negative
  {
    var (whole, fraction, hasPoint) := Cut(digits, '.');
    if hasPoint {
      assert digits == whole + ("." + fraction);
    } else {
      assert digits == whole + "";
    }
  }

  lemma ReadTextIsSpelled(text: string)
    requires Spell(text).Some?
    ensures Spell(text).value.Valid() && Spell(text).value.Text() == text
  {
    hide SpellBody, AllDigits;
    if text != "" && text[0] == '-' {
      ReadBodyIsSpelled(true, text[1..]);
    } else {
      ReadBodyIsSpelled(false, text);
    }
  }

  /** A text reads as a spelling exactly when it is that spelling's text: the
      grammar is minus, digits, and a point with more digits, each decimal once. */
  lemma SpellUndoesText(text: string, sp: Spelling)
    ensures Spell(text) == Some(sp) <==> sp.Valid() && sp.Text() == text
  {
    hide Spell;
    if Spell(text) == Some(sp) {
      ReadTextIsSpelled(text);
    }
    if sp.Valid() && sp.Text() == text {
      SpelledTextReadsBack(sp);
    }
  }

  /** Scaling is exact: the text of a decimal with at most `scale` fraction digits
      yields its number times ten to the scale, and is refused only when that
      needs a magnitude of 2^63 or more. */
  lemma ScalingIsExact(sp: Spelling, scale: nat)
    requires sp.Valid()
    ensures |sp.fraction| > scale ==> ScaleDecimal(sp.Text(), scale) == Refused(Inexact)
    ensures |sp.fraction| <= scale ==>
              var v := sp.Digits() * Pow10(scale - |sp.fraction|);
              ScaleDecimal(sp.Text(), scale) == if -TWO_63 < v < TWO_63 then Unscaled(v) else Refused(OutOfRange)
  {
    hide Spell, Cut, DigitsValue, Pow10, Zeros;
    SpelledTextReadsBack(sp);
    if |sp.fraction| <= scale {
      ZerosMultiply(sp.whole + sp.fraction, scale - |sp.fraction|);
      Negated(DigitsValue(sp.whole + sp.fraction), Pow10(scale - |sp.fraction|));
    }
  }

  lemma Negated(a: int, b: int)
    ensures (-a) * b == -(a * b)
  {
  }

  /** Whatever is accepted is the text of a decimal: nothing else scales. */
  lemma OnlyDecimalsScale(text: string, scale: nat)
    requires ScaleDecimal(text, scale).Unscaled?
    ensures Spell(text).Some? && Spell(text).value.Valid() && Spell(text).value.Text() == text
    ensures |Spell(text).value.fraction| <= scale
    ensures ScaleDecimal(text, scale).v == Spell(text).value.Digits() * Pow10(scale - |Spell(text).value.fraction|)
  {
    hide Spell, Cut, DigitsValue, Pow10, Zeros;
    ReadTextIsSpelled(text);
    ScalingIsExact(Spell(text).value, scale);
  }

  /** Why a text is refused: for an exponent before anything else; as malformed exactly
      when it has none and no decimal is spelled so; as inexact otherwise only for its
      fraction digits. And a digit is worth what it says. */
  lemma WhyNotScaled(text: string, scale: nat)
    ensures 'e' in text || 'E' in text ==> ScaleDecimal(text, scale) == Refused(Inexact)
    ensures ScaleDecimal(text, scale) == Refused(Malformed) <==>
            'e' !in text && 'E' !in text && forall sp: Spelling :: !(sp.Valid() && sp.Text() == text)
    ensures forall c | c in "0123456789" :: IsDigit(c) && DigitsValue([c]) == c as int - 48
  {
    hide Cut, Zeros, SpellBody;
    if Spell(text).Some? {
      SpellUndoesText(text, Spell(text).value);
    }
    forall sp: Spelling | sp.Valid() && sp.Text() == text
      ensures Spell(text) == Some(sp)
    {
      SpellUndoesText(text, sp);
    }
    forall c | c in "0123456789"
      ensures IsDigit(c) && DigitsValue([c]) == c as int - 48
    {
      assert [c][..0] == "";
    }
  }

  function Abs(v: int): nat { if v < 0 then -v else v }

  function Numeral(n: nat): (s: string)
    ensures AllDigits(s) && DigitsValue(s) == n
  {
    if n < 10 then
      var s := [(n + '0' as int) as char];
      assert s[..0] == "";
      s
    else
      var front := Numeral(n / 10);
      var s := front + [(n % 10 + '0' as int) as char];
      assert s[..|s| - 1] == front;
      s
  }

  // Some digits in front of others.
  lemma {:induction false} DigitsJoin(a: string, b: string)
    requires forall c | c in a + b :: IsDigit(c)
    ensures (forall c | c in a :: IsDigit(c)) && forall c | c in b :: IsDigit(c)
    ensures DigitsValue(a + b) == DigitsValue(a) * Pow10(|b|) + DigitsValue(b)
    decreases |b|
  {
    assert forall c | c in a :: c in a + b;
    assert forall c | c in b :: c in a + b;
    if b == "" {
      assert a + b == a;
    } else {
      var front, s := b[..|b| - 1], a + b;
      assert s[..|s| - 1] == a + front && s[|s| - 1] == b[|b| - 1];
      DigitsJoin(a, front);
      Reassociate(DigitsValue(a), Pow10(|front|));
    }
  }

  lemma {:induction false} DigitsBelow(s: string)
    requires forall c | c in s :: IsDigit(c)
    ensures DigitsValue(s) < Pow10(|s|)
    decreases |s|
  {
    if s != "" {
      assert IsDigit(s[|s| - 1]);
      DigitsBelow(s[..|s| - 1]);
    }
  }

  // Digits in a field of fixed width.
  function Padded(n: nat, width: nat): (s: string)
    requires n < Pow10(width)
    ensures |s| == width && (forall c | c in s :: IsDigit(c)) && DigitsValue(s) == n
    decreases width
  {
    if width == 0 then ""
    else
      var s := Padded(n / 10, width - 1) + [(n % 10 + '0' as int) as char];
      assert s[..|s| - 1] == Padded(n / 10, width - 1);
      s
  }

  lemma Divide(n: nat, p: nat) returns (q: nat, r: nat)
    requires p >= 1
    ensures n == q * p + r && r < p
  {
    q, r := n / p, n % p;
  }

  // A spelling of an unscaled integer at a scale.
  lemma SpellingOf(v: int, scale: nat) returns (sp: Spelling)
    ensures sp.Valid() && |sp.fraction| == scale && sp.Digits() == v
  {
    hide Numeral, Padded, Pow10, DigitsValue;
    var q, r := Divide(Abs(v), Pow10(scale));
    sp := Spelling(v < 0, Numeral(q), Padded(r, scale));
    DigitsJoin(sp.whole, sp.fraction);
  }

  /** An int64 is reached by some text at a scale if and only if it is not the least:
      the digits are parsed before the sign is applied. */
  lemma ReachableIffNotLeast(v: int64, scale: nat)
    ensures (exists text :: ScaleDecimal(text, scale) == Unscaled(v)) <==> v != -TWO_63
  {
    hide ScaleDecimal, Spell, DigitsValue;
    assert Pow10(0) == 1;
    if v != -TWO_63 {
      var sp := SpellingOf(v, scale);
      ScalingIsExact(sp, scale);
      assert ScaleDecimal(sp.Text(), scale) == Unscaled(v);
    }
    if text :| ScaleDecimal(text, scale) == Unscaled(-TWO_63) {
      OnlyDecimalsScale(text, scale);
      ScalingIsExact(Spell(text).value, scale);
    }
  }

  // ------------------------------------------------------- spellings of one value

  function StripLeading(s: string): string {
    if s != "" && s[0] == '0' then StripLeading(s[1..]) else s
  }

  function StripTrailing(s: string): string {
    if s != "" && s[|s| - 1] == '0' then StripTrailing(s[..|s| - 1]) else s
  }

  // A spelling without its idle zeros, and zero without its sign.
  function Plain(sp: Spelling): Spelling {
    var whole, fraction := StripLeading(sp.whole), StripTrailing(sp.fraction);
    Spelling(sp.negative && (whole != "" || fraction != ""), whole, fraction)
  }

  lemma {:induction false} LeadingStripped(s: string)
    requires forall c | c in s :: IsDigit(c)
    ensures (forall c | c in StripLeading(s) :: IsDigit(c)) && DigitsValue(StripLeading(s)) == DigitsValue(s)
    ensures StripLeading(s) != "" ==> StripLeading(s)[0] != '0'
    decreases |s|
  {
    if s != "" && s[0] == '0' {
      assert s == "0" + s[1..];
      DigitsJoin("0", s[1..]);
      assert "0"[..0] == "" && DigitsValue("0") == 0;
      LeadingStripped(s[1..]);
    }
  }

  lemma {:induction false} SameLengthSameDigits(a: string, b: string)
    requires |a| == |b| && (forall c | c in a :: IsDigit(c)) && forall c | c in b :: IsDigit(c)
    requires DigitsValue(a) == DigitsValue(b)
    ensures a == b
    decreases |a|
  {
    if a != "" {
      var n := |a| - 1;
      assert IsDigit(a[n]) && IsDigit(b[n]);
      SameLengthSameDigits(a[..n], b[..n]);
      assert a == a[..n] + [a[n]] && b == b[..n] + [b[n]];
    }
  }

  // A numeral with no leading zero is as large as its length says.
  lemma LeadingCounts(s: string)
    requires s != "" && s[0] != '0' && forall c | c in s :: IsDigit(c)
    ensures Pow10(|s| - 1) <= DigitsValue(s)
  {
    assert s == [s[0]] + s[1..] && s[0] in s;
    DigitsJoin([s[0]], s[1..]);
    assert [s[0]][..0] == "" && 1 <= DigitsValue([s[0]]);
    AtLeast(DigitsValue([s[0]]), Pow10(|s| - 1));
  }

  lemma AtLeast(a: nat, b: nat)
    requires 1 <= a
    ensures b <= a * b
  {
  }

  lemma {:induction false} Pow10Grows(m: nat, n: nat)
    requires m <= n
    ensures Pow10(m) <= Pow10(n)
    decreases n - m
  {
    if m < n {
      Pow10Grows(m, n - 1);
    }
  }

  lemma NumeralsAreUnique(a: string, b: string)
    requires (forall c | c in a :: IsDigit(c)) && forall c | c in b :: IsDigit(c)
    requires (a != "" ==> a[0] != '0') && (b != "" ==> b[0] != '0') && DigitsValue(a) == DigitsValue(b)
    ensures a == b
  {
    hide Pow10, DigitsValue;
    DigitsBelow(a);
    DigitsBelow(b);
    if |a| < |b| {
      LeadingCounts(b);
      Pow10Grows(|a|, |b| - 1);
    } else if |b| < |a| {
      LeadingCounts(a);
      Pow10Grows(|b|, |a| - 1);
    }
    SameLengthSameDigits(a, b);
  }

  // Whole numbers are equal exactly when their numerals are, idle zeros aside.
  lemma WholesAgree(a: string, b: string)
    requires (forall c | c in a :: IsDigit(c)) && forall c | c in b :: IsDigit(c)
    ensures DigitsValue(a) == DigitsValue(b) <==> StripLeading(a) == StripLeading(b)
  {
    hide DigitsValue;
    LeadingStripped(a);
    LeadingStripped(b);
    if DigitsValue(a) == DigitsValue(b) {
      NumeralsAreUnique(StripLeading(a), StripLeading(b));
    }
  }

  lemma {:induction false} TrailingStripped(s: string, n: nat)
    ensures StripTrailing(s + Zeros(n)) == StripTrailing(s)
    decreases n
  {
    if n == 0 {
      assert s + Zeros(0) == s;
    } else {
      var t := s + Zeros(n);
      assert t[..|t| - 1] == s + Zeros(n - 1) && t[|t| - 1] == '0';
      TrailingStripped(s, n - 1);
    }
  }

  lemma {:induction false} TrailingPadded(s: string)
    ensures |StripTrailing(s)| <= |s| && s == StripTrailing(s) + Zeros(|s| - |StripTrailing(s)|)
    decreases |s|
  {
    if s != "" && s[|s| - 1] == '0' {
      var front := s[..|s| - 1];
      TrailingPadded(front);
      assert s == front + "0";
      assert Zeros(|s| - |StripTrailing(s)|) == Zeros(|front| - |StripTrailing(front)|) + "0";
    } else {
      assert s == s + Zeros(0);
    }
  }

  lemma {:induction false} ZerosJoin(m: nat, n: nat)
    ensures Zeros(m) + Zeros(n) == Zeros(m + n)
    decreases n
  {
    if n > 0 {
      ZerosJoin(m, n - 1);
      assert Zeros(m) + Zeros(n) == Zeros(m) + Zeros(n - 1) + "0";
    }
  }

  function Fill(fraction: string, scale: nat): string
    requires |fraction| <= scale
  {
    fraction + Zeros(scale - |fraction|)
  }

  // Fractions padded to one width are equal exactly when their digits are, idle
  // zeros aside.
  lemma FractionsAgree(a: string, b: string, scale: nat)
    requires |a| <= scale && |b| <= scale
    ensures Fill(a, scale) == Fill(b, scale) <==> StripTrailing(a) == StripTrailing(b)
  {
    hide StripTrailing, Zeros;
    TrailingStripped(a, scale - |a|);
    TrailingStripped(b, scale - |b|);
    if StripTrailing(a) == StripTrailing(b) {
      FillStripped(a, scale);
      FillStripped(b, scale);
    }
  }

  lemma FillStripped(a: string, scale: nat)
    requires |a| <= scale
    ensures |StripTrailing(a)| <= scale && Fill(a, scale) == StripTrailing(a) + Zeros(scale - |StripTrailing(a)|)
  {
    TrailingPadded(a);
    var core, m, n := StripTrailing(a), |a| - |StripTrailing(a)|, scale - |a|;
    ZerosJoin(m, n);
    assert core + Zeros(m) + Zeros(n) == core + (Zeros(m) + Zeros(n));
  }

  // The unscaled number is the whole part moved left by the scale, and the filled
  // fraction beside it.
  lemma SplitsAtPoint(sp: Spelling, scale: nat)
    requires sp.Valid() && |sp.fraction| <= scale
    ensures forall c | c in Fill(sp.fraction, scale) :: IsDigit(c)
    ensures DigitsValue(sp.whole + sp.fraction) * Pow10(scale - |sp.fraction|) ==
            DigitsValue(sp.whole) * Pow10(scale) + DigitsValue(Fill(sp.fraction, scale))
    ensures DigitsValue(Fill(sp.fraction, scale)) < Pow10(scale)
  {
    hide Pow10, DigitsValue, Zeros;
    var fill := Fill(sp.fraction, scale);
    ZerosMultiply(sp.whole + sp.fraction, scale - |sp.fraction|);
    assert sp.whole + sp.fraction + Zeros(scale - |sp.fraction|) == sp.whole + fill;
    DigitsJoin(sp.whole, fill);
    DigitsBelow(fill);
  }

  lemma Euclid(a: nat, b: nat, c: nat, d: nat, p: nat)
    requires b < p && d < p
    ensures a * p + b == c * p + d <==> a == c && b == d
  {
    if a < c {
      assert (a + 1) * p <= c * p by { Monotone(a + 1, c, p); }
    } else if c < a {
      assert (c + 1) * p <= a * p by { Monotone(c + 1, a, p); }
    }
  }

  lemma Monotone(a: nat, b: nat, p: nat)
    requires a <= b
    ensures a * p <= b * p
  {
  }

  // Magnitudes are equal exactly when the digits are, idle zeros aside.
  lemma MagnitudesAgree(a: Spelling, b: Spelling, scale: nat)
    requires a.Valid() && b.Valid() && |a.fraction| <= scale && |b.fraction| <= scale
    ensures DigitsValue(a.whole + a.fraction) * Pow10(scale - |a.fraction|) ==
            DigitsValue(b.whole + b.fraction) * Pow10(scale - |b.fraction|) <==>
            StripLeading(a.whole) == StripLeading(b.whole) && StripTrailing(a.fraction) == StripTrailing(b.fraction)
  {
    hide Pow10, DigitsValue, StripLeading, StripTrailing, Zeros;
    SplitsAtPoint(a, scale);
    SplitsAtPoint(b, scale);
    var f, g := Fill(a.fraction, scale), Fill(b.fraction, scale);
    Euclid(DigitsValue(a.whole), DigitsValue(f), DigitsValue(b.whole), DigitsValue(g), Pow10(scale));
    WholesAgree(a.whole, b.whole);
    FractionsAgree(a.fraction, b.fraction, scale);
    if DigitsValue(f) == DigitsValue(g) {
      SameLengthSameDigits(f, g);
    }
  }

  lemma ZeroIsBare(sp: Spelling, scale: nat)
    requires sp.Valid() && |sp.fraction| <= scale
    ensures DigitsValue(sp.whole + sp.fraction) * Pow10(scale - |sp.fraction|) == 0 <==>
            StripLeading(sp.whole) == "" && StripTrailing(sp.fraction) == ""
  {
    hide DigitsValue, Pow10;
    var zero := Spelling(false, "0", "");
    assert zero.whole + zero.fraction == "0" && StripLeading("0") == StripLeading("") == "" && StripTrailing("") == "";
    assert DigitsValue("0") == 0 by { ZeroDigit(); }
    MagnitudesAgree(sp, zero, scale);
  }

  lemma ZeroDigit()
    ensures DigitsValue("0") == 0
  {
    assert "0"[..0] == "";
  }

  /** Two accepted texts give one integer at a scale if and only if they spell the same
      decimal, leading zeros, trailing fraction zeros and the sign of zero aside. */
  lemma SameIntegerIff(a: string, b: string, scale: nat)
    requires ScaleDecimal(a, scale).Unscaled? && ScaleDecimal(b, scale).Unscaled?
    ensures ScaleDecimal(a, scale) == ScaleDecimal(b, scale) <==> Plain(Spell(a).value) == Plain(Spell(b).value)
  {
    hide ScaleDecimal, Spell, DigitsValue, Pow10, StripLeading, StripTrailing;
    OnlyDecimalsScale(a, scale);
    OnlyDecimalsScale(b, scale);
    var x, y := Spell(a).value, Spell(b).value;
    var m := DigitsValue(x.whole + x.fraction) * Pow10(scale - |x.fraction|);
    var n := DigitsValue(y.whole + y.fraction) * Pow10(scale - |y.fraction|);
    Negated(DigitsValue(x.whole + x.fraction), Pow10(scale - |x.fraction|));
    Negated(DigitsValue(y.whole + y.fraction), Pow10(scale - |y.fraction|));
    MagnitudesAgree(x, y, scale);
    ZeroIsBare(x, scale);
    ZeroIsBare(y, scale);
  }

  /** No accepted text is the only one for its value: a zero in front is another. */
  lemma NoTextIsAlone(sp: Spelling, scale: nat)
    requires sp.Valid()
    ensures var longer := sp.(whole := "0" + sp.whole);
            && longer.Valid() && longer.Text() != sp.Text()
            && ScaleDecimal(longer.Text(), scale) == ScaleDecimal(sp.Text(), scale)
  {
    hide ScaleDecimal, DigitsValue, Pow10;
    var longer := sp.(whole := "0" + sp.whole);
    assert |longer.Text()| == |sp.Text()| + 1;
    assert "0" + sp.whole + sp.fraction == "0" + (sp.whole + sp.fraction);
    DigitsJoin("0", sp.whole + sp.fraction);
    ZeroDigit();
    ScalingIsExact(sp, scale);
    ScalingIsExact(longer, scale);
  }

  // ---------------------------------------------------------------- precision

  const POW10: seq<int64> :=
    [1, 10, 100, 1_000, 10_000, 100_000, 1_000_000, 10_000_000, 100_000_000, 1_000_000_000,
     10_000_000_000, 100_000_000_000, 1_000_000_000_000, 10_000_000_000_000, 100_000_000_000_000,
     1_000_000_000_000_000, 10_000_000_000_000_000, 100_000_000_000_000_000, 1_000_000_000_000_000_000]

  predicate FitsPrecision(v: int64, precision: int) {
    if precision < 1 || precision >= |POW10| then true
    else -POW10[precision] < v < POW10[precision]
  }

  lemma {:induction false} TableIsPowersOfTen(n: nat)
    requires n < |POW10|
    ensures POW10[n] == Pow10(n)
  {
    if n > 0 {
      TableIsPowersOfTen(n - 1);
      assert POW10[n] == 10 * POW10[n - 1];
    }
  }

  /** The check holds exactly when the magnitude is below ten to the precision. */
  lemma FitsIffShortEnough(v: int64, precision: int)
    requires 1 <= precision <= 18
    ensures FitsPrecision(v, precision) <==> Abs(v) < Pow10(precision)
  {
    TableIsPowersOfTen(precision);
  }

  // ----------------------------------------------------------------- 128 bits

  datatype Num128 = Num128(high: int64, low: uint64)

  // v >> 63 on a signed word: arithmetic, so -1 for a negative value and 0 otherwise.
  function Shift63(v: int64): int64 { v / TWO_63 }

  function SignExtend(v: int64): Num128 { Num128(Shift63(v), Bits64(v)) }

  // The value of 128 bits in two's complement.
  function Value128(n: Num128): int { n.high * TWO_64 + n.low }

  function LowWord(n: Num128): int64 { Signed64(n.low) }

  function ExtendColumn(src: seq<Option<int64>>): (r: seq<Option<Num128>>)
    ensures |r| == |src|
  {
    if src == [] then []
    else ExtendColumn(src[..|src| - 1]) + [match src[|src| - 1] case None => None case Some(v) => Some(SignExtend(v))]
  }

  method SignExtendToDecimal128(src: seq<Option<int64>>) returns (out: seq<Option<Num128>>)
    ensures out == ExtendColumn(src)
  {
    out := [];
    for i := 0 to |src|
      invariant out == ExtendColumn(src[..i])
    {
      assert src[..i + 1][..i] == src[..i];
      match src[i]
      case None => out := out + [None];
      case Some(v) => out := out + [Some(Num128(Shift63(v), Bits64(v)))];
    }
    assert src[..|src|] == src;
  }

  /** Every slot keeps its value, read at 128 bits or back from the low word, and
      nulls stay where they were. */
  lemma {:induction false} ExtensionKeepsValues(src: seq<Option<int64>>, i: nat)
    requires i < |src|
    ensures ExtendColumn(src)[i].Some? <==> src[i].Some?
    ensures src[i].Some? ==> Value128(ExtendColumn(src)[i].value) == src[i].value
    ensures src[i].Some? ==> LowWord(ExtendColumn(src)[i].value) == src[i].value
  {
    if i < |src| - 1 {
      ExtensionKeepsValues(src[..|src| - 1], i);
    }
  }

  /** From accepted text to the mirror's read: one integer, unchanged at every step. */
  lemma DecimalsAreExactEndToEnd(text: string, scale: nat, precision: int, f: Field)
    requires f.kind.Decimal? && 1 <= precision <= 18
    requires ScaleDecimal(text, scale).Unscaled? && FitsPrecision(ScaleDecimal(text, scale).v, precision)
    ensures var v := ScaleDecimal(text, scale).v;
            && Abs(v) < Pow10(precision)
            && EncodeSpec([f], [I64(v)]).Ok?
            && DecodeSpec([f], EncodeSpec([f], [I64(v)]).value) == Ok([I64(v)])
            && Value128(SignExtend(v)) == v
            && LowWord(SignExtend(v)) == v
  {
    hide ScaleDecimal, Pow10, FitsPrecision, DecodeSpec, PutUint64;
    var v := ScaleDecimal(text, scale).v;
    FitsIffShortEnough(v, precision);
    assert EncodeFrom([f], [I64(v)], 1) == Ok([]);
    DecodeUndoesEncode([f], [I64(v)]);
  }
}
