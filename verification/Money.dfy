/** Exact conversion between typed decimals and Stripe minor units, as string
    arithmetic on digit strings of any length. */
module Money {
  import opened Prelude

  predicate Digit(c: char) { '0' <= c <= '9' }

  predicate Digits(s: string) { forall i | 0 <= i < |s| :: Digit(s[i]) }

  /** `0`, or digits without a leading zero. */
  predicate Canonical(s: string) { s == "0" || (|s| > 0 && Digits(s) && s[0] != '0') }

  predicate CurrencyCode(s: string) { |s| == 3 && forall i | 0 <= i < 3 :: 'a' <= s[i] <= 'z' }

  const ZERO_DECIMAL: set<string> :=
    {"bif", "clp", "djf", "gnf", "jpy", "kmf", "krw", "mga", "pyg", "rwf", "vnd", "vuv", "xaf", "xof", "xpf"}
  const THREE_DECIMAL: set<string> := {"bhd", "jod", "kwd", "omr", "tnd"}

  function CurrencyExponent(currency: string): nat {
    if currency in ZERO_DECIMAL then 0 else if currency in THREE_DECIMAL then 3 else 2
  }

  // -------------------------------------------------- string primitives

  function Zeros(n: nat): string { seq(n, _ => '0') }

  function PadStart(s: string, n: nat): string { if |s| < n then Zeros(n - |s|) + s else s }

  function PadEnd(s: string, n: nat): string { if |s| < n then s + Zeros(n - |s|) else s }

  /** The white space a regular expression's `\s` matches. */
  predicate Space(c: char) {
    || '\U{0009}' <= c <= '\U{000D}' || c == ' ' || c == '\U{00A0}' || c == '\U{1680}'
    || '\U{2000}' <= c <= '\U{200A}' || c == '\U{2028}' || c == '\U{2029}' || c == '\U{202F}'
    || c == '\U{205F}' || c == '\U{3000}' || c == '\U{FEFF}'
  }

  function WithoutSpaces(s: string): string {
    if s == [] then [] else (if Space(s[0]) then [] else [s[0]]) + WithoutSpaces(s[1..])
  }

  function IndexOf(s: string, c: char): (r: Option<nat>)
    ensures r.None? <==> c !in s
    ensures r.Some? ==> r.value < |s| && s[r.value] == c && c !in s[..r.value]
  {
    if s == [] then None
    else if s[0] == c then Some(0)
    else
      match IndexOf(s[1..], c)
      case None => None
      case Some(i) => assert s[..i + 1] == [s[0]] + s[1..][..i]; Some(i + 1)
  }

  function ReplaceFirst(s: string, c: char, replacement: char): string {
    match IndexOf(s, c) case None => s case Some(i) => s[i := replacement]
  }

  function TrimZeros(s: string): string {
    if s != [] && s[|s| - 1] == '0' then TrimZeros(s[..|s| - 1]) else s
  }

  /** Drops leading zeros that are followed by a digit. */
  function StripZeros(s: string): string {
    if |s| >= 2 && s[0] == '0' && Digit(s[1]) then StripZeros(s[1..]) else s
  }

  // -------------------------------------------------------- operations

  /** The digits with a point before the last `e` of them. */
  function PointBefore(digits: string, e: nat): string
    requires e <= |digits|
  {
    digits[..|digits| - e] + "." + digits[|digits| - e..]
  }

  function WithPoint(amountMinor: string, e: nat): string {
    if e == 0 then amountMinor else PointBefore(PadStart(amountMinor, e + 1), e)
  }

  function FormatMinorAsDecimal(amountMinor: string, currency: string): string {
    if !Canonical(amountMinor) || !CurrencyCode(currency) then amountMinor
    else WithPoint(amountMinor, CurrencyExponent(currency))
  }

  datatype AmountError = CurrencyUnavailable | NotAnAmount | TooManyDecimals(exponent: nat) | NotPositive

  function Normalize(input: string): string { ReplaceFirst(WithoutSpaces(input), ',', '.') }

  function Whole(s: string): string { match IndexOf(s, '.') case None => s case Some(i) => s[..i] }

  function Fraction(s: string): string { match IndexOf(s, '.') case None => "" case Some(i) => s[i + 1..] }

  /** One or more digits, optionally a point and one or more digits. */
  predicate Decimal(s: string) {
    && Whole(s) != "" && Digits(Whole(s))
    && Digits(Fraction(s)) && (IndexOf(s, '.').Some? ==> Fraction(s) != "")
  }

  /** The minor digits before leading zeros are dropped. */
  function Scaled(whole: string, fraction: string, e: nat): string { whole + PadEnd(fraction, e)[..e] }

  function ToMinor(whole: string, fraction: string, e: nat): Result<string, AmountError> {
    if |fraction| > e && |TrimZeros(fraction)| > e then Err(TooManyDecimals(e))
    else
      var minor := StripZeros(Scaled(whole, fraction, e));
      if !Canonical(minor) then Err(NotAnAmount)
      else if minor == "0" then Err(NotPositive)
      else Ok(minor)
  }

  function ParseAmountToMinor(input: string, currency: string): Result<string, AmountError> {
    if !CurrencyCode(currency) then Err(CurrencyUnavailable)
    else
      var s := Normalize(input);
      if !Decimal(s) then Err(NotAnAmount) else ToMinor(Whole(s), Fraction(s), CurrencyExponent(currency))
  }

  // ------------------------------------------------------------ values

  function Value(s: string): nat
    requires Digits(s)
  {
    if s == [] then 0 else Value(s[..|s| - 1]) * 10 + (s[|s| - 1] as int - '0' as int)
  }

  function Pow10(n: nat): nat { if n == 0 then 1 else 10 * Pow10(n - 1) }

  lemma {:induction false} Pow10Adds(a: nat, b: nat)
    ensures Pow10(a + b) == Pow10(a) * Pow10(b)
  {
    if a > 0 {
      Pow10Adds(a - 1, b);
    }
  }

  lemma {:induction false} TrailingZerosScale(s: string, k: nat)
    requires Digits(s)
    ensures Value(s + Zeros(k)) == Value(s) * Pow10(k)
  {
    if k == 0 {
      assert s + Zeros(0) == s;
    } else {
      TrailingZerosScale(s, k - 1);
      assert (s + Zeros(k))[..|s + Zeros(k)| - 1] == s + Zeros(k - 1);
    }
  }

  lemma {:induction false} LeadingZeroIsNothing(s: string)
    requires Digits(s)
    ensures Digits(['0'] + s) && Value(['0'] + s) == Value(s)
  {
    if s == [] {
      assert ['0'] + s == ['0'] && Value(['0']) == 0;
    } else {
      LeadingZeroIsNothing(s[..|s| - 1]);
      assert (['0'] + s)[..|s|] == ['0'] + s[..|s| - 1];
    }
  }

  lemma {:induction false} StripKeepsValue(s: string)
    requires Digits(s) && s != []
    ensures Canonical(StripZeros(s)) && Value(StripZeros(s)) == Value(s)
  {
    if |s| >= 2 && s[0] == '0' {
      StripKeepsValue(s[1..]);
      LeadingZeroIsNothing(s[1..]);
      assert s == ['0'] + s[1..];
    }
  }

  lemma {:induction false} LeadingDigitIsPositive(s: string)
    requires Digits(s) && s != [] && s[0] != '0'
    ensures Value(s) > 0
  {
    if |s| > 1 {
      LeadingDigitIsPositive(s[..|s| - 1]);
    }
  }

  lemma CanonicalZero(s: string)
    requires Canonical(s)
    ensures s == "0" <==> Value(s) == 0
  {
    if s != "0" {
      LeadingDigitIsPositive(s);
    } else {
      assert Value(s) == 0;
    }
  }

  lemma {:induction false} TrimmedIsShort(s: string, e: nat)
    ensures |TrimZeros(s)| > e <==> exists i :: e <= i < |s| && s[i] != '0'
  {
    if s != [] && s[|s| - 1] == '0' {
      var t := s[..|s| - 1];
      TrimmedIsShort(t, e);
      if i :| e <= i < |s| && s[i] != '0' {
        assert t[i] != '0';
      }
      if i :| e <= i < |t| && t[i] != '0' {
        assert s[i] != '0';
      }
    } else if |s| > e {
      assert s[|s| - 1] != '0';
    }
  }

  // ---------------------------------------------------- exactness of parsing

  /** A nonzero digit beyond the currency's exponent. */
  predicate TooPrecise(fraction: string, e: nat) { exists i :: e <= i < |fraction| && fraction[i] != '0' }

  /** The value of a decimal, scaled by a power of ten, at two scales. */
  predicate Equals(minor: string, e: nat, whole: string, fraction: string)
    requires Digits(minor) && Digits(whole + fraction)
  {
    Value(minor) * Pow10(|fraction|) == Value(whole + fraction) * Pow10(e)
  }

  lemma LongerExponentIsExact(w: string, f: string, e: nat)
    requires Digits(w + f) && |f| <= e
    ensures Digits(Scaled(w, f, e)) && Equals(Scaled(w, f, e), e, w, f)
  {
    var k := e - |f|;
    assert Scaled(w, f, e) == (w + f) + Zeros(k);
    TrailingZerosScale(w + f, k);
    Pow10Adds(k, |f|);
    Reassociate(Value(w + f), Pow10(k), Pow10(|f|));
  }

  lemma ShorterExponentIsExact(w: string, f: string, e: nat)
    requires Digits(w + f) && |f| > e && !TooPrecise(f, e)
    ensures Digits(Scaled(w, f, e)) && Equals(Scaled(w, f, e), e, w, f)
  {
    var k := |f| - e;
    var kept := w + f[..e];
    assert Scaled(w, f, e) == kept;
    assert f[e..] == Zeros(k);
    assert w + f == kept + Zeros(k);
    assert forall i | 0 <= i < |kept| :: kept[i] == (w + f)[i];
    TrailingZerosScale(kept, k);
    Pow10Adds(e, k);
    Reassociate(Value(kept), Pow10(k), Pow10(e));
    Commute(Pow10(e), Pow10(k));
  }

  lemma Reassociate(a: nat, b: nat, c: nat)
    ensures a * b * c == a * (b * c)
  {
  }

  lemma Commute(a: nat, b: nat)
    ensures a * b == b * a
  {
  }

  lemma ProductIsZero(a: nat, p: nat, b: nat, q: nat)
    requires a * p == b * q && p > 0 && q > 0
    ensures a == 0 <==> b == 0
  {
    assert b > 0 ==> b * q > 0;
    assert a > 0 ==> a * p > 0;
  }

  lemma {:induction false} Pow10IsPositive(n: nat)
    ensures Pow10(n) > 0
  {
    if n > 0 {
      Pow10IsPositive(n - 1);
    }
  }

  /** Refused for precision exactly when a nonzero digit lies beyond the
      exponent, for sign exactly when worth zero; otherwise exact. */
  lemma ToMinorIsExact(w: string, f: string, e: nat)
    requires Digits(w) && Digits(f) && w != ""
    ensures Digits(w + f)
    ensures var r := ToMinor(w, f, e);
            && (r == Err(TooManyDecimals(e)) <==> TooPrecise(f, e))
            && (r == Err(NotPositive) <==> !TooPrecise(f, e) && Value(w + f) == 0)
            && (r.Ok? <==> !TooPrecise(f, e) && Value(w + f) > 0)
            && (r.Ok? ==> Canonical(r.value) && Value(r.value) > 0 && Equals(r.value, e, w, f))
  {
    TrimmedIsShort(f, e);
    if !TooPrecise(f, e) {
      if |f| <= e {
        LongerExponentIsExact(w, f, e);
      } else {
        ShorterExponentIsExact(w, f, e);
      }
      StripKeepsValue(Scaled(w, f, e));
      CanonicalZero(StripZeros(Scaled(w, f, e)));
      Pow10IsPositive(|f|);
      Pow10IsPositive(e);
      ProductIsZero(Value(Scaled(w, f, e)), Pow10(|f|), Value(w + f), Pow10(e));
    }
  }

  /** Every input is accounted for: the currency must be known and the text a
      decimal; it is refused for precision exactly when a nonzero digit lies
      beyond the exponent and as not positive exactly when it is worth zero;
      otherwise the minor amount is canonical, positive and exact. */
  lemma ParseIsExact(input: string, currency: string)
    ensures var s, e, r := Normalize(input), CurrencyExponent(currency), ParseAmountToMinor(input, currency);
            && (r == Err(CurrencyUnavailable) <==> !CurrencyCode(currency))
            && (r == Err(NotAnAmount) <==> CurrencyCode(currency) && !Decimal(s))
            && (CurrencyCode(currency) && Decimal(s) ==>
                  && Digits(Whole(s) + Fraction(s))
                  && (r == Err(TooManyDecimals(e)) <==> TooPrecise(Fraction(s), e))
                  && (r == Err(NotPositive) <==> !TooPrecise(Fraction(s), e) && Value(Whole(s) + Fraction(s)) == 0)
                  && (r.Ok? ==> Canonical(r.value) && Value(r.value) > 0 && Equals(r.value, e, Whole(s), Fraction(s))))
  {
    var s := Normalize(input);
    if CurrencyCode(currency) && Decimal(s) {
      ToMinorIsExact(Whole(s), Fraction(s), CurrencyExponent(currency));
    }
  }

  // ------------------------------------------------------------ round trip

  lemma {:induction false} NoSpacesToDrop(s: string)
    requires forall i | 0 <= i < |s| :: !Space(s[i])
    ensures WithoutSpaces(s) == s
  {
    if s != [] {
      NoSpacesToDrop(s[1..]);
    }
  }

  lemma DecimalTextIsNormal(s: string)
    requires forall i | 0 <= i < |s| :: Digit(s[i]) || s[i] == '.'
    ensures Normalize(s) == s
  {
    NoSpacesToDrop(s);
  }

  lemma {:induction false} SplitAtPoint(whole: string, fraction: string)
    requires Digits(whole)
    ensures Whole(whole + "." + fraction) == whole && Fraction(whole + "." + fraction) == fraction
  {
    PointIsFirst(whole, "." + fraction);
    assert whole + "." + fraction == whole + ("." + fraction);
  }

  lemma {:induction false} PointIsFirst(whole: string, rest: string)
    requires Digits(whole) && rest != [] && rest[0] == '.'
    ensures IndexOf(whole + rest, '.') == Some(|whole|)
  {
    if whole != [] {
      PointIsFirst(whole[1..], rest);
      assert (whole + rest)[1..] == whole[1..] + rest;
    } else {
      assert whole + rest == rest;
    }
  }

  lemma {:induction false} StripPadding(s: string, k: nat)
    requires Canonical(s) && s != "0"
    ensures StripZeros(Zeros(k) + s) == s
  {
    if k == 0 {
      assert Zeros(0) + s == s;
    } else {
      StripPadding(s, k - 1);
      assert (Zeros(k) + s)[1..] == Zeros(k - 1) + s;
    }
  }

  lemma PaddingIsZeros(s: string, n: nat)
    requires Digits(s)
    ensures PadStart(s, n) == Zeros(Max(0, n - |s|)) + s && |PadStart(s, n)| >= n && Digits(PadStart(s, n))
  {
  }

  lemma PointIsDecimal(whole: string, fraction: string)
    requires Digits(whole) && Digits(fraction) && whole != "" && fraction != ""
    ensures var text := whole + "." + fraction;
            Normalize(text) == text && Decimal(text) && Whole(text) == whole && Fraction(text) == fraction
  {
    SplitAtPoint(whole, fraction);
    DecimalTextIsNormal(whole + "." + fraction);
  }

  lemma ScaledSplit(padded: string, e: nat)
    requires e < |padded|
    ensures Scaled(padded[..|padded| - e], padded[|padded| - e..], e) == padded
  {
    var fraction := padded[|padded| - e..];
    assert PadEnd(fraction, e) == fraction && fraction[..e] == fraction;
  }

  lemma SplitScalesBack(padded: string, e: nat, amountMinor: string)
    requires e < |padded| && StripZeros(padded) == amountMinor && Canonical(amountMinor) && amountMinor != "0"
    ensures ToMinor(padded[..|padded| - e], padded[|padded| - e..], e) == Ok(amountMinor)
  {
    ScaledSplit(padded, e);
  }

  /** The point text parses back into its whole and fraction parts. */
  lemma PointTextParses(whole: string, fraction: string, e: nat, amountMinor: string)
    requires Digits(whole) && Digits(fraction) && whole != "" && fraction != ""
    requires ToMinor(whole, fraction, e) == Ok(amountMinor)
    ensures ParsesTo(whole + "." + fraction, e, amountMinor)
  {
    PointIsDecimal(whole, fraction);
  }

  /** The text is a normal decimal worth exactly this minor amount. */
  predicate ParsesTo(text: string, e: nat, amountMinor: string) {
    Normalize(text) == text && Decimal(text) && ToMinor(Whole(text), Fraction(text), e) == Ok(amountMinor)
  }

  lemma PartsAreDigits(padded: string, e: nat)
    requires Digits(padded) && 0 < e < |padded|
    ensures var whole, fraction := padded[..|padded| - e], padded[|padded| - e..];
            Digits(whole) && Digits(fraction) && whole != "" && fraction != ""
  {
  }

  lemma PaddedThenMinor(padded: string, e: nat, amountMinor: string)
    requires Digits(padded) && 0 < e < |padded|
    requires StripZeros(padded) == amountMinor && Canonical(amountMinor) && amountMinor != "0"
    ensures ParsesTo(PointBefore(padded, e), e, amountMinor)
  {
    PartsAreDigits(padded, e);
    SplitScalesBack(padded, e, amountMinor);
    PointTextParses(padded[..|padded| - e], padded[|padded| - e..], e, amountMinor);
  }

  lemma PadStartStrips(s: string, n: nat)
    requires Canonical(s) && s != "0"
    ensures Digits(PadStart(s, n)) && |PadStart(s, n)| >= n && StripZeros(PadStart(s, n)) == s
  {
    PaddingIsZeros(s, n);
    StripPadding(s, Max(0, n - |s|));
  }

  lemma PointThenMinor(amountMinor: string, e: nat)
    requires Canonical(amountMinor) && amountMinor != "0" && e > 0
    ensures ParsesTo(WithPoint(amountMinor, e), e, amountMinor)
  {
    PadStartStrips(amountMinor, e + 1);
    PaddedThenMinor(PadStart(amountMinor, e + 1), e, amountMinor);
  }

  lemma WholeThenMinor(amountMinor: string)
    requires Canonical(amountMinor) && amountMinor != "0"
    ensures ParsesTo(amountMinor, 0, amountMinor)
  {
    DecimalTextIsNormal(amountMinor);
    assert Scaled(amountMinor, "", 0) == amountMinor;
  }

  /** Every canonical positive amount survives formatting and parsing, for
      every currency. */
  lemma FormatThenParse(amountMinor: string, currency: string)
    requires Canonical(amountMinor) && amountMinor != "0" && CurrencyCode(currency)
    ensures ParseAmountToMinor(FormatMinorAsDecimal(amountMinor, currency), currency) == Ok(amountMinor)
  {
    if CurrencyExponent(currency) == 0 {
      WholeThenMinor(amountMinor);
    } else {
      PointThenMinor(amountMinor, CurrencyExponent(currency));
    }
  }

  /** Canonical amounts are determined by their value, so the parsed string is
      the only canonical one with the exact value. */
  lemma {:induction false} CanonicalIsUnique(a: string, b: string)
    requires Canonical(a) && Canonical(b) && Value(a) == Value(b)
    ensures a == b
    decreases |a| + |b|
  {
    CanonicalZero(a);
    CanonicalZero(b);
    if a != "0" {
      SameValueSameText(a, b);
    }
  }

  lemma {:induction false} SameValueSameText(a: string, b: string)
    requires Digits(a) && Digits(b) && (a != [] ==> a[0] != '0') && (b != [] ==> b[0] != '0')
    requires Value(a) == Value(b)
    ensures a == b
    decreases |a|
  {
    if a == [] || b == [] {
      if b != [] { LeadingDigitIsPositive(b); }
      if a != [] { LeadingDigitIsPositive(a); }
    } else {
      var a', b' := a[..|a| - 1], b[..|b| - 1];
      SameValueSameText(a', b');
      assert a == a' + [a[|a| - 1]] && b == b' + [b[|b| - 1]];
    }
  }

  lemma PaddedParts(padded: string, e: nat)
    requires Digits(padded) && 0 < e < |padded|
    ensures var text := PointBefore(padded, e);
            && Whole(text) == padded[..|padded| - e] && Fraction(text) == padded[|padded| - e..]
            && Whole(text) + Fraction(text) == padded
  {
    PartsAreDigits(padded, e);
    SplitAtPoint(padded[..|padded| - e], padded[|padded| - e..]);
  }

  lemma PaddedValue(s: string, n: nat)
    requires Digits(s)
    ensures Digits(PadStart(s, n)) && Value(PadStart(s, n)) == Value(s) && |PadStart(s, n)| >= n
  {
    PaddingIsZeros(s, n);
    ZerosAreWorthless(s, Max(0, n - |s|));
  }

  /** A formatted amount has exactly the currency's decimals, at least one digit
      before the point, no superfluous leading zero, and the exact value. */
  lemma FormatIsExact(amountMinor: string, currency: string)
    requires Canonical(amountMinor) && CurrencyCode(currency) && CurrencyExponent(currency) > 0
    ensures PlainDecimal(FormatMinorAsDecimal(amountMinor, currency), CurrencyExponent(currency), amountMinor)
  {
    WithPointIsPlain(amountMinor, CurrencyExponent(currency));
  }

  predicate PlainDecimal(text: string, e: nat, amountMinor: string)
    requires Digits(amountMinor)
  {
    && Whole(text) != "" && |Fraction(text)| == e && (|Whole(text)| > 1 ==> Whole(text)[0] != '0')
    && Digits(Whole(text) + Fraction(text)) && Value(Whole(text) + Fraction(text)) == Value(amountMinor)
  }

  lemma WithPointIsPlain(amountMinor: string, e: nat)
    requires Canonical(amountMinor) && e > 0
    ensures PlainDecimal(WithPoint(amountMinor, e), e, amountMinor)
  {
    PaddedValue(amountMinor, e + 1);
    PaddedParts(PadStart(amountMinor, e + 1), e);
  }

  lemma {:induction false} ZerosAreWorthless(s: string, k: nat)
    requires Digits(s)
    ensures Digits(Zeros(k) + s) && Value(Zeros(k) + s) == Value(s)
  {
    if k == 0 {
      assert Zeros(0) + s == s;
    } else {
      ZerosAreWorthless(s, k - 1);
      LeadingZeroIsNothing(Zeros(k - 1) + s);
      assert Zeros(k) + s == ['0'] + (Zeros(k - 1) + s);
    }
  }

  /** Outside its domain formatting echoes its input. */
  lemma FormatEchoesTheRest(amountMinor: string, currency: string)
    requires !Canonical(amountMinor) || !CurrencyCode(currency) || CurrencyExponent(currency) == 0
    ensures FormatMinorAsDecimal(amountMinor, currency) == amountMinor
  {
  }

  lemma {:induction false} SpacesDropOut(a: string, c: char, b: string)
    requires Space(c)
    ensures WithoutSpaces(a + [c] + b) == WithoutSpaces(a + b)
  {
    if a == [] {
      assert a + [c] + b == [c] + b && ([c] + b)[1..] == b && a + b == b;
    } else {
      SpacesDropOut(a[1..], c, b);
      assert (a + [c] + b)[1..] == a[1..] + [c] + b && (a + b)[1..] == a[1..] + b;
    }
  }

  /** Grouping spaces of any kind, anywhere, do not matter. */
  lemma SpacesDoNotMatter(a: string, c: char, b: string, currency: string)
    requires Space(c)
    ensures ParseAmountToMinor(a + [c] + b, currency) == ParseAmountToMinor(a + b, currency)
  {
    SpacesDropOut(a, c, b);
  }

  lemma {:induction false} CommaIsFirst(whole: string, rest: string)
    requires Digits(whole) && rest != [] && rest[0] == ','
    ensures IndexOf(whole + rest, ',') == Some(|whole|)
  {
    if whole != [] {
      CommaIsFirst(whole[1..], rest);
      assert (whole + rest)[1..] == whole[1..] + rest;
    } else {
      assert whole + rest == rest;
    }
  }

  lemma PointStays(whole: string, fraction: string)
    requires Digits(whole) && Digits(fraction)
    ensures Normalize(whole + "." + fraction) == whole + "." + fraction
  {
    NoSpacesToDrop(whole + "." + fraction);
  }

  lemma CommaBecomesPoint(whole: string, fraction: string)
    requires Digits(whole) && Digits(fraction)
    ensures Normalize(whole + "," + fraction) == whole + "." + fraction
  {
    var comma := whole + "," + fraction;
    assert WithoutSpaces(comma) == comma by {
      NoSpacesToDrop(comma);
    }
    assert ReplaceFirst(comma, ',', '.') == whole + "." + fraction by {
      CommaReplaced(whole, fraction);
    }
  }

  lemma CommaReplaced(whole: string, fraction: string)
    requires Digits(whole)
    ensures ReplaceFirst(whole + "," + fraction, ',', '.') == whole + "." + fraction
  {
    assert whole + ("," + fraction) == whole + "," + fraction;
    CommaIsFirst(whole, "," + fraction);
  }

  /** A decimal comma is a decimal point. */
  lemma CommaIsPoint(whole: string, fraction: string, currency: string)
    requires Digits(whole) && Digits(fraction)
    ensures ParseAmountToMinor(whole + "," + fraction, currency) == ParseAmountToMinor(whole + "." + fraction, currency)
  {
    CommaBecomesPoint(whole, fraction);
    PointStays(whole, fraction);
  }

  /** The currencies without decimals and with three of them; all others have two. */
  lemma ExponentByCurrency(c: string)
    ensures CurrencyExponent(c) == 3 <==> c == "bhd" || c == "jod" || c == "kwd" || c == "omr" || c == "tnd"
    ensures CurrencyExponent(c) == 0 <==>
              || c == "bif" || c == "clp" || c == "djf" || c == "gnf" || c == "jpy" || c == "kmf" || c == "krw" || c == "mga"
              || c == "pyg" || c == "rwf" || c == "vnd" || c == "vuv" || c == "xaf" || c == "xof" || c == "xpf"
    ensures CurrencyExponent(c) in {0, 2, 3}
  {
  }
}
