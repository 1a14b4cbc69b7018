/** Minor units to decimal strings and back. */
module Money {
  import opened Common
  import opened Text

  datatype Currency = USD | CAD | EUR | GBP | PKR

  datatype MoneyError = UnsafeInteger | NotDecimal | TooPrecise

  const MAX_SAFE_INTEGER: int := 9007199254740991

  function MinorUnitExponent(currency: Currency): nat {
    match currency
    case USD => 2
    case CAD => 2
    case EUR => 2
    case GBP => 2
    case PKR => 2
  }

  predicate IsSafe(value: int) {
    -MAX_SAFE_INTEGER <= value <= MAX_SAFE_INTEGER
  }

  function Pow10(e: nat): (p: nat)
    ensures p >= 1
  {
    if e == 0 then 1 else 10 * Pow10(e - 1)
  }

  predicate IsDigit(c: char) {
    '0' <= c <= '9'
  }

  predicate AllDigits(s: string) {
    forall i | 0 <= i < |s| :: IsDigit(s[i])
  }

  /** The decimal digits of n, no leading zero. */
  function Digits(n: nat): (s: string)
    ensures AllDigits(s) && |s| >= 1
  {
    var last := ['0' + (n % 10) as char];
    if n < 10 then last else Digits(n / 10) + last
  }

  function Zeros(k: nat): (s: string)
    ensures |s| == k && AllDigits(s)
  {
    if k == 0 then "" else "0" + Zeros(k - 1)
  }

  function PadStart(s: string, width: nat): string {
    if |s| >= width then s else Zeros(width - |s|) + s
  }

  function PadEnd(s: string, width: nat): string {
    if |s| >= width then s else s + Zeros(width - |s|)
  }

  function ToNat(s: string): nat
    requires AllDigits(s)
  {
    if s == "" then 0 else 10 * ToNat(s[..|s| - 1]) + (s[|s| - 1] - '0') as nat
  }

  function Major(magnitude: nat, divisor: nat): (q: nat)
    requires divisor >= 1
  {
    magnitude / divisor
  }

  function Minor(magnitude: nat, divisor: nat): (r: nat)
    requires divisor >= 1
  {
    magnitude % divisor
  }

  /** An amount as text: sign, whole part, point, fraction. */
  function Printed(negative: bool, whole: string, fraction: string): string {
    (if negative then "-" else "") + (whole + "." + fraction)
  }

  function FormatMinor(amount: int, currency: Currency): Result<string, MoneyError> {
    if !IsSafe(amount) then Failure(UnsafeInteger)
    else
      var exponent := MinorUnitExponent(currency);
      var divisor := Pow10(exponent);
      var magnitude := if amount < 0 then -amount else amount;
      Success(Printed(amount < 0, Digits(Major(magnitude, divisor)),
                      PadStart(Digits(Minor(magnitude, divisor)), exponent)))
  }

  function RemoveCommas(s: string): string {
    if s == "" then "" else (if s[0] == ',' then "" else [s[0]]) + RemoveCommas(s[1..])
  }

  /** The position of the first '.', or the length when there is none. */
  function DotIndex(s: string): (i: nat)
    ensures i <= |s|
  {
    if s == "" || s[0] == '.' then 0 else 1 + DotIndex(s[1..])
  }

  /** Whole and fraction part of `\d+(\.\d+)?`. */
  function SplitDecimal(s: string): (r: Option<(string, string)>)
    ensures r.Some? ==> AllDigits(r.value.0) && AllDigits(r.value.1)
  {
    var dot := DotIndex(s);
    var whole := s[..dot];
    if whole == "" || !AllDigits(whole) then None
    else if dot == |s| then Some((whole, ""))
    else
      var fraction := s[dot + 1..];
      if fraction == "" || !AllDigits(fraction) then None else Some((whole, fraction))
  }

  /** The unsigned amount two digit strings stand for. */
  function Assemble(whole: string, fraction: string, exponent: nat): Result<nat, MoneyError>
    requires AllDigits(whole) && AllDigits(fraction)
  {
    if |fraction| > exponent then Failure(TooPrecise)
    else
      var padded := PadEnd(fraction, exponent);
      assert forall i | 0 <= i < |padded| :: IsDigit(padded[i]);
      Success(ToNat(whole) * Pow10(exponent) + ToNat(padded))
  }

  function Signed(negative: bool, magnitude: Result<nat, MoneyError>): (r: Result<int, MoneyError>)
    ensures r.Success? ==> IsSafe(r.value)
  {
    match magnitude
    case Failure(error) => Failure(error)
    case Success(value) =>
      var n: int := value;
      var signed := if negative then -n else n;
      if IsSafe(signed) then Success(signed) else Failure(UnsafeInteger)
  }

  function ParseBody(body: string, exponent: nat): Result<nat, MoneyError> {
    match SplitDecimal(body)
    case None => Failure(NotDecimal)
    case Some((whole, fraction)) => Assemble(whole, fraction, exponent)
  }

  function ParseClean(s: string, exponent: nat): (r: Result<int, MoneyError>)
    ensures r.Success? ==> IsSafe(r.value)
  {
    if s != "" && s[0] == '-' then Signed(true, ParseBody(s[1..], exponent))
    else Signed(false, ParseBody(s, exponent))
  }

  function ParseMinor(input: string, currency: Currency): (r: Result<int, MoneyError>)
    ensures r.Success? ==> IsSafe(r.value)
  {
    ParseClean(RemoveCommas(Trim(input)), MinorUnitExponent(currency))
  }

  lemma {:induction false} DigitsToNat(n: nat)
    ensures ToNat(Digits(n)) == n
  {
    if n >= 10 {
      DigitsToNat(n / 10);
      assert Digits(n)[..|Digits(n)| - 1] == Digits(n / 10);
    }
  }

  lemma {:induction false} LeadingZeros(k: nat, s: string)
    requires AllDigits(s)
    ensures ToNat(Zeros(k) + s) == ToNat(s)
  {
    if s == "" {
      ZerosAreZero(k);
      assert Zeros(k) + s == Zeros(k);
    } else {
      LeadingZeros(k, s[..|s| - 1]);
      assert (Zeros(k) + s)[..|Zeros(k) + s| - 1] == Zeros(k) + s[..|s| - 1];
    }
  }

  lemma {:induction false} ZerosAreZero(k: nat)
    ensures ToNat(Zeros(k)) == 0
  {
    if k > 0 {
      ZerosAreZero(k - 1);
      ZerosEnd(k);
      ZerosEnd(k - 1);
      assert Zeros(k)[..k - 1] == Zeros(k - 1);
    }
  }

  lemma {:induction false} ZerosEnd(k: nat)
    ensures forall i | 0 <= i < k :: Zeros(k)[i] == '0'
  {
    if k > 0 { ZerosEnd(k - 1); }
  }

  /** Two digits are enough for a remainder below a hundred. */
  lemma DigitsBelow100(n: nat)
    requires n < 100
    ensures |Digits(n)| <= 2
  {
    assert n >= 10 ==> |Digits(n / 10)| == 1;
  }

  lemma {:induction false} RemoveCommasAbsent(s: string)
    requires ',' !in s
    ensures RemoveCommas(s) == s
  {
    if s != "" { RemoveCommasAbsent(s[1..]); }
  }

  lemma {:induction false} DotAfterDigits(a: string, b: string)
    requires AllDigits(a)
    ensures DotIndex(a + "." + b) == |a|
  {
    if a == "" {
      assert a + "." + b == "." + b;
    } else {
      DotAfterDigits(a[1..], b);
      assert (a + "." + b)[1..] == a[1..] + "." + b;
    }
  }

  lemma TrimKeeps(s: string)
    requires s != "" && !IsSpace(s[0]) && !IsSpace(s[|s| - 1])
    ensures Trim(s) == s
  {
  }

  lemma ParseFormattedBody(whole: string, fraction: string)
    requires AllDigits(whole) && AllDigits(fraction) && whole != "" && |fraction| == 2
    ensures ParseBody(whole + "." + fraction, 2) == Assemble(whole, fraction, 2)
  {
    var s := whole + "." + fraction;
    DotAfterDigits(whole, fraction);
    assert s[..|whole|] == whole && s[|whole| + 1..] == fraction;
  }

  lemma ParseFormattedClean(negative: bool, whole: string, fraction: string)
    requires AllDigits(whole) && AllDigits(fraction) && whole != "" && |fraction| == 2
    ensures ParseClean(Printed(negative, whole, fraction), 2) == Signed(negative, Assemble(whole, fraction, 2))
  {
    var body := whole + "." + fraction;
    var s := Printed(negative, whole, fraction);
    assert IsDigit(whole[0]) && body[0] == whole[0];
    assert negative ==> s[0] == '-' && s[1..] == body;
    assert !negative ==> s == body;
    ParseFormattedBody(whole, fraction);
  }

  /** Trimming and dropping separators leave formatted text alone. */
  lemma CleanedFormatted(negative: bool, whole: string, fraction: string)
    requires AllDigits(whole) && AllDigits(fraction) && whole != "" && fraction != ""
    ensures RemoveCommas(Trim(Printed(negative, whole, fraction))) == Printed(negative, whole, fraction)
  {
    var s := Printed(negative, whole, fraction);
    assert s[|s| - 1] == fraction[|fraction| - 1];
    assert !negative ==> s[0] == whole[0];
    TrimKeeps(s);
    RemoveCommasAbsent(s);
  }

  lemma AssembleFormatted(whole: string, fraction: string)
    requires AllDigits(whole) && AllDigits(fraction) && |fraction| == 2
    ensures Assemble(whole, fraction, 2) == Success(ToNat(whole) * 100 + ToNat(fraction))
  {
    HundredIsPow();
  }

  lemma HundredIsPow()
    ensures Pow10(2) == 100
  {
    assert Pow10(1) == 10;
  }

  /** The two printed parts of a magnitude. */
  lemma FormattedParts(magnitude: nat)
    ensures var whole := Digits(Major(magnitude, 100)); var fraction := PadStart(Digits(Minor(magnitude, 100)), 2);
      && AllDigits(fraction) && |fraction| == 2
      && ToNat(whole) * 100 + ToNat(fraction) == magnitude
  {
    var minor := Digits(Minor(magnitude, 100));
    DigitsToNat(Major(magnitude, 100));
    DigitsToNat(Minor(magnitude, 100));
    DigitsBelow100(Minor(magnitude, 100));
    if |minor| < 2 { LeadingZeros(2 - |minor|, minor); }
  }

  lemma ParsePrinted(negative: bool, whole: string, fraction: string, magnitude: nat, currency: Currency)
    requires AllDigits(whole) && AllDigits(fraction) && whole != "" && |fraction| == 2
    requires Assemble(whole, fraction, 2) == Success(magnitude)
    ensures ParseMinor(Printed(negative, whole, fraction), currency) == Signed(negative, Success(magnitude))
  {
    CleanedFormatted(negative, whole, fraction);
    ParseFormattedClean(negative, whole, fraction);
  }

  lemma SignedMagnitude(amount: int)
    requires IsSafe(amount)
    ensures Signed(amount < 0, Success(if amount < 0 then -amount else amount)) == Success(amount)
  {
  }

  lemma FormattedText(amount: int, currency: Currency)
    requires IsSafe(amount)
    ensures var magnitude := if amount < 0 then -amount else amount;
      FormatMinor(amount, currency)
      == Success(Printed(amount < 0, Digits(Major(magnitude, 100)), PadStart(Digits(Minor(magnitude, 100)), 2)))
  {
    HundredIsPow();
  }

  /** Formatting then parsing is the identity on every amount the platform can represent. */
  lemma FormatParseRoundTrip(amount: int, currency: Currency)
    ensures FormatMinor(amount, currency).Success? <==> IsSafe(amount)
    ensures IsSafe(amount) ==>
      ParseMinor(FormatMinor(amount, currency).value, currency) == Success(amount)
  {
    if IsSafe(amount) {
      var magnitude := if amount < 0 then -amount else amount;
      var whole, fraction := Digits(Major(magnitude, 100)), PadStart(Digits(Minor(magnitude, 100)), 2);
      FormattedText(amount, currency);
      FormattedParts(magnitude);
      AssembleFormatted(whole, fraction);
      ParsePrinted(amount < 0, whole, fraction, magnitude, currency);
      SignedMagnitude(amount);
    }
  }
}
