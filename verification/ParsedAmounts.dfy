/** What the money parser reads, on every input: which texts are amounts, what they denote and what makes no difference. */
module ParsedAmounts {
  import opened Common
  import opened Money
  import opened Text

  function WithSign(negative: bool, body: string): string {
    if negative then "-" + body else body
  }

  /** The text is an optional minus, digits, and optionally a point with digits behind it. */
  ghost predicate Spells(text: string, negative: bool, whole: string, fraction: string) {
    && whole != "" && AllDigits(whole) && AllDigits(fraction)
    && text == WithSign(negative, if fraction == "" then whole else whole + "." + fraction)
  }

  /** A fraction of at most two digits, in hundredths: one digit counts tenths. */
  ghost function Hundredths(fraction: string): nat
    requires AllDigits(fraction)
  {
    if fraction == "" then 0
    else
      var tenths := 10 * (fraction[0] - '0') as nat;
      if |fraction| == 1 then tenths else tenths + (fraction[1] - '0') as nat
  }

  ghost function Reading(negative: bool, whole: string, fraction: string): int
    requires AllDigits(whole) && AllDigits(fraction)
  {
    var magnitude: int := 100 * ToNat(whole) + Hundredths(fraction);
    if negative then -magnitude else magnitude
  }

  /** What is left of an input once the blanks around it and every comma are gone. */
  ghost function Cleaned(input: string): string {
    RemoveCommas(Trim(input))
  }

  /** The input writes this amount in hundredths. */
  ghost predicate Denotes(input: string, amountMinor: int) {
    exists negative, whole, fraction ::
      Spells(Cleaned(input), negative, whole, fraction) && |fraction| <= 2 && Reading(negative, whole, fraction) == amountMinor
  }

  lemma {:induction false} DigitsEndAtDot(s: string)
    ensures DotIndex(s) < |s| ==> s[DotIndex(s)] == '.'
    ensures forall i | 0 <= i < DotIndex(s) :: s[i] != '.'
  {
    if s != "" && s[0] != '.' { DigitsEndAtDot(s[1..]); }
  }

  lemma {:induction false} NoDot(s: string)
    requires '.' !in s
    ensures DotIndex(s) == |s|
  {
    if s != "" { NoDot(s[1..]); }
  }

  /** The parts of a spelled decimal are the ones the parser finds, and it finds no others. */
  lemma SplitMeans(body: string, whole: string, fraction: string)
    ensures SplitDecimal(body) == Some((whole, fraction)) <==> Spells(body, false, whole, fraction)
  {
    if Spells(body, false, whole, fraction) {
      SplitSpelled(body, whole, fraction);
    }
    if SplitDecimal(body) == Some((whole, fraction)) {
      DigitsEndAtDot(body);
      var dot := DotIndex(body);
      if dot < |body| {
        assert body == body[..dot] + "." + body[dot + 1..];
      } else {
        assert body[..dot] == body;
      }
    }
  }

  lemma SplitSpelled(body: string, whole: string, fraction: string)
    requires Spells(body, false, whole, fraction)
    ensures SplitDecimal(body) == Some((whole, fraction))
  {
    if fraction == "" {
      NoDot(whole);
      assert body[..|whole|] == whole;
    } else {
      DotAfterDigits(whole, fraction);
      assert body[..|whole|] == whole && body[|whole| + 1..] == fraction;
    }
  }

  lemma ToNatOne(c: char)
    requires IsDigit(c)
    ensures ToNat([c]) == (c - '0') as nat
  {
    assert [c][..0] == "";
  }

  lemma ToNatTwo(c: char, d: char)
    requires IsDigit(c) && IsDigit(d)
    ensures ToNat([c, d]) == 10 * (c - '0') as nat + (d - '0') as nat
  {
    ToNatOne(c);
    assert [c, d][..1] == [c];
  }

  /** Zeros go behind the fraction. */
  lemma PaddedMeans(fraction: string)
    requires AllDigits(fraction) && |fraction| <= 2
    ensures AllDigits(PadEnd(fraction, 2)) && ToNat(PadEnd(fraction, 2)) == Hundredths(fraction)
  {
    var padded := PadEnd(fraction, 2);
    ZerosEnd(2 - |fraction|);
    var c := if fraction == "" then '0' else fraction[0];
    var d := if |fraction| == 2 then fraction[1] else '0';
    assert padded == [c, d];
    ToNatTwo(c, d);
  }

  /** What is left of the sign. */
  lemma SignMeans(text: string, negative: bool, whole: string, fraction: string)
    ensures Spells(text, negative, whole, fraction) ==> (text != "" && text[0] == '-') == negative
    ensures Spells(text, negative, whole, fraction) ==> Spells(if negative then text[1..] else text, false, whole, fraction)
  {
    if Spells(text, negative, whole, fraction) {
      assert IsDigit(whole[0]);
      var body := if fraction == "" then whole else whole + "." + fraction;
      assert body[0] == whole[0];
      assert ("-" + body)[1..] == body;
    }
  }

  lemma ParseBodySpelled(body: string, whole: string, fraction: string)
    requires Spells(body, false, whole, fraction)
    ensures ParseBody(body, 2) ==
      if |fraction| > 2 then Failure(TooPrecise) else Success(100 * ToNat(whole) + Hundredths(fraction))
  {
    SplitSpelled(body, whole, fraction);
    HundredIsPow();
    if |fraction| <= 2 { PaddedMeans(fraction); }
  }

  lemma ParseSpelled(input: string, currency: Currency, negative: bool, whole: string, fraction: string)
    requires Spells(Cleaned(input), negative, whole, fraction)
    ensures ParseMinor(input, currency) ==
      if |fraction| > 2 then Failure(TooPrecise)
      else if IsSafe(Reading(negative, whole, fraction)) then Success(Reading(negative, whole, fraction))
      else Failure(UnsafeInteger)
  {
    var s := Cleaned(input);
    SignMeans(s, negative, whole, fraction);
    ParseBodySpelled(if negative then s[1..] else s, whole, fraction);
  }

  lemma ParseFailsUnspelled(input: string, currency: Currency)
    ensures ParseMinor(input, currency) == Failure(NotDecimal) ||
      exists negative, whole, fraction :: Spells(Cleaned(input), negative, whole, fraction)
  {
    var s := Cleaned(input);
    var negative := s != "" && s[0] == '-';
    var body := if negative then s[1..] else s;
    match SplitDecimal(body)
    case None =>
    case Some((whole, fraction)) =>
      SplitMeans(body, whole, fraction);
      assert s == WithSign(negative, body);
      assert Spells(s, negative, whole, fraction);
  }

  /**
   * The parser on every input: it accepts exactly what spells a decimal of at most two places and a
   * representable amount, as that amount, and each refusal has its own cause.
   */
  lemma ParseMeans(input: string, currency: Currency)
    ensures var r := ParseMinor(input, currency);
      && (forall amountMinor :: r == Success(amountMinor) <==>
            Denotes(input, amountMinor) && -9_007_199_254_740_991 <= amountMinor <= 9_007_199_254_740_991)
      && (r == Failure(UnsafeInteger) <==> exists amountMinor :: Denotes(input, amountMinor) && !IsSafe(amountMinor))
      && (r == Failure(TooPrecise) <==>
            exists negative, whole, fraction :: Spells(Cleaned(input), negative, whole, fraction) && |fraction| > 2)
      && (r == Failure(NotDecimal) <==>
            forall negative, whole, fraction :: !Spells(Cleaned(input), negative, whole, fraction))
  {
    forall negative, whole, fraction | Spells(Cleaned(input), negative, whole, fraction)
      ensures ParseMinor(input, currency) ==
        if |fraction| > 2 then Failure(TooPrecise)
        else if IsSafe(Reading(negative, whole, fraction)) then Success(Reading(negative, whole, fraction))
        else Failure(UnsafeInteger)
    {
      ParseSpelled(input, currency, negative, whole, fraction);
    }
    ParseFailsUnspelled(input, currency);
    forall negative, whole, fraction
      | Spells(Cleaned(input), negative, whole, fraction) && |fraction| <= 2
      ensures Denotes(input, Reading(negative, whole, fraction))
    {
    }
  }

  lemma {:induction false} TrimStartAppend(a: string, b: string)
    ensures Blank(a) ==> TrimStart(a) == "" && TrimStart(a + b) == TrimStart(b)
    ensures !Blank(a) ==> TrimStart(a) != "" && !Blank(TrimStart(a)) && TrimStart(a + b) == TrimStart(a) + b
  {
    if a == "" {
      assert a + b == b;
    } else if IsSpace(a[0]) {
      TrimStartAppend(a[1..], b);
      assert (a + b)[1..] == a[1..] + b;
      assert Blank(a) <==> Blank(a[1..]);
    } else {
      assert (a + b)[0] == a[0];
    }
  }

  lemma {:induction false} TrimEndAppend(a: string, b: string)
    ensures Blank(b) ==> TrimEnd(a + b) == TrimEnd(a)
    ensures !Blank(b) ==> TrimEnd(a + b) == a + TrimEnd(b)
  {
    if b == "" {
      assert a + b == a;
    } else if IsSpace(b[|b| - 1]) {
      var prefix := b[..|b| - 1];
      TrimEndAppend(a, prefix);
      assert (a + b)[..|a + b| - 1] == a + prefix;
      assert Blank(b) <==> Blank(prefix);
    } else {
      assert (a + b)[|a + b| - 1] == b[|b| - 1];
    }
  }

  lemma {:induction false} RemoveCommasConcat(a: string, b: string)
    ensures RemoveCommas(a + b) == RemoveCommas(a) + RemoveCommas(b)
  {
    if a == "" {
      assert a + b == b;
    } else {
      RemoveCommasConcat(a[1..], b);
      assert (a + b)[1..] == a[1..] + b;
      Regroup(if a[0] == ',' then "" else [a[0]], RemoveCommas(a[1..]), RemoveCommas(b));
    }
  }

  lemma Regroup(a: string, b: string, c: string)
    ensures a + (b + c) == (a + b) + c
  {
  }

  /** Blanks around an amount change nothing. */
  lemma BlanksChangeNothing(left: string, text: string, right: string, currency: Currency)
    requires Blank(left) && Blank(right)
    ensures ParseMinor(left + text + right, currency) == ParseMinor(text, currency)
  {
    assert left + text + right == left + (text + right);
    TrimStartAppend(left, text + right);
    TrimStartAppend(text, right);
    TrimStartAppend(right, "");
    assert right + "" == right && text + "" == text;
    TrimEndAppend(TrimStart(text), right);
    TrimStartAppend(text, "");
  }

  /** Trimming reaches no further than the first and the last character that is not blank. */
  lemma TrimBetween(left: string, middle: string, right: string)
    requires !Blank(left) && !Blank(right)
    ensures Trim(left + middle + right) == TrimStart(left) + middle + TrimEnd(right)
  {
    assert left + middle + right == left + (middle + right);
    TrimStartAppend(left, middle + right);
    assert TrimStart(left) + (middle + right) == (TrimStart(left) + middle) + right;
    TrimEndAppend(TrimStart(left) + middle, right);
  }

  /** A comma anywhere between the first and the last character of an amount changes nothing. */
  lemma CommasChangeNothing(left: string, right: string, currency: Currency)
    requires !Blank(left) && !Blank(right)
    ensures ParseMinor(left + "," + right, currency) == ParseMinor(left + right, currency)
  {
    var a, b := TrimStart(left), TrimEnd(right);
    TrimBetween(left, ",", right);
    assert Trim(left + right) == a + "" + b by {
      TrimBetween(left, "", right);
      assert left + "" == left;
    }
    DropsComma(a, b);
    assert Cleaned(left + "," + right) == Cleaned(left + right);
  }

  lemma DropsComma(a: string, b: string)
    ensures RemoveCommas(a + "," + b) == RemoveCommas(a + "" + b)
  {
    assert a + "" == a && ","[1..] == "";
    RemoveCommasConcat(a, ",");
    RemoveCommasConcat(a + ",", b);
    RemoveCommasConcat(a, b);
    assert RemoveCommas(",") == RemoveCommas("") == "";
  }
}
