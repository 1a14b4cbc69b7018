/** An invoice's lines as they are pushed to Zoho, and as a Zoho detail is read back onto the local row. */
module InvoiceDetail {
  import opened Common
  import M = Money

  const QUANTITY_SCALE: int := 10_000
  const TAX_NAME := "Tax"
  const TAX_PREFIX := "Tax at the rate applied when this invoice was issued"
  const FEE_NAME := "Card processing fee"
  const FEE_DESCRIPTION := "Applied because this invoice was paid by card or digital wallet"

  /** Math.round of n / d: the nearest integer, a half going up. */
  function RoundHalfUp(n: int, d: int): int
    requires d > 0
  {
    (2 * n + d) / (2 * d)
  }

  /** The money library's rounding: a half goes away from zero. */
  function DivideRoundHalfUp(n: int, d: int): int
    requires d > 0
  {
    if n < 0 then -((2 * -n + d) / (2 * d)) else (2 * n + d) / (2 * d)
  }

  datatype LineItem = LineItem(
    itemName: string, description: Option<string>, quantity: int,
    unitPriceMinor: int, lineTotalMinor: int, taxExempt: bool)

  datatype LocalInvoice = LocalInvoice(
    lines: seq<LineItem>, subtotalMinor: int, taxMinor: int, taxRateBpApplied: nat, cardFeeMinor: int,
    remoteTaxId: Option<string>, notes: Option<string>)

  /** Rates in minor units and quantities scaled by 10,000, so that every amount is an exact integer. */
  datatype RemoteLine = RemoteLine(
    name: Option<string>, description: Option<string>, rateMinor: int, quantity: int, taxId: Option<string>)

  datatype Detail = Detail(lines: seq<RemoteLine>, subTotalMinor: int, taxTotalMinor: int, notes: Option<string>)

  datatype Kind = Real | Tax | CardFee

  predicate Truthy(s: Option<string>) {
    s.Some? && s.value != ""
  }

  predicate StartsWith(s: string, prefix: string) {
    prefix <= s
  }

  function KindOf(line: RemoteLine): Kind {
    if Truthy(line.taxId) then Real
    else if line.name == Some(TAX_NAME) && line.description.Some? && StartsWith(line.description.value, TAX_PREFIX) then Tax
    else if line.name == Some(FEE_NAME) && line.description == Some(FEE_DESCRIPTION) then CardFee
    else Real
  }

  function Amount(line: RemoteLine): int {
    RoundHalfUp(line.rateMinor * line.quantity, QUANTITY_SCALE)
  }

  /** What is taken for a line the push added: by name, description and the lack of a tax id. */
  lemma TakenFor(line: RemoteLine)
    ensures KindOf(line).Tax? <==>
      && (line.taxId.None? || line.taxId.value == "") && line.name == Some("Tax")
      && line.description.Some? && "Tax at the rate applied when this invoice was issued" <= line.description.value
    ensures KindOf(line).CardFee? <==>
      && (line.taxId.None? || line.taxId.value == "") && line.name == Some("Card processing fee")
      && line.description == Some("Applied because this invoice was paid by card or digital wallet")
  {
    assert FEE_NAME[0] != TAX_NAME[0];
  }

  // --- Pushing ---------------------------------------------------------------------------

  /** A rate in basis points as a percentage with two decimals. */
  function Percent(rateBp: nat): string {
    M.Digits(rateBp / 100) + "." + M.PadStart(M.Digits(rateBp % 100), 2)
  }

  function PushedLine(line: LineItem, remoteTaxId: Option<string>): RemoteLine {
    RemoteLine(Some(line.itemName), line.description, line.unitPriceMinor, line.quantity,
      if line.taxExempt then None else remoteTaxId)
  }

  function PushedOwn(lines: seq<LineItem>, remoteTaxId: Option<string>): (r: seq<RemoteLine>)
    ensures |r| == |lines|
  {
    if lines == [] then [] else PushedOwn(lines[..|lines| - 1], remoteTaxId) + [PushedLine(lines[|lines| - 1], remoteTaxId)]
  }

  function TaxLines(invoice: LocalInvoice): seq<RemoteLine> {
    if invoice.taxMinor > 0 && (invoice.lines == [] || !Truthy(invoice.remoteTaxId)) then
      [RemoteLine(Some(TAX_NAME), Some(TAX_PREFIX + " (" + Percent(invoice.taxRateBpApplied) + "%)"),
        invoice.taxMinor, QUANTITY_SCALE, None)]
    else []
  }

  function FeeLines(invoice: LocalInvoice): seq<RemoteLine> {
    if invoice.cardFeeMinor > 0 then
      [RemoteLine(Some(FEE_NAME), Some(FEE_DESCRIPTION), invoice.cardFeeMinor, QUANTITY_SCALE, None)]
    else []
  }

  function PushedLines(invoice: LocalInvoice): seq<RemoteLine> {
    PushedOwn(invoice.lines, invoice.remoteTaxId) + TaxLines(invoice) + FeeLines(invoice)
  }

  // --- Reading back ------------------------------------------------------------------------

  function RealLines(lines: seq<RemoteLine>): (r: seq<RemoteLine>)
    ensures |r| <= |lines|
  {
    if lines == [] then []
    else
      var before, last := RealLines(lines[..|lines| - 1]), lines[|lines| - 1];
      if KindOf(last).Real? then before + [last] else before
  }

  function Sum(lines: seq<RemoteLine>): int {
    if lines == [] then 0 else Sum(lines[..|lines| - 1]) + Amount(lines[|lines| - 1])
  }

  function SumOf(lines: seq<RemoteLine>, kind: Kind): int {
    if lines == [] then 0
    else
      var last := lines[|lines| - 1];
      SumOf(lines[..|lines| - 1], kind) + (if KindOf(last) == kind then Amount(last) else 0)
  }

  function LocalLine(line: RemoteLine, position: nat): LineItem {
    LineItem(
      if line.name.Some? then line.name.value else "Line " + M.Digits(position + 1),
      line.description, line.quantity, line.rateMinor, Amount(line), !Truthy(line.taxId))
  }

  function ToLocalLineItems(lines: seq<RemoteLine>): (r: seq<LineItem>)
    ensures |r| == |lines|
    ensures forall i | 0 <= i < |lines| :: r[i] == LocalLine(lines[i], i)
  {
    seq(|lines|, i requires 0 <= i < |lines| => LocalLine(lines[i], i))
  }

  function RecoveredSubtotal(detail: Detail): int {
    detail.subTotalMinor - SumOf(detail.lines, Tax) - SumOf(detail.lines, CardFee)
  }

  function RecoveredTax(detail: Detail): int {
    detail.taxTotalMinor + SumOf(detail.lines, Tax)
  }

  function RecoveredRate(subtotalMinor: int, taxMinor: int): int {
    if subtotalMinor > 0 then RoundHalfUp(taxMinor * 10_000, subtotalMinor) else 0
  }

  /** Whatever lines a detail holds and in whatever order, taking the synthetic amounts off leaves the real lines' sum. */
  lemma {:induction false} RealSubtotalRecovered(detail: Detail)
    requires detail.subTotalMinor == Sum(detail.lines)
    ensures RecoveredSubtotal(detail) == Sum(RealLines(detail.lines))
  {
    SumSplits(detail.lines);
  }

  lemma {:induction false} SumSplits(lines: seq<RemoteLine>)
    ensures Sum(lines) == Sum(RealLines(lines)) + SumOf(lines, Tax) + SumOf(lines, CardFee)
  {
    if lines != [] {
      var prefix, last := lines[..|lines| - 1], lines[|lines| - 1];
      SumSplits(prefix);
      var before := RealLines(prefix);
      assert (before + [last])[..|before|] == before;
    }
  }

  // --- The round trip --------------------------------------------------------------------------

  lemma {:induction false} RealLinesConcat(a: seq<RemoteLine>, b: seq<RemoteLine>)
    ensures RealLines(a + b) == RealLines(a) + RealLines(b)
  {
    if b == [] {
      assert a + b == a;
    } else {
      var prefix, last := b[..|b| - 1], b[|b| - 1];
      RealLinesConcat(a, prefix);
      assert (a + b)[..|a + b| - 1] == a + prefix;
      assert RealLines(a) + (RealLines(prefix) + [last]) == RealLines(a) + RealLines(prefix) + [last];
    }
  }

  lemma {:induction false} SumOfConcat(a: seq<RemoteLine>, b: seq<RemoteLine>, kind: Kind)
    ensures SumOf(a + b, kind) == SumOf(a, kind) + SumOf(b, kind)
  {
    if b == [] {
      assert a + b == a;
    } else {
      SumOfConcat(a, b[..|b| - 1], kind);
      assert (a + b)[..|a + b| - 1] == a + b[..|b| - 1];
    }
  }

  /** Every line is kept exactly when none of them looks like one the push adds. */
  lemma {:induction false} AllKeptIffAllReal(lines: seq<RemoteLine>)
    ensures RealLines(lines) == lines <==> forall l | l in lines :: KindOf(l).Real?
    ensures |RealLines(lines)| == |lines| <==> RealLines(lines) == lines
  {
    if lines != [] {
      var prefix, last := lines[..|lines| - 1], lines[|lines| - 1];
      AllKeptIffAllReal(prefix);
      assert lines == prefix + [last];
      if KindOf(last).Real? && RealLines(lines) == lines {
        assert RealLines(lines)[..|prefix|] == RealLines(prefix);
      }
    }
  }

  lemma {:induction false} NoneOfKind(lines: seq<RemoteLine>, kind: Kind)
    requires forall l | l in lines :: KindOf(l) != kind
    ensures SumOf(lines, kind) == 0
  {
    if lines != [] {
      NoneOfKind(lines[..|lines| - 1], kind);
    }
  }

  lemma UnitAmount(line: RemoteLine)
    requires line.quantity == QUANTITY_SCALE
    ensures Amount(line) == line.rateMinor
  {
    assert 2 * (line.rateMinor * 10_000) + 10_000 == 20_000 * line.rateMinor + 10_000;
  }

  lemma AddedLinesAreSynthetic(invoice: LocalInvoice)
    ensures RealLines(TaxLines(invoice) + FeeLines(invoice)) == []
    ensures SumOf(TaxLines(invoice) + FeeLines(invoice), Tax) == if TaxLines(invoice) == [] then 0 else invoice.taxMinor
    ensures SumOf(TaxLines(invoice) + FeeLines(invoice), CardFee) == if invoice.cardFeeMinor > 0 then invoice.cardFeeMinor else 0
  {
    var tax, fee := TaxLines(invoice), FeeLines(invoice);
    if tax != [] {
      assert KindOf(tax[0]).Tax? by {
        assert TAX_PREFIX <= tax[0].description.value;
      }
      UnitAmount(tax[0]);
      assert tax == [tax[0]] && tax[..0] == [];
    }
    if fee != [] {
      assert KindOf(fee[0]).CardFee? by {
        assert FEE_NAME[0] != TAX_NAME[0];
      }
      UnitAmount(fee[0]);
      assert fee == [fee[0]] && fee[..0] == [];
    }
    RealLinesConcat(tax, fee);
    SumOfConcat(tax, fee, Tax);
    SumOfConcat(tax, fee, CardFee);
  }

  lemma {:induction false} PushedOwnAt(lines: seq<LineItem>, remoteTaxId: Option<string>, i: nat)
    requires i < |lines|
    ensures PushedOwn(lines, remoteTaxId)[i] == PushedLine(lines[i], remoteTaxId)
  {
    if i < |lines| - 1 {
      PushedOwnAt(lines[..|lines| - 1], remoteTaxId, i);
    }
  }

  /** A local line the read-back would take for one the push added. */
  predicate LooksSynthetic(invoice: LocalInvoice, line: LineItem) {
    !KindOf(PushedLine(line, invoice.remoteTaxId)).Real?
  }

  /** A negative product on an exact half: the two roundings disagree there and nowhere else. */
  predicate NegativeHalf(line: LineItem) {
    var n := line.unitPriceMinor * line.quantity;
    n < 0 && (2 * n + QUANTITY_SCALE) % (2 * QUANTITY_SCALE) == 0
  }

  /** The two roundings differ, by one, exactly on negative halves. */
  lemma RoundingsAgree(n: int, d: int)
    requires d > 0
    ensures RoundHalfUp(n, d) == DivideRoundHalfUp(n, d) + if n < 0 && (2 * n + d) % (2 * d) == 0 then 1 else 0
  {
    if n < 0 {
      var up, away := (2 * n + d) / (2 * d), (2 * -n + d) / (2 * d);
      var e := 2 * d;
      assert 2 * n + d == e * up + (2 * n + d) % e;
      assert -2 * n + d == e * away + (2 * -n + d) % e;
      HalvesMeet(e, up, away, (2 * n + d) % e, (2 * -n + d) % e);
    }
  }

  lemma HalvesMeet(e: int, up: int, away: int, r: int, s: int)
    requires e > 0 && 0 <= r < e && 0 <= s < e
    requires e == e * up + r + e * away + s
    ensures up == -away + if r == 0 then 1 else 0
  {
    var k := 1 - up - away;
    assert k * e == r + s;
    assert (k - 1) * e == k * e - e;
    MultiplesApart(k, e);
    MultiplesApart(k - 1, e);
  }

  predicate SurvivesRoundTrip(invoice: LocalInvoice, line: LineItem) {
    && !LooksSynthetic(invoice, line)
    && !NegativeHalf(line)
    && (line.taxExempt || Truthy(invoice.remoteTaxId))
  }

  /** The stored totals are the ones the calculation gives. */
  predicate Calculated(lines: seq<LineItem>) {
    forall l | l in lines :: l.lineTotalMinor == DivideRoundHalfUp(l.unitPriceMinor * l.quantity, QUANTITY_SCALE)
  }

  lemma LineSurvivesIff(invoice: LocalInvoice, line: LineItem, position: nat)
    requires line.lineTotalMinor == DivideRoundHalfUp(line.unitPriceMinor * line.quantity, QUANTITY_SCALE)
    ensures LocalLine(PushedLine(line, invoice.remoteTaxId), position) == line
       <==> !NegativeHalf(line) && (line.taxExempt || Truthy(invoice.remoteTaxId))
  {
    RoundingsAgree(line.unitPriceMinor * line.quantity, QUANTITY_SCALE);
  }

  lemma PushedRealLines(invoice: LocalInvoice)
    ensures RealLines(PushedLines(invoice)) == RealLines(PushedOwn(invoice.lines, invoice.remoteTaxId))
  {
    var own, added := PushedOwn(invoice.lines, invoice.remoteTaxId), TaxLines(invoice) + FeeLines(invoice);
    AddedLinesAreSynthetic(invoice);
    RealLinesConcat(own, added);
    assert PushedLines(invoice) == own + added;
    assert RealLines(own) + [] == RealLines(own);
  }

  /** Push then pull gives back the same line items exactly when every line survives. */
  lemma LinesRoundTripIff(invoice: LocalInvoice)
    requires Calculated(invoice.lines)
    ensures ToLocalLineItems(RealLines(PushedLines(invoice))) == invoice.lines
       <==> forall l | l in invoice.lines :: SurvivesRoundTrip(invoice, l)
  {
    var own := PushedOwn(invoice.lines, invoice.remoteTaxId);
    PushedRealLines(invoice);
    AllKeptIffAllReal(own);
    forall i | 0 <= i < |own| ensures own[i] == PushedLine(invoice.lines[i], invoice.remoteTaxId) {
      PushedOwnAt(invoice.lines, invoice.remoteTaxId, i);
    }
    if RealLines(own) == own {
      AllRealIffNoneSynthetic(invoice, own);
      ItemsSurviveIff(invoice, own);
    } else {
      AllRealIffNoneSynthetic(invoice, own);
      assert |ToLocalLineItems(RealLines(own))| != |invoice.lines|;
    }
  }

  lemma AllRealIffNoneSynthetic(invoice: LocalInvoice, own: seq<RemoteLine>)
    requires |own| == |invoice.lines|
    requires forall i | 0 <= i < |own| :: own[i] == PushedLine(invoice.lines[i], invoice.remoteTaxId)
    ensures (forall r | r in own :: KindOf(r).Real?) <==> forall l | l in invoice.lines :: !LooksSynthetic(invoice, l)
  {
    if forall r | r in own :: KindOf(r).Real? {
      forall l | l in invoice.lines ensures !LooksSynthetic(invoice, l) {
        var i :| 0 <= i < |own| && invoice.lines[i] == l;
        assert own[i] in own;
      }
    }
    if forall l | l in invoice.lines :: !LooksSynthetic(invoice, l) {
      forall r | r in own ensures KindOf(r).Real? {
        var i :| 0 <= i < |own| && own[i] == r;
        assert invoice.lines[i] in invoice.lines;
      }
    }
  }

  lemma ItemsSurviveIff(invoice: LocalInvoice, own: seq<RemoteLine>)
    requires Calculated(invoice.lines) && |own| == |invoice.lines|
    requires forall i | 0 <= i < |own| :: own[i] == PushedLine(invoice.lines[i], invoice.remoteTaxId)
    requires forall l | l in invoice.lines :: !LooksSynthetic(invoice, l)
    ensures ToLocalLineItems(own) == invoice.lines <==> forall l | l in invoice.lines :: SurvivesRoundTrip(invoice, l)
  {
    var items := ToLocalLineItems(own);
    forall i | 0 <= i < |own|
      ensures items[i] == invoice.lines[i] <==> SurvivesRoundTrip(invoice, invoice.lines[i])
    {
      LineSurvivesIff(invoice, invoice.lines[i], i);
    }
    if items == invoice.lines {
      forall l | l in invoice.lines ensures SurvivesRoundTrip(invoice, l) {
        var i :| 0 <= i < |own| && invoice.lines[i] == l;
        assert items[i] == invoice.lines[i];
      }
    }
  }

  function TotalOf(lines: seq<LineItem>): int {
    if lines == [] then 0 else TotalOf(lines[..|lines| - 1]) + lines[|lines| - 1].lineTotalMinor
  }

  /** How far one line moves the subtotal: its whole total if it is taken for a pushed one, one unit if it is a negative half. */
  function LineDrift(invoice: LocalInvoice, line: LineItem): int {
    if LooksSynthetic(invoice, line) then -line.lineTotalMinor else if NegativeHalf(line) then 1 else 0
  }

  function Drift(invoice: LocalInvoice, lines: seq<LineItem>): int {
    if lines == [] then 0 else Drift(invoice, lines[..|lines| - 1]) + LineDrift(invoice, lines[|lines| - 1])
  }

  lemma {:induction false} RealSumIsTotalAndDrift(invoice: LocalInvoice, lines: seq<LineItem>)
    requires Calculated(lines)
    ensures Sum(RealLines(PushedOwn(lines, invoice.remoteTaxId))) == TotalOf(lines) + Drift(invoice, lines)
  {
    if lines != [] {
      var prefix, line := lines[..|lines| - 1], lines[|lines| - 1];
      RealSumIsTotalAndDrift(invoice, prefix);
      RoundingsAgree(line.unitPriceMinor * line.quantity, QUANTITY_SCALE);
      var before, pushed := PushedOwn(prefix, invoice.remoteTaxId), PushedLine(line, invoice.remoteTaxId);
      assert (before + [pushed])[..|before|] == before;
      assert (RealLines(before) + [pushed])[..|RealLines(before)|] == RealLines(before);
    }
  }

  /** With no line taken for a pushed one, the drift counts the negative halves. */
  lemma {:induction false} NoDriftIff(invoice: LocalInvoice, lines: seq<LineItem>)
    requires forall l | l in lines :: !LooksSynthetic(invoice, l)
    ensures 0 <= Drift(invoice, lines) <= |lines|
    ensures Drift(invoice, lines) == 0 <==> forall l | l in lines :: !NegativeHalf(l)
  {
    if lines != [] {
      NoDriftIff(invoice, lines[..|lines| - 1]);
      assert lines == lines[..|lines| - 1] + [lines[|lines| - 1]];
    }
  }

  /** Whatever the lines look like, the invoice's own subtotal comes back moved by the drift and by neither tax nor fee. */
  lemma SubtotalDrifts(invoice: LocalInvoice, detail: Detail)
    requires Calculated(invoice.lines) && invoice.subtotalMinor == TotalOf(invoice.lines)
    requires detail.lines == PushedLines(invoice) && detail.subTotalMinor == Sum(detail.lines)
    ensures RecoveredSubtotal(detail) == invoice.subtotalMinor + Drift(invoice, invoice.lines)
  {
    PushedRealLines(invoice);
    RealSubtotalRecovered(detail);
    RealSumIsTotalAndDrift(invoice, invoice.lines);
  }

  /** The tax the push left for Zoho to compute from the synced rate; without one, the push sends the tax as a line. */
  function TaxLeftToZoho(invoice: LocalInvoice): int {
    if TaxLines(invoice) == [] then invoice.taxMinor else 0
  }

  /** What of the invoice's own lines is read back as tax. */
  function TakenForTax(invoice: LocalInvoice): int {
    SumOf(PushedOwn(invoice.lines, invoice.remoteTaxId), Tax)
  }

  lemma PushedTax(invoice: LocalInvoice)
    ensures SumOf(PushedLines(invoice), Tax) == TakenForTax(invoice) + invoice.taxMinor - TaxLeftToZoho(invoice)
  {
    var own, added := PushedOwn(invoice.lines, invoice.remoteTaxId), TaxLines(invoice) + FeeLines(invoice);
    AddedLinesAreSynthetic(invoice);
    SumOfConcat(own, added, Tax);
    assert PushedLines(invoice) == own + added;
  }

  lemma TaxReturnsIff(invoice: LocalInvoice, detail: Detail)
    requires detail.lines == PushedLines(invoice)
    ensures RecoveredTax(detail) == invoice.taxMinor
       <==> detail.taxTotalMinor + TakenForTax(invoice) == TaxLeftToZoho(invoice)
  {
    PushedTax(invoice);
  }

  predicate MoneyReturned(invoice: LocalInvoice, detail: Detail) {
    var subtotal, tax := RecoveredSubtotal(detail), RecoveredTax(detail);
    && subtotal == invoice.subtotalMinor && tax == invoice.taxMinor
    && RecoveredRate(subtotal, tax) == invoice.taxRateBpApplied
  }

  /**
   * Money pushed and read back, whatever the lines look like: subtotal, tax and rate all return
   * exactly when the lines do not drift, what is read back as tax is what was left to Zoho, and the
   * rate is the nearest to the quotient.
   */
  lemma MoneyReturnsIff(invoice: LocalInvoice, detail: Detail)
    requires Calculated(invoice.lines) && invoice.subtotalMinor == TotalOf(invoice.lines)
    requires detail.lines == PushedLines(invoice) && detail.subTotalMinor == Sum(detail.lines)
    ensures MoneyReturned(invoice, detail) <==>
      (&& Drift(invoice, invoice.lines) == 0
       && detail.taxTotalMinor + TakenForTax(invoice) == TaxLeftToZoho(invoice)
       && RateFits(invoice.subtotalMinor, invoice.taxMinor, invoice.taxRateBpApplied))
  {
    SubtotalDrifts(invoice, detail);
    TaxReturnsIff(invoice, detail);
    RateReturnsIff(invoice.subtotalMinor, invoice.taxMinor, invoice.taxRateBpApplied);
  }

  /** With no line taken for a pushed one: no negative halves, and Zoho's own tax is the one left to it. */
  lemma RealMoneyReturnsIff(invoice: LocalInvoice, detail: Detail)
    requires Calculated(invoice.lines) && invoice.subtotalMinor == TotalOf(invoice.lines)
    requires forall l | l in invoice.lines :: !LooksSynthetic(invoice, l)
    requires detail.lines == PushedLines(invoice) && detail.subTotalMinor == Sum(detail.lines)
    ensures MoneyReturned(invoice, detail) <==>
      (&& (forall l | l in invoice.lines :: !NegativeHalf(l))
       && detail.taxTotalMinor == TaxLeftToZoho(invoice)
       && RateFits(invoice.subtotalMinor, invoice.taxMinor, invoice.taxRateBpApplied))
  {
    MoneyReturnsIff(invoice, detail);
    NoDriftIff(invoice, invoice.lines);
    OwnLinesAreReal(invoice);
  }

  lemma OwnLinesAreReal(invoice: LocalInvoice)
    requires forall l | l in invoice.lines :: !LooksSynthetic(invoice, l)
    ensures var own := PushedOwn(invoice.lines, invoice.remoteTaxId);
      RealLines(own) == own && SumOf(own, Tax) == 0
  {
    var own := PushedOwn(invoice.lines, invoice.remoteTaxId);
    forall i | 0 <= i < |own| ensures own[i] == PushedLine(invoice.lines[i], invoice.remoteTaxId) {
      PushedOwnAt(invoice.lines, invoice.remoteTaxId, i);
    }
    AllRealIffNoneSynthetic(invoice, own);
    AllKeptIffAllReal(own);
    NoneOfKind(own, Tax);
  }

  // --- The pushed total -------------------------------------------------------------------------

  /** The tax goes to Zoho as a line exactly when there is some and no line carries a synced rate. */
  lemma TaxLineIff(invoice: LocalInvoice)
    ensures TaxLines(invoice) != [] <==>
      invoice.taxMinor > 0 && (invoice.lines == [] || invoice.remoteTaxId.None? || invoice.remoteTaxId == Some(""))
  {
  }

  lemma {:induction false} PushedOwnSum(lines: seq<LineItem>, remoteTaxId: Option<string>)
    requires Calculated(lines)
    ensures Sum(PushedOwn(lines, remoteTaxId)) >= TotalOf(lines)
    ensures Sum(PushedOwn(lines, remoteTaxId)) == TotalOf(lines) <==> forall l | l in lines :: !NegativeHalf(l)
  {
    if lines != [] {
      var prefix, line := lines[..|lines| - 1], lines[|lines| - 1];
      assert lines == prefix + [line];
      PushedOwnSum(prefix, remoteTaxId);
      PushedAmount(line, remoteTaxId);
      SumAdds(PushedOwn(prefix, remoteTaxId), PushedLine(line, remoteTaxId));
    }
  }

  lemma SumAdds(lines: seq<RemoteLine>, line: RemoteLine)
    ensures Sum(lines + [line]) == Sum(lines) + Amount(line)
  {
    assert (lines + [line])[..|lines|] == lines;
  }

  lemma PushedAmount(line: LineItem, remoteTaxId: Option<string>)
    requires line.lineTotalMinor == DivideRoundHalfUp(line.unitPriceMinor * line.quantity, QUANTITY_SCALE)
    ensures Amount(PushedLine(line, remoteTaxId)) == line.lineTotalMinor + if NegativeHalf(line) then 1 else 0
  {
    RoundingsAgree(line.unitPriceMinor * line.quantity, QUANTITY_SCALE);
  }

  /**
   * The lines sent to Zoho and the tax left to it add up to the invoice's own lines, tax and fee
   * exactly when no line total is a negative exact half and the fee is not negative.
   */
  lemma PushedTotalReconcilesIff(invoice: LocalInvoice)
    requires Calculated(invoice.lines)
    ensures Sum(PushedLines(invoice)) + TaxLeftToZoho(invoice) == TotalOf(invoice.lines) + invoice.taxMinor + invoice.cardFeeMinor
       <==> (forall l | l in invoice.lines :: !NegativeHalf(l)) && invoice.cardFeeMinor >= 0
  {
    var own, added := PushedOwn(invoice.lines, invoice.remoteTaxId), TaxLines(invoice) + FeeLines(invoice);
    PushedOwnSum(invoice.lines, invoice.remoteTaxId);
    AddedLinesAreSynthetic(invoice);
    SumSplits(own + added);
    SumSplits(own);
    RealLinesConcat(own, added);
    SumOfConcat(own, added, Tax);
    SumOfConcat(own, added, CardFee);
    assert PushedLines(invoice) == own + added;
    assert RealLines(own) + [] == RealLines(own);
  }

  /** The percentage in the tax line's description reads back as the applied rate. */
  lemma PercentReadsBack(rateBp: nat, currency: M.Currency)
    requires M.IsSafe(rateBp)
    ensures M.ParseMinor(Percent(rateBp), currency) == Success(rateBp)
  {
    var whole, fraction := M.Digits(M.Major(rateBp, 100)), M.PadStart(M.Digits(M.Minor(rateBp, 100)), 2);
    M.FormattedText(rateBp, currency);
    PlainPrinted(whole, fraction);
    assert Percent(rateBp) == whole + "." + fraction;
    M.FormatParseRoundTrip(rateBp, currency);
  }

  lemma PlainPrinted(whole: string, fraction: string)
    ensures M.Printed(false, whole, fraction) == whole + "." + fraction
  {
  }

  /** A line read back: named, or numbered from one; the total nearest to rate times quantity, an exact half going up. */
  lemma LineReads(lines: seq<RemoteLine>, i: nat)
    requires i < |lines|
    ensures var item, line := ToLocalLineItems(lines)[i], lines[i];
      && item.itemName == (if line.name.None? then "Line " + M.Digits(i + 1) else line.name.value)
      && (item.description, item.quantity, item.unitPriceMinor) == (line.description, line.quantity, line.rateMinor)
      && -10_000 < 2 * (10_000 * item.lineTotalMinor - line.rateMinor * line.quantity) <= 10_000
      && (item.taxExempt <==> line.taxId.None? || line.taxId == Some(""))
  {
  }

  // --- The applied rate -------------------------------------------------------------------------

  /** The recovered rate is the exact quotient to within half a basis point. */
  lemma RateWithinHalf(subtotalMinor: int, taxMinor: int)
    requires subtotalMinor > 0
    ensures var gap := 10_000 * taxMinor - RecoveredRate(subtotalMinor, taxMinor) * subtotalMinor;
      -subtotalMinor <= 2 * gap < subtotalMinor
  {
    var n, e := 2 * (taxMinor * 10_000) + subtotalMinor, 2 * subtotalMinor;
    assert n == e * (n / e) + n % e;
    assert e * (n / e) == 2 * ((n / e) * subtotalMinor);
  }

  /** The rate is the only integer that close. */
  lemma RateIsNearest(subtotalMinor: int, taxMinor: int, rate: int)
    requires subtotalMinor > 0
    requires -subtotalMinor <= 2 * (10_000 * taxMinor - rate * subtotalMinor) < subtotalMinor
    ensures RecoveredRate(subtotalMinor, taxMinor) == rate
  {
    RateWithinHalf(subtotalMinor, taxMinor);
    var got := RecoveredRate(subtotalMinor, taxMinor);
    MultiplesApart(got - rate, subtotalMinor);
    assert (got - rate) * subtotalMinor == got * subtotalMinor - rate * subtotalMinor;
  }

  /** The rate is within half a basis point of the quotient, an exact half going up; there is none to recover without a subtotal. */
  predicate RateFits(subtotalMinor: int, taxMinor: int, rate: int) {
    if subtotalMinor > 0 then -subtotalMinor <= 2 * (10_000 * taxMinor - rate * subtotalMinor) < subtotalMinor else rate == 0
  }

  /** A rate returns from a subtotal and a tax exactly when it fits them. */
  lemma RateReturnsIff(subtotalMinor: int, taxMinor: int, rate: int)
    ensures RecoveredRate(subtotalMinor, taxMinor) == rate <==> RateFits(subtotalMinor, taxMinor, rate)
  {
    if subtotalMinor > 0 {
      RateWithinHalf(subtotalMinor, taxMinor);
      if RateFits(subtotalMinor, taxMinor, rate) {
        RateIsNearest(subtotalMinor, taxMinor, rate);
      }
    }
  }

  lemma MultiplesApart(k: int, s: int)
    requires s > 0
    ensures k >= 1 ==> k * s >= s
    ensures k <= -1 ==> k * s <= -s
  {
    if k >= 1 { assert (k - 1) * s >= 0; }
    if k <= -1 { assert (-k - 1) * s >= 0; }
  }

  lemma TaxWithinHalf(subtotalMinor: nat, rate: nat)
    ensures var gap := 10_000 * RoundHalfUp(subtotalMinor * rate, 10_000) - subtotalMinor * rate;
      -5_000 < gap <= 5_000
  {
  }

  lemma RateSurvives(subtotalMinor: nat, rate: nat)
    requires subtotalMinor >= 10_000
    ensures RecoveredRate(subtotalMinor, RoundHalfUp(subtotalMinor * rate, 10_000)) == rate
  {
    var tax := RoundHalfUp(subtotalMinor * rate, 10_000);
    TaxWithinHalf(subtotalMinor, rate);
    if subtotalMinor == 10_000 {
      assert 10_000 * tax == 10_000 * rate;
    }
    RateIsNearest(subtotalMinor, tax, rate);
  }

  /** Below 10,000 minor units some rate is recovered from no tax at all. */
  lemma SomeRateUnreachable(subtotalMinor: nat) returns (rate: nat)
    requires 0 < subtotalMinor < 10_000
    ensures forall tax: int :: RecoveredRate(subtotalMinor, tax) != rate
  {
    var d := 10_000 - subtotalMinor;
    rate := (subtotalMinor + 2 * d - 1) / (2 * d);
    assert subtotalMinor <= 2 * (d * rate) < subtotalMinor + 2 * d;
    forall tax: int ensures RecoveredRate(subtotalMinor, tax) != rate {
      RateSkipped(subtotalMinor, d, rate, tax);
    }
  }

  /** No tax lands within half a basis point of the skipped rate. */
  lemma GapOutside(s: int, d: int, rate: int, tax: int)
    requires s > 0 && d > 0 && s + d == 10_000
    requires s <= 2 * (d * rate) < s + 2 * d
    ensures 2 * (10_000 * tax - rate * s) >= s || 2 * (10_000 * tax - rate * s) < -s
  {
    var k := tax - rate;
    assert 10_000 * tax == s * tax + d * tax;
    assert s * tax == s * k + s * rate && d * tax == d * k + d * rate;
    MultiplesApart(k, s);
    MultiplesApart(k, d);
    if k == 0 {
      assert s * k == 0 && d * k == 0;
    }
  }

  lemma RateSkipped(s: nat, d: nat, rate: nat, tax: int)
    requires s > 0 && d > 0 && s + d == 10_000
    requires s <= 2 * (d * rate) < s + 2 * d
    ensures RecoveredRate(s, tax) != rate
  {
    GapOutside(s, d, rate, tax);
    RateWithinHalf(s, tax);
  }

  /** Ten thousand minor units is exactly where every rate survives the round trip. */
  lemma EveryRateSurvivesIff(subtotalMinor: nat)
    requires subtotalMinor > 0
    ensures (forall rate: nat :: RecoveredRate(subtotalMinor, RoundHalfUp(subtotalMinor * rate, 10_000)) == rate)
       <==> subtotalMinor >= 10_000
  {
    if subtotalMinor >= 10_000 {
      forall rate: nat ensures RecoveredRate(subtotalMinor, RoundHalfUp(subtotalMinor * rate, 10_000)) == rate {
        RateSurvives(subtotalMinor, rate);
      }
    } else {
      var rate := SomeRateUnreachable(subtotalMinor);
      assert RecoveredRate(subtotalMinor, RoundHalfUp(subtotalMinor * rate, 10_000)) != rate;
    }
  }

  // --- Writing it onto the row ----------------------------------------------------------------------

  class InvoiceRow {
    var subtotalMinor: int
    var taxMinor: int
    var taxRateBpApplied: int
    var cardFeeMinor: int
    var notes: Option<string>
    var lineItems: map<nat, LineItem>

    constructor (cardFeeMinor: int, lineItems: map<nat, LineItem>)
      ensures this.cardFeeMinor == cardFeeMinor && this.lineItems == lineItems
      ensures subtotalMinor == 0 && taxMinor == 0 && taxRateBpApplied == 0 && notes.None?
    {
      this.cardFeeMinor, this.lineItems := cardFeeMinor, lineItems;
      subtotalMinor, taxMinor, taxRateBpApplied, notes := 0, 0, 0, None;
    }

    /** Whatever was stored before, exactly the new list remains, at positions 0..n-1. */
    method ReplaceLineItems(items: seq<LineItem>)
      modifies this`lineItems
      ensures lineItems == map p: nat | p < |items| :: items[p]
    {
      var position := 0;
      while position < |items|
        invariant position <= |items|
        invariant forall p: nat | p < position :: p in lineItems && lineItems[p] == items[p]
      {
        lineItems := lineItems[position := items[position]];
        position := position + 1;
      }
      lineItems := map p | p in lineItems && p < |items| :: lineItems[p];
    }

    /** The card fee is owned locally and is never written here. */
    method ApplyInvoiceDetail(detail: Detail)
      modifies this`subtotalMinor, this`taxMinor, this`taxRateBpApplied, this`notes, this`lineItems
      ensures subtotalMinor == RecoveredSubtotal(detail)
      ensures taxMinor == RecoveredTax(detail)
      ensures taxRateBpApplied == RecoveredRate(subtotalMinor, taxMinor)
      ensures notes == detail.notes
      ensures var items := ToLocalLineItems(RealLines(detail.lines));
        lineItems == map p: nat | p < |items| :: items[p]
    {
      var syntheticTax, syntheticFee, realLines := 0, 0, [];
      var i := 0;
      while i < |detail.lines|
        invariant i <= |detail.lines|
        invariant realLines == RealLines(detail.lines[..i])
        invariant syntheticTax == SumOf(detail.lines[..i], Tax)
        invariant syntheticFee == SumOf(detail.lines[..i], CardFee)
      {
        var line := detail.lines[i];
        assert detail.lines[..i + 1][..i] == detail.lines[..i];
        match KindOf(line) {
          case Real => realLines := realLines + [line];
          case Tax => syntheticTax := syntheticTax + Amount(line);
          case CardFee => syntheticFee := syntheticFee + Amount(line);
        }
        i := i + 1;
      }
      assert detail.lines[..i] == detail.lines;
      subtotalMinor := detail.subTotalMinor - syntheticTax - syntheticFee;
      taxMinor := detail.taxTotalMinor + syntheticTax;
      taxRateBpApplied := if subtotalMinor > 0 then RoundHalfUp(taxMinor * 10_000, subtotalMinor) else 0;
      notes := detail.notes;
      ReplaceLineItems(ToLocalLineItems(realLines));
    }
  }
}
