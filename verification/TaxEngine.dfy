/** Goods and services tax on one line and on shipping (src/modules/orders/tax.utils.ts). */
module TaxEngine {
  import opened Wrappers
  import opened Money

  datatype TaxProfile =
    | ImitationJewellery
    | LacJewellery
    | UnstitchedFabric
    | StitchedApparel
    | GeneralAccessory
    | Footwear
    | Unrecognized(name: string)

  datatype TaxResult = TaxResult(taxableValue: int, gstRate: int, totalTax: int)

  datatype TaxSplit = TaxSplit(cgst: int, sgst: int, igst: int)

  /** 2500 rupees, the price per unit above which stitched apparel leaves the 5% bracket. */
  const APPAREL_THRESHOLD := 250000.0

  const SHIPPING_CHARGE := 10000

  function GstRate(profile: TaxProfile, unitPrice: real): (rate: int) {
    match profile
    case ImitationJewellery => 3
    case LacJewellery => 0
    case UnstitchedFabric => 5
    case StitchedApparel => if unitPrice > APPAREL_THRESHOLD then 18 else 5
    case GeneralAccessory => 18
    case Footwear => 12
    case Unrecognized(_) => 0
  }

  function TaxOn(taxableValue: int, rate: int): int {
    Round(Part(taxableValue as real, rate as real / 100.0))
  }

  /** `discountedPricePerUnit * quantity`. */
  function Extension(unitPrice: real, quantity: int): real {
    unitPrice * quantity as real
  }

  /** The default branch of the switch throws. */
  function CalculateLineItemTax(profile: TaxProfile, unitPrice: real, quantity: int)
    : (r: Result<TaxResult, AppError>)
    ensures r.Success? <==> !profile.Unrecognized?
  {
    if profile.Unrecognized? then
      Failure(UnrecognizedTaxProfile)
    else
      Success(TaxOnLine(profile, unitPrice, Extension(unitPrice, quantity)))
  }

  /** The tax of a line whose value is already multiplied out. */
  function TaxOnLine(profile: TaxProfile, unitPrice: real, value: real): TaxResult {
    var rate := GstRate(profile, unitPrice);
    TaxResult(Round(value), rate, TaxOn(Round(value), rate))
  }

  function CalculateShippingTax(gross: int): TaxResult {
    if gross == 0 then
      TaxResult(0, 18, 0)
    else
      var taxableValue := Round(gross as real / 1.18);
      TaxResult(taxableValue, 18, Round(gross as real - taxableValue as real))
  }

  /** Inside the seller's state the tax is halved and each half rounded; elsewhere it is integrated tax. */
  function SplitTaxByState(totalTax: int, state: string): TaxSplit {
    if IsBusinessState(state) then
      var half := Round(totalTax as real / 2.0);
      TaxSplit(half, half, 0)
    else
      TaxSplit(0, 0, Round(totalTax as real))
  }

  predicate IsBusinessState(state: string) {
    var s := TrimEnd(TrimStart(state));
    |s| == 2 && s[0] in "Ww" && s[1] in "Bb"
  }

  /** White space and line terminators removed by `String.prototype.trim`. */
  predicate IsSpace(c: char) {
    '\t' <= c <= '\r' || c == ' ' || c == '\U{00A0}' || c == '\U{1680}' || '\U{2000}' <= c <= '\U{200A}'
    || c == '\U{2028}' || c == '\U{2029}' || c == '\U{202F}' || c == '\U{205F}' || c == '\U{3000}' || c == '\U{FEFF}'
  }

  function TrimStart(s: string): string {
    if s != [] && IsSpace(s[0]) then TrimStart(s[1..]) else s
  }

  function TrimEnd(s: string): string {
    if s != [] && IsSpace(s[|s| - 1]) then TrimEnd(s[..|s| - 1]) else s
  }

  /** A line of a known profile is taxed at its profile's rate, apparel at 18% exactly above 2500 rupees a unit; the
      taxable value is within half a paisa of the line's value and the tax within half a paisa of that share of it,
      halves going up. */
  lemma LineTaxWithinHalfPaisa(profile: TaxProfile, unitPrice: real, quantity: int)
    ensures var r := CalculateLineItemTax(profile, unitPrice, quantity);
      && (r.Success? <==> !profile.Unrecognized?)
      && (r.Success? ==>
            var t := r.value;
            && t.taxableValue as real - 0.5 <= Extension(unitPrice, quantity) < t.taxableValue as real + 0.5
            && t.totalTax as real - 0.5
                 <= Part(t.taxableValue as real, t.gstRate as real / 100.0) < t.totalTax as real + 0.5
            && (profile == ImitationJewellery ==> t.gstRate == 3)
            && (profile == LacJewellery ==> t.gstRate == 0 && t.totalTax == 0)
            && (profile == UnstitchedFabric ==> t.gstRate == 5)
            && (profile == StitchedApparel ==> t.gstRate == if unitPrice > 250000.0 then 18 else 5)
            && (profile == GeneralAccessory ==> t.gstRate == 18)
            && (profile == Footwear ==> t.gstRate == 12))
  {
    if profile == LacJewellery {
      var taxableValue := Round(Extension(unitPrice, quantity));
      RoundUnique(Part(taxableValue as real, 0.0), 0);
    }
  }

  /** A hundred rupees of shipping contain 84.75 of service and 15.25 of tax. */
  lemma ShippingTaxValue(gross: int)
    requires gross == 0 || gross == 10000
    ensures CalculateShippingTax(gross).totalTax == if gross == 0 then 0 else 1525
    ensures CalculateShippingTax(gross).taxableValue + CalculateShippingTax(gross).totalTax == gross
  {
    if gross != 0 {
      RoundUnique(gross as real / 1.18, 8475);
      RoundUnique(gross as real - 8475.0, 1525);
    }
  }

  /** The line tax never falls when the line's value rises, across the apparel threshold and both roundings. */
  lemma LineTaxMonotone(profile: TaxProfile, unit1: real, unit2: real, value1: real, value2: real)
    requires unit1 <= unit2 && -0.5 <= value1 <= value2
    ensures 0 <= TaxOnLine(profile, unit1, value1).totalTax <= TaxOnLine(profile, unit2, value2).totalTax
  {
    RoundMonotone(value1, value2);
    RoundNonNegative(value1);
    TaxOnMonotone(Round(value1), Round(value2), GstRate(profile, unit1), GstRate(profile, unit2));
  }

  lemma TaxOnMonotone(value1: int, value2: int, rate1: int, rate2: int)
    requires 0 <= value1 <= value2 && 0 <= rate1 <= rate2
    ensures 0 <= TaxOn(value1, rate1) <= TaxOn(value2, rate2)
  {
    var part1, part2 := PartMonotone(value1 as real, value2 as real, rate1 as real / 100.0, rate2 as real / 100.0);
    RoundNonNegative(part1);
    RoundMonotone(part1, part2);
  }

  lemma PartMonotone(v1: real, v2: real, f1: real, f2: real) returns (part1: real, part2: real)
    requires 0.0 <= v1 <= v2 && 0.0 <= f1 <= f2
    ensures part1 == Part(v1, f1) && part2 == Part(v2, f2)
    ensures 0.0 <= part1 <= part2
  {
    part1, part2 := Part(v1, f1), Part(v2, f2);
    MulMonotone(f1, f2, v1);
    MulMonotone(v1, v2, f2);
    MulMonotone(0.0, v1, f1);
  }

  lemma MulMonotone(x: real, y: real, k: real)
    requires x <= y && 0.0 <= k
    ensures x * k <= y * k
    ensures k * x <= k * y
  {
  }

  /** Halving loses nothing except that an odd paisa is counted twice. */
  lemma SplitIsExactUpToOddPaisa(totalTax: int, state: string)
    ensures var s := SplitTaxByState(totalTax, state);
      if IsBusinessState(state) then
        s.cgst == s.sgst && s.cgst + s.sgst == totalTax + totalTax % 2 && s.igst == 0
      else
        s == TaxSplit(0, 0, totalTax)
  {
    if IsBusinessState(state) {
      var n := (totalTax + 1) / 2;
      assert totalTax == 2 * n || totalTax == 2 * n - 1;
      assert totalTax as real == 2.0 * n as real || totalTax as real == 2.0 * n as real - 1.0;
      RoundUnique(totalTax as real / 2.0, n);
    } else {
      RoundWhole(totalTax);
    }
  }
}
