/**
 * The licence pricing engine. A price is the base price of a family scaled,
 * in this order, by the tier multiplier, the duration multiplier (custom
 * durations only), a doubling when both delivery formats are chosen, the
 * non-profit discount and the custom percentage discount. A contact-required
 * tier has no price at all (`None`, the source's `null`).
 *
 * `DurationMultiplier` and `LicensePrice` are the specifications: the first
 * as the sum of what each year of a licence contributes, the second as the
 * composition of one adjustment per rule. `CalculateDurationMultiplier` and
 * `CalculateLicensePrice` follow the source step by step, updating a running
 * value under a chain of conditionals, and are proved to agree with them.
 */
module Pricing {
  import opened Common
  import opened Catalog

  /** What year number `year` of a licence adds: 70%, then 65%, then 60% for every later year. */
  function YearRate(year: int): real {
    if year == 1 then 0.7 else if year == 2 then 0.65 else 0.6
  }

  /** Share of the perpetual price a licence of `years` whole years costs; 0 for no years. */
  function DurationMultiplier(years: int): (r: real)
    ensures r >= 0.0
    ensures years >= 1 ==> r >= 0.7
    decreases years
  {
    if years <= 0 then 0.0 else DurationMultiplier(years - 1) + YearRate(years)
  }

  /** The sum of the yearly shares in closed form. */
  lemma {:induction false} DurationMultiplierClosedForm(years: int)
    ensures years == 1 ==> DurationMultiplier(years) == 0.7
    ensures years >= 2 ==> DurationMultiplier(years) == 1.35 + 0.6 * (years - 2) as real
    decreases years
  {
    if years >= 3 {
      DurationMultiplierClosedForm(years - 1);
    }
  }

  /** `calculateDurationMultiplier`: the running total gains 0.7, 0.65 and 0.6 per later year. */
  method CalculateDurationMultiplier(durationYears: int) returns (totalMultiplier: real)
    ensures totalMultiplier == DurationMultiplier(durationYears)
  {
    if durationYears <= 0 {
      return 0.0;
    }
    totalMultiplier := 0.0;
    if durationYears >= 1 {
      totalMultiplier := totalMultiplier + 0.7;
    }
    if durationYears >= 2 {
      totalMultiplier := totalMultiplier + 0.65;
    }
    if durationYears >= 3 {
      totalMultiplier := totalMultiplier + 0.6 * (durationYears - 2) as real;
    }
    DurationMultiplierClosedForm(durationYears);
  }

  /** The values the pricing tables quote. */
  lemma DurationMultiplierValues()
    ensures DurationMultiplier(0) == 0.0 && DurationMultiplier(-3) == 0.0
    ensures DurationMultiplier(1) == 0.7 && DurationMultiplier(2) == 1.35
    ensures DurationMultiplier(3) == 1.95 && DurationMultiplier(5) == 3.15
  {
    DurationMultiplierClosedForm(3);
    DurationMultiplierClosedForm(5);
  }

  /** Every additional year costs something: the multiplier strictly grows from one year on. */
  lemma {:induction false} DurationMultiplierStrictlyIncreasing(m: int, n: int)
    requires 1 <= m < n
    ensures DurationMultiplier(m) < DurationMultiplier(n)
    decreases n - m
  {
    if m + 1 < n {
      DurationMultiplierStrictlyIncreasing(m, n - 1);
    }
  }

  /** Front-loading: from the third year on, each year adds less than the first year did. */
  lemma DurationMultiplierFrontLoaded(n: int)
    requires n >= 3
    ensures DurationMultiplier(n) - DurationMultiplier(n - 1) == 0.6
    ensures DurationMultiplier(n) < 0.7 * n as real
  {
    DurationMultiplierClosedForm(n);
    DurationMultiplierClosedForm(n - 1);
  }

  const OtfTtf := "otf_ttf"
  const WoffWoff2 := "woff_woff2"

  /** Both delivery formats are selected. */
  predicate BothFormats(fileFormats: seq<string>) {
    OtfTtf in fileFormats && WoffWoff2 in fileFormats
  }

  /** Duration rule: only a custom duration of at least one year rescales the price. */
  function ApplyDuration(price: real, durationType: string, durationYears: int): real {
    if durationType == "custom" && durationYears > 0 then price * DurationMultiplier(durationYears) else price
  }

  /** Format rule: dual delivery doubles the price. */
  function ApplyFormats(price: real, fileFormats: seq<string>): real {
    if BothFormats(fileFormats) then price * 2.0 else price
  }

  /** Non-profit rule: 30% off. */
  function ApplyNonProfit(price: real, nonProfitDiscount: bool): real {
    if nonProfitDiscount then price * 0.7 else price
  }

  /** Custom-discount rule: a positive percentage p takes p% off; anything else is ignored. */
  function ApplyCustomDiscount(price: real, customDiscountPercent: real): real {
    if customDiscountPercent > 0.0 then price * (1.0 - customDiscountPercent / 100.0) else price
  }

  /** The four rules applied, in the source's order, to a tiered price. */
  function Adjust(
    price: real, fileFormats: seq<string>, durationType: string, durationYears: int,
    nonProfitDiscount: bool, customDiscountPercent: real): real
  {
    ApplyCustomDiscount(
      ApplyNonProfit(ApplyFormats(ApplyDuration(price, durationType, durationYears), fileFormats), nonProfitDiscount),
      customDiscountPercent)
  }

  /**
   * The price at a priced tier: the base price times the tier's multiplier,
   * with every rule applied; without a surcharge or discount it is the
   * scaled base price.
   */
  function TierPrice(
    multiplier: real, basePrice: real, fileFormats: seq<string>,
    durationType: string, durationYears: int, nonProfitDiscount: bool, customDiscountPercent: real): (r: real)
    ensures (!BothFormats(fileFormats) && (durationType != "custom" || durationYears <= 0) &&
             !nonProfitDiscount && customDiscountPercent <= 0.0) ==> r == basePrice * multiplier
  {
    Adjust(basePrice * multiplier, fileFormats, durationType, durationYears,
           nonProfitDiscount, customDiscountPercent)
  }

  /**
   * The licence price: `None` for a contact-required tier, the base price
   * unchanged for an unknown tier id, otherwise the tier's price.
   */
  function LicensePrice(
    basePrice: real, businessSizeId: string, fileFormats: seq<string>,
    durationType: string, durationYears: int, nonProfitDiscount: bool, customDiscountPercent: real): (r: Option<real>)
    ensures r.None? <==> BusinessSizeById(businessSizeId).Some? && BusinessSizeById(businessSizeId).value.contactRequired
    ensures BusinessSizeById(businessSizeId).None? ==> r == Some(basePrice)
  {
    match BusinessSizeById(businessSizeId)
    case None => Some(basePrice)
    case Some(size) =>
      if size.contactRequired then None
      else Some(TierPrice(TierMultiplier(size), basePrice, fileFormats, durationType, durationYears,
                          nonProfitDiscount, customDiscountPercent))
  }

  /** `calculateLicensePrice`: the running price is scaled step by step, in the source's order. */
  method CalculateLicensePrice(
    basePrice: real, businessSizeId: string, fileFormats: seq<string>,
    durationType: string, durationYears: int, nonProfitDiscount: bool, customDiscountPercent: real)
    returns (r: Option<real>)
    ensures r == LicensePrice(basePrice, businessSizeId, fileFormats, durationType, durationYears,
                              nonProfitDiscount, customDiscountPercent)
  {
    var businessSize := BusinessSizeById(businessSizeId);
    match businessSize {
      case None =>
        r := Some(basePrice);
      case Some(size) =>
        if size.contactRequired {
          r := None;
        } else {
          var price := ScaledPrice(basePrice * TierMultiplier(size), fileFormats, durationType,
                                   durationYears, nonProfitDiscount, customDiscountPercent);
          r := Some(price);
        }
    }
  }

  /** The body of `calculateLicensePrice` after the tier multiplier: one conditional rescaling per rule. */
  method ScaledPrice(
    tiered: real, fileFormats: seq<string>, durationType: string, durationYears: int,
    nonProfitDiscount: bool, customDiscountPercent: real)
    returns (price: real)
    ensures price == Adjust(tiered, fileFormats, durationType, durationYears, nonProfitDiscount, customDiscountPercent)
  {
    price := tiered;
    if durationType == "custom" && durationYears > 0 {
      var durationMultiplier := CalculateDurationMultiplier(durationYears);
      price := price * durationMultiplier;
    }
    assert price == ApplyDuration(tiered, durationType, durationYears);
    ghost var timed := price;
    if OtfTtf in fileFormats && WoffWoff2 in fileFormats {
      price := price * 2.0;
    }
    assert price == ApplyFormats(timed, fileFormats);
    ghost var delivered := price;
    if nonProfitDiscount {
      price := price * 0.7;
    }
    assert price == ApplyNonProfit(delivered, nonProfitDiscount);
    ghost var reduced := price;
    if customDiscountPercent > 0.0 {
      price := price * (1.0 - customDiscountPercent / 100.0);
    }
  }

  /** A tier that is in the catalog and has a price. */
  predicate PricedTier(businessSizeId: string) {
    BusinessSizeById(businessSizeId).Some? && !BusinessSizeById(businessSizeId).value.contactRequired
  }

  /** The "custom" tier never yields a price, whatever the other inputs. */
  lemma ContactTierHasNoPrice(
    basePrice: real, fileFormats: seq<string>, durationType: string, durationYears: int,
    nonProfitDiscount: bool, customDiscountPercent: real)
    ensures LicensePrice(basePrice, "custom", fileFormats, durationType, durationYears,
                         nonProfitDiscount, customDiscountPercent) == None
  {
    BusinessSizeLookup(6);
  }

  /** Every tier but "custom" in the catalog is priced, at its own tier price. */
  lemma CatalogTierPrice(
    i: nat, basePrice: real, fileFormats: seq<string>, durationType: string, durationYears: int,
    nonProfitDiscount: bool, customDiscountPercent: real)
    requires i < |BusinessSizes| - 1
    ensures PricedTier(BusinessSizes[i].id)
    ensures LicensePrice(basePrice, BusinessSizes[i].id, fileFormats, durationType, durationYears,
                         nonProfitDiscount, customDiscountPercent)
         == Some(TierPrice(TierMultiplier(BusinessSizes[i]), basePrice, fileFormats, durationType, durationYears,
                           nonProfitDiscount, customDiscountPercent))
  {
    BusinessSizeLookup(i);
    assert !BusinessSizes[i].contactRequired;
  }

  /** An id outside the catalog falls back to the base price, ignoring every other input. */
  lemma UnknownTierKeepsBasePrice(
    basePrice: real, businessSizeId: string, fileFormats: seq<string>, durationType: string,
    durationYears: int, nonProfitDiscount: bool, customDiscountPercent: real)
    requires forall i :: 0 <= i < |BusinessSizes| ==> BusinessSizes[i].id != businessSizeId
    ensures LicensePrice(basePrice, businessSizeId, fileFormats, durationType, durationYears,
                         nonProfitDiscount, customDiscountPercent) == Some(basePrice)
  {
  }

  /** A priced tier id costs the price of the tier it names. */
  lemma PricedTierPrice(
    basePrice: real, businessSizeId: string, fileFormats: seq<string>,
    durationType: string, durationYears: int, nonProfitDiscount: bool, customDiscountPercent: real)
    requires PricedTier(businessSizeId)
    ensures LicensePrice(basePrice, businessSizeId, fileFormats, durationType, durationYears,
                         nonProfitDiscount, customDiscountPercent)
         == Some(TierPrice(TierMultiplier(BusinessSizeById(businessSizeId).value), basePrice, fileFormats,
                           durationType, durationYears, nonProfitDiscount, customDiscountPercent))
  {
  }

  /** A single format, a repeated format or no format at all costs what no format costs. */
  lemma SingleFormatNoSurcharge(
    basePrice: real, businessSizeId: string, fileFormats: seq<string>,
    durationType: string, durationYears: int, nonProfitDiscount: bool, customDiscountPercent: real)
    requires !BothFormats(fileFormats)
    ensures LicensePrice(basePrice, businessSizeId, fileFormats, durationType, durationYears,
                         nonProfitDiscount, customDiscountPercent)
         == LicensePrice(basePrice, businessSizeId, [], durationType, durationYears,
                         nonProfitDiscount, customDiscountPercent)
  {
    assert !BothFormats([]);
  }

  /** A percentage that is not positive leaves the price unchanged. */
  lemma NonPositiveDiscountIgnored(
    basePrice: real, businessSizeId: string, fileFormats: seq<string>,
    durationType: string, durationYears: int, nonProfitDiscount: bool, customDiscountPercent: real)
    requires customDiscountPercent <= 0.0
    ensures LicensePrice(basePrice, businessSizeId, fileFormats, durationType, durationYears,
                         nonProfitDiscount, customDiscountPercent)
         == LicensePrice(basePrice, businessSizeId, fileFormats, durationType, durationYears,
                         nonProfitDiscount, 0.0)
  {
  }

  /** Scaling by a non-negative factor keeps non-negative values ordered. */
  lemma ScaleMonotone(x: real, y: real, k: real)
    requires 0.0 <= x <= y && 0.0 <= k
    ensures 0.0 <= x * k <= y * k
  {
  }

  /** The custom discount commutes with a fixed scaling. */
  lemma ScaleCommutes(k: real, price: real, customDiscountPercent: real)
    ensures ApplyCustomDiscount(k * price, customDiscountPercent) == k * ApplyCustomDiscount(price, customDiscountPercent)
  {
  }

  /** Each rule scales the price by a factor that does not depend on the price. */
  lemma AdjustLinear(
    k: real, price: real, fileFormats: seq<string>, durationType: string, durationYears: int,
    nonProfitDiscount: bool, customDiscountPercent: real)
    ensures Adjust(k * price, fileFormats, durationType, durationYears, nonProfitDiscount, customDiscountPercent)
         == k * Adjust(price, fileFormats, durationType, durationYears, nonProfitDiscount, customDiscountPercent)
  {
    var d := ApplyDuration(price, durationType, durationYears);
    assert ApplyDuration(k * price, durationType, durationYears) == k * d;
    var f := ApplyFormats(d, fileFormats);
    assert ApplyFormats(k * d, fileFormats) == k * f;
    var n := ApplyNonProfit(f, nonProfitDiscount);
    assert ApplyNonProfit(k * f, nonProfitDiscount) == k * n;
    ScaleCommutes(k, n, customDiscountPercent);
  }

  lemma ApplyDurationMonotone(low: real, high: real, durationType: string, durationYears: int)
    requires 0.0 <= low <= high
    ensures 0.0 <= ApplyDuration(low, durationType, durationYears) <= ApplyDuration(high, durationType, durationYears)
  {
    if durationType == "custom" && durationYears > 0 {
      ScaleMonotone(low, high, DurationMultiplier(durationYears));
    }
  }

  lemma ApplyCustomDiscountMonotone(low: real, high: real, customDiscountPercent: real)
    requires 0.0 <= low <= high && customDiscountPercent <= 100.0
    ensures 0.0 <= ApplyCustomDiscount(low, customDiscountPercent) <= ApplyCustomDiscount(high, customDiscountPercent)
  {
    if customDiscountPercent > 0.0 {
      ScaleMonotone(low, high, 1.0 - customDiscountPercent / 100.0);
    }
  }

  /** For a percentage up to 100 the rules keep a non-negative price non-negative and preserve order. */
  lemma AdjustMonotone(
    low: real, high: real, fileFormats: seq<string>, durationType: string, durationYears: int,
    nonProfitDiscount: bool, customDiscountPercent: real)
    requires 0.0 <= low <= high && customDiscountPercent <= 100.0
    ensures 0.0 <= Adjust(low, fileFormats, durationType, durationYears, nonProfitDiscount, customDiscountPercent)
    ensures Adjust(low, fileFormats, durationType, durationYears, nonProfitDiscount, customDiscountPercent)
         <= Adjust(high, fileFormats, durationType, durationYears, nonProfitDiscount, customDiscountPercent)
  {
    ApplyDurationMonotone(low, high, durationType, durationYears);
    var dl, dh := ApplyDuration(low, durationType, durationYears), ApplyDuration(high, durationType, durationYears);
    var nl := ApplyNonProfit(ApplyFormats(dl, fileFormats), nonProfitDiscount);
    var nh := ApplyNonProfit(ApplyFormats(dh, fileFormats), nonProfitDiscount);
    assert 0.0 <= nl <= nh;
    ApplyCustomDiscountMonotone(nl, nh, customDiscountPercent);
  }

  /**
   * Without the format surcharge and the discounts, a tier costs the base
   * price times its multiplier, and a custom duration of n > 0 years
   * multiplies that by `DurationMultiplier(n)`.
   */
  lemma DurationStep(multiplier: real, basePrice: real, durationType: string, durationYears: int)
    ensures var p := TierPrice(multiplier, basePrice, [OtfTtf], durationType, durationYears, false, 0.0);
      && (durationType != "custom" || durationYears <= 0 ==> p == basePrice * multiplier)
      && (durationType == "custom" && durationYears > 0 ==> p == basePrice * multiplier * DurationMultiplier(durationYears))
  {
    assert !BothFormats([OtfTtf]);
  }

  /** Selecting both formats exactly doubles the price of the same licence with fewer of them. */
  lemma FormatDoubling(
    multiplier: real, basePrice: real, single: seq<string>, both: seq<string>,
    durationType: string, durationYears: int, nonProfitDiscount: bool, customDiscountPercent: real)
    requires BothFormats(both) && !BothFormats(single)
    ensures TierPrice(multiplier, basePrice, both, durationType, durationYears, nonProfitDiscount, customDiscountPercent)
         == 2.0 * TierPrice(multiplier, basePrice, single, durationType, durationYears, nonProfitDiscount, customDiscountPercent)
  {
    var d := ApplyDuration(basePrice * multiplier, durationType, durationYears);
    var n := ApplyNonProfit(d, nonProfitDiscount);
    assert ApplyNonProfit(d * 2.0, nonProfitDiscount) == 2.0 * n;
    ScaleCommutes(2.0, n, customDiscountPercent);
  }

  /** The two discounts compose by multiplication: non-profit and p% together scale by 0.7 (1 - p/100). */
  lemma DiscountsStack(
    multiplier: real, basePrice: real, fileFormats: seq<string>,
    durationType: string, durationYears: int, customDiscountPercent: real)
    requires customDiscountPercent > 0.0
    ensures TierPrice(multiplier, basePrice, fileFormats, durationType, durationYears, true, customDiscountPercent)
         == TierPrice(multiplier, basePrice, fileFormats, durationType, durationYears, false, 0.0)
            * 0.7 * (1.0 - customDiscountPercent / 100.0)
    ensures customDiscountPercent == 20.0 ==>
      TierPrice(multiplier, basePrice, fileFormats, durationType, durationYears, true, 20.0)
      == TierPrice(multiplier, basePrice, fileFormats, durationType, durationYears, false, 0.0) * 0.56
  {
  }

  /**
   * Discounts only ever lower a price and never make it negative: for a
   * non-negative base price, a non-negative tier multiplier and a percentage
   * in [0, 100] the discounted price lies between 0 and the undiscounted one.
   */
  lemma DiscountBounds(
    multiplier: real, basePrice: real, fileFormats: seq<string>,
    durationType: string, durationYears: int, nonProfitDiscount: bool, customDiscountPercent: real)
    requires basePrice >= 0.0 && multiplier >= 0.0 && 0.0 <= customDiscountPercent <= 100.0
    ensures 0.0 <= TierPrice(multiplier, basePrice, fileFormats, durationType, durationYears, nonProfitDiscount, customDiscountPercent)
         <= TierPrice(multiplier, basePrice, fileFormats, durationType, durationYears, false, 0.0)
  {
    ScaleMonotone(basePrice, basePrice, multiplier);
    var t := basePrice * multiplier;
    ApplyDurationMonotone(t, t, durationType, durationYears);
    var f := ApplyFormats(ApplyDuration(t, durationType, durationYears), fileFormats);
    var n := ApplyNonProfit(f, nonProfitDiscount);
    assert 0.0 <= n <= f;
    if customDiscountPercent > 0.0 {
      ScaleMonotone(n, n, 1.0 - customDiscountPercent / 100.0);
      assert n * (1.0 - customDiscountPercent / 100.0) <= n;
    }
  }

  /**
   * For fixed other inputs, a tier with a larger multiplier never costs less
   * (non-negative base price, percentage at most 100).
   */
  lemma MonotoneInTierMultiplier(
    low: real, high: real, basePrice: real, fileFormats: seq<string>,
    durationType: string, durationYears: int, nonProfitDiscount: bool, customDiscountPercent: real)
    requires basePrice >= 0.0 && customDiscountPercent <= 100.0
    requires 0.0 <= low <= high
    ensures TierPrice(low, basePrice, fileFormats, durationType, durationYears, nonProfitDiscount, customDiscountPercent)
         <= TierPrice(high, basePrice, fileFormats, durationType, durationYears, nonProfitDiscount, customDiscountPercent)
  {
    var tl, th := basePrice * low, basePrice * high;
    assert 0.0 <= tl <= th by {
      ScaleMonotone(low, high, basePrice);
    }
    AdjustMonotone(tl, th, fileFormats, durationType, durationYears, nonProfitDiscount, customDiscountPercent);
  }

  /**
   * Along the catalog order individual, xs, s, m, l, xl the tier price never
   * decreases (non-negative base price, percentage at most 100); with
   * `CatalogTierPrice` this is the order of `LicensePrice` over those ids.
   */
  lemma MonotoneAlongCatalogOrder(
    basePrice: real, i: nat, j: nat, fileFormats: seq<string>,
    durationType: string, durationYears: int, nonProfitDiscount: bool, customDiscountPercent: real)
    requires basePrice >= 0.0 && customDiscountPercent <= 100.0
    requires i <= j < |BusinessSizes| - 1
    ensures TierPrice(TierMultiplier(BusinessSizes[i]), basePrice, fileFormats, durationType, durationYears,
                      nonProfitDiscount, customDiscountPercent)
         <= TierPrice(TierMultiplier(BusinessSizes[j]), basePrice, fileFormats, durationType, durationYears,
                      nonProfitDiscount, customDiscountPercent)
  {
    TierMultipliersNonDecreasing(i, j);
    TierMultipliersNonDecreasing(0, i);
    MonotoneInTierMultiplier(TierMultiplier(BusinessSizes[i]), TierMultiplier(BusinessSizes[j]), basePrice, fileFormats,
                             durationType, durationYears, nonProfitDiscount, customDiscountPercent);
  }

  /**
   * The worked example of the pricing rules: a $100 family on tier "m" is
   * $500; adding WOFF makes it $1000; the non-profit discount $700; a further
   * 10% custom discount $630.
   */
  lemma WorkedExample()
    ensures LicensePrice(100.0, "m", [OtfTtf], "perpetual", 1, false, 0.0) == Some(500.0)
    ensures LicensePrice(100.0, "m", [OtfTtf, WoffWoff2], "perpetual", 1, false, 0.0) == Some(1000.0)
    ensures LicensePrice(100.0, "m", [OtfTtf, WoffWoff2], "perpetual", 1, true, 0.0) == Some(700.0)
    ensures LicensePrice(100.0, "m", [OtfTtf, WoffWoff2], "perpetual", 1, true, 10.0) == Some(630.0)
  {
    BusinessSizeLookup(3);
    assert !BothFormats([OtfTtf]);
    assert BothFormats([OtfTtf, WoffWoff2]);
  }
}
