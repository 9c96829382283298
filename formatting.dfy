/**
 * The display helpers that sit beside the pricing engine: the list of
 * chosen delivery formats, the licence duration and the sentence that
 * explains how a yearly licence is priced.
 */
module Formatting {
  import opened Common
  import opened Text
  import opened Catalog
  import opened Pricing

  /** Display name of one format id: the option's name, or the id itself when no option has it. */
  function FormatName(id: string): (r: string)
    ensures FileFormatOptionById(id).Some? ==> r == FileFormatOptionById(id).value.name
    ensures FileFormatOptionById(id).None? ==> r == id
  {
    match FileFormatOptionById(id)
    case Some(option) => option.name
    case None => id
  }

  /** One display name per id, in input order (`fileFormats.map(...)`). */
  function FormatNames(ids: seq<string>): (r: seq<string>)
    ensures |r| == |ids|
    ensures forall i :: 0 <= i < |ids| ==> r[i] == FormatName(ids[i])
  {
    if |ids| == 0 then [] else [FormatName(ids[0])] + FormatNames(ids[1..])
  }

  /** `formatFileFormats`: "" for no formats, otherwise the display names joined by "; ". */
  function FormatFileFormats(ids: seq<string>): (r: string)
    ensures |ids| == 0 ==> r == ""
    ensures |ids| > 0 ==> StartsWith(r, FormatName(ids[0]))
  {
    if |ids| == 0 then ""
    else
      var names := FormatNames(ids);
      var r := Join(names, "; ");
      assert |ids| > 1 ==> r == names[0] + ("; " + Join(names[1..], "; "));
      r
  }

  lemma FormatNamesConcat(a: seq<string>, b: seq<string>)
    ensures FormatNames(a + b) == FormatNames(a) + FormatNames(b)
  {
  }

  /**
   * The rendering is a homomorphism: the list of two non-empty selections
   * renders as the two renderings with one "; " between them.
   */
  lemma FormatFileFormatsConcat(a: seq<string>, b: seq<string>)
    requires |a| > 0 && |b| > 0
    ensures FormatFileFormats(a + b) == FormatFileFormats(a) + "; " + FormatFileFormats(b)
  {
    FormatNamesConcat(a, b);
    JoinConcat(FormatNames(a), FormatNames(b), "; ");
  }

  /** A single id renders as its display name, so an unknown id is kept verbatim. */
  lemma FormatFileFormatsSingle(id: string)
    ensures FormatFileFormats([id]) == FormatName(id)
    ensures (forall i :: 0 <= i < |FileFormatOptions| ==> FileFormatOptions[i].id != id) ==>
      FormatFileFormats([id]) == id
  {
  }

  /** Each catalog format alone renders as its display name. */
  lemma FormatFileFormatsCatalog()
    ensures FormatFileFormats([OtfTtf]) == "OTF, TTF"
    ensures FormatFileFormats([WoffWoff2]) == "WOFF, WOFF2"
  {
    assert FileFormatOptions[0].id == OtfTtf;
    assert FileFormatOptions[1].id == WoffWoff2;
    FormatFileFormatsSingle(OtfTtf);
    FormatFileFormatsSingle(WoffWoff2);
  }

  /** Both catalog formats render as their names joined by "; ". */
  lemma FormatFileFormatsBoth()
    ensures FormatFileFormats([OtfTtf, WoffWoff2]) == "OTF, TTF; WOFF, WOFF2"
  {
    FormatFileFormatsCatalog();
    FormatFileFormatsConcat([OtfTtf], [WoffWoff2]);
    assert [OtfTtf] + [WoffWoff2] == [OtfTtf, WoffWoff2];
  }

  /**
   * `formatDuration`: "Perpetual" for anything but a custom duration, else
   * the year count followed by " Year" or " Years".
   */
  function FormatDuration(durationType: string, durationYears: int): (r: string)
    ensures durationType != "custom" ==> r == "Perpetual"
    ensures durationType == "custom" ==> StartsWith(r, IntToString(durationYears) + " Year")
  {
    if durationType == "perpetual" then "Perpetual"
    else if durationType == "custom" then
      var head := IntToString(durationYears) + " Year";
      var r := head + (if durationYears > 1 then "s" else "");
      assert r[..|head|] == head;
      r
    else "Perpetual"
  }

  /** One year is singular, more years plural. */
  lemma FormatDurationYears(n: int)
    ensures FormatDuration("custom", 1) == "1 Year"
    ensures n > 1 ==> FormatDuration("custom", n) == IntToString(n) + " Years"
  {
    assert IntToString(1) == "1";
  }

  /** Different year counts of a custom licence display differently. */
  lemma FormatDurationInjective(m: int, n: int)
    requires FormatDuration("custom", m) == FormatDuration("custom", n)
    ensures m == n
  {
    var s := FormatDuration("custom", m);
    LastCharOfDuration(m);
    LastCharOfDuration(n);
    assert (m > 1) == (n > 1);
    var tail := " Year" + (if m > 1 then "s" else "");
    var a, b := IntToString(m), IntToString(n);
    assert s == a + tail && s == b + tail;
    assert a == s[..|s| - |tail|] == b;
    IntToStringInjective(m, n);
  }

  /** A custom duration ends in the 's' of "Years" or in the 'r' of "Year". */
  lemma LastCharOfDuration(n: int)
    ensures var s := FormatDuration("custom", n);
      |s| > 0 && s[|s| - 1] == (if n > 1 then 's' else 'r')
  {
  }

  /** Percentage of the perpetual price a custom licence of `years` costs, as the explanation prints it. */
  function DurationPercent(years: int): (p: int)
    ensures p as real == 100.0 * DurationMultiplier(years)
  {
    DurationMultiplierClosedForm(years);
    if years <= 0 then 0 else if years == 1 then 70 else 135 + 60 * (years - 2)
  }

  /** `getDurationPricingExplanation`: a text exactly for the "perpetual" and "custom" types. */
  function DurationPricingExplanation(durationType: string, durationYears: int): (r: string)
    ensures r == "" <==> durationType != "perpetual" && durationType != "custom"
  {
    if durationType == "perpetual" then "Perpetual license"
    else if durationType == "custom" then
      if durationYears == 1 then "1 Year: 70% of perpetual price"
      else if durationYears == 2 then "2 Years: 70% + 65% = 135% of perpetual price"
      else
        IntToString(durationYears) + " Years: 70% + 65% + " + IntToString(durationYears - 2) +
        " × 60% = " + IntToString(DurationPercent(durationYears)) + "% of perpetual price"
    else ""
  }

  /** `s` ends with `suffix`. */
  predicate EndsWith(s: string, suffix: string) {
    |suffix| <= |s| && s[|s| - |suffix|..] == suffix
  }

  lemma EndsWithConcat(head: string, tail: string)
    ensures EndsWith(head + tail, tail)
  {
    assert (head + tail)[|head|..] == tail;
  }

  /**
   * The explanation of a custom licence of three or more years ends with
   * the percentage it prints, `multiplier * 100`.
   */
  lemma ExplanationQuotesMultiplier(years: int)
    requires years >= 3
    ensures EndsWith(DurationPricingExplanation("custom", years),
                     IntToString(DurationPercent(years)) + "% of perpetual price")
  {
    var head := IntToString(years) + " Years: 70% + 65% + " + IntToString(years - 2) + " × 60% = ";
    var tail := IntToString(DurationPercent(years)) + "% of perpetual price";
    assert DurationPricingExplanation("custom", years) == head + tail;
    EndsWithConcat(head, tail);
  }

  /**
   * For one year or more, the percentage the explanation quotes is the
   * fraction of the price that the pricing engine charges.
   */
  lemma QuotedPercentIsCharged(price: real, years: int)
    requires years >= 1
    ensures ApplyDuration(price, "custom", years) == price * (DurationPercent(years) as real / 100.0)
  {
    assert DurationMultiplier(years) == DurationPercent(years) as real / 100.0;
  }

  /**
   * For zero or fewer years the two disagree: the explanation quotes 0% of
   * the perpetual price, while the pricing engine skips the duration step
   * and charges the full price.
   */
  lemma ZeroYearsMisquoted(price: real)
    ensures DurationPercent(0) == 0 && IntToString(0) == "0"
    ensures EndsWith(DurationPricingExplanation("custom", 0), IntToString(DurationPercent(0)) + "% of perpetual price")
    ensures ApplyDuration(price, "custom", 0) == price
  {
    var head := IntToString(0) + " Years: 70% + 65% + " + IntToString(-2) + " × 60% = ";
    var tail := IntToString(DurationPercent(0)) + "% of perpetual price";
    assert DurationPricingExplanation("custom", 0) == head + tail;
    EndsWithConcat(head, tail);
  }

  /** The fixed texts for one and two years quote exactly the percentages charged. */
  lemma ExplanationFixedTexts()
    ensures DurationPercent(1) == 70 && DurationPricingExplanation("custom", 1) == "1 Year: 70% of perpetual price"
    ensures DurationPercent(2) == 135 &&
      DurationPricingExplanation("custom", 2) == "2 Years: 70% + 65% = 135% of perpetual price"
    ensures DurationPercent(3) == 195
  {
  }
}
