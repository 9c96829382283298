/**
 * The static catalog of the type foundry: typeface families with their
 * ordered style variants and base prices, the business-size tiers with their
 * licence multipliers, the file-format options and the duration options,
 * together with the lookups over them and the language/cut label helper.
 * Order matters: lookups return the first matching entry.
 */
module Catalog {
  import opened Common
  import opened Text

  datatype Typeface = Typeface(family: string, variants: seq<string>, basePrice: real, totalStyles: nat)

  /** A licence tier; `multiplier == None` is the source's `null`. */
  datatype BusinessSize = BusinessSize(
    id: string,
    name: string,
    description: string,
    multiplier: Option<real>,
    employeeCount: string,
    contactRequired: bool)

  datatype FileFormatOption = FileFormatOption(id: string, name: string, multiplier: real)

  datatype DurationOption = DurationOption(id: string, name: string, multiplier: real)

  const Typefaces: seq<Typeface> := [
    Typeface("YTF Oldman", ["Thin", "Light", "Regular", "Medium", "Bold", "Black"], 90.0, 6),
    Typeface("YTF Eon A", ["Regular", "Medium", "Bold", "Black"], 90.0, 4),
    Typeface("YTF Eon B", ["Regular", "Medium", "Bold", "Black"], 90.0, 4),
    Typeface("YTF Eon C", ["Regular", "Medium", "Bold", "Black"], 90.0, 4),
    Typeface("YTF Xanh", ["Thin", "Light", "Regular", "Thin Italic", "Light Italic", "Regular Italic"], 100.0, 6),
    Typeface("YTF Xanh Mono", ["Thin", "Light", "Regular", "Thin Italic", "Light Italic", "Regular Italic"], 100.0, 6),
    Typeface("YTF Cafuné Sans", ["Air", "Thin", "UltraLight", "Light", "Book", "Medium", "Bold", "Heavy"], 90.0, 8),
    Typeface("YTF Cafuné",
      ["Thin", "Light", "UltraLight", "Book", "Medium", "Bold", "Heavy",
       "Thin Italic", "Light Italic", "UltraLight Italic", "Book Italic", "Medium Italic", "Bold Italic", "Heavy Italic"],
      100.0, 14),
    Typeface("YTF Millie",
      ["Thin", "Light", "Regular", "Medium", "Bold", "Heavy", "Black",
       "Thin Italic", "Light Italic", "Regular Italic", "Medium Italic", "Bold Italic", "Heavy Italic", "Black Italic"],
      90.0, 14),
    Typeface("YTF Millie Mono",
      ["Light", "Regular", "Medium", "Bold", "Light Italic", "Regular Italic", "Medium Italic", "Bold Italic"],
      90.0, 8),
    Typeface("YTF Gióng", ["Roman", "Italic"], 100.0, 2)
  ]

  const BusinessSizes: seq<BusinessSize> := [
    BusinessSize("individual", "Individual", "For sole individuals only. No commercial use.", Some(1.0), "N/A", false),
    BusinessSize("xs", "XS — Business", "For businesses with fewer than 20 employees", Some(2.0), "<20", false),
    BusinessSize("s", "S — Business", "For businesses with fewer than 50 employees", Some(3.0), "<50", false),
    BusinessSize("m", "M — Business", "For businesses with fewer than 150 employees", Some(5.0), "<150", false),
    BusinessSize("l", "L — Business", "For businesses with fewer than 250 employees", Some(8.0), "<250", false),
    BusinessSize("xl", "XL — Business", "For businesses with fewer than 500 employees", Some(10.0), "<500", false),
    BusinessSize("custom", "Custom / Unlimited License",
      "For businesses with more than 500 employees or needing unlimited use/customization", None, ">500", true)
  ]

  const FileFormatOptions: seq<FileFormatOption> := [
    FileFormatOption("otf_ttf", "OTF, TTF", 1.0),
    FileFormatOption("woff_woff2", "WOFF, WOFF2", 1.0)
  ]

  const DurationOptions: seq<DurationOption> := [
    DurationOption("perpetual", "Perpetual", 1.0),
    DurationOption("custom", "Custom (Years)", 0.7)
  ]

  /** First entry of `catalog` whose family is exactly `family` (`Array.prototype.find`). */
  function FindTypeface(catalog: seq<Typeface>, family: string): (r: Option<Typeface>)
    ensures r.None? <==> forall i :: 0 <= i < |catalog| ==> catalog[i].family != family
    ensures r.Some? ==> exists i :: FirstFamilyAt(catalog, family, i) && catalog[i] == r.value
  {
    if |catalog| == 0 then None
    else if catalog[0].family == family then
      assert FirstFamilyAt(catalog, family, 0);
      Some(catalog[0])
    else
      var r := FindTypeface(catalog[1..], family);
      assert r.Some? ==> exists i :: FirstFamilyAt(catalog, family, i) && catalog[i] == r.value by {
        if r.Some? {
          var i :| FirstFamilyAt(catalog[1..], family, i) && catalog[1..][i] == r.value;
          assert FirstFamilyAt(catalog, family, i + 1);
        }
      }
      r
  }

  /** Position `i` holds the first entry of `catalog` named `family`. */
  ghost predicate FirstFamilyAt(catalog: seq<Typeface>, family: string, i: int) {
    0 <= i < |catalog| && catalog[i].family == family &&
    forall j :: 0 <= j < i ==> catalog[j].family != family
  }

  /** `getTypefaceByFamily`: the lookup over the foundry's catalog. */
  function TypefaceByFamily(family: string): (r: Option<Typeface>)
    ensures r.None? <==> forall i :: 0 <= i < |Typefaces| ==> Typefaces[i].family != family
    ensures r.Some? ==> r.value in Typefaces && r.value.family == family
  {
    FindTypeface(Typefaces, family)
  }

  /** First tier of `sizes` whose id is exactly `id`. */
  function FindBusinessSize(sizes: seq<BusinessSize>, id: string): (r: Option<BusinessSize>)
    ensures r.None? <==> forall i :: 0 <= i < |sizes| ==> sizes[i].id != id
    ensures r.Some? ==> exists i :: FirstTierAt(sizes, id, i) && sizes[i] == r.value
  {
    if |sizes| == 0 then None
    else if sizes[0].id == id then
      assert FirstTierAt(sizes, id, 0);
      Some(sizes[0])
    else
      var r := FindBusinessSize(sizes[1..], id);
      assert r.Some? ==> exists i :: FirstTierAt(sizes, id, i) && sizes[i] == r.value by {
        if r.Some? {
          var i :| FirstTierAt(sizes[1..], id, i) && sizes[1..][i] == r.value;
          assert FirstTierAt(sizes, id, i + 1);
        }
      }
      r
  }

  /** Position `i` holds the first tier of `sizes` whose id is `id`. */
  ghost predicate FirstTierAt(sizes: seq<BusinessSize>, id: string, i: int) {
    0 <= i < |sizes| && sizes[i].id == id &&
    forall j :: 0 <= j < i ==> sizes[j].id != id
  }

  /** `businessSizes.find((size) => size.id === id)`. */
  function BusinessSizeById(id: string): Option<BusinessSize> {
    FindBusinessSize(BusinessSizes, id)
  }

  /** First option of `options` whose id is `id`. */
  function FindFileFormatOption(options: seq<FileFormatOption>, id: string): (r: Option<FileFormatOption>)
    ensures r.None? <==> forall i :: 0 <= i < |options| ==> options[i].id != id
    ensures r.Some? ==> exists i :: FirstOptionAt(options, id, i) && options[i] == r.value
  {
    if |options| == 0 then None
    else if options[0].id == id then
      assert FirstOptionAt(options, id, 0);
      Some(options[0])
    else
      var r := FindFileFormatOption(options[1..], id);
      assert r.Some? ==> exists i :: FirstOptionAt(options, id, i) && options[i] == r.value by {
        if r.Some? {
          var i :| FirstOptionAt(options[1..], id, i) && options[1..][i] == r.value;
          assert FirstOptionAt(options, id, i + 1);
        }
      }
      r
  }

  /** Position `i` holds the first option of `options` whose id is `id`. */
  ghost predicate FirstOptionAt(options: seq<FileFormatOption>, id: string, i: int) {
    0 <= i < |options| && options[i].id == id &&
    forall j :: 0 <= j < i ==> options[j].id != id
  }

  /** `fileFormatOptions.find((opt) => opt.id === id)`. */
  function FileFormatOptionById(id: string): Option<FileFormatOption> {
    FindFileFormatOption(FileFormatOptions, id)
  }

  /** The multiplier a tier contributes; a `null` multiplier multiplies as 0 in JavaScript. */
  function TierMultiplier(size: BusinessSize): real {
    match size.multiplier
    case Some(m) => m
    case None => 0.0
  }

  /** Only the two highest tiers admit a custom (yearly) licence duration. */
  predicate AllowsCustomDuration(businessSizeId: string) {
    businessSizeId in ["xl", "custom"]
  }

  /** Default language/cut label for a style variant (`getLanguageCutForVariant`). */
  function LanguageCutForVariant(variant: string): (r: string)
    ensures StartsWith(r, "Latin, ")
  {
    if Contains(variant, "Italic") then "Latin, Italic"
    else if variant == "Roman" then "Latin, Roman"
    else if variant == "Bold" then "Latin, Bold"
    else if variant == "Medium" then "Latin, Medium"
    else if variant == "Light" then "Latin, Light"
    else if variant == "Thin" then "Latin, Thin"
    else if variant == "Black" then "Latin, Black"
    else if variant == "Heavy" then "Latin, Heavy"
    else if variant == "Book" then "Latin, Book"
    else if variant == "UltraLight" then "Latin, UltraLight"
    else if variant == "Air" then "Latin, Air"
    else "Latin, Medium"
  }

  /** The variants `LanguageCutForVariant` names explicitly. */
  const KnownCuts: seq<string> :=
    ["Roman", "Bold", "Medium", "Light", "Thin", "Black", "Heavy", "Book", "UltraLight", "Air"]

  /** An italic style always gets the italic cut, whatever else its name says. */
  lemma ItalicCut(variant: string)
    requires Contains(variant, "Italic")
    ensures LanguageCutForVariant(variant) == "Latin, Italic"
  {
  }

  /** A style whose name has no capital I is not italic. */
  lemma NotItalic(v: string)
    requires 'I' !in v
    ensures !Contains(v, "Italic")
  {
    if Contains(v, "Italic") {
      ContainsFirstChar(v, "Italic");
    }
  }

  /** Any other non-italic style falls back to the medium cut. */
  lemma UnknownCutIsMedium(variant: string)
    requires !Contains(variant, "Italic")
    requires variant !in KnownCuts
    ensures LanguageCutForVariant(variant) == "Latin, Medium"
  {
  }

  /** "Regular", a style of several families, is not named and so gets the medium cut. */
  lemma RegularGetsMediumCut()
    ensures LanguageCutForVariant("Regular") == "Latin, Medium"
  {
    NotItalic("Regular");
    UnknownCutIsMedium("Regular");
  }

  /** Catalog shape: every family has styles and a positive price, and family names are unique. */
  lemma TypefacesWellFormed()
    ensures forall i :: 0 <= i < |Typefaces| ==>
      |Typefaces[i].variants| > 0 && Typefaces[i].basePrice > 0.0 &&
      Typefaces[i].totalStyles == |Typefaces[i].variants|
    ensures forall i, j :: 0 <= i < j < |Typefaces| ==> Typefaces[i].family != Typefaces[j].family
  {
  }

  /** Tier shape: only "custom" is contact-required, and it alone has no multiplier. */
  lemma BusinessSizesWellFormed()
    ensures forall i :: 0 <= i < |BusinessSizes| ==>
      (BusinessSizes[i].contactRequired <==> BusinessSizes[i].id == "custom") &&
      (BusinessSizes[i].multiplier.None? <==> BusinessSizes[i].contactRequired) &&
      (BusinessSizes[i].multiplier.Some? ==> BusinessSizes[i].multiplier.value > 0.0)
    ensures forall i, j :: 0 <= i < j < |BusinessSizes| ==> BusinessSizes[i].id != BusinessSizes[j].id
  {
  }

  /** Every catalog family is found by its own name. */
  lemma TypefaceLookup(i: nat)
    requires i < |Typefaces|
    ensures TypefaceByFamily(Typefaces[i].family) == Some(Typefaces[i])
  {
    TypefacesWellFormed();
  }

  /** Every catalog tier is found by its own id. */
  lemma BusinessSizeLookup(i: nat)
    requires i < |BusinessSizes|
    ensures BusinessSizeById(BusinessSizes[i].id) == Some(BusinessSizes[i])
  {
    BusinessSizesWellFormed();
  }

  /** Along the catalog order individual, xs, s, m, l, xl the multipliers never decrease. */
  lemma TierMultipliersNonDecreasing(i: nat, j: nat)
    requires i <= j < |BusinessSizes| - 1
    ensures BusinessSizes[i].multiplier.Some? && BusinessSizes[j].multiplier.Some?
    ensures TierMultiplier(BusinessSizes[i]) <= TierMultiplier(BusinessSizes[j])
  {
  }

  /** The default family of a new line item is in the catalog, with its two styles. */
  lemma DefaultTypefaceLookup()
    ensures TypefaceByFamily("YTF Gióng") == Some(Typeface("YTF Gióng", ["Roman", "Italic"], 100.0, 2))
  {
    TypefaceLookup(10);
  }
}
