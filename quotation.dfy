/**
 * The quotation form: a list of licence line items priced by the pricing
 * engine, three global pricing inputs (business size, non-profit discount,
 * custom discount percentage) and the derived subtotal and total. Each event
 * handler of the form is a method of `QuotationForm` that turns one form
 * state into the next; the two re-pricing effects that the form runs after
 * a global input changes are methods too. The pure functions beside the
 * class say what each handler does to one item or to the list.
 */
module Quotation {
  import opened Common
  import opened Text
  import opened Catalog
  import opened Pricing

  /** One licence line of the quotation (`FormItem`). */
  datatype LineItem = LineItem(
    typefaceFamily: string,
    typefaceVariant: string,
    typeface: string,
    licenseType: string,
    durationType: string,
    durationYears: int,
    languageCut: string,
    fileFormats: seq<string>,
    basePrice: real,
    amount: real)

  /** The touched flags of one item that validation consults. */
  datatype ItemTouched = ItemTouched(typefaceFamily: bool, typefaceVariant: bool, fileFormats: bool)

  /** The validation messages of one item ("" means no error). */
  datatype ItemErrors = ItemErrors(typefaceFamily: string, typefaceVariant: string, fileFormats: string)

  const DefaultTouched := ItemTouched(false, false, false)
  const NoErrors := ItemErrors("", "", "")

  /** The value handed to `validateItemField`: a string or a list of strings. */
  datatype FieldValue = Text(text: string) | List(list: seq<string>)

  /** An edit of one item through `handleItemChange`. */
  datatype ItemEdit =
    | SetFamily(family: string)
    | SetVariant(variant: string)
    | SetAmount(parsed: Option<real>)   // `Number(value)`; `None` is NaN

  /** `calculateLicensePrice(...) || 0` for one item under the global inputs. */
  function ItemPrice(item: LineItem, businessSize: string, nonProfitDiscount: bool, customDiscountPercent: real): real {
    OrZero(LicensePrice(item.basePrice, businessSize, item.fileFormats, item.durationType, item.durationYears,
                        nonProfitDiscount, customDiscountPercent))
  }

  /** The amounts of the items, in order. */
  function Amounts(items: seq<LineItem>): (r: seq<real>)
    ensures |r| == |items| && forall i :: 0 <= i < |items| ==> r[i] == items[i].amount
  {
    seq(|items|, i requires 0 <= i < |items| => items[i].amount)
  }

  /** `items.reduce((sum, item) => sum + item.amount, 0)`. */
  function Total(items: seq<LineItem>): real {
    Sum(Amounts(items))
  }

  /** Overwriting one item changes the total by the difference of the two amounts. */
  lemma TotalUpdate(items: seq<LineItem>, i: nat, item: LineItem)
    requires i < |items|
    ensures Total(items[i := item]) == Total(items) - items[i].amount + item.amount
  {
    assert Amounts(items[i := item]) == Amounts(items)[i := item.amount];
    SumUpdate(Amounts(items), i, item.amount);
  }

  /** Appending one item adds its amount to the total. */
  lemma TotalAppend(items: seq<LineItem>, item: LineItem)
    ensures Total(items + [item]) == Total(items) + item.amount
  {
    assert Amounts(items + [item]) == Amounts(items) + [item.amount];
    SumAppend(Amounts(items), item.amount);
  }

  /** Removing one item takes its amount out of the total. */
  lemma TotalRemoveAt(items: seq<LineItem>, i: nat)
    requires i < |items|
    ensures Total(RemoveAt(items, i)) == Total(items) - items[i].amount
  {
    assert Amounts(RemoveAt(items, i)) == RemoveAt(Amounts(items), i);
    SumRemoveAt(Amounts(items), i);
  }

  // ---------------------------------------------------------------- inputs

  /** `Math.min(Math.max(Number.parseFloat(input) || 0, 0), 100)`. */
  function ClampDiscount(parsed: Option<real>): (r: real)
    ensures 0.0 <= r <= 100.0
    ensures parsed.None? ==> r == 0.0
    ensures parsed.Some? && 0.0 <= parsed.value <= 100.0 ==> r == parsed.value
    ensures parsed.Some? && parsed.value < 0.0 ==> r == 0.0
    ensures parsed.Some? && parsed.value > 100.0 ==> r == 100.0
  {
    var value := OrZero(parsed);
    var atLeastZero := if value > 0.0 then value else 0.0;
    if atLeastZero < 100.0 then atLeastZero else 100.0
  }

  /** `Math.max(Number.parseInt(input) || 1, 1)`. */
  function ClampYears(parsed: Option<int>): (r: int)
    ensures r >= 1
    ensures parsed.None? ==> r == 1
    ensures parsed.Some? && parsed.value >= 1 ==> r == parsed.value
    ensures parsed.Some? && parsed.value < 1 ==> r == 1
  {
    var years := match parsed case None => 1 case Some(v) => if v != 0 then v else 1;
    if years > 1 then years else 1
  }

  /** Clamping is idempotent: a clamped value read back is kept as it is. */
  lemma ClampIdempotent(parsedDiscount: Option<real>, parsedYears: Option<int>)
    ensures ClampDiscount(Some(ClampDiscount(parsedDiscount))) == ClampDiscount(parsedDiscount)
    ensures ClampYears(Some(ClampYears(parsedYears))) == ClampYears(parsedYears)
  {
  }

  // ---------------------------------------------------------------- file formats

  /** The format list after a checkbox toggle: add when absent, or drop every copy. */
  function ToggleFormat(formats: seq<string>, formatId: string, checked: bool): (r: seq<string>)
    ensures formatId in r <==> checked
    ensures |r| <= |formats| + 1
  {
    if checked then (if formatId in formats then formats else formats + [formatId])
    else RemoveAll(formats, formatId)
  }

  /**
   * Checking a format puts it in the list and keeps every other format;
   * unchecking takes out every copy and keeps the rest; a list without
   * duplicates stays without duplicates.
   */
  lemma ToggleFormatEffect(formats: seq<string>, formatId: string, checked: bool)
    ensures var r := ToggleFormat(formats, formatId, checked);
      (checked <==> formatId in r) &&
      (forall f :: f in formats && f != formatId ==> f in r) &&
      (forall f :: f in r && f != formatId ==> f in formats) &&
      (NoDuplicates(formats) ==> NoDuplicates(r))
  {
    var r := ToggleFormat(formats, formatId, checked);
    if !checked {
      forall f | f in formats && f != formatId ensures f in r {
        var k :| 0 <= k < |formats| && formats[k] == f;
      }
      forall f | f in r && f != formatId ensures f in formats {
        var k :| 0 <= k < |r| && r[k] == f;
      }
    } else if formatId !in formats {
      assert r[|formats|] == formatId;
    }
  }

  /** Checking an absent format and unchecking it again restores the list. */
  lemma ToggleFormatRoundTrip(formats: seq<string>, formatId: string)
    requires formatId !in formats
    ensures ToggleFormat(ToggleFormat(formats, formatId, true), formatId, false) == formats
  {
    RemoveAllAppend(formats, formatId);
  }

  // ---------------------------------------------------------------- re-pricing

  /** Every item's amount is its licence price under the given globals. */
  ghost predicate Priced(items: seq<LineItem>, businessSize: string, nonProfitDiscount: bool, customDiscountPercent: real) {
    forall i :: 0 <= i < |items| ==> items[i].amount == ItemPrice(items[i], businessSize, nonProfitDiscount, customDiscountPercent)
  }

  /** Every item with its amount recomputed from its own fields and the globals. */
  function Repriced(items: seq<LineItem>, businessSize: string, nonProfitDiscount: bool, customDiscountPercent: real)
    : (r: seq<LineItem>)
    ensures |r| == |items|
    ensures forall i :: 0 <= i < |r| ==> r[i].(amount := items[i].amount) == items[i]
  {
    seq(|items|, i requires 0 <= i < |items| =>
      items[i].(amount := ItemPrice(items[i], businessSize, nonProfitDiscount, customDiscountPercent)))
  }

  /** Every item with its licence label replaced. */
  function Relabelled(items: seq<LineItem>, licenseType: string): (r: seq<LineItem>)
    ensures |r| == |items|
    ensures forall i :: 0 <= i < |r| ==> r[i].licenseType == licenseType
    ensures forall i :: 0 <= i < |r| ==> r[i].(licenseType := items[i].licenseType) == items[i]
  {
    seq(|items|, i requires 0 <= i < |items| => items[i].(licenseType := licenseType))
  }

  /**
   * Re-pricing changes amounts only, and afterwards every item is priced;
   * a list is left as it is exactly when it is already priced.
   */
  lemma RepricedEffect(items: seq<LineItem>, businessSize: string, nonProfitDiscount: bool, customDiscountPercent: real)
    ensures var r := Repriced(items, businessSize, nonProfitDiscount, customDiscountPercent);
      |r| == |items| &&
      (forall i :: 0 <= i < |items| ==> r[i].(amount := items[i].amount) == items[i]) &&
      Priced(r, businessSize, nonProfitDiscount, customDiscountPercent) &&
      (r == items <==> Priced(items, businessSize, nonProfitDiscount, customDiscountPercent))
  {
    var r := Repriced(items, businessSize, nonProfitDiscount, customDiscountPercent);
    if Priced(items, businessSize, nonProfitDiscount, customDiscountPercent) {
      assert forall i :: 0 <= i < |items| ==> r[i] == items[i];
    }
  }

  /** Running the re-pricing twice is the same as running it once. */
  lemma RepricedIdempotent(items: seq<LineItem>, businessSize: string, nonProfitDiscount: bool, customDiscountPercent: real)
    ensures var r := Repriced(items, businessSize, nonProfitDiscount, customDiscountPercent);
      Repriced(r, businessSize, nonProfitDiscount, customDiscountPercent) == r
  {
    RepricedEffect(items, businessSize, nonProfitDiscount, customDiscountPercent);
    RepricedEffect(Repriced(items, businessSize, nonProfitDiscount, customDiscountPercent),
                   businessSize, nonProfitDiscount, customDiscountPercent);
  }

  /** A new label does not change any price: relabelling and re-pricing commute. */
  lemma RelabelCommutes(items: seq<LineItem>, licenseType: string,
                        businessSize: string, nonProfitDiscount: bool, customDiscountPercent: real)
    ensures Repriced(Relabelled(items, licenseType), businessSize, nonProfitDiscount, customDiscountPercent)
         == Relabelled(Repriced(items, businessSize, nonProfitDiscount, customDiscountPercent), licenseType)
  {
  }

  /** Under the contact-required tier every item is priced at 0 (`null || 0`). */
  lemma ContactTierItemsCostNothing(item: LineItem, nonProfitDiscount: bool, customDiscountPercent: real)
    ensures ItemPrice(item, "custom", nonProfitDiscount, customDiscountPercent) == 0.0
  {
    ContactTierHasNoPrice(item.basePrice, item.fileFormats, item.durationType, item.durationYears,
                          nonProfitDiscount, customDiscountPercent);
  }

  /** The licence label the re-pricing effect writes into every item. */
  function LicenseLabel(size: BusinessSize): string {
    if size.id == "individual" then "Individual License (No commercial use)"
    else size.name + " License (" + size.employeeCount + " employees)"
  }

  /** The re-pricing step of the item handlers: only an item with a positive base price is re-priced. */
  function RepricedIfPositive(item: LineItem, businessSize: string, nonProfitDiscount: bool, customDiscountPercent: real)
    : LineItem
  {
    if item.basePrice > 0.0 then item.(amount := ItemPrice(item, businessSize, nonProfitDiscount, customDiscountPercent))
    else item
  }

  /** The gate: a positive base price is re-priced, any other keeps its stale amount. */
  lemma RepricedIfPositiveEffect(item: LineItem, businessSize: string, nonProfitDiscount: bool, customDiscountPercent: real)
    ensures var r := RepricedIfPositive(item, businessSize, nonProfitDiscount, customDiscountPercent);
      r.(amount := item.amount) == item &&
      (item.basePrice > 0.0 ==> r.amount == ItemPrice(item, businessSize, nonProfitDiscount, customDiscountPercent)) &&
      (item.basePrice <= 0.0 ==> r == item)
  {
  }

  // ---------------------------------------------------------------- duration gating

  /** The items after a tier change: custom durations fall back to perpetual unless the tier allows them. */
  function GateDurations(items: seq<LineItem>, businessSize: string): (r: seq<LineItem>)
    ensures |r| == |items|
    ensures !AllowsCustomDuration(businessSize) ==> forall i :: 0 <= i < |r| ==> r[i].durationType != "custom"
  {
    seq(|items|, i requires 0 <= i < |items| =>
      if !AllowsCustomDuration(businessSize) && items[i].durationType == "custom"
      then items[i].(durationType := "perpetual", durationYears := 1)
      else items[i])
  }

  /**
   * Under a tier that does not allow yearly licences no custom duration
   * remains, each custom item becomes perpetual for one year and every
   * other item is unchanged; under "xl" and "custom" nothing changes. No
   * amount changes either way.
   */
  lemma GateDurationsEffect(items: seq<LineItem>, businessSize: string)
    ensures var r := GateDurations(items, businessSize);
      |r| == |items| && Amounts(r) == Amounts(items) &&
      (AllowsCustomDuration(businessSize) ==> r == items) &&
      (!AllowsCustomDuration(businessSize) ==>
        (forall i :: 0 <= i < |r| ==> r[i].durationType != "custom") &&
        (forall i :: 0 <= i < |r| && items[i].durationType == "custom" ==>
           r[i] == items[i].(durationType := "perpetual", durationYears := 1)) &&
        (forall i :: 0 <= i < |r| && items[i].durationType != "custom" ==> r[i] == items[i]))
  {
  }

  /** Gating twice is gating once. */
  lemma GateDurationsIdempotent(items: seq<LineItem>, businessSize: string)
    ensures GateDurations(GateDurations(items, businessSize), businessSize) == GateDurations(items, businessSize)
  {
  }

  // ---------------------------------------------------------------- item edits

  /** `handleItemChange` on one item. */
  function EditedItem(item: LineItem, edit: ItemEdit,
                      businessSize: string, nonProfitDiscount: bool, customDiscountPercent: real): (r: LineItem)
    ensures edit.SetFamily? ==> r.typefaceFamily == edit.family
    ensures edit.SetVariant? ==> r.typefaceVariant == edit.variant && r.languageCut == "Latin, " + edit.variant
    ensures edit.SetAmount? ==> r.amount == OrZero(edit.parsed)
    ensures r.fileFormats == item.fileFormats && r.licenseType == item.licenseType
    ensures r.durationType == item.durationType && r.durationYears == item.durationYears
  {
    match edit
    case SetFamily(family) =>
      var cascaded :=
        match TypefaceByFamily(family)
        case Some(t) =>
          if |t.variants| > 0 then
            var v := t.variants[0];
            item.(typefaceVariant := v, languageCut := "Latin, " + v, basePrice := t.basePrice,
                  typeface := family + " " + v,
                  amount := OrZero(LicensePrice(t.basePrice, businessSize, item.fileFormats, item.durationType,
                                                item.durationYears, nonProfitDiscount, customDiscountPercent)))
          else item
        case None => item;
      cascaded.(typefaceFamily := family)
    case SetVariant(variant) =>
      item.(languageCut := "Latin, " + variant, typeface := item.typefaceFamily + " " + variant,
            typefaceVariant := variant)
    case SetAmount(parsed) =>
      item.(amount := OrZero(parsed))
  }

  /** The variant list offered for the item after the edit. */
  function EditedVariants(variants: seq<string>, edit: ItemEdit): seq<string> {
    match edit
    case SetFamily(family) =>
      (match TypefaceByFamily(family) case Some(t) => t.variants case None => variants)
    case _ => variants
  }

  /** The item's validation messages after the edit. */
  function EditedErrors(errors: ItemErrors, edit: ItemEdit): ItemErrors {
    match edit
    case SetFamily(family) => errors.(typefaceFamily := ValidateItemField("typefaceFamily", Text(family)))
    case SetVariant(variant) => errors.(typefaceVariant := ValidateItemField("typefaceVariant", Text(variant)))
    case SetAmount(_) => errors
  }

  /**
   * Choosing a catalog family moves the item to that family's first style,
   * with its cut label and base price, offers the family's styles and
   * re-prices the item (whatever its old base price was); only the four
   * fields the edit touches, the typeface name and the amount change.
   */
  lemma CatalogFamilyEdit(item: LineItem, family: string, variants: seq<string>,
                          businessSize: string, nonProfitDiscount: bool, customDiscountPercent: real)
    requires TypefaceByFamily(family).Some?
    ensures var t := TypefaceByFamily(family).value;
      var r := EditedItem(item, SetFamily(family), businessSize, nonProfitDiscount, customDiscountPercent);
      |t.variants| > 0 && t.basePrice > 0.0 &&
      r.typefaceFamily == family && r.typefaceVariant == t.variants[0] &&
      r.languageCut == "Latin, " + t.variants[0] && r.basePrice == t.basePrice &&
      r.typeface == family + " " + t.variants[0] &&
      r.amount == ItemPrice(r, businessSize, nonProfitDiscount, customDiscountPercent) &&
      r.(typefaceFamily := item.typefaceFamily, typefaceVariant := item.typefaceVariant, languageCut := item.languageCut,
         basePrice := item.basePrice, typeface := item.typeface, amount := item.amount) == item &&
      EditedVariants(variants, SetFamily(family)) == t.variants
  {
    CatalogFamily(family);
  }

  /** A family found in the catalog has styles and a positive price. */
  lemma CatalogFamily(family: string)
    requires TypefaceByFamily(family).Some?
    ensures |TypefaceByFamily(family).value.variants| > 0 && TypefaceByFamily(family).value.basePrice > 0.0
  {
    TypefacesWellFormed();
    var i :| FirstFamilyAt(Typefaces, family, i) && Typefaces[i] == TypefaceByFamily(family).value;
  }

  /** A family outside the catalog is still written into the item, and nothing else changes. */
  lemma UnknownFamilyEdit(item: LineItem, family: string, variants: seq<string>,
                          businessSize: string, nonProfitDiscount: bool, customDiscountPercent: real)
    requires TypefaceByFamily(family).None?
    ensures EditedItem(item, SetFamily(family), businessSize, nonProfitDiscount, customDiscountPercent)
         == item.(typefaceFamily := family)
    ensures EditedVariants(variants, SetFamily(family)) == variants
  {
  }

  /**
   * The unknown-family quirk on the initial item: after choosing "Arial"
   * the item names family "Arial" but still reads "YTF Gióng Roman".
   */
  lemma UnknownFamilyLeavesStaleName()
    ensures var r := EditedItem(InitialItem, SetFamily("Arial"), "individual", false, 0.0);
      r.typefaceFamily == "Arial" && r.typeface == "YTF Gióng Roman" && r.typeface != r.typefaceFamily + " " + r.typefaceVariant
  {
    assert |"Arial"| == 5;
    assert forall i :: 0 <= i < |Typefaces| ==> |Typefaces[i].family| > 5;
    assert ("Arial" + " " + "Roman")[0] != "YTF Gióng Roman"[0];
  }

  /** A style change relabels the item but keeps its base price and its (possibly stale) amount. */
  lemma VariantEdit(item: LineItem, variant: string, errors: ItemErrors,
                    businessSize: string, nonProfitDiscount: bool, customDiscountPercent: real)
    ensures var r := EditedItem(item, SetVariant(variant), businessSize, nonProfitDiscount, customDiscountPercent);
      r.typefaceVariant == variant && r.languageCut == "Latin, " + variant &&
      r.typeface == item.typefaceFamily + " " + variant &&
      r.basePrice == item.basePrice && r.amount == item.amount && r.fileFormats == item.fileFormats &&
      (EditedErrors(errors, SetVariant(variant)).typefaceVariant == "" <==> !IsBlank(variant))
  {
    ValidateItemFieldMeaning("typefaceVariant", Text(variant));
  }

  /** A direct amount edit stores the parsed number (NaN as 0) and re-prices nothing. */
  lemma AmountEdit(item: LineItem, parsed: Option<real>, businessSize: string, nonProfitDiscount: bool,
                   customDiscountPercent: real)
    ensures var r := EditedItem(item, SetAmount(parsed), businessSize, nonProfitDiscount, customDiscountPercent);
      r.(amount := item.amount) == item &&
      (parsed.Some? ==> r.amount == parsed.value) && (parsed.None? ==> r.amount == 0.0)
  {
  }

  // ---------------------------------------------------------------- validation

  /** `validateItemField`: the message for one field of an item, "" when it is acceptable. */
  function ValidateItemField(field: string, value: FieldValue): (r: string)
    ensures r != "" ==> field in ["typefaceFamily", "typefaceVariant", "fileFormats"]
    ensures value.Text? && r != "" ==> Trim(value.text) == ""
    ensures value.List? ==> (r == "" <==> field != "fileFormats" || |value.list| > 0)
  {
    if field == "typefaceFamily" && value.Text? && Trim(value.text) == "" then "Typeface family is required"
    else if field == "typefaceVariant" && value.Text? && Trim(value.text) == "" then "Typeface variant is required"
    else if field == "fileFormats" && value.List? && |value.list| == 0 then "At least one file format is required"
    else ""
  }

  /**
   * A family or a style is rejected exactly when it is blank, a format list
   * exactly when it is empty, and no other field is ever rejected.
   */
  lemma ValidateItemFieldMeaning(field: string, value: FieldValue)
    ensures field == "typefaceFamily" && value.Text? ==>
      (ValidateItemField(field, value) == "" <==> !IsBlank(value.text))
    ensures field == "typefaceVariant" && value.Text? ==>
      (ValidateItemField(field, value) == "" <==> !IsBlank(value.text))
    ensures field == "fileFormats" && value.List? ==>
      (ValidateItemField(field, value) == "" <==> |value.list| > 0)
    ensures field !in ["typefaceFamily", "typefaceVariant", "fileFormats"] ==> ValidateItemField(field, value) == ""
  {
    if value.Text? {
      TrimEmptyIffBlank(value.text);
    }
  }

  /** The test `isFormValid` applies to items: family, style and at least one format present. */
  predicate ItemComplete(item: LineItem) {
    item.typefaceFamily != "" && item.typefaceVariant != "" && |item.fileFormats| > 0
  }

  /**
   * An item that passes `validateItemField` on all three fields is complete,
   * but not conversely: `isFormValid` tests emptiness, not blankness, so a
   * family of one space is complete yet rejected by validation.
   */
  lemma ValidationStricterThanCompleteness(item: LineItem)
    ensures (ValidateItemField("typefaceFamily", Text(item.typefaceFamily)) == "" &&
             ValidateItemField("typefaceVariant", Text(item.typefaceVariant)) == "" &&
             ValidateItemField("fileFormats", List(item.fileFormats)) == "") ==> ItemComplete(item)
    ensures ItemComplete(item.(typefaceFamily := " ")) <==> item.typefaceVariant != "" && |item.fileFormats| > 0
    ensures ValidateItemField("typefaceFamily", Text(" ")) == "Typeface family is required"
  {
    ValidItemIsComplete(item);
    OneSpaceFamilyRejected();
  }

  /** Passing validation on the three item fields implies the item is complete. */
  lemma ValidItemIsComplete(item: LineItem)
    ensures (ValidateItemField("typefaceFamily", Text(item.typefaceFamily)) == "" &&
             ValidateItemField("typefaceVariant", Text(item.typefaceVariant)) == "" &&
             ValidateItemField("fileFormats", List(item.fileFormats)) == "") ==> ItemComplete(item)
  {
    ValidateItemFieldMeaning("typefaceFamily", Text(item.typefaceFamily));
    ValidateItemFieldMeaning("typefaceVariant", Text(item.typefaceVariant));
  }

  /** A family of one space is rejected as missing. */
  lemma OneSpaceFamilyRejected()
    ensures ValidateItemField("typefaceFamily", Text(" ")) == "Typeface family is required"
  {
    ValidateItemFieldMeaning("typefaceFamily", Text(" "));
    assert IsBlank(" ");
  }

  // ---------------------------------------------------------------- new items

  /** The line item of a fresh form. */
  const InitialItem := LineItem(
    "YTF Gióng", "Roman", "YTF Gióng Roman", "Individual License (No commercial use)", "perpetual", 1,
    "Latin, Roman", [OtfTtf], 100.0, OrZero(LicensePrice(100.0, "individual", [OtfTtf], "perpetual", 1, false, 0.0)))

  /** The initial item costs its base price of $100 at the individual tier. */
  lemma InitialItemPriced()
    ensures InitialItem.amount == 100.0
    ensures Priced([InitialItem], "individual", false, 0.0)
  {
    CatalogTierPrice(0, 100.0, [OtfTtf], "perpetual", 1, false, 0.0);
    assert !BothFormats([OtfTtf]);
  }

  /** The style `addItem` picks from the lookup of its default family: the first style, or "Roman". */
  function DefaultVariant(found: Option<Typeface>): string {
    match found
    case Some(t) => if |t.variants| > 0 && t.variants[0] != "" then t.variants[0] else "Roman"
    case None => "Roman"
  }

  /** The base price `addItem` uses: the default family's, or 100 when that is missing or 0. */
  function DefaultBasePrice(found: Option<Typeface>): real {
    match found
    case Some(t) => if t.basePrice != 0.0 then t.basePrice else 100.0
    case None => 100.0
  }

  /** The styles offered for a new item. */
  function DefaultVariants(found: Option<Typeface>): seq<string> {
    match found
    case Some(t) => t.variants
    case None => ["Roman", "Italic"]
  }

  /** The licence label `addItem` writes: the tier's bare name, or "Individual License". */
  function NewItemLabel(businessSize: string): string {
    match BusinessSizeById(businessSize)
    case Some(size) => if size.name != "" then size.name else "Individual License"
    case None => "Individual License"
  }

  /**
   * The item `addItem` appends, priced under the current globals, given what
   * the lookup of the default family "YTF Gióng" returned.
   */
  function NewItem(found: Option<Typeface>, businessSize: string, nonProfitDiscount: bool, customDiscountPercent: real)
    : (r: LineItem)
    ensures r.typefaceFamily == "YTF Gióng" && r.fileFormats == [OtfTtf]
    ensures r.durationType == "perpetual" && r.durationYears == 1
    ensures r.typeface == r.typefaceFamily + " " + r.typefaceVariant && r.languageCut == "Latin, " + r.typefaceVariant
  {
    var variant := DefaultVariant(found);
    var basePrice := DefaultBasePrice(found);
    LineItem("YTF Gióng", variant, "YTF Gióng " + variant, NewItemLabel(businessSize), "perpetual", 1,
             "Latin, " + variant, [OtfTtf], basePrice,
             OrZero(LicensePrice(basePrice, businessSize, [OtfTtf], "perpetual", 1, nonProfitDiscount, customDiscountPercent)))
  }

  /** `getTypefaceByFamily("YTF Gióng")`, which finds the last catalog entry. */
  method LookupDefaultTypeface() returns (found: Option<Typeface>)
    ensures found == Some(Typefaces[10])
  {
    found := TypefaceByFamily("YTF Gióng");
    DefaultTypefaceLookup();
  }

  /**
   * A new item is the default family in its first style ("Roman"), one
   * format, perpetual for one year, at $100 base, priced under the globals,
   * and offered the family's two styles. Without the catalog entry the
   * fallbacks give the same style and base price.
   */
  lemma NewItemIsDefault(businessSize: string, nonProfitDiscount: bool, customDiscountPercent: real)
    ensures TypefaceByFamily("YTF Gióng") == Some(Typefaces[10])
    ensures forall found :: found in {None, Some(Typefaces[10])} ==>
      var r := NewItem(found, businessSize, nonProfitDiscount, customDiscountPercent);
      r.typefaceFamily == "YTF Gióng" && r.typefaceVariant == "Roman" && r.typeface == "YTF Gióng " + r.typefaceVariant &&
      r.languageCut == "Latin, " + r.typefaceVariant && r.fileFormats == [OtfTtf] &&
      r.durationType == "perpetual" && r.durationYears == 1 && r.basePrice == 100.0 &&
      r.amount == ItemPrice(r, businessSize, nonProfitDiscount, customDiscountPercent)
    ensures DefaultVariants(Some(Typefaces[10])) == DefaultVariants(None) == ["Roman", "Italic"]
  {
    DefaultTypefaceLookup();
  }

  /**
   * The label quirk: at the individual tier an added item is labelled
   * "Individual", while the re-pricing effect labels items "Individual
   * License (No commercial use)"; the effect does not run on `addItem`.
   */
  lemma NewItemLabelDiffersFromEffect()
    ensures NewItemLabel("individual") == "Individual"
    ensures LicenseLabel(BusinessSizes[0]) == "Individual License (No commercial use)"
  {
    BusinessSizeLookup(0);
  }

  // ---------------------------------------------------------------- the form

  /** The shape every reachable item has. */
  predicate WellFormedItem(item: LineItem) {
    item.durationYears >= 1 && NoDuplicates(item.fileFormats) &&
    item.languageCut == "Latin, " + item.typefaceVariant && item.basePrice > 0.0
  }

  predicate AllWellFormed(items: seq<LineItem>) {
    forall i :: 0 <= i < |items| ==> WellFormedItem(items[i])
  }

  /** Re-pricing, relabelling and gating keep every item well formed. */
  lemma ListUpdatesKeepWellFormed(items: seq<LineItem>, licenseType: string,
                                  businessSize: string, nonProfitDiscount: bool, customDiscountPercent: real)
    requires AllWellFormed(items)
    ensures AllWellFormed(Repriced(items, businessSize, nonProfitDiscount, customDiscountPercent))
    ensures AllWellFormed(Relabelled(items, licenseType))
    ensures AllWellFormed(GateDurations(items, businessSize))
  {
    forall i | 0 <= i < |items| ensures WellFormedItem(items[i]) { }
  }

  /** A well-formed item stays well formed under each handler's change, and is then priced. */
  lemma ItemUpdatesKeepWellFormed(item: LineItem, formatId: string, checked: bool, durationType: string,
                                  parsedYears: Option<int>,
                                  businessSize: string, nonProfitDiscount: bool, customDiscountPercent: real)
    requires WellFormedItem(item)
    ensures var r := RepricedIfPositive(item.(fileFormats := ToggleFormat(item.fileFormats, formatId, checked)),
                                        businessSize, nonProfitDiscount, customDiscountPercent);
      WellFormedItem(r) && r.amount == ItemPrice(r, businessSize, nonProfitDiscount, customDiscountPercent)
    ensures var r := RepricedIfPositive(item.(durationType := durationType),
                                        businessSize, nonProfitDiscount, customDiscountPercent);
      WellFormedItem(r) && r.amount == ItemPrice(r, businessSize, nonProfitDiscount, customDiscountPercent)
    ensures var r := RepricedIfPositive(item.(durationYears := ClampYears(parsedYears)),
                                        businessSize, nonProfitDiscount, customDiscountPercent);
      WellFormedItem(r) && r.amount == ItemPrice(r, businessSize, nonProfitDiscount, customDiscountPercent)
  {
    ToggleFormatEffect(item.fileFormats, formatId, checked);
  }

  /** Every edit keeps a well-formed item well formed. */
  lemma EditKeepsWellFormed(item: LineItem, edit: ItemEdit,
                            businessSize: string, nonProfitDiscount: bool, customDiscountPercent: real)
    requires WellFormedItem(item)
    ensures WellFormedItem(EditedItem(item, edit, businessSize, nonProfitDiscount, customDiscountPercent))
  {
    if edit.SetFamily? && TypefaceByFamily(edit.family).Some? {
      CatalogFamily(edit.family);
    }
  }

  /** The item `addItem` appends is well formed. */
  lemma NewItemWellFormed(found: Option<Typeface>, businessSize: string, nonProfitDiscount: bool,
                          customDiscountPercent: real)
    requires found.Some? ==> found.value.basePrice >= 0.0
    ensures WellFormedItem(NewItem(found, businessSize, nonProfitDiscount, customDiscountPercent))
  {
    assert NoDuplicates([OtfTtf]);
  }

  // ---------------------------------------------------------------- replaying an edit

  /** Toggling a format a second time with the same checkbox state changes nothing more. */
  lemma ToggleFormatIdempotent(formats: seq<string>, formatId: string, checked: bool)
    ensures ToggleFormat(ToggleFormat(formats, formatId, checked), formatId, checked)
         == ToggleFormat(formats, formatId, checked)
  {
    if checked {
      assert formatId in ToggleFormat(formats, formatId, checked);
    } else {
      assert formatId !in RemoveAll(formats, formatId);
    }
  }

  /** Re-pricing an item that the gate has already re-priced leaves it as it is. */
  lemma RepricedIfPositiveIdempotent(item: LineItem, businessSize: string, nonProfitDiscount: bool,
                                     customDiscountPercent: real)
    ensures var r := RepricedIfPositive(item, businessSize, nonProfitDiscount, customDiscountPercent);
      RepricedIfPositive(r, businessSize, nonProfitDiscount, customDiscountPercent) == r
  {
  }

  /** Applying the same family, style or amount edit twice is applying it once. */
  lemma EditedItemIdempotent(item: LineItem, edit: ItemEdit,
                             businessSize: string, nonProfitDiscount: bool, customDiscountPercent: real)
    ensures var r := EditedItem(item, edit, businessSize, nonProfitDiscount, customDiscountPercent);
      EditedItem(r, edit, businessSize, nonProfitDiscount, customDiscountPercent) == r
  {
  }

  /**
   * The format, duration-type and duration-years handlers, replayed with the
   * same input on the item they produced, produce that item again.
   */
  lemma ItemHandlersIdempotent(item: LineItem, formatId: string, checked: bool, durationType: string,
                               parsedYears: Option<int>,
                               businessSize: string, nonProfitDiscount: bool, customDiscountPercent: real)
    ensures var r := RepricedIfPositive(item.(fileFormats := ToggleFormat(item.fileFormats, formatId, checked)),
                                        businessSize, nonProfitDiscount, customDiscountPercent);
      RepricedIfPositive(r.(fileFormats := ToggleFormat(r.fileFormats, formatId, checked)),
                         businessSize, nonProfitDiscount, customDiscountPercent) == r
    ensures var r := RepricedIfPositive(item.(durationType := durationType),
                                        businessSize, nonProfitDiscount, customDiscountPercent);
      RepricedIfPositive(r.(durationType := durationType), businessSize, nonProfitDiscount, customDiscountPercent) == r
    ensures var r := RepricedIfPositive(item.(durationYears := ClampYears(parsedYears)),
                                        businessSize, nonProfitDiscount, customDiscountPercent);
      RepricedIfPositive(r.(durationYears := ClampYears(parsedYears)),
                         businessSize, nonProfitDiscount, customDiscountPercent) == r
  {
    ToggleFormatIdempotent(item.fileFormats, formatId, checked);
    RepricedIfPositiveIdempotent(item.(fileFormats := ToggleFormat(item.fileFormats, formatId, checked)),
                                 businessSize, nonProfitDiscount, customDiscountPercent);
    RepricedIfPositiveIdempotent(item.(durationType := durationType),
                                 businessSize, nonProfitDiscount, customDiscountPercent);
    RepricedIfPositiveIdempotent(item.(durationYears := ClampYears(parsedYears)),
                                 businessSize, nonProfitDiscount, customDiscountPercent);
  }

  /** The quotation form state and its handlers. */
  class QuotationForm {
    var clientName: string
    var clientEmail: string
    var businessSize: string
    var nonProfitDiscount: bool
    var customDiscountPercent: real
    var items: seq<LineItem>
    var subtotal: real
    var tax: real
    var total: real
    var availableVariants: seq<seq<string>>
    var touchedItems: seq<ItemTouched>
    var itemErrors: seq<ItemErrors>

    /**
     * At least one item, one slot of every parallel list per item, the
     * subtotal and the total both equal to the sum of the amounts, no tax, a
     * discount percentage within [0, 100] and every item well formed.
     */
    predicate Valid()
      reads this
    {
      |items| >= 1 &&
      |availableVariants| == |items| && |touchedItems| == |items| && |itemErrors| == |items| &&
      AllWellFormed(items) &&
      subtotal == Total(items) && total == subtotal && tax == 0.0 &&
      0.0 <= customDiscountPercent <= 100.0
    }

    /** The initial state: one priced default item at the individual tier, no discounts. */
    constructor ()
      ensures Valid()
      ensures clientName == "" && clientEmail == "" && businessSize == "individual"
      ensures !nonProfitDiscount && customDiscountPercent == 0.0
      ensures items == [InitialItem] && subtotal == 100.0 && total == 100.0 && tax == 0.0
      ensures Priced(items, businessSize, nonProfitDiscount, customDiscountPercent)
      ensures availableVariants == [["Roman", "Italic"]] && touchedItems == [DefaultTouched] && itemErrors == [NoErrors]
    {
      InitialItemPriced();
      var initial := [InitialItem];
      assert Total(initial) == 100.0 by {
        TotalAppend([], InitialItem);
        assert [] + [InitialItem] == initial;
      }
      assert NoDuplicates(InitialItem.fileFormats);
      clientName, clientEmail := "", "";
      businessSize := "individual";
      nonProfitDiscount, customDiscountPercent := false, 0.0;
      items := initial;
      subtotal := Total(initial);
      tax := 0.0;
      total := Total(initial);
      availableVariants := [["Roman", "Italic"]];
      touchedItems := [DefaultTouched];
      itemErrors := [NoErrors];
    }

    /** `handleCustomDiscountChange`: store the clamped percentage. */
    method HandleCustomDiscountChange(parsed: Option<real>)
      requires Valid()
      modifies this
      ensures Valid()
      ensures customDiscountPercent == ClampDiscount(parsed)
      ensures clientName == old(clientName) && clientEmail == old(clientEmail) && businessSize == old(businessSize)
      ensures nonProfitDiscount == old(nonProfitDiscount)
      ensures items == old(items) && subtotal == old(subtotal) && tax == old(tax) && total == old(total)
      ensures availableVariants == old(availableVariants) && touchedItems == old(touchedItems) && itemErrors == old(itemErrors)
    {
      customDiscountPercent := ClampDiscount(parsed);
    }

    /** `handleNonProfitDiscountChange`. */
    method HandleNonProfitDiscountChange(checked: bool)
      requires Valid()
      modifies this
      ensures Valid()
      ensures nonProfitDiscount == checked
      ensures clientName == old(clientName) && clientEmail == old(clientEmail) && businessSize == old(businessSize)
      ensures customDiscountPercent == old(customDiscountPercent)
      ensures items == old(items) && subtotal == old(subtotal) && tax == old(tax) && total == old(total)
      ensures availableVariants == old(availableVariants) && touchedItems == old(touchedItems) && itemErrors == old(itemErrors)
    {
      nonProfitDiscount := checked;
    }

    /** `handleBusinessSizeChange`: store the tier id and gate the custom durations. */
    method HandleBusinessSizeChange(value: string)
      requires Valid()
      modifies this
      ensures Valid()
      ensures businessSize == value && items == GateDurations(old(items), value)
      ensures subtotal == old(subtotal) && total == old(total) && tax == old(tax)
      ensures clientName == old(clientName) && clientEmail == old(clientEmail)
      ensures nonProfitDiscount == old(nonProfitDiscount) && customDiscountPercent == old(customDiscountPercent)
      ensures availableVariants == old(availableVariants) && touchedItems == old(touchedItems) && itemErrors == old(itemErrors)
    {
      var gated := GateDurations(items, value);
      GateDurationsEffect(items, value);
      assert Total(gated) == Total(items);
      ListUpdatesKeepWellFormed(items, "", value, nonProfitDiscount, customDiscountPercent);
      items := gated;
      businessSize := value;
    }

    /** Replace the whole item list by `newItems` and recompute the sums. */
    method SetItems(newItems: seq<LineItem>)
      requires Valid() && |newItems| == |items| && AllWellFormed(newItems)
      modifies this
      ensures Valid()
      ensures items == newItems && total == subtotal && tax == old(tax)
      ensures clientName == old(clientName) && clientEmail == old(clientEmail) && businessSize == old(businessSize)
      ensures nonProfitDiscount == old(nonProfitDiscount) && customDiscountPercent == old(customDiscountPercent)
      ensures availableVariants == old(availableVariants) && touchedItems == old(touchedItems) && itemErrors == old(itemErrors)
    {
      items := newItems;
      subtotal := Total(items);
      total := subtotal;
    }

    /**
     * The effect that follows a change of any global input: when the tier id
     * is in the catalog, every item gets the tier's licence label and its
     * recomputed price; an unknown id changes nothing.
     */
    method RepriceAfterGlobalChange()
      requires Valid()
      modifies this
      ensures Valid()
      ensures BusinessSizeById(businessSize).None? ==> items == old(items) && subtotal == old(subtotal)
      ensures BusinessSizeById(businessSize).Some? ==>
        items == Repriced(Relabelled(old(items), LicenseLabel(BusinessSizeById(businessSize).value)),
                          businessSize, nonProfitDiscount, customDiscountPercent) &&
        Priced(items, businessSize, nonProfitDiscount, customDiscountPercent)
      ensures total == subtotal && tax == old(tax)
      ensures clientName == old(clientName) && clientEmail == old(clientEmail) && businessSize == old(businessSize)
      ensures nonProfitDiscount == old(nonProfitDiscount) && customDiscountPercent == old(customDiscountPercent)
      ensures availableVariants == old(availableVariants) && touchedItems == old(touchedItems) && itemErrors == old(itemErrors)
    {
      var size := BusinessSizeById(businessSize);
      if size.Some? {
        var relabelled := Relabelled(items, LicenseLabel(size.value));
        ListUpdatesKeepWellFormed(items, LicenseLabel(size.value), businessSize, nonProfitDiscount, customDiscountPercent);
        ListUpdatesKeepWellFormed(relabelled, "", businessSize, nonProfitDiscount, customDiscountPercent);
        RepricedEffect(relabelled, businessSize, nonProfitDiscount, customDiscountPercent);
        SetItems(Repriced(relabelled, businessSize, nonProfitDiscount, customDiscountPercent));
      }
    }

    /** The effect that follows a discount change: every item re-priced, labels untouched. */
    method RepriceAfterDiscountChange()
      requires Valid()
      modifies this
      ensures Valid()
      ensures items == Repriced(old(items), businessSize, nonProfitDiscount, customDiscountPercent)
      ensures Priced(items, businessSize, nonProfitDiscount, customDiscountPercent)
      ensures total == subtotal && tax == old(tax)
      ensures clientName == old(clientName) && clientEmail == old(clientEmail) && businessSize == old(businessSize)
      ensures nonProfitDiscount == old(nonProfitDiscount) && customDiscountPercent == old(customDiscountPercent)
      ensures availableVariants == old(availableVariants) && touchedItems == old(touchedItems) && itemErrors == old(itemErrors)
    {
      ListUpdatesKeepWellFormed(items, "", businessSize, nonProfitDiscount, customDiscountPercent);
      RepricedEffect(items, businessSize, nonProfitDiscount, customDiscountPercent);
      SetItems(Repriced(items, businessSize, nonProfitDiscount, customDiscountPercent));
    }

    /**
     * Replace item `index` by `item`, recompute the sums; the subtotal moves
     * by the difference of the two amounts.
     */
    method ReplaceItem(index: nat, item: LineItem)
      requires Valid() && index < |items| && WellFormedItem(item)
      modifies this
      ensures Valid()
      ensures items == old(items)[index := item]
      ensures subtotal == old(subtotal) - old(items[index].amount) + item.amount
      ensures total == subtotal && tax == old(tax)
      ensures clientName == old(clientName) && clientEmail == old(clientEmail) && businessSize == old(businessSize)
      ensures nonProfitDiscount == old(nonProfitDiscount) && customDiscountPercent == old(customDiscountPercent)
      ensures availableVariants == old(availableVariants) && touchedItems == old(touchedItems) && itemErrors == old(itemErrors)
    {
      TotalUpdate(items, index, item);
      items := items[index := item];
      subtotal := Total(items);
      total := subtotal;
    }

    /** Replace item `index` together with its offered styles and its messages. */
    method ReplaceSlot(index: nat, item: LineItem, variants: seq<string>, errors: ItemErrors)
      requires Valid() && index < |items| && WellFormedItem(item)
      modifies this
      ensures Valid()
      ensures items == old(items)[index := item]
      ensures availableVariants == old(availableVariants)[index := variants]
      ensures itemErrors == old(itemErrors)[index := errors]
      ensures subtotal == old(subtotal) - old(items[index].amount) + item.amount
      ensures total == subtotal && tax == old(tax)
      ensures clientName == old(clientName) && clientEmail == old(clientEmail) && businessSize == old(businessSize)
      ensures nonProfitDiscount == old(nonProfitDiscount) && customDiscountPercent == old(customDiscountPercent)
      ensures touchedItems == old(touchedItems)
    {
      ReplaceItem(index, item);
      availableVariants := availableVariants[index := variants];
      itemErrors := itemErrors[index := errors];
    }

    /**
     * `handleFileFormatChange`: toggle the format, re-price the item (its
     * base price is always positive here), and refresh the format error
     * when the field was touched.
     */
    method HandleFileFormatChange(index: nat, formatId: string, checked: bool)
      requires Valid() && index < |items|
      modifies this
      ensures Valid()
      ensures items == old(items)[index := RepricedIfPositive(
                old(items[index]).(fileFormats := ToggleFormat(old(items[index].fileFormats), formatId, checked)),
                businessSize, nonProfitDiscount, customDiscountPercent)]
      ensures (checked <==> formatId in items[index].fileFormats)
      ensures items[index].amount == ItemPrice(items[index], businessSize, nonProfitDiscount, customDiscountPercent)
      ensures subtotal == old(subtotal) - old(items[index].amount) + items[index].amount
      ensures total == subtotal && tax == old(tax)
      ensures old(touchedItems[index].fileFormats) ==>
        itemErrors == old(itemErrors)[index := old(itemErrors[index]).(fileFormats :=
          ValidateItemField("fileFormats", List(items[index].fileFormats)))]
      ensures !old(touchedItems[index].fileFormats) ==> itemErrors == old(itemErrors)
      ensures clientName == old(clientName) && clientEmail == old(clientEmail) && businessSize == old(businessSize)
      ensures nonProfitDiscount == old(nonProfitDiscount) && customDiscountPercent == old(customDiscountPercent)
      ensures availableVariants == old(availableVariants) && touchedItems == old(touchedItems)
    {
      var item := items[index];
      var formats := ToggleFormat(item.fileFormats, formatId, checked);
      ToggleFormatEffect(item.fileFormats, formatId, checked);
      ItemUpdatesKeepWellFormed(item, formatId, checked, "", None, businessSize, nonProfitDiscount, customDiscountPercent);
      ReplaceItem(index, RepricedIfPositive(item.(fileFormats := formats), businessSize, nonProfitDiscount,
                                            customDiscountPercent));
      if touchedItems[index].fileFormats {
        itemErrors := itemErrors[index := itemErrors[index].(fileFormats := ValidateItemField("fileFormats", List(formats)))];
      }
    }

    /** `handleDurationTypeChange`: store the duration type and re-price the item. */
    method HandleDurationTypeChange(index: nat, value: string)
      requires Valid() && index < |items|
      modifies this
      ensures Valid()
      ensures items == old(items)[index := RepricedIfPositive(old(items[index]).(durationType := value),
                                                             businessSize, nonProfitDiscount, customDiscountPercent)]
      ensures items[index].amount == ItemPrice(items[index], businessSize, nonProfitDiscount, customDiscountPercent)
      ensures subtotal == old(subtotal) - old(items[index].amount) + items[index].amount
      ensures total == subtotal && tax == old(tax)
      ensures clientName == old(clientName) && clientEmail == old(clientEmail) && businessSize == old(businessSize)
      ensures nonProfitDiscount == old(nonProfitDiscount) && customDiscountPercent == old(customDiscountPercent)
      ensures availableVariants == old(availableVariants) && touchedItems == old(touchedItems) && itemErrors == old(itemErrors)
    {
      var item := items[index];
      ItemUpdatesKeepWellFormed(item, "", false, value, None, businessSize, nonProfitDiscount, customDiscountPercent);
      ReplaceItem(index, RepricedIfPositive(item.(durationType := value), businessSize, nonProfitDiscount,
                                            customDiscountPercent));
    }

    /** `handleDurationYearsChange`: store the clamped year count and re-price the item. */
    method HandleDurationYearsChange(index: nat, parsed: Option<int>)
      requires Valid() && index < |items|
      modifies this
      ensures Valid()
      ensures items == old(items)[index := RepricedIfPositive(old(items[index]).(durationYears := ClampYears(parsed)),
                                                             businessSize, nonProfitDiscount, customDiscountPercent)]
      ensures items[index].durationYears >= 1
      ensures items[index].amount == ItemPrice(items[index], businessSize, nonProfitDiscount, customDiscountPercent)
      ensures subtotal == old(subtotal) - old(items[index].amount) + items[index].amount
      ensures total == subtotal && tax == old(tax)
      ensures clientName == old(clientName) && clientEmail == old(clientEmail) && businessSize == old(businessSize)
      ensures nonProfitDiscount == old(nonProfitDiscount) && customDiscountPercent == old(customDiscountPercent)
      ensures availableVariants == old(availableVariants) && touchedItems == old(touchedItems) && itemErrors == old(itemErrors)
    {
      var item := items[index];
      ItemUpdatesKeepWellFormed(item, "", false, "", parsed, businessSize, nonProfitDiscount, customDiscountPercent);
      ReplaceItem(index, RepricedIfPositive(item.(durationYears := ClampYears(parsed)), businessSize, nonProfitDiscount,
                                            customDiscountPercent));
    }

    /** `handleItemChange` for a family, style or amount edit of item `index`. */
    method HandleItemChange(index: nat, edit: ItemEdit)
      requires Valid() && index < |items|
      modifies this
      ensures Valid()
      ensures items == old(items)[index := EditedItem(old(items[index]), edit,
                                                      businessSize, nonProfitDiscount, customDiscountPercent)]
      ensures availableVariants == old(availableVariants)[index := EditedVariants(old(availableVariants[index]), edit)]
      ensures itemErrors == old(itemErrors)[index := EditedErrors(old(itemErrors[index]), edit)]
      ensures subtotal == old(subtotal) - old(items[index].amount) + items[index].amount
      ensures total == subtotal && tax == old(tax)
      ensures clientName == old(clientName) && clientEmail == old(clientEmail) && businessSize == old(businessSize)
      ensures nonProfitDiscount == old(nonProfitDiscount) && customDiscountPercent == old(customDiscountPercent)
      ensures touchedItems == old(touchedItems)
    {
      match edit {
        case SetFamily(family) => ChangeFamily(index, family);
        case SetVariant(variant) => ChangeVariant(index, variant);
        case SetAmount(parsed) => ChangeAmount(index, parsed);
      }
    }

    /** The family branch of `handleItemChange`. */
    method ChangeFamily(index: nat, family: string)
      requires Valid() && index < |items|
      modifies this
      ensures Valid()
      ensures items == old(items)[index := EditedItem(old(items[index]), SetFamily(family),
                                                      businessSize, nonProfitDiscount, customDiscountPercent)]
      ensures availableVariants == old(availableVariants)[index := EditedVariants(old(availableVariants[index]), SetFamily(family))]
      ensures itemErrors == old(itemErrors)[index := EditedErrors(old(itemErrors[index]), SetFamily(family))]
      ensures subtotal == old(subtotal) - old(items[index].amount) + items[index].amount
      ensures total == subtotal && tax == old(tax)
      ensures clientName == old(clientName) && clientEmail == old(clientEmail) && businessSize == old(businessSize)
      ensures nonProfitDiscount == old(nonProfitDiscount) && customDiscountPercent == old(customDiscountPercent)
      ensures touchedItems == old(touchedItems)
    {
      var edit := SetFamily(family);
      EditKeepsWellFormed(items[index], edit, businessSize, nonProfitDiscount, customDiscountPercent);
      ReplaceSlot(index, EditedItem(items[index], edit, businessSize, nonProfitDiscount, customDiscountPercent),
                  EditedVariants(availableVariants[index], edit), EditedErrors(itemErrors[index], edit));
    }

    /** The style branch of `handleItemChange`. */
    method ChangeVariant(index: nat, variant: string)
      requires Valid() && index < |items|
      modifies this
      ensures Valid()
      ensures items == old(items)[index := EditedItem(old(items[index]), SetVariant(variant),
                                                      businessSize, nonProfitDiscount, customDiscountPercent)]
      ensures availableVariants == old(availableVariants)[index := EditedVariants(old(availableVariants[index]), SetVariant(variant))]
      ensures itemErrors == old(itemErrors)[index := EditedErrors(old(itemErrors[index]), SetVariant(variant))]
      ensures subtotal == old(subtotal) - old(items[index].amount) + items[index].amount
      ensures total == subtotal && tax == old(tax)
      ensures clientName == old(clientName) && clientEmail == old(clientEmail) && businessSize == old(businessSize)
      ensures nonProfitDiscount == old(nonProfitDiscount) && customDiscountPercent == old(customDiscountPercent)
      ensures touchedItems == old(touchedItems)
    {
      var edit := SetVariant(variant);
      EditKeepsWellFormed(items[index], edit, businessSize, nonProfitDiscount, customDiscountPercent);
      ReplaceSlot(index, EditedItem(items[index], edit, businessSize, nonProfitDiscount, customDiscountPercent),
                  EditedVariants(availableVariants[index], edit), EditedErrors(itemErrors[index], edit));
    }

    /** The amount branch of `handleItemChange`. */
    method ChangeAmount(index: nat, parsed: Option<real>)
      requires Valid() && index < |items|
      modifies this
      ensures Valid()
      ensures items == old(items)[index := EditedItem(old(items[index]), SetAmount(parsed),
                                                      businessSize, nonProfitDiscount, customDiscountPercent)]
      ensures availableVariants == old(availableVariants)[index := EditedVariants(old(availableVariants[index]), SetAmount(parsed))]
      ensures itemErrors == old(itemErrors)[index := EditedErrors(old(itemErrors[index]), SetAmount(parsed))]
      ensures subtotal == old(subtotal) - old(items[index].amount) + items[index].amount
      ensures total == subtotal && tax == old(tax)
      ensures clientName == old(clientName) && clientEmail == old(clientEmail) && businessSize == old(businessSize)
      ensures nonProfitDiscount == old(nonProfitDiscount) && customDiscountPercent == old(customDiscountPercent)
      ensures touchedItems == old(touchedItems)
    {
      var edit := SetAmount(parsed);
      EditKeepsWellFormed(items[index], edit, businessSize, nonProfitDiscount, customDiscountPercent);
      ReplaceSlot(index, EditedItem(items[index], edit, businessSize, nonProfitDiscount, customDiscountPercent),
                  EditedVariants(availableVariants[index], edit), EditedErrors(itemErrors[index], edit));
    }

    /** `addItem`: append the default item, priced, and one default slot to each parallel list. */
    method AddItem()
      requires Valid()
      modifies this
      ensures Valid()
      ensures items == old(items) + [NewItem(Some(Typefaces[10]), businessSize, nonProfitDiscount, customDiscountPercent)]
      ensures availableVariants == old(availableVariants) + [DefaultVariants(Some(Typefaces[10]))]
      ensures touchedItems == old(touchedItems) + [DefaultTouched] && itemErrors == old(itemErrors) + [NoErrors]
      ensures subtotal == old(subtotal) + items[|items| - 1].amount
      ensures total == subtotal && tax == old(tax)
      ensures clientName == old(clientName) && clientEmail == old(clientEmail) && businessSize == old(businessSize)
      ensures nonProfitDiscount == old(nonProfitDiscount) && customDiscountPercent == old(customDiscountPercent)
    {
      var found := LookupDefaultTypeface();
      var item := NewItem(found, businessSize, nonProfitDiscount, customDiscountPercent);
      NewItemWellFormed(found, businessSize, nonProfitDiscount, customDiscountPercent);
      TotalAppend(items, item);
      items := items + [item];
      subtotal := Total(items);
      total := subtotal;
      availableVariants := availableVariants + [DefaultVariants(found)];
      touchedItems := touchedItems + [DefaultTouched];
      itemErrors := itemErrors + [NoErrors];
    }

    /**
     * `removeItem`: with a single item nothing changes; otherwise position
     * `index` leaves the items and every parallel list (an index that is not
     * a position removes nothing), and the sums are recomputed.
     */
    method RemoveItem(index: int)
      requires Valid()
      modifies this
      ensures Valid()
      ensures |old(items)| == 1 || !(0 <= index < |old(items)|) ==>
        items == old(items) && availableVariants == old(availableVariants) &&
        touchedItems == old(touchedItems) && itemErrors == old(itemErrors) && subtotal == old(subtotal)
      ensures |old(items)| > 1 && 0 <= index < |old(items)| ==>
        items == RemoveAt(old(items), index) && availableVariants == RemoveAt(old(availableVariants), index) &&
        touchedItems == RemoveAt(old(touchedItems), index) && itemErrors == RemoveAt(old(itemErrors), index) &&
        subtotal == old(subtotal) - old(items[index].amount)
      ensures total == subtotal && tax == old(tax)
      ensures clientName == old(clientName) && clientEmail == old(clientEmail) && businessSize == old(businessSize)
      ensures nonProfitDiscount == old(nonProfitDiscount) && customDiscountPercent == old(customDiscountPercent)
    {
      if |items| > 1 && 0 <= index < |items| {
        RemovePosition(index);
      }
    }

    /** The branch of `removeItem` that removes: position `index` leaves every list. */
    method RemovePosition(index: nat)
      requires Valid() && |items| > 1 && index < |items|
      modifies this
      ensures Valid()
      ensures items == RemoveAt(old(items), index) && availableVariants == RemoveAt(old(availableVariants), index)
      ensures touchedItems == RemoveAt(old(touchedItems), index) && itemErrors == RemoveAt(old(itemErrors), index)
      ensures subtotal == old(subtotal) - old(items[index].amount)
      ensures total == subtotal && tax == old(tax)
      ensures clientName == old(clientName) && clientEmail == old(clientEmail) && businessSize == old(businessSize)
      ensures nonProfitDiscount == old(nonProfitDiscount) && customDiscountPercent == old(customDiscountPercent)
    {
      TotalRemoveAt(items, index);
      RemoveAtKeepsWellFormed(items, index);
      items := RemoveAt(items, index);
      availableVariants := RemoveAt(availableVariants, index);
      touchedItems := RemoveAt(touchedItems, index);
      itemErrors := RemoveAt(itemErrors, index);
      subtotal := Total(items);
      total := subtotal;
    }

    /**
     * `isFormValid`: client name, email and tier present, and at least one
     * item complete.
     */
    predicate IsFormValid()
      reads this
    {
      clientName != "" && clientEmail != "" && businessSize != "" &&
      exists i :: 0 <= i < |items| && ItemComplete(items[i])
    }
  }

  /** Removing an item keeps the rest well formed. */
  lemma RemoveAtKeepsWellFormed(items: seq<LineItem>, index: nat)
    requires AllWellFormed(items) && index < |items|
    ensures AllWellFormed(RemoveAt(items, index))
  {
  }

  /**
   * A fresh form cannot be submitted (the client fields are empty), although
   * its item is complete.
   */
  lemma FreshFormIncomplete(form: QuotationForm)
    requires form.clientName == "" && form.items == [InitialItem]
    ensures !form.IsFormValid() && ItemComplete(InitialItem)
  {
  }
}
