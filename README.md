# Type-foundry licence quotation and invoice forms, in Dafny

This project models the pricing core of a type foundry's quotation and
invoice generator and proves properties of it.

- **Catalog** (`catalog.dfy`) holds the static data from `utils/typeface-data.ts`:
  - the eleven typeface families with their ordered styles and base prices;
  - the seven business-size tiers with their licence multipliers (the "custom" tier has none and requires contact);
  - the two delivery-format options and the two duration options.

  It also has the first-match lookups by family, tier id and format id, and
  the language/cut label of a style (`getLanguageCutForVariant`).
- **Pricing** (`pricing.dfy`) has two specification functions:
  - `DurationMultiplier`, the sum of what each licence year adds (70%, 65%, then 60% a year);
  - `LicensePrice`, one rule applied after another: tier multiplier, duration, the doubling for both formats, the 30% non-profit discount, the custom percentage.

  The imperative methods `CalculateDurationMultiplier` and
  `CalculateLicensePrice` follow the source's running-total code and are
  proved equal to the two functions. Lemmas cover:
  - the closed form and strict growth of the multiplier;
  - what each rule does;
  - monotonicity in the tier;
  - the discount bounds;
  - worked examples.
- **Formatting** (`formatting.dfy`) covers the display helpers: the format list (`formatFileFormats`), the duration label (`formatDuration`) and the sentence that explains a yearly price (`getDurationPricingExplanation`). For one year or more, the percentage the explanation quotes is proved to be the share of the price that the pricing engine charges.
- **Text** (`text.dfy`) and **Common** (`common.dfy`) are the JavaScript primitives the core relies on:
  - `trim`, `includes`, `join`, the decimal rendering of integers;
  - `x || 0`;
  - removal of one position;
  - `reduce` as a left-to-right sum.
- **Quotation** (`quotation.dfy`) models the quotation page's form state as the class `QuotationForm`:
  - the client fields, the three global pricing inputs and the line items;
  - the subtotal, tax and total;
  - the parallel lists of offered styles, touched flags and validation messages.

  Each event handler is a method. So are the two effects that re-price
  every item after a global input changes. `Valid()` is the invariant
  every handler keeps:
  - one slot of every parallel list per item;
  - subtotal = total = the sum of the amounts, and no tax;
  - a discount within [0, 100];
  - every item well formed.

  Pure functions beside the class say what a handler does to one item or to
  the list, and lemmas state their meaning.
- **Invoice** (`invoice.dfy`) models the invoice page as the class `InvoiceForm`. Its invariant is that:
  - every line total is quantity × unit price;
  - the subtotal is their sum;
  - the tax is 10% of the subtotal;
  - the total is subtotal + tax.

  Every handler preserves it.

Numbers are `real`: the model calculates exactly, not in binary floating
point. Year counts are integers. A string the source parses with
`parseFloat`, `parseInt` or `Number` arrives as `Option`, where `None` is
NaN. The source's `null` price of a contact-required tier is `None`.

Several quirks of the source are modelled as written and stated as lemmas.
None of them was changed:

- `calculateLicensePrice(...) || 0` turns the contact tier's `null` into a price of 0 (`ContactTierItemsCostNothing`).
- The item handlers re-price an item only when its base price is positive (`RepricedIfPositiveEffect`).
- Choosing a family outside the catalog still stores the family name but leaves the typeface label stale (`UnknownFamilyEdit`, `UnknownFamilyLeavesStaleName`).
- A style change relabels the item without re-pricing it (`VariantEdit`).
- `addItem` labels the new item with the bare tier name, whereas the effect writes the long label (`NewItemLabelDiffersFromEffect`).
- `isFormValid` tests for empty strings while `validateItemField` tests for blank ones (`ValidationStricterThanCompleteness`).
- For zero years the explanation quotes "0% of perpetual price", while `calculateLicensePrice` applies the duration only when `durationYears > 0` and so charges the full price (`ZeroYearsMisquoted`). The quotation form never stores fewer than one year.

## Model

| member | source | states |
|---|---|---|
| Catalog.FindTypeface | utils/typeface-data.ts:265-268 | the lookup misses exactly when no family has that name, and otherwise returns the first entry with that name |
| Catalog.FindBusinessSize | utils/typeface-data.ts:233 | the tier lookup misses exactly when no tier has that id, and otherwise returns the first tier with that id |
| Catalog.FindFileFormatOption | utils/typeface-data.ts:276 | the format lookup misses exactly when no option has that id, and otherwise returns the first option with that id |
| Catalog.TypefaceByFamily | utils/typeface-data.ts:265-268 | `getTypefaceByFamily` misses exactly when no catalog family has the name, and otherwise returns a catalog entry of that family |
| Catalog.TypefacesWellFormed | utils/typeface-data.ts:2-100 | every family has at least one style, a positive base price and a style count equal to its list of styles; family names are unique |
| Catalog.BusinessSizesWellFormed | utils/typeface-data.ts:102-154 | only "custom" is contact-required and only it has no multiplier; the other multipliers are positive; tier ids are unique |
| Catalog.TypefaceLookup | utils/typeface-data.ts:265-268 | every catalog family is found by its own name |
| Catalog.BusinessSizeLookup | utils/typeface-data.ts:233 | every catalog tier is found by its own id |
| Catalog.TierMultipliersNonDecreasing | utils/typeface-data.ts:102-154 | along the order individual, xs, s, m, l, xl the multipliers are present and never decrease |
| Catalog.DefaultTypefaceLookup | utils/typeface-data.ts:93-98 | "YTF Gióng" is found with styles Roman and Italic and base price 100 |
| Catalog.LanguageCutForVariant | utils/typeface-data.ts:167-193 | every label begins with "Latin, " |
| Catalog.ItalicCut | utils/typeface-data.ts:169-170 | a style whose name contains "Italic" gets "Latin, Italic", whatever else it says |
| Catalog.NotItalic | utils/typeface-data.ts:169 | a name without a capital I does not contain "Italic" |
| Catalog.UnknownCutIsMedium | utils/typeface-data.ts:171-192 | a non-italic style outside the ten named ones falls back to "Latin, Medium" |
| Catalog.RegularGetsMediumCut | utils/typeface-data.ts:167-193 | "Regular", which several families have, gets "Latin, Medium" |
| Pricing.DurationMultiplier | utils/typeface-data.ts:196-221 | the share of the perpetual price is never negative, and at least 70% for one year or more |
| Pricing.DurationMultiplierClosedForm | utils/typeface-data.ts:196-221 | one year is 0.7, and n ≥ 2 years is 1.35 + 0.6·(n − 2) |
| Pricing.CalculateDurationMultiplier | utils/typeface-data.ts:200-221 | the step-by-step accumulation equals the per-year sum for every year count, 0 included |
| Pricing.DurationMultiplierValues | utils/typeface-data.ts:200-221 | 0 for 0 and negative years, 0.7, 1.35, 1.95 and 3.15 for 1, 2, 3 and 5 years |
| Pricing.DurationMultiplierStrictlyIncreasing | utils/typeface-data.ts:196-221 | for 1 ≤ m < n a licence of n years costs strictly more than one of m years |
| Pricing.DurationMultiplierFrontLoaded | utils/typeface-data.ts:212-218 | from the third year on each year adds exactly 0.6, so n years cost less than n first years |
| Pricing.TierPrice | utils/typeface-data.ts:238-262 | without the format surcharge, a yearly duration or a discount, the price is the base price times the tier multiplier |
| Pricing.LicensePrice | utils/typeface-data.ts:224-263 | the price is `null` exactly for a contact-required catalog tier, and an unknown tier id gives the base price |
| Pricing.CalculateLicensePrice | utils/typeface-data.ts:224-263 | the running-price code returns exactly the rule-by-rule specification |
| Pricing.ScaledPrice | utils/typeface-data.ts:240-262 | the conditional `*=` chain after the tier step equals the composition of the four rules |
| Pricing.ContactTierHasNoPrice | utils/typeface-data.ts:235 | the contact-required tier has no price, whatever the other inputs |
| Pricing.CatalogTierPrice | utils/typeface-data.ts:233-262 | every priced catalog tier yields its multiplier times the base price, then the remaining rules |
| Pricing.UnknownTierKeepsBasePrice | utils/typeface-data.ts:234 | an id that no tier has returns the base price unchanged, ignoring every other input |
| Pricing.PricedTierPrice | utils/typeface-data.ts:233-262 | a found, non-contact tier yields a price, computed from its multiplier |
| Pricing.SingleFormatNoSurcharge | utils/typeface-data.ts:247-250 | without both formats the price is not doubled |
| Pricing.NonPositiveDiscountIgnored | utils/typeface-data.ts:257-260 | a custom percentage of 0 or less leaves the price unchanged |
| Pricing.ScaleCommutes | utils/typeface-data.ts:257-260 | the custom discount commutes with scaling |
| Pricing.AdjustLinear | utils/typeface-data.ts:240-262 | the rules after the tier step are linear in the price |
| Pricing.ApplyDurationMonotone | utils/typeface-data.ts:240-245 | the duration rule preserves order and sign |
| Pricing.ApplyCustomDiscountMonotone | utils/typeface-data.ts:257-260 | a discount of at most 100% preserves order and sign |
| Pricing.AdjustMonotone | utils/typeface-data.ts:240-262 | the whole rule chain preserves order and sign |
| Pricing.DurationStep | utils/typeface-data.ts:238-245 | with a perpetual licence or no years the pre-format price is the base price times the tier multiplier, and a custom licence multiplies it by the duration multiplier |
| Pricing.FormatDoubling | utils/typeface-data.ts:247-250 | choosing both formats costs exactly twice a single format |
| Pricing.DiscountsStack | utils/typeface-data.ts:252-260 | the non-profit and custom discounts multiply; 30% and 20% together leave 56% |
| Pricing.DiscountBounds | utils/typeface-data.ts:252-260 | with a discount in [0, 100] the price lies between 0 and the undiscounted price |
| Pricing.MonotoneInTierMultiplier | utils/typeface-data.ts:238-262 | a larger tier multiplier never gives a smaller price |
| Pricing.MonotoneAlongCatalogOrder | utils/typeface-data.ts:102-154 | a later priced tier in the catalog never costs less than an earlier one |
| Pricing.WorkedExample | utils/typeface-data.ts:224-263 | base 100 at tier m: 500, 1000 with both formats, 700 as non-profit, 630 with a further 10% |
| Formatting.FormatName | utils/typeface-data.ts:275-278 | a known id shows its option's name; an unknown id shows itself |
| Formatting.FormatNames | utils/typeface-data.ts:274-279 | one display name per id, in input order |
| Formatting.FormatNamesConcat | utils/typeface-data.ts:274-279 | the names of two lists concatenated are the two name lists concatenated |
| Formatting.FormatFileFormats | utils/typeface-data.ts:271-280 | no format renders as "", and a list starts with the display name of its first format |
| Formatting.FormatFileFormatsConcat | utils/typeface-data.ts:271-280 | two non-empty selections render as their renderings with one "; " between them |
| Formatting.FormatFileFormatsSingle | utils/typeface-data.ts:271-280 | a single id renders as its display name, and an unknown id verbatim |
| Formatting.FormatFileFormatsCatalog | utils/typeface-data.ts:156-159 | each catalog format alone renders as "OTF, TTF" or "WOFF, WOFF2" |
| Formatting.FormatFileFormatsBoth | utils/typeface-data.ts:271-280 | the two catalog formats together render as "OTF, TTF; WOFF, WOFF2" |
| Formatting.FormatDuration | utils/typeface-data.ts:283-290 | every duration type other than "custom" displays as "Perpetual", and a custom duration starts with its year count and " Year" |
| Formatting.FormatDurationYears | utils/typeface-data.ts:286-287 | one year displays as "1 Year", more years as "N Years" |
| Formatting.FormatDurationInjective | utils/typeface-data.ts:286-287 | different year counts of a custom licence display differently |
| Formatting.LastCharOfDuration | utils/typeface-data.ts:287 | a custom duration label ends in "s" exactly for more than one year |
| Formatting.DurationPercent | utils/typeface-data.ts:302-303 | the printed percentage is 100 times the duration multiplier |
| Formatting.DurationPricingExplanation | utils/typeface-data.ts:293-307 | the explanation is empty exactly for a type other than "perpetual" and "custom" |
| Formatting.ExplanationQuotesMultiplier | utils/typeface-data.ts:301-303 | for three or more years the explanation ends with the percentage it prints, `multiplier * 100` |
| Formatting.QuotedPercentIsCharged | utils/typeface-data.ts:241-244 | for one year or more the duration step charges exactly the quoted percentage of the price |
| Formatting.ZeroYearsMisquoted | utils/typeface-data.ts:301-303 | for zero years the text quotes 0% of the perpetual price, while the duration step, guarded by `durationYears > 0` at line 241, leaves the price whole |
| Formatting.ExplanationFixedTexts | utils/typeface-data.ts:296-300 | the fixed one- and two-year texts quote exactly 70% and 135%, the rates charged |
| Text.TrimStart | app/quotation/page.tsx:335-337 | the result is a suffix, the removed prefix is whitespace, and it does not start with whitespace |
| Text.TrimEnd | app/quotation/page.tsx:335-337 | the result is a prefix, the removed suffix is whitespace, and it does not end with whitespace |
| Text.TrimEmptyIffBlank | app/quotation/page.tsx:335-337 | `trim()` returns "" exactly for blank strings |
| Text.ContainsIffOccurs | utils/typeface-data.ts:169 | `includes` holds exactly when the substring occurs at some position |
| Text.ContainsFirstChar | utils/typeface-data.ts:169 | a string that includes a non-empty substring contains its first character |
| Text.JoinConcat | utils/typeface-data.ts:279 | joining two non-empty lists puts exactly one separator between them |
| Text.NatToString | utils/typeface-data.ts:287 | at least one character, all digits, no leading zero |
| Text.NatToStringRoundTrip | utils/typeface-data.ts:287 | reading the digits back gives the number |
| Text.IntToStringRoundTrip | utils/typeface-data.ts:287 | the rendering of an integer reads back as that integer |
| Text.IntToStringInjective | utils/typeface-data.ts:287 | different integers render differently |
| Common.RemoveAt | app/quotation/page.tsx:767-770 | the element at the position leaves and the others keep their order; an index that is not a position removes nothing |
| Common.RemoveAll | app/quotation/page.tsx:444-446 | `filter(f => f !== x)`: an element remains exactly when it was there and is not x, the list never grows, a list without x is returned as it is, and a list without duplicates keeps none |
| Common.RemoveAllMultiset | app/quotation/page.tsx:444-446 | every copy of x leaves and every other element keeps its number of copies |
| Common.RemoveAllConcat | app/quotation/page.tsx:444-446 | filtering a concatenation filters each part and keeps them in order |
| Common.RemoveAllAppend | app/quotation/page.tsx:438-446 | appending x and then removing every x is removing every x |
| Common.SumUpdate | app/quotation/page.tsx:626 | overwriting one term changes the sum by the difference |
| Common.SumRemoveAt | app/quotation/page.tsx:773 | removing one term takes it out of the sum |
| Common.SumNonNegative | app/invoice/page.tsx:66 | a sum of non-negative terms is non-negative |
| Quotation.Amounts | app/quotation/page.tsx:626 | one amount per item, in order |
| Quotation.TotalUpdate | app/quotation/page.tsx:626-627 | replacing one item moves the subtotal by the difference of its amounts |
| Quotation.TotalAppend | app/quotation/page.tsx:726-744 | appending an item adds its amount to the subtotal |
| Quotation.TotalRemoveAt | app/quotation/page.tsx:767-774 | removing an item takes its amount out of the subtotal |
| Quotation.ClampDiscount | app/quotation/page.tsx:373-378 | the percentage lies in [0, 100]: NaN is 0, values in range are kept, lower values become 0 and higher ones 100 |
| Quotation.ClampYears | app/quotation/page.tsx:532-535 | the year count is at least 1: NaN is 1, counts of 1 or more are kept, smaller ones become 1 |
| Quotation.ClampIdempotent | app/quotation/page.tsx:373-378 | clamping a clamped value again keeps it |
| Quotation.ToggleFormat | app/quotation/page.tsx:434-446 | the format is in the new list exactly when checked, and the list grows by at most one |
| Quotation.ToggleFormatEffect | app/quotation/page.tsx:434-449 | the format is present exactly when checked, every other format is kept, nothing else is added, and no duplicate appears |
| Quotation.ToggleFormatRoundTrip | app/quotation/page.tsx:434-449 | checking an absent format and unchecking it again restores the list |
| Quotation.Repriced | app/quotation/page.tsx:285-301 | one item per item, and only the amounts change |
| Quotation.Relabelled | app/quotation/page.tsx:244-267 | every item gets the label and nothing else changes |
| Quotation.RepricedEffect | app/quotation/page.tsx:240-280 | re-pricing changes amounts only, leaves every item priced, and leaves a list unchanged exactly when it was already priced |
| Quotation.RepricedIdempotent | app/quotation/page.tsx:283-313 | re-pricing twice is re-pricing once |
| Quotation.RelabelCommutes | app/quotation/page.tsx:244-267 | writing the licence label does not change any price |
| Quotation.ContactTierItemsCostNothing | app/quotation/page.tsx:252-261 | under the contact tier every item is priced 0, because `null` becomes 0 |
| Quotation.RepricedIfPositiveEffect | app/quotation/page.tsx:455-466 | only the amount changes; a positive base price is re-priced and any other base price leaves the item as it was |
| Quotation.GateDurations | app/quotation/page.tsx:386-404 | one item per item, and outside "xl" and "custom" no custom duration remains |
| Quotation.GateDurationsEffect | app/quotation/page.tsx:386-404 | outside "xl" and "custom" no custom duration remains; custom items become perpetual for one year and the rest stay; amounts never change |
| Quotation.GateDurationsIdempotent | app/quotation/page.tsx:386-404 | gating twice is gating once |
| Quotation.EditedItem | app/quotation/page.tsx:572-623 | the edited field takes the new family, style (with its cut) or amount (NaN as 0); formats, duration and licence label never change |
| Quotation.CatalogFamilyEdit | app/quotation/page.tsx:578-601 | a catalog family moves the item to its first style, cut, base price and label, re-prices it, offers its styles, and changes nothing else |
| Quotation.CatalogFamily | utils/typeface-data.ts:265-268 | a family the lookup finds has styles and a positive price |
| Quotation.UnknownFamilyEdit | app/quotation/page.tsx:578-623 | a family outside the catalog is only written into the family field; the offered styles stay |
| Quotation.UnknownFamilyLeavesStaleName | app/quotation/page.tsx:578-623 | after "Arial" the initial item names family Arial but is still labelled "YTF Gióng Roman" |
| Quotation.VariantEdit | app/quotation/page.tsx:603-609 | a style change rewrites the style, cut and label, keeps the base price and amount, and is flagged exactly when blank |
| Quotation.AmountEdit | app/quotation/page.tsx:611-616 | a direct amount edit stores the parsed number, NaN as 0, and changes nothing else |
| Quotation.ValidateItemField | app/quotation/page.tsx:332-342 | only the family, style and formats fields can be rejected, the formats exactly when empty |
| Quotation.ValidateItemFieldMeaning | app/quotation/page.tsx:332-342 | family and style are rejected exactly when blank, formats exactly when empty, and other fields are never rejected |
| Quotation.ValidationStricterThanCompleteness | app/quotation/page.tsx:830-837 | an item valid on all three fields is complete, but a one-space family is complete and still rejected |
| Quotation.ValidItemIsComplete | app/quotation/page.tsx:332-342 | an item that passes validation on family, style and formats is complete |
| Quotation.OneSpaceFamilyRejected | app/quotation/page.tsx:335-337 | a family of one space is rejected with "Typeface family is required" |
| Quotation.InitialItemPriced | app/quotation/page.tsx:120-139 | the initial item costs its base price of 100 at the individual tier and is priced |
| Quotation.LookupDefaultTypeface | app/quotation/page.tsx:708 | the lookup of "YTF Gióng" returns the last catalog entry |
| Quotation.NewItem | app/quotation/page.tsx:707-740 | the new item is a YTF Gióng item in OTF/TTF, perpetual for one year, whose label and cut are built from its style |
| Quotation.NewItemIsDefault | app/quotation/page.tsx:707-740 | whether or not the default family is found, the new item is YTF Gióng Roman, perpetual, one year, OTF/TTF, base 100, priced under the current globals |
| Quotation.NewItemLabelDiffersFromEffect | app/quotation/page.tsx:736 | `addItem` writes "Individual" while the effect writes "Individual License (No commercial use)" |
| Quotation.ListUpdatesKeepWellFormed | app/quotation/page.tsx:240-313 | re-pricing, relabelling and gating keep every item well formed |
| Quotation.ItemUpdatesKeepWellFormed | app/quotation/page.tsx:434-569 | the format, duration-type and duration-year changes keep an item well formed and leave it priced |
| Quotation.EditKeepsWellFormed | app/quotation/page.tsx:572-623 | every family, style or amount edit keeps an item well formed |
| Quotation.NewItemWellFormed | app/quotation/page.tsx:707-740 | the item `addItem` appends is well formed |
| Quotation.RemoveAtKeepsWellFormed | app/quotation/page.tsx:764-767 | removing an item keeps the rest well formed |
| Quotation.ToggleFormatIdempotent | app/quotation/page.tsx:434-446 | toggling a format again with the same checkbox state changes nothing |
| Quotation.RepricedIfPositiveIdempotent | app/quotation/page.tsx:455-466 | re-pricing an item the gate has re-priced leaves it as it is |
| Quotation.EditedItemIdempotent | app/quotation/page.tsx:572-623 | applying the same family, style or amount edit twice is applying it once |
| Quotation.ItemHandlersIdempotent | app/quotation/page.tsx:434-569 | the format, duration-type and duration-year changes, replayed with the same input, produce the same item again |
| Quotation.FreshFormIncomplete | app/quotation/page.tsx:830-837 | a fresh form cannot be submitted, although its item is complete |
| Quotation.QuotationForm.IsFormValid | app/quotation/page.tsx:830-837 | client name, email and tier are non-empty and some item has a family, a style and a format |
| Quotation.QuotationForm.constructor | app/quotation/page.tsx:111-211 | the initial state: one priced default item costing 100, individual tier, no discounts, one slot in each parallel list |
| Quotation.QuotationForm.HandleCustomDiscountChange | app/quotation/page.tsx:373-378 | only the percentage changes, to its clamped value |
| Quotation.QuotationForm.HandleNonProfitDiscountChange | app/quotation/page.tsx:381-383 | only the non-profit flag changes |
| Quotation.QuotationForm.HandleBusinessSizeChange | app/quotation/page.tsx:386-404 | stores the tier and gates the custom durations; the sums stay |
| Quotation.QuotationForm.RepriceAfterGlobalChange | app/quotation/page.tsx:240-280 | an unknown tier changes nothing; a known tier relabels and re-prices every item, and the sums follow |
| Quotation.QuotationForm.RepriceAfterDiscountChange | app/quotation/page.tsx:283-313 | every item is re-priced under the current globals, labels untouched, and the sums follow |
| Quotation.QuotationForm.HandleFileFormatChange | app/quotation/page.tsx:434-493 | toggles the format, re-prices the item, moves the subtotal by its change, and refreshes the format message only when touched |
| Quotation.QuotationForm.HandleDurationTypeChange | app/quotation/page.tsx:496-529 | stores the type, re-prices the item and moves the subtotal by its change |
| Quotation.QuotationForm.HandleDurationYearsChange | app/quotation/page.tsx:532-569 | stores the clamped count (at least 1), re-prices the item and moves the subtotal by its change |
| Quotation.QuotationForm.HandleItemChange | app/quotation/page.tsx:572-653 | the item, its offered styles and its messages take the edit, the subtotal moves by the change of that amount, and nothing else changes |
| Quotation.QuotationForm.ChangeFamily | app/quotation/page.tsx:578-601 | the family branch of the item edit, with the same whole-state contract |
| Quotation.QuotationForm.ChangeVariant | app/quotation/page.tsx:603-609 | the style branch of the item edit, with the same whole-state contract |
| Quotation.QuotationForm.ChangeAmount | app/quotation/page.tsx:611-616 | the amount branch of the item edit, with the same whole-state contract |
| Quotation.QuotationForm.SetItems | app/quotation/page.tsx:268-279 | stores the items and recomputes subtotal = total = the sum of the amounts |
| Quotation.QuotationForm.ReplaceItem | app/quotation/page.tsx:619-627 | replaces one item and moves the subtotal by the difference of its amounts |
| Quotation.QuotationForm.AddItem | app/quotation/page.tsx:707-760 | appends the default item and a slot to each parallel list; the subtotal grows by the new amount |
| Quotation.QuotationForm.RemoveItem | app/quotation/page.tsx:764-794 | nothing changes with one item or an index that is not a position; otherwise that position leaves every list and the subtotal loses its amount |
| Quotation.QuotationForm.RemovePosition | app/quotation/page.tsx:767-794 | the removing branch: exactly that position leaves the items and every parallel list, in order, and the subtotal loses its amount |
| Invoice.EditedItem | app/invoice/page.tsx:52-63 | the edited field takes the new value (NaN as 0), the other fields keep theirs, and the total is quantity × unit price |
| Invoice.EditIdempotent | app/invoice/page.tsx:52-63 | repeating an edit changes nothing more |
| Invoice.EditsCommute | app/invoice/page.tsx:52-63 | edits of two different fields can be made in either order |
| Invoice.DescriptionKeepsTotal | app/invoice/page.tsx:60-63 | a description edit keeps a consistent line's total |
| Invoice.UnparseableZeroesLine | app/invoice/page.tsx:56-58 | an unparseable quantity or unit price is stored as 0 and zeroes the line |
| Invoice.LineTotals | app/invoice/page.tsx:66 | one line total per item, in order |
| Invoice.SubtotalUpdate | app/invoice/page.tsx:63-66 | overwriting one line moves the subtotal by the difference of its totals |
| Invoice.SubtotalAppend | app/invoice/page.tsx:79-84 | appending a line adds its total to the subtotal |
| Invoice.SubtotalRemoveAt | app/invoice/page.tsx:89-92 | removing a line takes its total out of the subtotal |
| Invoice.SubtotalNonNegative | app/invoice/page.tsx:66 | with no negative quantity or price the subtotal is not negative |
| Invoice.AddThenRemoveLast | app/invoice/page.tsx:79-89 | appending a blank line and removing the last line again restores the list |
| Invoice.InvoiceNumber | app/invoice/page.tsx:26 | "INV-" followed by exactly five digits |
| Invoice.FiveDigits | app/invoice/page.tsx:26 | numbers from 10000 to 99999 render as five digits |
| Invoice.TotalIsSubtotalPlusTax | app/invoice/page.tsx:67-68 | in a consistent form the total is the subtotal plus 10% |
| Invoice.BlankLinesNotBillable | app/invoice/page.tsx:105-113 | a form whose lines are all blank cannot be issued, whatever its header says |
| Invoice.EditsMakeBillable | app/invoice/page.tsx:52-63 | describing a line and giving it a positive quantity and price makes it billable |
| Invoice.FilledFormIsValid | app/invoice/page.tsx:105-113 | with the client name, company, email and invoice number filled in, a line that was described and given a positive quantity and price makes the form ready to issue |
| Invoice.InvoiceForm.IsFormValid | app/invoice/page.tsx:105-113 | client name, company, email and invoice number are non-empty and some line has a description and a positive total |
| Invoice.InvoiceForm.constructor | app/invoice/page.tsx:20-36 | the initial state: empty client fields, the drawn invoice number, the default notes and payment details, one blank line and zero sums |
| Invoice.InvoiceForm.HandleInputChange | app/invoice/page.tsx:43-46 | exactly the named header field takes the value |
| Invoice.InvoiceForm.SetItems | app/invoice/page.tsx:65-75 | stores the lines and recomputes the subtotal, the 10% tax and the total |
| Invoice.InvoiceForm.HandleItemChange | app/invoice/page.tsx:52-77 | the line takes the edit, its total is recomputed, the subtotal moves by that change, and tax and total follow |
| Invoice.InvoiceForm.AddItem | app/invoice/page.tsx:79-84 | appends a blank line; the subtotal, tax and total stay, and remain consistent |
| Invoice.InvoiceForm.RemoveItem | app/invoice/page.tsx:86-103 | nothing changes with one line or an index that is not a position; otherwise exactly that line leaves, in order, and the sums are recomputed |

## Left out

- Parsing: `Number.parseFloat`, `Number.parseInt` and `Number` on input strings are not modelled. Their results are `Option` parameters, with `None` for NaN.
- Floating point: money is exact `real`, so IEEE rounding and `toFixed(0)` are not modelled (the explanation prints the exact percentage, always an integer for whole years). The invoice tax `subtotal * 0.1` is exactly a tenth.
- JavaScript typing: `durationYears` is a whole number; the defaults of omitted optional arguments and `durationYears` values that are not integers are not modelled.
- React: the effect scheduling (which effect runs after which `setFormData`, and batching) is not modelled. The two re-pricing effects are separate methods that a caller runs after a global change. A tier change triggers only the effect at app/quotation/page.tsx:240-280, so `RepriceAfterGlobalChange` alone stands for it. A discount change triggers both effects (dependencies at lines 280 and 313). Both compute their items from the same pre-effect state, and the second `setFormData` (lines 306-311) replaces the relabelled list of the first. So after a discount change only `RepriceAfterDiscountChange` stands for the source: prices are refreshed but licence labels are not. For example, an item added under tier "s" keeps the label "S" through a non-profit toggle. The same holds on mount, where both effects run.
- Quotation form, fields and state: only the client name and email, among the client fields, and only three touched flags and messages per item are kept. The rest of the touched and error state, `handleInputChange`, `handleBlur`, `handleItemBlur`, `handleBusinessSizeBlur`, `handleSelectChange`, the email check of `validateField`, `validateForm`, the billing address, and the quotation number and date (clock and randomness) are left out.
- Quotation form, item edits: the page reaches `handleItemChange` only through `handleSelectChange` (app/quotation/page.tsx:656-657), and only for the family and style (lines 1108 and 1146). The amount branch (lines 611-616) is modelled as the code has it, although the page never calls it. The generic `[field]: value` write of any other field is left out.
- Quotation form, aliasing: the handlers copy the items array and put a new object at the edited position (`newItems[index] = {...}`, app/quotation/page.tsx:449-452, 500-503, 540-543, 613-623), and the effects spread every item (lines 263-267), so no earlier item object is changed. The later `amount` writes go into those new objects. All of this is modelled as value updates of a `seq` field.
- Invoice form, aliasing: `handleItemChange` writes into the shared item object in place, which is likewise a value update here.
- Invoice form, omitted fields: the invoice dates (clock), `handleFontSelection` and the selected fonts are left out.
- PDF generation, the EULA editor, currency conversion, font conversion and the UI-only pages are not part of this model.
- Catalog.UnknownCutIsMedium: the fallback is stated for styles outside the ten named ones; the label of each named style is not stated one by one.
- Pricing.MonotoneAlongCatalogOrder: stated on the tier step (`TierPrice`), with `Pricing.CatalogTierPrice` linking it to `LicensePrice`.
