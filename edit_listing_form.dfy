/**
 * The listing edit form: it splits a stored price range and area back into
 * value and unit, lets the user edit them, previews the change and sends
 * it, and hands the updated record back to the list it came from.
 */
module EditListingForm {
  import opened Wrappers
  import opened Strings
  import opened ListingData

  /** The index of the first option `s` ends with, or `|options|` when there is none. */
  function FirstSuffixIndex(s: string, options: seq<string>): (k: nat)
    ensures k <= |options|
    ensures k < |options| ==> EndsWith(s, options[k])
    ensures forall j :: 0 <= j < k ==> !EndsWith(s, options[j])
  {
    if options == [] then 0
    else if EndsWith(s, options[0]) then 0
    else 1 + FirstSuffixIndex(s, options[1..])
  }

  /** `options.find(o => s.endsWith(o)) || fallback`. */
  function DetectSuffix(s: string, options: seq<string>, fallback: string): (r: string)
    ensures r == fallback || (r in options && EndsWith(s, r))
    ensures (exists i :: 0 <= i < |options| && EndsWith(s, options[i])) ==> r in options && EndsWith(s, r)
  {
    var k := FirstSuffixIndex(s, options);
    if k < |options| then options[k] else fallback
  }

  /** `s.replace(new RegExp(` ${unit}$`), '')`: one trailing space-and-unit is dropped. */
  function StripUnit(s: string, unit: string): (r: string)
    ensures EndsWith(s, " " + unit) ==> r + " " + unit == s
    ensures !EndsWith(s, " " + unit) ==> r == s
  {
    if EndsWith(s, " " + unit) then s[..|s| - |unit| - 1] else s
  }

  /** A value with its unit, as the form holds them in two fields. */
  datatype Quantity = Quantity(value: string, unit: string)

  /** The detected unit, and the text without it, trimmed. */
  function ParseQuantity(s: string, options: seq<string>, fallback: string): (q: Quantity)
    ensures q.unit in options || q.unit == fallback
    ensures Trimmed(q.value)
  {
    TrimIsTrimmed(StripUnit(s, DetectSuffix(s, options, fallback)));
    var unit := DetectSuffix(s, options, fallback);
    Quantity(Trim(StripUnit(s, unit)), unit)
  }

  /** The stored price range split into bracket and currency. */
  function ParsePriceRange(s: string): (q: Quantity)
    ensures q.unit in Currencies && Trimmed(q.value)
  {
    ParseQuantity(s, Currencies, "USD")
  }

  /** The stored area split into value and unit. */
  function ParseArea(s: string): (q: Quantity)
    ensures q.unit in AreaUnits && Trimmed(q.value)
  {
    ParseQuantity(s, AreaUnits, "sq ft")
  }

  /** The form values the load effect derives from a listing record. */
  function LoadForm(l: Listing): (f: ListingForm)
    ensures f.priceCurrency in Currencies && f.areaUnit in AreaUnits
    ensures f.propertyType != "" && f.constructionStatus != ""
  {
    var price := ParsePriceRange(FieldOr(l, "Price_Range", ""));
    var area := ParseArea(FieldOr(l, "Area", ""));
    DetectedUnitListed(FieldOr(l, "Price_Range", ""), Currencies, "USD");
    DetectedUnitListed(FieldOr(l, "Area", ""), AreaUnits, "sq ft");
    ListingForm(
      FieldOr(l, "Name", ""), FieldOr(l, "Email", ""), FieldOr(l, "Phone_Number", ""),
      FieldOr(l, "Location_", ""), price.value, price.unit,
      FieldOr(l, "Property_Type", "House"), area.value, area.unit,
      FieldOr(l, "Construction_Status", "Ready to move"))
  }

  /**
   * Field by field: the text fields are the record's (`''` when absent), type
   * and status fall back to `House` and `Ready to move` when absent or empty,
   * and price and area are the parses of the `||`-defaulted strings.
   */
  lemma LoadFields(l: Listing)
    ensures ("Name" in l ==> LoadForm(l).name == l["Name"]) && ("Name" !in l ==> LoadForm(l).name == "")
    ensures ("Email" in l ==> LoadForm(l).email == l["Email"]) && ("Email" !in l ==> LoadForm(l).email == "")
    ensures ("Phone_Number" in l ==> LoadForm(l).phoneNumber == l["Phone_Number"]) && ("Phone_Number" !in l ==> LoadForm(l).phoneNumber == "")
    ensures ("Location_" in l ==> LoadForm(l).location == l["Location_"]) && ("Location_" !in l ==> LoadForm(l).location == "")
    ensures "Property_Type" in l && l["Property_Type"] != "" ==> LoadForm(l).propertyType == l["Property_Type"]
    ensures ("Property_Type" !in l || l["Property_Type"] == "") ==> LoadForm(l).propertyType == "House"
    ensures "Construction_Status" in l && l["Construction_Status"] != "" ==> LoadForm(l).constructionStatus == l["Construction_Status"]
    ensures ("Construction_Status" !in l || l["Construction_Status"] == "") ==> LoadForm(l).constructionStatus == "Ready to move"
    ensures Quantity(LoadForm(l).priceRange, LoadForm(l).priceCurrency) == ParsePriceRange(FieldOr(l, "Price_Range", ""))
    ensures Quantity(LoadForm(l).area, LoadForm(l).areaUnit) == ParseArea(FieldOr(l, "Area", ""))
  {
  }

  /** The record fields the edit writes back. */
  const EditedKeys: set<string> :=
    {"Name", "Email", "Phone_Number", "Location_", "Price_Range", "Property_Type", "Area", "Construction_Status"}

  /** `updatedStateObject`: the listing with its eight editable fields overwritten. */
  function ApplyEdit(l: Listing, f: ListingForm): Listing
  {
    l + map["Name" := f.name, "Email" := f.email, "Phone_Number" := f.phoneNumber,
            "Location_" := f.location, "Price_Range" := Compose(f.priceRange, f.priceCurrency),
            "Property_Type" := f.propertyType, "Area" := Compose(f.area, f.areaUnit),
            "Construction_Status" := f.constructionStatus]
  }

  /** The request body: the form body plus the listing's `id` (absent if the listing has none). */
  function EditBody(f: ListingForm, l: Listing): map<string, string>
  {
    var body := ListingFormBody(f);
    if "id" in l then body["id" := l["id"]] else body
  }

  // ---------------------------------------------------------------------------
  // Properties of parsing

  lemma DetectedUnitListed(s: string, options: seq<string>, fallback: string)
    ensures DetectSuffix(s, options, fallback) in options || DetectSuffix(s, options, fallback) == fallback
    ensures fallback in options ==> DetectSuffix(s, options, fallback) in options
  {
  }

  /** Detection tries the options in order. */
  lemma DetectSuffixStep(s: string, options: seq<string>, fallback: string)
    requires options != []
    ensures DetectSuffix(s, options, fallback)
            == if EndsWith(s, options[0]) then options[0] else DetectSuffix(s, options[1..], fallback)
  {
  }

  /** The detected currency is the first of USD, PKR that the text ends with, else USD. */
  lemma CurrencyDetection(s: string)
    ensures ParsePriceRange(s).unit
            == if EndsWith(s, "USD") then "USD" else if EndsWith(s, "PKR") then "PKR" else "USD"
  {
    DetectSuffixStep(s, Currencies, "USD");
    assert Currencies[1..] == ["PKR"];
    DetectSuffixStep(s, ["PKR"], "USD");
    assert ["PKR"][1..] == [];
  }

  /** The detected unit is the first of sq ft, marla, kanal that the text ends with, else sq ft. */
  lemma AreaUnitDetection(s: string)
    ensures ParseArea(s).unit
            == if EndsWith(s, "sq ft") then "sq ft" else if EndsWith(s, "marla") then "marla"
               else if EndsWith(s, "kanal") then "kanal" else "sq ft"
  {
    DetectSuffixStep(s, AreaUnits, "sq ft");
    assert AreaUnits[1..] == ["marla", "kanal"];
    DetectSuffixStep(s, ["marla", "kanal"], "sq ft");
    assert ["marla", "kanal"][1..] == ["kanal"];
    DetectSuffixStep(s, ["kanal"], "sq ft");
    assert ["kanal"][1..] == [];
  }

  /** A unit written without the separating space is not stripped: the whole text is kept, trimmed. */
  lemma UnitWithoutSpaceKept(s: string, options: seq<string>, fallback: string)
    requires !EndsWith(s, " " + DetectSuffix(s, options, fallback))
    ensures ParseQuantity(s, options, fallback).value == Trim(s)
  {
  }

  /** "100USD" is read as the bracket "100USD" in USD. */
  lemma GluedCurrencyExample()
    ensures ParsePriceRange("100USD") == Quantity("100USD", "USD")
  {
    CurrencyDetection("100USD");
    assert "100USD"[6 - 3..] == "USD";
    assert !EndsWith("100USD", " USD") by {
      assert "100USD"[6 - 4..] == "0USD";
    }
    assert Trimmed("100USD");
    TrimOfTrimmed("100USD");
  }

  /** Two texts of equal length that are both suffixes of one string are equal. */
  lemma SameLengthSuffixes(s: string, a: string, b: string)
    requires |a| == |b| && EndsWith(s, a) && EndsWith(s, b)
    ensures a == b
  {
  }

  /**
   * Parsing undoes composing, whenever the unit is an option and no
   * earlier option is also a suffix of the composed text.
   */
  lemma {:induction false} ParseCompose(p: string, u: string, options: seq<string>, fallback: string)
    requires Trimmed(p)
    requires forall o :: o in options ==> |o| == |u|
    requires u in options
    ensures ParseQuantity(Compose(p, u), options, fallback) == Quantity(p, u)
  {
    var s := Compose(p, u);
    var k := FirstSuffixIndex(s, options);
    var i :| 0 <= i < |options| && options[i] == u;
    assert EndsWith(s, options[i]);
    assert k <= i;
    SameLengthSuffixes(s, options[k], u);
    assert StripUnit(s, u) == p;
    TrimOfTrimmed(p);
  }

  /** Round trip of the price: `${p} ${c}` reads back as (p, c). */
  lemma PriceRangeRoundTrip(p: string, c: string)
    requires Trimmed(p) && c in Currencies
    ensures ParsePriceRange(Compose(p, c)) == Quantity(p, c)
  {
    ParseCompose(p, c, Currencies, "USD");
  }

  /** Round trip of the area: `${a} ${u}` reads back as (a, u). */
  lemma AreaRoundTrip(a: string, u: string)
    requires Trimmed(a) && u in AreaUnits
    ensures ParseArea(Compose(a, u)) == Quantity(a, u)
  {
    ParseCompose(a, u, AreaUnits, "sq ft");
  }

  /** Re-saving what was read and reading it again gives the same values. */
  lemma PriceRangeParseStable(s: string)
    ensures ParsePriceRange(Compose(ParsePriceRange(s).value, ParsePriceRange(s).unit)) == ParsePriceRange(s)
  {
    var q := ParsePriceRange(s);
    TrimIsTrimmed(StripUnit(s, q.unit));
    DetectedUnitListed(s, Currencies, "USD");
    PriceRangeRoundTrip(q.value, q.unit);
  }

  lemma AreaParseStable(s: string)
    ensures ParseArea(Compose(ParseArea(s).value, ParseArea(s).unit)) == ParseArea(s)
  {
    var q := ParseArea(s);
    TrimIsTrimmed(StripUnit(s, q.unit));
    DetectedUnitListed(s, AreaUnits, "sq ft");
    AreaRoundTrip(q.value, q.unit);
  }

  // ---------------------------------------------------------------------------
  // Properties of loading and saving

  /** Absent text fields load as empty; absent type and status load as the form defaults. */
  lemma LoadDefaults(l: Listing)
    requires forall k :: k in EditedKeys ==> k !in l
    ensures LoadForm(l) == ListingForm("", "", "", "", "", "USD", "House", "", "sq ft", "Ready to move")
  {
    assert Trim("") == "";
    assert !EndsWith("", "USD") && !EndsWith("", "PKR");
    CurrencyDetection("");
    AreaUnitDetection("");
  }

  /** The edit overwrites exactly the eight listing fields and keeps every other field. */
  lemma ApplyEditFrame(l: Listing, f: ListingForm)
    ensures ApplyEdit(l, f).Keys == l.Keys + EditedKeys
    ensures forall k :: k in l && k !in EditedKeys ==> ApplyEdit(l, f)[k] == l[k]
    ensures ApplyEdit(l, f)["Price_Range"] == Compose(f.priceRange, f.priceCurrency)
    ensures ApplyEdit(l, f)["Area"] == Compose(f.area, f.areaUnit)
    ensures ApplyEdit(l, f)["Name"] == f.name && ApplyEdit(l, f)["Location_"] == f.location
    ensures ApplyEdit(l, f)["Email"] == f.email && ApplyEdit(l, f)["Phone_Number"] == f.phoneNumber
    ensures ApplyEdit(l, f)["Property_Type"] == f.propertyType
    ensures ApplyEdit(l, f)["Construction_Status"] == f.constructionStatus
  {
  }

  /** The body drops currency and unit, composes price and area, and carries the listing id. */
  lemma EditBodyShape(f: ListingForm, l: Listing)
    ensures EditBody(f, l).Keys == ListingFormBody(f).Keys + (if "id" in l then {"id"} else {})
    ensures "priceCurrency" !in EditBody(f, l) && "areaUnit" !in EditBody(f, l)
    ensures EditBody(f, l)["priceRange"] == Compose(f.priceRange, f.priceCurrency)
    ensures EditBody(f, l)["area"] == Compose(f.area, f.areaUnit)
    ensures "id" in l ==> EditBody(f, l)["id"] == l["id"]
  {
  }

  /**
   * Opening the updated record in the form again shows exactly what was
   * submitted, provided the bracket and the area have no surrounding white space.
   */
  lemma ReloadAfterEdit(l: Listing, f: ListingForm, emailOk: bool)
    requires ListingSchemaValid(f, emailOk)
    requires Trimmed(f.priceRange) && Trimmed(f.area)
    ensures LoadForm(ApplyEdit(l, f)) == f
  {
    var m := ApplyEdit(l, f);
    assert m["Name"] == f.name && m["Email"] == f.email && m["Phone_Number"] == f.phoneNumber;
    assert m["Location_"] == f.location && m["Property_Type"] == f.propertyType;
    assert m["Construction_Status"] == f.constructionStatus;
    assert FieldOr(m, "Property_Type", "House") == f.propertyType;
    assert FieldOr(m, "Construction_Status", "Ready to move") == f.constructionStatus;
    assert FieldOr(m, "Price_Range", "") == Compose(f.priceRange, f.priceCurrency);
    assert FieldOr(m, "Area", "") == Compose(f.area, f.areaUnit);
    PriceRangeRoundTrip(f.priceRange, f.priceCurrency);
    AreaRoundTrip(f.area, f.areaUnit);
  }

  // ---------------------------------------------------------------------------
  // The form component

  class EditForm {
    const listing: Listing
    var values: ListingForm
    var isLoading: bool
    var showPreview: bool
    var formData: Option<ListingForm>

    /** Mounting runs the load effect on the listing. */
    constructor (listing: Listing)
      ensures this.listing == listing && values == LoadForm(listing)
      ensures !isLoading && !showPreview && formData == None
    {
      this.listing := listing;
      values := LoadForm(listing);
      isLoading, showPreview, formData := false, false, None;
    }

    /** The user picks a currency; the watch callback empties the bracket. */
    method ChangeCurrency(c: string)
      modifies this
      ensures values == old(values).(priceCurrency := c, priceRange := "")
      ensures isLoading == old(isLoading) && showPreview == old(showPreview) && formData == old(formData)
    {
      values := values.(priceCurrency := c);
      values := values.(priceRange := "");
    }

    /** The user edits any field other than the currency. */
    method Input(v: ListingForm)
      modifies this
      ensures values == v.(priceCurrency := old(values).priceCurrency)
      ensures isLoading == old(isLoading) && showPreview == old(showPreview) && formData == old(formData)
    {
      values := v.(priceCurrency := values.priceCurrency);
    }

    /** Submitting: valid values are stored and the preview opens; otherwise nothing changes. */
    method Submit(emailOk: bool)
      requires !isLoading
      modifies this
      ensures ListingSchemaValid(old(values), emailOk) ==> formData == Some(values) && showPreview
      ensures !ListingSchemaValid(old(values), emailOk) ==> formData == old(formData) && showPreview == old(showPreview)
      ensures values == old(values) && isLoading == old(isLoading)
    {
      if ListingSchemaValid(values, emailOk) {
        formData := Some(values);
        showPreview := true;
      }
    }

    /** The preview's Cancel: the stored values are dropped and the dialog closes. */
    method Cancel()
      requires !isLoading
      modifies this
      ensures formData == None && !showPreview
      ensures values == old(values) && isLoading == old(isLoading)
    {
      formData := None;
      showPreview := false;
    }

    /**
     * Confirming, up to the request: without stored values nothing happens;
     * otherwise loading starts, the preview closes and the body is sent.
     */
    method StartFinalSubmit() returns (request: Option<map<string, string>>)
      requires !isLoading
      modifies this
      ensures old(formData).None? ==> request == None && isLoading == old(isLoading) && showPreview == old(showPreview)
      ensures old(formData).Some? ==> request == Some(EditBody(old(formData).value, listing)) && isLoading && !showPreview
      ensures values == old(values) && formData == old(formData)
    {
      request := None;
      if formData.Some? {
        isLoading := true;
        showPreview := false;
        request := Some(EditBody(formData.value, listing));
      }
    }

    /**
     * The request settles with outcome `ok`: on success the updated record
     * is handed to the caller; in every case loading stops and the stored values are dropped.
     */
    method CompleteFinalSubmit(ok: bool) returns (updated: Option<Listing>)
      requires isLoading && formData.Some?
      modifies this
      ensures updated == if ok then Some(ApplyEdit(listing, old(formData).value)) else None
      ensures !isLoading && formData == None
      ensures values == old(values) && showPreview == old(showPreview)
    {
      updated := if ok then Some(ApplyEdit(listing, formData.value)) else None;
      isLoading := false;
      formData := None;
    }
  }
}
