/**
 * What the listing views and the listing forms share: the loosely typed
 * listing record as the backend returns it, the fixed option lists, the
 * ten-field listing form and the way a form is turned into a request body.
 */
module ListingData {
  import opened Strings

  /** A listing record as received: a JSON object whose string fields may be absent. */
  type Listing = map<string, string>

  /** `record[key] || fallback`: an absent field and an empty string are both falsy. */
  function FieldOr(l: Listing, key: string, fallback: string): (v: string)
    ensures key in l && l[key] != "" ==> v == l[key]
    ensures (key !in l || l[key] == "") ==> v == fallback
  {
    if key in l && l[key] != "" then l[key] else fallback
  }

  const UsdPriceRanges: seq<string> :=
    ["50,000 - 100,000", "100,001 - 250,000", "250,001 - 500,000", "500,001 - 1,000,000", "1,000,001+"]
  const PkrPriceRanges: seq<string> :=
    ["1,000,000 - 5,000,000", "5,000,001 - 10,000,000", "10,000,001 - 25,000,000",
     "25,000,001 - 50,000,000", "50,000,001+"]
  const PropertyTypes: seq<string> := ["House", "Flat", "Plot", "Commercial"]
  const ConstructionStatuses: seq<string> := ["Ready to move", "Under construction"]
  const Currencies: seq<string> := ["USD", "PKR"]
  const AreaUnits: seq<string> := ["sq ft", "marla", "kanal"]

  /** The list of price brackets a listing form offers for a currency. */
  function FormPriceBrackets(currency: string): (r: seq<string>)
    ensures currency == "USD" ==> r == UsdPriceRanges
    ensures currency != "USD" ==> r == PkrPriceRanges
    ensures r == UsdPriceRanges <==> currency == "USD"
  {
    if currency == "USD" then UsdPriceRanges else PkrPriceRanges
  }

  /** The values of the seller and edit forms (the same schema in both). */
  datatype ListingForm = ListingForm(
    name: string,
    email: string,
    phoneNumber: string,
    location: string,
    priceRange: string,
    priceCurrency: string,
    propertyType: string,
    area: string,
    areaUnit: string,
    constructionStatus: string)

  /**
   * The listing schema: required text fields are non-empty and the choice
   * fields hold one of their options. `emailOk` is the email validator's verdict.
   */
  predicate ListingSchemaValid(f: ListingForm, emailOk: bool)
  {
    && f.name != "" && emailOk && f.phoneNumber != "" && f.location != ""
    && f.priceRange != "" && f.priceCurrency in Currencies
    && f.propertyType in PropertyTypes && f.area != ""
    && f.areaUnit in AreaUnits && f.constructionStatus in ConstructionStatuses
  }

  /** A value and its unit as the forms write them: `${value} ${unit}`. */
  function Compose(value: string, unit: string): (r: string)
    ensures EndsWith(r, " " + unit)
    ensures |r| == |value| + 1 + |unit| && r[..|value|] == value
  {
    value + " " + unit
  }

  /**
   * The request body built from a listing form: every field but the
   * currency and the unit, with the price range and the area followed by them.
   */
  function ListingFormBody(f: ListingForm): (body: map<string, string>)
    ensures body.Keys == {"name", "email", "phoneNumber", "location", "priceRange",
                          "propertyType", "area", "constructionStatus"}
    ensures "priceCurrency" !in body && "areaUnit" !in body
    ensures body["priceRange"] == Compose(f.priceRange, f.priceCurrency)
    ensures body["area"] == Compose(f.area, f.areaUnit)
    ensures body["name"] == f.name && body["email"] == f.email
    ensures body["phoneNumber"] == f.phoneNumber && body["location"] == f.location
    ensures body["propertyType"] == f.propertyType
    ensures body["constructionStatus"] == f.constructionStatus
  {
    map["name" := f.name, "email" := f.email, "phoneNumber" := f.phoneNumber,
        "location" := f.location, "priceRange" := Compose(f.priceRange, f.priceCurrency),
        "propertyType" := f.propertyType, "area" := Compose(f.area, f.areaUnit),
        "constructionStatus" := f.constructionStatus]
  }
}
