/**
 * The listings browse view: seven filter criteria updated by the filter
 * controls, a per-record match predicate and the filtered projection of
 * the loaded listings.
 */
module ListingsPage {
  import opened Wrappers
  import opened Strings
  import opened ListingData

  /** The seven filter controls. */
  datatype Field = Location | Price | PropertyType | Area | Status | PriceCurrency | AreaUnit

  /** The chosen filter values; `""` means "no constraint". */
  datatype Criteria = Criteria(
    location: string,
    price: string,
    propertyType: string,
    area: string,
    status: string,
    priceCurrency: string,
    areaUnit: string)
  {
    function Get(f: Field): string
    {
      match f
      case Location => location
      case Price => price
      case PropertyType => propertyType
      case Area => area
      case Status => status
      case PriceCurrency => priceCurrency
      case AreaUnit => areaUnit
    }

    /** The record `{ ...this, [f]: v }`. */
    function With(f: Field, v: string): (r: Criteria)
      ensures r.Get(f) == v
      ensures forall g :: g != f ==> r.Get(g) == Get(g)
    {
      match f
      case Location => this.(location := v)
      case Price => this.(price := v)
      case PropertyType => this.(propertyType := v)
      case Area => this.(area := v)
      case Status => this.(status := v)
      case PriceCurrency => this.(priceCurrency := v)
      case AreaUnit => this.(areaUnit := v)
    }
  }

  const NoCriteria := Criteria("", "", "", "", "", "", "")

  /** A select's "all" entry stands for no constraint. */
  function SelectionValue(v: string): (r: string)
    ensures r == "" <==> v == "all" || v == ""
    ensures r != "" ==> r == v
  {
    if v == "all" then "" else v
  }

  /** The price brackets offered by the price select for the chosen currency. */
  function PriceBrackets(currency: string): (r: seq<string>)
    ensures currency == "PKR" ==> r == PkrPriceRanges
    ensures currency != "PKR" ==> r == UsdPriceRanges
    ensures r == PkrPriceRanges <==> currency == "PKR"
  {
    if currency == "PKR" then PkrPriceRanges else UsdPriceRanges
  }

  /** The filter state of one browse view. */
  class ListingFilters {
    var filters: Criteria

    constructor ()
      ensures filters == NoCriteria
    {
      filters := NoCriteria;
    }

    /**
     * A filter control reports `value` for `name`; the render cycle that
     * follows runs the currency effect, which empties the price bracket
     * whenever the currency value changed.
     */
    method HandleFilterChange(name: Field, value: string)
      modifies this
      ensures filters.Get(name) == SelectionValue(value)
      ensures filters.price == (if name == PriceCurrency && SelectionValue(value) != old(filters).priceCurrency then ""
                                else if name == Price then SelectionValue(value)
                                else old(filters).price)
      ensures forall g :: g != name && g != Price ==> filters.Get(g) == old(filters).Get(g)
    {
      var prev := filters;
      filters := prev.With(name, SelectionValue(value));
      if filters.priceCurrency != prev.priceCurrency {
        filters := filters.(price := "");
      }
    }

    /** The clear button; the currency effect then finds the price already empty. */
    method ClearFilters()
      modifies this
      ensures filters == NoCriteria
      ensures forall g :: filters.Get(g) == ""
    {
      var prev := filters;
      filters := NoCriteria;
      if filters.priceCurrency != prev.priceCurrency {
        filters := filters.(price := "");
      }
    }
  }

  predicate LocationMatches(l: Listing, query: string)
  {
    query == "" || ("Location_" in l && Contains(Lower(l["Location_"]), Lower(query)))
  }

  /** The bracket is a literal substring; the currency a case-insensitive one. */
  predicate PriceMatches(l: Listing, bracket: string, currency: string)
  {
    var price := FieldOr(l, "Price_Range", "");
    (bracket == "" || Contains(price, bracket))
    && (currency == "" || Contains(Lower(price), Lower(currency)))
  }

  /** Strict equality with the record's field; an absent field never equals a non-empty choice. */
  predicate EqualsField(l: Listing, key: string, choice: string)
  {
    choice == "" || (key in l && l[key] == choice)
  }

  predicate AreaMatches(l: Listing, value: string, unit: string)
  {
    var area := FieldOr(l, "Area", "");
    (value == "" || Contains(Lower(area), Lower(value)))
    && (unit == "" || Contains(Lower(area), Lower(unit)))
  }

  /** A record is kept when every criterion matches. */
  predicate Matches(l: Listing, c: Criteria)
  {
    && LocationMatches(l, c.location)
    && PriceMatches(l, c.price, c.priceCurrency)
    && EqualsField(l, "Property_Type", c.propertyType)
    && AreaMatches(l, c.area, c.areaUnit)
    && EqualsField(l, "Construction_Status", c.status)
  }

  /** `listings.filter(seller => Matches(seller, c))`. */
  function Filter(xs: seq<Listing>, c: Criteria): (r: seq<Listing>)
    ensures |r| <= |xs|
  {
    if xs == [] then []
    else (if Matches(xs[0], c) then [xs[0]] else []) + Filter(xs[1..], c)
  }

  /** The memoised view: not loaded stays not loaded, a loaded array is filtered. */
  function FilteredListings(listings: Option<seq<Listing>>, c: Criteria): (r: Option<seq<Listing>>)
    ensures r.None? <==> listings.None?
    ensures listings.Some? ==> r.value == Filter(listings.value, c)
  {
    match listings
    case None => None
    case Some(xs) => Some(Filter(xs, c))
  }

  // ---------------------------------------------------------------------------
  // Properties of the match predicate

  /** With every criterion empty, every record matches. */
  lemma MatchesNoCriteria(l: Listing)
    ensures Matches(l, NoCriteria)
  {
  }

  /** A non-empty criterion on a field the record lacks rejects the record. */
  lemma MissingFieldRejects(l: Listing, c: Criteria)
    ensures c.location != "" && "Location_" !in l ==> !Matches(l, c)
    ensures c.propertyType != "" && "Property_Type" !in l ==> !Matches(l, c)
    ensures c.status != "" && "Construction_Status" !in l ==> !Matches(l, c)
    ensures (c.price != "" || c.priceCurrency != "") && "Price_Range" !in l ==> !Matches(l, c)
    ensures (c.area != "" || c.areaUnit != "") && "Area" !in l ==> !Matches(l, c)
  {
  }

  /** Location alone: kept iff present and containing the query, ignoring case. */
  lemma LocationOnly(l: Listing, query: string)
    requires query != ""
    ensures Matches(l, NoCriteria.(location := query))
            <==> "Location_" in l && exists i :: OccursAt(Lower(l["Location_"]), Lower(query), i)
  {
    if "Location_" in l {
      var text, q := Lower(l["Location_"]), Lower(query);
      if Contains(text, q) {
        ContainsWitness(text, q);
      }
      if exists i :: OccursAt(text, q, i) {
        var i :| OccursAt(text, q, i);
        ContainsAt(text, q, i);
      }
    }
  }

  /** A price bracket alone: kept iff it occurs, letter for letter, in the record's price text. */
  lemma BracketOnly(l: Listing, bracket: string)
    requires bracket != ""
    ensures Matches(l, NoCriteria.(price := bracket))
            <==> exists i :: OccursAt(FieldOr(l, "Price_Range", ""), bracket, i)
  {
    var price := FieldOr(l, "Price_Range", "");
    if Contains(price, bracket) {
      ContainsWitness(price, bracket);
    }
    if exists i :: OccursAt(price, bracket, i) {
      var i :| OccursAt(price, bracket, i);
      ContainsAt(price, bracket, i);
    }
  }

  /** A type alone: kept iff the record's type equals the choice. */
  lemma TypeOnly(l: Listing, kind: string)
    requires kind != ""
    ensures Matches(l, NoCriteria.(propertyType := kind))
            <==> "Property_Type" in l && l["Property_Type"] == kind
  {
  }

  /** A status alone: kept iff the record's status equals the choice. */
  lemma StatusOnly(l: Listing, status: string)
    requires status != ""
    ensures Matches(l, NoCriteria.(status := status))
            <==> "Construction_Status" in l && l["Construction_Status"] == status
  {
  }

  /** Text criteria are compared without regard to (ASCII) case. */
  lemma CaseInsensitiveText(l: Listing, c: Criteria, location: string, currency: string, area: string, unit: string)
    requires Lower(location) == Lower(c.location) && Lower(currency) == Lower(c.priceCurrency)
    requires Lower(area) == Lower(c.area) && Lower(unit) == Lower(c.areaUnit)
    ensures Matches(l, c.(location := location, priceCurrency := currency, area := area, areaUnit := unit))
            == Matches(l, c)
  {
    assert location == "" <==> c.location == "" by { assert |Lower(location)| == |location|; }
    assert currency == "" <==> c.priceCurrency == "" by { assert |Lower(currency)| == |currency|; }
    assert area == "" <==> c.area == "" by { assert |Lower(area)| == |area|; }
    assert unit == "" <==> c.areaUnit == "" by { assert |Lower(unit)| == |unit|; }
  }

  // ---------------------------------------------------------------------------
  // Properties of the projection

  /** A record appears in the result iff it is in the input and matches. */
  lemma {:induction false} FilterMembership(xs: seq<Listing>, c: Criteria, x: Listing)
    ensures x in Filter(xs, c) <==> x in xs && Matches(x, c)
  {
    if xs != [] {
      FilterMembership(xs[1..], c, x);
      assert xs == [xs[0]] + xs[1..];
    }
  }

  /** A record that matches is kept as often as it occurs in the input; any other is dropped. */
  lemma {:induction false} FilterCounts(xs: seq<Listing>, c: Criteria, x: Listing)
    ensures multiset(Filter(xs, c))[x] == if Matches(x, c) then multiset(xs)[x] else 0
  {
    if xs != [] {
      FilterCounts(xs[1..], c, x);
      assert xs == [xs[0]] + xs[1..];
    }
  }

  /** `idx` picks, in increasing order, the positions of `xs` that make up `r`. */
  ghost predicate SelectsInOrder(r: seq<Listing>, xs: seq<Listing>, idx: seq<nat>)
  {
    && |idx| == |r|
    && (forall k :: 0 <= k < |idx| ==> idx[k] < |xs| && r[k] == xs[idx[k]])
    && (forall k, m :: 0 <= k < m < |idx| ==> idx[k] < idx[m])
  }

  /** Every position of `idx`, moved one place to the right. */
  function Shift(idx: seq<nat>): (r: seq<nat>)
    ensures |r| == |idx| && forall k :: 0 <= k < |idx| ==> r[k] == idx[k] + 1
  {
    seq(|idx|, k requires 0 <= k < |idx| => idx[k] + 1)
  }

  lemma ShiftSelects(r: seq<Listing>, x: Listing, xs: seq<Listing>, idx: seq<nat>)
    requires SelectsInOrder(r, xs, idx)
    ensures SelectsInOrder(r, [x] + xs, Shift(idx))
    ensures SelectsInOrder([x] + r, [x] + xs, [0] + Shift(idx))
    ensures forall j :: 1 <= j <= |xs| ==> (j in Shift(idx) <==> j - 1 in idx)
    ensures 0 !in Shift(idx)
  {
    var s := Shift(idx);
    forall j | 1 <= j <= |xs| ensures j in s <==> j - 1 in idx {
      if j - 1 in idx {
        var k :| 0 <= k < |idx| && idx[k] == j - 1;
        assert s[k] == j;
      }
    }
  }

  /**
   * The result is the subsequence of the input at exactly the matching
   * positions, in input order.
   */
  lemma {:induction false} FilterKeepsOrder(xs: seq<Listing>, c: Criteria) returns (idx: seq<nat>)
    ensures SelectsInOrder(Filter(xs, c), xs, idx)
    ensures forall j :: 0 <= j < |xs| ==> (j in idx <==> Matches(xs[j], c))
  {
    if xs == [] {
      idx := [];
    } else {
      var x, tail := xs[0], xs[1..];
      assert xs == [x] + tail;
      var rest := FilterKeepsOrder(tail, c);
      ShiftSelects(Filter(tail, c), x, tail, rest);
      var keep := Matches(x, c);
      idx := if keep then [0] + Shift(rest) else Shift(rest);
      assert Filter(xs, c) == if keep then [x] + Filter(tail, c) else Filter(tail, c);
      forall j | 0 <= j < |xs| ensures j in idx <==> Matches(xs[j], c) {
        if j > 0 {
          assert xs[j] == tail[j - 1];
        }
      }
    }
  }

  /** With all criteria empty the result is the input itself. */
  lemma {:induction false} FilterNoCriteria(xs: seq<Listing>)
    ensures Filter(xs, NoCriteria) == xs
  {
    if xs != [] {
      FilterNoCriteria(xs[1..]);
      MatchesNoCriteria(xs[0]);
      assert xs == [xs[0]] + xs[1..];
    }
  }

  /** If every record matches, filtering changes nothing. */
  lemma {:induction false} FilterAllMatch(xs: seq<Listing>, c: Criteria)
    requires forall k :: 0 <= k < |xs| ==> Matches(xs[k], c)
    ensures Filter(xs, c) == xs
  {
    if xs != [] {
      FilterAllMatch(xs[1..], c);
      assert xs == [xs[0]] + xs[1..];
    }
  }

  /** Re-filtering with the same criteria removes nothing more. */
  lemma FilterIdempotent(xs: seq<Listing>, c: Criteria)
    ensures Filter(Filter(xs, c), c) == Filter(xs, c)
  {
    var r := Filter(xs, c);
    forall k | 0 <= k < |r| ensures Matches(r[k], c) {
      FilterMembership(xs, c, r[k]);
    }
    FilterAllMatch(r, c);
  }

  /** Not loaded is not the same as loaded-but-empty, and empty stays empty. */
  lemma ProjectionOfAbsentAndEmpty(c: Criteria)
    ensures FilteredListings(None, c) == None
    ensures FilteredListings(Some([]), c) == Some([])
    ensures FilteredListings(None, c) != FilteredListings(Some([]), c)
  {
  }

  /** Clearing the filters makes the view show every loaded record. */
  lemma ClearedViewIsIdentity(listings: Option<seq<Listing>>)
    ensures FilteredListings(listings, NoCriteria) == listings
  {
    if listings.Some? {
      FilterNoCriteria(listings.value);
    }
  }

  /** Re-projecting the projection changes nothing. */
  lemma ProjectionIdempotent(listings: Option<seq<Listing>>, c: Criteria)
    ensures FilteredListings(FilteredListings(listings, c), c) == FilteredListings(listings, c)
  {
    if listings.Some? {
      FilterIdempotent(listings.value, c);
    }
  }

  // ---------------------------------------------------------------------------
  // Two concrete records

  const Multan: Listing := map["Location_" := "Multan", "Price_Range" := "1,000,000 - 5,000,000 PKR",
                               "Property_Type" := "House", "Area" := "10 marla",
                               "Construction_Status" := "Ready to move"]
  const Lahore: Listing := map["Location_" := "Lahore", "Price_Range" := "500,001 - 1,000,000 USD",
                               "Property_Type" := "Flat", "Area" := "1200 sq ft",
                               "Construction_Status" := "Under construction"]

  lemma MultanMatchesMulInPkr()
    ensures Matches(Multan, NoCriteria.(location := "mul", priceCurrency := "PKR"))
  {
    var loc := Lower(Multan["Location_"]);
    assert loc[0..3] == "mul";
    ContainsAt(loc, "mul", 0);
    var price := Lower(Multan["Price_Range"]);
    assert price[22..25] == "pkr";
    ContainsAt(price, "pkr", 22);
    assert Lower("mul") == "mul";
    assert Lower("PKR") == "pkr";
  }

  lemma LahoreRejectsMul()
    ensures !Matches(Lahore, NoCriteria.(location := "mul", priceCurrency := "PKR"))
  {
    var other := Lower(Lahore["Location_"]);
    assert other == "lahore";
    assert Lower("mul") == "mul";
    assert 'm' !in other;
    if Contains(other, "mul") {
      ContainsFirstChar(other, "mul");
    }
  }

  /** Location "mul" in PKR keeps the Multan record only. */
  lemma ExampleLocationAndCurrency()
    ensures Filter([Multan, Lahore], NoCriteria.(location := "mul", priceCurrency := "PKR")) == [Multan]
  {
    MultanMatchesMulInPkr();
    LahoreRejectsMul();
    assert [Multan, Lahore][1..] == [Lahore];
  }

  /** Type "Flat" keeps the Lahore record only. */
  lemma ExampleType()
    ensures Filter([Multan, Lahore], NoCriteria.(propertyType := "Flat")) == [Lahore]
  {
    assert [Multan, Lahore][1..] == [Lahore];
  }
}
