/**
 * The property listing page: it turns the URL's search parameters and the
 * sidebar inputs into a query, runs it, and orders the answer by the chosen
 * sort mode.
 */
module PropertyListingPage {
  import opened Js
  import opened Arrays
  import opened PropertyData
  import Amenities
  import PropertySearch

  /**
   * The query the page sends: city, area and type from the URL (`|| ""`), bhk
   * parsed from the URL when present, the price bounds parsed from the inputs
   * when non-empty, and the amenity selection when non-empty.
   */
  function BuildFilters(params: Params, minPrice: string, maxPrice: string, selected: seq<string>): (f: Filters)
    ensures f.city == Some(OrEmpty(ParamGet(params, "city")))
    ensures f.area == Some(OrEmpty(ParamGet(params, "area")))
    ensures f.propertyType == Some(OrEmpty(ParamGet(params, "type")))
    ensures !TruthyString(ParamGet(params, "bhk")) ==> f.bhk == None
    ensures TruthyString(ParamGet(params, "bhk")) ==> f.bhk == ParseInt(ParamGet(params, "bhk").value)
    ensures minPrice == "" ==> f.minPrice == None
    ensures minPrice != "" ==> f.minPrice == ParseInt(minPrice)
    ensures maxPrice == "" ==> f.maxPrice == None
    ensures maxPrice != "" ==> f.maxPrice == ParseInt(maxPrice)
    ensures f.amenities.None? <==> selected == []
    ensures f.amenities.Some? ==> f.amenities.value == selected
  {
    var bhk := ParamGet(params, "bhk");
    Filters(
      city := Some(OrEmpty(ParamGet(params, "city"))),
      area := Some(OrEmpty(ParamGet(params, "area"))),
      bhk := if TruthyString(bhk) then ParseInt(bhk.value) else None,
      propertyType := Some(OrEmpty(ParamGet(params, "type"))),
      minPrice := if minPrice != "" then ParseInt(minPrice) else None,
      maxPrice := if maxPrice != "" then ParseInt(maxPrice) else None,
      amenities := if |selected| > 0 then Some(selected) else None)
  }

  /** With no URL parameters, empty price inputs and no amenity ticked, the page lists the whole store. */
  lemma EmptyInputsListEverything(store: seq<Property>)
    ensures SelectMatching(store, BuildFilters([], "", "", [])) == store
  {
    NoConstraintReturnsAll(store, BuildFilters([], "", "", []));
  }

  /**
   * The query the listing page derives from the search form's record: the
   * form sets city, area, type and bhk, and the price inputs and the amenity
   * selection the page still holds make up the rest.
   */
  lemma SearchRecordFilters(city: string, area: string, propertyType: string, bhk: string,
                            minPrice: string, maxPrice: string, selected: seq<string>)
    ensures BuildFilters(PropertySearch.SearchRecord(city, area, propertyType, bhk), minPrice, maxPrice, selected)
            == BuildFilters([], minPrice, maxPrice, selected).(
                 city := Some(city), area := Some(area),
                 bhk := if bhk != "" then ParseInt(bhk) else None,
                 propertyType := Some(propertyType))
  {
    PropertySearch.RecordGet(city, area, propertyType, bhk, "city");
    PropertySearch.RecordGet(city, area, propertyType, bhk, "area");
    PropertySearch.RecordGet(city, area, propertyType, bhk, "type");
    PropertySearch.RecordGet(city, area, propertyType, bhk, "bhk");
  }

  /**
   * Searching, then listing: the query string the search form navigates with
   * makes this page constrain exactly the fields that were filled in, on top
   * of the price bounds and amenities its sidebar already holds.
   */
  lemma SearchThenList(city: string, area: string, propertyType: string, bhk: string,
                       minPrice: string, maxPrice: string, selected: seq<string>, p: Property)
    ensures Matches(BuildFilters(PropertySearch.SearchRecord(city, area, propertyType, bhk), minPrice, maxPrice, selected), p)
            <==>
            && (city != "" ==> p.location.city == city)
            && (area != "" ==> p.location.area == area)
            && (bhk != "" && TruthyNumber(ParseInt(bhk)) ==> p.bhk == ParseInt(bhk).value)
            && (propertyType != "" ==> TypeName(p.propertyType) == propertyType)
            && Matches(BuildFilters([], minPrice, maxPrice, selected), p)
  {
    var sidebar := BuildFilters([], minPrice, maxPrice, selected);
    var bhkFilter := if bhk != "" then ParseInt(bhk) else None;
    SearchRecordFilters(city, area, propertyType, bhk, minPrice, maxPrice, selected);
    MatchesWithSearch(sidebar, city, area, bhkFilter, propertyType, p);
  }

  /** Setting the four search fields of a query that leaves them unset adds their four checks. */
  lemma MatchesWithSearch(f: Filters, city: string, area: string, bhk: Option<int>, propertyType: string, p: Property)
    requires !TruthyString(f.city) && !TruthyString(f.area) && !TruthyNumber(f.bhk) && !TruthyString(f.propertyType)
    ensures Matches(f.(city := Some(city), area := Some(area), bhk := bhk, propertyType := Some(propertyType)), p)
            <==>
            && (city != "" ==> p.location.city == city)
            && (area != "" ==> p.location.area == area)
            && (TruthyNumber(bhk) ==> p.bhk == bhk.value)
            && (propertyType != "" ==> TypeName(p.propertyType) == propertyType)
            && Matches(f, p)
  {
  }

  /** A typed minus sign is read as such: a minimum price of "-12" asks for prices of at least -12. */
  lemma NegativePriceBound()
    ensures BuildFilters([], "-12", "", []).minPrice == Some(-12)
  {
    ParseIntMinus();
  }

  /**
   * The sidebar's checkboxes offer the amenity vocabulary, so ticking and
   * unticking them never selects anything outside it.
   */
  lemma CheckboxesStayOffered(selected: seq<string>, amenity: string)
    requires forall a :: a in selected ==> a in AmenityNames
    requires amenity in AmenityNames
    ensures forall a :: a in Amenities.Toggle(selected, amenity) ==> a in AmenityNames
  {
    Amenities.ToggleMembership(selected, amenity);
  }

  /** A hexadecimal bhk in the URL counts: `?bhk=0x3` asks for three-bedroom homes. */
  lemma HexBhkParam()
    ensures BuildFilters([("bhk", "0x3")], "", "", []).bhk == Some(3)
  {
    ParseIntHexPrefix();
  }

  // ---------------------------------------------------------------------
  // Sorting

  datatype SortMode = Newest | PriceLow | PriceHigh

  /** The `<select>` values the page recognises; any other value sorts nothing. */
  function ParseSortMode(sortBy: string): (m: Option<SortMode>)
    ensures m == Some(Newest) <==> sortBy == "newest"
    ensures m == Some(PriceLow) <==> sortBy == "price_low"
    ensures m == Some(PriceHigh) <==> sortBy == "price_high"
  {
    if sortBy == "newest" then Some(Newest)
    else if sortBy == "price_low" then Some(PriceLow)
    else if sortBy == "price_high" then Some(PriceHigh)
    else None
  }

  /**
   * The key each comparator orders by ascending: `b.createdAt - a.createdAt`
   * orders by the negated timestamp, `a.price - b.price` by price and
   * `b.price - a.price` by the negated price.
   */
  function Rank(mode: SortMode, p: Property): int {
    match mode
    case Newest => -p.createdAt
    case PriceLow => p.price
    case PriceHigh => -p.price
  }

  ghost predicate SortedBy(mode: SortMode, s: seq<Property>) {
    forall i, j :: 0 <= i < j < |s| ==> Rank(mode, s[i]) <= Rank(mode, s[j])
  }

  /** Insert `x` in front of the first element that ranks at least as high. */
  function Insert(mode: SortMode, x: Property, s: seq<Property>): seq<Property> {
    if s == [] then [x]
    else if Rank(mode, x) <= Rank(mode, s[0]) then [x] + s
    else [s[0]] + Insert(mode, x, s[1..])
  }

  /** A stable sort by rank, as `Array.prototype.sort` has been since ES2019. */
  function StableSort(mode: SortMode, s: seq<Property>): seq<Property> {
    if s == [] then [] else Insert(mode, s[0], StableSort(mode, s[1..]))
  }

  lemma {:induction false} InsertPermutes(mode: SortMode, x: Property, s: seq<Property>)
    ensures multiset(Insert(mode, x, s)) == multiset{x} + multiset(s)
  {
    if s != [] && Rank(mode, x) > Rank(mode, s[0]) {
      InsertPermutes(mode, x, s[1..]);
      ConsPermutes(s[0], Insert(mode, x, s[1..]), x, s[1..]);
      assert s == [s[0]] + s[1..];
    }
  }

  /** Putting the same element in front of both sides keeps a one-element difference. */
  lemma ConsPermutes<T>(a: T, r: seq<T>, x: T, t: seq<T>)
    requires multiset(r) == multiset{x} + multiset(t)
    ensures multiset([a] + r) == multiset{x} + multiset([a] + t)
  {
  }

  ghost predicate RanksAtLeast(mode: SortMode, lo: int, s: seq<Property>) {
    forall k :: 0 <= k < |s| ==> lo <= Rank(mode, s[k])
  }

  lemma {:induction false} InsertRanksAtLeast(mode: SortMode, lo: int, x: Property, s: seq<Property>)
    requires lo <= Rank(mode, x) && RanksAtLeast(mode, lo, s)
    ensures RanksAtLeast(mode, lo, Insert(mode, x, s))
  {
    if s != [] && Rank(mode, x) > Rank(mode, s[0]) {
      InsertRanksAtLeast(mode, lo, x, s[1..]);
      var r := Insert(mode, x, s[1..]);
      assert forall k :: 0 < k < |r| + 1 ==> ([s[0]] + r)[k] == r[k - 1];
    } else if s != [] {
      assert forall k :: 0 < k < |s| + 1 ==> ([x] + s)[k] == s[k - 1];
    }
  }

  /** An element ranking no higher than a sorted list's elements can go in front of it. */
  lemma SortedCons(mode: SortMode, a: Property, r: seq<Property>)
    requires SortedBy(mode, r) && RanksAtLeast(mode, Rank(mode, a), r)
    ensures SortedBy(mode, [a] + r)
  {
    assert forall k :: 0 < k < |r| + 1 ==> ([a] + r)[k] == r[k - 1];
  }

  lemma {:induction false} InsertSorted(mode: SortMode, x: Property, s: seq<Property>)
    requires SortedBy(mode, s)
    ensures SortedBy(mode, Insert(mode, x, s))
  {
    if s == [] {
    } else if Rank(mode, x) <= Rank(mode, s[0]) {
      assert RanksAtLeast(mode, Rank(mode, x), s);
      SortedCons(mode, x, s);
    } else {
      assert SortedBy(mode, s[1..]);
      assert RanksAtLeast(mode, Rank(mode, s[0]), s[1..]);
      InsertSorted(mode, x, s[1..]);
      InsertRanksAtLeast(mode, Rank(mode, s[0]), x, s[1..]);
      SortedCons(mode, s[0], Insert(mode, x, s[1..]));
    }
  }

  function RankIs(mode: SortMode, k: int): Property -> bool {
    (p: Property) => Rank(mode, p) == k
  }

  /** Inserting `x` puts it in front of every element of equal rank. */
  lemma {:induction false} InsertStable(mode: SortMode, x: Property, s: seq<Property>, k: int)
    ensures Filter(Insert(mode, x, s), RankIs(mode, k)) == Arrays.KeptIf(RankIs(mode, k), x) + Filter(s, RankIs(mode, k))
  {
    if s != [] {
      if Rank(mode, x) <= Rank(mode, s[0]) {
        FilterStep([x] + s, RankIs(mode, k));
        assert ([x] + s)[1..] == s;
      } else {
        InsertStable(mode, x, s[1..], k);
        FilterStep([s[0]] + Insert(mode, x, s[1..]), RankIs(mode, k));
        assert ([s[0]] + Insert(mode, x, s[1..]))[1..] == Insert(mode, x, s[1..]);
        FilterStep(s, RankIs(mode, k));
      }
    }
  }

  lemma {:induction false} StableSortPermutes(mode: SortMode, s: seq<Property>)
    ensures multiset(StableSort(mode, s)) == multiset(s)
  {
    if s != [] {
      StableSortPermutes(mode, s[1..]);
      InsertPermutes(mode, s[0], StableSort(mode, s[1..]));
      assert s == [s[0]] + s[1..];
    }
  }

  lemma {:induction false} StableSortSorted(mode: SortMode, s: seq<Property>)
    ensures SortedBy(mode, StableSort(mode, s))
  {
    if s != [] {
      StableSortSorted(mode, s[1..]);
      InsertSorted(mode, s[0], StableSort(mode, s[1..]));
    }
  }

  /** Properties that rank equal keep the order they were fetched in. */
  lemma {:induction false} StableSortStable(mode: SortMode, s: seq<Property>, k: int)
    ensures Filter(StableSort(mode, s), RankIs(mode, k)) == Filter(s, RankIs(mode, k))
  {
    if s != [] {
      StableSortStable(mode, s[1..], k);
      InsertStable(mode, s[0], StableSort(mode, s[1..]), k);
      FilterStep(s, RankIs(mode, k));
    }
  }

  /**
   * The sort block: copy the fetched list, and sort the copy when the mode is
   * one of the three the page knows.
   */
  method SortProperties(fetched: seq<Property>, sortBy: string) returns (sorted: seq<Property>)
    ensures multiset(sorted) == multiset(fetched)
    ensures sortBy == "newest" ==> forall i, j :: 0 <= i < j < |sorted| ==> sorted[i].createdAt >= sorted[j].createdAt
    ensures sortBy == "price_low" ==> forall i, j :: 0 <= i < j < |sorted| ==> sorted[i].price <= sorted[j].price
    ensures sortBy == "price_high" ==> forall i, j :: 0 <= i < j < |sorted| ==> sorted[i].price >= sorted[j].price
    ensures ParseSortMode(sortBy).Some? ==> forall k :: Filter(sorted, RankIs(ParseSortMode(sortBy).value, k))
                                                      == Filter(fetched, RankIs(ParseSortMode(sortBy).value, k))
    ensures ParseSortMode(sortBy).None? ==> sorted == fetched
    ensures ParseSortMode(sortBy).Some? ==> sorted == StableSort(ParseSortMode(sortBy).value, fetched)
  {
    sorted := fetched;
    var mode := ParseSortMode(sortBy);
    if mode.Some? {
      sorted := StableSort(mode.value, sorted);
      StableSortPermutes(mode.value, fetched);
      StableSortSorted(mode.value, fetched);
      forall k ensures Filter(sorted, RankIs(mode.value, k)) == Filter(fetched, RankIs(mode.value, k)) {
        StableSortStable(mode.value, fetched, k);
      }
    }
  }

  /** The text after the count: singular exactly for one result. */
  function PropertyNoun(count: nat): (noun: string)
    ensures noun == "property" <==> count == 1
    ensures noun == "properties" <==> count != 1
  {
    if count == 1 then "property" else "properties"
  }

  /** The page's state: the listed properties and the sidebar's inputs. */
  class ListingPage {
    var searchParams: Params
    var properties: seq<Property>
    var loading: bool
    var selectedAmenities: seq<string>
    var minPrice: string
    var maxPrice: string
    var sortBy: string

    constructor (params: Params)
      ensures searchParams == params && properties == [] && loading
      ensures selectedAmenities == [] && minPrice == "" && maxPrice == "" && sortBy == "newest"
    {
      searchParams := params;
      properties := [];
      loading := true;
      selectedAmenities := [];
      minPrice := "";
      maxPrice := "";
      sortBy := "newest";
    }

    function CurrentFilters(): Filters
      reads this
    {
      BuildFilters(searchParams, minPrice, maxPrice, selectedAmenities)
    }

    /** The effect that reruns on every input change: query, then sort. */
    method FetchProperties(store: seq<Property>)
      modifies this
      ensures properties == (if ParseSortMode(sortBy).Some?
                             then StableSort(ParseSortMode(sortBy).value, SelectMatching(store, CurrentFilters()))
                             else SelectMatching(store, CurrentFilters()))
      ensures !loading
      ensures searchParams == old(searchParams) && selectedAmenities == old(selectedAmenities)
      ensures minPrice == old(minPrice) && maxPrice == old(maxPrice) && sortBy == old(sortBy)
    {
      loading := true;
      var fetched := FetchPropertiesByFilters(store, CurrentFilters());
      var sorted := SortProperties(fetched, sortBy);
      properties := sorted;
      loading := false;
    }

    /** `handleAmenityChange`: tick or untick one amenity. */
    method HandleAmenityChange(amenity: string)
      modifies this
      ensures selectedAmenities == Amenities.Toggle(old(selectedAmenities), amenity)
      ensures searchParams == old(searchParams) && properties == old(properties) && loading == old(loading)
      ensures minPrice == old(minPrice) && maxPrice == old(maxPrice) && sortBy == old(sortBy)
    {
      selectedAmenities := Amenities.Toggle(selectedAmenities, amenity);
    }

    /** The "Clear Filters" button: amenities and prices are reset, the sort mode stays. */
    method ClearFilters()
      modifies this
      ensures selectedAmenities == [] && minPrice == "" && maxPrice == ""
      ensures searchParams == old(searchParams) && properties == old(properties) && loading == old(loading)
      ensures sortBy == old(sortBy)
    {
      selectedAmenities := [];
      minPrice := "";
      maxPrice := "";
    }
  }

  /** Ticking and unticking an amenity leaves the listed properties as they were. */
  lemma ToggleTwiceSameListing(params: Params, minPrice: string, maxPrice: string,
                               selected: seq<string>, amenity: string, store: seq<Property>)
    ensures var twice := Amenities.Toggle(Amenities.Toggle(selected, amenity), amenity);
            SelectMatching(store, BuildFilters(params, minPrice, maxPrice, twice))
            == SelectMatching(store, BuildFilters(params, minPrice, maxPrice, selected))
  {
    var twice := Amenities.Toggle(Amenities.Toggle(selected, amenity), amenity);
    Amenities.ToggleTwiceSameSelection(selected, amenity);
    var f := BuildFilters(params, minPrice, maxPrice, twice);
    var g := BuildFilters(params, minPrice, maxPrice, selected);
    assert twice == [] <==> selected == [] by {
      if selected != [] { assert selected[0] in twice; }
      if twice != [] { assert twice[0] in selected; }
    }
    forall p | p in store ensures Matches(f, p) == Matches(g, p) {
      assert HasAllAmenities(p, twice) == HasAllAmenities(p, selected);
    }
    FilterExt(store, (p: Property) => Matches(f, p), (p: Property) => Matches(g, p));
  }
}
