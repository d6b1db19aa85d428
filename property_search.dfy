/**
 * The search form: city, area, type and bhk selectors; picking a city offers
 * that city's areas and clears the area; submitting hands the non-empty fields
 * to the caller or navigates to the listing page with them as the query string.
 */
module PropertySearch {
  import opened Js
  import opened Arrays
  import opened PropertyData

  lemma EmptyCityUnknown()
    ensures "" !in Areas
  {
  }

  /** The areas the area selector offers for a city: none unless the city is a key of `areas`. */
  function CurrentAreas(city: string): (r: seq<string>)
    ensures city in Areas ==> r == Areas[city]
    ensures city !in Areas ==> r == []
    ensures forall a :: a in r <==> ValidLocation(city, a)
  {
    EmptyCityUnknown();
    if city != "" && city in Areas then Areas[city] else []
  }

  /** One field of the filter record, present only when its value is truthy. */
  function Field(key: string, value: string): seq<(string, string)> {
    if value != "" then [(key, value)] else []
  }

  /** What the search hands on when submitted. */
  datatype Submission =
    | CalledOnSearch(filters: seq<(string, string)>)
    | Navigate(path: string, query: Params)

  class SearchForm {
    var city: string
    var area: string
    var propertyType: string
    var bhk: string
    var currentAreas: seq<string>

    constructor ()
      ensures city == "" && area == "" && propertyType == "" && bhk == "" && currentAreas == []
    {
      city := "";
      area := "";
      propertyType := "";
      bhk := "";
      currentAreas := [];
    }

    /**
     * Choosing a city. A different city reruns the effect that looks up its
     * areas and clears the area; choosing the same city again changes nothing.
     */
    method SelectCity(c: string)
      modifies this
      ensures city == c
      ensures c != old(city) ==> area == "" && currentAreas == CurrentAreas(c)
      ensures c == old(city) ==> area == old(area) && currentAreas == old(currentAreas)
      ensures propertyType == old(propertyType) && bhk == old(bhk)
    {
      if c != city {
        city := c;
        currentAreas := CurrentAreas(city);
        area := "";
      }
    }

    method SelectArea(a: string)
      modifies this
      ensures area == a
      ensures city == old(city) && propertyType == old(propertyType) && bhk == old(bhk)
      ensures currentAreas == old(currentAreas)
    {
      area := a;
    }

    method SelectType(t: string)
      modifies this
      ensures propertyType == t
      ensures city == old(city) && area == old(area) && bhk == old(bhk)
      ensures currentAreas == old(currentAreas)
    {
      propertyType := t;
    }

    method SelectBhk(b: string)
      modifies this
      ensures bhk == b
      ensures city == old(city) && area == old(area) && propertyType == old(propertyType)
      ensures currentAreas == old(currentAreas)
    {
      bhk := b;
    }

    function Record(): seq<(string, string)>
      reads this
    {
      SearchRecord(city, area, propertyType, bhk)
    }

    /**
     * `handleSubmit`: build the record key by key, then either call `onSearch`
     * with it or copy its entries into fresh query parameters and navigate.
     */
    method HandleSubmit(onSearchSupplied: bool) returns (s: Submission)
      ensures onSearchSupplied ==> s == CalledOnSearch(Record())
      ensures !onSearchSupplied ==> s == Navigate("/properties", Record())
    {
      var filters := BuildRecord(city, area, propertyType, bhk);
      if onSearchSupplied {
        s := CalledOnSearch(filters);
      } else {
        var params := CopyParams(filters);
        s := Navigate("/properties", params);
      }
    }
  }

  /** The record built one truthy field at a time. */
  method BuildRecord(city: string, area: string, propertyType: string, bhk: string) returns (filters: seq<(string, string)>)
    ensures filters == SearchRecord(city, area, propertyType, bhk)
  {
    filters := [];
    if city != "" { filters := filters + [("city", city)]; }
    assert filters == Field("city", city);
    if area != "" { filters := filters + [("area", area)]; }
    assert filters == Field("city", city) + Field("area", area);
    if propertyType != "" { filters := filters + [("type", propertyType)]; }
    assert filters == Field("city", city) + Field("area", area) + Field("type", propertyType);
    if bhk != "" { filters := filters + [("bhk", bhk)]; }
  }

  /** Appending every entry of the record to empty query parameters, in order. */
  method CopyParams(filters: seq<(string, string)>) returns (params: Params)
    ensures params == filters
  {
    params := [];
    var i := 0;
    while i < |filters|
      invariant 0 <= i <= |filters|
      invariant params == filters[..i]
    {
      params := params + [filters[i]];
      i := i + 1;
    }
    assert filters[..i] == filters;
  }

  /** The record `handleSubmit` builds: the truthy fields, in the order city, area, type, bhk. */
  function SearchRecord(city: string, area: string, propertyType: string, bhk: string): seq<(string, string)> {
    Field("city", city) + Field("area", area) + Field("type", propertyType) + Field("bhk", bhk)
  }

  lemma GetField(k: string, v: string, rest: Params, key: string)
    ensures ParamGet(Field(k, v) + rest, key) == (if v != "" && k == key then Some(v) else ParamGet(rest, key))
  {
    if v != "" {
      assert (Field(k, v) + rest)[1..] == rest;
    } else {
      assert Field(k, v) + rest == rest;
    }
  }

  /** Looking a key up in the record finds its field's value exactly when that field was filled in. */
  lemma RecordGet(city: string, area: string, propertyType: string, bhk: string, key: string)
    ensures ParamGet(SearchRecord(city, area, propertyType, bhk), key) == (
              if key == "city" && city != "" then Some(city)
              else if key == "area" && area != "" then Some(area)
              else if key == "type" && propertyType != "" then Some(propertyType)
              else if key == "bhk" && bhk != "" then Some(bhk)
              else None)
  {
    var tail := Field("bhk", bhk);
    var t3 := Field("type", propertyType) + tail;
    var t2 := Field("area", area) + t3;
    assert SearchRecord(city, area, propertyType, bhk) == Field("city", city) + t2;
    GetField("city", city, t2, key);
    GetField("area", area, t3, key);
    GetField("type", propertyType, tail, key);
    GetField("bhk", bhk, [], key);
    assert tail + [] == tail;
  }

  /** The record holds nothing but filled-in fields under the four keys. */
  lemma RecordOnlyFilledFields(city: string, area: string, propertyType: string, bhk: string)
    ensures var r := SearchRecord(city, area, propertyType, bhk);
            forall i :: 0 <= i < |r| ==> r[i].1 != "" && r[i].0 in {"city", "area", "type", "bhk"}
  {
  }

  /** The record never reorders the fields: it is a subsequence of all four. */
  lemma RecordOrder(city: string, area: string, propertyType: string, bhk: string)
    ensures IsSubsequence(SearchRecord(city, area, propertyType, bhk),
                          [("city", city), ("area", area), ("type", propertyType), ("bhk", bhk)])
  {
    var all := [("city", city), ("area", area), ("type", propertyType), ("bhk", bhk)];
    var r := SearchRecord(city, area, propertyType, bhk);
    var keep := (kv: (string, string)) => kv.1 != "";
    assert r == Filter(all, keep) by {
      FilterStep(all, keep);
      FilterStep(all[1..], keep);
      FilterStep(all[2..], keep);
      FilterStep(all[3..], keep);
      assert all[1..][1..] == all[2..] && all[2..][1..] == all[3..] && all[3..][1..] == [];
    }
    FilterSubsequence(all, keep);
  }

  /** An untouched form submits an empty record. */
  lemma EmptyFormEmptyRecord()
    ensures SearchRecord("", "", "", "") == []
  {
  }
}
