/**
 * The add-property form: its amenity checkboxes, its image list with a cap of
 * five, removal of an image by index, the area choices of the chosen city, and
 * the authentication guard on submission.
 */
module AddPropertyPage {
  import opened Js
  import opened PropertyData
  import Amenities
  import PropertySearch

  /** A file chosen in the image picker; only its identity matters here. */
  datatype ImageFile = ImageFile(name: string)

  const MaxImages: nat := 5

  function Min(a: int, b: int): int {
    if a <= b then a else b
  }

  /**
   * The picker loop: copy the current images, append the chosen files while
   * fewer than five are held, and on the first file that does not fit raise
   * the "Maximum 5 images allowed" toast and stop.
   */
  method CollectImages(images: seq<ImageFile>, files: seq<ImageFile>) returns (newImages: seq<ImageFile>, capToast: bool)
    ensures var added := if |images| >= MaxImages then 0 else Min(|files|, MaxImages - |images|);
            && newImages == images + files[..added]
            && (capToast <==> added < |files|)
    ensures |images| <= MaxImages ==> |newImages| <= MaxImages
  {
    newImages := images;
    capToast := false;
    var i := 0;
    while i < |files|
      invariant 0 <= i <= |files|
      invariant newImages == images + files[..i]
      invariant i > 0 ==> |images| < MaxImages
      invariant |images| < MaxImages ==> |newImages| <= MaxImages
      invariant !capToast
      invariant |images| < MaxImages ==> i <= MaxImages - |images|
    {
      if |newImages| < MaxImages {
        newImages := newImages + [files[i]];
        assert files[..i + 1] == files[..i] + [files[i]];
      } else {
        capToast := true;
        break;
      }
      i := i + 1;
    }
  }

  /**
   * `splice(index, 1)` on a copy: a negative index counts from the end (and
   * is clamped at 0), and an index at or past the end removes nothing.
   */
  function SpliceOne<T>(s: seq<T>, index: int): (r: seq<T>)
    ensures 0 <= index < |s| ==> r == s[..index] + s[index + 1..]
    ensures index >= |s| ==> r == s
    ensures -|s| <= index < 0 ==> r == s[..|s| + index] + s[|s| + index + 1..]
    ensures index < -|s| && s != [] ==> r == s[1..]
    ensures s == [] ==> r == []
  {
    var start := if index < 0 then (if |s| + index < 0 then 0 else |s| + index) else index;
    if start < |s| then s[..start] + s[start + 1..] else s
  }

  /** Removing an image in range drops exactly that one and keeps the rest in order. */
  lemma SpliceOneRemovesEntry<T>(s: seq<T>, index: int)
    requires 0 <= index < |s|
    ensures |SpliceOne(s, index)| == |s| - 1
    ensures multiset(SpliceOne(s, index)) + multiset{s[index]} == multiset(s)
    ensures forall k :: 0 <= k < index ==> SpliceOne(s, index)[k] == s[k]
    ensures forall k :: index <= k < |s| - 1 ==> SpliceOne(s, index)[k] == s[k + 1]
  {
    assert s == s[..index] + [s[index]] + s[index + 1..];
  }

  /**
   * `availableAreas`: `city ? areas[city] || [] : []`; a missing key reads as
   * undefined and falls back to the empty list.
   */
  function AvailableAreas(city: string): (r: seq<string>)
    ensures city == "" ==> r == []
    ensures city !in Areas ==> r == []
    ensures city != "" && city in Areas ==> r == Areas[city]
  {
    if city != "" then (if city in Areas then Areas[city] else []) else []
  }

  /** The form offers the same areas as the search form for every city. */
  lemma AvailableAreasAgree(city: string)
    ensures AvailableAreas(city) == PropertySearch.CurrentAreas(city)
  {
  }

  /** Every city the form offers has its own area list, so the `|| []` fallback is never taken for one. */
  lemma OfferedCitiesHaveAreas(city: string)
    requires city in TamilNaduCities
    ensures AvailableAreas(city) == Areas[city] && AvailableAreas(city) != []
  {
    CitiesAreAreaKeys();
  }

  /** What submitting does besides toggling `loading`: a toast and a navigation. */
  datatype SubmitOutcome = SubmitOutcome(toast: string, navigateTo: string)

  class AddPropertyForm {
    var city: string
    var area: string
    var selectedAmenities: seq<string>
    var images: seq<ImageFile>
    var loading: bool

    constructor ()
      ensures city == "" && area == "" && selectedAmenities == [] && images == [] && !loading
    {
      city := "";
      area := "";
      selectedAmenities := [];
      images := [];
      loading := false;
    }

    /** Choosing a city; unlike the search form, this form keeps the chosen area. */
    method SelectCity(c: string)
      modifies this
      ensures city == c && area == old(area)
      ensures selectedAmenities == old(selectedAmenities) && images == old(images) && loading == old(loading)
    {
      city := c;
    }

    /** The areas the area selector offers right now. */
    function AreaChoices(): (r: seq<string>)
      reads this
      ensures forall a :: a in r <==> ValidLocation(city, a)
    {
      AvailableAreasAgree(city);
      AvailableAreas(city)
    }

    /** This form's `handleAmenityChange`, the same toggle as the listing page's. */
    method HandleAmenityChange(amenity: string)
      modifies this
      ensures selectedAmenities == Amenities.Toggle(old(selectedAmenities), amenity)
      ensures city == old(city) && area == old(area) && images == old(images) && loading == old(loading)
    {
      selectedAmenities := Amenities.Toggle(selectedAmenities, amenity);
    }

    /** `handleImageChange`: nothing happens unless some file was chosen. */
    method HandleImageChange(files: seq<ImageFile>) returns (capToast: bool)
      modifies this
      ensures files == [] ==> images == old(images) && !capToast
      ensures files != [] ==>
                var added := if |old(images)| >= MaxImages then 0 else Min(|files|, MaxImages - |old(images)|);
                images == old(images) + files[..added] && (capToast <==> added < |files|)
      ensures |old(images)| <= MaxImages ==> |images| <= MaxImages
      ensures city == old(city) && area == old(area) && selectedAmenities == old(selectedAmenities) && loading == old(loading)
    {
      capToast := false;
      if |files| > 0 {
        var newImages;
        newImages, capToast := CollectImages(images, files);
        images := newImages;
      }
    }

    /** `removeImage`. */
    method RemoveImage(index: int)
      modifies this
      ensures images == SpliceOne(old(images), index)
      ensures city == old(city) && area == old(area) && selectedAmenities == old(selectedAmenities) && loading == old(loading)
    {
      images := SpliceOne(images, index);
    }

    /**
     * `handleSubmit`: without a session it asks the user to log in and leaves
     * `loading` alone; otherwise it reports success, goes to the dashboard and
     * clears `loading` in its `finally`.
     */
    method HandleSubmit(isAuthenticated: bool) returns (outcome: SubmitOutcome)
      modifies this
      ensures !isAuthenticated ==> outcome == SubmitOutcome("Authentication required", "/login") && loading == old(loading)
      ensures isAuthenticated ==> outcome == SubmitOutcome("Property listed successfully", "/dashboard") && !loading
      ensures city == old(city) && area == old(area) && selectedAmenities == old(selectedAmenities) && images == old(images)
    {
      if !isAuthenticated {
        outcome := SubmitOutcome("Authentication required", "/login");
        return;
      }
      loading := true;
      outcome := SubmitOutcome("Property listed successfully", "/dashboard");
      loading := false;
    }
  }
}
