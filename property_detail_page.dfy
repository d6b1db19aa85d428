/**
 * The property detail page: loading one listing and its owner's reviews, and
 * the image carousel's wrap-around index.
 */
module PropertyDetailPage {
  import opened Js
  import opened PropertyData

  /** The carousel position: a number, or NaN once a `% 0` has produced one. */
  datatype ImageIndex = At(i: int) | NaN

  /** `(currentImageIndex + 1) % images.length`. */
  function NextIndex(index: ImageIndex, n: nat): (r: ImageIndex)
    ensures n == 0 || index.NaN? <==> r.NaN?
    ensures n > 0 && index.At? && index.i >= 0 ==> r == At((index.i + 1) % n)
    ensures n > 0 && index.At? && 0 <= index.i < n ==> 0 <= r.i < n
  {
    if n == 0 || index.NaN? then NaN else At(JsRem(index.i + 1, n))
  }

  /** `(currentImageIndex - 1 + images.length) % images.length`. */
  function PrevIndex(index: ImageIndex, n: nat): (r: ImageIndex)
    ensures n == 0 || index.NaN? <==> r.NaN?
    ensures n > 0 && index.At? && index.i >= 1 - n ==> r == At((index.i - 1 + n) % n)
    ensures n > 0 && index.At? && 0 <= index.i < n ==> 0 <= r.i < n
  {
    if n == 0 || index.NaN? then NaN else At(JsRem(index.i - 1 + n, n))
  }

  /** Stepping forward from the last image wraps to the first, and otherwise moves by one. */
  lemma NextWraps(i: int, n: nat)
    requires 0 <= i < n
    ensures i == n - 1 ==> NextIndex(At(i), n) == At(0)
    ensures i < n - 1 ==> NextIndex(At(i), n) == At(i + 1)
  {
  }

  /** Stepping back from the first image wraps to the last, and otherwise moves by one. */
  lemma PrevWraps(i: int, n: nat)
    requires 0 <= i < n
    ensures i == 0 ==> PrevIndex(At(i), n) == At(n - 1)
    ensures i > 0 ==> PrevIndex(At(i), n) == At(i - 1)
  {
    assert (i - 1 + n) % n == (if i == 0 then n - 1 else i - 1) by {
      if i > 0 {
        assert i - 1 + n == (i - 1) + 1 * n;
      }
    }
  }

  /** Back undoes forward, and forward undoes back. */
  lemma PrevNextInverse(i: int, n: nat)
    requires 0 <= i < n
    ensures PrevIndex(NextIndex(At(i), n), n) == At(i)
    ensures NextIndex(PrevIndex(At(i), n), n) == At(i)
  {
    NextWraps(i, n);
    PrevWraps(i, n);
    if i < n - 1 {
      PrevWraps(i + 1, n);
    } else {
      PrevWraps(0, n);
    }
    if i > 0 {
      NextWraps(i - 1, n);
    } else {
      NextWraps(n - 1, n);
    }
  }

  /** Once NaN, the index stays NaN whichever way the carousel moves. */
  lemma NaNSticks(n: nat)
    ensures NextIndex(NaN, n) == NaN && PrevIndex(NaN, n) == NaN
  {
  }

  /** `nextImage` pressed k times. */
  function NextTimes(index: ImageIndex, n: nat, k: nat): ImageIndex {
    if k == 0 then index else NextIndex(NextTimes(index, n, k - 1), n)
  }

  /** Pressing `nextImage` a + b times is pressing it a times, then b times. */
  lemma {:induction false} NextTimesAdd(index: ImageIndex, n: nat, a: nat, b: nat)
    ensures NextTimes(index, n, a + b) == NextTimes(NextTimes(index, n, a), n, b)
  {
    if b > 0 {
      NextTimesAdd(index, n, a, b - 1);
    }
  }

  /** Until the last image is reached, each press moves one image on. */
  lemma {:induction false} NextTimesNoWrap(i: int, n: nat, k: nat)
    requires 0 <= i && i + k < n
    ensures NextTimes(At(i), n, k) == At(i + k)
  {
    if k > 0 {
      NextTimesNoWrap(i, n, k - 1);
      NextWraps(i + k - 1, n);
    }
  }

  /** Pressing `nextImage` once per image comes back to the starting image. */
  lemma NextFullCircle(i: int, n: nat)
    requires 0 <= i < n
    ensures NextTimes(At(i), n, n) == At(i)
  {
    NextTimesNoWrap(i, n, n - i - 1);
    NextWraps(n - 1, n);
    assert NextTimes(At(i), n, n - i) == At(0);
    NextTimesAdd(At(i), n, n - i, i);
    if i > 0 {
      NextTimesNoWrap(0, n, i);
    }
  }

  const LoadError: string := "Failed to load property details"

  /** Whether `fetchPropertyDetails` ends in its `catch`: no id, or no listing with that id. */
  predicate FetchFails(store: seq<Property>, id: Option<string>) {
    !TruthyString(id) || FetchPropertyById(store, id.value).None?
  }

  class DetailPage {
    var property: Option<Property>
    var loading: bool
    var reviews: seq<Review>
    var currentImageIndex: ImageIndex
    var error: string

    constructor ()
      ensures property == None && loading && reviews == [] && currentImageIndex == At(0) && error == ""
    {
      property := None;
      loading := true;
      reviews := [];
      currentImageIndex := At(0);
      error := "";
    }

    /**
     * `fetchPropertyDetails` for the route's id. A failure sets the error and
     * leaves the listing and reviews as they were; a success loads the listing
     * and the reviews of the user who posted it and leaves the error as it was.
     */
    method FetchPropertyDetails(store: seq<Property>, allReviews: seq<Review>, id: Option<string>)
      modifies this
      ensures FetchFails(store, id) ==>
                error == LoadError && property == old(property) && reviews == old(reviews)
      ensures !FetchFails(store, id) ==>
                && property == FetchPropertyById(store, id.value)
                && property.Some? && property.value.id == id.value
                && reviews == FetchReviewsByUserId(allReviews, property.value.postedBy.id)
                && error == old(error)
      ensures !loading && currentImageIndex == old(currentImageIndex)
    {
      loading := true;
      if !TruthyString(id) {
        error := LoadError;
      } else {
        var fetched := FetchPropertyById(store, id.value);
        if fetched.None? {
          error := LoadError;
        } else {
          property := fetched;
          reviews := FetchReviewsByUserId(allReviews, fetched.value.postedBy.id);
        }
      }
      loading := false;
    }

    /** `nextImage`: does nothing until a listing is loaded. */
    method NextImage()
      modifies this
      ensures property.None? ==> currentImageIndex == old(currentImageIndex)
      ensures property.Some? ==> currentImageIndex == NextIndex(old(currentImageIndex), |property.value.images|)
      ensures property == old(property) && loading == old(loading) && reviews == old(reviews) && error == old(error)
    {
      if property.None? {
        return;
      }
      currentImageIndex := NextIndex(currentImageIndex, |property.value.images|);
    }

    /** `prevImage`: does nothing until a listing is loaded. */
    method PrevImage()
      modifies this
      ensures property.None? ==> currentImageIndex == old(currentImageIndex)
      ensures property.Some? ==> currentImageIndex == PrevIndex(old(currentImageIndex), |property.value.images|)
      ensures property == old(property) && loading == old(loading) && reviews == old(reviews) && error == old(error)
    {
      if property.None? {
        return;
      }
      currentImageIndex := PrevIndex(currentImageIndex, |property.value.images|);
    }
  }

  /** On a freshly opened page, a missing or unknown id leaves no listing and shows the error. */
  method OpenPage(store: seq<Property>, allReviews: seq<Review>, id: Option<string>) returns (page: DetailPage)
    ensures FetchFails(store, id) ==> page.property.None? && page.error == LoadError && !page.loading
    ensures !FetchFails(store, id) ==> page.property.Some? && page.property.value.id == id.value && page.error == ""
  {
    page := new DetailPage();
    page.FetchPropertyDetails(store, allReviews, id);
  }
}
