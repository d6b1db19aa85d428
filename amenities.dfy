/**
 * The amenity checkbox toggle shared by the listing page's filter sidebar and
 * the add-property form: ticking an amenity appends it to the selection,
 * unticking removes it.
 */
module Amenities {
  import opened Arrays

  function IsNot(amenity: string): string -> bool {
    (a: string) => a != amenity
  }

  /** `includes(amenity) ? filter(a => a !== amenity) : [...selected, amenity]`. */
  function Toggle(selected: seq<string>, amenity: string): seq<string> {
    if amenity in selected then Filter(selected, IsNot(amenity)) else selected + [amenity]
  }

  /** The toggled amenity changes side; every other amenity keeps its status. */
  lemma ToggleMembership(selected: seq<string>, amenity: string)
    ensures amenity in Toggle(selected, amenity) <==> amenity !in selected
    ensures forall b :: b != amenity ==> (b in Toggle(selected, amenity) <==> b in selected)
  {
    FilterMembership(selected, IsNot(amenity));
  }

  /** A selection built by toggling never holds an amenity twice. */
  lemma ToggleKeepsDistinct(selected: seq<string>, amenity: string)
    requires Distinct(selected)
    ensures Distinct(Toggle(selected, amenity))
  {
    if amenity in selected {
      FilterDistinct(selected, IsNot(amenity));
    } else {
      var r := selected + [amenity];
      forall i, j | 0 <= i < j < |r| ensures r[i] != r[j] {
        if j == |selected| {
          assert r[i] == selected[i];
        } else {
          assert r[i] == selected[i] && r[j] == selected[j];
        }
      }
    }
  }

  /** Ticking an amenity and unticking it again gives back the very same list. */
  lemma {:induction false} ToggleTwiceAbsent(selected: seq<string>, amenity: string)
    requires amenity !in selected
    ensures Toggle(Toggle(selected, amenity), amenity) == selected
  {
    var once := selected + [amenity];
    assert amenity in once;
    FilterAppend(selected, [amenity], IsNot(amenity));
    FilterKeepsAll(selected, IsNot(amenity));
    assert Filter([amenity], IsNot(amenity)) == [] by {
      FilterStep([amenity], IsNot(amenity));
    }
  }

  /**
   * Unticking a ticked amenity and ticking it again moves it to the end of the
   * list; the list is the same as before only when it was already last.
   */
  lemma ToggleTwicePresent(selected: seq<string>, amenity: string)
    requires amenity in selected
    ensures Toggle(Toggle(selected, amenity), amenity) == Filter(selected, IsNot(amenity)) + [amenity]
  {
    FilterMembership(selected, IsNot(amenity));
  }

  /** Either way, toggling twice restores which amenities are selected. */
  lemma ToggleTwiceSameSelection(selected: seq<string>, amenity: string)
    ensures forall b :: b in Toggle(Toggle(selected, amenity), amenity) <==> b in selected
  {
    ToggleMembership(selected, amenity);
    ToggleMembership(Toggle(selected, amenity), amenity);
  }

  /** Unticking and re-ticking the first of two amenities reorders the list. */
  lemma ToggleTwiceReorders()
    ensures Toggle(Toggle(["Gym", "Lift"], "Gym"), "Gym") == ["Lift", "Gym"]
  {
    var s := ["Gym", "Lift"];
    ToggleTwicePresent(s, "Gym");
    FilterStep(s, IsNot("Gym"));
    FilterStep(s[1..], IsNot("Gym"));
    assert s[1..][1..] == [];
  }
}
