/**
 * The user dashboard: only a signed-in user sees it, and it lists the demo
 * user's properties.
 */
module UserDashboardPage {
  import opened Js
  import opened Arrays
  import opened PropertyData

  /** The demo ownership test: posted by "user-001", or the listing "prop-001". */
  function OwnedByDemoUser(): Property -> bool {
    (p: Property) => p.postedBy.id == "user-001" || p.id == "prop-001"
  }

  /** `allProperties.filter(...)` with the demo ownership test. */
  function UserProperties(all: seq<Property>): seq<Property> {
    Filter(all, OwnedByDemoUser())
  }

  /** The dashboard keeps exactly the demo user's listings, in store order. */
  lemma UserPropertiesSpec(all: seq<Property>)
    ensures forall p :: p in UserProperties(all) <==>
              p in all && (p.postedBy.id == "user-001" || p.id == "prop-001")
    ensures IsSubsequence(UserProperties(all), all)
  {
    FilterMembership(all, OwnedByDemoUser());
    FilterSubsequence(all, OwnedByDemoUser());
  }

  /** Over the seeded listings the dashboard shows prop-001 alone. */
  lemma SeededUserProperties()
    ensures UserProperties(DummyProperties) == [Prop001]
  {
    FilterSix(DummyProperties, OwnedByDemoUser());
  }

  class UserDashboard {
    var myProperties: seq<Property>
    var loading: bool

    constructor ()
      ensures myProperties == [] && loading
    {
      myProperties := [];
      loading := true;
    }

    /**
     * The effect: without a session go to the login page and fetch nothing;
     * with one, load the demo user's listings out of all properties.
     */
    method LoadDashboard(isAuthenticated: bool) returns (navigateTo: Option<string>)
      modifies this
      ensures !isAuthenticated ==> navigateTo == Some("/login") && myProperties == old(myProperties) && loading == old(loading)
      ensures isAuthenticated ==> navigateTo == None && myProperties == UserProperties(DummyProperties) && !loading
    {
      if !isAuthenticated {
        navigateTo := Some("/login");
        return;
      }
      loading := true;
      var allProperties := DummyProperties;
      myProperties := UserProperties(allProperties);
      loading := false;
      navigateTo := None;
    }
  }
}
