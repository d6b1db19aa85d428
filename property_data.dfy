/**
 * The in-memory property store: the Property, Review and BuilderProject
 * records, the seeded collections, the city-to-areas table, and the lookups
 * and the filter query over them. The store's functions take the collection
 * they search as a parameter; the application always passes the seeded one.
 */
module PropertyData {
  import opened Js
  import opened Arrays

  datatype Location = Location(area: string, city: string)

  datatype PropertyType = Apartment | House | Villa | Plot | Commercial

  datatype Seller = Owner | Builder | Agent

  datatype Poster = Poster(id: string, name: string, phone: string, email: string)

  /** A listing. `createdAt` is the creation time in milliseconds since the epoch. */
  datatype Property = Property(
    id: string,
    title: string,
    description: string,
    price: int,
    location: Location,
    bhk: int,
    sqft: int,
    propertyType: PropertyType,
    forSaleBy: Seller,
    amenities: seq<string>,
    images: seq<string>,
    postedBy: Poster,
    createdAt: int
  )

  datatype Review = Review(
    id: string,
    propertyId: Option<string>,
    userId: string,
    reviewedUserId: string,
    rating: int,
    comment: string,
    createdAt: int
  )

  datatype ProjectType = Residential | CommercialProject | Mixed

  datatype ProjectStatus = Upcoming | UnderConstruction | ReadyToMove

  datatype PriceRange = PriceRange(min: int, max: int)

  datatype BuilderProject = BuilderProject(
    id: string,
    builderId: string,
    name: string,
    description: string,
    location: Location,
    projectType: ProjectType,
    unitsTotal: int,
    unitsSold: int,
    priceRange: PriceRange,
    amenities: seq<string>,
    images: seq<string>,
    brochureUrl: Option<string>,
    completionDate: string,
    status: ProjectStatus,
    createdAt: int
  )

  /** The string a property's `type` field holds. */
  function TypeName(t: PropertyType): string {
    match t
    case Apartment => "Apartment"
    case House => "House"
    case Villa => "Villa"
    case Plot => "Plot"
    case Commercial => "Commercial"
  }


  const Prop001Amenities: seq<string> := [
    "Swimming Pool",
    "Gym",
    "Security",
    "Power Backup",
    "Lift",
    "Car Parking"
  ]

  const Prop001Description: string :=
    "Spacious and " + "well-ventilated 3 " + "BHK apartment with " + "modern amenities in " + "the heart of Anna " + "Nagar. The property " + "is surrounded by " + "greenery and is " + "close to schools, " + "hospitals, and " + "markets. Perfect " + "for family living."

  const Prop001Images: seq<string> := [
    "https://" + "images.pexels.com/" + "photos/106399/" + "pexels-photo-106399." + "jpeg",
    "https://" + "images.pexels.com/" + "photos/1571460/" + "pexels-photo-1571460" + ".jpeg",
    "https://" + "images.pexels.com/" + "photos/259588/" + "pexels-photo-259588." + "jpeg"
  ]

  const Prop001: Property := Property(
    id := "prop-001",
    title := "Elegant 3 BHK " + "Apartment in Anna " + "Nagar",
    description := Prop001Description,
    price := 8500000,
    location := Location(area := "Anna Nagar", city := "Chennai"),
    bhk := 3,
    sqft := 1450,
    propertyType := Apartment,
    forSaleBy := Owner,
    amenities := Prop001Amenities,
    images := Prop001Images,
    postedBy := Poster(id := "user-001", name := "Rajesh Kumar", phone := "9876543210", email := "rajesh@example.com"),
    createdAt := 1697365800000 // 2023-10-15T10:30:00Z
  )

  const Prop002Amenities: seq<string> := [
    "Gym",
    "Security",
    "Power Backup",
    "Lift",
    "Car Parking",
    "Garden"
  ]

  const Prop002Description: string :=
    "Beautiful 2 BHK " + "flat with premium " + "finishes in OMR. " + "Located in a " + "well-maintained " + "gated community " + "with excellent " + "amenities. Close to " + "IT parks, " + "educational " + "institutions, and " + "shopping centers."

  const Prop002Images: seq<string> := [
    "https://" + "images.pexels.com/" + "photos/1571468/" + "pexels-photo-1571468" + ".jpeg",
    "https://" + "images.pexels.com/" + "photos/1643383/" + "pexels-photo-1643383" + ".jpeg",
    "https://" + "images.pexels.com/" + "photos/1643384/" + "pexels-photo-1643384" + ".jpeg"
  ]

  const Prop002: Property := Property(
    id := "prop-002",
    title := "Modern 2 BHK Flat " + "in OMR",
    description := Prop002Description,
    price := 6000000,
    location := Location(area := "OMR", city := "Chennai"),
    bhk := 2,
    sqft := 1100,
    propertyType := Apartment,
    forSaleBy := Agent,
    amenities := Prop002Amenities,
    images := Prop002Images,
    postedBy := Poster(id := "user-002", name := "Priya Investments", phone := "9876543211", email := "priya@example.com"),
    createdAt := 1696949100000 // 2023-10-10T14:45:00Z
  )

  const Prop003Amenities: seq<string> := [
    "Swimming Pool",
    "Garden",
    "Security",
    "Power Backup",
    "Car Parking",
    "Playground"
  ]

  const Prop003Description: string :=
    "Magnificent 4 BHK " + "villa with premium " + "amenities in ECR. " + "This property " + "features spacious " + "rooms, designer " + "interiors, and a " + "private garden. " + "Perfect for those " + "seeking luxury and " + "comfort."

  const Prop003Images: seq<string> := [
    "https://" + "images.pexels.com/" + "photos/323780/" + "pexels-photo-323780." + "jpeg",
    "https://" + "images.pexels.com/" + "photos/1396132/" + "pexels-photo-1396132" + ".jpeg",
    "https://" + "images.pexels.com/" + "photos/1029599/" + "pexels-photo-1029599" + ".jpeg"
  ]

  const Prop003: Property := Property(
    id := "prop-003",
    title := "Luxury 4 BHK Villa " + "in ECR",
    description := Prop003Description,
    price := 15000000,
    location := Location(area := "ECR", city := "Chennai"),
    bhk := 4,
    sqft := 2800,
    propertyType := Villa,
    forSaleBy := Owner,
    amenities := Prop003Amenities,
    images := Prop003Images,
    postedBy := Poster(id := "user-003", name := "Senthil Raja", phone := "9876543212", email := "senthil@example.com"),
    createdAt := 1696497300000 // 2023-10-05T09:15:00Z
  )

  const Prop004Amenities: seq<string> := [
    "Power Backup",
    "Lift",
    "Car Parking",
    "Security",
    "24x7 Water Supply",
    "CCTV"
  ]

  const Prop004Description: string :=
    "Prime commercial " + "property located in " + "the business hub of " + "RS Puram. Ideal for " + "offices, showrooms, " + "or retail " + "businesses. " + "Excellent " + "connectivity and " + "visibility with " + "high footfall."

  const Prop004Images: seq<string> := [
    "https://" + "images.pexels.com/" + "photos/1098982/" + "pexels-photo-1098982" + ".jpeg",
    "https://" + "images.pexels.com/" + "photos/260931/" + "pexels-photo-260931." + "jpeg",
    "https://" + "images.pexels.com/" + "photos/2079246/" + "pexels-photo-2079246" + ".jpeg"
  ]

  const Prop004: Property := Property(
    id := "prop-004",
    title := "Commercial Space in " + "RS Puram",
    description := Prop004Description,
    price := 12000000,
    location := Location(area := "RS Puram", city := "Coimbatore"),
    bhk := 0,
    sqft := 2000,
    propertyType := Commercial,
    forSaleBy := Agent,
    amenities := Prop004Amenities,
    images := Prop004Images,
    postedBy := Poster(id := "user-004", name := "Vignesh Properties", phone := "9876543213", email := "vignesh@example.com"),
    createdAt := 1695900000000 // 2023-09-28T11:20:00Z
  )

  const Prop005Amenities: seq<string> := [
    "Swimming Pool",
    "Gym",
    "Security",
    "Power Backup",
    "Lift",
    "Car Parking",
    "Playground",
    "Garden"
  ]

  const Prop005Description: string :=
    "Brand new 3 BHK " + "apartment with " + "modern amenities in " + "a prime location of " + "Velachery. The " + "apartment is part " + "of a newly " + "constructed " + "residential complex " + "with excellent " + "facilities."

  const Prop005Images: seq<string> := [
    "https://" + "images.pexels.com/" + "photos/1330753/" + "pexels-photo-1330753" + ".jpeg",
    "https://" + "images.pexels.com/" + "photos/271816/" + "pexels-photo-271816." + "jpeg",
    "https://" + "images.pexels.com/" + "photos/1457847/" + "pexels-photo-1457847" + ".jpeg"
  ]

  const Prop005: Property := Property(
    id := "prop-005",
    title := "New 3 BHK Apartment " + "in Velachery",
    description := Prop005Description,
    price := 7800000,
    location := Location(area := "Velachery", city := "Chennai"),
    bhk := 3,
    sqft := 1350,
    propertyType := Apartment,
    forSaleBy := Builder,
    amenities := Prop005Amenities,
    images := Prop005Images,
    postedBy := Poster(id := "builder-001", name := "Chennai Builders Ltd", phone := "9876543214", email := "info@chennaibuilders" + ".com"),
    createdAt := 1695228000000 // 2023-09-20T16:40:00Z
  )

  const Prop006Amenities: seq<string> := [
    "Gated Community",
    "Security",
    "Power Connection",
    "Water Connection"
  ]

  const Prop006Description: string :=
    "CMDA approved " + "residential plot in " + "a developing area " + "of Thindal. The " + "plot is in a gated " + "community with " + "basic amenities. " + "Great investment " + "opportunity with " + "potential for high " + "returns."

  const Prop006Images: seq<string> := [
    "https://" + "images.pexels.com/" + "photos/186077/" + "pexels-photo-186077." + "jpeg",
    "https://" + "images.pexels.com/" + "photos/209296/" + "pexels-photo-209296." + "jpeg"
  ]

  const Prop006: Property := Property(
    id := "prop-006",
    title := "Residential Plot in " + "Thindal",
    description := Prop006Description,
    price := 2500000,
    location := Location(area := "Thindal", city := "Erode"),
    bhk := 0,
    sqft := 1800,
    propertyType := Plot,
    forSaleBy := Agent,
    amenities := Prop006Amenities,
    images := Prop006Images,
    postedBy := Poster(id := "user-005", name := "Tamil Land Promoters", phone := "9876543215", email := "tamilland@example.co" + "m"),
    createdAt := 1694785800000 // 2023-09-15T13:50:00Z
  )

  const DummyProperties: seq<Property> := [Prop001, Prop002, Prop003, Prop004, Prop005, Prop006]

  const Review001Comment: string :=
    "Had a great " + "experience dealing " + "with Rajesh. He was " + "transparent and " + "provided all the " + "necessary " + "information about " + "the property."

  const Review001: Review := Review(
    id := "review-001",
    propertyId := Some("prop-001"),
    userId := "user-009",
    reviewedUserId := "user-001",
    rating := 4,
    comment := Review001Comment,
    createdAt := 1697643000000 // 2023-10-18T15:30:00Z
  )

  const Review002Comment: string :=
    "Priya was very " + "professional and " + "helped me find the " + "perfect property " + "within my budget. " + "Highly recommended!"

  const Review002: Review := Review(
    id := "review-002",
    propertyId := Some("prop-002"),
    userId := "user-010",
    reviewedUserId := "user-002",
    rating := 5,
    comment := Review002Comment,
    createdAt := 1697535900000 // 2023-10-17T09:45:00Z
  )

  const Review003Comment: string :=
    "The property was as " + "described, but " + "there were some " + "delays in the " + "possession. " + "Otherwise, the " + "builder was " + "cooperative."

  const Review003: Review := Review(
    id := "review-003",
    propertyId := Some("prop-005"),
    userId := "user-011",
    reviewedUserId := "builder-001",
    rating := 3,
    comment := Review003Comment,
    createdAt := 1697120400000 // 2023-10-12T14:20:00Z
  )

  const DummyReviews: seq<Review> := [Review001, Review002, Review003]

  const Project001Description: string :=
    "Green Valley is a " + "premium residential " + "project offering 2 " + "& 3 BHK apartments " + "with world-class " + "amenities. Located " + "in a prime area " + "with excellent " + "connectivity to " + "major parts of the " + "city."

  const Project001Images: seq<string> := [
    "https://" + "images.pexels.com/" + "photos/323780/" + "pexels-photo-323780." + "jpeg",
    "https://" + "images.pexels.com/" + "photos/1396132/" + "pexels-photo-1396132" + ".jpeg",
    "https://" + "images.pexels.com/" + "photos/1029599/" + "pexels-photo-1029599" + ".jpeg"
  ]

  const Project001: BuilderProject := BuilderProject(
    id := "project-001",
    builderId := "builder-001",
    name := "Green Valley " + "Apartments",
    description := Project001Description,
    location := Location(area := "Velachery", city := "Chennai"),
    projectType := Residential,
    unitsTotal := 120,
    unitsSold := 85,
    priceRange := PriceRange(min := 6000000, max := 9000000),
    amenities := [
      "Swimming Pool",
      "Gym",
      "Children's Play Area",
      "Club House",
      "Landscaped Gardens",
      "24x7 Security",
      "Power Backup",
      "Indoor Games"
    ],
    images := Project001Images,
    brochureUrl := None,
    completionDate := "2024-06-30",
    status := UnderConstruction,
    createdAt := 1673776800000 // 2023-01-15T10:00:00Z
  )

  const Project002Description: string :=
    "Sunrise Business " + "Park is a " + "state-of-the-art " + "commercial complex " + "designed for modern " + "businesses. It " + "offers flexible " + "office spaces, " + "retail units, and " + "premium amenities " + "for a conducive " + "work environment."

  const Project002Images: seq<string> := [
    "https://" + "images.pexels.com/" + "photos/1098982/" + "pexels-photo-1098982" + ".jpeg",
    "https://" + "images.pexels.com/" + "photos/260931/" + "pexels-photo-260931." + "jpeg",
    "https://" + "images.pexels.com/" + "photos/2079246/" + "pexels-photo-2079246" + ".jpeg"
  ]

  const Project002: BuilderProject := BuilderProject(
    id := "project-002",
    builderId := "builder-001",
    name := "Sunrise Business " + "Park",
    description := Project002Description,
    location := Location(area := "OMR", city := "Chennai"),
    projectType := CommercialProject,
    unitsTotal := 50,
    unitsSold := 20,
    priceRange := PriceRange(min := 10000000, max := 25000000),
    amenities := [
      "High-speed Elevators",
      "Food Court",
      "Conference Rooms",
      "24x7 Security",
      "Power Backup",
      "Ample Parking",
      "CCTV Surveillance"
    ],
    images := Project002Images,
    brochureUrl := None,
    completionDate := "2025-03-15",
    status := Upcoming,
    createdAt := 1679322600000 // 2023-03-20T14:30:00Z
  )

  const DummyBuilderProjects: seq<BuilderProject> := [Project001, Project002]

  /** The areas offered for each city. */
  const Areas: map<string, seq<string>> := map[
    "Chennai" := ["Anna Nagar", "T Nagar", "Adyar", "Velachery", "Porur", "Tambaram", "Chromepet", "Mylapore", "Sholinganallur", "OMR", "ECR"],
    "Coimbatore" := ["RS Puram", "Peelamedu", "Saibaba Colony", "Gandhipuram", "Singanallur", "Ganapathy", "Ramanathapuram"],
    "Madurai" := ["Anaiyur", "Anna Nagar", "Arappalayam", "KK Nagar", "Mattuthavani", "Palanganatham", "Tirupparankundram"],
    "Tiruchirappalli" := ["Thillai Nagar", "Cantonment", "Woraiyur", "KK Nagar", "Srirangam", "Anna Nagar"],
    "Salem" := ["Hasthampatti", "Junction", "Fairlands", "Alagapuram", "Suramangalam", "Shevapet"],
    "Tirunelveli" := ["Palayamkottai", "Melapalayam", "Vannarpettai", "Tirunelveli Town", "Junction"],
    "Thoothukudi" := ["Bryant Nagar", "Millerpuram", "Thoothukudi Port", "Mappillaiyurani", "Lourdammalpuram"],
    "Vellore" := ["Katpadi", "Sathuvachari", "Gandhi Nagar", "Bagayam", "Konavattam", "Thorapadi"],
    "Erode" := ["Periyar Nagar", "Solar", "Sathy Road", "Thindal", "GH", "Sampath Nagar"],
    "Theni" := ["Cumbum", "Periyakulam", "Uthamapalayam", "Chinnamanur", "Bodinayakanur"],
    "Dindigul" := ["Nagal Nagar", "Palani Road", "Battalagundu", "Natham", "Oddanchatram"],
    "Thanjavur" := ["Medical College Road", "Gandhiji Road", "Old Bus Stand", "New Bus Stand", "Nanjikottai Road"],
    "Tiruppur" := ["Avinashi Road", "Kangeyam Road", "Palladam Road", "Dharapuram Road", "KVR Nagar"],
    "Karur" := ["Thanthonimalai", "Pasupatheesvarar " + "Kovil", "Vengamedu", "Gandhigramam", "Inam Karur"],
    "Namakkal" := ["Namakkal Town", "Mohanur Road", "Paramathi Road", "Sendamangalam", "Puduchatram"],
    "Kanchipuram" := ["Big Kanchipuram", "Little Kanchipuram", "Pillayarpalayam", "Enathur", "Vaiyavoor"]
  ]

  const TamilNaduCities: seq<string> := ["Chennai", "Coimbatore", "Madurai", "Tiruchirappalli", "Salem", "Tirunelveli", "Thoothukudi", "Vellore", "Erode", "Theni", "Dindigul", "Thanjavur", "Tiruppur", "Karur", "Namakkal", "Kanchipuram"]

  /** The amenity vocabulary offered by the forms. */
  const AmenityNames: seq<string> := ["Swimming Pool", "Gym", "Security", "Power Backup", "Lift", "Car Parking", "Playground", "Garden", "Gated Community", "Club House", "Indoor Games", "24x7 Water Supply", "CCTV", "Fire Safety", "Visitor Parking", "Community Hall"]

  /** The city drop-downs offer exactly the cities that have an area list. */
  lemma CitiesAreAreaKeys()
    ensures forall c :: c in TamilNaduCities <==> c in Areas
  {
  }

  /**
   * The seeded listings' amenities against the vocabulary the forms offer:
   * the first five use only offered names, while the plot lists two that no
   * checkbox offers, so no amenity filter can ask for them.
   */
  lemma SeededAmenitiesOffered()
    ensures forall a :: a in Prop001Amenities ==> a in AmenityNames
    ensures forall a :: a in Prop005Amenities ==> a in AmenityNames
    ensures "Power Connection" in Prop006Amenities && "Power Connection" !in AmenityNames
    ensures "Water Connection" in Prop006Amenities && "Water Connection" !in AmenityNames
  {
  }

  /** The areas of `city`, and whether `area` is one of them. */
  predicate ValidLocation(city: string, area: string) {
    city in Areas && area in Areas[city]
  }

  /**
   * The filter bag handed to the query. Every field may be undefined (None);
   * the query tests each with JavaScript truthiness, so `""` and `0` impose no
   * constraint either.
   */
  datatype Filters = Filters(
    city: Option<string>,
    area: Option<string>,
    bhk: Option<int>,
    propertyType: Option<string>,
    minPrice: Option<int>,
    maxPrice: Option<int>,
    amenities: Option<seq<string>>
  )

  const NoFilters: Filters := Filters(None, None, None, None, None, None, None)

  /** `filters.amenities && filters.amenities.length > 0` */
  predicate RequestsAmenities(f: Filters) {
    f.amenities.Some? && |f.amenities.value| > 0
  }

  /** `wanted.every(a => p.amenities.includes(a))` */
  predicate HasAllAmenities(p: Property, wanted: seq<string>) {
    forall a :: a in wanted ==> a in p.amenities
  }

  /** The conjunction of every predicate whose filter value is truthy. */
  predicate Matches(f: Filters, p: Property) {
    && (TruthyString(f.city) ==> p.location.city == f.city.value)
    && (TruthyString(f.area) ==> p.location.area == f.area.value)
    && (TruthyNumber(f.bhk) ==> p.bhk == f.bhk.value)
    && (TruthyString(f.propertyType) ==> TypeName(p.propertyType) == f.propertyType.value)
    && (TruthyNumber(f.minPrice) ==> p.price >= f.minPrice.value)
    && (TruthyNumber(f.maxPrice) ==> p.price <= f.maxPrice.value)
    && (RequestsAmenities(f) ==> HasAllAmenities(p, f.amenities.value))
  }

  /** The reference answer of the query: the properties that match, in store order. */
  function SelectMatching(store: seq<Property>, f: Filters): seq<Property> {
    Filter(store, (p: Property) => Matches(f, p))
  }

  /** The answer holds exactly the stored properties that match, without reordering them. */
  lemma SelectMatchingSpec(store: seq<Property>, f: Filters)
    ensures forall p :: p in SelectMatching(store, f) <==> p in store && Matches(f, p)
    ensures IsSubsequence(SelectMatching(store, f), store)
  {
    var keep := (p: Property) => Matches(f, p);
    FilterMembership(store, keep);
    FilterSubsequence(store, keep);
  }

  // The query applies its seven guarded filters in a fixed order; stage k of
  // the pipeline has applied the first k of them.

  /** Whether the k-th filter of the pipeline is switched on. */
  predicate StageGuard(f: Filters, k: nat) {
    if k == 0 then TruthyString(f.city)
    else if k == 1 then TruthyString(f.area)
    else if k == 2 then TruthyNumber(f.bhk)
    else if k == 3 then TruthyString(f.propertyType)
    else if k == 4 then TruthyNumber(f.minPrice)
    else if k == 5 then TruthyNumber(f.maxPrice)
    else if k == 6 then RequestsAmenities(f)
    else false
  }

  function CityIs(city: string): Property -> bool {
    (p: Property) => p.location.city == city
  }

  function AreaIs(area: string): Property -> bool {
    (p: Property) => p.location.area == area
  }

  function BhkIs(bhk: int): Property -> bool {
    (p: Property) => p.bhk == bhk
  }

  function TypeIs(t: string): Property -> bool {
    (p: Property) => TypeName(p.propertyType) == t
  }

  function PriceAtLeast(lo: int): Property -> bool {
    (p: Property) => p.price >= lo
  }

  function PriceAtMost(hi: int): Property -> bool {
    (p: Property) => p.price <= hi
  }

  function OffersAll(wanted: seq<string>): Property -> bool {
    (p: Property) => HasAllAmenities(p, wanted)
  }

  /** The test the k-th filter applies once it is switched on. */
  function StageKeep(f: Filters, k: nat): Property -> bool
    requires StageGuard(f, k)
  {
    if k == 0 then CityIs(f.city.value)
    else if k == 1 then AreaIs(f.area.value)
    else if k == 2 then BhkIs(f.bhk.value)
    else if k == 3 then TypeIs(f.propertyType.value)
    else if k == 4 then PriceAtLeast(f.minPrice.value)
    else if k == 5 then PriceAtMost(f.maxPrice.value)
    else OffersAll(f.amenities.value)
  }

  /** What the pipeline holds after its first k filters. */
  function Stage(store: seq<Property>, f: Filters, k: nat): seq<Property> {
    if k == 0 then store
    else if StageGuard(f, k - 1) then Filter(Stage(store, f, k - 1), StageKeep(f, k - 1))
    else Stage(store, f, k - 1)
  }

  /** A property passes stage j when that stage is off or its test holds. */
  predicate PassesStage(f: Filters, j: nat, p: Property) {
    StageGuard(f, j) ==> StageKeep(f, j)(p)
  }

  predicate PassesFirst(f: Filters, k: nat, p: Property) {
    forall j :: 0 <= j < k ==> PassesStage(f, j, p)
  }

  function PassingFirst(f: Filters, k: nat): Property -> bool {
    (p: Property) => PassesFirst(f, k, p)
  }

  lemma PassesFirstStep(f: Filters, k: nat, p: Property)
    requires k > 0
    ensures PassesFirst(f, k, p) == (PassesFirst(f, k - 1, p) && PassesStage(f, k - 1, p))
  {
    assert PassesFirst(f, k, p) ==> PassesStage(f, k - 1, p);
  }

  /** Stage k is one filter of the store by the first k tests together. */
  lemma {:induction false} StageIsOneFilter(store: seq<Property>, f: Filters, k: nat)
    ensures Stage(store, f, k) == Filter(store, PassingFirst(f, k))
  {
    if k == 0 {
      FilterKeepsAll(store, PassingFirst(f, 0));
    } else {
      StageIsOneFilter(store, f, k - 1);
      StageStep(store, f, k);
    }
  }

  /** One more stage narrows the single filter by one more test. */
  lemma StageStep(store: seq<Property>, f: Filters, k: nat)
    requires k > 0
    requires Stage(store, f, k - 1) == Filter(store, PassingFirst(f, k - 1))
    ensures Stage(store, f, k) == Filter(store, PassingFirst(f, k))
  {
    if StageGuard(f, k - 1) {
      var keep := StageKeep(f, k - 1);
      forall p | p in store
        ensures PassingFirst(f, k)(p) == (PassingFirst(f, k - 1)(p) && keep(p))
      {
        PassesFirstStep(f, k, p);
      }
      FilterFilter(store, PassingFirst(f, k - 1), keep, PassingFirst(f, k));
      assert Stage(store, f, k) == Filter(Stage(store, f, k - 1), keep);
    } else {
      forall p | p in store
        ensures PassingFirst(f, k - 1)(p) == PassingFirst(f, k)(p)
      {
        PassesFirstStep(f, k, p);
      }
      FilterExt(store, PassingFirst(f, k - 1), PassingFirst(f, k));
      assert Stage(store, f, k) == Stage(store, f, k - 1);
    }
  }

  /** After all seven stages the pipeline has computed the reference answer. */
  lemma StageAll(store: seq<Property>, f: Filters)
    ensures Stage(store, f, 7) == SelectMatching(store, f)
  {
    StageIsOneFilter(store, f, 7);
    forall p | p in store
      ensures PassesFirst(f, 7, p) == Matches(f, p)
    {
      assert PassesFirst(f, 7, p) <==>
        PassesStage(f, 0, p) && PassesStage(f, 1, p) && PassesStage(f, 2, p) && PassesStage(f, 3, p) &&
        PassesStage(f, 4, p) && PassesStage(f, 5, p) && PassesStage(f, 6, p);
    }
    FilterExt(store, PassingFirst(f, 7), (p: Property) => Matches(f, p));
  }

  /**
   * `fetchPropertiesByFilters`: copy the store, then narrow the copy by each
   * filter whose value is truthy, in the order city, area, bhk, type, minimum
   * price, maximum price, amenities.
   */
  method FetchPropertiesByFilters(store: seq<Property>, filters: Filters) returns (filtered: seq<Property>)
    ensures filtered == SelectMatching(store, filters)
  {
    filtered := store;
    if TruthyString(filters.city) {
      filtered := Filter(filtered, CityIs(filters.city.value));
    }
    assert filtered == Stage(store, filters, 1);
    if TruthyString(filters.area) {
      filtered := Filter(filtered, AreaIs(filters.area.value));
    }
    assert filtered == Stage(store, filters, 2);
    if TruthyNumber(filters.bhk) {
      filtered := Filter(filtered, BhkIs(filters.bhk.value));
    }
    assert filtered == Stage(store, filters, 3);
    if TruthyString(filters.propertyType) {
      filtered := Filter(filtered, TypeIs(filters.propertyType.value));
    }
    assert filtered == Stage(store, filters, 4);
    if TruthyNumber(filters.minPrice) {
      filtered := Filter(filtered, PriceAtLeast(filters.minPrice.value));
    }
    assert filtered == Stage(store, filters, 5);
    if TruthyNumber(filters.maxPrice) {
      filtered := Filter(filtered, PriceAtMost(filters.maxPrice.value));
    }
    assert filtered == Stage(store, filters, 6);
    if RequestsAmenities(filters) {
      filtered := Filter(filtered, OffersAll(filters.amenities.value));
    }
    assert filtered == Stage(store, filters, 7);
    StageAll(store, filters);
  }

  /** No filter value is truthy. */
  predicate NoConstraint(f: Filters) {
    !TruthyString(f.city) && !TruthyString(f.area) && !TruthyNumber(f.bhk) &&
    !TruthyString(f.propertyType) && !TruthyNumber(f.minPrice) && !TruthyNumber(f.maxPrice) &&
    !RequestsAmenities(f)
  }

  /** Falsy values (`""`, `0`, undefined, an empty amenity list) constrain nothing: the whole store comes back. */
  lemma {:induction false} NoConstraintReturnsAll(store: seq<Property>, f: Filters)
    requires NoConstraint(f)
    ensures SelectMatching(store, f) == store
  {
    FilterKeepsAll(store, (p: Property) => Matches(f, p));
  }

  /** Each falsy field can be replaced by undefined without changing the answer. */
  function WithoutFalsy(f: Filters): (g: Filters)
    ensures NoConstraint(f) ==> g == NoFilters
  {
    Filters(
      if TruthyString(f.city) then f.city else None,
      if TruthyString(f.area) then f.area else None,
      if TruthyNumber(f.bhk) then f.bhk else None,
      if TruthyString(f.propertyType) then f.propertyType else None,
      if TruthyNumber(f.minPrice) then f.minPrice else None,
      if TruthyNumber(f.maxPrice) then f.maxPrice else None,
      if RequestsAmenities(f) then f.amenities else None)
  }

  lemma {:induction false} FalsyFieldsIgnored(store: seq<Property>, f: Filters)
    ensures SelectMatching(store, f) == SelectMatching(store, WithoutFalsy(f))
  {
    FilterExt(store, (p: Property) => Matches(f, p), (p: Property) => Matches(WithoutFalsy(f), p));
  }

  /** `fetchPropertyById`: the first property with that id, or undefined. */
  function FetchPropertyById(store: seq<Property>, id: string): (r: Option<Property>)
    ensures r.None? <==> forall p :: p in store ==> p.id != id
    ensures r.Some? ==> r.value in store && r.value.id == id
    ensures r.Some? ==> exists i :: 0 <= i < |store| && store[i] == r.value &&
                                    forall j :: 0 <= j < i ==> store[j].id != id
  {
    Find(store, (p: Property) => p.id == id)
  }

  /** `fetchReviewsByUserId`: the reviews about `userId`, in collection order. */
  function FetchReviewsByUserId(reviews: seq<Review>, userId: string): (r: seq<Review>)
    ensures forall v :: v in r <==> v in reviews && v.reviewedUserId == userId
    ensures IsSubsequence(r, reviews)
  {
    var keep := (v: Review) => v.reviewedUserId == userId;
    FilterMembership(reviews, keep);
    FilterSubsequence(reviews, keep);
    Filter(reviews, keep)
  }

  /** `fetchBuilderProjects`: the builder's projects when an id is given, every project otherwise. */
  function FetchBuilderProjects(projects: seq<BuilderProject>, builderId: Option<string>): (r: seq<BuilderProject>)
    ensures TruthyString(builderId) ==>
              (forall q :: q in r <==> q in projects && q.builderId == builderId.value) &&
              IsSubsequence(r, projects)
    ensures !TruthyString(builderId) ==> r == projects
  {
    if TruthyString(builderId) then
      var id := builderId.value;
      var keep := (q: BuilderProject) => q.builderId == id;
      FilterMembership(projects, keep);
      FilterSubsequence(projects, keep);
      Filter(projects, keep)
    else projects
  }

  // The seeded store answers the sample queries as follows.

  /** The query over the seeded store, one property at a time. */
  lemma SelectSeeded(f: Filters)
    ensures SelectMatching(DummyProperties, f)
            == var keep := (p: Property) => Matches(f, p);
               KeptIf(keep, Prop001) + (KeptIf(keep, Prop002) + (KeptIf(keep, Prop003) +
               (KeptIf(keep, Prop004) + (KeptIf(keep, Prop005) + KeptIf(keep, Prop006)))))
  {
    FilterSix(DummyProperties, (p: Property) => Matches(f, p));
  }

  lemma ChennaiQuery()
    ensures SelectMatching(DummyProperties, NoFilters.(city := Some("Chennai")))
            == [Prop001, Prop002, Prop003, Prop005]
  {
    var f := NoFilters.(city := Some("Chennai"));
    SelectSeeded(f);
    var keep := (p: Property) => Matches(f, p);
    assert KeptIf(keep, Prop001) == [Prop001];
    assert KeptIf(keep, Prop002) == [Prop002];
    assert KeptIf(keep, Prop003) == [Prop003];
    assert KeptIf(keep, Prop004) == [];
    assert KeptIf(keep, Prop005) == [Prop005];
    assert KeptIf(keep, Prop006) == [];
  }

  lemma ChennaiThreeBhkQuery()
    ensures SelectMatching(DummyProperties, NoFilters.(city := Some("Chennai"), bhk := Some(3)))
            == [Prop001, Prop005]
  {
    var f := NoFilters.(city := Some("Chennai"), bhk := Some(3));
    SelectSeeded(f);
    assert !Matches(f, Prop002) && !Matches(f, Prop003) && !Matches(f, Prop004) && !Matches(f, Prop006);
  }

  lemma PriceRangeQuery()
    ensures SelectMatching(DummyProperties, NoFilters.(minPrice := Some(7000000), maxPrice := Some(9000000)))
            == [Prop001, Prop005]
  {
    var f := NoFilters.(minPrice := Some(7000000), maxPrice := Some(9000000));
    SelectSeeded(f);
  }

  /** The amenity facts of the seeded listings that the amenity query turns on. */
  lemma SeededAmenities()
    ensures "Garden" !in Prop001Amenities
    ensures "Swimming Pool" !in Prop002Amenities
    ensures "Swimming Pool" in Prop003Amenities && "Garden" in Prop003Amenities
    ensures "Swimming Pool" !in Prop004Amenities
    ensures "Swimming Pool" in Prop005Amenities && "Garden" in Prop005Amenities
    ensures "Swimming Pool" !in Prop006Amenities
  {
    assert Prop003Amenities[0] == "Swimming Pool" && Prop003Amenities[1] == "Garden";
    assert Prop005Amenities[0] == "Swimming Pool" && Prop005Amenities[7] == "Garden";
  }

  /** Which seeded listings offer both a swimming pool and a garden. */
  lemma AmenityVerdicts(f: Filters)
    requires f == NoFilters.(amenities := Some(["Swimming Pool", "Garden"]))
    ensures !Matches(f, Prop001) && !Matches(f, Prop002) && Matches(f, Prop003)
    ensures !Matches(f, Prop004) && Matches(f, Prop005) && !Matches(f, Prop006)
  {
    assert "Swimming Pool" in f.amenities.value && "Garden" in f.amenities.value;
    SeededAmenities();
  }

  lemma AmenityQuery()
    ensures SelectMatching(DummyProperties, NoFilters.(amenities := Some(["Swimming Pool", "Garden"])))
            == [Prop003, Prop005]
  {
    var f := NoFilters.(amenities := Some(["Swimming Pool", "Garden"]));
    SelectSeeded(f);
    AmenityVerdicts(f);
  }

  /** `bhk: 0` is falsy, so it cannot single out the plot and the commercial space. */
  lemma ZeroBhkQuery()
    ensures SelectMatching(DummyProperties, NoFilters.(bhk := Some(0))) == DummyProperties
  {
    NoConstraintReturnsAll(DummyProperties, NoFilters.(bhk := Some(0)));
  }
}
