# Tamil Nadu real-estate listings — a Dafny model of the query and page logic

This project models the logic under the real-estate web application's pages.
Its user interface is left out. The modelled parts are:

- **The in-memory store and its queries** (`PropertyData`).
  - The seeded listings, reviews and builder projects.
  - `fetchPropertiesByFilters`: up to seven filters, each guarded by JavaScript truthiness.
  - The id and user lookups.
- **The listing page** (`PropertyListingPage`).
  - Builds the query from the URL and sidebar inputs.
  - Orders the answer in one of three sort modes.
  - Ticks amenities and clears the filters.
- **The search form** (`PropertySearch`).
  - Picking a city clears the area and offers that city's areas.
  - Submitting hands on the record of filled-in fields.
- **The add-property form** (`AddPropertyPage`).
  - A five-image cap, removal by index, the area choices and the sign-in guard.
- **The detail page** (`PropertyDetailPage`).
  - Loads one listing and its owner's reviews.
  - The image carousel's wrap-around index.
- **The two dashboards** (`BuilderDashboardPage`, `UserDashboardPage`).
  - Access guards, deleting a project, the summary figures and the demo ownership test.
- **The mock authentication context** (`AuthContext`).
  - Login against the two demo accounts, signup, logout and `isBuilder`.
  - The session kept under the `"user"` key of local storage, restored on mount.

Two support modules are shared. `Js` holds JavaScript truthiness, `parseInt` with no radix, `%` truncating toward zero, `URLSearchParams.get`, and `|| ""`. `Arrays` holds `filter` and `find` over sequences, with their laws.

## How JavaScript is represented

- An optional value is an `Option`; `None` stands for `undefined` (and for `NaN` from `parseInt`).
- The guards of the query test truthiness exactly: `Some("")` and `Some(0)` are present but falsy, so they constrain nothing.
- A class stands for each page or provider whose state the source updates through setters. Its methods are the handlers and effects, each stating its whole new state.
- `fetchPropertiesByFilters` reassigns a local through seven guarded filters, as the source does. It is proved equal to one reference filter by the conjunction of the truthy tests.
- `Array.prototype.sort` has been stable since ES2019. It is modelled as a stable insertion sort on a rank: the negated timestamp, the price, or the negated price. The sort method is proved to return a permutation, ordered as each mode promises. Equal ranks keep the fetched order.
- `createdAt` is a whole number of milliseconds since the epoch, the value `new Date(createdAt).getTime()` gives for the seeded ISO strings.

## Behaviour of the code that differs from what one might expect

Each of these is modelled as the code behaves.

- **Toggling a ticked amenity twice does not restore the list.** The first toggle removes it and the second toggle appends it at the end. `Amenities.ToggleTwiceReorders` exhibits this. A second toggle restores the list exactly only when the amenity was not ticked (`Amenities.ToggleTwiceAbsent`). It always restores the same selection as a set (`Amenities.ToggleTwiceSameSelection`) and the same listing (`PropertyListingPage.ToggleTwiceSameListing`).
- **The detail page's failure path does not clear the listing.** It sets the error and leaves `property` and `reviews` as they were. The listing is absent after a failure only on a freshly opened page (`PropertyDetailPage.OpenPage`). A success does not clear an earlier error.
- **Stored `null` still signs in.** A stored `"user"` entry whose text is `null` parses. The mount effect then sets `isAuthenticated` with no user.
- **The builder dashboard shows every seeded project.** It loads all the seeded projects, not only the signed-in builder's.
- **The add-property form keeps a stale area.** Changing the city there keeps the chosen area, unlike the search form.
- **A login or signup whose save fails still signs in.** `login` and `signup` set the user and the flag before `localStorage.setItem`. When that write throws, the `catch` answers false, but the page holds the new session and storage keeps its old entry. A reload then comes back signed out (`AuthContext.ReloadAfterLogin`).
- **Some seeded amenities cannot be filtered for.** The plot lists "Power Connection" and "Water Connection", which the amenity checkboxes do not offer (`PropertyData.SeededAmenitiesOffered`).
- **A `bhk` of 0 filters nothing.** `bhk: 0` is falsy, so it cannot single out the plot and the commercial space (`PropertyData.ZeroBhkQuery`).

## Model

| member | source | states |
|---|---|---|
| PropertyData.SelectMatchingSpec | src/data/propertyData.ts:352-386 | the query's answer holds exactly the stored properties that pass every truthy test, and it is a subsequence of the store (store order kept, never longer) |
| PropertyData.FetchPropertiesByFilters | src/data/propertyData.ts:352-386 | the seven guarded filter steps over the copied store compute the reference answer `SelectMatching` |
| PropertyData.StageIsOneFilter | src/data/propertyData.ts:353-383 | after the first k guarded steps the list is one filter of the store by the first k tests together |
| PropertyData.StageAll | src/data/propertyData.ts:355-383 | after all seven steps the list is the filter by the conjunction of the truthy tests (city, area, bhk, type, price bounds inclusive, amenity subset) |
| PropertyData.NoConstraintReturnsAll | src/data/propertyData.ts:355-379 | when no filter value is truthy (`""`, `0`, undefined, an empty amenity list) the whole store comes back unchanged |
| PropertyData.WithoutFalsy | src/data/propertyData.ts:355-379 | dropping every falsy filter value gives the empty filter when nothing is truthy |
| PropertyData.FalsyFieldsIgnored | src/data/propertyData.ts:355-379 | replacing each falsy filter value by undefined never changes the answer |
| PropertyData.FetchPropertyById | src/data/propertyData.ts:347-350 | undefined exactly when no property has the id; otherwise the first property with that id |
| PropertyData.FetchReviewsByUserId | src/data/propertyData.ts:388-391 | exactly the reviews about that user, as a subsequence of the collection |
| PropertyData.FetchBuilderProjects | src/data/propertyData.ts:393-399 | with a truthy id, exactly that builder's projects in order; otherwise every project |
| PropertyData.SelectSeeded | src/data/propertyData.ts:59-221 | the query over the six seeded listings keeps each listing exactly when it matches, in seed order |
| PropertyData.ChennaiQuery | src/data/propertyData.ts:59-221 | `{city: "Chennai"}` returns prop-001, prop-002, prop-003 and prop-005 |
| PropertyData.ChennaiThreeBhkQuery | src/data/propertyData.ts:59-221 | `{city: "Chennai", bhk: 3}` returns prop-001 and prop-005 |
| PropertyData.PriceRangeQuery | src/data/propertyData.ts:59-221 | `{minPrice: 7000000, maxPrice: 9000000}` returns prop-001 and prop-005 |
| PropertyData.SeededAmenities | src/data/propertyData.ts:59-221 | which seeded listings offer a swimming pool and a garden |
| PropertyData.AmenityVerdicts | src/data/propertyData.ts:379-383 | of the seeded listings only prop-003 and prop-005 offer both requested amenities |
| PropertyData.AmenityQuery | src/data/propertyData.ts:379-383 | `{amenities: ["Swimming Pool", "Garden"]}` returns prop-003 and prop-005 |
| PropertyData.CitiesAreAreaKeys | src/data/propertyData.ts:26-50 | the city list the drop-downs offer names exactly the cities of the area table |
| PropertyData.SeededAmenitiesOffered | src/data/propertyData.ts:52-57 | prop-001 and prop-005 use only offered amenity names, and the plot prop-006 lists "Power Connection" and "Water Connection", which no checkbox offers |
| PropertyData.ZeroBhkQuery | src/data/propertyData.ts:363-365 | `bhk: 0` is falsy, so the whole seeded store comes back |
| Js.ParseInt | src/pages/PropertyListingPage.tsx:31-34 | `parseInt` with no radix skips leading white space, reads one optional sign and, after `0x` or `0X`, hexadecimal digits; it is NaN exactly when no digit follows, otherwise the signed value of the digit run; an all-digit string reads as its decimal value |
| Js.ParseIntSkipsSpace | src/pages/PropertyListingPage.tsx:31-34 | a white-space character (ECMAScript's WhiteSpace or LineTerminator) in front of the text never changes what `parseInt` reads |
| Js.ParseIntNegates | src/pages/PropertyListingPage.tsx:31-34 | a `-` in front of text with no white space or sign of its own negates the number `parseInt` reads, and leaves NaN as NaN |
| Js.ParseIntTrailingText | src/pages/PropertyListingPage.tsx:31-34 | `parseInt("3 BHK")` is 3: reading stops at the first non-digit |
| Js.ParseIntNoDigits | src/pages/PropertyListingPage.tsx:31-34 | `parseInt("BHK")` is NaN |
| Js.ParseIntLeadingSpace | src/pages/PropertyListingPage.tsx:31-34 | `parseInt(" 12")` is 12: leading white space is skipped |
| Js.ParseIntMinus | src/pages/PropertyListingPage.tsx:33-34 | `parseInt("-12")` is -12, so a typed minus sign gives a negative price bound |
| Js.ParseIntTwoSigns | src/pages/PropertyListingPage.tsx:31-34 | `parseInt("--5")` is NaN: only one sign is read |
| Js.ParseIntHexPrefix | src/pages/PropertyListingPage.tsx:31-34 | `parseInt("0x3")` is 3: a `0x` prefix selects hexadecimal |
| Js.ParseIntHexLetters | src/pages/PropertyListingPage.tsx:31-34 | `parseInt("0X1f")` is 31: hexadecimal letters count in either case |
| Js.ParseIntBareHexPrefix | src/pages/PropertyListingPage.tsx:31-34 | `parseInt("0x")` is NaN, not 0 |
| Js.ParamGet | src/pages/PropertyListingPage.tsx:29-32 | `URLSearchParams.get` is null exactly when no parameter has the key, and otherwise the value of the first one that has it |
| Js.OrEmpty | src/pages/PropertyListingPage.tsx:29-32 | `x \|\| ""` is the value when it is truthy and the empty string otherwise |
| PropertyListingPage.BuildFilters | src/pages/PropertyListingPage.tsx:28-36 | city, area and type are the URL values or `""`; bhk is `parseInt` of the URL value when that is truthy; each price bound is undefined for an empty input and `parseInt` of any other input; the amenities are undefined exactly when none are ticked |
| PropertyListingPage.EmptyInputsListEverything | src/pages/PropertyListingPage.tsx:28-38 | with no URL parameters, empty price inputs and nothing ticked, the page lists the whole store |
| PropertyListingPage.SearchRecordFilters | src/pages/PropertyListingPage.tsx:19-36 | the query the page derives from the search form's record carries each filled-in field, and the price bounds and amenities the sidebar holds, as with no URL parameters |
| PropertyListingPage.SearchThenList | src/pages/PropertyListingPage.tsx:19-38 | after a search, whatever price bounds and amenities the sidebar holds, a property is listed exactly when it agrees with every filled-in field of the form and passes the sidebar's own query |
| PropertyListingPage.NegativePriceBound | src/pages/PropertyListingPage.tsx:33 | a typed minimum price of `-12` becomes the bound -12 |
| PropertyListingPage.CheckboxesStayOffered | src/pages/PropertyListingPage.tsx:57-63 | toggling checkboxes drawn from the amenity vocabulary keeps the selection inside that vocabulary |
| PropertyListingPage.HexBhkParam | src/pages/PropertyListingPage.tsx:31 | a URL `bhk` of `0x3` asks for three bedrooms |
| PropertyListingPage.ParseSortMode | src/pages/PropertyListingPage.tsx:42-47 | each of "newest", "price_low" and "price_high" selects its own mode, and any other value selects none |
| PropertyListingPage.InsertPermutes | src/pages/PropertyListingPage.tsx:41-48 | inserting an element into a list gives a permutation of the list plus that element |
| PropertyListingPage.InsertSorted | src/pages/PropertyListingPage.tsx:41-48 | inserting into a list sorted by rank keeps it sorted |
| PropertyListingPage.InsertStable | src/pages/PropertyListingPage.tsx:41-48 | the inserted element goes before every element of equal rank |
| PropertyListingPage.StableSortPermutes | src/pages/PropertyListingPage.tsx:41-48 | the sorted list is a permutation of the fetched list |
| PropertyListingPage.StableSortSorted | src/pages/PropertyListingPage.tsx:41-48 | the sorted list is non-decreasing in rank |
| PropertyListingPage.StableSortStable | src/pages/PropertyListingPage.tsx:41-48 | properties of equal rank keep their fetched order |
| PropertyListingPage.SortProperties | src/pages/PropertyListingPage.tsx:41-48 | a permutation of the fetched list: newest first by `createdAt`, cheapest first, or dearest first, ties in fetched order; any other mode leaves the fetched order |
| PropertyListingPage.PropertyNoun | src/pages/PropertyListingPage.tsx:160 | the label is "property" exactly for one result and "properties" otherwise |
| PropertyListingPage.ListingPage.constructor | src/pages/PropertyListingPage.tsx:12-22 | the page starts loading, with nothing listed, nothing ticked, empty price inputs and the "newest" sort |
| PropertyListingPage.ListingPage.FetchProperties | src/pages/PropertyListingPage.tsx:24-55 | the effect lists the query's answer for the current inputs, sorted by the current mode, and stops loading; the inputs are unchanged |
| PropertyListingPage.ListingPage.HandleAmenityChange | src/pages/PropertyListingPage.tsx:57-63 | the selection becomes the toggle of the amenity; nothing else changes |
| PropertyListingPage.ListingPage.ClearFilters | src/pages/PropertyListingPage.tsx:194-198 | amenities and both price inputs are reset and the sort mode is left alone |
| PropertyListingPage.ToggleTwiceSameListing | src/pages/PropertyListingPage.tsx:57-63 | ticking and unticking an amenity leaves the listed properties as they were |
| Amenities.ToggleMembership | src/pages/PropertyListingPage.tsx:57-63 | after a toggle the amenity is ticked exactly when it was not, and every other amenity keeps its state |
| Amenities.ToggleKeepsDistinct | src/pages/PropertyListingPage.tsx:57-63 | a selection without duplicates stays without duplicates |
| Amenities.ToggleTwiceAbsent | src/pages/AddPropertyPage.tsx:33-39 | toggling an unticked amenity twice restores the selection exactly |
| Amenities.ToggleTwicePresent | src/pages/AddPropertyPage.tsx:33-39 | toggling a ticked amenity twice moves it to the end of the selection |
| Amenities.ToggleTwiceSameSelection | src/pages/AddPropertyPage.tsx:33-39 | toggling twice always restores which amenities are ticked |
| Amenities.ToggleTwiceReorders | src/pages/AddPropertyPage.tsx:33-39 | a concrete selection whose order two toggles change |
| PropertySearch.CurrentAreas | src/components/properties/PropertySearch.tsx:22-29 | a city's areas when it is a key of `areas`, none otherwise (the empty city included); an area is offered exactly when the location is valid |
| PropertySearch.SearchForm.constructor | src/components/properties/PropertySearch.tsx:16-20 | every field of the form starts empty |
| PropertySearch.SearchForm.SelectCity | src/components/properties/PropertySearch.tsx:22-29 | a different city clears the area and offers that city's areas; the same city changes nothing |
| PropertySearch.SearchForm.SelectArea | src/components/properties/PropertySearch.tsx:17 | only the area changes |
| PropertySearch.SearchForm.SelectType | src/components/properties/PropertySearch.tsx:18 | only the type changes |
| PropertySearch.SearchForm.SelectBhk | src/components/properties/PropertySearch.tsx:19 | only the bhk changes |
| PropertySearch.SearchForm.HandleSubmit | src/components/properties/PropertySearch.tsx:31-47 | with `onSearch` it is called with the record and no navigation happens; otherwise it navigates to /properties with the record as the query parameters |
| PropertySearch.BuildRecord | src/components/properties/PropertySearch.tsx:34-38 | the key-by-key record holds the truthy fields in the order city, area, type, bhk |
| PropertySearch.CopyParams | src/components/properties/PropertySearch.tsx:43-44 | the `forEach` appends every record entry, in order, to the empty parameters |
| PropertySearch.RecordGet | src/components/properties/PropertySearch.tsx:34-38 | looking a key up in the record finds the field's unchanged value exactly when it was filled in |
| PropertySearch.RecordOnlyFilledFields | src/components/properties/PropertySearch.tsx:34-38 | every entry of the record is a non-empty value under one of the four keys |
| PropertySearch.RecordOrder | src/components/properties/PropertySearch.tsx:35-44 | the record is a subsequence of city, area, type, bhk, one entry per filled-in field |
| PropertySearch.EmptyFormEmptyRecord | src/components/properties/PropertySearch.tsx:34-38 | an untouched form submits an empty record |
| AddPropertyPage.CollectImages | src/pages/AddPropertyPage.tsx:44-57 | the old images followed by the first `min(files, 5 - images)` files (none once five are held); the cap toast fires exactly when a file was left out; never more than five |
| AddPropertyPage.SpliceOne | src/pages/AddPropertyPage.tsx:61-65 | `splice(index, 1)`: an index in range drops that entry, a negative one counts from the end and is clamped at the first entry, one at or past the end drops nothing |
| AddPropertyPage.SpliceOneRemovesEntry | src/pages/AddPropertyPage.tsx:61-65 | removing an index in range lowers the length by one, removes exactly that entry and keeps the others in order |
| AddPropertyPage.AvailableAreas | src/pages/AddPropertyPage.tsx:108 | empty for an empty or unknown city, the city's areas otherwise |
| AddPropertyPage.OfferedCitiesHaveAreas | src/pages/AddPropertyPage.tsx:108-170 | for every city the form's drop-down offers, the area choices are that city's non-empty list, never the `\|\| []` fallback |
| AddPropertyPage.AvailableAreasAgree | src/pages/AddPropertyPage.tsx:108 | the form offers the same areas as the search form for every city |
| AddPropertyPage.AddPropertyForm.constructor | src/pages/AddPropertyPage.tsx:23-31 | the form starts empty and not loading |
| AddPropertyPage.AddPropertyForm.SelectCity | src/pages/AddPropertyPage.tsx:23-24 | only the city changes; the chosen area is kept |
| AddPropertyPage.AddPropertyForm.AreaChoices | src/pages/AddPropertyPage.tsx:108 | an area is offered exactly when it is a valid location of the chosen city |
| AddPropertyPage.AddPropertyForm.HandleAmenityChange | src/pages/AddPropertyPage.tsx:33-39 | the selection becomes the toggle of the amenity (the same toggle as the listing page's) |
| AddPropertyPage.AddPropertyForm.HandleImageChange | src/pages/AddPropertyPage.tsx:41-59 | no files change nothing; otherwise the images become the capped append and the toast fires exactly when a file was left out |
| AddPropertyPage.AddPropertyForm.RemoveImage | src/pages/AddPropertyPage.tsx:61-65 | the images become the splice of the index; nothing else changes |
| AddPropertyPage.AddPropertyForm.HandleSubmit | src/pages/AddPropertyPage.tsx:67-106 | without a session: "Authentication required", go to /login, `loading` untouched; with one: "Property listed successfully", go to /dashboard, `loading` cleared |
| PropertyDetailPage.NextIndex | src/pages/PropertyDetailPage.tsx:62-65 | NaN without images or from NaN; otherwise the successor modulo the image count, staying in range |
| PropertyDetailPage.PrevIndex | src/pages/PropertyDetailPage.tsx:67-70 | NaN without images or from NaN; otherwise the predecessor modulo the image count, staying in range |
| PropertyDetailPage.NextWraps | src/pages/PropertyDetailPage.tsx:64 | forward from the last image wraps to the first and otherwise moves by one |
| PropertyDetailPage.PrevWraps | src/pages/PropertyDetailPage.tsx:69 | back from the first image wraps to the last and otherwise moves by one |
| PropertyDetailPage.PrevNextInverse | src/pages/PropertyDetailPage.tsx:62-70 | back undoes forward and forward undoes back |
| PropertyDetailPage.NaNSticks | src/pages/PropertyDetailPage.tsx:62-70 | once the index is NaN it stays NaN |
| PropertyDetailPage.NextTimesAdd | src/pages/PropertyDetailPage.tsx:64 | pressing forward a + b times is pressing it a times, then b times |
| PropertyDetailPage.NextTimesNoWrap | src/pages/PropertyDetailPage.tsx:64 | until the last image, each press moves one image on |
| PropertyDetailPage.NextFullCircle | src/pages/PropertyDetailPage.tsx:64 | pressing forward once per image comes back to the starting image |
| PropertyDetailPage.DetailPage.constructor | src/pages/PropertyDetailPage.tsx:25-29 | no listing, loading, no reviews, the first image and no error |
| PropertyDetailPage.DetailPage.FetchPropertyDetails | src/pages/PropertyDetailPage.tsx:31-60 | a missing or unknown id sets the error and leaves listing and reviews; otherwise the listing with that id and exactly its owner's reviews; loading ends either way |
| PropertyDetailPage.DetailPage.NextImage | src/pages/PropertyDetailPage.tsx:62-65 | no-op without a listing; otherwise the index steps forward over the listing's images |
| PropertyDetailPage.DetailPage.PrevImage | src/pages/PropertyDetailPage.tsx:67-70 | no-op without a listing; otherwise the index steps back over the listing's images |
| PropertyDetailPage.OpenPage | src/pages/PropertyDetailPage.tsx:31-60 | on a freshly opened page a missing or unknown id ends with no listing, the error set and loading false |
| BuilderDashboardPage.RemoveProjectSpec | src/pages/BuilderDashboardPage.tsx:57-59 | a delete removes every project with the id and keeps all others, in order |
| BuilderDashboardPage.RemoveAbsentId | src/pages/BuilderDashboardPage.tsx:59 | deleting an id no project has changes nothing |
| BuilderDashboardPage.RemoveTwice | src/pages/BuilderDashboardPage.tsx:59 | deleting the same id twice is deleting it once |
| BuilderDashboardPage.ReadyToMoveCount | src/pages/BuilderDashboardPage.tsx:96 | the ready-to-move count never exceeds the number of projects |
| BuilderDashboardPage.UnitsSoldSplit | src/pages/BuilderDashboardPage.tsx:87 | the units sold are the sum over the projects with an id plus the sum over the rest |
| BuilderDashboardPage.UnitsSoldAfterDelete | src/pages/BuilderDashboardPage.tsx:59-87 | a delete lowers the units sold by the units of the projects it removed |
| BuilderDashboardPage.ReadyCountAfterDelete | src/pages/BuilderDashboardPage.tsx:59-96 | a delete never raises the ready-to-move count |
| BuilderDashboardPage.BuilderDashboard.constructor | src/pages/BuilderDashboardPage.tsx:16-17 | no projects, loading |
| BuilderDashboardPage.BuilderDashboard.AccessGuard | src/pages/BuilderDashboardPage.tsx:19-55 | no session goes to /builder/login; a non-builder session goes to / with "Access Denied"; neither loads projects; a builder gets the seeded projects and loading ends |
| BuilderDashboardPage.BuilderDashboard.HandleDeleteProject | src/pages/BuilderDashboardPage.tsx:57-64 | the projects become the list without that id and the toast says "Project deleted" |
| BuilderDashboardPage.BuilderDashboard.Figures | src/pages/BuilderDashboardPage.tsx:79-96 | the ready-to-move figure never exceeds the total-projects figure |
| UserDashboardPage.UserPropertiesSpec | src/pages/UserDashboardPage.tsx:33-36 | a property is kept exactly when it is posted by user-001 or is prop-001, and the kept list is a subsequence of all properties |
| UserDashboardPage.SeededUserProperties | src/pages/UserDashboardPage.tsx:35 | over the seeded store the dashboard shows prop-001 alone |
| UserDashboardPage.UserDashboard.constructor | src/pages/UserDashboardPage.tsx:18-19 | no properties, loading |
| UserDashboardPage.UserDashboard.LoadDashboard | src/pages/UserDashboardPage.tsx:21-50 | without a session go to /login and fetch nothing; with one, the demo user's listings out of all properties, and loading ends |
| Js.DecimalStringValue | src/contexts/AuthContext.tsx:91 | the decimal text of the clock reading reads back as the same number |
| AuthContext.RoleName | src/contexts/AuthContext.tsx:8 | "user" and "builder" name the two roles, one each |
| AuthContext.CheckCredentials | src/contexts/AuthContext.tsx:45-70 | an account comes back exactly for the requested role's demo email with "password"; it has that email and role and no password |
| AuthContext.CrossRoleFails | src/contexts/AuthContext.tsx:64-70 | each demo account fails to log in under the other role |
| AuthContext.SignupIdsDistinct | src/contexts/AuthContext.tsx:91 | two signups under one role at different instants get different ids |
| AuthContext.SignupIdsByRole | src/contexts/AuthContext.tsx:91 | a user's signup id never equals a builder's |
| AuthContext.Restore | src/contexts/AuthContext.tsx:26-39 | no entry, empty text or unparsable text keeps the signed-out session; a stored user is restored and authenticated; stored `null` is authenticated with no user |
| AuthContext.StorageAfterRestore | src/contexts/AuthContext.tsx:34-37 | unparsable text is removed and anything else stays |
| AuthContext.RestoreSettles | src/contexts/AuthContext.tsx:26-39 | mounting again over what a mount left restores the same session |
| AuthContext.AuthProvider.constructor | src/contexts/AuthContext.tsx:22-39 | the mounted provider holds the restored session and a reload would restore the same |
| AuthContext.AuthProvider.IsBuilder | src/contexts/AuthContext.tsx:117 | true exactly when a user is present and is a builder |
| AuthContext.AuthProvider.Login | src/contexts/AuthContext.tsx:41-84 | true exactly on matching credentials when the save succeeds; on matching credentials that demo account is the user and authenticated and `isBuilder` follows the role, even when the save throws and the answer is false; storage holds the user exactly when saved; bad credentials change nothing |
| AuthContext.AuthProvider.Signup | src/contexts/AuthContext.tsx:86-105 | the new account with id role, dash, clock reading and the given name, email and role is the user and authenticated; the answer is true and the account saved exactly when `setItem` succeeds, and storage is untouched otherwise |
| AuthContext.AuthProvider.Logout | src/contexts/AuthContext.tsx:107-111 | no user, not authenticated, nothing saved, whatever the state before, so a second logout changes nothing |
| AuthContext.ReloadAfterLogin | src/contexts/AuthContext.tsx:26-83 | after a login the page holds the matching account; a freshly mounted provider holds it too when it was saved, and is signed out on bad credentials or a failed save |

## Left out

- Rendering: JSX, CSS classes, icons, the toast component and react-router. A toast is recorded as its title and a navigation as its target path.
- Asynchrony: promises, `async`, `await` and the `setTimeout` delay are modelled as synchronous calls.
- React scheduling: handlers and effects are methods run one at a time, with the state setting in plain order.
- Date parsing and the clock: `createdAt` is an integer timestamp, and signup takes the clock reading `Date.now()` as a parameter.
- JSON, `localStorage` and the console: the `"user"` slot holds a stored user, empty text, `null` or unparsable text. Parsed JSON values other than a user or `null` are not modelled.
- `URLSearchParams` encoding: parameters are an ordered list of key/value pairs. Percent-encoding and the query-string text are not modelled.
- `File` objects and `URL.createObjectURL`: an image file is only its name.
- `formatCurrency` and `src/lib/utils` are not part of this model.
- JavaScript's `in` also finds inherited keys such as `"constructor"` on the `areas` object. The model looks cities up among the object's own keys only.
- Unreachable `catch` blocks: the add-property page's "Failed to add property" path and the dashboards' load-error toasts have no statement that throws here.
- Storage errors other than a failed save: `localStorage.setItem` in `login` and `signup` may throw and is modelled by the `saved` parameter. A throwing `getItem` or `removeItem`, when storage is not accessible at all, is not modelled.
- `fetchAllProperties` is the seeded store itself, so the user dashboard filters `DummyProperties` directly.
- The rest of the repository is pure view composition or a thin wrapper over a modelled operation: the home page, the navbar and footer, the property card, the login pages and the route table.
- The "Properties Listed" figure of the user dashboard is `myProperties.length`, a rendering of state the model already holds.
- Js.ParseInt: the result is an exact integer. JavaScript rounds a value above 2^53 to the nearest double, which the model does not do. `parseInt("-0")` is -0 in JavaScript and 0 here; both are falsy.
- Js.JsRem: NaN does not arise from `%` in this model. A zero divisor is handled by the caller: the carousel's `ImageIndex` becomes NaN when a listing has no images.
- Arrays.Filter: the callback cannot mutate anything, unlike in JavaScript.
- AddPropertyPage.SpliceOne: a non-integer index is not modelled; indexes are whole numbers.
