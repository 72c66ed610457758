# EcoVenture tours — a Dafny model

EcoVenture is a tour-booking single-page app. It has two parts:

- An Express API server over a MySQL database. It holds the `tours` and `categories` tables.
- A React front end. It has category pages, a wishlist, an admin dashboard, an activities page and a search overlay. A service worker caches the app shell.

This project models the request logic of the server and its alternative tours router, the service worker, and the state logic of five front-end pages. It also proves what each of them promises.

The model has these modules, one per file:

- `Wrappers`, `Seqs` (base.dfy) and `Strings` (strings.dfy) are shared vocabulary:
  - `Option` and `Result`;
  - subsequences, distinctness and counting;
  - JavaScript's `trim` and ASCII case mapping;
  - counting `?` placeholders;
  - decimal rendering.
- `TourDb` (tour_db.dfy) is the database as an abstract table. It is a class holding the category rows, a map from AUTO_INCREMENT id to tour row, and the id counter. Its invariant is the schema's CHECK, NOT NULL, UNIQUE and FOREIGN KEY constraints. INSERT, SELECT, UPDATE and DELETE are atomic methods that keep that invariant.
- `TourKey` (tour_key.dfy) is the server's `generateTourKey`.
- `ServerApi` (server_api.dfy) covers the API server's routes:
  - the filter builder and pagination of `GET /api/tours`;
  - the validation cascade and defaults of `POST /api/tours`;
  - the dynamic SET list of `PUT /api/tours/:id`;
  - the id-or-key lookup of `GET`, `PUT` and `DELETE /api/tours/:id`.
- `ToursRouter` (tours_router.dfy) covers the alternative router in `routes/tours.js`: its slug, its search query, its express-validator chain and insert defaults, and its id-only lookup and delete.
- `ServiceWorker` (service_worker.dfy) covers the browser's CacheStorage as a class, and the `install`, `activate` and `fetch` handlers.
- `Catalog`, `ToursByCategory`, `Wishlist`, `AdminDashboard`, `Activities` and `SearchFilters` cover the front-end pages. Component state that the source updates in place is a class with those fields. Each event handler is a method.

## Model

| member | source | states |
|---|---|---|
| TourDb.CategoryIdByKey | ecoventure-spa/backend/server.js:284-297 | the category lookup finds nothing exactly when no category has the key up to letter case (the column's case-insensitive collation); a found id belongs to a category carrying that key |
| TourDb.Changed | ecoventure-spa/backend/server.js:438-439 | an UPDATE changes exactly the rows its WHERE selects, keeps every other row, and keeps the set of ids |
| TourDb.Selected | ecoventure-spa/backend/server.js:439 | the ids selected are exactly the rows whose id is the identifier or whose key equals it up to letter case |
| TourDb.UpdateOutcomeRules | ecoventure-spa/backend/server.js:41-62 | an UPDATE fails exactly when a changed row breaks a CHECK, names a missing category or duplicates a key; otherwise it reports the number of rows selected, all valid once changed; selecting nothing succeeds with 0 and changes nothing |
| TourDb.NothingSelected | ecoventure-spa/backend/server.js:441-446 | an UPDATE that selects no row changes nothing and reports 0 affected rows (the handler's 404 case) |
| TourDb.ChangedRowsValid | ecoventure-spa/backend/server.js:41-62 | a successful UPDATE leaves a table that still meets every schema constraint |
| TourDb.TourTable.constructor | ecoventure-spa/backend/server.js:41-62 | an empty tours table next to the seeded categories, with the AUTO_INCREMENT counter at 1 |
| TourDb.TourTable.Insert | ecoventure-spa/backend/server.js:318-334 | INSERT fails with a constraint, foreign-key or duplicate-key error exactly in those cases (a duplicate being an existing key equal up to letter case), and then stores nothing; a CHECK or NOT NULL failure leaves the AUTO_INCREMENT counter alone, while a foreign-key or duplicate failure uses up one id; a success stores the row under the counter's id and advances it; the constraints are kept |
| TourDb.TourTable.SelectOne | ecoventure-spa/backend/server.js:232 | a SELECT returns nothing exactly when no row matches; otherwise it returns a matching row |
| TourDb.TourTable.DeleteWhere | ecoventure-spa/backend/server.js:491-494 | DELETE removes exactly the matching rows, reports how many there were, keeps every other row, and keeps the constraints |
| TourDb.TourTable.UpdateWhere | ecoventure-spa/backend/server.js:438-439 | a SET naming a column the table lacks fails with an unknown-column error before any row is looked at; otherwise UPDATE answers as `UpdateOutcome` says; on success the table is `Changed`, on failure it is untouched; the constraints are kept |
| TourKey.DropPunctuation | ecoventure-spa/backend/server.js:96 | the result is a subsequence of the input holding only letters, digits and white space, every such character of the input survives, and a text made only of them is unchanged |
| TourKey.DropPunctuationAppend | ecoventure-spa/backend/server.js:96 | the filter works character by character: filtering a concatenation concatenates the filtered parts, so order and multiplicity are kept |
| TourKey.DashSpaces | ecoventure-spa/backend/server.js:97 | the result holds only `[a-z0-9-]`, has no two adjacent dashes, is empty only for an empty input, and starts with a dash exactly when the input starts with white space |
| TourKey.DashSpacesWithoutSpaces | ecoventure-spa/backend/server.js:97 | a text with no white space is unchanged |
| TourKey.DashSpacesSnoc | ecoventure-spa/backend/server.js:97 | appending a character appends it unchanged; appending white space after a character appends one dash; white space after white space adds nothing, so each run of white space becomes exactly one dash |
| TourKey.Take | ecoventure-spa/backend/server.js:98 | `substring(0, n)` is the prefix of length min(n, length) |
| TourKey.KeyPrefix | ecoventure-spa/backend/server.js:94 | at most four characters, a prefix of the lower-cased category, exactly four when the category has four |
| TourKey.KeySuffix | ecoventure-spa/backend/server.js:95-98 | at most twenty characters from `[a-z0-9-]` with no two adjacent dashes |
| TourKey.KeyStamp | ecoventure-spa/backend/server.js:99 | at most four digits, exactly four once the clock reads 1000 or more, and a suffix of the clock's decimal rendering |
| TourKey.TourKeyShape | ecoventure-spa/backend/server.js:93-101 | every key is prefix, dash, suffix, dash, stamp, with the three segments as above |
| TourKey.TourKeyLength | ecoventure-spa/backend/server.js:93-101 | a key has at most 30 characters |
| ServerApi.ConditionPlaceholders | ecoventure-spa/backend/server.js:123-138 | each of the four single-value filters carries exactly one placeholder |
| ServerApi.SearchConditionPlaceholders | ecoventure-spa/backend/server.js:141-145 | the search filter carries three placeholders |
| ServerApi.BuildWhere | ecoventure-spa/backend/server.js:120-145 | the handler's step-by-step clause and parameter list equal the declarative `WhereClause` and `WhereParams` |
| ServerApi.WhereParamsLength | ecoventure-spa/backend/server.js:120-145 | one parameter per single-value filter given, three for a search |
| ServerApi.WherePlaceholders | ecoventure-spa/backend/server.js:120-145 | the clause has exactly as many placeholders as bound parameters, for every query |
| ServerApi.NoFiltersClause | ecoventure-spa/backend/server.js:120-121 | with no filter given the clause is `WHERE 1=1` and nothing is bound |
| ServerApi.WhereParamsShape | ecoventure-spa/backend/server.js:123-145 | the bound values are, in order, the lower-cased category, the upper-cased country, the two prices and three copies of `%search%` |
| ServerApi.PageCountOf | ecoventure-spa/backend/server.js:190-194 | the page count is null exactly for a zero limit; otherwise it is the ceiling of total over limit, bounded on both sides |
| ServerApi.DefaultPagination | ecoventure-spa/backend/server.js:108-117 | with no page or limit the offset is 0, the limit 20, the current page 1, and the page count covers the total in pages of 20 |
| ServerApi.PageOfPosition | ecoventure-spa/backend/server.js:149-150 | with a positive limit, the row at position k of a total lies on exactly one page, `k / limit + 1`, and that page is between 1 and the page count |
| ServerApi.ListResponse | ecoventure-spa/backend/server.js:149-204 | the list answers 500 exactly when the limit or the computed offset is negative, which `LIMIT ? OFFSET ?` refuses; otherwise the pagination reports the requested page and the total, and for a positive limit a page count covering the total |
| ServerApi.ListResponseCases | ecoventure-spa/backend/server.js:149-204 | a page of at least 1 with a non-negative limit always answers; a page below 1 with a positive limit always answers 500 |
| ServerApi.LimitOffsetPlaceholders | ecoventure-spa/backend/server.js:153-175 | the `LIMIT ? OFFSET ?` tail carries two placeholders |
| ServerApi.ListStatementsAligned | ecoventure-spa/backend/server.js:153-185 | both the page query and the count query bind exactly one value per placeholder |
| ServerApi.CheckCreate | ecoventure-spa/backend/server.js:275-312 | the 400 cascade: missing fields exactly when a required field is falsy; an unknown category exactly when the lower-cased category is absent; success yields the category's id with days >= 1, price >= 0 and any truthy old price >= 0 |
| ServerApi.ZeroIsMissing | ecoventure-spa/backend/server.js:275-281 | a price or duration of 0 is reported as a missing field |
| ServerApi.NumericChecks | ecoventure-spa/backend/server.js:300-312 | past the first two checks, the numeric 400s occur exactly for days < 1 or price < 0, then for a negative truthy old price |
| ServerApi.NewTourRowTexts | ecoventure-spa/backend/server.js:318-334 | the stored name and description are the request's values trimmed, and the country the request's value trimmed and upper-cased; each is a fixed point of its normalisation |
| ServerApi.NewTourRowDefaults | ecoventure-spa/backend/server.js:307-334 | defaults: image `/default-tour.jpg`, no old price unless truthy, 12 base slots unless truthy, and the key generated from the name and category |
| ServerApi.ValidatedRowConstraints | ecoventure-spa/backend/server.js:41-62 | a request that passes validation yields a row meeting every CHECK except possibly `base_slots >= 0`, which the handler never checks |
| ServerApi.CreateTour | ecoventure-spa/backend/server.js:260-380 | 400 for a failed check with nothing inserted and no id used; otherwise 500 exactly when the row breaks a CHECK (no id used), 400 exactly when a key equal up to letter case exists, else 201; any failure stores nothing, a foreign-key or duplicate failure uses up an id, and a created id lies above every id already in the table |
| ServerApi.GetTour | ecoventure-spa/backend/server.js:208-257 | 404 exactly when no row has the identifier as id or key; otherwise 200 with such a row |
| ServerApi.DeleteTour | ecoventure-spa/backend/server.js:488-516 | every row with the identifier as id or key is removed and the others kept; 404 exactly when there was none |
| ServerApi.GeneratedKeyIsNotAnId | ecoventure-spa/backend/server.js:93-101 | a generated key always holds a dash, so under the exact-decimal `id = ?` match of this model (see "## Left out") `id = ? OR tour_key = ?` never confuses it with an id, whatever the letter case |
| ServerApi.CreateGetDeleteScenario | ecoventure-spa/backend/tests/api.test.js:28-57 | the integration test's sequence: create 201, get 200, delete 200, get 404 |
| ServerApi.EveryFieldMapped | ecoventure-spa/backend/server.js:408-419 | every body field has a column in the mapping, every mapped column exists in the table, and no column name holds a `?` |
| ServerApi.BuildUpdate | ecoventure-spa/backend/server.js:390-426 | the handler's SET list and parameters equal the declarative `UpdateFields` and `UpdateParams` |
| ServerApi.PushAssignments | ecoventure-spa/backend/server.js:421-426 | the loop appends one `column = ?` and one value per field the body sets, in mapping order |
| ServerApi.AssignmentsPlaceholders | ecoventure-spa/backend/server.js:421-426 | the assignments hold as many placeholders as values pushed |
| ServerApi.UpdateFieldsPlaceholders | ecoventure-spa/backend/server.js:390-426 | the whole SET list holds one placeholder per parameter |
| ServerApi.UpdateQueryPlaceholders | ecoventure-spa/backend/server.js:435-438 | around the SET list the statement adds only the two placeholders of its WHERE, with or without the `updated_at` entry |
| ServerApi.UpdateStatementAligned | ecoventure-spa/backend/server.js:435-439 | the UPDATE binds exactly one value per placeholder, with the identifier twice last, with or without the `updated_at` entry |
| ServerApi.AssignmentsEmpty | ecoventure-spa/backend/server.js:421-426 | the loop pushes nothing exactly when no mapped field is sent |
| ServerApi.UpdateFieldsEmpty | ecoventure-spa/backend/server.js:428-433 | the SET list is empty, and the request a 400, exactly when no category resolved and no mapped field was sent |
| ServerApi.AssignmentsNameColumns | ecoventure-spa/backend/server.js:408-426 | the loop's assignments are `column = ?` for exactly the sent fields' columns, in order, and each of those columns exists in the table |
| ServerApi.SetColumnsExist | ecoventure-spa/backend/server.js:390-426 | the SET list names the columns `category_id` and the sent fields' columns, one entry each, all of them existing in the table |
| ServerApi.UpdatedAtIsNoColumn | ecoventure-spa/backend/server.js:41-62 | the table created at startup has no `updated_at` column, so any SET list with the `updated_at` entry names a missing column |
| ServerApi.AllAssignments | ecoventure-spa/backend/server.js:408-419 | one `column = ?` per mapping entry, in mapping order |
| ServerApi.AssignmentsOrdered | ecoventure-spa/backend/server.js:421-426 | the assignments appear in mapping order, and one for a column appears exactly when its field was sent |
| ServerApi.CategoryFirst | ecoventure-spa/backend/server.js:390-405 | with a resolved category, `category_id = ?` and its id lead the SET list and the parameters |
| ServerApi.ApplyUpdateFollowsSet | ecoventure-spa/backend/server.js:421-439 | a column whose field was sent takes the value bound to its placeholder; every other column, and the key, keep theirs |
| ServerApi.ResolveCategory | ecoventure-spa/backend/server.js:390-405 | no category when none is given; unknown exactly when the lower-cased key is absent; otherwise the id of the category carrying that key |
| ServerApi.UpdateKeepsKeysAndCategories | ecoventure-spa/backend/server.js:390-439 | a PUT never changes a key and only sets existing categories, so it cannot break UNIQUE or the FOREIGN KEY |
| ServerApi.UpdateTour | ecoventure-spa/backend/server.js:383-485 | the PUT without the `updated_at` entry: 400 for an unknown category or an empty SET list; 404 when no row matches; 500 when a changed row breaks a CHECK; otherwise 200 with every matching row updated; any non-200 changes nothing |
| ServerApi.UpdateTourAsWritten | ecoventure-spa/backend/server.js:383-485 | the PUT as written: 400 exactly for an unknown category or an empty SET list, otherwise always 500, and the table never changes |
| ServerApi.RenameScenario | ecoventure-spa/backend/server.js:383-485 | renaming an existing tour answers 500 as written, while the PUT without `updated_at` answers 200 and stores the new name |
| ToursRouter.DashNonAlnum | ecoventure-spa/backend/routes/tours.js:185-188 | each character outside `[a-z0-9]` becomes a dash, and the others are kept in place |
| ToursRouter.CollapseDashes | ecoventure-spa/backend/routes/tours.js:185-188 | no two adjacent dashes remain, the first and last characters are kept, and a text without dash runs is unchanged |
| ToursRouter.CollapseDashesSnoc | ecoventure-spa/backend/routes/tours.js:185-188 | appending a character appends it, except a dash after a dash, which adds nothing: every other character is kept in order and each run of dashes leaves one dash |
| ToursRouter.StripEdgeDashes | ecoventure-spa/backend/routes/tours.js:185-188 | the result is the text without one leading dash and one trailing dash, where there are any; a text with no dash at either end is unchanged |
| ToursRouter.StripKeepsShape | ecoventure-spa/backend/routes/tours.js:185-188 | cutting the edge dashes of a collapsed text leaves a slug-shaped text |
| ToursRouter.SlugIsShaped | ecoventure-spa/backend/routes/tours.js:185-188 | every slug holds only `[a-z0-9-]`, no two adjacent dashes, and no dash at either end |
| ToursRouter.SlugFixesShaped | ecoventure-spa/backend/routes/tours.js:185-188 | a slug-shaped text is its own slug |
| ToursRouter.SlugIdempotent | ecoventure-spa/backend/routes/tours.js:185-188 | slugging a slug changes nothing |
| ToursRouter.SearchFilterPlaceholders | ecoventure-spa/backend/routes/tours.js:35-39 | the search filter carries three placeholders |
| ToursRouter.CategoryFilterPlaceholders | ecoventure-spa/backend/routes/tours.js:42-45 | the category filter carries one placeholder |
| ToursRouter.BuildSearch | ecoventure-spa/backend/routes/tours.js:8-47 | the handler's query text and parameters equal the declarative `SearchQuery` and `SearchQueryParams` |
| ToursRouter.SearchQueryAligned | ecoventure-spa/backend/routes/tours.js:8-47 | the query binds exactly one value per placeholder |
| ToursRouter.SearchQueryParamsLength | ecoventure-spa/backend/routes/tours.js:35-45 | three parameters for a search, plus one for a category |
| ToursRouter.SearchQueryShape | ecoventure-spa/backend/routes/tours.js:35-47 | a search binds three equal `%search%` patterns first, the category key is bound as given, and ORDER BY closes the query |
| ToursRouter.ValidIff | ecoventure-spa/backend/routes/tours.js:128-169 | a body passes validation exactly when every field is within the chain's bounds (both directions); a given image URL must be a non-empty URL |
| ToursRouter.NameCheckIgnoresPadding | ecoventure-spa/backend/routes/tours.js:128-132 | padding the name with white space never changes the name check's verdict |
| ToursRouter.RouterRowDefaults | ecoventure-spa/backend/routes/tours.js:171-214 | rating and reviews default to 0, old price and image to null when falsy, and the key is the slug of the trimmed name |
| ToursRouter.ValidatedRouterRow | ecoventure-spa/backend/routes/tours.js:128-214 | a validated body yields a schema-valid row exactly when it carries an image URL, a non-negative review count and no negative old price |
| ToursRouter.RouterCreate | ecoventure-spa/backend/routes/tours.js:160-249 | 400 for a failed validation or an unknown category id, with nothing inserted and no id used; otherwise 500 exactly when the row breaks a CHECK or NOT NULL (no id used), 400 exactly when a key equal up to letter case exists (an id used), else 201 with an id above every id in the table |
| ToursRouter.CreateWithoutImageFails | ecoventure-spa/backend/routes/tours.js:171-214 | a valid body without `image_url` always yields a row the NOT NULL image column rejects |
| ToursRouter.RouterGetTour | ecoventure-spa/backend/routes/tours.js:89-125 | 404 exactly when no row has the parameter as id; otherwise 200 with that row; keys are not consulted |
| ToursRouter.RouterDeleteTour | ecoventure-spa/backend/routes/tours.js:253-279 | the row with the parameter as id is removed and the others kept; 404 exactly when there was none |
| ServiceWorker.Opened | ecoventure-spa/public/sw.js:11-15 | opening a cache keeps an existing one as it is, or appends a new empty one, keeping the storage well formed |
| ServiceWorker.Fetched | ecoventure-spa/public/sw.js:11-15 | `addAll` stores one response per URL, as the network returned it |
| ServiceWorker.MatchIn | ecoventure-spa/public/sw.js:35-42 | a match is absent exactly when no cache holds the URL; otherwise it is the response stored in the first cache, in creation order, that holds it |
| ServiceWorker.FirstHolder | ecoventure-spa/public/sw.js:35-42 | the position of the first cache, in creation order, holding the URL: that cache holds it and no earlier one does; the number of caches when none holds it |
| ServiceWorker.CacheStorage.constructor | ecoventure-spa/public/sw.js:1-8 | the storage starts with no caches |
| ServiceWorker.CacheStorage.Open | ecoventure-spa/public/sw.js:11-15 | `caches.open` changes the storage as `Opened` says |
| ServiceWorker.CacheStorage.AddAll | ecoventure-spa/public/sw.js:11-15 | all-or-nothing: every response is stored exactly when every fetch succeeded; otherwise nothing changes |
| ServiceWorker.CacheStorage.Delete | ecoventure-spa/public/sw.js:18-26 | `caches.delete` removes the name and its cache, and reports whether it existed |
| ServiceWorker.CacheStorage.Install | ecoventure-spa/public/sw.js:11-15 | the install event leaves the storage `Installed` says |
| ServiceWorker.CacheStorage.Activate | ecoventure-spa/public/sw.js:18-26 | the activate event leaves the storage `Activated` says |
| ServiceWorker.CacheStorage.DeleteOthers | ecoventure-spa/public/sw.js:18-26 | the deletion loop leaves only the current cache's name and its contents |
| ServiceWorker.CacheStorage.HandleFetch | ecoventure-spa/public/sw.js:29-43 | the fetch event answers as `Answer` says and never changes the storage |
| ServiceWorker.InstallStoresShell | ecoventure-spa/public/sw.js:1-15 | after install the current cache exists; if every shell URL was fetched it holds each one with the network's response, otherwise it is as before; other caches are untouched |
| ServiceWorker.InstallIdempotent | ecoventure-spa/public/sw.js:11-15 | installing twice with the same network answers is installing once |
| ServiceWorker.ActivateKeepsOnlyCurrent | ecoventure-spa/public/sw.js:18-26 | after activate, the current cache is the only one left, with its contents unchanged |
| ServiceWorker.ActivateIdempotent | ecoventure-spa/public/sw.js:18-26 | activating twice is activating once |
| ServiceWorker.JsonIsNetworkFirst | ecoventure-spa/public/sw.js:30-34 | a JSON request gets the network's response whenever the fetch succeeds, whatever the caches hold, and the cache match when it fails |
| ServiceWorker.StaticIsCacheFirst | ecoventure-spa/public/sw.js:35-42 | any other request that some cache holds gets the first cached response without a network call; on a miss it gets the network's answer |
| ServiceWorker.ShellServedOffline | ecoventure-spa/public/sw.js:1-43 | after install and activate with a working network, all five shell URLs are answered offline with the response the install fetched; the non-JSON ones with no network call, and `/manifest.json` through the network-first fallback |
| ToursByCategory.FindCategory | ecoventure-spa/src/pages/ToursByCategory.jsx:9 | nothing is found exactly when no category has the id; a found category has it |
| ToursByCategory.FindCategoryIsFirst | ecoventure-spa/src/pages/ToursByCategory.jsx:9 | the category found is the first one with the id |
| ToursByCategory.FilterTours | ecoventure-spa/src/pages/ToursByCategory.jsx:14-21 | the filter keeps exactly the matching tours |
| ToursByCategory.RenderPage | ecoventure-spa/src/pages/ToursByCategory.jsx:23 | the not-found message shows exactly when no category has the route's id |
| ToursByCategory.BlankQueryShowsAll | ecoventure-spa/src/pages/ToursByCategory.jsx:14-21 | a query that is blank once trimmed shows every tour |
| ToursByCategory.FilteredIsOrderedSelection | ecoventure-spa/src/pages/ToursByCategory.jsx:12-21 | tours keep their catalogue order, and a tour is kept exactly when its lower-cased name or description contains the trimmed, lower-cased query |
| ToursByCategory.FilterIgnoresCase | ecoventure-spa/src/pages/ToursByCategory.jsx:14-21 | queries that differ only in letter case give the same tours |
| ToursByCategory.FilterIgnoresPadding | ecoventure-spa/src/pages/ToursByCategory.jsx:14-21 | queries that differ only in surrounding white space give the same tours |
| ToursByCategory.UnknownCategory | ecoventure-spa/src/pages/ToursByCategory.jsx:9-23 | an unknown id has no tours and shows the not-found message |
| Wishlist.RemoveId | ecoventure-spa/src/pages/Wishlist.jsx:20-24 | the items kept are exactly those whose id differs; an absent id changes nothing |
| Wishlist.Loaded | ecoventure-spa/src/pages/Wishlist.jsx:8-17 | a stored list replaces the current one; an absent or unparseable entry leaves it as it is |
| Wishlist.CountLabel | ecoventure-spa/src/pages/Wishlist.jsx:78 | "1 tour saved" for one, "n tours saved" otherwise |
| Wishlist.WishlistPage.constructor | ecoventure-spa/src/pages/Wishlist.jsx:8-17 | the page starts with an empty list over the browser's storage |
| Wishlist.WishlistPage.Load | ecoventure-spa/src/pages/Wishlist.jsx:8-17 | the mount effect sets the list as `Loaded` says and leaves the storage alone |
| Wishlist.WishlistPage.Remove | ecoventure-spa/src/pages/Wishlist.jsx:20-24 | the list loses that id, and the storage entry is the new list |
| Wishlist.WishlistPage.Clear | ecoventure-spa/src/pages/Wishlist.jsx:27-30 | the list is empty, and the storage entry is removed with nothing else touched |
| Wishlist.RemoveProperties | ecoventure-spa/src/pages/Wishlist.jsx:20-24 | no item with the id remains, every other item stays in order, and removing twice is removing once |
| Wishlist.RemoveThenReload | ecoventure-spa/src/pages/Wishlist.jsx:8-24 | what `Remove` writes is what the next load reads back |
| Wishlist.ClearThenReload | ecoventure-spa/src/pages/Wishlist.jsx:8-30 | after clearing, the next load keeps the empty list |
| Wishlist.CardOfferRules | ecoventure-spa/src/pages/Wishlist.jsx:105 | the wishlist card strikes through an old price exactly when one is present as a number, zero included and whatever the current price, unlike the activities page's positive-number rule |
| Wishlist.PluralIffNotOne | ecoventure-spa/src/pages/Wishlist.jsx:78 | the label says "tours" exactly when the count is not one |
| AdminDashboard.InputChangesOneField | ecoventure-spa/src/pages/AdminDashboard.jsx:52-60 | an input change sets only the named field: numeric fields become blank or the number, the others take the text |
| AdminDashboard.NewTourFields | ecoventure-spa/src/pages/AdminDashboard.jsx:108-119 | the new tour has the upper-cased country, the default image when none was given, an old price only when truthy, a 4.5 rating and no reviews |
| AdminDashboard.AddToMatching | ecoventure-spa/src/pages/AdminDashboard.jsx:122-130 | a category whose name matches gets the tour appended; every other category is unchanged |
| AdminDashboard.AddToMatchingProperties | ecoventure-spa/src/pages/AdminDashboard.jsx:122-130 | the categories keep their number, order, ids and names; a matching one gains exactly the new tour at the end; none loses a tour; the match ignores case |
| AdminDashboard.Dashboard.constructor | ecoventure-spa/src/pages/AdminDashboard.jsx:6-18 | no categories, a hidden empty form, and not loading |
| AdminDashboard.Dashboard.Mount | ecoventure-spa/src/pages/AdminDashboard.jsx:21-44 | without the login flag the page goes to the login route; otherwise the fetched categories (empty when missing) replace the list, and a failed fetch keeps it |
| AdminDashboard.Dashboard.InputChange | ecoventure-spa/src/pages/AdminDashboard.jsx:52-60 | the form changes as `InputChangesOneField` says, and nothing else does |
| AdminDashboard.Dashboard.AddTour | ecoventure-spa/src/pages/AdminDashboard.jsx:92-159 | a tour is added exactly when the form is complete; an incomplete form changes nothing; loading ends false either way |
| AdminDashboard.Dashboard.Append | ecoventure-spa/src/pages/AdminDashboard.jsx:122-148 | the successful end of an add: the tour is added to the matching categories, and the form is reset and hidden |
| AdminDashboard.Dashboard.Logout | ecoventure-spa/src/pages/AdminDashboard.jsx:46-50 | both admin keys are removed from storage and the login route is shown |
| AdminDashboard.EmptyFormIncomplete | ecoventure-spa/src/pages/AdminDashboard.jsx:97-101 | the reset form is incomplete, so submitting it again adds nothing |
| Activities.FindActivity | ecoventure-spa/src/pages/Activities.jsx:52-61 | nothing is found exactly when no category matches the parameter; a found index matches |
| Activities.InitialActive | ecoventure-spa/src/pages/Activities.jsx:52-61 | a non-empty initial key is the key of some category |
| Activities.InitialActiveChoice | ecoventure-spa/src/pages/Activities.jsx:52-61 | the page starts on the first category matching the parameter by key, or by name up to case; else on the first category; else on nothing |
| Activities.NoParameterFirstCategory | ecoventure-spa/src/pages/Activities.jsx:52-61 | without an `activity` parameter the page starts on the first category |
| Activities.GetParam | ecoventure-spa/src/pages/Activities.jsx:75-80 | a parameter is absent exactly when no pair has its name; otherwise it is the value of the first pair with that name |
| Activities.OtherParams | ecoventure-spa/src/pages/Activities.jsx:75-80 | the pairs kept are a subsequence of the input, none of them has the name, every pair with another name is kept, and a list without the name is unchanged |
| Activities.OtherParamsAppend | ecoventure-spa/src/pages/Activities.jsx:75-80 | dropping a name works pair by pair: over a concatenation it concatenates the two results, so the order of the kept pairs is the input's |
| Activities.OtherParamsIdempotent | ecoventure-spa/src/pages/Activities.jsx:75-80 | dropping a name twice is dropping it once |
| Activities.SetParamProperties | ecoventure-spa/src/pages/Activities.jsx:75-80 | after `set`, reading the name gives the value, exactly one pair carries it, and the other pairs are kept in order |
| Activities.OfferRules | ecoventure-spa/src/pages/Activities.jsx:213 | the old price shows exactly for a positive JSON number; a text or null never shows it, whatever the current price |
| Activities.AvailabilityBadge | ecoventure-spa/src/pages/Activities.jsx:275-286 | no badge exactly when the availability is missing or empty |
| Activities.BadgeRules | ecoventure-spa/src/pages/Activities.jsx:275-286 | green for `available`, yellow for `limited`, red otherwise; the label is the value with its first letter upper-cased |
| Activities.FindByKey | ecoventure-spa/src/pages/Activities.jsx:131-134 | nothing is found exactly when no category has the key; a found category has it |
| Activities.ActivitiesPage.constructor | ecoventure-spa/src/pages/Activities.jsx:28-32 | no categories, no active key, no tours, loading, no error |
| Activities.ActivitiesPage.ChooseCategory | ecoventure-spa/src/pages/Activities.jsx:161 | the clicked category becomes active, and `activeCategory` then finds it |
| Activities.ActivitiesPage.CategoriesLoaded | ecoventure-spa/src/pages/Activities.jsx:35-72 | a failed request records its message; a successful body with data sets the categories and the initial active key; any other body records the generic error and keeps both |
| Activities.ActivitiesPage.SyncQuery | ecoventure-spa/src/pages/Activities.jsx:75-80 | with an active category the query string's `activity` is set to it and the other pairs are kept; with none it is left alone |
| Activities.ActivitiesPage.ToursLoaded | ecoventure-spa/src/pages/Activities.jsx:83-118 | nothing happens with no active category; otherwise loading ends, and the tours or the error are set as the response says |
| Activities.LoadThenSync | ecoventure-spa/src/pages/Activities.jsx:35-80 | once categories load and the query effect runs, `activity` names the chosen category and the other parameters are unchanged |
| SearchFilters.DedupFrom | ecoventure-spa/src/components/SearchFilters.jsx:11-14 | the names kept are distinct, and are exactly the input's names not already seen |
| SearchFilters.Destinations | ecoventure-spa/src/components/SearchFilters.jsx:11-14 | "All Destinations" is the first option |
| SearchFilters.DedupSnoc | ecoventure-spa/src/components/SearchFilters.jsx:11-14 | a set keeps insertion order: a new name is appended, and a repeated one changes nothing |
| SearchFilters.DestinationsProperties | ecoventure-spa/src/components/SearchFilters.jsx:11-14 | "All Destinations", then every category name exactly once, in first-appearance order, and nothing else |
| SearchFilters.SearchOverlay.constructor | ecoventure-spa/src/components/SearchFilters.jsx:11-23 | each select starts on its first option, the scroll lock follows `open`, and every selection is a valid option |
| SearchFilters.SearchOverlay.SetOpen | ecoventure-spa/src/components/SearchFilters.jsx:34-37 | the scroll lock and the rendered panel (`Renders`, SearchFilters.jsx:39) follow the open flag, and the selections are kept |
| SearchFilters.SearchOverlay.KeyDown | ecoventure-spa/src/components/SearchFilters.jsx:26-31 | Escape closes an open overlay, unlocks scrolling and leaves nothing rendered; any other key, or a closed overlay, changes nothing |
| SearchFilters.SearchOverlay.ClickClose | ecoventure-spa/src/components/SearchFilters.jsx:52-70 | the backdrop or the close button closes the overlay, so nothing renders, and the selections are kept |
| SearchFilters.SearchOverlay.Submit | ecoventure-spa/src/components/SearchFilters.jsx:41-47 | an open overlay shows the three selections once, then closes and renders nothing |
| SearchFilters.SearchOverlay.SelectDestination | ecoventure-spa/src/components/SearchFilters.jsx:75-91 | the chosen destination option is selected while open, the other fields are kept, and the selections stay valid |
| SearchFilters.SearchOverlay.SelectActivity | ecoventure-spa/src/components/SearchFilters.jsx:75-91 | the chosen activity option is selected while open, the other fields are kept, and the selections stay valid |
| SearchFilters.SearchOverlay.SelectMonth | ecoventure-spa/src/components/SearchFilters.jsx:75-91 | the chosen month option is selected while open, the other fields are kept, and the selections stay valid |
| SearchFilters.MonthOptions | ecoventure-spa/src/components/SearchFilters.jsx:4-18 | "All months" and then the twelve months, all distinct; the activity options are distinct and start with "All activities" |

## Left out

- Case mapping is ASCII only: `toLowerCase` and `toUpperCase` on other letters are not modelled.
- Number parsing is not modelled. Query strings and JSON bodies arrive as already-parsed numbers, so `Number(...)`, `isNaN`, `parseInt` and `parseFloat` are not. DECIMAL columns are exact reals.
- MySQL's coercion of a text to an integer in `id = ?` is simplified. The id matches only when the identifier is its exact decimal rendering, so values like "007" or "7abc" are not treated as MySQL would. In MySQL a key whose category starts with a digit, such as `1abc-…`, would match the id its leading digits spell; the seeded category keys all start with a letter, and `GeneratedKeyIsNotAnId` holds only under the simplified match.
- The SELECT column lists and JOINs of the list and search queries are a parameter free of `?`. Their columns and the rows they return are not modelled.
- JSON serialisation is abstracted. The wishlist's storage holds either a saved list or other text. A stored text that parses as JSON but not as a list (`{}`, `42`, `null`) counts as the other text, so the model keeps the current list. The source instead stores whatever `JSON.parse` returns, and its render then fails on `.length` or `.map` of a non-array (Wishlist.jsx:45 and 90); that crash is not modelled.
- The `tours` table created at startup has no `updated_at` column, so the PUT handler's `updated_at = CURRENT_TIMESTAMP` entry makes every UPDATE it sends fail; see "## Findings". `UpdateTour` models the handler without that entry. A table created beforehand with such a column, which `CREATE TABLE IF NOT EXISTS` would keep, is not modelled.
- Selected: keys are compared up to ASCII letter case (`SameKey`). MySQL's default collation also ignores accents and other Unicode case pairs; those are not modelled. The same holds for `CategoryIdByKey` and the UNIQUE index in `Insert`.
- Insert: the AUTO_INCREMENT counter is modelled as InnoDB uses it when one statement runs at a time. A CHECK or NOT NULL failure, found before the row reaches the storage engine, uses no id; a foreign-key or duplicate-key failure uses one. Concurrent inserts and `innodb_autoinc_lock_mode` are not modelled.
- UpdateTour: an explicit JSON `null` cannot be sent. `UpdateBody` holds each field as present or absent, and `TourRow` has no NULL for rating, reviews or base slots. In the source a `null` name, country, description, days or price breaks NOT NULL and answers 500, and a `null` rating, reviews or base slots is stored as NULL and answers 200. The model has neither outcome.
- RouterCreate: likewise `RouterBody` cannot hold an explicit `null`. The source inserts `reviews: null` as NULL instead of the default 0. It answers 400 for `rating: null` and `image_url: null`, because `.optional()` skips only absent fields and the `null` then fails `isFloat` and `isURL`. The model has none of these outcomes.
- UpdateOutcome: when one statement breaks several constraints at once, the model reports the CHECK error first, then the foreign key, then the duplicate key. MySQL's own order among them is not modelled.
- The service worker's URL resolution, Request and Response objects, `respondWith` and the interleaving of promises are not modelled. Each event is one atomic step. The network is a function from URL to an optional response.
- Notifications, alert dialogs (the search overlay records its alerts in a list), console logging, `formatMoney`, the star rendering and the other purely presentational JSX are not modelled.
- `onClose` of the search overlay is modelled as the parent setting the overlay to closed.
- The database schema creation, seeding, the Express wiring, CORS and authentication middleware are not part of this model.
- The front end's fetch of `categories.json` and the API's responses are parameters of the page methods.
- These endpoints are not modelled: routes/tours.js `GET /categories`; server.js `GET /api/categories`, `GET /api/tours/category/:category`, `GET /api/stats` and `GET /api/health`. They are read-only queries with no logic beyond their SQL text.
- AdminDashboard: `generateTourId` is the same function as the server's key generator, and `TourKey.GenerateTourKey` models both.
- The clock (`Date.now`) is the parameter `now`.
- Column widths are not modelled: VARCHAR lengths, and the precision of DECIMAL(10,2) and DECIMAL(2,1). A text too long for its column, or a number with too many digits, is stored as given.

## Findings

| source | as written | input that shows it | evidently intended | confidence | as-written member | corrected member |
|---|---|---|---|---|---|---|
| ecoventure-spa/backend/server.js:435-439 | the SET list always ends with `updated_at = CURRENT_TIMESTAMP`, a column the `CREATE TABLE` at server.js:41-62 does not have, so MySQL refuses the statement and the catch at :476-482 answers 500 | `PUT /api/tours/1` with body `{"name":"X"}` on a table the server created, where tour 1 exists | 200, with tour 1 renamed to "X" | high, not executed; a table created earlier with an `updated_at` column would hide it | ServerApi.UpdateTourAsWritten (with ServerApi.RenameScenario) | ServerApi.UpdateTour |
