/**
 * The alternative Express router for tours (not mounted by the API server): its `tour_key`
 * slugifier, the search / category query builder of `GET /tours`, the express-validator
 * bounds and insert defaults of `POST /tours`, and the id-only lookup and delete.
 */
module ToursRouter {
  import opened Wrappers
  import opened Seqs
  import opened Strings
  import opened TourKey
  import opened TourDb

  // ---------------------------------------------------------------- slug

  /** `replace(/[^a-z0-9]/g, '-')`. */
  function DashNonAlnum(s: string): (r: string)
    ensures |r| == |s|
    ensures forall i :: 0 <= i < |s| ==> r[i] == (if IsLowerAlnum(s[i]) then s[i] else '-')
  {
    seq(|s|, i requires 0 <= i < |s| => if IsLowerAlnum(s[i]) then s[i] else '-')
  }

  /** `replace(/-+/g, '-')`: every run of dashes becomes one dash. */
  function CollapseDashes(s: string): (r: string)
    ensures |r| <= |s|
    ensures NoDoubleDash(r)
    ensures SlugChars(s) ==> SlugChars(r)
    ensures (r == []) == (s == [])
    ensures r != [] ==> r[0] == s[0] && r[|r| - 1] == s[|s| - 1]
    ensures NoDoubleDash(s) ==> r == s
  {
    if |s| <= 1 then s
    else
      var rest := CollapseDashes(s[1..]);
      assert forall i :: 0 <= i < |s| - 1 ==> s[1..][i] == s[i + 1];
      if s[0] == '-' && s[1] == '-' then rest
      else
        var r := [s[0]] + rest;
        assert forall i :: 1 <= i < |r| ==> r[i] == rest[i - 1];
        r
  }

  /**
   * The collapse read left to right: a dash right after a dash adds nothing, any other
   * character is copied.
   */
  lemma {:induction false} CollapseDashesSnoc(s: string, c: char)
    ensures CollapseDashes(s + [c]) ==
              if c == '-' && s != [] && s[|s| - 1] == '-' then CollapseDashes(s) else CollapseDashes(s) + [c]
    decreases |s|
  {
    var sc := s + [c];
    if s == [] {
      assert sc == [c];
    } else if |s| == 1 {
      assert sc == [s[0], c] && sc[1..] == [c];
    } else {
      var t := s[1..];
      assert sc[0] == s[0] && sc[1] == s[1] && sc[1..] == t + [c];
      assert t[|t| - 1] == s[|s| - 1];
      CollapseDashesSnoc(t, c);
      CollapseDashesStep(s);
      CollapseDashesStep(sc);
      var rest := CollapseDashes(t);
      if s[0] == '-' && s[1] == '-' {
        assert CollapseDashes(sc) == CollapseDashes(t + [c]) && CollapseDashes(s) == rest;
      } else if c == '-' && s[|s| - 1] == '-' {
        assert CollapseDashes(sc) == [s[0]] + rest == CollapseDashes(s);
      } else {
        assert CollapseDashes(sc) == [s[0]] + (rest + [c]);
        assert [s[0]] + (rest + [c]) == ([s[0]] + rest) + [c];
      }
    }
  }

  /** One step of the collapse on a text of two characters or more. */
  lemma CollapseDashesStep(s: string)
    requires |s| >= 2
    ensures CollapseDashes(s) ==
              if s[0] == '-' && s[1] == '-' then CollapseDashes(s[1..]) else [s[0]] + CollapseDashes(s[1..])
  {
  }

  /**
   * `replace(/^-|-$/g, '')`: one leading and one trailing dash removed, nothing else; a text
   * that neither starts nor ends with a dash is returned as it is.
   */
  function StripEdgeDashes(s: string): (r: string)
    ensures |r| <= |s|
    ensures var lead := if |s| > 0 && s[0] == '-' then 1 else 0;
            var trail := if |s| > lead && s[|s| - 1] == '-' then 1 else 0;
            r == s[lead..|s| - trail]
    ensures (s == [] || (s[0] != '-' && s[|s| - 1] != '-')) ==> r == s
  {
    var a := if |s| > 0 && s[0] == '-' then s[1..] else s;
    if |a| > 0 && a[|a| - 1] == '-' then a[..|a| - 1] else a
  }

  /** The router's `tour_key`: lower-case, non-`[a-z0-9]` to `-`, dash runs collapsed, edge dashes cut. */
  function Slug(name: string): string {
    StripEdgeDashes(CollapseDashes(DashNonAlnum(Lower(name))))
  }

  /** A slug holds only `[a-z0-9-]`. */
  predicate SlugShaped(s: string) {
    && SlugChars(s)
    && NoDoubleDash(s)
    && (s != [] ==> s[0] != '-' && s[|s| - 1] != '-')
  }

  /** The leading dash cut leaves no leading dash. */
  lemma StripLeadingDash(s: string)
    requires SlugChars(s) && NoDoubleDash(s)
    ensures var a := if |s| > 0 && s[0] == '-' then s[1..] else s;
      SlugChars(a) && NoDoubleDash(a) && (a != [] ==> a[0] != '-')
  {
    if |s| > 0 && s[0] == '-' {
      var a := s[1..];
      assert forall i :: 0 <= i < |a| ==> a[i] == s[i + 1];
      if |s| > 1 {
        assert s[1] != '-';
      }
    }
  }

  /** The trailing dash cut, on a text without a leading dash, leaves a slug-shaped text. */
  lemma StripTrailingDash(a: string)
    requires SlugChars(a) && NoDoubleDash(a) && (a != [] ==> a[0] != '-')
    ensures SlugShaped(if |a| > 0 && a[|a| - 1] == '-' then a[..|a| - 1] else a)
  {
    if |a| > 0 && a[|a| - 1] == '-' {
      var r := a[..|a| - 1];
      assert forall i :: 0 <= i < |r| ==> r[i] == a[i];
      if |a| > 1 {
        assert a[|a| - 2] != '-';
      }
    }
  }

  lemma StripKeepsShape(s: string)
    requires SlugChars(s) && NoDoubleDash(s)
    ensures SlugShaped(StripEdgeDashes(s))
  {
    StripLeadingDash(s);
    StripTrailingDash(if |s| > 0 && s[0] == '-' then s[1..] else s);
  }

  /**
   * Every slug holds only characters from `[a-z0-9-]`, never two dashes in a row, and neither
   * starts nor ends with a dash.
   */
  lemma SlugIsShaped(name: string)
    ensures SlugShaped(Slug(name))
  {
    var d := DashNonAlnum(Lower(name));
    assert SlugChars(d);
    StripKeepsShape(CollapseDashes(d));
  }

  /** Each step of the slug leaves a slug-shaped text as it is. */
  lemma SlugFixesShaped(s: string)
    requires SlugShaped(s)
    ensures Slug(s) == s
  {
    assert forall i :: 0 <= i < |s| ==> Lower(s)[i] == s[i];
    assert Lower(s) == s;
    assert forall i :: 0 <= i < |s| ==> DashNonAlnum(s)[i] == s[i];
    assert DashNonAlnum(s) == s;
  }

  /** Slugging a slug changes nothing. */
  lemma SlugIdempotent(name: string)
    ensures Slug(Slug(name)) == Slug(name)
  {
    SlugIsShaped(name);
    SlugFixesShaped(Slug(name));
  }

  // ---------------------------------------------------------------- GET /tours

  const SearchFilter :=
    " AND (t.name LIKE " + "?" + " OR t.description LIKE " + "?" + " OR c.name LIKE " + "?" + ")"
  const CategoryFilter := " AND c.category_key = " + "?"
  const OrderBy := " ORDER BY t.rating DESC, t.name ASC"

  lemma SearchFilterPlaceholders()
    ensures Placeholders(SearchFilter) == 3
  {
    var a := " AND (t.name LIKE " + "?";
    var b := " OR t.description LIKE " + "?";
    var c := " OR c.name LIKE " + "?" + ")";
    EndsInPlaceholder(" AND (t.name LIKE ");
    EndsInPlaceholder(" OR t.description LIKE ");
    OnePlaceholder(" OR c.name LIKE ", ")");
    PlaceholdersConcat(a, b);
    PlaceholdersConcat(a + b, c);
    assert SearchFilter == a + b + c;
  }

  predicate Given(s: Option<string>) { s.Some? && s.value != "" }

  /** The `%search%` pattern bound to each LIKE. */
  function SearchTerm(s: string): string { "%" + s + "%" }

  /** The query text: the SELECT ... WHERE 1=1 prefix, the filters given, then the ordering. */
  function SearchQuery(select: string, search: Option<string>, category: Option<string>): string {
    select + When(Given(search), SearchFilter) + When(Given(category), CategoryFilter) + OrderBy
  }

  function SearchQueryParams(search: Option<string>, category: Option<string>): seq<SqlValue> {
    var term := Text(SearchTerm(search.GetOr("")));
    When(Given(search), [term, term, term]) + When(Given(category), [Text(category.GetOr(""))])
  }

  /** The handler's construction of the query text and its parameters. */
  method BuildSearch(select: string, search: Option<string>, category: Option<string>)
    returns (query: string, queryParams: seq<SqlValue>)
    ensures query == SearchQuery(select, search, category)
    ensures queryParams == SearchQueryParams(search, category)
  {
    query := select;
    queryParams := [];
    if Given(search) {
      query := query + SearchFilter;
      var term := Text(SearchTerm(search.value));
      queryParams := queryParams + [term, term, term];
    }
    var term := Text(SearchTerm(search.GetOr("")));
    assert query == select + When(Given(search), SearchFilter);
    assert queryParams == When(Given(search), [term, term, term]);
    if Given(category) {
      query := query + CategoryFilter;
      queryParams := queryParams + [Text(category.value)];
    }
    assert query == select + When(Given(search), SearchFilter) + When(Given(category), CategoryFilter);
    query := query + OrderBy;
  }

  /** The query binds exactly one value per placeholder, whatever the SELECT prefix. */
  lemma SearchQueryAligned(select: string, search: Option<string>, category: Option<string>)
    requires '?' !in select
    ensures Placeholders(SearchQuery(select, search, category)) == |SearchQueryParams(search, category)|
  {
    var a, b := When(Given(search), SearchFilter), When(Given(category), CategoryFilter);
    NoPlaceholders(select);
    SearchFilterPlaceholders();
    CategoryFilterPlaceholders();
    AppendWhen(select, Given(search), SearchFilter);
    AppendWhen(select + a, Given(category), CategoryFilter);
    SuffixFree(select + a + b, OrderBy);
    SearchQueryParamsLength(search, category);
  }

  lemma CategoryFilterPlaceholders()
    ensures Placeholders(CategoryFilter) == 1
  {
    EndsInPlaceholder(" AND c.category_key = ");
  }

  lemma SearchQueryParamsLength(search: Option<string>, category: Option<string>)
    ensures |SearchQueryParams(search, category)| == (if Given(search) then 3 else 0) + (if Given(category) then 1 else 0)
  {
  }

  /**
   * The search binds three equal `%search%` patterns first, the category key is bound as
   * given (not lower-cased), and the ORDER BY always closes the query.
   */
  lemma SearchQueryShape(search: Option<string>, category: Option<string>)
    ensures var ps := SearchQueryParams(search, category);
      && |ps| == (if Given(search) then 3 else 0) + (if Given(category) then 1 else 0)
      && (Given(search) ==> ps[0] == ps[1] == ps[2] == Text(SearchTerm(search.value)))
      && (Given(category) ==> ps[|ps| - 1] == Text(category.value))
    ensures var t := SearchQuery("", search, category);
      |t| >= |OrderBy| && t[|t| - |OrderBy|..] == OrderBy
  {
  }

  // ---------------------------------------------------------------- POST /tours

  /** The JSON body of `POST /tours`, its numbers already parsed; `None` is `undefined`. */
  datatype RouterBody = RouterBody(
    name: Option<string>, description: Option<string>, country: Option<string>,
    categoryId: Option<real>, days: Option<real>, price: Option<real>, oldPrice: Option<real>,
    imageUrl: Option<string>, rating: Option<real>, reviews: Option<int>)

  /** The value a `trim()` sanitizer leaves in the body (a missing field reads as empty). */
  function Sanitized(v: Option<string>): string { Trim(v.GetOr("")) }

  predicate IsInt(x: real) { x == x.Floor as real }

  /** The checks of the validation chain, one per field. */
  datatype Violation =
    | NameLength | DescriptionLength | CountryLength | CategoryIdInvalid
    | DaysInvalid | PriceInvalid | ImageUrlInvalid | RatingInvalid

  predicate NameOk(b: RouterBody) { 3 <= |Sanitized(b.name)| <= 100 }
  predicate DescriptionOk(b: RouterBody) { 10 <= |Sanitized(b.description)| <= 1000 }
  predicate CountryOk(b: RouterBody) { 2 <= |Sanitized(b.country)| <= 50 }
  predicate CategoryIdOk(b: RouterBody) {
    b.categoryId.Some? && IsInt(b.categoryId.value) && b.categoryId.value >= 1.0
  }
  predicate DaysOk(b: RouterBody) {
    b.days.Some? && IsInt(b.days.value) && 1.0 <= b.days.value <= 365.0
  }
  predicate PriceOk(b: RouterBody) { b.price.Some? && b.price.value >= 0.0 }
  /** `isURL()`, whatever else it accepts, refuses the empty text. */
  predicate ImageUrlOk(b: RouterBody, isUrl: string -> bool) {
    b.imageUrl.Some? ==> b.imageUrl.value != "" && isUrl(b.imageUrl.value)
  }
  predicate RatingOk(b: RouterBody) {
    b.rating.Some? ==> 0.0 <= b.rating.value <= 5.0
  }

  /** The errors `validationResult` reports, in the order of the chain. */
  function Violations(b: RouterBody, isUrl: string -> bool): seq<Violation> {
    When(!NameOk(b), [NameLength])
    + When(!DescriptionOk(b), [DescriptionLength])
    + When(!CountryOk(b), [CountryLength])
    + When(!CategoryIdOk(b), [CategoryIdInvalid])
    + When(!DaysOk(b), [DaysInvalid])
    + When(!PriceOk(b), [PriceInvalid])
    + When(!ImageUrlOk(b, isUrl), [ImageUrlInvalid])
    + When(!RatingOk(b), [RatingInvalid])
  }

  /**
   * A body passes validation exactly when its trimmed name has 3 to 100 characters, its trimmed
   * description 10 to 1000, its trimmed country 2 to 50, `category_id` is an integer of at
   * least 1, `days` an integer from 1 to 365, `price` is at least 0, an `image_url` given is a
   * URL and a `rating` given lies between 0 and 5.
   */
  lemma ValidIff(b: RouterBody, isUrl: string -> bool)
    ensures Violations(b, isUrl) == [] <==>
      && 3 <= |Trim(b.name.GetOr(""))| <= 100
      && 10 <= |Trim(b.description.GetOr(""))| <= 1000
      && 2 <= |Trim(b.country.GetOr(""))| <= 50
      && b.categoryId.Some? && IsInt(b.categoryId.value) && b.categoryId.value >= 1.0
      && b.days.Some? && IsInt(b.days.value) && 1.0 <= b.days.value <= 365.0
      && b.price.Some? && b.price.value >= 0.0
      && (b.imageUrl.Some? ==> b.imageUrl.value != "" && isUrl(b.imageUrl.value))
      && (b.rating.Some? ==> 0.0 <= b.rating.value <= 5.0)
  {
    var v1 := When(!NameOk(b), [NameLength]);
    var v2 := v1 + When(!DescriptionOk(b), [DescriptionLength]);
    var v3 := v2 + When(!CountryOk(b), [CountryLength]);
    var v4 := v3 + When(!CategoryIdOk(b), [CategoryIdInvalid]);
    var v5 := v4 + When(!DaysOk(b), [DaysInvalid]);
    var v6 := v5 + When(!PriceOk(b), [PriceInvalid]);
    var v7 := v6 + When(!ImageUrlOk(b, isUrl), [ImageUrlInvalid]);
    NoneWhen(v6, !ImageUrlOk(b, isUrl), ImageUrlInvalid);
    NoneWhen(v7, !RatingOk(b), RatingInvalid);
    NoneWhen(v5, !PriceOk(b), PriceInvalid);
    NoneWhen(v4, !DaysOk(b), DaysInvalid);
    NoneWhen(v3, !CategoryIdOk(b), CategoryIdInvalid);
    NoneWhen(v2, !CountryOk(b), CountryLength);
    NoneWhen(v1, !DescriptionOk(b), DescriptionLength);
  }

  /** A chain of checks reports nothing exactly when its first part and the last check report nothing. */
  lemma NoneWhen(front: seq<Violation>, failed: bool, v: Violation)
    ensures front + When(failed, [v]) == [] <==> front == [] && !failed
  {
    if failed {
      assert |front + When(failed, [v])| > 0;
    }
  }

  /** The name bound is checked after trimming: padding a name never changes its verdict. */
  lemma NameCheckIgnoresPadding(b: RouterBody, w1: string, w2: string)
    requires b.name.Some? && AllSpaces(w1) && AllSpaces(w2)
    ensures NameOk(b) <==> NameOk(b.(name := Some(w1 + b.name.value + w2)))
  {
    TrimPadded(w1, b.name.value, w2);
  }

  /** JavaScript truthiness of an optional number or text. */
  predicate TruthyReal(v: Option<real>) { v.Some? && v.value != 0.0 }

  /** The row the INSERT writes: the sanitized texts, the slug as key and the handler's defaults. */
  function RouterRow(b: RouterBody): TourRow {
    var name := Sanitized(b.name);
    TourRow(
      categoryId := if CategoryIdOk(b) then b.categoryId.value.Floor as nat else 0,
      tourKey := Slug(name),
      name := name,
      country := Sanitized(b.country),
      imageUrl := if Given(b.imageUrl) then b.imageUrl else None,
      description := Sanitized(b.description),
      days := b.days.GetOr(0.0).Floor,
      price := b.price.GetOr(0.0),
      oldPrice := if TruthyReal(b.oldPrice) then b.oldPrice else None,
      rating := b.rating.GetOr(0.0),
      reviews := b.reviews.GetOr(0),
      baseSlots := 12)   // the column's DEFAULT
  }

  /**
   * The insert defaults: rating and reviews 0 when absent, old price and image `null` when
   * falsy, and the key is the slug of the trimmed name.
   */
  lemma RouterRowDefaults(b: RouterBody)
    ensures var row := RouterRow(b);
      && (b.rating.None? ==> row.rating == 0.0)
      && (b.reviews.None? ==> row.reviews == 0)
      && (row.oldPrice.None? <==> !TruthyReal(b.oldPrice))
      && (row.imageUrl.None? <==> !Given(b.imageUrl))
      && row.tourKey == Slug(Trim(b.name.GetOr("")))
      && SlugShaped(row.tourKey)
  {
    SlugIsShaped(Sanitized(b.name));
  }

  /**
   * A body that passes validation yields a row that meets the schema exactly when it carries an
   * image URL, a non-negative review count and no negative old price: the image column is
   * NOT NULL, yet the handler binds `null` when no URL was sent.
   */
  lemma ValidatedRouterRow(b: RouterBody, isUrl: string -> bool)
    requires Violations(b, isUrl) == []
    ensures SatisfiesConstraints(RouterRow(b)) <==>
              Given(b.imageUrl) && b.reviews.GetOr(0) >= 0
              && (TruthyReal(b.oldPrice) ==> b.oldPrice.value >= 0.0)
  {
    ValidIff(b, isUrl);
  }

  /**
   * The POST handler: 400 for a failed validation or an unknown category id (nothing inserted),
   * otherwise the INSERT; a duplicate key answers 400, a violated constraint 500, success 201.
   */
  method RouterCreate(db: TourTable, b: RouterBody, isUrl: string -> bool)
    returns (status: int, created: Option<nat>)
    requires db.Valid()
    modifies db
    ensures db.Valid()
    ensures status == 201 || status == 400 || status == 500
    ensures status == 201 <==> created.Some?
    ensures status != 201 ==> db.rows == old(db.rows)
    ensures Violations(b, isUrl) != [] ==> status == 400 && db.nextId == old(db.nextId)
    ensures Violations(b, isUrl) == [] && !HasCategoryId(db.categories, RouterRow(b).categoryId) ==>
              status == 400 && db.nextId == old(db.nextId)
    ensures Violations(b, isUrl) == [] && HasCategoryId(db.categories, RouterRow(b).categoryId) ==>
              var row := RouterRow(b);
              && (status == 500 <==> !SatisfiesConstraints(row))
              && (status == 500 ==> db.nextId == old(db.nextId))
              && (status != 500 ==> db.nextId == old(db.nextId) + 1)
              && (SatisfiesConstraints(row) ==>
                    (status == 400 <==>
                       exists id :: id in old(db.rows) && SameKey(old(db.rows)[id].tourKey, row.tourKey)))
              && (created.Some? ==>
                    && created.value == old(db.nextId)
                    && (forall id :: id in old(db.rows) ==> id < created.value)
                    && db.rows == old(db.rows)[created.value := row])
  {
    if Violations(b, isUrl) != [] {
      return 400, None;
    }
    var row := RouterRow(b);
    if !HasCategoryId(db.categories, row.categoryId) {
      return 400, None;
    }
    var result := db.Insert(row);
    match result {
      case Ok(id) =>
        status, created := 201, Some(id);
      case Err(DuplicateKey) =>
        status, created := 400, None;
      case Err(_) =>
        status, created := 500, None;
    }
  }

  /** A valid body without `image_url` always ends in a 500: the NOT NULL column rejects the row. */
  lemma CreateWithoutImageFails(b: RouterBody, isUrl: string -> bool)
    requires Violations(b, isUrl) == [] && !Given(b.imageUrl)
    ensures !SatisfiesConstraints(RouterRow(b))
  {
  }

  // ---------------------------------------------------------------- /tours/:id

  /** `GET /tours/:id`: the row whose id is the parameter, or 404; keys are not consulted. */
  method RouterGetTour(db: TourTable, id: string) returns (status: int, found: Option<nat>)
    ensures status == 200 || status == 404
    ensures status == 404 <==> db.Matching(IdOnly(id)) == {}
    ensures status == 200 ==> found.Some? && found.value in db.rows && NatToString(found.value) == id
  {
    found := db.SelectOne(IdOnly(id));
    status := if found.None? then 404 else 200;
  }

  /** `DELETE /tours/:id`: the row whose id is the parameter is removed; 404 when there is none. */
  method RouterDeleteTour(db: TourTable, id: string) returns (status: int)
    requires db.Valid()
    modifies db
    ensures db.Valid()
    ensures status == 200 || status == 404
    ensures status == 404 <==> old(db.Matching(IdOnly(id))) == {}
    ensures db.rows == map k | k in old(db.rows) && NatToString(k) != id :: old(db.rows)[k]
  {
    var affected := db.DeleteWhere(IdOnly(id));
    status := if affected == 0 then 404 else 200;
  }
}
