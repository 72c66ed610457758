/**
 * The request logic of the Express API server over the abstract `tours` table:
 * the filter builder and pagination of `GET /api/tours`, the validation cascade and
 * defaults of `POST /api/tours`, the dynamic SET list of `PUT /api/tours/:id`, and the
 * id-or-key lookup of `GET` / `PUT` / `DELETE /api/tours/:id`.
 */
module ServerApi {
  import opened Wrappers
  import opened Seqs
  import opened Strings
  import opened TourKey
  import opened TourDb

  // ---------------------------------------------------------------- GET /api/tours

  /** A numeric query-string value: its text (for truthiness) and its `Number(...)` value. */
  datatype NumericParam = NumericParam(raw: string, value: real)

  /** The query string of `GET /api/tours`; `None` is an absent parameter. */
  datatype ListQuery = ListQuery(
    category: Option<string>, country: Option<string>,
    minPrice: Option<NumericParam>, maxPrice: Option<NumericParam>,
    search: Option<string>, page: Option<int>, limit: Option<int>)

  /** A query-string value is truthy when present and non-empty. */
  predicate Given(s: Option<string>) { s.Some? && s.value != "" }
  predicate GivenNumber(p: Option<NumericParam>) { p.Some? && p.value.raw != "" }

  predicate NoFilters(q: ListQuery) {
    !Given(q.category) && !Given(q.country) && !GivenNumber(q.minPrice)
    && !GivenNumber(q.maxPrice) && !Given(q.search)
  }

  const CategoryCondition := " AND c.category_key = " + "?"
  const CountryCondition := " AND t.country = " + "?"
  const MinPriceCondition := " AND t.price >= " + "?"
  const MaxPriceCondition := " AND t.price <= " + "?"
  const SearchCondition :=
    " AND (t.name LIKE " + "?" + " OR t.description LIKE " + "?" + " OR t.country LIKE " + "?" + ")"

  /** Each single-value condition carries one placeholder. */
  lemma ConditionPlaceholders()
    ensures Placeholders(CategoryCondition) == 1 && Placeholders(CountryCondition) == 1
    ensures Placeholders(MinPriceCondition) == 1 && Placeholders(MaxPriceCondition) == 1
  {
    EndsInPlaceholder(" AND c.category_key = ");
    EndsInPlaceholder(" AND t.country = ");
    EndsInPlaceholder(" AND t.price >= ");
    EndsInPlaceholder(" AND t.price <= ");
  }

  /** The search condition carries three placeholders. */
  lemma SearchConditionPlaceholders()
    ensures Placeholders(SearchCondition) == 3
  {
    var a := " AND (t.name LIKE " + "?";
    var b := " OR t.description LIKE " + "?";
    var c := " OR t.country LIKE " + "?" + ")";
    EndsInPlaceholder(" AND (t.name LIKE ");
    EndsInPlaceholder(" OR t.description LIKE ");
    OnePlaceholder(" OR t.country LIKE ", ")");
    PlaceholdersConcat(a, b);
    PlaceholdersConcat(a + b, c);
    assert SearchCondition == a + b + c;
  }

  /** The `%search%` pattern bound to each LIKE. */
  function LikePattern(s: string): string { "%" + s + "%" }

  /** The WHERE clause the handler accumulates. */
  function WhereClause(q: ListQuery): string {
    "WHERE 1=1"
    + When(Given(q.category), CategoryCondition)
    + When(Given(q.country), CountryCondition)
    + When(GivenNumber(q.minPrice), MinPriceCondition)
    + When(GivenNumber(q.maxPrice), MaxPriceCondition)
    + When(Given(q.search), SearchCondition)
  }

  /** The parameters bound to the WHERE clause, in placeholder order. */
  function WhereParams(q: ListQuery): seq<SqlValue> {
    When(Given(q.category), [Text(Lower(q.category.GetOr("")))])
    + When(Given(q.country), [Text(Upper(q.country.GetOr("")))])
    + When(GivenNumber(q.minPrice), [Number(NumberOf(q.minPrice))])
    + When(GivenNumber(q.maxPrice), [Number(NumberOf(q.maxPrice))])
    + When(Given(q.search), SearchParams(q.search.GetOr("")))
  }

  function NumberOf(p: Option<NumericParam>): real {
    if p.Some? then p.value.value else 0.0
  }

  /** The three LIKE operands of a search. */
  function SearchParams(search: string): seq<SqlValue> {
    var term := Text(LikePattern(search));
    [term, term, term]
  }

  /** The handler's step-by-step construction of the clause and its parameter list. */
  method BuildWhere(q: ListQuery) returns (whereClause: string, params: seq<SqlValue>)
    ensures whereClause == WhereClause(q) && params == WhereParams(q)
  {
    whereClause := "WHERE 1=1";
    params := [];
    if Given(q.category) {
      whereClause := whereClause + CategoryCondition;
      params := params + [Text(Lower(q.category.value))];
    }
    assert whereClause == "WHERE 1=1" + When(Given(q.category), CategoryCondition);
    assert params == When(Given(q.category), [Text(Lower(q.category.GetOr("")))]);
    if Given(q.country) {
      whereClause := whereClause + CountryCondition;
      params := params + [Text(Upper(q.country.value))];
    }
    assert whereClause == "WHERE 1=1" + When(Given(q.category), CategoryCondition)
                          + When(Given(q.country), CountryCondition);
    assert params == When(Given(q.category), [Text(Lower(q.category.GetOr("")))])
                     + When(Given(q.country), [Text(Upper(q.country.GetOr("")))]);
    if GivenNumber(q.minPrice) {
      whereClause := whereClause + MinPriceCondition;
      params := params + [Number(q.minPrice.value.value)];
    }
    assert whereClause == "WHERE 1=1" + When(Given(q.category), CategoryCondition)
                          + When(Given(q.country), CountryCondition)
                          + When(GivenNumber(q.minPrice), MinPriceCondition);
    assert params == When(Given(q.category), [Text(Lower(q.category.GetOr("")))])
                     + When(Given(q.country), [Text(Upper(q.country.GetOr("")))])
                     + When(GivenNumber(q.minPrice), [Number(NumberOf(q.minPrice))]);
    if GivenNumber(q.maxPrice) {
      whereClause := whereClause + MaxPriceCondition;
      params := params + [Number(q.maxPrice.value.value)];
    }
    assert whereClause == "WHERE 1=1" + When(Given(q.category), CategoryCondition)
                          + When(Given(q.country), CountryCondition)
                          + When(GivenNumber(q.minPrice), MinPriceCondition)
                          + When(GivenNumber(q.maxPrice), MaxPriceCondition);
    assert params == When(Given(q.category), [Text(Lower(q.category.GetOr("")))])
                     + When(Given(q.country), [Text(Upper(q.country.GetOr("")))])
                     + When(GivenNumber(q.minPrice), [Number(NumberOf(q.minPrice))])
                     + When(GivenNumber(q.maxPrice), [Number(NumberOf(q.maxPrice))]);
    if Given(q.search) {
      whereClause := whereClause + SearchCondition;
      var term := Text(LikePattern(q.search.value));
      params := params + [term, term, term];
    }
  }

  /** One parameter per single-value filter given, three for a search. */
  lemma WhereParamsLength(q: ListQuery)
    ensures |WhereParams(q)| ==
      (if Given(q.category) then 1 else 0) + (if Given(q.country) then 1 else 0)
      + (if GivenNumber(q.minPrice) then 1 else 0) + (if GivenNumber(q.maxPrice) then 1 else 0)
      + (if Given(q.search) then 3 else 0)
  {
  }

  /** The clause always has exactly as many placeholders as there are parameters. */
  lemma WherePlaceholders(q: ListQuery)
    ensures Placeholders(WhereClause(q)) == |WhereParams(q)|
  {
    NoPlaceholders("WHERE 1=1");
    ConditionPlaceholders();
    SearchConditionPlaceholders();
    FiveOptionalPieces("WHERE 1=1",
      Given(q.category), CategoryCondition, Given(q.country), CountryCondition,
      GivenNumber(q.minPrice), MinPriceCondition, GivenNumber(q.maxPrice), MaxPriceCondition,
      Given(q.search), SearchCondition);
    WhereParamsLength(q);
  }

  /** The placeholders of a text grown by five optional pieces, whatever the pieces are. */
  lemma FiveOptionalPieces(w0: string, b1: bool, c1: string, b2: bool, c2: string, b3: bool, c3: string,
                           b4: bool, c4: string, b5: bool, c5: string)
    ensures Placeholders(w0 + When(b1, c1) + When(b2, c2) + When(b3, c3) + When(b4, c4) + When(b5, c5))
            == Placeholders(w0) + (if b1 then Placeholders(c1) else 0) + (if b2 then Placeholders(c2) else 0)
               + (if b3 then Placeholders(c3) else 0) + (if b4 then Placeholders(c4) else 0)
               + (if b5 then Placeholders(c5) else 0)
  {
    var w1 := w0 + When(b1, c1);
    var w2 := w1 + When(b2, c2);
    var w3 := w2 + When(b3, c3);
    var w4 := w3 + When(b4, c4);
    AppendWhen(w0, b1, c1);
    AppendWhen(w1, b2, c2);
    AppendWhen(w2, b3, c3);
    AppendWhen(w3, b4, c4);
    AppendWhen(w4, b5, c5);
  }

  /** Without filters the clause is the neutral `WHERE 1=1` and nothing is bound. */
  lemma NoFiltersClause(q: ListQuery)
    requires NoFilters(q)
    ensures WhereClause(q) == "WHERE 1=1" && WhereParams(q) == []
  {
  }

  /**
   * The filters bind, in order: the category lower-cased, the country upper-cased, the two
   * prices, and three copies of the `%search%` pattern.
   */
  lemma WhereParamsShape(q: ListQuery)
    ensures var ps := WhereParams(q);
      && (Given(q.category) ==> ps[0] == Text(Lower(q.category.value)))
      && (Given(q.country) ==>
            ps[if Given(q.category) then 1 else 0] == Text(Upper(q.country.value)))
      && (Given(q.search) ==>
            && |ps| >= 3
            && ps[|ps| - 3] == ps[|ps| - 2] == ps[|ps| - 1] == Text(LikePattern(q.search.value)))
      && |ps| == (if Given(q.category) then 1 else 0) + (if Given(q.country) then 1 else 0)
                 + (if GivenNumber(q.minPrice) then 1 else 0) + (if GivenNumber(q.maxPrice) then 1 else 0)
                 + (if Given(q.search) then 3 else 0)
  {
  }

  // ---------------------------------------------------------------- pagination

  function PageOf(q: ListQuery): int { q.page.GetOr(1) }
  function LimitOf(q: ListQuery): int { q.limit.GetOr(20) }

  /** `(Number(page) - 1) * Number(limit)`. */
  function Offset(page: int, limit: int): int { (page - 1) * limit }

  /** `Math.ceil(total / limit)` as JSON: a division by zero gives Infinity or NaN, sent as null. */
  datatype PageCount = Pages(count: int) | NullPages

  function PageCountOf(total: nat, limit: int): (r: PageCount)
    ensures r.NullPages? <==> limit == 0
    ensures limit > 0 ==> (r.count - 1) * limit < total <= r.count * limit
    ensures limit < 0 ==> r.count * limit <= total < (r.count - 1) * limit
  {
    if limit == 0 then NullPages
    else if limit > 0 then
      var c := (total + limit - 1) / limit;
      CeilDivBounds(total, limit);
      Pages(c)
    else
      var c := -(total / -limit);
      FloorDivBounds(total, -limit);
      Pages(c)
  }

  lemma CeilDivBounds(total: nat, limit: int)
    requires limit > 0
    ensures var c := (total + limit - 1) / limit; (c - 1) * limit < total <= c * limit
  {
    var c := (total + limit - 1) / limit;
    var m := (total + limit - 1) % limit;
    assert total + limit - 1 == c * limit + m;
    assert (c - 1) * limit == c * limit - limit;
  }

  lemma FloorDivBounds(total: nat, d: int)
    requires d > 0
    ensures var q := total / d; q * d <= total < (q + 1) * d
  {
    var q := total / d;
    assert total == q * d + total % d;
    assert (q + 1) * d == q * d + d;
  }

  /** The `pagination` object of the response. */
  datatype Pagination = Pagination(current: int, pages: PageCount, total: nat)

  function PaginationOf(q: ListQuery, total: nat): Pagination {
    Pagination(PageOf(q), PageCountOf(total, LimitOf(q)), total)
  }

  /** With no `page` / `limit` given, the first twenty rows are asked for. */
  lemma DefaultPagination(q: ListQuery, total: nat)
    requires q.page.None? && q.limit.None?
    ensures Offset(PageOf(q), LimitOf(q)) == 0 && LimitOf(q) == 20
    ensures PaginationOf(q, total).current == 1
    ensures var p := PaginationOf(q, total).pages; p.Pages? && (p.count - 1) * 20 < total <= p.count * 20
  {
  }

  /**
   * With a positive limit the pages split the result: the row at position `k` (from 0) lies in
   * the window `[Offset(p, limit), Offset(p, limit) + limit)` of page `p = k / limit + 1` and of
   * no other page, and that page is one of the `pages` the response reports.
   */
  lemma PageOfPosition(total: nat, limit: int, k: nat)
    requires limit > 0 && k < total
    ensures var p := k / limit + 1;
      && 1 <= p <= PageCountOf(total, limit).count
      && Offset(p, limit) <= k < Offset(p, limit) + limit
    ensures forall p :: Offset(p, limit) <= k < Offset(p, limit) + limit ==> p == k / limit + 1
  {
    var q := k / limit;
    FloorDivBounds(k, limit);
    assert Offset(q + 1, limit) == q * limit;
    var c := PageCountOf(total, limit).count;
    assert q * limit <= k < total <= c * limit;
    MultiplyBelow(q, c, limit);
    forall p | Offset(p, limit) <= k < Offset(p, limit) + limit
      ensures p == q + 1
    {
      assert Offset(p, limit) + limit == p * limit;
      MultiplyBelow(p - 1, q + 1, limit);
      MultiplyBelow(q, p, limit);
    }
  }

  /** Of two multiples of the same positive number, the smaller has the smaller factor. */
  lemma MultiplyBelow(a: int, b: int, limit: int)
    requires limit > 0 && a * limit < b * limit
    ensures a < b
  {
    assert b * limit - a * limit == (b - a) * limit;
  }

  /**
   * The response of the list handler: MySQL refuses a negative LIMIT or OFFSET, which the catch
   * answers with 500 (`None` here); otherwise the page's rows come with the pagination object.
   */
  function ListResponse(q: ListQuery, total: nat): (r: Option<Pagination>)
    ensures r.None? <==> LimitOf(q) < 0 || Offset(PageOf(q), LimitOf(q)) < 0
    ensures r.Some? ==> r.value.current == PageOf(q) && r.value.total == total
    ensures r.Some? && LimitOf(q) > 0 ==>
              && r.value.pages.Pages?
              && var c := r.value.pages.count; (c - 1) * LimitOf(q) < total <= c * LimitOf(q)
  {
    if LimitOf(q) < 0 || Offset(PageOf(q), LimitOf(q)) < 0 then None
    else Some(PaginationOf(q, total))
  }

  /**
   * Page numbers from 1 with a limit of 0 or more always get an answer; page 0 or below with a
   * positive limit always fails.
   */
  lemma ListResponseCases(q: ListQuery, total: nat)
    ensures PageOf(q) >= 1 && LimitOf(q) >= 0 ==> ListResponse(q, total).Some?
    ensures PageOf(q) < 1 && LimitOf(q) > 0 ==> ListResponse(q, total).None?
  {
    if PageOf(q) >= 1 && LimitOf(q) >= 0 {
      assert (PageOf(q) - 1) * LimitOf(q) >= 0;
    }
    if PageOf(q) < 1 && LimitOf(q) > 0 {
      assert (PageOf(q) - 1) * LimitOf(q) <= -LimitOf(q);
    }
  }

  const LimitOffset := " LIMIT " + "?" + " OFFSET " + "?"

  lemma LimitOffsetPlaceholders()
    ensures Placeholders(LimitOffset) == 2
  {
    OnePlaceholder(" LIMIT ", " OFFSET ");
    assert Placeholders("?") == 1;
    PlaceholdersConcat(" LIMIT " + "?" + " OFFSET ", "?");
  }

  /**
   * The page query: a SELECT ... FROM ... LEFT JOIN prefix (given as `select`), the filter,
   * then `LIMIT ? OFFSET ?`; its parameters are the filter's, then the limit and the offset.
   */
  function ToursQuery(select: string, q: ListQuery): string { select + WhereClause(q) + LimitOffset }
  function ToursQueryParams(q: ListQuery): seq<SqlValue> {
    WhereParams(q) + [Number(LimitOf(q) as real), Number(Offset(PageOf(q), LimitOf(q)) as real)]
  }
  /** The count query shares the filter and its parameters. */
  function CountQuery(select: string, q: ListQuery): string { select + WhereClause(q) }

  /**
   * Both statements of the handler bind exactly one value per placeholder, whatever their
   * SELECT / FROM prefix, as long as that prefix has no `?` of its own.
   */
  lemma ListStatementsAligned(toursSelect: string, countSelect: string, q: ListQuery)
    requires '?' !in toursSelect && '?' !in countSelect
    ensures Placeholders(ToursQuery(toursSelect, q)) == |ToursQueryParams(q)|
    ensures Placeholders(CountQuery(countSelect, q)) == |WhereParams(q)|
  {
    WherePlaceholders(q);
    var w, tail := WhereClause(q), LimitOffset;
    LimitOffsetPlaceholders();
    PlaceholdersConcat(w, tail);
    assert ToursQuery(toursSelect, q) == toursSelect + (w + tail);
    PrefixFree(toursSelect, w + tail);
    PrefixFree(countSelect, w);
  }

  // ---------------------------------------------------------------- POST /api/tours

  /** The JSON body of `POST /api/tours`, its numbers already parsed; `None` is `undefined`. */
  datatype CreateRequest = CreateRequest(
    name: Option<string>, country: Option<string>, category: Option<string>,
    description: Option<string>, image: Option<string>,
    days: Option<int>, price: Option<real>, oldPrice: Option<real>, baseSlots: Option<int>)

  /** JavaScript truthiness of a number: present and not zero. */
  predicate TruthyInt(n: Option<int>) { n.Some? && n.value != 0 }
  predicate TruthyReal(n: Option<real>) { n.Some? && n.value != 0.0 }

  /** `name && country && category && description && days && price`. */
  predicate RequiredPresent(req: CreateRequest) {
    && Given(req.name) && Given(req.country) && Given(req.category) && Given(req.description)
    && TruthyInt(req.days) && TruthyReal(req.price)
  }

  /** Why a creation request is answered with 400 before any insert. */
  datatype CreateError = MissingFields | InvalidCategory | InvalidNumbers | InvalidOldPrice

  /**
   * The validation cascade: required fields, then the category (looked up lower-cased), then
   * `days >= 1` and `price >= 0`, then a truthy `oldPrice >= 0`. Success yields the category id.
   */
  function CheckCreate(req: CreateRequest, cats: seq<CategoryRow>): (r: Result<nat, CreateError>)
    ensures r == Err(MissingFields) <==> !RequiredPresent(req)
    ensures r == Err(InvalidCategory) <==>
              RequiredPresent(req) && CategoryIdByKey(cats, Lower(req.category.value)).None?
    ensures r.Ok? ==>
              && RequiredPresent(req)
              && CategoryIdByKey(cats, Lower(req.category.value)) == Some(r.value)
              && HasCategoryId(cats, r.value)
              && req.days.value >= 1 && req.price.value > 0.0
              && (TruthyReal(req.oldPrice) ==> req.oldPrice.value > 0.0)
  {
    if !RequiredPresent(req) then Err(MissingFields)
    else match CategoryIdByKey(cats, Lower(req.category.value))
      case None => Err(InvalidCategory)
      case Some(id) =>
        if req.days.value < 1 || req.price.value < 0.0 then Err(InvalidNumbers)
        else if TruthyReal(req.oldPrice) && req.oldPrice.value < 0.0 then Err(InvalidOldPrice)
        else Ok(id)
  }

  /**
   * A price or a duration of 0 is reported as a missing field, never reaching the numeric
   * check that would have accepted `price >= 0`.
   */
  lemma ZeroIsMissing(req: CreateRequest, cats: seq<CategoryRow>)
    requires req.price == Some(0.0) || req.days == Some(0)
    ensures CheckCreate(req, cats) == Err(MissingFields)
  {
  }

  /**
   * Past the required-field check, the numeric checks reject exactly a duration below 1, a
   * negative price and a negative old price, in that order.
   */
  lemma NumericChecks(req: CreateRequest, cats: seq<CategoryRow>)
    requires RequiredPresent(req) && CategoryIdByKey(cats, Lower(req.category.value)).Some?
    ensures CheckCreate(req, cats) == Err(InvalidNumbers) <==> req.days.value < 1 || req.price.value < 0.0
    ensures CheckCreate(req, cats) == Err(InvalidOldPrice) <==>
              req.days.value >= 1 && req.price.value >= 0.0
              && req.oldPrice.Some? && req.oldPrice.value < 0.0
  {
  }

  const DefaultImage := "/default-tour.jpg"

  /** The row the INSERT writes, with the handler's normalisation and defaults. */
  function NewTourRow(req: CreateRequest, categoryId: nat, now: nat): TourRow {
    var name := req.name.GetOr("");
    TourRow(
      categoryId := categoryId,
      tourKey := GenerateTourKey(name, req.category.GetOr(""), now),
      name := Trim(name),
      country := Upper(Trim(req.country.GetOr(""))),
      imageUrl := Some(if Given(req.image) then req.image.value else DefaultImage),
      description := Trim(req.description.GetOr("")),
      days := req.days.GetOr(0),
      price := req.price.GetOr(0.0),
      oldPrice := if TruthyReal(req.oldPrice) then req.oldPrice else None,
      rating := 4.5,   // the column's DEFAULT
      reviews := 0,    // the column's DEFAULT
      baseSlots := if TruthyInt(req.baseSlots) then req.baseSlots.value else 12)
  }

  /**
   * A created row stores the name and the description trimmed and the country trimmed and
   * upper-cased: normalising them once more would change nothing.
   */
  lemma NewTourRowTexts(req: CreateRequest, categoryId: nat, now: nat)
    requires RequiredPresent(req)
    ensures var row := NewTourRow(req, categoryId, now);
      && Trim(row.name) == row.name && row.name == Trim(req.name.value)
      && Trim(row.description) == row.description && row.description == Trim(req.description.value)
      && row.country == Upper(Trim(req.country.value))
      && Trim(row.country) == row.country && Upper(row.country) == row.country
      && (forall i :: 0 <= i < |row.country| ==> !IsAsciiLower(row.country[i]))
  {
    TrimIdempotent(req.name.value);
    TrimIdempotent(req.description.value);
    var c := Trim(req.country.value);
    TrimIdempotent(req.country.value);
    TrimUpperCommute(c);
    UpperIdempotent(c);
  }

  /**
   * The defaults of a created row: the image or `/default-tour.jpg`, no old price unless a
   * truthy one was sent, 12 slots unless a truthy number was sent, and a key generated from
   * the name and category as sent.
   */
  lemma NewTourRowDefaults(req: CreateRequest, categoryId: nat, now: nat)
    requires RequiredPresent(req)
    ensures var row := NewTourRow(req, categoryId, now);
      && (!Given(req.image) ==> row.imageUrl == Some(DefaultImage))
      && (Given(req.image) ==> row.imageUrl == req.image)
      && (row.oldPrice.None? <==> !TruthyReal(req.oldPrice))
      && (row.oldPrice.Some? ==> row.oldPrice == req.oldPrice)
      && (TruthyInt(req.baseSlots) ==> row.baseSlots == req.baseSlots.value)
      && (!TruthyInt(req.baseSlots) ==> row.baseSlots == 12)
      && row.days == req.days.value && row.price == req.price.value
      && row.rating == 4.5 && row.reviews == 0
      && row.tourKey == GenerateTourKey(req.name.value, req.category.value, now)
  {
  }

  /**
   * A request that passes validation yields a row that meets every CHECK of the schema except
   * possibly `base_slots >= 0`, which the handler never checks.
   */
  lemma ValidatedRowConstraints(req: CreateRequest, cats: seq<CategoryRow>, now: nat)
    requires CheckCreate(req, cats).Ok?
    ensures var row := NewTourRow(req, CheckCreate(req, cats).value, now);
      && (SatisfiesConstraints(row) <==> row.baseSlots >= 0)
      && HasCategoryId(cats, row.categoryId)
  {
  }

  /**
   * The POST handler: 400 on a failed check (nothing inserted), otherwise the INSERT; a
   * duplicate key answers 400, any other database error 500, success 201 with the new id.
   * An INSERT that reaches the storage engine uses up an id even when it then fails.
   */
  method CreateTour(db: TourTable, req: CreateRequest, now: nat) returns (status: int, created: Option<nat>)
    requires db.Valid()
    modifies db
    ensures db.Valid()
    ensures status == 201 || status == 400 || status == 500
    ensures status == 201 <==> created.Some?
    ensures status != 201 ==> db.rows == old(db.rows)
    ensures CheckCreate(req, db.categories).Err? ==> status == 400 && db.nextId == old(db.nextId)
    ensures CheckCreate(req, db.categories).Ok? ==>
              var row := NewTourRow(req, CheckCreate(req, db.categories).value, now);
              && (status == 500 <==> !SatisfiesConstraints(row))
              && (status == 500 ==> db.nextId == old(db.nextId))
              && (status != 500 ==> db.nextId == old(db.nextId) + 1)
              && (SatisfiesConstraints(row) ==>
                    (status == 400 <==>
                       exists id :: id in old(db.rows) && SameKey(old(db.rows)[id].tourKey, row.tourKey)))
              && (created.Some? ==>
                    && created.value == old(db.nextId)
                    && (forall id :: id in old(db.rows) ==> id < created.value)
                    && db.rows == old(db.rows)[created.value := row])
  {
    var check := CheckCreate(req, db.categories);
    if check.Err? {
      return 400, None;
    }
    var row := NewTourRow(req, check.value, now);
    var result := db.Insert(row);
    match result {
      case Ok(id) =>
        status, created := 201, Some(id);
      case Err(DuplicateKey) =>
        status, created := 400, None;
      case Err(_) =>
        status, created := 500, None;
    }
  }

  // ---------------------------------------------------------------- /api/tours/:id

  /** `GET /api/tours/:id`: one row whose id or key is the identifier, or 404. */
  method GetTour(db: TourTable, identifier: string) returns (status: int, found: Option<nat>)
    ensures status == 200 || status == 404
    ensures status == 404 <==> db.Matching(IdOrKey(identifier)) == {}
    ensures status == 200 ==> found.Some? && found.value in db.Matching(IdOrKey(identifier))
  {
    found := db.SelectOne(IdOrKey(identifier));
    status := if found.None? then 404 else 200;
  }

  /** `DELETE /api/tours/:id`: every row whose id or key is the identifier is removed; 404 when none was. */
  method DeleteTour(db: TourTable, identifier: string) returns (status: int)
    requires db.Valid()
    modifies db
    ensures db.Valid()
    ensures status == 200 || status == 404
    ensures status == 404 <==> old(db.Matching(IdOrKey(identifier))) == {}
    ensures db.Matching(IdOrKey(identifier)) == {}
    ensures db.rows == map id | id in old(db.rows) && !Selects(IdOrKey(identifier), id, old(db.rows)[id]) :: old(db.rows)[id]
  {
    var affected := db.DeleteWhere(IdOrKey(identifier));
    status := if affected == 0 then 404 else 200;
  }

  /** A generated key always holds a dash, so in no letter case does it read as a row id. */
  lemma GeneratedKeyIsNotAnId(name: string, category: string, now: nat, id: nat)
    ensures !SameKey(GenerateTourKey(name, category, now), NatToString(id))
  {
    var key := GenerateTourKey(name, category, now);
    var d := NatToString(id);
    var p := KeyPrefix(category);
    assert key[|p|] == '-';
    if |key| == |d| {
      assert Lower(key)[|p|] == '-';
      assert IsDigit(d[|p|]) && Lower(d)[|p|] == d[|p|];
    }
  }

  /**
   * The create / get / delete / get sequence of the API's integration test: a valid tour is
   * created (201), found by its id (200), deleted (200), and then no longer found (404).
   */
  method CreateGetDeleteScenario(db: TourTable, req: CreateRequest, now: nat)
    returns (created: int, fetched: int, deleted: int, refetched: int)
    requires db.Valid()
    requires CheckCreate(req, db.categories).Ok?
    requires SatisfiesConstraints(NewTourRow(req, CheckCreate(req, db.categories).value, now))
    requires forall id :: id in db.rows ==>
               !SameKey(db.rows[id].tourKey, NewTourRow(req, CheckCreate(req, db.categories).value, now).tourKey)
    modifies db
    ensures created == 201 && fetched == 200 && deleted == 200 && refetched == 404
  {
    var id;
    created, id := CreateTour(db, req, now);
    assert id.Some?;
    var identifier := NatToString(id.value);
    assert id.value in db.Matching(IdOrKey(identifier));
    var found;
    fetched, found := GetTour(db, identifier);
    deleted := DeleteTour(db, identifier);
    refetched, found := GetTour(db, identifier);
  }

  // ---------------------------------------------------------------- PUT /api/tours/:id

  /** The keys of `fieldMapping`. */
  datatype BodyField =
    | NameField | CountryField | DescriptionField | ImageField | DaysField
    | PriceField | OldPriceField | BaseSlotsField | RatingField | ReviewsField

  /**
   * The JSON body of `PUT /api/tours/:id`, its numbers already parsed. `None` is `undefined`;
   * `image` and `oldPrice` may also be an explicit `null`, the inner `None`.
   */
  datatype UpdateBody = UpdateBody(
    category: Option<string>,
    name: Option<string>, country: Option<string>, description: Option<string>,
    image: Option<Option<string>>, days: Option<int>, price: Option<real>,
    oldPrice: Option<Option<real>>, baseSlots: Option<int>, rating: Option<real>,
    reviews: Option<int>)

  /** The keys of `fieldMapping`, in declaration order. */
  const FieldMapping: seq<BodyField> := [
    NameField, CountryField, DescriptionField, ImageField, DaysField,
    PriceField, OldPriceField, BaseSlotsField, RatingField, ReviewsField]

  /** The column `fieldMapping` maps a body field to. */
  function ColumnName(f: BodyField): string {
    match f
    case NameField => "name"
    case CountryField => "country"
    case DescriptionField => "description"
    case ImageField => "image_url"
    case DaysField => "days"
    case PriceField => "price"
    case OldPriceField => "old_price"
    case BaseSlotsField => "base_slots"
    case RatingField => "rating"
    case ReviewsField => "reviews"
  }

  lemma EveryFieldMapped(f: BodyField)
    ensures f in FieldMapping && '?' !in ColumnName(f) && ColumnName(f) in TourColumns
  {
  }

  function NullableText(v: Option<string>): SqlValue {
    if v.Some? then Text(v.value) else Null
  }

  function NullableNumber(v: Option<real>): SqlValue {
    if v.Some? then Number(v.value) else Null
  }

  /** `req.body[field]` as the value bound to its placeholder; `None` when it is `undefined`. */
  function BodyValue(body: UpdateBody, f: BodyField): Option<SqlValue> {
    match f
    case NameField => if body.name.Some? then Some(Text(body.name.value)) else None
    case CountryField => if body.country.Some? then Some(Text(body.country.value)) else None
    case DescriptionField =>
      if body.description.Some? then Some(Text(body.description.value)) else None
    case ImageField => if body.image.Some? then Some(NullableText(body.image.value)) else None
    case DaysField => if body.days.Some? then Some(Number(body.days.value as real)) else None
    case PriceField => if body.price.Some? then Some(Number(body.price.value)) else None
    case OldPriceField =>
      if body.oldPrice.Some? then Some(NullableNumber(body.oldPrice.value)) else None
    case BaseSlotsField =>
      if body.baseSlots.Some? then Some(Number(body.baseSlots.value as real)) else None
    case RatingField => if body.rating.Some? then Some(Number(body.rating.value)) else None
    case ReviewsField => if body.reviews.Some? then Some(Number(body.reviews.value as real)) else None
  }

  /** The value a column of a row holds, as the SQL value a SET would bind to it. */
  function ColumnValue(row: TourRow, f: BodyField): SqlValue {
    match f
    case NameField => Text(row.name)
    case CountryField => Text(row.country)
    case DescriptionField => Text(row.description)
    case ImageField => NullableText(row.imageUrl)
    case DaysField => Number(row.days as real)
    case PriceField => Number(row.price)
    case OldPriceField => NullableNumber(row.oldPrice)
    case BaseSlotsField => Number(row.baseSlots as real)
    case RatingField => Number(row.rating)
    case ReviewsField => Number(row.reviews as real)
  }

  function Assignment(column: string): string { column + " = ?" }

  function OptionList(v: Option<SqlValue>): seq<SqlValue> {
    if v.Some? then [v.value] else []
  }

  /** The `column = ?` entries the loop over a field mapping pushes, in mapping order. */
  function Assignments(body: UpdateBody, m: seq<BodyField>): seq<string> {
    if m == [] then []
    else When(BodyValue(body, m[0]).Some?, [Assignment(ColumnName(m[0]))]) + Assignments(body, m[1..])
  }

  /** The values the same loop pushes onto `params`. */
  function AssignedValues(body: UpdateBody, m: seq<BodyField>): seq<SqlValue> {
    if m == [] then [] else OptionList(BodyValue(body, m[0])) + AssignedValues(body, m[1..])
  }

  lemma {:induction false} AssignmentsSnoc(body: UpdateBody, m: seq<BodyField>, e: BodyField)
    ensures Assignments(body, m + [e]) == Assignments(body, m) + When(BodyValue(body, e).Some?, [Assignment(ColumnName(e))])
    ensures AssignedValues(body, m + [e]) == AssignedValues(body, m) + OptionList(BodyValue(body, e))
  {
    if m == [] {
      assert m + [e] == [e];
      assert [e][1..] == [];
    } else {
      assert (m + [e])[1..] == m[1..] + [e];
      AssignmentsSnoc(body, m[1..], e);
    }
  }

  /** The columns the same loop assigns, in mapping order. */
  function SentColumns(body: UpdateBody, m: seq<BodyField>): seq<string> {
    if m == [] then [] else When(BodyValue(body, m[0]).Some?, [ColumnName(m[0])]) + SentColumns(body, m[1..])
  }

  const CategoryAssignment := "category_id = " + "?"

  /** The SET list: `category_id` first when a category was resolved, then the mapped fields. */
  function UpdateFields(body: UpdateBody, categoryId: Option<nat>): seq<string> {
    When(categoryId.Some?, [CategoryAssignment]) + Assignments(body, FieldMapping)
  }

  /** The columns the SET list assigns. */
  function SetColumns(body: UpdateBody, categoryId: Option<nat>): seq<string> {
    When(categoryId.Some?, ["category_id"]) + SentColumns(body, FieldMapping)
  }

  function UpdateParams(body: UpdateBody, categoryId: Option<nat>): seq<SqlValue> {
    When(categoryId.Some?, [Number(categoryId.GetOr(0) as real)]) + AssignedValues(body, FieldMapping)
  }

  /** The handler's construction of `updateFields` and `params`. */
  method BuildUpdate(body: UpdateBody, categoryId: Option<nat>)
    returns (updateFields: seq<string>, params: seq<SqlValue>)
    ensures updateFields == UpdateFields(body, categoryId)
    ensures params == UpdateParams(body, categoryId)
  {
    updateFields, params := [], [];
    if categoryId.Some? {
      updateFields := updateFields + [CategoryAssignment];
      params := params + [Number(categoryId.value as real)];
    }
    updateFields, params := PushAssignments(body, FieldMapping, updateFields, params);
  }

  /** The loop over a field mapping: one `column = ?` and one value per field the body sets. */
  method PushAssignments(body: UpdateBody, m: seq<BodyField>, fields0: seq<string>, params0: seq<SqlValue>)
    returns (fields: seq<string>, params: seq<SqlValue>)
    ensures fields == fields0 + Assignments(body, m)
    ensures params == params0 + AssignedValues(body, m)
  {
    fields, params := fields0, params0;
    var i := 0;
    while i < |m|
      invariant 0 <= i <= |m|
      invariant fields == fields0 + Assignments(body, m[..i])
      invariant params == params0 + AssignedValues(body, m[..i])
    {
      var value := BodyValue(body, m[i]);
      PushStep(body, m, i, fields0, params0);
      fields := fields + When(value.Some?, [Assignment(ColumnName(m[i]))]);
      params := params + OptionList(value);
      i := i + 1;
    }
    assert m[..i] == m;
  }

  /** One turn of the loop over the field mapping. */
  lemma PushStep(body: UpdateBody, m: seq<BodyField>, i: nat, fields0: seq<string>, params0: seq<SqlValue>)
    requires i < |m|
    ensures fields0 + Assignments(body, m[..i + 1]) ==
            (fields0 + Assignments(body, m[..i])) + When(BodyValue(body, m[i]).Some?, [Assignment(ColumnName(m[i]))])
    ensures params0 + AssignedValues(body, m[..i + 1]) ==
            (params0 + AssignedValues(body, m[..i])) + OptionList(BodyValue(body, m[i]))
  {
    assert m[..i + 1] == m[..i] + [m[i]];
    AssignmentsSnoc(body, m[..i], m[i]);
    var a, p := Assignments(body, m[..i]), When(BodyValue(body, m[i]).Some?, [Assignment(ColumnName(m[i]))]);
    assert fields0 + (a + p) == (fields0 + a) + p;
    var v, o := AssignedValues(body, m[..i]), OptionList(BodyValue(body, m[i]));
    assert params0 + (v + o) == (params0 + v) + o;
  }

  const UpdatedAtColumn := "updated_at"
  const UpdatedAt := UpdatedAtColumn + " = CURRENT_TIMESTAMP"
  const WhereIdOrKey := " WHERE id = " + "?" + " OR tour_key = " + "?"

  /** `UPDATE tours SET ${updateFields.join(', ')} WHERE id = ? OR tour_key = ?`. */
  function UpdateQuery(updateFields: seq<string>): string {
    "UPDATE tours SET " + Join(updateFields, ", ") + WhereIdOrKey
  }

  /** The statement the handler sends: its SET list ends with the `updated_at` assignment. */
  function UpdateQueryAsWritten(updateFields: seq<string>): string {
    UpdateQuery(updateFields + [UpdatedAt])
  }

  /** The mapped columns carry no `?` of their own. */
  predicate ColumnsFree(m: seq<BodyField>) {
    forall j :: 0 <= j < |m| ==> '?' !in ColumnName(m[j])
  }

  lemma {:induction false} AssignmentsPlaceholders(body: UpdateBody, m: seq<BodyField>)
    requires ColumnsFree(m)
    ensures SumPlaceholders(Assignments(body, m)) == |AssignedValues(body, m)|
  {
    if m != [] {
      AssignmentsPlaceholders(body, m[1..]);
      var head := When(BodyValue(body, m[0]).Some?, [Assignment(ColumnName(m[0]))]);
      SumPlaceholdersConcat(head, Assignments(body, m[1..]));
      if BodyValue(body, m[0]).Some? {
        EndsInPlaceholder(ColumnName(m[0]) + " = ");
        assert Assignment(ColumnName(m[0])) == ColumnName(m[0]) + " = " + "?";
        assert head[1..] == [];
      }
    }
  }

  /** The SET list holds one placeholder per parameter. */
  lemma UpdateFieldsPlaceholders(body: UpdateBody, categoryId: Option<nat>)
    ensures SumPlaceholders(UpdateFields(body, categoryId)) == |UpdateParams(body, categoryId)|
  {
    assert ColumnsFree(FieldMapping) by {
      forall j | 0 <= j < |FieldMapping| {
        EveryFieldMapped(FieldMapping[j]);
      }
    }
    AssignmentsPlaceholders(body, FieldMapping);
    var head := When(categoryId.Some?, [CategoryAssignment]);
    assert SumPlaceholders(head) == |When(categoryId.Some?, [Number(categoryId.GetOr(0) as real)])| by {
      EndsInPlaceholder("category_id = ");
      if categoryId.Some? {
        assert head[1..] == [];
      }
    }
    SumPlaceholdersConcat(head, Assignments(body, FieldMapping));
  }

  /**
   * Around the SET list, the statement adds no placeholder but the two of its WHERE clause;
   * the `updated_at` assignment of the handler's statement adds none either.
   */
  lemma UpdateQueryPlaceholders(fields: seq<string>)
    ensures Placeholders(UpdateQuery(fields)) == SumPlaceholders(fields) + 2
    ensures Placeholders(UpdateQueryAsWritten(fields)) == SumPlaceholders(fields) + 2
  {
    WhereIdOrKeyPlaceholders();
    JoinedListPlaceholders("UPDATE tours SET ", fields, ", ", WhereIdOrKey);
    JoinedListPlaceholders("UPDATE tours SET ", fields + [UpdatedAt], ", ", WhereIdOrKey);
    UpdatedAtPlaceholders(fields);
  }

  lemma WhereIdOrKeyPlaceholders()
    ensures Placeholders(WhereIdOrKey) == 2
  {
    OnePlaceholder(" WHERE id = ", " OR tour_key = ");
    assert Placeholders("?") == 1;
    PlaceholdersConcat(" WHERE id = " + "?" + " OR tour_key = ", "?");
  }

  lemma UpdatedAtPlaceholders(fields: seq<string>)
    ensures SumPlaceholders(fields + [UpdatedAt]) == SumPlaceholders(fields)
  {
    NoPlaceholders(UpdatedAt);
    assert [UpdatedAt][1..] == [];
    SumPlaceholdersConcat(fields, [UpdatedAt]);
  }

  lemma JoinedListPlaceholders(prefix: string, fields: seq<string>, sep: string, suffix: string)
    requires '?' !in prefix && '?' !in sep
    ensures Placeholders(prefix + Join(fields, sep) + suffix)
            == SumPlaceholders(fields) + Placeholders(suffix)
  {
    NoPlaceholders(sep);
    JoinPlaceholders(fields, sep);
    var joined := Join(fields, sep);
    PrefixFree(prefix, joined + suffix);
    PlaceholdersConcat(joined, suffix);
    assert prefix + joined + suffix == prefix + (joined + suffix);
  }

  /**
   * The UPDATE statement has exactly one placeholder per parameter, the identifier twice last,
   * with or without the `updated_at` assignment.
   */
  lemma UpdateStatementAligned(body: UpdateBody, categoryId: Option<nat>, identifier: string)
    ensures Placeholders(UpdateQuery(UpdateFields(body, categoryId)))
            == |UpdateParams(body, categoryId) + [Text(identifier), Text(identifier)]|
    ensures Placeholders(UpdateQueryAsWritten(UpdateFields(body, categoryId)))
            == |UpdateParams(body, categoryId) + [Text(identifier), Text(identifier)]|
  {
    UpdateFieldsPlaceholders(body, categoryId);
    UpdateQueryPlaceholders(UpdateFields(body, categoryId));
  }

  /** The loop's assignments name, one by one and in order, the columns it assigns; all exist. */
  lemma {:induction false} AssignmentsNameColumns(body: UpdateBody, m: seq<BodyField>)
    ensures var a, c := Assignments(body, m), SentColumns(body, m);
      && |a| == |c|
      && (forall j :: 0 <= j < |c| ==> a[j] == Assignment(c[j]))
      && ColumnsExist(c)
  {
    if m != [] {
      AssignmentsNameColumns(body, m[1..]);
      EveryFieldMapped(m[0]);
      var a, c := Assignments(body, m[1..]), SentColumns(body, m[1..]);
      if BodyValue(body, m[0]).Some? {
        assert Assignments(body, m) == [Assignment(ColumnName(m[0]))] + a;
        assert SentColumns(body, m) == [ColumnName(m[0])] + c;
      } else {
        assert Assignments(body, m) == a && SentColumns(body, m) == c;
      }
    }
  }

  /**
   * The SET list holds one `column = ?` per column it assigns, in the same order, and every
   * one of those columns exists in `tours`.
   */
  lemma SetColumnsExist(body: UpdateBody, categoryId: Option<nat>)
    ensures var f, c := UpdateFields(body, categoryId), SetColumns(body, categoryId);
      && |f| == |c|
      && (forall j :: 0 <= j < |c| ==> f[j] == Assignment(c[j]))
      && ColumnsExist(c)
  {
    AssignmentsNameColumns(body, FieldMapping);
    assert CategoryAssignment == Assignment("category_id");
  }

  /**
   * `updated_at` is not a column of `tours`: the statement the handler sends names a column
   * the table lacks, whatever the body.
   */
  lemma UpdatedAtIsNoColumn(body: UpdateBody, categoryId: Option<nat>)
    ensures UpdatedAtColumn !in TourColumns
    ensures !ColumnsExist(SetColumns(body, categoryId) + [UpdatedAtColumn])
  {
    var columns := SetColumns(body, categoryId) + [UpdatedAtColumn];
    assert columns[|columns| - 1] == UpdatedAtColumn;
  }

  /** The SET list is empty exactly when no category was resolved and no mapped field was sent. */
  lemma {:induction false} AssignmentsEmpty(body: UpdateBody, m: seq<BodyField>)
    ensures Assignments(body, m) == [] <==> forall j :: 0 <= j < |m| ==> BodyValue(body, m[j]).None?
  {
    if m != [] {
      AssignmentsEmpty(body, m[1..]);
      var head := When(BodyValue(body, m[0]).Some?, [Assignment(ColumnName(m[0]))]);
      var rest := Assignments(body, m[1..]);
      assert Assignments(body, m) == head + rest;
      assert head == [] <==> BodyValue(body, m[0]).None?;
      assert Assignments(body, m) == [] <==> head == [] && rest == [];
      assert forall j :: 1 <= j < |m| ==> m[j] == m[1..][j - 1];
    }
  }

  lemma UpdateFieldsEmpty(body: UpdateBody, categoryId: Option<nat>)
    ensures UpdateFields(body, categoryId) == [] <==>
              categoryId.None? && forall f :: BodyValue(body, f).None?
  {
    AssignmentsEmpty(body, FieldMapping);
    if forall j :: 0 <= j < |FieldMapping| ==> BodyValue(body, FieldMapping[j]).None? {
      forall f: BodyField ensures BodyValue(body, f).None? {
        EveryFieldMapped(f);
      }
    }
  }

  /** Every possible assignment of a mapping, in mapping order. */
  function AllAssignments(m: seq<BodyField>): (r: seq<string>)
    ensures |r| == |m| && forall j :: 0 <= j < |m| ==> r[j] == Assignment(ColumnName(m[j]))
  {
    seq(|m|, j requires 0 <= j < |m| => Assignment(ColumnName(m[j])))
  }

  /**
   * The assignments appear in mapping order, and an assignment to a column appears exactly
   * when its field was sent.
   */
  lemma {:induction false} AssignmentsOrdered(body: UpdateBody, m: seq<BodyField>)
    ensures IsSubsequence(Assignments(body, m), AllAssignments(m))
    ensures forall x :: x in Assignments(body, m) <==>
              exists j :: 0 <= j < |m| && BodyValue(body, m[j]).Some? && x == Assignment(ColumnName(m[j]))
  {
    if m != [] {
      AssignmentsOrdered(body, m[1..]);
      var rest := Assignments(body, m[1..]);
      assert AllAssignments(m) == [Assignment(ColumnName(m[0]))] + AllAssignments(m[1..]);
      if BodyValue(body, m[0]).Some? {
        assert Assignments(body, m) == [Assignment(ColumnName(m[0]))] + rest;
        assert Assignments(body, m)[1..] == rest;
      } else {
        assert Assignments(body, m) == rest;
        SubsequenceCons(Assignment(ColumnName(m[0])), rest, AllAssignments(m[1..]));
      }
      forall x ensures x in Assignments(body, m) <==>
                 exists j :: 0 <= j < |m| && BodyValue(body, m[j]).Some? && x == Assignment(ColumnName(m[j]))
      {
        if x in rest {
          var k :| 0 <= k < |m[1..]| && BodyValue(body, m[1..][k]).Some? && x == Assignment(ColumnName(m[1..][k]));
          assert m[k + 1] == m[1..][k];
        }
        if exists j :: 0 <= j < |m| && BodyValue(body, m[j]).Some? && x == Assignment(ColumnName(m[j])) {
          var j :| 0 <= j < |m| && BodyValue(body, m[j]).Some? && x == Assignment(ColumnName(m[j]));
          if j > 0 {
            assert m[1..][j - 1] == m[j];
          }
        }
      }
    }
  }

  /** With a category, `category_id = ?` and its id lead the SET list and the parameters. */
  lemma CategoryFirst(body: UpdateBody, id: nat)
    ensures UpdateFields(body, Some(id))[0] == CategoryAssignment
    ensures UpdateParams(body, Some(id))[0] == Number(id as real)
    ensures UpdateFields(body, Some(id))[1..] == UpdateFields(body, None)
  {
  }

  /** The row an UPDATE leaves: each sent field overwritten, everything else (the key included) kept. */
  function ApplyUpdate(row: TourRow, categoryId: Option<nat>, body: UpdateBody): TourRow {
    row.(
      categoryId := categoryId.GetOr(row.categoryId),
      name := body.name.GetOr(row.name),
      country := body.country.GetOr(row.country),
      description := body.description.GetOr(row.description),
      imageUrl := body.image.GetOr(row.imageUrl),
      days := body.days.GetOr(row.days),
      price := body.price.GetOr(row.price),
      oldPrice := body.oldPrice.GetOr(row.oldPrice),
      baseSlots := body.baseSlots.GetOr(row.baseSlots),
      rating := body.rating.GetOr(row.rating),
      reviews := body.reviews.GetOr(row.reviews))
  }

  /**
   * The updated row agrees with the SET list: a column whose field was sent holds the value
   * bound to its placeholder, every other column keeps its value, and the key never changes.
   */
  lemma ApplyUpdateFollowsSet(row: TourRow, categoryId: Option<nat>, body: UpdateBody)
    ensures var r := ApplyUpdate(row, categoryId, body);
      && r.tourKey == row.tourKey
      && (forall f :: BodyValue(body, f).Some? ==> ColumnValue(r, f) == BodyValue(body, f).value)
      && (forall f :: BodyValue(body, f).None? ==> ColumnValue(r, f) == ColumnValue(row, f))
      && r.categoryId == (if categoryId.Some? then categoryId.value else row.categoryId)
  {
  }

  /** How the `category` of a PUT body resolves. */
  datatype CategoryUpdate = NoCategory | ToCategory(id: nat) | UnknownCategory

  function ResolveCategory(cats: seq<CategoryRow>, category: Option<string>): (r: CategoryUpdate)
    ensures r.ToCategory? ==> HasCategoryId(cats, r.id)
    ensures r.ToCategory? ==> Given(category) && CategoryIdByKey(cats, Lower(category.value)) == Some(r.id)
    ensures r.UnknownCategory? <==> Given(category) && CategoryIdByKey(cats, Lower(category.value)).None?
    ensures r.NoCategory? <==> !Given(category)
  {
    if !Given(category) then NoCategory
    else match CategoryIdByKey(cats, Lower(category.value))
      case None => UnknownCategory
      case Some(id) => ToCategory(id)
  }

  function CategoryIdOf(c: CategoryUpdate): Option<nat> {
    if c.ToCategory? then Some(c.id) else None
  }

  /** The update a PUT applies to each row it picks. */
  function UpdateChange(categoryId: Option<nat>, body: UpdateBody): TourRow -> TourRow {
    row => ApplyUpdate(row, categoryId, body)
  }

  /**
   * An update never touches a key, and sets the category only to one that exists: applied to a
   * valid table it can break neither UNIQUE nor the FOREIGN KEY.
   */
  lemma UpdateKeepsKeysAndCategories(
    rows: map<nat, TourRow>, cats: seq<CategoryRow>, w: Selector, categoryId: Option<nat>, body: UpdateBody)
    requires UniqueKeys(rows)
    requires forall id :: id in rows ==> HasCategoryId(cats, rows[id].categoryId)
    requires categoryId.Some? ==> HasCategoryId(cats, categoryId.value)
    ensures var changed := Changed(rows, w, UpdateChange(categoryId, body));
      && UniqueKeys(changed)
      && (forall id :: id in changed ==> changed[id].tourKey == rows[id].tourKey)
      && (forall id :: id in changed ==> HasCategoryId(cats, changed[id].categoryId))
  {
    var changed := Changed(rows, w, UpdateChange(categoryId, body));
    forall id | id in changed
      ensures changed[id].tourKey == rows[id].tourKey
      ensures HasCategoryId(cats, changed[id].categoryId)
    {
      if Selects(w, id, rows[id]) {
        assert changed[id] == ApplyUpdate(rows[id], categoryId, body);
      }
    }
  }

  /** The status the handler derives from the statement's result. */
  function UpdateStatus(result: Result<nat, DbError>): int {
    match result
    case Err(_) => 500
    case Ok(affected) => if affected == 0 then 404 else 200
  }

  /**
   * The PUT handler with its SET list limited to columns `tours` has: 400 for an unknown
   * category or an empty SET list, 404 when no row has the identifier as id or key, 500 when a
   * changed row breaks a CHECK or NOT NULL constraint, and otherwise 200 with every matching row
   * updated.
   */
  method UpdateTour(db: TourTable, identifier: string, body: UpdateBody) returns (status: int)
    requires db.Valid()
    modifies db
    ensures db.Valid() && db.nextId == old(db.nextId)
    ensures status == 200 || status == 400 || status == 404 || status == 500
    ensures status != 200 ==> db.rows == old(db.rows)
    ensures var resolved := ResolveCategory(db.categories, body.category);
            var categoryId := CategoryIdOf(resolved);
            var w := IdOrKey(identifier);
            && (status == 400 <==> resolved.UnknownCategory? || UpdateFields(body, categoryId) == [])
            && (status == 404 <==>
                  !resolved.UnknownCategory? && UpdateFields(body, categoryId) != []
                  && old(db.Matching(w)) == {})
            && (status == 500 <==>
                  !resolved.UnknownCategory? && UpdateFields(body, categoryId) != []
                  && exists id :: id in old(db.Matching(w))
                       && !SatisfiesConstraints(ApplyUpdate(old(db.rows)[id], categoryId, body)))
            && (status == 200 ==> db.rows == Changed(old(db.rows), w, UpdateChange(categoryId, body)))
  {
    var resolved := ResolveCategory(db.categories, body.category);
    if resolved.UnknownCategory? {
      return 400;
    }
    var categoryId := CategoryIdOf(resolved);
    var updateFields, params := BuildUpdate(body, categoryId);
    if updateFields == [] {
      return 400;
    }
    var w := IdOrKey(identifier);
    SetColumnsExist(body, categoryId);
    UpdateKeepsKeysAndCategories(db.rows, db.categories, w, categoryId, body);
    UpdateOutcomeRules(db.categories, db.rows, w, UpdateChange(categoryId, body));
    var result := db.UpdateWhere(SetColumns(body, categoryId), w, UpdateChange(categoryId, body));
    status := UpdateStatus(result);
  }

  /**
   * The PUT handler as written: past the two 400 checks its statement also assigns
   * `updated_at`, which `tours` lacks, so MySQL refuses the statement when it is prepared and
   * the catch answers 500, whether or not some row has the identifier. Nothing changes.
   */
  method UpdateTourAsWritten(db: TourTable, identifier: string, body: UpdateBody) returns (status: int)
    requires db.Valid()
    modifies db
    ensures db.Valid() && db.rows == old(db.rows) && db.nextId == old(db.nextId)
    ensures status == 400 || status == 500
    ensures var resolved := ResolveCategory(db.categories, body.category);
            status == 400 <==> resolved.UnknownCategory? || UpdateFields(body, CategoryIdOf(resolved)) == []
  {
    var resolved := ResolveCategory(db.categories, body.category);
    if resolved.UnknownCategory? {
      return 400;
    }
    var categoryId := CategoryIdOf(resolved);
    var updateFields, params := BuildUpdate(body, categoryId);
    if updateFields == [] {
      return 400;
    }
    UpdatedAtIsNoColumn(body, categoryId);
    var columns := SetColumns(body, categoryId) + [UpdatedAtColumn];
    var result := db.UpdateWhere(columns, IdOrKey(identifier), UpdateChange(categoryId, body));
    status := UpdateStatus(result);
  }

  /** A PUT body that renames a tour and sends nothing else. */
  function RenameBody(name: string): UpdateBody {
    UpdateBody(None, Some(name), None, None, None, None, None, None, None, None, None)
  }

  /**
   * Renaming an existing tour by its id: the handler as written answers 500 and keeps the old
   * name, while the handler without the `updated_at` assignment answers 200 and renames it.
   */
  method RenameScenario(db: TourTable, id: nat, name: string) returns (asWritten: int, corrected: int)
    requires db.Valid() && id in db.rows
    modifies db
    ensures asWritten == 500 && corrected == 200
    ensures id in db.rows && db.rows[id].name == name
  {
    var identifier := NatToString(id);
    var body := RenameBody(name);
    assert BodyValue(body, FieldMapping[0]).Some?;
    assert UpdateFields(body, None) != [];
    assert id in db.Matching(IdOrKey(identifier));
    asWritten := UpdateTourAsWritten(db, identifier, body);
    assert forall other :: other in db.rows ==>
             SatisfiesConstraints(ApplyUpdate(db.rows[other], None, body));
    corrected := UpdateTour(db, identifier, body);
  }
}
