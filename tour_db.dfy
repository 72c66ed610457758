/**
 * The MySQL `tours` and `categories` tables, as an abstract table: a map from the
 * AUTO_INCREMENT id to the row, the NOT NULL / CHECK / UNIQUE / FOREIGN KEY constraints of
 * the schema as the table invariant, and the four statements the two routers issue
 * (INSERT, SELECT ... WHERE, UPDATE ... WHERE, DELETE ... WHERE) as atomic steps.
 */
module TourDb {
  import opened Wrappers
  import opened Strings

  /** A row of `categories`: `id`, `category_key` (UNIQUE), `name`, `description`. */
  datatype CategoryRow = CategoryRow(id: nat, key: string, name: string, description: string)

  /** A row of `tours` without its id; prices are DECIMAL amounts, taken as exact reals. */
  datatype TourRow = TourRow(
    categoryId: nat, tourKey: string, name: string, country: string,
    imageUrl: Option<string>, description: string, days: int, price: real,
    oldPrice: Option<real>, rating: real, reviews: int, baseSlots: int)

  /** The NOT NULL constraint on `image_url` and the CHECK constraints of the schema. */
  predicate SatisfiesConstraints(r: TourRow) {
    && r.imageUrl.Some?
    && r.days >= 1
    && r.price >= 0.0
    && (r.oldPrice.Some? ==> r.oldPrice.value >= 0.0)
    && 0.0 <= r.rating <= 5.0
    && r.reviews >= 0
    && r.baseSlots >= 0
  }

  /**
   * Two keys are equal as the tables' default collation compares them: without regard to
   * letter case. Only ASCII letters are folded here.
   */
  predicate SameKey(a: string, b: string) {
    Lower(a) == Lower(b)
  }

  /** Category ids and keys are unique. */
  predicate CategoriesValid(cats: seq<CategoryRow>) {
    forall i, j :: 0 <= i < j < |cats| ==> cats[i].id != cats[j].id && !SameKey(cats[i].key, cats[j].key)
  }

  predicate HasCategoryId(cats: seq<CategoryRow>, id: nat) {
    exists i :: 0 <= i < |cats| && cats[i].id == id
  }

  /** `SELECT id FROM categories WHERE category_key = ?`. */
  function CategoryIdByKey(cats: seq<CategoryRow>, key: string): (r: Option<nat>)
    ensures r.None? <==> forall i :: 0 <= i < |cats| ==> !SameKey(cats[i].key, key)
    ensures r.Some? ==> exists i :: 0 <= i < |cats| && SameKey(cats[i].key, key) && cats[i].id == r.value
  {
    if cats == [] then None
    else if SameKey(cats[0].key, key) then Some(cats[0].id)
    else
      var r := CategoryIdByKey(cats[1..], key);
      assert forall i :: 1 <= i < |cats| ==> cats[i] == cats[1..][i - 1];
      r
  }

  /** The WHERE clause a request uses to pick rows by its identifier. */
  datatype Selector =
    | IdOrKey(ident: string)   // WHERE id = ? OR tour_key = ?
    | IdOnly(ident: string)    // WHERE id = ?

  /**
   * The id column matches when the identifier is the decimal rendering of the id;
   * the key column when it is the key up to letter case.
   */
  predicate Selects(w: Selector, id: nat, row: TourRow) {
    match w
    case IdOrKey(x) => NatToString(id) == x || SameKey(row.tourKey, x)
    case IdOnly(x) => NatToString(id) == x
  }

  /** A value bound to a `?` placeholder of a prepared statement. */
  datatype SqlValue = Text(text: string) | Number(number: real) | Null

  /** The errors the statements below can raise. */
  datatype DbError = DuplicateKey | ConstraintViolation | ForeignKeyViolation | UnknownColumn

  /** The columns of `tours` as the server creates the table. */
  const TourColumns: set<string> := {
    "id", "category_id", "tour_key", "name", "country", "image_url", "description",
    "days", "price", "old_price", "rating", "reviews", "base_slots"}

  /** Every column a statement names exists in `tours`. */
  predicate ColumnsExist(columns: seq<string>) {
    forall j :: 0 <= j < |columns| ==> columns[j] in TourColumns
  }

  /** No two rows share a `tour_key`, letter case aside. */
  predicate UniqueKeys(rows: map<nat, TourRow>) {
    forall a, b :: a in rows && b in rows && a != b ==> !SameKey(rows[a].tourKey, rows[b].tourKey)
  }

  /** The rows after `change` is applied to every row a selector picks. */
  function Changed(rows: map<nat, TourRow>, w: Selector, change: TourRow -> TourRow): (r: map<nat, TourRow>)
    ensures r.Keys == rows.Keys
    ensures forall id :: id in rows && Selects(w, id, rows[id]) ==> r[id] == change(rows[id])
    ensures forall id :: id in rows && !Selects(w, id, rows[id]) ==> r[id] == rows[id]
    ensures (forall id :: id in rows ==> !Selects(w, id, rows[id])) ==> r == rows
  {
    map id | id in rows :: if Selects(w, id, rows[id]) then change(rows[id]) else rows[id]
  }

  /** The ids of the rows a selector picks. */
  function Selected(rows: map<nat, TourRow>, w: Selector): (r: set<nat>)
    ensures forall id :: id in r <==> id in rows && Selects(w, id, rows[id])
  {
    set id | id in rows && Selects(w, id, rows[id])
  }

  /** Some row the update selects breaks a CHECK or NOT NULL constraint once changed. */
  predicate BreaksChecks(rows: map<nat, TourRow>, w: Selector, change: TourRow -> TourRow) {
    exists id :: id in Selected(rows, w) && !SatisfiesConstraints(Changed(rows, w, change)[id])
  }

  /** Some row the update selects names a missing category once changed. */
  predicate BreaksForeignKey(categories: seq<CategoryRow>, rows: map<nat, TourRow>, w: Selector,
                             change: TourRow -> TourRow) {
    exists id :: id in Selected(rows, w) && !HasCategoryId(categories, Changed(rows, w, change)[id].categoryId)
  }

  /** What `UPDATE tours SET ... WHERE <selector>` answers: an error, or the number of rows changed. */
  function UpdateOutcome(categories: seq<CategoryRow>, rows: map<nat, TourRow>, w: Selector,
                         change: TourRow -> TourRow): Result<nat, DbError>
  {
    if BreaksChecks(rows, w, change) then Err(ConstraintViolation)
    else if BreaksForeignKey(categories, rows, w, change) then Err(ForeignKeyViolation)
    else if !UniqueKeys(Changed(rows, w, change)) then Err(DuplicateKey)
    else Ok(|Selected(rows, w)|)
  }

  /**
   * The statement fails exactly when a changed row breaks a CHECK, names a missing category
   * or duplicates a key; otherwise it reports the number of rows selected, every one of them
   * valid once changed. Selecting nothing always succeeds with zero rows.
   */
  lemma UpdateOutcomeRules(categories: seq<CategoryRow>, rows: map<nat, TourRow>, w: Selector,
                           change: TourRow -> TourRow)
    requires UniqueKeys(rows)
    ensures var r := UpdateOutcome(categories, rows, w, change);
      r.Err? <==> BreaksChecks(rows, w, change) || BreaksForeignKey(categories, rows, w, change)
                  || !UniqueKeys(Changed(rows, w, change))
    ensures var r := UpdateOutcome(categories, rows, w, change);
      r.Ok? ==> r.value == |Selected(rows, w)| && UniqueKeys(Changed(rows, w, change))
    ensures UpdateOutcome(categories, rows, w, change).Ok? ==>
      forall id :: id in Selected(rows, w) ==>
        && SatisfiesConstraints(Changed(rows, w, change)[id])
        && HasCategoryId(categories, Changed(rows, w, change)[id].categoryId)
    ensures Selected(rows, w) == {} ==>
              UpdateOutcome(categories, rows, w, change) == Ok(0) && Changed(rows, w, change) == rows
  {
    if Selected(rows, w) == {} {
      NothingSelected(categories, rows, w, change);
    }
  }

  /** Selecting nothing changes nothing and succeeds with zero rows. */
  lemma NothingSelected(categories: seq<CategoryRow>, rows: map<nat, TourRow>, w: Selector,
                        change: TourRow -> TourRow)
    requires UniqueKeys(rows)
    requires Selected(rows, w) == {}
    ensures Changed(rows, w, change) == rows
    ensures UpdateOutcome(categories, rows, w, change) == Ok(0)
  {
    assert forall id :: id in rows ==> !Selects(w, id, rows[id]);
    assert Changed(rows, w, change) == rows;
  }

  /** The schema's row constraints: ids below the AUTO_INCREMENT counter, CHECKs, FOREIGN KEY, UNIQUE. */
  predicate RowsValid(categories: seq<CategoryRow>, rows: map<nat, TourRow>, nextId: nat) {
    && (forall id :: id in rows ==> 1 <= id < nextId)
    && (forall id :: id in rows ==> SatisfiesConstraints(rows[id]))
    && (forall id :: id in rows ==> HasCategoryId(categories, rows[id].categoryId))
    && UniqueKeys(rows)
  }

  /** An update that succeeds leaves a table that keeps the constraints. */
  lemma ChangedRowsValid(categories: seq<CategoryRow>, rows: map<nat, TourRow>, w: Selector,
                         change: TourRow -> TourRow, nextId: nat)
    requires RowsValid(categories, rows, nextId)
    requires UpdateOutcome(categories, rows, w, change).Ok?
    ensures RowsValid(categories, Changed(rows, w, change), nextId)
  {
    UpdateOutcomeRules(categories, rows, w, change);
    var c := Changed(rows, w, change);
    forall id | id in c
      ensures SatisfiesConstraints(c[id]) && HasCategoryId(categories, c[id].categoryId)
    {
      if Selects(w, id, rows[id]) {
        assert id in Selected(rows, w);
      }
    }
  }

  class TourTable {
    const categories: seq<CategoryRow>
    var rows: map<nat, TourRow>
    var nextId: nat

    /** The schema's constraints hold of every row; ids come from the AUTO_INCREMENT counter. */
    ghost predicate Valid()
      reads this
    {
      && CategoriesValid(categories)
      && nextId >= 1
      && RowsValid(categories, rows, nextId)
    }

    /** An empty `tours` table next to the seeded `categories` table. */
    constructor (categories: seq<CategoryRow>)
      requires CategoriesValid(categories)
      ensures Valid()
      ensures this.categories == categories && rows == map[] && nextId == 1
    {
      this.categories := categories;
      rows := map[];
      nextId := 1;
    }

    /** The ids of the rows a selector picks. */
    function Matching(w: Selector): set<nat>
      reads this
    {
      Selected(rows, w)
    }

    /**
     * `INSERT INTO tours ...`: all-or-nothing, with the schema's constraints enforced. The
     * NOT NULL and CHECK constraints are checked before the row reaches the storage engine;
     * the engine then draws the next AUTO_INCREMENT id, which stays used up when the foreign
     * key or the UNIQUE key rejects the row.
     */
    method Insert(row: TourRow) returns (result: Result<nat, DbError>)
      requires Valid()
      modifies this
      ensures Valid()
      ensures result == Err(ConstraintViolation) <==> !SatisfiesConstraints(row)
      ensures result == Err(ForeignKeyViolation) <==>
                SatisfiesConstraints(row) && !HasCategoryId(categories, row.categoryId)
      ensures result == Err(DuplicateKey) <==>
                && SatisfiesConstraints(row) && HasCategoryId(categories, row.categoryId)
                && exists id :: id in old(rows) && SameKey(old(rows)[id].tourKey, row.tourKey)
      ensures result.Err? ==> rows == old(rows) && result.error != UnknownColumn
      ensures result == Err(ConstraintViolation) ==> nextId == old(nextId)
      ensures result == Err(ForeignKeyViolation) || result == Err(DuplicateKey) ==> nextId == old(nextId) + 1
      ensures result.Ok? ==>
                && result.value == old(nextId) && result.value !in old(rows)
                && rows == old(rows)[result.value := row]
                && nextId == old(nextId) + 1
    {
      if !SatisfiesConstraints(row) {
        return Err(ConstraintViolation);
      }
      var id := nextId;
      nextId := nextId + 1;
      if !HasCategoryId(categories, row.categoryId) {
        return Err(ForeignKeyViolation);
      }
      if exists other :: other in rows && SameKey(rows[other].tourKey, row.tourKey) {
        return Err(DuplicateKey);
      }
      result := Ok(id);
      rows := rows[id := row];
    }

    /** `SELECT ... WHERE <selector>`, reporting one of the matching rows, if any. */
    method SelectOne(w: Selector) returns (found: Option<nat>)
      ensures found.None? <==> Matching(w) == {}
      ensures found.Some? ==> found.value in rows && Selects(w, found.value, rows[found.value])
    {
      if Matching(w) == {} {
        found := None;
      } else {
        var id :| id in Matching(w);
        found := Some(id);
      }
    }

    /** `DELETE FROM tours WHERE <selector>`, reporting the number of affected rows. */
    method DeleteWhere(w: Selector) returns (affected: nat)
      requires Valid()
      modifies this
      ensures Valid()
      ensures affected == |old(Matching(w))|
      ensures rows == map id | id in old(rows) && !Selects(w, id, old(rows)[id]) :: old(rows)[id]
      ensures Matching(w) == {}
      ensures nextId == old(nextId)
    {
      affected := |Matching(w)|;
      rows := map id | id in rows && !Selects(w, id, rows[id]) :: rows[id];
    }

    /**
     * `UPDATE tours SET <columns> WHERE <selector>`: a statement naming a column the table
     * lacks is refused when prepared, whatever it selects; otherwise `change` is applied to
     * every matching row at once, and a constraint violated by any changed row aborts the
     * whole statement.
     */
    method UpdateWhere(columns: seq<string>, w: Selector, change: TourRow -> TourRow)
      returns (result: Result<nat, DbError>)
      requires Valid()
      modifies this
      ensures Valid()
      ensures nextId == old(nextId)
      ensures !ColumnsExist(columns) ==> result == Err(UnknownColumn)
      ensures ColumnsExist(columns) ==> result == UpdateOutcome(categories, old(rows), w, change)
      ensures result.Ok? ==> rows == Changed(old(rows), w, change)
      ensures result.Err? ==> rows == old(rows)
    {
      if !ColumnsExist(columns) {
        return Err(UnknownColumn);
      }
      result := UpdateOutcome(categories, rows, w, change);
      if result.Ok? {
        ChangedRowsValid(categories, rows, w, change, nextId);
        rows := Changed(rows, w, change);
      }
    }
  }
}
