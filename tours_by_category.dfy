/**
 * The category page: the category named by the route's `categoryId` is looked up in the
 * catalogue, and its tours are narrowed by the text typed in the search bar.
 */
module ToursByCategory {
  import opened Wrappers
  import opened Seqs
  import opened Strings
  import opened Catalog

  /** `data.categories.find(c => c.id === categoryId)`. */
  function FindCategory(cats: seq<CatalogCategory>, id: string): (r: Option<CatalogCategory>)
    ensures r.None? <==> forall i :: 0 <= i < |cats| ==> cats[i].id != id
    ensures r.Some? ==> r.value in cats && r.value.id == id
  {
    if cats == [] then None
    else if cats[0].id == id then Some(cats[0])
    else
      var r := FindCategory(cats[1..], id);
      assert forall i :: 1 <= i < |cats| ==> cats[i] == cats[1..][i - 1];
      r
  }

  /** The category found is the first one carrying the id. */
  lemma {:induction false} FindCategoryIsFirst(cats: seq<CatalogCategory>, id: string, i: nat)
    requires i < |cats| && cats[i].id == id
    ensures FindCategory(cats, id).Some?
    ensures exists k :: 0 <= k <= i && FindCategory(cats, id) == Some(cats[k])
                        && forall j :: 0 <= j < k ==> cats[j].id != id
  {
    if cats[0].id != id {
      FindCategoryIsFirst(cats[1..], id, i - 1);
      var k :| 0 <= k <= i - 1 && FindCategory(cats[1..], id) == Some(cats[1..][k])
               && forall j :: 0 <= j < k ==> cats[1..][j].id != id;
      assert FindCategory(cats, id) == Some(cats[k + 1]);
      assert forall j :: 0 <= j < k + 1 ==> cats[j].id != id by {
        forall j | 0 <= j < k + 1 ensures cats[j].id != id {
          if j > 0 { assert cats[j] == cats[1..][j - 1]; }
        }
      }
    }
  }

  /** `category?.tours ?? []`. */
  function ToursOf(category: Option<CatalogCategory>): seq<CatalogTour> {
    if category.Some? then category.value.tours else []
  }

  /** A tour matches a normalised query when its lower-cased name or description contains it. */
  predicate Matches(x: CatalogTour, t: string) {
    Contains(Lower(x.name), t) || Contains(Lower(x.description.GetOr("")), t)
  }

  /** `tours.filter(...)` with the matching predicate above. */
  function FilterTours(tours: seq<CatalogTour>, t: string): (r: seq<CatalogTour>)
    ensures |r| <= |tours|
    ensures forall x :: x in r <==> x in tours && Matches(x, t)
  {
    if tours == [] then []
    else
      var rest := FilterTours(tours[1..], t);
      assert forall x :: x in tours <==> x == tours[0] || x in tours[1..];
      if Matches(tours[0], t) then [tours[0]] + rest else rest
  }

  /** The `filtered` memo: the trimmed, lower-cased query, or every tour when it is empty. */
  function Filtered(tours: seq<CatalogTour>, q: string): seq<CatalogTour> {
    var t := Lower(Trim(q));
    if t == "" then tours else FilterTours(tours, t)
  }

  /** What the page renders. */
  datatype Page =
    | CategoryNotFound
    | Listing(title: string, shown: seq<CatalogTour>)

  function RenderPage(cats: seq<CatalogCategory>, categoryId: string, q: string): (r: Page)
    ensures r.CategoryNotFound? <==> forall i :: 0 <= i < |cats| ==> cats[i].id != categoryId
  {
    var category := FindCategory(cats, categoryId);
    if category.None? then CategoryNotFound
    else Listing(category.value.name, Filtered(ToursOf(category), q))
  }

  /** A query that is empty once trimmed shows every tour of the category. */
  lemma BlankQueryShowsAll(tours: seq<CatalogTour>, q: string)
    requires AllSpaces(q)
    ensures Filtered(tours, q) == tours
  {
    TrimPadded(q, "", "");
    assert q + "" + "" == q;
  }

  lemma {:induction false} FilterIsSubsequence(tours: seq<CatalogTour>, t: string)
    ensures IsSubsequence(FilterTours(tours, t), tours)
  {
    if tours != [] {
      FilterIsSubsequence(tours[1..], t);
      var rest := FilterTours(tours[1..], t);
      assert [tours[0]] + tours[1..] == tours;
      if Matches(tours[0], t) {
        assert ([tours[0]] + rest)[1..] == rest;
      } else {
        SubsequenceCons(tours[0], rest, tours[1..]);
      }
    }
  }

  /**
   * The filter keeps tours in their catalogue order, and keeps a tour exactly when its
   * lower-cased name or description (a missing one reads as empty) contains the trimmed,
   * lower-cased query.
   */
  lemma FilteredIsOrderedSelection(tours: seq<CatalogTour>, q: string)
    ensures IsSubsequence(Filtered(tours, q), tours)
    ensures Lower(Trim(q)) != "" ==>
              forall x :: x in Filtered(tours, q) <==> x in tours && Matches(x, Lower(Trim(q)))
  {
    if Lower(Trim(q)) == "" {
      SubsequenceRefl(tours);
    } else {
      FilterIsSubsequence(tours, Lower(Trim(q)));
    }
  }

  /** Queries that differ only in letter case give the same result. */
  lemma FilterIgnoresCase(tours: seq<CatalogTour>, q1: string, q2: string)
    requires Lower(q1) == Lower(q2)
    ensures Filtered(tours, q1) == Filtered(tours, q2)
  {
    TrimLowerCommute(q1);
    TrimLowerCommute(q2);
  }

  /** Queries that differ only in surrounding white space give the same result. */
  lemma FilterIgnoresPadding(tours: seq<CatalogTour>, w1: string, q: string, w2: string)
    requires AllSpaces(w1) && AllSpaces(w2)
    ensures Filtered(tours, w1 + q + w2) == Filtered(tours, q)
  {
    TrimPadded(w1, q, w2);
  }

  /** An unknown category id shows the not-found message, with no tours to filter. */
  lemma UnknownCategory(cats: seq<CatalogCategory>, categoryId: string, q: string)
    requires forall i :: 0 <= i < |cats| ==> cats[i].id != categoryId
    ensures ToursOf(FindCategory(cats, categoryId)) == []
    ensures RenderPage(cats, categoryId, q) == CategoryNotFound
  {
  }
}
