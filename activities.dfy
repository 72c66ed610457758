/**
 * The activities page: the categories fetched from the API, the active category chosen from
 * the `activity` query parameter, the query string kept in step with the choice, the tours of
 * the active category, and the offer and availability badges of a tour card.
 *
 * Responses of the API arrive as values; the query string is its list of name/value pairs.
 */
module Activities {
  import opened Wrappers
  import opened Seqs
  import opened Strings

  /** A category as `GET /api/categories` returns it. */
  datatype ApiCategory = ApiCategory(id: nat, categoryKey: string, name: string, description: string)

  /** A JSON value as the page may receive it in a numeric field. */
  datatype JsValue = JsNumber(number: real) | JsText(text: string) | JsNull

  /** A tour as `GET /api/tours/category/:category` returns it. */
  datatype ApiTour = ApiTour(id: nat, name: string, country: string, days: int, price: JsValue,
                             oldPrice: JsValue, availability: Option<string>)

  // ---------------------------------------------------------------- initial selection

  /** The test of the initial `find`: the key equals the parameter, or the names agree up to case. */
  predicate MatchesActivity(c: ApiCategory, activity: Option<string>) {
    activity.Some? && (c.categoryKey == activity.value || Lower(c.name) == Lower(activity.value))
  }

  /** The first category that matches the parameter. */
  function FindActivity(cats: seq<ApiCategory>, activity: Option<string>): (r: Option<nat>)
    ensures r.None? <==> forall i :: 0 <= i < |cats| ==> !MatchesActivity(cats[i], activity)
    ensures r.Some? ==> r.value < |cats| && MatchesActivity(cats[r.value], activity)
                        && forall j :: 0 <= j < r.value ==> !MatchesActivity(cats[j], activity)
  {
    if cats == [] then None
    else if MatchesActivity(cats[0], activity) then Some(0)
    else
      var r := FindActivity(cats[1..], activity);
      assert forall i :: 1 <= i < |cats| ==> cats[i] == cats[1..][i - 1];
      if r.None? then None else Some(r.value + 1)
  }

  /** The initial `active` key: the matching category's key, else `data.data[0]?.categoryKey || ""`. */
  function InitialActive(cats: seq<ApiCategory>, activity: Option<string>): (r: string)
    ensures r != "" ==> exists i :: 0 <= i < |cats| && cats[i].categoryKey == r
  {
    var found := FindActivity(cats, activity);
    if found.Some? then cats[found.value].categoryKey
    else if cats != [] then cats[0].categoryKey
    else ""
  }

  /**
   * The page starts on the first category whose key equals the `activity` parameter or whose
   * name equals it up to case; without one, on the first category, or on nothing when there
   * are no categories.
   */
  lemma InitialActiveChoice(cats: seq<ApiCategory>, activity: Option<string>)
    ensures var r := InitialActive(cats, activity);
      && ((exists i :: 0 <= i < |cats| && MatchesActivity(cats[i], activity)) ==>
            exists i :: 0 <= i < |cats| && MatchesActivity(cats[i], activity) && r == cats[i].categoryKey
                        && forall j :: 0 <= j < i ==> !MatchesActivity(cats[j], activity))
      && ((forall i :: 0 <= i < |cats| ==> !MatchesActivity(cats[i], activity)) ==>
            r == (if cats == [] then "" else cats[0].categoryKey))
  {
    var found := FindActivity(cats, activity);
    if found.Some? {
      var i := found.value;
      assert MatchesActivity(cats[i], activity) && InitialActive(cats, activity) == cats[i].categoryKey;
    }
  }

  /** Without an `activity` parameter the page starts on the first category. */
  lemma NoParameterFirstCategory(cats: seq<ApiCategory>)
    requires cats != []
    ensures InitialActive(cats, None) == cats[0].categoryKey
  {
  }

  // ---------------------------------------------------------------- query string

  /** The pairs of a `URLSearchParams`, in order. */
  type Params = seq<(string, string)>

  /** `p.get(name)`: the value of the first pair with that name. */
  function GetParam(ps: Params, name: string): (r: Option<string>)
    ensures r.None? <==> forall i :: 0 <= i < |ps| ==> ps[i].0 != name
    ensures r.Some? ==>
              exists i :: 0 <= i < |ps| && ps[i] == (name, r.value) && forall j :: 0 <= j < i ==> ps[j].0 != name
  {
    if ps == [] then None
    else if ps[0].0 == name then Some(ps[0].1)
    else
      assert forall i :: 1 <= i < |ps| ==> ps[i] == ps[1..][i - 1];
      GetParam(ps[1..], name)
  }

  /**
   * The pairs whose name is not `name`, in order: none of them is dropped, and a list without
   * the name is returned as it is.
   */
  function OtherParams(ps: Params, name: string): (r: Params)
    ensures forall i :: 0 <= i < |r| ==> r[i].0 != name
    ensures |r| <= |ps|
    ensures IsSubsequence(r, ps)
    ensures forall i :: 0 <= i < |ps| && ps[i].0 != name ==> ps[i] in r
    ensures (forall i :: 0 <= i < |ps| ==> ps[i].0 != name) ==> r == ps
  {
    if ps == [] then []
    else
      var rest := OtherParams(ps[1..], name);
      assert forall i :: 1 <= i < |ps| ==> ps[i] == ps[1..][i - 1];
      assert [ps[0]] + ps[1..] == ps;
      if ps[0].0 == name then
        SubsequenceCons(ps[0], rest, ps[1..]);
        rest
      else
        var r := [ps[0]] + rest;
        assert r[1..] == rest;
        r
  }

  /** The removal works pair by pair: removing from a concatenation removes from each part. */
  lemma {:induction false} OtherParamsAppend(a: Params, b: Params, name: string)
    ensures OtherParams(a + b, name) == OtherParams(a, name) + OtherParams(b, name)
  {
    if a == [] {
      assert a + b == b;
    } else {
      assert (a + b)[0] == a[0] && (a + b)[1..] == a[1..] + b;
      OtherParamsAppend(a[1..], b, name);
      OtherParamsStep(a, name);
      OtherParamsStep(a + b, name);
      var head := if a[0].0 == name then [] else [a[0]];
      ConcatAssoc(head, OtherParams(a[1..], name), OtherParams(b, name));
    }
  }

  /** One step of the removal on a non-empty list. */
  lemma OtherParamsStep(ps: Params, name: string)
    requires ps != []
    ensures OtherParams(ps, name) == (if ps[0].0 == name then [] else [ps[0]]) + OtherParams(ps[1..], name)
  {
  }

  /**
   * `p.set(name, value)`: the first pair with that name takes the value and the others are
   * removed; with none, the pair is appended.
   */
  function SetParam(ps: Params, name: string, value: string): Params {
    if ps == [] then [(name, value)]
    else if ps[0].0 == name then [(name, value)] + OtherParams(ps[1..], name)
    else [ps[0]] + SetParam(ps[1..], name, value)
  }

  lemma {:induction false} OtherParamsIdempotent(ps: Params, name: string)
    ensures OtherParams(OtherParams(ps, name), name) == OtherParams(ps, name)
  {
    if ps != [] {
      OtherParamsIdempotent(ps[1..], name);
      var rest := OtherParams(ps[1..], name);
      if ps[0].0 != name {
        var x := [ps[0]] + rest;
        assert OtherParams(ps, name) == x;
        assert x[0] == ps[0] && x[1..] == rest;
        assert OtherParams(x, name) == [ps[0]] + OtherParams(rest, name);
      } else {
        assert OtherParams(ps, name) == [] + rest == rest;
      }
    }
  }

  /**
   * After `set`, reading the name gives the new value, exactly one pair carries the name, and
   * the other pairs are the same pairs in the same order.
   */
  lemma {:induction false} SetParamProperties(ps: Params, name: string, value: string)
    ensures GetParam(SetParam(ps, name, value), name) == Some(value)
    ensures OtherParams(SetParam(ps, name, value), name) == OtherParams(ps, name)
    ensures |SetParam(ps, name, value)| == |OtherParams(ps, name)| + 1
  {
    var r := SetParam(ps, name, value);
    if ps == [] {
    } else if ps[0].0 == name {
      var rest := OtherParams(ps[1..], name);
      assert r == [(name, value)] + rest;
      assert r[1..] == rest;
      OtherParamsIdempotent(ps[1..], name);
    } else {
      SetParamProperties(ps[1..], name, value);
      assert r[1..] == SetParam(ps[1..], name, value);
    }
  }

  /** The URL the active-category effect navigates to, if it navigates. */
  function SyncedQuery(active: string, search: Params): Option<Params> {
    if active == "" then None else Some(SetParam(search, "activity", active))
  }

  // ---------------------------------------------------------------- the tour card

  /** `typeof tour.oldPrice === "number" && tour.oldPrice > 0`. */
  predicate HasOffer(t: ApiTour) { t.oldPrice.JsNumber? && t.oldPrice.number > 0.0 }

  /**
   * A struck-through old price shows exactly for a positive JSON number: a text such as
   * "120.00", a null or a zero never shows one, whatever the current price.
   */
  lemma OfferRules(t: ApiTour)
    ensures HasOffer(t) <==> exists p: real :: p > 0.0 && t.oldPrice == JsNumber(p)
    ensures t.oldPrice.JsText? || t.oldPrice.JsNull? ==> !HasOffer(t)
    ensures HasOffer(t) <==> HasOffer(t.(price := JsNull))
  {
    if HasOffer(t) {
      assert t.oldPrice == JsNumber(t.oldPrice.number);
    }
  }

  datatype Colour = Green | Yellow | Red

  /** The availability badge: its colour and its label. */
  datatype Badge = Badge(colour: Colour, text: string)

  /** The badge, shown only for a non-empty availability. */
  function AvailabilityBadge(availability: Option<string>): (r: Option<Badge>)
    ensures r.None? <==> availability.None? || availability.value == ""
  {
    match availability
    case None => None
    case Some(a) =>
      if a == "" then None
      else
        var colour := if a == "available" then Green else if a == "limited" then Yellow else Red;
        Some(Badge(colour, [UpperChar(a[0])] + a[1..]))
  }

  /**
   * The badge is green for `available`, yellow for `limited` and red for anything else, and its
   * label is the value with its first character upper-cased.
   */
  lemma BadgeRules(a: string)
    requires a != ""
    ensures var b := AvailabilityBadge(Some(a)).value;
      && (b.colour == Green <==> a == "available")
      && (b.colour == Yellow <==> a == "limited")
      && (b.colour == Red <==> a != "available" && a != "limited")
      && |b.text| == |a| && b.text[0] == UpperChar(a[0]) && b.text[1..] == a[1..]
  {
    var b := AvailabilityBadge(Some(a)).value;
    assert b.text == [UpperChar(a[0])] + a[1..];
  }

  // ---------------------------------------------------------------- the page

  /** The answer of `GET /api/categories`: a failure (with its message) or the JSON body. */
  datatype CategoriesResponse =
    | CategoriesFailed(message: string)
    | CategoriesBody(success: bool, data: Option<seq<ApiCategory>>)

  /** The answer of `GET /api/tours/category/:category`. */
  datatype ToursResponse =
    | ToursFailed(message: string)
    | ToursBody(success: bool, data: Option<seq<ApiTour>>, error: Option<string>)

  /** `categories.find(c => c.categoryKey === active)`. */
  function FindByKey(cats: seq<ApiCategory>, key: string): (r: Option<ApiCategory>)
    ensures r.None? <==> forall i :: 0 <= i < |cats| ==> cats[i].categoryKey != key
    ensures r.Some? ==> exists i :: 0 <= i < |cats| && cats[i] == r.value && r.value.categoryKey == key
                                    && forall j :: 0 <= j < i ==> cats[j].categoryKey != key
  {
    if cats == [] then None
    else if cats[0].categoryKey == key then Some(cats[0])
    else
      var r := FindByKey(cats[1..], key);
      assert forall i :: 1 <= i < |cats| ==> cats[i] == cats[1..][i - 1];
      FindByKeyShift(cats, key, r);
      r
  }

  lemma FindByKeyShift(cats: seq<ApiCategory>, key: string, r: Option<ApiCategory>)
    requires cats != [] && cats[0].categoryKey != key
    requires r.Some? ==> exists i :: 0 <= i < |cats[1..]| && cats[1..][i] == r.value && r.value.categoryKey == key
                                     && forall j :: 0 <= j < i ==> cats[1..][j].categoryKey != key
    ensures r.Some? ==> exists i :: 0 <= i < |cats| && cats[i] == r.value && r.value.categoryKey == key
                                    && forall j :: 0 <= j < i ==> cats[j].categoryKey != key
  {
    if r.Some? {
      var i :| 0 <= i < |cats[1..]| && cats[1..][i] == r.value && r.value.categoryKey == key
               && forall j :: 0 <= j < i ==> cats[1..][j].categoryKey != key;
      assert cats[i + 1] == r.value;
      forall j | 0 <= j < i + 1 ensures cats[j].categoryKey != key {
        if j > 0 { assert cats[j] == cats[1..][j - 1]; }
      }
    }
  }

  class ActivitiesPage {
    var categories: seq<ApiCategory>
    var active: string
    var tours: seq<ApiTour>
    var loading: bool
    var error: Option<string>
    var search: Params

    /** The page as first rendered for a URL with the given query string. */
    constructor (search: Params)
      ensures categories == [] && active == "" && tours == [] && loading && error.None?
      ensures this.search == search
    {
      categories := [];
      active := "";
      tours := [];
      loading := true;
      error := None;
      this.search := search;
    }

    /** `activeCategory`. */
    function ActiveCategory(): Option<ApiCategory>
      reads this
    {
      FindByKey(categories, active)
    }

    /** A click on the pill of the category at `i`: it becomes the active category. */
    method ChooseCategory(i: nat)
      requires i < |categories|
      modifies this
      ensures categories == old(categories) && tours == old(tours) && search == old(search)
      ensures active == categories[i].categoryKey
      ensures ActiveCategory().Some? && ActiveCategory().value.categoryKey == active
      ensures loading == old(loading) && error == old(error)
    {
      active := categories[i].categoryKey;
    }

    /** The categories effect once its request settles. */
    method CategoriesLoaded(response: CategoriesResponse)
      modifies this
      ensures search == old(search) && tours == old(tours) && loading == old(loading)
      ensures response.CategoriesFailed? ==>
                error == Some("Failed to load categories: " + response.message)
                && categories == old(categories) && active == old(active)
      ensures response.CategoriesBody? && response.success && response.data.Some? ==>
                && categories == response.data.value
                && active == InitialActive(response.data.value, GetParam(search, "activity"))
                && error == old(error)
      ensures response.CategoriesBody? && !(response.success && response.data.Some?) ==>
                error == Some("Failed to load categories")
                && categories == old(categories) && active == old(active)
    {
      match response
      case CategoriesFailed(message) =>
        error := Some("Failed to load categories: " + message);
      case CategoriesBody(success, data) =>
        if success && data.Some? {
          categories := data.value;
          active := InitialActive(data.value, GetParam(search, "activity"));
        } else {
          error := Some("Failed to load categories");
        }
    }

    /** The query-string effect: a chosen category is written to `activity`, other pairs kept. */
    method SyncQuery()
      modifies this
      ensures active == "" ==> search == old(search)
      ensures active != "" ==> search == SetParam(old(search), "activity", active)
      ensures active == old(active) && categories == old(categories) && tours == old(tours)
      ensures loading == old(loading) && error == old(error)
    {
      if active != "" {
        search := SetParam(search, "activity", active);
      }
    }

    /** The tours effect once its request settles; it does nothing while no category is active. */
    method ToursLoaded(response: ToursResponse)
      modifies this
      ensures active == old(active) && categories == old(categories) && search == old(search)
      ensures old(active) == "" ==>
                tours == old(tours) && loading == old(loading) && error == old(error)
      ensures old(active) != "" ==> !loading
      ensures old(active) != "" && response.ToursFailed? ==>
                tours == [] && error == Some("Failed to load tours: " + response.message)
      ensures old(active) != "" && response.ToursBody? && response.success ==>
                tours == response.data.GetOr([]) && error.None?
      ensures old(active) != "" && response.ToursBody? && !response.success ==>
                tours == [] && error.Some?
                && (response.error.Some? && response.error.value != "" ==> error.value == response.error.value)
                && (response.error.None? || response.error.value == "" ==> error.value == "Failed to load tours")
    {
      if active == "" {
        return;
      }
      loading := true;
      error := None;
      match response {
        case ToursFailed(message) =>
          tours := [];
          error := Some("Failed to load tours: " + message);
        case ToursBody(success, data, err) =>
          if success {
            tours := data.GetOr([]);
          } else {
            tours := [];
            error := Some(if err.Some? && err.value != "" then err.value else "Failed to load tours");
          }
      }
      loading := false;
    }
  }

  /**
   * Once categories load and the query effect runs, the `activity` parameter names the chosen
   * category, and the other parameters are unchanged.
   */
  lemma LoadThenSync(cats: seq<ApiCategory>, search: Params)
    requires InitialActive(cats, GetParam(search, "activity")) != ""
    ensures var active := InitialActive(cats, GetParam(search, "activity"));
      var synced := SyncedQuery(active, search);
      && synced.Some?
      && GetParam(synced.value, "activity") == Some(active)
      && OtherParams(synced.value, "activity") == OtherParams(search, "activity")
      && (exists i :: 0 <= i < |cats| && cats[i].categoryKey == active)
  {
    SetParamProperties(search, "activity", InitialActive(cats, GetParam(search, "activity")));
  }
}
