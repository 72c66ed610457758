/**
 * The admin dashboard: a form for a new tour whose submission appends the tour to every
 * category of the in-memory catalogue whose name matches the selected category, plus logout.
 *
 * The tour id comes from `TourKey.GenerateTourKey`, which the dashboard's `generateTourId`
 * repeats verbatim; the clock reading is the parameter `now`. Numeric inputs arrive as the
 * value `Number(value)` would give.
 */
module AdminDashboard {
  import opened Wrappers
  import opened Strings
  import opened TourKey
  import opened Catalog

  /** A numeric form field: `""` until something is typed, then `Number(value)`. */
  datatype FormNumber = Blank | Num(value: real)

  /** The `newTour` form state. */
  datatype TourForm = TourForm(
    name: string, country: string, image: string, description: string,
    days: FormNumber, price: FormNumber, oldPrice: FormNumber, category: string)

  /** The form as first shown and after every successful add. */
  const EmptyForm := TourForm("", "", "", "", Blank, Blank, Blank, "cycling")

  /** The `name` attribute of the input that changed. */
  datatype FormField = Name | Country | Image | Description | Days | Price | OldPrice | Category

  /** A field's value: text, or a numeric field's value. */
  datatype FieldValue = TextValue(text: string) | NumberValue(number: FormNumber)

  function FieldOf(form: TourForm, f: FormField): FieldValue {
    match f
    case Name => TextValue(form.name)
    case Country => TextValue(form.country)
    case Image => TextValue(form.image)
    case Description => TextValue(form.description)
    case Days => NumberValue(form.days)
    case Price => NumberValue(form.price)
    case OldPrice => NumberValue(form.oldPrice)
    case Category => TextValue(form.category)
  }

  predicate IsNumericField(f: FormField) { f == Days || f == Price || f == OldPrice }

  /** What `handleInputChange` stores for an input: numbers for the numeric fields unless empty. */
  function InputValue(f: FormField, value: string, number: real): FieldValue {
    if IsNumericField(f) then NumberValue(if value == "" then Blank else Num(number))
    else TextValue(value)
  }

  /** The form with one field replaced. */
  function WithField(form: TourForm, f: FormField, v: FieldValue): TourForm {
    match (f, v)
    case (Name, TextValue(s)) => form.(name := s)
    case (Country, TextValue(s)) => form.(country := s)
    case (Image, TextValue(s)) => form.(image := s)
    case (Description, TextValue(s)) => form.(description := s)
    case (Category, TextValue(s)) => form.(category := s)
    case (Days, NumberValue(n)) => form.(days := n)
    case (Price, NumberValue(n)) => form.(price := n)
    case (OldPrice, NumberValue(n)) => form.(oldPrice := n)
    case _ => form
  }

  /**
   * `handleInputChange` changes only the named field: a numeric field becomes blank for an
   * empty input and the number otherwise, any other field takes the text as typed.
   */
  lemma InputChangesOneField(form: TourForm, f: FormField, value: string, number: real)
    ensures var r := WithField(form, f, InputValue(f, value, number));
      && FieldOf(r, f) == InputValue(f, value, number)
      && (forall g :: g != f ==> FieldOf(r, g) == FieldOf(form, g))
      && (IsNumericField(f) ==> FieldOf(r, f) == NumberValue(if value == "" then Blank else Num(number)))
      && (!IsNumericField(f) ==> FieldOf(r, f) == TextValue(value))
  {
  }

  /** JavaScript truthiness of a numeric field. */
  predicate TruthyNumber(n: FormNumber) { n.Num? && n.value != 0.0 }

  /** The required fields: name, country, description, days and price must be truthy. */
  predicate Complete(form: TourForm) {
    form.name != "" && form.country != "" && form.description != ""
    && TruthyNumber(form.days) && TruthyNumber(form.price)
  }

  const DefaultImage := "/default-tour.jpg"

  /** The tour object `handleAddTour` builds from a complete form. */
  function NewTour(form: TourForm, now: nat): CatalogTour
    requires Complete(form)
  {
    CatalogTour(
      id := GenerateTourKey(form.name, form.category, now),
      name := form.name,
      country := Upper(form.country),
      image := if form.image != "" then form.image else DefaultImage,
      description := Some(form.description),
      days := form.days.value,
      price := form.price.value,
      oldPrice := if TruthyNumber(form.oldPrice) then Some(form.oldPrice.value) else None,
      rating := 4.5,
      reviews := 0)
  }

  /**
   * The new tour carries the upper-cased country, the default image when none was given, an
   * old price only when one was given and non-zero, a 4.5 rating and no reviews.
   */
  lemma NewTourFields(form: TourForm, now: nat)
    requires Complete(form)
    ensures var t := NewTour(form, now);
      && t.name == form.name && t.country == Upper(form.country)
      && (form.image == "" ==> t.image == "/default-tour.jpg")
      && (form.image != "" ==> t.image == form.image)
      && (t.oldPrice.Some? <==> TruthyNumber(form.oldPrice))
      && (t.oldPrice.Some? ==> Num(t.oldPrice.value) == form.oldPrice)
      && t.rating == 4.5 && t.reviews == 0
      && Num(t.days) == form.days && Num(t.price) == form.price
      && t.days != 0.0 && t.price != 0.0
  {
  }

  /** A category matches the selection when their lower-cased names agree. */
  predicate SameCategory(c: CatalogCategory, selected: string) {
    Lower(c.name) == Lower(selected)
  }

  /** `categories.map(...)`: the tour appended to every matching category. */
  function AddToMatching(cats: seq<CatalogCategory>, tour: CatalogTour, selected: string)
    : (r: seq<CatalogCategory>)
    ensures |r| == |cats|
    ensures forall i :: 0 <= i < |cats| && SameCategory(cats[i], selected) ==>
              r[i] == cats[i].(tours := cats[i].tours + [tour])
    ensures forall i :: 0 <= i < |cats| && !SameCategory(cats[i], selected) ==> r[i] == cats[i]
  {
    seq(|cats|, i requires 0 <= i < |cats| =>
      if SameCategory(cats[i], selected) then cats[i].(tours := cats[i].tours + [tour]) else cats[i])
  }

  /**
   * The update keeps the number, order, ids and names of the categories; a matching category
   * gains exactly the new tour at the end; no category loses a tour. The selection matches
   * regardless of letter case.
   */
  lemma AddToMatchingProperties(cats: seq<CatalogCategory>, tour: CatalogTour, selected: string)
    ensures var r := AddToMatching(cats, tour, selected);
      && (forall i :: 0 <= i < |cats| ==> r[i].id == cats[i].id && r[i].name == cats[i].name)
      && (forall i :: 0 <= i < |cats| ==> r[i].tours[..|cats[i].tours|] == cats[i].tours)
      && (forall i :: 0 <= i < |cats| ==>
            |r[i].tours| == |cats[i].tours| + (if SameCategory(cats[i], selected) then 1 else 0))
      && (forall i :: 0 <= i < |cats| && SameCategory(cats[i], selected) ==>
            r[i].tours[|r[i].tours| - 1] == tour)
    ensures AddToMatching(cats, tour, Lower(selected)) == AddToMatching(cats, tour, selected)
  {
    LowerIdempotent(selected);
    var r := AddToMatching(cats, tour, selected);
    forall i | 0 <= i < |cats| ensures r[i].tours[..|cats[i].tours|] == cats[i].tours {
      if SameCategory(cats[i], selected) {
        assert r[i].tours == cats[i].tours + [tour];
      }
    }
  }

  /** The dashboard's state. */
  class Dashboard {
    var categories: seq<CatalogCategory>
    var showAddForm: bool
    var loading: bool
    var newTour: TourForm
    var storage: map<string, string>
    var route: string

    /** The dashboard as first rendered over the browser's storage. */
    constructor (storage: map<string, string>)
      ensures categories == [] && !showAddForm && !loading && newTour == EmptyForm
      ensures this.storage == storage && route == "/admin"
    {
      categories := [];
      showAddForm := false;
      loading := false;
      newTour := EmptyForm;
      this.storage := storage;
      route := "/admin";
    }

    /**
     * The mount effect: without the `admin_logged_in` flag set to "true" the page goes to the
     * login route; otherwise the fetched catalogue's categories (an empty list when the document
     * has none) replace the list, and a failed fetch (`None`) leaves it as it was.
     */
    method Mount(fetched: Option<Option<seq<CatalogCategory>>>)
      modifies this
      ensures storage == old(storage) && newTour == old(newTour)
      ensures showAddForm == old(showAddForm) && loading == old(loading)
      ensures var loggedIn := "admin_logged_in" in storage && storage["admin_logged_in"] == "true";
        && (!loggedIn ==> route == "/admin/login" && categories == old(categories))
        && (loggedIn ==> route == old(route))
        && (loggedIn && fetched.None? ==> categories == old(categories))
        && (loggedIn && fetched.Some? ==> categories == fetched.value.GetOr([]))
    {
      if !("admin_logged_in" in storage && storage["admin_logged_in"] == "true") {
        route := "/admin/login";
        return;
      }
      if fetched.Some? {
        categories := fetched.value.GetOr([]);
      }
    }

    /** `handleInputChange` for the input named `f` holding `value`, whose `Number(value)` is `number`. */
    method InputChange(f: FormField, value: string, number: real)
      modifies this
      ensures newTour == WithField(old(newTour), f, InputValue(f, value, number))
      ensures categories == old(categories) && showAddForm == old(showAddForm)
      ensures loading == old(loading) && storage == old(storage) && route == old(route)
    {
      newTour := WithField(newTour, f, InputValue(f, value, number));
    }

    /**
     * `handleAddTour`: an incomplete form changes nothing but the loading flag; a complete one
     * appends the new tour to the matching categories, resets the form and hides it.
     */
    method AddTour(now: nat) returns (added: bool)
      modifies this
      ensures added <==> Complete(old(newTour))
      ensures !loading && storage == old(storage) && route == old(route)
      ensures !added ==> categories == old(categories) && newTour == old(newTour)
                         && showAddForm == old(showAddForm)
      ensures added ==>
                && categories == AddToMatching(old(categories), NewTour(old(newTour), now), old(newTour).category)
                && newTour == EmptyForm && !showAddForm
    {
      loading := true;
      var form := newTour;
      added := Complete(form);
      if added {
        Append(NewTour(form, now), form.category);
      }
      loading := false;
    }

    /** The successful end of `handleAddTour`: the tour added, the form reset and hidden. */
    method Append(tour: CatalogTour, category: string)
      modifies this
      ensures categories == AddToMatching(old(categories), tour, category)
      ensures newTour == EmptyForm && !showAddForm
      ensures loading == old(loading) && storage == old(storage) && route == old(route)
    {
      categories := AddToMatching(categories, tour, category);
      newTour := EmptyForm;
      showAddForm := false;
    }

    /** `handleLogout`: both admin keys removed from storage, then the login route. */
    method Logout()
      modifies this
      ensures storage == old(storage) - {"admin_logged_in", "admin_email"}
      ensures "admin_logged_in" !in storage && "admin_email" !in storage
      ensures route == "/admin/login"
      ensures categories == old(categories) && newTour == old(newTour)
      ensures showAddForm == old(showAddForm) && loading == old(loading)
    {
      storage := storage - {"admin_logged_in"};
      storage := storage - {"admin_email"};
      route := "/admin/login";
    }
  }

  /** The reset form is incomplete, so submitting it again right after an add adds nothing. */
  lemma EmptyFormIncomplete()
    ensures !Complete(EmptyForm)
  {
  }
}
