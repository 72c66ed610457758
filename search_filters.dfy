/**
 * The search overlay: three selects (destination, activity, departure month) over fixed and
 * catalogue-derived options, closed by Escape, by the backdrop, by its Close button or by a
 * search, and rendering nothing while closed.
 *
 * Whether the overlay is open belongs to its parent; `onClose` is modelled as the parent
 * setting it to closed. An `alert` is recorded in the list `alerts`.
 */
module SearchFilters {
  import opened Seqs

  const Months: seq<string> := ["All months", "January", "February", "March", "April", "May", "June",
                                "July", "August", "September", "October", "November", "December"]

  const ActivityOptions: seq<string> := ["All activities", "Hiking", "Cycling", "Nature Walks"]

  /** The elements of `s` not in `seen`, each once, in the order of their first occurrence. */
  function DedupFrom(s: seq<string>, seen: set<string>): (r: seq<string>)
    ensures Distinct(r)
    ensures forall x :: x in r <==> x in s && x !in seen
  {
    if s == [] then []
    else if s[0] in seen then DedupFrom(s[1..], seen)
    else
      var rest := DedupFrom(s[1..], seen + {s[0]});
      assert forall x :: x in s <==> x == s[0] || x in s[1..];
      assert s[0] !in rest;
      assert forall i :: 1 <= i < |[s[0]] + rest| ==> ([s[0]] + rest)[i] == rest[i - 1];
      [s[0]] + rest
  }

  /** `[...new Set(names)]`: a set keeps its elements in insertion order. */
  function Dedup(names: seq<string>): seq<string> {
    DedupFrom(names, {})
  }

  /** `["All Destinations", ...new Set(categories.map(c => c.name))]`. */
  function Destinations(names: seq<string>): (r: seq<string>)
    ensures |r| >= 1 && r[0] == "All Destinations"
  {
    ["All Destinations"] + Dedup(names)
  }

  lemma {:induction false} DedupFromIsSubsequence(s: seq<string>, seen: set<string>)
    ensures IsSubsequence(DedupFrom(s, seen), s)
  {
    if s != [] {
      assert [s[0]] + s[1..] == s;
      if s[0] in seen {
        DedupFromIsSubsequence(s[1..], seen);
        SubsequenceCons(s[0], DedupFrom(s[1..], seen), s[1..]);
      } else {
        var rest := DedupFrom(s[1..], seen + {s[0]});
        DedupFromIsSubsequence(s[1..], seen + {s[0]});
        assert ([s[0]] + rest)[1..] == rest;
      }
    }
  }

  /**
   * Insertion order: adding one more name appends it if it is new and changes nothing if it
   * was already seen.
   */
  lemma {:induction false} DedupFromSnoc(s: seq<string>, seen: set<string>, x: string)
    ensures DedupFrom(s + [x], seen) ==
            if x in s || x in seen then DedupFrom(s, seen) else DedupFrom(s, seen) + [x]
  {
    if s == [] {
      assert [] + [x] == [x];
    } else {
      assert (s + [x])[0] == s[0] && (s + [x])[1..] == s[1..] + [x];
      assert x in s <==> x == s[0] || x in s[1..];
      if s[0] in seen {
        DedupFromSnoc(s[1..], seen, x);
      } else {
        DedupFromSnoc(s[1..], seen + {s[0]}, x);
        var rest := DedupFrom(s[1..], seen + {s[0]});
        assert [s[0]] + (rest + [x]) == ([s[0]] + rest) + [x];
      }
    }
  }

  lemma DedupSnoc(names: seq<string>, x: string)
    ensures Dedup(names + [x]) == if x in names then Dedup(names) else Dedup(names) + [x]
  {
    DedupFromSnoc(names, {}, x);
  }

  lemma {:induction false} DistinctCountOne(s: seq<string>, x: string)
    requires Distinct(s) && x in s
    ensures Count(s, x) == 1
  {
    if s[0] == x {
      CountAbsent(s[1..], x);
    } else {
      assert forall i, j :: 0 <= i < j < |s[1..]| ==> s[1..][i] == s[i + 1] && s[1..][j] == s[j + 1];
      DistinctCountOne(s[1..], x);
    }
  }

  lemma {:induction false} CountAbsent(s: seq<string>, x: string)
    requires x !in s
    ensures Count(s, x) == 0
  {
    if s != [] {
      CountAbsent(s[1..], x);
    }
  }

  /**
   * The destination options: "All Destinations" first, then every category name exactly once,
   * in the order the names first appear, and nothing else.
   */
  lemma DestinationsProperties(names: seq<string>)
    ensures var r := Destinations(names);
      && r[0] == "All Destinations"
      && (forall x :: x in r[1..] <==> x in names)
      && (forall x :: x in names ==> Count(r[1..], x) == 1)
      && IsSubsequence(r[1..], names)
      && |r| <= |names| + 1
  {
    var r := Destinations(names);
    assert r[1..] == Dedup(names);
    DedupFromIsSubsequence(names, {});
    forall x | x in names ensures Count(r[1..], x) == 1 {
      DistinctCountOne(r[1..], x);
    }
    DedupLength(names, {});
  }

  lemma {:induction false} DedupLength(s: seq<string>, seen: set<string>)
    ensures |DedupFrom(s, seen)| <= |s|
  {
    if s != [] {
      DedupLength(s[1..], seen);
      DedupLength(s[1..], seen + {s[0]});
    }
  }

  /** The message `onSearch` shows. */
  function SearchMessage(destination: string, activity: string, month: string): string {
    "Search:\nDestination: " + destination + "\nActivity: " + activity + "\nMonth: " + month
  }

  class SearchOverlay {
    const destinations: seq<string>
    var open: bool
    var destination: string
    var activity: string
    var month: string
    var alerts: seq<string>
    var scrollLocked: bool

    /** Every selection is one of its select's options. */
    predicate Valid()
      reads this
    {
      destination in destinations && activity in ActivityOptions && month in Months
    }

    /** The overlay as mounted over the catalogue's category names; each select on its first option. */
    constructor (names: seq<string>, open: bool)
      ensures destinations == Destinations(names)
      ensures destination == "All Destinations" && activity == "All activities" && month == "All months"
      ensures this.open == open && scrollLocked == open && alerts == []
      ensures Valid()
    {
      destinations := Destinations(names);
      this.open := open;
      destination := "All Destinations";
      activity := "All activities";
      month := "All months";
      alerts := [];
      scrollLocked := open;
    }

    /** The overlay renders its panel exactly when open. */
    function Renders(): bool
      reads this
    {
      open
    }

    /** The parent opens or closes the overlay; the scroll lock follows. */
    method SetOpen(b: bool)
      modifies this
      ensures open == b && scrollLocked == b
      ensures Renders() == b
      ensures destination == old(destination) && activity == old(activity) && month == old(month)
      ensures alerts == old(alerts)
    {
      open := b;
      scrollLocked := b;
    }

    /** A key press: Escape closes an open overlay; the listener is removed while closed. */
    method KeyDown(key: string)
      modifies this
      ensures open == (old(open) && key != "Escape")
      ensures key == "Escape" ==> !Renders()
      ensures scrollLocked == (if old(open) && key == "Escape" then false else old(scrollLocked))
      ensures destination == old(destination) && activity == old(activity) && month == old(month)
      ensures alerts == old(alerts)
    {
      if open && key == "Escape" {
        SetOpen(false);
      }
    }

    /** A click on the backdrop or on the Close button; there is neither while closed. */
    method ClickClose()
      modifies this
      ensures !open && !Renders()
      ensures scrollLocked == (if old(open) then false else old(scrollLocked))
      ensures destination == old(destination) && activity == old(activity) && month == old(month)
      ensures alerts == old(alerts)
    {
      if open {
        SetOpen(false);
      }
    }

    /** Submitting the form: the selections are shown, then the overlay closes. */
    method Submit()
      modifies this
      ensures old(open) ==> alerts == old(alerts) + [SearchMessage(destination, activity, month)]
      ensures !old(open) ==> alerts == old(alerts)
      ensures !open && !Renders()
      ensures scrollLocked == (if old(open) then false else old(scrollLocked))
      ensures destination == old(destination) && activity == old(activity) && month == old(month)
    {
      if open {
        alerts := alerts + [SearchMessage(destination, activity, month)];
        SetOpen(false);
      }
    }

    /** Choosing the `i`th destination option; only possible while open. */
    method SelectDestination(i: nat)
      requires i < |destinations|
      modifies this
      ensures destination == (if old(open) then destinations[i] else old(destination))
      ensures open == old(open) && scrollLocked == old(scrollLocked) && alerts == old(alerts)
      ensures activity == old(activity) && month == old(month)
      ensures old(Valid()) ==> Valid()
    {
      if open {
        destination := destinations[i];
      }
    }

    /** Choosing the `i`th activity option; only possible while open. */
    method SelectActivity(i: nat)
      requires i < |ActivityOptions|
      modifies this
      ensures activity == (if old(open) then ActivityOptions[i] else old(activity))
      ensures open == old(open) && scrollLocked == old(scrollLocked) && alerts == old(alerts)
      ensures destination == old(destination) && month == old(month)
      ensures old(Valid()) ==> Valid()
    {
      if open {
        activity := ActivityOptions[i];
      }
    }

    /** Choosing the `i`th month option; only possible while open. */
    method SelectMonth(i: nat)
      requires i < |Months|
      modifies this
      ensures month == (if old(open) then Months[i] else old(month))
      ensures open == old(open) && scrollLocked == old(scrollLocked) && alerts == old(alerts)
      ensures destination == old(destination) && activity == old(activity)
      ensures old(Valid()) ==> Valid()
    {
      if open {
        month := Months[i];
      }
    }
  }

  /** The month options are "All months" followed by the twelve calendar months, all distinct. */
  lemma MonthOptions()
    ensures |Months| == 13 && Months[0] == "All months" && Months[1] == "January" && Months[12] == "December"
    ensures Distinct(Months)
    ensures Distinct(ActivityOptions) && ActivityOptions[0] == "All activities"
  {
  }
}
