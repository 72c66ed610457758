/**
 * The wishlist page: the saved tours, loaded from and mirrored to the browser's local storage
 * under the key `ecoventure-wishlist`.
 *
 * The stored text is abstracted: `SavedList(items)` is the JSON serialisation of a list of
 * items, `OtherText(raw)` any text that does not parse as such a list.
 */
module Wishlist {
  import opened Wrappers
  import opened Seqs
  import opened Strings

  /** A saved tour, as the page uses it. */
  datatype WishItem = WishItem(id: string, name: string, image: string, days: int, price: real,
                               oldPrice: Option<real>)

  datatype Saved = SavedList(items: seq<WishItem>) | OtherText(raw: string)

  const StorageKey := "ecoventure-wishlist"

  /** `wishlist.filter(item => item.id !== tourId)`. */
  function RemoveId(items: seq<WishItem>, id: string): (r: seq<WishItem>)
    ensures forall x :: x in r <==> x in items && x.id != id
    ensures (forall x :: x in items ==> x.id != id) ==> r == items
  {
    if items == [] then []
    else
      var rest := RemoveId(items[1..], id);
      assert forall x :: x in items <==> x == items[0] || x in items[1..];
      if items[0].id == id then rest
      else
        assert [items[0]] + items[1..] == items;
        [items[0]] + rest
  }

  lemma {:induction false} RemoveIdIsSubsequence(items: seq<WishItem>, id: string)
    ensures IsSubsequence(RemoveId(items, id), items)
  {
    if items != [] {
      RemoveIdIsSubsequence(items[1..], id);
      var rest := RemoveId(items[1..], id);
      assert [items[0]] + items[1..] == items;
      if items[0].id == id {
        SubsequenceCons(items[0], rest, items[1..]);
      } else {
        assert ([items[0]] + rest)[1..] == rest;
      }
    }
  }

  /** The list the mount effect leaves: a stored list replaces it; anything else leaves it. */
  function Loaded(current: seq<WishItem>, saved: Option<Saved>): (r: seq<WishItem>)
    ensures saved.Some? && saved.value.SavedList? ==> r == saved.value.items
    ensures saved.None? || saved.value.OtherText? ==> r == current
  {
    match saved
    case Some(SavedList(items)) => items
    case _ => current
  }

  /** `{n} tour{n !== 1 ? 's' : ''} saved`. */
  function CountLabel(n: nat): (r: string)
    ensures n == 1 ==> r == "1 tour saved"
    ensures n != 1 ==> r == NatToString(n) + " tours saved"
  {
    NatToString(n) + " tour" + (if n != 1 then "s" else "") + " saved"
  }

  /**
   * The wishlist card shows a struck-through old price whenever one is present
   * (`typeof tour.oldPrice === "number"`; a missing or `null` old price is no number).
   */
  predicate HasOffer(item: WishItem) { item.oldPrice.Some? }

  /**
   * Any number counts as an offer on the wishlist card, zero and negative ones included, and
   * the current price plays no part; the activities page asks for a positive number instead.
   */
  lemma CardOfferRules(item: WishItem)
    ensures HasOffer(item) <==> exists p: real :: item.oldPrice == Some(p)
    ensures item.oldPrice == Some(0.0) ==> HasOffer(item)
    ensures forall price: real :: HasOffer(item) <==> HasOffer(item.(price := price))
  {
    if HasOffer(item) {
      var p := item.oldPrice.value;
      assert item.oldPrice == Some(p);
    } else {
      assert item.oldPrice == None;
    }
  }

  class WishlistPage {
    var items: seq<WishItem>
    var storage: map<string, Saved>

    /** The page as first rendered: an empty list over the given storage. */
    constructor (storage: map<string, Saved>)
      ensures items == [] && this.storage == storage
    {
      items := [];
      this.storage := storage;
    }

    /** The mount effect. */
    method Load()
      modifies this
      ensures storage == old(storage)
      ensures items == Loaded(old(items), if StorageKey in storage then Some(storage[StorageKey]) else None)
    {
      if StorageKey in storage {
        match storage[StorageKey]
        case SavedList(saved) =>
          items := saved;
        case OtherText(_) =>
      }
    }

    /** `removeFromWishlist(tourId)`: the list without that id, written back to storage. */
    method Remove(tourId: string)
      modifies this
      ensures items == RemoveId(old(items), tourId)
      ensures storage == old(storage)[StorageKey := SavedList(items)]
    {
      var updated := RemoveId(items, tourId);
      items := updated;
      storage := storage[StorageKey := SavedList(updated)];
    }

    /** `clearWishlist()`: an empty list and no stored entry. */
    method Clear()
      modifies this
      ensures items == []
      ensures storage == old(storage) - {StorageKey}
      ensures StorageKey !in storage
    {
      items := [];
      storage := storage - {StorageKey};
    }
  }

  /**
   * Removing an id leaves no item with that id, keeps every other item in its order, and
   * leaves the list as it is when the id is absent; removing twice is removing once.
   */
  lemma RemoveProperties(items: seq<WishItem>, id: string)
    ensures forall x :: x in RemoveId(items, id) ==> x.id != id
    ensures IsSubsequence(RemoveId(items, id), items)
    ensures forall x :: x in items && x.id != id ==> x in RemoveId(items, id)
    ensures RemoveId(RemoveId(items, id), id) == RemoveId(items, id)
  {
    RemoveIdIsSubsequence(items, id);
  }

  /** What `Remove` writes is what the next page load reads back. */
  lemma RemoveThenReload(items: seq<WishItem>, storage: map<string, Saved>, id: string, current: seq<WishItem>)
    ensures var s := storage[StorageKey := SavedList(RemoveId(items, id))];
      Loaded(current, Some(s[StorageKey])) == RemoveId(items, id)
  {
  }

  /** After clearing, the next page load starts from the empty list. */
  lemma ClearThenReload(storage: map<string, Saved>)
    ensures var s := storage - {StorageKey};
      Loaded([], if StorageKey in s then Some(s[StorageKey]) else None) == []
  {
  }

  /** After the number, the label reads "tours" exactly when the count is not one. */
  lemma PluralIffNotOne(n: nat)
    ensures var text := CountLabel(n);
      |text| > |NatToString(n)| && (n != 1 <==> StartsWith(text[|NatToString(n)|..], " tours"))
  {
    var d := NatToString(n);
    var text := CountLabel(n);
    var tail := text[|d|..];
    assert tail == " tour" + (if n != 1 then "s" else "") + " saved";
    if n != 1 {
      assert tail == " tours saved" && tail[..6] == " tours";
    } else {
      assert tail == " tour saved" && tail[5] == ' ';
    }
  }
}
