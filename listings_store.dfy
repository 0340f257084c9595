/**
 * The in-memory listings store: the current listings, newest first, and the
 * set of listeners that are called after every addition.
 */
module ListingsStore {
  import opened Wrappers
  import opened Types

  /** What the create-listing form hands to the store. */
  datatype CreateListingFormData = CreateListingFormData(
    restaurantName: string,
    foodType: string,
    description: string,
    quantity: string,
    pickupWindowStart: string,
    pickupWindowEnd: string,
    address: string)

  /** The stored pickup time: the submitted start and end joined by `" - "`, not reformatted. */
  function PickupTime(start: string, end: string): string {
    start + " - " + end
  }

  /** Reads back a pickup time made of two five-character times. */
  function ParsePickupTime(p: string): Option<(string, string)> {
    if |p| == 13 && p[5..8] == " - " then Some((p[..5], p[8..])) else None
  }

  /** Two five-character times survive the trip through `PickupTime` unchanged, and nothing else parses. */
  lemma PickupTimeRoundTrip(start: string, end: string, p: string)
    ensures |start| == 5 && |end| == 5 ==> ParsePickupTime(PickupTime(start, end)) == Some((start, end))
    ensures ParsePickupTime(p) == Some((start, end)) ==> PickupTime(start, end) == p && |start| == 5 && |end| == 5
  {
    if |start| == 5 && |end| == 5 {
      var q := PickupTime(start, end);
      assert q[..5] == start && q[5..8] == " - " && q[8..] == end;
    }
    if ParsePickupTime(p) == Some((start, end)) {
      assert p == p[..5] + p[5..8] + p[8..];
    }
  }

  /** The five listings the store starts with. */
  function SeedListings(): seq<Listing> {
    [ Listing("1", "Green Leaf Cafe", "Salads and Sandwiches",
              "Freshly made salads and assorted sandwiches from today.", "Approx. 10-12 meals",
              "18:00 - 19:00", "123 Main St, Anytown",
              Some("https://picsum.photos/400/300?random=1"), Some("0.5 miles")),
      Listing("2", "The Daily Bread Bakery", "Assorted Breads and Pastries",
              "Sourdough, croissants, muffins. Baked fresh this morning.", "2 large boxes",
              "16:30 - 17:30", "456 Oak Ave, Anytown",
              Some("https://picsum.photos/400/300?random=2"), Some("1.2 miles")),
      Listing("3", "Pizza Palace", "Pepperoni and Veggie Pizzas",
              "Unsold pizzas from the lunch rush, still warm!", "5 large pizzas",
              "19:00 - 20:00 Suggested by AI", "789 Pine Rd, Anytown",
              Some("https://picsum.photos/400/300?random=3"), Some("2.5 miles")),
      Listing("4", "Mama Mia Pasta", "Pasta Dishes",
              "Generous portions of lasagna and spaghetti bolognese.", "Approx. 8-10 portions",
              "20:00 - 20:30", "101 Pasta Ln, Anytown",
              Some("https://picsum.photos/400/300?random=4"), Some("0.8 miles")),
      Listing("5", "Sushi Central", "Sushi Rolls and Nigiri",
              "Variety of sushi rolls and nigiri, made today.", "About 30-40 pieces",
              "21:00 - 21:30", "222 Fish St, Anytown",
              Some("https://picsum.photos/400/300?random=5"), Some("3.1 miles")) ]
  }

  function Ids(ls: seq<Listing>): (r: seq<string>)
    ensures |r| == |ls| && forall i :: 0 <= i < |ls| ==> r[i] == ls[i].id
  {
    if ls == [] then [] else [ls[0].id] + Ids(ls[1..])
  }

  /** The seed holds exactly five listings, with ids "1" to "5" in that order. */
  lemma SeedIds()
    ensures Ids(SeedListings()) == ["1", "2", "3", "4", "5"]
  {
  }

  /**
   * Four seeded pickup times have the `"{start} - {end}"` shape that additions
   * produce; the third carries a trailing note and does not.
   */
  lemma SeedPickupTimes()
    ensures forall i :: 0 <= i < 5 && i != 2 ==> ParsePickupTime(SeedListings()[i].pickupTime).Some?
    ensures ParsePickupTime(SeedListings()[2].pickupTime) == None
  {
  }

  /** A listener is known by its identity. */
  type Listener = nat

  /** The unsubscribe function `subscribe` returns; it remembers whom to remove. */
  datatype Unsubscribe = Unsubscribe(listener: Listener)

  class Store {
    /** The listings, newest first. */
    var listings: seq<Listing>
    /** The registered listeners (a set: registering twice registers once). */
    var listeners: set<Listener>
    /** How many times each listener that ever subscribed has been called. */
    ghost var calls: map<Listener, nat>

    ghost predicate Valid()
      reads this
    {
      listeners <= calls.Keys
    }

    /** A store holding the seed listings and no listeners. */
    constructor ()
      ensures Valid()
      ensures listings == SeedListings() && listeners == {} && calls == map[]
    {
      listings := SeedListings();
      listeners := {};
      calls := map[];
    }

    /** A copy of the current listings; nothing changes. */
    method GetListings() returns (r: seq<Listing>)
      ensures r == listings
    {
      r := listings;
    }

    /** Calls every registered listener exactly once; no other listener is called. */
    method NotifyListeners()
      requires Valid()
      modifies this`calls
      ensures Valid()
      ensures calls.Keys == old(calls.Keys)
      ensures forall l :: l in listeners ==> calls[l] == old(calls[l]) + 1
      ensures forall l :: l in calls && l !in listeners ==> calls[l] == old(calls[l])
    {
      var pending := listeners;
      while pending != {}
        invariant pending <= listeners
        invariant calls.Keys == old(calls.Keys)
        invariant forall l :: l in listeners && l !in pending ==> calls[l] == old(calls[l]) + 1
        invariant forall l :: l in calls && (l in pending || l !in listeners) ==> calls[l] == old(calls[l])
        decreases pending
      {
        var l :| l in pending;
        calls := calls[l := calls[l] + 1];
        pending := pending - {l};
      }
    }

    /**
     * Builds the listing from the payload, puts it in front of the others and
     * calls every listener once. `id`, `imageUrl` and `distance` are chosen by
     * the caller (in the application they are random).
     */
    method AddListing(payload: CreateListingFormData, id: string, imageUrl: string, distance: string)
      returns (r: Listing)
      requires Valid()
      modifies this
      ensures Valid()
      ensures r.id == id && r.imageUrl == Some(imageUrl) && r.distance == Some(distance)
      ensures r.restaurantName == payload.restaurantName && r.foodType == payload.foodType
      ensures r.description == payload.description && r.quantity == payload.quantity
      ensures r.address == payload.address
      ensures r.pickupTime == PickupTime(payload.pickupWindowStart, payload.pickupWindowEnd)
      ensures listings == [r] + old(listings)
      ensures listeners == old(listeners)
      ensures calls.Keys == old(calls.Keys)
      ensures forall l :: l in listeners ==> calls[l] == old(calls[l]) + 1
      ensures forall l :: l in calls && l !in listeners ==> calls[l] == old(calls[l])
    {
      r := Listing(id, payload.restaurantName, payload.foodType, payload.description, payload.quantity,
                   PickupTime(payload.pickupWindowStart, payload.pickupWindowEnd), payload.address,
                   Some(imageUrl), Some(distance));
      listings := [r] + listings;
      NotifyListeners();
    }

    /** Registers `l` (again, if it already is: a no-op) and returns the function that removes it. */
    method Subscribe(l: Listener) returns (u: Unsubscribe)
      requires Valid()
      modifies this
      ensures Valid()
      ensures u.listener == l
      ensures listeners == old(listeners) + {l}
      ensures listings == old(listings)
      ensures calls == if l in old(calls) then old(calls) else old(calls)[l := 0]
    {
      listeners := listeners + {l};
      if l !in calls {
        calls := calls[l := 0];
      }
      u := Unsubscribe(l);
    }

    /** Runs an unsubscribe function: removes its listener and no other. */
    method RunUnsubscribe(u: Unsubscribe)
      requires Valid()
      modifies this
      ensures Valid()
      ensures listeners == old(listeners) - {u.listener}
      ensures listings == old(listings) && calls == old(calls)
    {
      listeners := listeners - {u.listener};
    }
  }

  /** Subscribing the same listener twice leaves one registration, and unsubscribing twice is a no-op. */
  method SubscribeTwiceScenario(f: Listener) {
    var store := new Store();
    var u1 := store.Subscribe(f);
    var u2 := store.Subscribe(f);
    assert store.listeners == {f};
    store.RunUnsubscribe(u1);
    assert store.listeners == {};
    store.RunUnsubscribe(u2);
    assert store.listeners == {};
  }

  /**
   * A listener is called once per addition while subscribed and never after
   * unsubscribing; additions come out newest first.
   */
  method NotificationScenario(f: Listener, g: Listener, a: CreateListingFormData, b: CreateListingFormData)
    requires f != g
  {
    var store := new Store();
    var uf := store.Subscribe(f);
    var ug := store.Subscribe(g);
    var la := store.AddListing(a, "a", "img", "1.0 miles");
    var lb := store.AddListing(b, "b", "img", "2.0 miles");
    assert store.calls[f] == 2 && store.calls[g] == 2;
    var now := store.GetListings();
    assert now == [lb, la] + SeedListings();
    assert |now| == 7;
    store.RunUnsubscribe(uf);
    store.RunUnsubscribe(uf);
    var lc := store.AddListing(a, "c", "img", "3.0 miles");
    assert store.calls[f] == 2 && store.calls[g] == 3;
    assert lc.pickupTime == a.pickupWindowStart + " - " + a.pickupWindowEnd;
  }
}
