/** A travel package: an itinerary of destinations and a roster of
    passengers bounded by the package capacity, plus the report of the
    activities that still have room. */
module Packages {
  import opened Common
  import opened Identity
  import opened Activities
  import opened Destinations

  /** One line of the available-activities report: where, which activity,
      and how many places it has left. */
  datatype Offer = Offer(destination: Destination, activity: Activity, spaces: Int32)

  /** The offer the report makes for an activity with room. */
  function OfferFor(d: Destination, a: Activity): Offer
    reads a
  {
    Offer(d, a, Spaces(a.State()))
  }

  /** Every activity listed anywhere in the itinerary `ds`. */
  ghost function ActivitiesOf(ds: seq<Destination>): set<Activity>
    reads set d | d in ds
  {
    set d, a | d in ds && a in d.activities :: a
  }

  /** The offers of destination `d` for the activities `acts`, in list order:
      exactly the available ones, each with its places left. */
  function DestinationOffers(d: Destination, acts: seq<Activity>): (r: seq<Offer>)
    reads set a | a in acts
    ensures forall o :: o in r ==> o.activity in acts && o.activity.IsAvailable() && o == OfferFor(d, o.activity)
    ensures forall a :: a in acts && a.IsAvailable() ==> OfferFor(d, a) in r
    decreases |acts|
  {
    if acts == [] then []
    else
      var last := acts[|acts| - 1];
      var rest := DestinationOffers(d, acts[..|acts| - 1]);
      assert forall a :: a in acts ==> a in acts[..|acts| - 1] || a == last;
      if last.IsAvailable() then rest + [OfferFor(d, last)] else rest
  }

  /** The available-activities report over the itinerary `ds`: destinations
      in itinerary order, each with its available activities in list order.
      An offer is made for an activity exactly when it is available. */
  function Offers(ds: seq<Destination>): (r: seq<Offer>)
    reads set d | d in ds
    reads ActivitiesOf(ds)
    ensures forall o :: o in r ==>
      o.destination in ds && o.activity in o.destination.activities &&
      o.activity.IsAvailable() && o == OfferFor(o.destination, o.activity)
    ensures forall d, a :: d in ds && a in d.activities && a.IsAvailable() ==> OfferFor(d, a) in r
    decreases |ds|
  {
    if ds == [] then []
    else
      var last := ds[|ds| - 1];
      assert forall d :: d in ds ==> d in ds[..|ds| - 1] || d == last;
      Offers(ds[..|ds| - 1]) + DestinationOffers(last, last.activities)
  }

  class TravelPackage {
    const name: string
    var capacity: Int32
    var itinerary: seq<Destination>
    var passengers: seq<PassengerId>

    /** The invariant every reachable package keeps: no passenger is on the
        roster twice. The capacity bound is preserved but not established,
        since the constructor accepts any capacity. */
    ghost predicate Valid()
      reads this
    {
      NoDuplicates(passengers)
    }

    constructor (name: string, capacity: Int32)
      ensures Valid()
      ensures this.name == name && this.capacity == capacity
      ensures itinerary == [] && passengers == []
    {
      this.name := name;
      this.capacity := capacity;
      this.itinerary := [];
      this.passengers := [];
    }

    /** Unconditional append: no capacity limit, no duplicate check. */
    method AddDestination(d: Destination)
      modifies this
      ensures itinerary == old(itinerary) + [d]
      ensures capacity == old(capacity) && passengers == old(passengers)
    {
      itinerary := itinerary + [d];
    }

    /** Enrols `p` when nobody equal to it is on the roster and the roster is
        below capacity; otherwise changes nothing. */
    method AddPassenger(p: PassengerId) returns (ok: bool)
      requires Valid()
      modifies this
      ensures Valid()
      ensures ok <==> p !in old(passengers) && |old(passengers)| < old(capacity)
      ensures passengers == (if ok then old(passengers) + [p] else old(passengers))
      ensures |old(passengers)| <= capacity ==> |passengers| <= capacity
      ensures capacity == old(capacity) && itinerary == old(itinerary)
    {
      if p !in passengers && |passengers| < capacity {
        passengers := passengers + [p];
        return true;
      }
      return false;
    }

    /** Refuses a capacity below the number of enrolled passengers, and so
        leaves the roster within capacity whenever it succeeds. */
    method SetCapacity(n: Int32) returns (outcome: Outcome)
      modifies this
      ensures outcome.Pass? <==> n >= |old(passengers)|
      ensures outcome.Fail? ==> outcome.error == InvalidArgument("Capacity cannot be less than the number of passengers")
      ensures capacity == (if outcome.Pass? then n else old(capacity))
      ensures outcome.Pass? ==> |passengers| <= capacity
      ensures passengers == old(passengers) && itinerary == old(itinerary)
    {
      if n < |passengers| {
        return Fail(InvalidArgument("Capacity cannot be less than the number of passengers"));
      }
      capacity := n;
      outcome := Pass;
    }

    /** `List.remove(Object)` with name equality: removes the first
        destination with the same name as `d` and reports whether there was
        one. */
    method RemoveDestination(d: Destination) returns (found: bool)
      modifies this
      ensures found <==> exists e :: e in old(itinerary) && SameDestination(e, d)
      ensures found ==> itinerary == RemoveAt(old(itinerary), FirstIndex(Names(old(itinerary)), d.name))
      ensures !found ==> itinerary == old(itinerary)
      ensures capacity == old(capacity) && passengers == old(passengers)
    {
      var i := FirstIndex(Names(itinerary), d.name);
      if i == -1 {
        assert forall e :: e in itinerary ==> !SameDestination(e, d) by {
          forall e | e in itinerary ensures !SameDestination(e, d) {
            var k :| 0 <= k < |itinerary| && itinerary[k] == e;
            assert Names(itinerary)[k] == e.name;
          }
        }
        return false;
      }
      assert SameDestination(itinerary[i], d);
      itinerary := RemoveAt(itinerary, i);
      return true;
    }

    /** `List.remove(Object)` with passenger equality: removes `p` from the
        roster and reports whether it was there. */
    method RemovePassenger(p: PassengerId) returns (found: bool)
      requires Valid()
      modifies this
      ensures Valid()
      ensures found <==> p in old(passengers)
      ensures found ==> passengers == RemoveAt(old(passengers), FirstIndex(old(passengers), p))
      ensures !found ==> passengers == old(passengers)
      ensures p !in passengers
      ensures capacity == old(capacity) && itinerary == old(itinerary)
    {
      var i := FirstIndex(passengers, p);
      if i == -1 {
        return false;
      }
      RemoveFirstOfDistinct(passengers, p);
      passengers := RemoveAt(passengers, i);
      return true;
    }

    /** The available-activities report: walks the itinerary and each
        destination's activities and collects one offer per activity that
        has room. */
    method AvailableActivities() returns (offers: seq<Offer>)
      ensures offers == Offers(itinerary)
    {
      offers := [];
      var i := 0;
      while i < |itinerary|
        invariant 0 <= i <= |itinerary|
        invariant offers == Offers(itinerary[..i])
      {
        var d := itinerary[i];
        var j := 0;
        while j < |d.activities|
          invariant 0 <= j <= |d.activities|
          invariant offers == Offers(itinerary[..i]) + DestinationOffers(d, d.activities[..j])
        {
          var a := d.activities[j];
          if a.IsAvailable() {
            offers := offers + [Offer(d, a, Wrap32(a.capacity - a.currentCount))];
          }
          assert d.activities[..j + 1][..j] == d.activities[..j];
          j := j + 1;
        }
        assert itinerary[..i + 1][..i] == itinerary[..i];
        assert d.activities[..j] == d.activities;
        i := i + 1;
      }
      assert itinerary[..i] == itinerary;
    }
  }
}
