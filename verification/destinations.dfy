/** A destination: a name, which alone decides equality, and the ordered
    list of activities offered there. */
module Destinations {
  import opened Activities

  class Destination {
    const name: string
    var activities: seq<Activity>

    constructor (name: string)
      ensures this.name == name && activities == []
    {
      this.name := name;
      this.activities := [];
    }

    /** Appends with no duplicate check: adding an activity that is already
        listed lists it a second time. */
    method AddActivity(a: Activity)
      modifies this
      ensures activities == old(activities) + [a]
      ensures |activities| == |old(activities)| + 1
    {
      activities := activities + [a];
    }
  }

  /** `Destination.equals`: two destinations are equal when their names are,
      whatever activities each offers; the same object is always equal to
      itself. */
  predicate SameDestination(a: Destination, b: Destination)
    ensures a == b ==> SameDestination(a, b)
  {
    a.name == b.name
  }

  /** The equality is an equivalence relation, so it can serve as a key. */
  lemma SameDestinationIsEquivalence(a: Destination, b: Destination, c: Destination)
    ensures SameDestination(a, a)
    ensures SameDestination(a, b) ==> SameDestination(b, a)
    ensures SameDestination(a, b) && SameDestination(b, c) ==> SameDestination(a, c)
  {
  }

  /** The keys an itinerary is searched by. */
  function Names(ds: seq<Destination>): (r: seq<string>)
    ensures |r| == |ds|
    ensures forall i :: 0 <= i < |ds| ==> r[i] == ds[i].name
  {
    seq(|ds|, i requires 0 <= i < |ds| => ds[i].name)
  }
}
