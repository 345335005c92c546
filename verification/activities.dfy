/** Capacity accounting for one activity: the sign-up gate and the guarded
    setters, first as pure steps on an `ActivityState`, then as the class
    `Activity` whose methods are proved to take exactly those steps. */
module Activities {
  import opened Common
  import opened Identity

  /** The fields of an activity that its operations read and change. The
      count is a field of its own: `setCurrentCount` can move it away from
      the length of the list. */
  datatype ActivityState = ActivityState(
    cost: real,
    capacity: Int32,
    count: Int32,
    signedUp: seq<PassengerId>)

  /** The outcome of a sign-up attempt: the state afterwards and the boolean
      `signUp` returns. */
  datatype Step = Step(next: ActivityState, ok: bool)

  /** A freshly constructed activity. The constructor validates nothing, so
      a negative cost or capacity is accepted as given. */
  function Initial(cost: real, capacity: Int32): ActivityState
  {
    ActivityState(cost, capacity, 0, [])
  }

  /** `isAvailable`: there is room for one more. */
  predicate Available(s: ActivityState)
  {
    s.count < s.capacity
  }

  /** The capacity invariant the setters and the gate defend. */
  predicate Bounded(s: ActivityState)
  {
    s.count <= s.capacity
  }

  /** The count agrees with the list; true along every history made of the
      constructor and sign-ups, but not a class invariant. */
  predicate Tracked(s: ActivityState)
  {
    s.count == |s.signedUp|
  }

  /** Places left, as the available-activities report computes them with
      Java `int` subtraction. For an available activity whose count was
      never set negative it is the true, positive number of places left. */
  function Spaces(s: ActivityState): (r: Int32)
    ensures 0 <= s.count <= s.capacity ==> r == s.capacity - s.count
    ensures 0 <= s.count && Available(s) ==> r > 0
  {
    Wrap32(s.capacity - s.count)
  }

  /** `signUp(p)`: the single gate for capacity and duplicate enrolment. */
  function SignUpStep(s: ActivityState, p: PassengerId): (r: Step)
    ensures r.ok ==> Available(s) && p !in s.signedUp
    ensures r.ok ==> p in r.next.signedUp
    ensures !r.ok ==> r.next == s
    ensures r.next.cost == s.cost && r.next.capacity == s.capacity
    ensures r.next.count >= s.count && s.signedUp <= r.next.signedUp
    ensures Bounded(s) ==> Bounded(r.next)
    ensures Tracked(s) ==> Tracked(r.next)
    ensures NoDuplicates(s.signedUp) ==> NoDuplicates(r.next.signedUp)
  {
    if Available(s) && p !in s.signedUp then
      Step(ActivityState(s.cost, s.capacity, s.count + 1, s.signedUp + [p]), true)
    else
      Step(s, false)
  }

  /** `setCost(c)`: a negative cost is refused. */
  function SetCostStep(s: ActivityState, c: real): (r: Result<ActivityState>)
    ensures r.Ok? <==> c >= 0.0
    ensures r.Ok? ==> r.value.cost >= 0.0 && r.value == s.(cost := c)
    ensures r.Err? ==> r.error == InvalidArgument("Cost cannot be negative")
  {
    if c < 0.0 then Err(InvalidArgument("Cost cannot be negative"))
    else Ok(s.(cost := c))
  }

  /** `setCapacity(n)`: a capacity below the current count is refused, so a
      successful call leaves the activity bounded whatever it was before. */
  function SetCapacityStep(s: ActivityState, n: Int32): (r: Result<ActivityState>)
    ensures r.Ok? <==> n >= s.count
    ensures r.Ok? ==> Bounded(r.value) && r.value == s.(capacity := n)
    ensures r.Err? ==> r.error == InvalidArgument("Capacity cannot be less than current count")
  {
    if n < s.count then Err(InvalidArgument("Capacity cannot be less than current count"))
    else Ok(s.(capacity := n))
  }

  /** `setCurrentCount(n)`: a count above the capacity is refused. The list
      of signed-up passengers is not touched, so the count may stop matching
      it. */
  function SetCountStep(s: ActivityState, n: Int32): (r: Result<ActivityState>)
    ensures r.Ok? <==> n <= s.capacity
    ensures r.Ok? ==> Bounded(r.value) && r.value == s.(count := n)
    ensures r.Err? ==> r.error == InvalidArgument("Current count cannot exceed capacity")
  {
    if n > s.capacity then Err(InvalidArgument("Current count cannot exceed capacity"))
    else Ok(s.(count := n))
  }

  /** Every setter that succeeds keeps the capacity invariant, and one that
      fails leaves nothing to keep; together with `SignUpStep` this makes
      `count <= capacity` hold after any call on a bounded activity. */
  lemma SettersKeepBounded(s: ActivityState, c: real, n: Int32)
    requires Bounded(s)
    ensures SetCostStep(s, c).Ok? ==> Bounded(SetCostStep(s, c).value)
    ensures SetCapacityStep(s, n).Ok? ==> Bounded(SetCapacityStep(s, n).value)
    ensures SetCountStep(s, n).Ok? ==> Bounded(SetCountStep(s, n).value)
  {
  }

  /** The sign-up gate, stated as the boolean `signUp` returns: true exactly
      when the activity has room and the passenger is not yet listed; then
      the count grows by one and the passenger is appended. */
  lemma SignUpGate(s: ActivityState, p: PassengerId)
    ensures SignUpStep(s, p).ok <==> Available(s) && p !in s.signedUp
    ensures SignUpStep(s, p).ok ==>
      SignUpStep(s, p).next.count == s.count + 1 &&
      SignUpStep(s, p).next.signedUp == s.signedUp + [p]
  {
  }

  /** Signing up the same passenger twice succeeds at most once: the second
      attempt returns false and changes nothing. */
  lemma SecondSignUpRejected(s: ActivityState, p: PassengerId)
    ensures var first := SignUpStep(s, p);
      !SignUpStep(first.next, p).ok && SignUpStep(first.next, p).next == first.next
  {
  }

  /** The state reached from `s` by the sign-up attempts `ps`, in order. */
  function Replay(s: ActivityState, ps: seq<PassengerId>): ActivityState
    decreases |ps|
  {
    if ps == [] then s
    else SignUpStep(Replay(s, ps[..|ps| - 1]), ps[|ps| - 1]).next
  }

  /** Any history made of the constructor and sign-ups: the count equals the
      length of the list, the list holds each passenger once and only
      passengers who asked, it never exceeds a non-negative capacity, and
      a passenger who asked but is not listed was turned away because the
      activity is full. */
  lemma {:induction false} SignUpHistory(cost: real, capacity: Int32, ps: seq<PassengerId>)
    ensures var r := Replay(Initial(cost, capacity), ps);
      && r.cost == cost && r.capacity == capacity
      && Tracked(r)
      && NoDuplicates(r.signedUp)
      && (capacity >= 0 ==> Bounded(r))
      && (forall p :: p in r.signedUp ==> p in ps)
      && (forall p :: p in ps && p !in r.signedUp ==> !Available(r))
  {
    if ps != [] {
      var before := ps[..|ps| - 1];
      var p := ps[|ps| - 1];
      SignUpHistory(cost, capacity, before);
      assert ps == before + [p];
    }
  }

  /** An activity of the booking system. Name and description are fixed at
      construction; cost, capacity, count and the sign-up list change only
      through the guarded operations below. */
  class Activity {
    const name: string
    const description: string
    var cost: real
    var capacity: Int32
    var currentCount: Int32
    var signedUp: seq<PassengerId>

    /** The one invariant every reachable activity keeps: no passenger is
        listed twice. */
    ghost predicate Valid()
      reads this
    {
      NoDuplicates(signedUp)
    }

    function State(): ActivityState
      reads this
    {
      ActivityState(cost, capacity, currentCount, signedUp)
    }

    constructor (name: string, description: string, cost: real, capacity: Int32)
      ensures Valid()
      ensures this.name == name && this.description == description
      ensures State() == Initial(cost, capacity)
    {
      this.name := name;
      this.description := description;
      this.cost := cost;
      this.capacity := capacity;
      this.currentCount := 0;
      this.signedUp := [];
    }

    predicate IsAvailable()
      reads this
      ensures IsAvailable() <==> Available(State())
    {
      currentCount < capacity
    }

    method SetCost(c: real) returns (outcome: Outcome)
      requires Valid()
      modifies this
      ensures Valid()
      ensures outcome.Pass? <==> c >= 0.0
      ensures cost == (if c >= 0.0 then c else old(cost))
      ensures capacity == old(capacity) && currentCount == old(currentCount) && signedUp == old(signedUp)
      ensures Applied(outcome, SetCostStep(old(State()), c), old(State()), State())
    {
      if c < 0.0 {
        return Fail(InvalidArgument("Cost cannot be negative"));
      }
      cost := c;
      outcome := Pass;
    }

    method SetCapacity(n: Int32) returns (outcome: Outcome)
      requires Valid()
      modifies this
      ensures Valid()
      ensures outcome.Pass? <==> n >= old(currentCount)
      ensures capacity == (if n >= old(currentCount) then n else old(capacity))
      ensures cost == old(cost) && currentCount == old(currentCount) && signedUp == old(signedUp)
      ensures Applied(outcome, SetCapacityStep(old(State()), n), old(State()), State())
    {
      if n < currentCount {
        return Fail(InvalidArgument("Capacity cannot be less than current count"));
      }
      capacity := n;
      outcome := Pass;
    }

    method SetCurrentCount(n: Int32) returns (outcome: Outcome)
      requires Valid()
      modifies this
      ensures Valid()
      ensures outcome.Pass? <==> n <= old(capacity)
      ensures currentCount == (if n <= old(capacity) then n else old(currentCount))
      ensures cost == old(cost) && capacity == old(capacity) && signedUp == old(signedUp)
      ensures Applied(outcome, SetCountStep(old(State()), n), old(State()), State())
    {
      if n > capacity {
        return Fail(InvalidArgument("Current count cannot exceed capacity"));
      }
      currentCount := n;
      outcome := Pass;
    }

    method SignUp(p: PassengerId) returns (ok: bool)
      requires Valid()
      modifies this
      ensures Valid()
      ensures ok <==> old(currentCount < capacity) && p !in old(signedUp)
      ensures ok ==> currentCount == old(currentCount) + 1 && signedUp == old(signedUp) + [p]
      ensures !ok ==> currentCount == old(currentCount) && signedUp == old(signedUp)
      ensures cost == old(cost) && capacity == old(capacity)
      ensures Step(State(), ok) == SignUpStep(old(State()), p)
    {
      if IsAvailable() && p !in signedUp {
        currentCount := currentCount + 1;
        signedUp := signedUp + [p];
        return true;
      }
      return false;
    }
  }
}
