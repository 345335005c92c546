# Travel booking: sign-up and capacity accounting

A Dafny model of the in-memory core of a travel-booking program
(`src/Main.java`). It covers four parts:

- **Activity accounting.** An `Activity` has a cost, a capacity, a current count and a list of signed-up passengers. `signUp` is the single gate. It accepts a passenger only when the activity has room and the passenger is not yet listed. The setters for cost, capacity and count refuse values that would make the cost negative or the count exceed the capacity.
- **Passenger pricing.** There are three tiers, each with its own `signUpForActivity`:
  - Standard pays the listed cost.
  - Gold pays 90% of it.
  - Premium pays nothing.
  
  A paying passenger is checked against the pre-debit balance. The balance is debited only when the activity's own gate accepted.
- **Destinations.** A destination is a name plus an ordered activity list. Equality is by name alone.
- **Travel packages.** A package holds an itinerary of destinations and a roster of passengers bounded by the package capacity. It also offers a report of the activities that still have room.

Layout, one module per file:

| file | module | contents |
|---|---|---|
| `common.dfy` | `Common` | Java `int` (`Int32`, `Wrap32`), the `InvalidArgument` error, `Outcome`/`Result`, and the list search and removal behind `ArrayList.contains` / `remove(Object)` |
| `identity.dfy` | `Identity` | passenger identity key (tier, number) |
| `activities.dfy` | `Activities` | pure steps on `ActivityState`, the sign-up history lemma, and the class `Activity` |
| `passengers.dfy` | `Passengers` | Gold pricing, the paying-tier sign-up step, and the classes `StandardPassenger`, `GoldPassenger`, `PremiumPassenger` |
| `destinations.dfy` | `Destinations` | the class `Destination` and name equality |
| `packages.dfy` | `Packages` | the available-activities report and the class `TravelPackage` |
| `scenarios.dfy` | `Scenarios` | client methods that replay the repository's test scenarios against the contracts |

The state-changing classes follow the source. Every mutating method names what it `modifies` and states the whole new state. Where a pure model of the step exists, it also states that the new state equals that model applied to the old state:

- `SignUpStep`, `SetCostStep`, `SetCapacityStep` and `SetCountStep` for an activity;
- `PaidSignUp` for the Standard and Gold passengers.

The lemmas about sign-up histories, idempotence and the capacity invariant are proved about those pure steps.

Modelling choices:

- **Exceptions.** The setters throw `IllegalArgumentException` in the source. Here they return `Fail(InvalidArgument(message))` with the source's message, and the state is left unchanged.
- **Passenger lists hold identity keys.** An activity's sign-up list and a package's roster hold `PassengerId(tier, number)` keys, not passenger objects. `Passenger.equals` compares the runtime class and the passenger number, so `(tier, number)` is exactly the equality the lists use.
- **Class invariants.** Every `Activity` keeps its sign-up list free of repeats, and every `TravelPackage` keeps its roster free of repeats. The constructors establish this and every method preserves it. It appears as `Valid()`, and methods that rely on it require it.
- **The count is not tied to the list.** `currentCount == |signedUp|` is deliberately not an invariant, because `setCurrentCount` can break it (the scenario `ActivitySetters` does). It is proved only for histories made of the constructor and sign-ups (`SignUpHistory`).
- **No validation in constructors.** As in the source, a negative cost or capacity is accepted. So `count <= capacity` is stated as preserved by every operation, not as always true.
- **Tests that disagree with the code.** Two of the repository's hand-run tests expect behaviour the code does not have; the model follows the code:
  - `ActivityTest` calls `setCurrentCount(10)` on an activity of capacity 10 and expects an `IllegalArgumentException` (src/Main.java:756-761). The guard at line 78 refuses only a count above the capacity, so the call succeeds; the scenario `ActivitySetters` shows it accepted.
  - `DestinationTest` expects a duplicate `addActivity` to leave two entries (src/Main.java:824-829). The code appends it (line 118), and the model does too (`DuplicateActivityIsAppended` shows three entries).

## Model

| member | source | states |
|---|---|---|
| `Common.FirstIndex` | src/Main.java:396-402 | the search of `List.contains`/`remove(Object)`: -1 exactly when the element is absent, otherwise the position of its first occurrence |
| `Common.RemoveAt` | src/Main.java:396-402 | removing at a position keeps the elements before and after in order and removes exactly one occurrence of that element (multiset difference) |
| `Common.RemoveFirstOfDistinct` | src/Main.java:400-402 | on a roster without repeats, `remove(p)` leaves `p` absent and the roster still without repeats |
| `Common.RemoveUndoesAppend` | src/Main.java:358-364 | adding a passenger who was not enrolled and then removing that passenger restores the roster exactly |
| `Identity.SamePassenger` | src/Main.java:199-209 | passenger equality holds exactly when tier and number both match, i.e. when the identity keys are equal |
| `Identity.TierIsPartOfIdentity` | src/Main.java:204-208 | passengers of different tiers with the same number are never equal |
| `Activities.Spaces` | src/Main.java:415-425 | the report's places-left figure is capacity minus count for a bounded activity with a non-negative count, and positive for every such available activity |
| `Activities.SignUpStep` | src/Main.java:85-92 | acceptance implies room and a new passenger, who is then listed; a rejection changes nothing; the count never decreases and the list only grows; capacity invariant, count/list agreement and absence of repeats are all preserved |
| `Activities.SetCostStep` | src/Main.java:63-68 | succeeds exactly for a non-negative cost, setting only the cost; a negative cost is an `InvalidArgument` error with the source's message |
| `Activities.SetCapacityStep` | src/Main.java:70-75 | succeeds exactly when the capacity is at least the count, changing only the capacity and leaving the activity bounded; otherwise an `InvalidArgument` error with the source's message |
| `Activities.SetCountStep` | src/Main.java:77-82 | succeeds exactly when the count is at most the capacity, changing only the count and leaving the activity bounded; otherwise an `InvalidArgument` error with the source's message |
| `Activities.SettersKeepBounded` | src/Main.java:63-82 | every successful setter keeps `count <= capacity` |
| `Activities.SignUpGate` | src/Main.java:85-92 | `signUp` returns true exactly when the activity is available and the passenger is not listed; then the count grows by one and the passenger is appended |
| `Activities.SecondSignUpRejected` | src/Main.java:86-91 | a second sign-up of the same passenger returns false and leaves the state unchanged |
| `Activities.SignUpHistory` | src/Main.java:19-92 | after the constructor and any sequence of sign-ups the count equals the list length, the list has no repeats and only passengers who asked, it never exceeds a non-negative capacity, and anyone who asked but is not listed was turned away because the activity is full |
| `Activities.Activity.constructor` | src/Main.java:19-26 | a new activity has the given cost and capacity, count 0 and an empty list |
| `Activities.Activity.IsAvailable` | src/Main.java:29-31 | the query agrees with the model's availability (count below capacity) |
| `Activities.Activity.SetCost` | src/Main.java:63-68 | fails exactly for a negative cost, leaving every field unchanged; otherwise sets the cost only |
| `Activities.Activity.SetCapacity` | src/Main.java:70-75 | fails exactly when the new capacity is below the current count, leaving every field unchanged; otherwise sets the capacity only |
| `Activities.Activity.SetCurrentCount` | src/Main.java:77-82 | fails exactly when the new count exceeds capacity, leaving every field unchanged; otherwise sets the count only, the list untouched |
| `Activities.Activity.SignUp` | src/Main.java:85-92 | returns true exactly when there was room and the passenger was not listed; then the count grows by one and the passenger is appended, otherwise nothing changes; the list stays free of repeats |
| `Passengers.GoldPrice` | src/Main.java:280 | the Gold price is the cost less a tenth of it, and for a non-negative cost lies between 0 and the cost |
| `Passengers.PaidSignUp` | src/Main.java:237-243 | a paying sign-up succeeds only when the balance covers the price and the activity's gate accepts; the activity changes only on success; the balance is debited by the price on success and is unchanged otherwise; a non-negative balance stays non-negative |
| `Passengers.PaidSignUpGate` | src/Main.java:281 | a paying sign-up returns true exactly when the activity is available, the passenger is not listed and the pre-debit balance covers the effective cost |
| `Passengers.CheaperNeverRejected` | src/Main.java:279-286 | for a non-negative cost, every sign-up a Standard price allows the Gold price also allows |
| `Passengers.StandardPassenger.constructor` | src/Main.java:230-233 | name, number and balance are as given, unvalidated |
| `Passengers.StandardPassenger.SignUpForActivity` | src/Main.java:237-243 | result, new balance and new activity state are those of a paying sign-up at the full cost |
| `Passengers.StandardPassenger.SetBalance` | src/Main.java:251-256 | a negative balance is refused with the balance unchanged; otherwise the balance is set |
| `Passengers.GoldPassenger.constructor` | src/Main.java:272-275 | name, number and balance are as given, unvalidated |
| `Passengers.GoldPassenger.SignUpForActivity` | src/Main.java:279-286 | result, new balance and new activity state are those of a paying sign-up at 90% of the cost |
| `Passengers.GoldPassenger.SetBalance` | src/Main.java:294-299 | a negative balance is refused with the balance unchanged; otherwise the balance is set |
| `Passengers.PremiumPassenger.constructor` | src/Main.java:314-316 | name and number are as given |
| `Passengers.PremiumPassenger.SignUpForActivity` | src/Main.java:320-323 | returns exactly what the activity's gate returns, with the activity's step; the passenger itself is not modified |
| `Destinations.Destination.constructor` | src/Main.java:110-113 | a new destination has the given name and no activities |
| `Destinations.Destination.AddActivity` | src/Main.java:117-119 | appends with no duplicate check, so the list always grows by one |
| `Destinations.SameDestination` | src/Main.java:137-146 | equality by name only; a destination is always equal to itself |
| `Destinations.SameDestinationIsEquivalence` | src/Main.java:137-146 | name equality is reflexive, symmetric and transitive |
| `Packages.DestinationOffers` | src/Main.java:417-423 | the offers for one destination are exactly its available activities, each with its places left |
| `Packages.Offers` | src/Main.java:415-425 | every offer names an itinerary destination, one of its activities, which is available, and that activity's places left; every available activity of every itinerary destination is offered |
| `Packages.TravelPackage.constructor` | src/Main.java:345-350 | a new package has the given capacity and an empty itinerary and roster |
| `Packages.TravelPackage.AddDestination` | src/Main.java:354-356 | appends unconditionally, the roster and capacity untouched |
| `Packages.TravelPackage.AddPassenger` | src/Main.java:358-364 | returns true exactly when the passenger is not enrolled and the roster is below capacity; then appends, otherwise nothing changes; `|roster| <= capacity` is preserved and the roster stays free of repeats |
| `Packages.TravelPackage.SetCapacity` | src/Main.java:389-394 | fails exactly when the new capacity is below the roster size (so equal succeeds), leaving the capacity unchanged; on success the roster fits |
| `Packages.TravelPackage.RemoveDestination` | src/Main.java:396-398 | returns whether some destination has the same name; if so the first such one is removed and the rest keeps its order, otherwise nothing changes |
| `Packages.TravelPackage.RemovePassenger` | src/Main.java:400-402 | returns whether the passenger was enrolled; removes its entry, after which it is no longer on the roster, otherwise nothing changes |
| `Packages.TravelPackage.AvailableActivities` | src/Main.java:415-425 | the nested walk over itinerary and activities yields exactly the report `Offers` of the itinerary, in itinerary then activity order |

## Left out

- Printing: `printActivityDetails`, `printItinerary`, `printPassengerDetails` and its overrides, `printPassengerList`, and the console output of `printAvailableActivities` are console I/O. The report is modelled as the list of (destination, activity, places left) it prints.
- `Main.main` and the test classes are demo wiring and hand-run checks. Their scenarios are replayed as verified client code in `scenarios.dfy`.
- `hashCode` relies on a library hash whose only contract is consistency with `equals`.
- Floating point: cost and balance are `double` in the source and `real` here, so the Gold price is exactly 90% of the cost. The source's rounding is not reproduced.
- The name, description and passenger-number setters and `Destination.setName` are left out. Those fields are constant after construction, which also keeps the identity keys of stored elements fixed. Getters are plain field reads.
- Object aliasing of passengers: lists record passenger identity keys, not references to passenger objects. A passenger's balance lives only in its own object.
- `null`: Dafny references and strings are never null, so `equals(null)` and null names or numbers are not modelled.
- 32-bit `int`: capacities and counts are Java `int` values. An increment after the availability check cannot overflow. The report's places-left figure uses wrapping subtraction, which only differs from the true difference after `setCurrentCount` stored a negative count.
