/** Client code that walks through the scenarios of the repository's own
    test classes, using only the contracts of the model. Each assertion is
    a fact the verifier derives from those contracts. */
module Scenarios {
  import opened Common
  import opened Identity
  import opened Activities
  import opened Passengers
  import opened Destinations
  import opened Packages

  /** A Standard passenger with 500 pays the full 100; a Gold passenger with
      80 cannot cover the discounted 90 and is neither listed nor charged. */
  method DivingSignUps()
  {
    var diving := new Activity("Diving", "Scuba diving at the Great Barrier Reef", 100.0, 5);
    assert diving.IsAvailable();
    var john := new StandardPassenger("John Doe", "P123", 500.0);
    var ok := john.SignUpForActivity(diving);
    assert ok && john.balance == 400.0 && diving.currentCount == 1;
    assert diving.signedUp == [PassengerId(Standard, "P123")];

    var jane := new GoldPassenger("Jane Doe", "P456", 80.0);
    assert GoldPrice(100.0) == 90.0;
    ok := jane.SignUpForActivity(diving);
    assert !ok && jane.balance == 80.0 && diving.currentCount == 1;

    ok := diving.SignUp(PassengerId(Standard, "P123"));
    assert !ok;
  }

  /** A full activity turns away every tier. */
  method FullActivityRejectsEveryTier()
  {
    var surfing := new Activity("Surfing", "Surfing at Bali's beaches", 50.0, 1);
    var ok := surfing.SignUp(PassengerId(Standard, "P123"));
    assert ok && !surfing.IsAvailable();
    var standard := new StandardPassenger("Jane Doe", "P456", 500.0);
    var gold := new GoldPassenger("Jim Doe", "P789", 500.0);
    var premium := new PremiumPassenger("Joe Doe", "P000");
    ok := standard.SignUpForActivity(surfing);
    assert !ok && standard.balance == 500.0;
    ok := gold.SignUpForActivity(surfing);
    assert !ok && gold.balance == 500.0;
    ok := premium.SignUpForActivity(surfing);
    assert !ok && surfing.currentCount == 1;
  }

  /** The setters accept what keeps the invariants and refuse the rest with
      nothing changed; `setCurrentCount` leaves the count out of step with
      the list. A count equal to the capacity is accepted, although the
      repository's test of this sequence expects it to be refused. */
  method ActivitySetters()
  {
    var a := new Activity("Diving", "Scuba diving at the Great Barrier Reef", 100.0, 5);
    var ok := a.SignUp(PassengerId(Standard, "P123"));
    var r := a.SetCost(80.0);
    r := a.SetCapacity(10);
    r := a.SetCurrentCount(5);
    assert a.cost == 80.0 && a.capacity == 10 && a.currentCount == 5;
    assert a.currentCount != |a.signedUp|;
    r := a.SetCost(-100.0);
    assert r == Fail(InvalidArgument("Cost cannot be negative")) && a.cost == 80.0;
    r := a.SetCapacity(-5);
    assert r.Fail? && a.capacity == 10;
    r := a.SetCurrentCount(10);
    assert r == Pass && a.currentCount == 10;
    r := a.SetCurrentCount(11);
    assert r == Fail(InvalidArgument("Current count cannot exceed capacity")) && a.currentCount == 10;
    ok := a.SignUp(PassengerId(Standard, "P123"));
    assert !ok;
  }

  /** Adding an activity already listed lists it again. */
  method DuplicateActivityIsAppended()
  {
    var d := new Destination("Test Destination");
    var a1 := new Activity("Test Activity 1", "Test Description 1", 100.0, 5);
    var a2 := new Activity("Test Activity 2", "Test Description 2", 150.0, 10);
    d.AddActivity(a1);
    d.AddActivity(a2);
    d.AddActivity(a1);
    assert |d.activities| == 3;
    var other := new Destination("Test Destination");
    assert SameDestination(d, other) && other.activities == [];
  }

  /** Package capacity and roster round trips. */
  method PackageRoster()
  {
    var pkg := new TravelPackage("Summer Adventure", 1);
    var ok := pkg.AddPassenger(PassengerId(Gold, "12345"));
    assert ok;
    ok := pkg.AddPassenger(PassengerId(Premium, "67890"));
    assert !ok;
    var r := pkg.SetCapacity(0);
    assert r.Fail? && pkg.capacity == 1;
    r := pkg.SetCapacity(1);
    assert r == Pass;
    ok := pkg.RemovePassenger(PassengerId(Standard, "12345"));
    assert !ok && |pkg.passengers| == 1;
    ok := pkg.RemovePassenger(PassengerId(Gold, "12345"));
    assert ok && pkg.passengers == [];

    var paris := new Destination("Paris");
    pkg.AddDestination(paris);
    var alsoParis := new Destination("Paris");
    assert SameDestination(paris, alsoParis);
    ok := pkg.RemoveDestination(alsoParis);
    assert ok && pkg.itinerary == [];
  }

  /** The report lists an activity exactly while it has room. */
  method ReportFollowsAvailability()
  {
    var pkg := new TravelPackage("Summer Adventure", 10);
    var bali := new Destination("Bali");
    var surfing := new Activity("Surfing", "Surfing at Bali's beaches", 50.0, 1);
    bali.AddActivity(surfing);
    pkg.AddDestination(bali);
    var offers := pkg.AvailableActivities();
    assert OfferFor(bali, surfing) in offers;
    assert offers[0].spaces == 1;
    var ok := surfing.SignUp(PassengerId(Premium, "11121"));
    offers := pkg.AvailableActivities();
    assert offers == [];
  }
}
