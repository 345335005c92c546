/** The three passenger tiers and their sign-up pricing policies.

    Standard and Gold passengers hold a balance and pay an effective cost
    (the listed cost, or 90% of it for Gold); they are debited only when
    the activity's own gate accepted them. Premium passengers pay nothing
    and only pass through the gate. Money is modelled as `real`. */
module Passengers {
  import opened Common
  import opened Identity
  import opened Activities

  /** The Gold tier's effective cost: the listed cost with a tenth taken
      off. For a non-negative cost it is never negative and never more than
      the listed cost. */
  function GoldPrice(cost: real): (r: real)
    ensures r == cost - cost / 10.0
    ensures cost >= 0.0 ==> 0.0 <= r <= cost
  {
    cost * 0.9
  }

  /** The state after a paying passenger's sign-up attempt: the activity,
      the passenger's balance and the boolean returned. */
  datatype Payment = Payment(activity: ActivityState, balance: real, ok: bool)

  /** `signUpForActivity` of a paying tier at effective cost `price`: the
      activity must be available and the pre-debit balance must cover the
      price before the activity's gate is even asked; the balance is
      debited only when that gate accepted. */
  function PaidSignUp(balance: real, price: real, s: ActivityState, id: PassengerId): (r: Payment)
    ensures r.ok ==> balance >= price && SignUpStep(s, id).ok
    ensures r.activity == (if r.ok then SignUpStep(s, id).next else s)
    ensures r.balance == (if r.ok then balance - price else balance)
    ensures balance >= 0.0 ==> r.balance >= 0.0
  {
    if Available(s) && balance >= price then
      var step := SignUpStep(s, id);
      if step.ok then Payment(step.next, balance - price, true)
      else Payment(s, balance, false)
    else
      Payment(s, balance, false)
  }

  /** When a paying passenger's sign-up succeeds: the activity has room,
      the passenger is not yet listed, and the balance covers the price. */
  lemma PaidSignUpGate(balance: real, price: real, s: ActivityState, id: PassengerId)
    ensures PaidSignUp(balance, price, s, id).ok <==>
      Available(s) && id !in s.signedUp && balance >= price
  {
  }

  /** A lower price never turns an accepted sign-up into a rejected one; so
      for a non-negative cost, whenever the Standard price is affordable the
      Gold price is too. */
  lemma CheaperNeverRejected(balance: real, cost: real, s: ActivityState, id: PassengerId)
    requires cost >= 0.0
    ensures PaidSignUp(balance, cost, s, id).ok ==> PaidSignUp(balance, GoldPrice(cost), s, id).ok
  {
  }

  class StandardPassenger {
    const name: string
    const number: string
    var balance: real

    constructor (name: string, number: string, balance: real)
      ensures this.name == name && this.number == number && this.balance == balance
    {
      this.name := name;
      this.number := number;
      this.balance := balance;
    }

    function Id(): PassengerId
    {
      PassengerId(Standard, number)
    }

    method SignUpForActivity(activity: Activity) returns (ok: bool)
      requires activity.Valid()
      modifies this, activity
      ensures activity.Valid()
      ensures var r := PaidSignUp(old(balance), old(activity.cost), old(activity.State()), Id());
        ok == r.ok && balance == r.balance && activity.State() == r.activity
    {
      if activity.IsAvailable() && balance >= activity.cost {
        ok := activity.SignUp(Id());
        if ok {
          balance := balance - activity.cost;
        }
      } else {
        ok := false;
      }
    }

    method SetBalance(b: real) returns (outcome: Outcome)
      modifies this
      ensures outcome.Pass? <==> b >= 0.0
      ensures outcome.Fail? ==> outcome.error == InvalidArgument("Balance cannot be negative")
      ensures balance == (if b >= 0.0 then b else old(balance))
    {
      if b < 0.0 {
        return Fail(InvalidArgument("Balance cannot be negative"));
      }
      balance := b;
      outcome := Pass;
    }
  }

  class GoldPassenger {
    const name: string
    const number: string
    var balance: real

    constructor (name: string, number: string, balance: real)
      ensures this.name == name && this.number == number && this.balance == balance
    {
      this.name := name;
      this.number := number;
      this.balance := balance;
    }

    function Id(): PassengerId
    {
      PassengerId(Gold, number)
    }

    method SignUpForActivity(activity: Activity) returns (ok: bool)
      requires activity.Valid()
      modifies this, activity
      ensures activity.Valid()
      ensures var r := PaidSignUp(old(balance), GoldPrice(old(activity.cost)), old(activity.State()), Id());
        ok == r.ok && balance == r.balance && activity.State() == r.activity
    {
      var discountedCost := activity.cost * 0.9;
      if activity.IsAvailable() && balance >= discountedCost {
        ok := activity.SignUp(Id());
        if ok {
          balance := balance - discountedCost;
        }
      } else {
        ok := false;
      }
    }

    method SetBalance(b: real) returns (outcome: Outcome)
      modifies this
      ensures outcome.Pass? <==> b >= 0.0
      ensures outcome.Fail? ==> outcome.error == InvalidArgument("Balance cannot be negative")
      ensures balance == (if b >= 0.0 then b else old(balance))
    {
      if b < 0.0 {
        return Fail(InvalidArgument("Balance cannot be negative"));
      }
      balance := b;
      outcome := Pass;
    }
  }

  class PremiumPassenger {
    const name: string
    const number: string

    constructor (name: string, number: string)
      ensures this.name == name && this.number == number
    {
      this.name := name;
      this.number := number;
    }

    function Id(): PassengerId
    {
      PassengerId(Premium, number)
    }

    /** Free of charge: the result is exactly the activity's own gate. */
    method SignUpForActivity(activity: Activity) returns (ok: bool)
      requires activity.Valid()
      modifies activity
      ensures activity.Valid()
      ensures Step(activity.State(), ok) == SignUpStep(old(activity.State()), Id())
    {
      ok := activity.SignUp(Id());
    }
  }
}
