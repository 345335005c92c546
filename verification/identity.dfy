/** Who a passenger is, for every list that records passengers.

    `Passenger.equals` accepts another passenger only when it has the same
    runtime class and the same passenger number, so the key that decides
    membership in a sign-up list or a package roster is the pair
    (tier, number), not the number alone. */
module Identity {

  /** The three concrete passenger classes. */
  datatype Tier = Standard | Gold | Premium

  datatype PassengerId = PassengerId(tier: Tier, number: string)

  /** Equality of identity keys: the same tier and the same number. */
  predicate SamePassenger(a: PassengerId, b: PassengerId)
    ensures SamePassenger(a, b) <==> a == b
  {
    a.tier == b.tier && a.number == b.number
  }

  /** A Standard and a Gold passenger that share a passenger number are two
      different passengers, and so are the other pairs of tiers. */
  lemma TierIsPartOfIdentity(number: string, t: Tier, u: Tier)
    requires t != u
    ensures !SamePassenger(PassengerId(t, number), PassengerId(u, number))
  {
  }
}
