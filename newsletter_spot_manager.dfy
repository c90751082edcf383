/** `InMemoryNewsletterSpotManager`: the saga's reservation set of e-mail
    addresses with a nominal capacity of fifty. Only the subscribe step
    looks at the capacity; a reservation itself never checks it. */
module SpotManager {
  import opened Domain
  import opened SagaPorts

  const TOTAL_SPOTS: nat := 50

  class InMemoryNewsletterSpotManager {
    var spots: set<Email>

    constructor ()
      ensures spots == {}
    {
      spots := {};
    }

    /** `reserveSpot`: adds the address (a no-op when already there) and reports success. */
    method ReserveSpot(email: Email, log: SagaLog) returns (reserved: bool)
      modifies this, log
      ensures reserved
      ensures spots == old(spots) + {email}
      ensures log.calls == old(log.calls) + [SpotReserve(email)]
    {
      log.Record(SpotReserve(email));
      spots := spots + {email};
      reserved := true;
    }

    /** `releaseSpot`: removes the address; other addresses are untouched. */
    method ReleaseSpot(email: Email, log: SagaLog)
      modifies this, log
      ensures spots == old(spots) - {email}
      ensures log.calls == old(log.calls) + [SpotRelease(email)]
    {
      log.Record(SpotRelease(email));
      spots := spots - {email};
    }

    /** `hasAvailableSpots`: a read of the set size. */
    method HasAvailableSpots() returns (b: bool)
      ensures b <==> |spots| < TOTAL_SPOTS
    {
      b := |spots| < TOTAL_SPOTS;
    }
  }

  /** Reserving a fresh address and then releasing it restores the set, which
      is what the saga's compensation relies on. */
  lemma ReserveThenReleaseRestores(spots: set<Email>, email: Email)
    requires email !in spots
    ensures (spots + {email}) - {email} == spots
  {
  }

  /** Re-reserving an address already held changes nothing, and releasing
      one that is not held changes nothing. */
  lemma ReserveAndReleaseAreIdempotent(spots: set<Email>, email: Email)
    ensures email in spots ==> spots + {email} == spots
    ensures email !in spots ==> spots - {email} == spots
    ensures (spots - {email}) - {email} == spots - {email}
  {
  }

  /** The capacity is advisory: a full set still takes a fresh reservation. */
  lemma ReservationCanExceedCapacity(spots: set<Email>, email: Email)
    requires |spots| == TOTAL_SPOTS && email !in spots
    ensures |spots + {email}| == TOTAL_SPOTS + 1
  {
  }
}
