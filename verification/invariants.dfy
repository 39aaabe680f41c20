/**
 The ledger's consistency conditions and which handler operations keep them.

 `Consistent` collects the ledger's intended invariants after every operation: one hash per
 member and none elsewhere, every set inside the ecosystem, the two direction sets and
 the two role sets disjoint, compromised addresses only-decreasing, well-formed ids and
 hashes, and the counter equal to the sum of balances.
 */
module Invariants {
  import opened Wrappers
  import opened Store
  import opened DatabaseHandler
  import opened Accounting

  /** No address is both only-decreasing and only-increasing. */
  predicate DirectionsExclusive(db: Db) {
    db.onlyDecreasing !! db.onlyIncreasing
  }

  /** No address is both a client-input and a client-output address. */
  predicate RolesExclusive(db: Db) {
    db.clientInput !! db.clientOutput
  }

  /** A hash as `store_new_address` writes it: non-negative balance and baseline, every field present. */
  predicate WellFormedHash(h: Hash) {
    h.balance >= 0 && h.baseline.Some? && h.baseline.value >= 0 && h.maxValue.Some?
  }

  /** Every consistency condition except the accounting one. */
  predicate Structured(db: Db) {
    && db.hashes.Keys == db.ecosystem
    && db.onlyDecreasing <= db.ecosystem
    && db.onlyIncreasing <= db.ecosystem
    && db.clientInput <= db.ecosystem
    && db.clientOutput <= db.ecosystem
    && db.compromised <= db.onlyDecreasing
    && DirectionsExclusive(db)
    && RolesExclusive(db)
    && (forall a | a in db.ecosystem :: |a| == AddressLength)
    && (forall a | a in db.hashes :: WellFormedHash(db.hashes[a]))
  }

  ghost predicate Consistent(db: Db) {
    Structured(db) && TotalsMatch(db)
  }

  /** `delete_database` on the test database leaves an empty, consistent ledger with every count at 0. */
  lemma ResetIsConsistent(db: Db)
    ensures DeleteDatabase(db, true).Success?
    ensures var r := DeleteDatabase(db, true).value;
      && Consistent(r)
      && TotalNumAddressesInEcosystem(r) == 0
      && TotalNumCompromisedAddresses(r) == 0
      && TotalNumClientOutputAddresses(r) == 0
      && forall a: Address :: GetAddressDataIfExists(r, a).None?
  {
    assert SumBalances(map[], {}) == 0;
  }

  /** Creating an address that is not yet a member keeps every consistency condition. */
  lemma CreateFreshPreservesConsistent(db: Db, address: Address, baseline: Option<int>, value: int,
                                       flags: Flags, maxValue: MaxValue)
    requires Consistent(db) && address !in db.ecosystem
    requires StoreNewAddress(db, address, baseline, value, flags, maxValue).Success?
    ensures Consistent(StoreNewAddress(db, address, baseline, value, flags, maxValue).value)
  {
    CreateFreshPreservesTotals(db, address, baseline, value, flags, maxValue);
    CreateFreshPreservesStructured(db, address, baseline, value, flags, maxValue);
  }

  lemma CreateFreshPreservesStructured(db: Db, address: Address, baseline: Option<int>, value: int,
                                       flags: Flags, maxValue: MaxValue)
    requires Structured(db) && address !in db.ecosystem
    requires StoreNewAddress(db, address, baseline, value, flags, maxValue).Success?
    ensures Structured(StoreNewAddress(db, address, baseline, value, flags, maxValue).value)
  {
    var r := StoreNewAddress(db, address, baseline, value, flags, maxValue).value;
    assert DirectionsExclusive(r) && RolesExclusive(r);
  }

  /** Every removal the guard lets through keeps every consistency condition. */
  lemma RemovePreservesConsistent(db: Db, address: Address)
    requires Consistent(db)
    requires RemoveAddressFromEcosystem(db, address).Success?
    ensures Consistent(RemoveAddressFromEcosystem(db, address).value)
  {
    var r := RemoveAddressFromEcosystem(db, address).value;
    assert r.ecosystem == Members(r, Ecosystem) && r.onlyDecreasing == Members(r, OnlyDecreasing);
    assert r.onlyIncreasing == Members(r, OnlyIncreasing) && r.compromised == Members(r, Compromised);
    assert r.clientInput == Members(r, ClientInput) && r.clientOutput == Members(r, ClientOutput);
    RemoveDrift(db, address);
  }

  /** Under the invariants, the removal guard passes exactly for empty addresses and client-output addresses. */
  lemma RemoveGuardOnConsistent(db: Db, address: Address)
    requires Consistent(db) && address in db.ecosystem
    ensures RemoveAddressFromEcosystem(db, address).Success?
            <==> db.hashes[address].balance == 0 || address in db.clientOutput
  {
  }

  /**
   Marking keeps the invariants exactly when the address is a member that is not
   only-increasing: the code never takes it out of only-increasing, and it adds non-members
   to sets outside the ecosystem.
   */
  lemma MarkPreservesConsistentIff(db: Db, address: Address)
    requires Consistent(db)
    ensures Consistent(MarkAddressAsCompromised(db, address))
            <==> address in db.ecosystem && address !in db.onlyIncreasing
  {
    var r := MarkAddressAsCompromised(db, address);
    assert Drift(r) == Drift(db);
    if address in db.onlyIncreasing {
      assert address in r.onlyDecreasing * r.onlyIncreasing;
    }
  }

  /** Marking an only-increasing address puts it in both direction sets. */
  lemma MarkDirectionsExclusiveIff(db: Db, address: Address)
    requires DirectionsExclusive(db)
    ensures DirectionsExclusive(MarkAddressAsCompromised(db, address)) <==> address !in db.onlyIncreasing
  {
    var r := MarkAddressAsCompromised(db, address);
    if address in db.onlyIncreasing {
      assert address in r.onlyDecreasing * r.onlyIncreasing;
    }
  }

  /** Marking twice is marking once. */
  lemma MarkIdempotent(db: Db, address: Address)
    ensures MarkAddressAsCompromised(MarkAddressAsCompromised(db, address), address)
            == MarkAddressAsCompromised(db, address)
  {
    var once := MarkAddressAsCompromised(db, address);
    var twice := MarkAddressAsCompromised(once, address);
    assert twice.onlyDecreasing == once.onlyDecreasing;
    assert twice.compromised == once.compromised;
  }

  /**
   Incrementing keeps the invariants exactly when the address is a member and the increment
   is 0: a non-member gets a hash outside the ecosystem, and a non-zero increment moves the
   sum of balances but not the counter.
   */
  lemma IncrementPreservesConsistentIff(db: Db, address: Address, delta: int)
    requires Consistent(db)
    ensures Consistent(IncrementValueAtAddress(db, address, delta)) <==> address in db.ecosystem && delta == 0
  {
    var r := IncrementValueAtAddress(db, address, delta);
    assert r.ecosystem == Members(r, Ecosystem) && r.onlyDecreasing == Members(r, OnlyDecreasing);
    assert r.onlyIncreasing == Members(r, OnlyIncreasing) && r.compromised == Members(r, Compromised);
    assert r.clientInput == Members(r, ClientInput) && r.clientOutput == Members(r, ClientOutput);
    IncrementDrift(db, address, delta);
    if address in db.ecosystem && delta == 0 {
      assert r.hashes == db.hashes;
    }
  }

  /** A new address lands in at most one direction set and at most one role set. */
  lemma CreateKeepsExclusive(db: Db, address: Address, baseline: Option<int>, value: int,
                             flags: Flags, maxValue: MaxValue)
    requires DirectionsExclusive(db) && RolesExclusive(db)
    requires address !in db.onlyDecreasing && address !in db.onlyIncreasing
    requires address !in db.clientInput && address !in db.clientOutput
    requires StoreNewAddress(db, address, baseline, value, flags, maxValue).Success?
    ensures var r := StoreNewAddress(db, address, baseline, value, flags, maxValue).value;
      DirectionsExclusive(r) && RolesExclusive(r)
  {
  }

  /**
   Re-creating an only-increasing member as only-decreasing leaves it in both direction
   sets: the code never clears the old membership.
   */
  lemma RecreateCanBreakDirections(db: Db, address: Address, baseline: Option<int>, value: int,
                                   flags: Flags, maxValue: MaxValue)
    requires address in db.onlyIncreasing && flags.isOnlyDecreasing
    requires StoreNewAddress(db, address, baseline, value, flags, maxValue).Success?
    ensures !DirectionsExclusive(StoreNewAddress(db, address, baseline, value, flags, maxValue).value)
  {
    var r := StoreNewAddress(db, address, baseline, value, flags, maxValue).value;
    assert address in r.onlyDecreasing * r.onlyIncreasing;
  }
}
