/**
 The read side of the handler: what the count getters, `total_value_in_ecosystem`,
 `get_address_data` and `get_address_data_if_exists` report after each mutation.
 */
module Queries {
  import opened Wrappers
  import opened Store
  import opened DatabaseHandler
  import opened Invariants

  /** The snapshot of an address no key mentions: every field absent, every flag false. */
  function Absent(address: Address): Snapshot {
    Snapshot(address, None, None, false, false, false, false, false, None)
  }

  /**
   Round trip: a new address in a consistent ledger reads back with exactly the fields it was
   created with, its direction and role flags as given, and not compromised.
   */
  lemma CreateThenRead(db: Db, address: Address, baseline: Option<int>, value: int, flags: Flags, maxValue: MaxValue)
    requires Structured(db) && address !in db.ecosystem
    requires StoreNewAddress(db, address, baseline, value, flags, maxValue).Success?
    ensures var r := StoreNewAddress(db, address, baseline, value, flags, maxValue).value;
      GetAddressDataIfExists(r, address)
      == Some(Snapshot(address, Some(value), baseline,
                       flags.isOnlyDecreasing, flags.isOnlyIncreasing,
                       flags.isForClientInput, flags.isForClientOutput,
                       false, Some(maxValue)))
  {
  }

  /** After a removal the address is reported absent, and a direct read finds nothing of it. */
  lemma RemoveThenRead(db: Db, address: Address)
    requires RemoveAddressFromEcosystem(db, address).Success?
    ensures var r := RemoveAddressFromEcosystem(db, address).value;
      GetAddressDataIfExists(r, address).None? && GetAddressData(r, address) == Absent(address)
  {
    var r := RemoveAddressFromEcosystem(db, address).value;
    assert r.ecosystem == Members(r, Ecosystem) && r.onlyDecreasing == Members(r, OnlyDecreasing);
    assert r.onlyIncreasing == Members(r, OnlyIncreasing) && r.compromised == Members(r, Compromised);
    assert r.clientInput == Members(r, ClientInput) && r.clientOutput == Members(r, ClientOutput);
  }

  /** Creating an address changes what reads report for no other address. */
  lemma CreateLeavesOthers(db: Db, address: Address, baseline: Option<int>, value: int, flags: Flags,
                           maxValue: MaxValue, other: Address)
    requires other != address
    requires StoreNewAddress(db, address, baseline, value, flags, maxValue).Success?
    ensures var r := StoreNewAddress(db, address, baseline, value, flags, maxValue).value;
      GetAddressData(r, other) == GetAddressData(db, other)
      && GetAddressDataIfExists(r, other) == GetAddressDataIfExists(db, other)
  {
  }

  /** Removing an address changes what reads report for no other address. */
  lemma RemoveLeavesOthers(db: Db, address: Address, other: Address)
    requires other != address
    requires RemoveAddressFromEcosystem(db, address).Success?
    ensures var r := RemoveAddressFromEcosystem(db, address).value;
      GetAddressData(r, other) == GetAddressData(db, other)
      && GetAddressDataIfExists(r, other) == GetAddressDataIfExists(db, other)
  {
    var r := RemoveAddressFromEcosystem(db, address).value;
    assert r.ecosystem == Members(r, Ecosystem) && r.onlyDecreasing == Members(r, OnlyDecreasing);
    assert r.onlyIncreasing == Members(r, OnlyIncreasing) && r.compromised == Members(r, Compromised);
    assert r.clientInput == Members(r, ClientInput) && r.clientOutput == Members(r, ClientOutput);
  }

  /** Incrementing changes only the balance read of its own address. */
  lemma IncrementReads(db: Db, address: Address, delta: int, other: Address)
    requires other != address
    ensures var r := IncrementValueAtAddress(db, address, delta);
      && GetAddressData(r, other) == GetAddressData(db, other)
      && GetAddressData(r, address).balance == Some(StoredBalance(db.hashes, address) + delta)
      && GetAddressData(r, address).(balance := None) == GetAddressData(db, address).(balance := None)
      && GetAddressDataIfExists(r, address).Some? == GetAddressDataIfExists(db, address).Some?
  {
    var r := IncrementValueAtAddress(db, address, delta);
    assert r.ecosystem == Members(r, Ecosystem) && r.onlyDecreasing == Members(r, OnlyDecreasing);
    assert r.onlyIncreasing == Members(r, OnlyIncreasing) && r.compromised == Members(r, Compromised);
    assert r.clientInput == Members(r, ClientInput) && r.clientOutput == Members(r, ClientOutput);
  }

  /**
   After marking, the address reads as only-decreasing and compromised whatever it was before,
   keeps its only-increasing flag, and no other address reads differently.
   */
  lemma MarkReads(db: Db, address: Address, other: Address)
    requires other != address
    ensures var r := MarkAddressAsCompromised(db, address);
      && GetAddressData(r, address)
         == GetAddressData(db, address).(isOnlyDecreasing := true, hasBeenCompromised := true)
      && GetAddressData(r, other) == GetAddressData(db, other)
  {
  }

  /** The counts and the total after a successful creation. */
  lemma CreateCounts(db: Db, address: Address, baseline: Option<int>, value: int, flags: Flags, maxValue: MaxValue)
    requires StoreNewAddress(db, address, baseline, value, flags, maxValue).Success?
    ensures var r := StoreNewAddress(db, address, baseline, value, flags, maxValue).value;
      && TotalNumAddressesInEcosystem(r)
         == TotalNumAddressesInEcosystem(db) + (if address in db.ecosystem then 0 else 1)
      && TotalNumClientOutputAddresses(r)
         == TotalNumClientOutputAddresses(db) + (if flags.isForClientOutput && address !in db.clientOutput then 1 else 0)
      && TotalNumCompromisedAddresses(r) == TotalNumCompromisedAddresses(db)
      && r.totalBalance.Some?
      && TotalValueInEcosystem(r) == db.totalBalance.GetOr(0) + value
  {
    var r := StoreNewAddress(db, address, baseline, value, flags, maxValue).value;
    SizeAfterAdd(db.ecosystem, address);
    if flags.isForClientOutput {
      assert r.clientOutput == db.clientOutput + {address};
      SizeAfterAdd(db.clientOutput, address);
    }
  }

  /** Adding an element grows a set by one exactly when it was missing. */
  lemma SizeAfterAdd(s: set<Address>, a: Address)
    ensures |s + {a}| == |s| + (if a in s then 0 else 1)
  {
    if a in s {
      assert s + {a} == s;
    }
  }

  /** The counts and the total after a successful removal. */
  lemma RemoveCounts(db: Db, address: Address)
    requires RemoveAddressFromEcosystem(db, address).Success?
    ensures var r := RemoveAddressFromEcosystem(db, address).value;
      && TotalNumAddressesInEcosystem(r)
         == TotalNumAddressesInEcosystem(db) - (if address in db.ecosystem then 1 else 0)
      && TotalNumClientOutputAddresses(r)
         == TotalNumClientOutputAddresses(db) - (if address in db.clientOutput then 1 else 0)
      && TotalNumCompromisedAddresses(r)
         == TotalNumCompromisedAddresses(db) - (if address in db.compromised then 1 else 0)
      && r.totalBalance.Some?
      && TotalValueInEcosystem(r) == db.totalBalance.GetOr(0) - StoredBalance(db.hashes, address)
  {
    var r := RemoveAddressFromEcosystem(db, address).value;
    assert r.ecosystem == Members(r, Ecosystem) && r.compromised == Members(r, Compromised);
    assert r.clientOutput == Members(r, ClientOutput);
  }

  /** Marking grows the compromised count by one unless the address was already compromised. */
  lemma MarkCounts(db: Db, address: Address)
    ensures var r := MarkAddressAsCompromised(db, address);
      && TotalNumCompromisedAddresses(r)
         == TotalNumCompromisedAddresses(db) + (if address in db.compromised then 0 else 1)
      && TotalNumAddressesInEcosystem(r) == TotalNumAddressesInEcosystem(db)
      && TotalNumClientOutputAddresses(r) == TotalNumClientOutputAddresses(db)
  {
    var r := MarkAddressAsCompromised(db, address);
    SizeAfterAdd(db.compromised, address);
  }

  /** Incrementing changes no count and not the counter. */
  lemma IncrementCounts(db: Db, address: Address, delta: int)
    ensures var r := IncrementValueAtAddress(db, address, delta);
      && TotalNumAddressesInEcosystem(r) == TotalNumAddressesInEcosystem(db)
      && TotalNumCompromisedAddresses(r) == TotalNumCompromisedAddresses(db)
      && TotalNumClientOutputAddresses(r) == TotalNumClientOutputAddresses(db)
      && r.totalBalance == db.totalBalance
  {
    var r := IncrementValueAtAddress(db, address, delta);
    assert r.ecosystem == Members(r, Ecosystem) && r.compromised == Members(r, Compromised);
    assert r.clientOutput == Members(r, ClientOutput);
  }

  /**
   The worked example: on an empty ledger, create a 10-character address with baseline 100 and
   value 50, increasing and client-input; the total is 50, the ecosystem has one address, and
   it reads back as client-input. A 9-character id is refused and changes nothing.
   */
  lemma ScenarioCreate()
    ensures var r := StoreNewAddress(Empty, "AAAAAAAAAA", Some(100), 50, Flags(false, true, true, false), Infinite);
      && r.Success?
      && TotalValueInEcosystem(r.value) == 50
      && TotalNumAddressesInEcosystem(r.value) == 1
      && GetAddressData(r.value, "AAAAAAAAAA").isForClientInput
    ensures StoreNewAddress(Empty, "AAAAAAAAA", Some(100), 50, Flags(false, true, true, false), Infinite)
            == Failure(ValueError(BadAddress("AAAAAAAAA")))
  {
    var r := StoreNewAddress(Empty, "AAAAAAAAAA", Some(100), 50, Flags(false, true, true, false), Infinite);
    assert r.value.ecosystem == {"AAAAAAAAAA"};
  }
}
