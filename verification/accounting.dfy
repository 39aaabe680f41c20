/**
 The total-balance counter against the balances it is meant to summarise.

 `Drift` is how far the counter is from the sum of the balances of the ecosystem's
 members. The ledger's intended invariants (`Invariants.Consistent`) include drift 0 after
 every operation; the lemmas here give the
 exact drift each operation introduces, which shows where that promise holds (creating
 a new address, removing a member) and where the code breaks it (incrementing a member,
 re-creating a member, removing a stray hash outside the ecosystem).
 */
module Accounting {
  import opened Wrappers
  import opened Store
  import opened DatabaseHandler

  /** Sum of the stored balances (0 for a missing hash) over a set of addresses. */
  ghost function SumBalances(hashes: map<Address, Hash>, s: set<Address>): int
    decreases s
  {
    if s == {} then 0
    else
      var a :| a in s;
      StoredBalance(hashes, a) + SumBalances(hashes, s - {a})
  }

  /** Counter minus the sum of the ecosystem's balances; an absent counter reads as 0. */
  ghost function Drift(db: Db): int {
    db.totalBalance.GetOr(0) - SumBalances(db.hashes, db.ecosystem)
  }

  /** The accounting invariant: the counter equals the sum of the ecosystem's balances. */
  ghost predicate TotalsMatch(db: Db) {
    Drift(db) == 0
  }

  /** Any member can be taken out of the sum first. */
  lemma {:induction false} SumRemove(hashes: map<Address, Hash>, s: set<Address>, a: Address)
    requires a in s
    ensures SumBalances(hashes, s) == StoredBalance(hashes, a) + SumBalances(hashes, s - {a})
    decreases s
  {
    var b :| b in s && SumBalances(hashes, s) == StoredBalance(hashes, b) + SumBalances(hashes, s - {b});
    if b != a {
      SumRemove(hashes, s - {b}, a);
      SumRemove(hashes, s - {a}, b);
      assert s - {b} - {a} == s - {a} - {b};
    }
  }

  /** The sum only depends on the balances of the addresses it ranges over. */
  lemma {:induction false} SumFrame(h1: map<Address, Hash>, h2: map<Address, Hash>, s: set<Address>)
    requires forall a | a in s :: StoredBalance(h1, a) == StoredBalance(h2, a)
    ensures SumBalances(h1, s) == SumBalances(h2, s)
    decreases s
  {
    if s != {} {
      var a :| a in s;
      SumRemove(h1, s, a);
      SumRemove(h2, s, a);
      SumFrame(h1, h2, s - {a});
    }
  }

  /**
   Creating an address keeps the drift when the address is new to the ecosystem, and
   raises it by the address's old balance when it is already a member: the code overwrites
   the hash but adds the new value to the counter without subtracting the old one.
   */
  lemma CreateDrift(db: Db, address: Address, baseline: Option<int>, value: int, flags: Flags, maxValue: MaxValue)
    requires StoreNewAddress(db, address, baseline, value, flags, maxValue).Success?
    ensures var r := StoreNewAddress(db, address, baseline, value, flags, maxValue).value;
      Drift(r) == Drift(db) + (if address in db.ecosystem then StoredBalance(db.hashes, address) else 0)
  {
    var r := StoreNewAddress(db, address, baseline, value, flags, maxValue).value;
    assert StoredBalance(r.hashes, address) == value;
    var rest := db.ecosystem - {address};
    SumFrame(db.hashes, r.hashes, rest);
    SumRemove(r.hashes, r.ecosystem, address);
    assert r.ecosystem - {address} == rest;
    if address in db.ecosystem {
      SumRemove(db.hashes, db.ecosystem, address);
    } else {
      assert rest == db.ecosystem;
    }
  }

  /**
   Removing a member keeps the drift. Removing an address outside the ecosystem whose hash
   exists anyway (HINCRBY creates one) still subtracts its balance from the counter.
   */
  lemma RemoveDrift(db: Db, address: Address)
    requires RemoveAddressFromEcosystem(db, address).Success?
    ensures var r := RemoveAddressFromEcosystem(db, address).value;
      Drift(r) == Drift(db) - (if address in db.ecosystem then 0 else StoredBalance(db.hashes, address))
  {
    var r := RemoveAddressFromEcosystem(db, address).value;
    assert r.ecosystem == Members(r, Ecosystem);
    var rest := db.ecosystem - {address};
    SumFrame(db.hashes, r.hashes, rest);
    if address in db.ecosystem {
      SumRemove(db.hashes, db.ecosystem, address);
    } else {
      assert rest == db.ecosystem;
    }
  }

  /**
   Incrementing a member's balance moves the sum but not the counter, so the drift falls
   by exactly the increment. Incrementing a non-member changes only a hash the sum ignores.
   */
  lemma IncrementDrift(db: Db, address: Address, delta: int)
    ensures var r := IncrementValueAtAddress(db, address, delta);
      Drift(r) == Drift(db) - (if address in db.ecosystem then delta else 0)
  {
    var r := IncrementValueAtAddress(db, address, delta);
    assert r.ecosystem == Members(r, Ecosystem);
    var rest := db.ecosystem - {address};
    SumFrame(db.hashes, r.hashes, rest);
    if address in db.ecosystem {
      SumRemove(db.hashes, db.ecosystem, address);
      SumRemove(r.hashes, r.ecosystem, address);
    } else {
      assert rest == db.ecosystem;
    }
  }

  /** Creating an address that is not yet a member keeps the counter equal to the sum. */
  lemma CreateFreshPreservesTotals(db: Db, address: Address, baseline: Option<int>, value: int,
                                   flags: Flags, maxValue: MaxValue)
    requires TotalsMatch(db) && address !in db.ecosystem
    requires StoreNewAddress(db, address, baseline, value, flags, maxValue).Success?
    ensures TotalsMatch(StoreNewAddress(db, address, baseline, value, flags, maxValue).value)
  {
    CreateDrift(db, address, baseline, value, flags, maxValue);
  }

  /** Re-creating a member with a non-zero balance breaks the invariant: its old balance stays counted. */
  lemma DuplicateCreateBreaksTotals(db: Db, address: Address, baseline: Option<int>, value: int,
                                    flags: Flags, maxValue: MaxValue)
    requires TotalsMatch(db) && address in db.ecosystem
    requires StoreNewAddress(db, address, baseline, value, flags, maxValue).Success?
    ensures TotalsMatch(StoreNewAddress(db, address, baseline, value, flags, maxValue).value)
            <==> StoredBalance(db.hashes, address) == 0
  {
    CreateDrift(db, address, baseline, value, flags, maxValue);
  }

  /** Removing a member keeps the counter equal to the sum. */
  lemma RemoveMemberPreservesTotals(db: Db, address: Address)
    requires TotalsMatch(db) && address in db.ecosystem
    requires RemoveAddressFromEcosystem(db, address).Success?
    ensures TotalsMatch(RemoveAddressFromEcosystem(db, address).value)
  {
    RemoveDrift(db, address);
  }

  /** Incrementing a member keeps the invariant only when the increment is 0. */
  lemma IncrementBreaksTotals(db: Db, address: Address, delta: int)
    requires TotalsMatch(db) && address in db.ecosystem
    ensures TotalsMatch(IncrementValueAtAddress(db, address, delta)) <==> delta == 0
  {
    IncrementDrift(db, address, delta);
  }

  /**
   A stray hash shifts the counter without any member changing: decrement an address that
   is not in an empty ecosystem by k, then remove it. The guard reads balance -k and lets the
   removal through, and the counter, which matched the empty sum before, ends at +k.
   */
  lemma StrayRemovalShiftsTotal(address: Address, k: int)
    requires k > 0
    ensures var d1 := IncrementValueAtAddress(Empty, address, -k);
      var r := RemoveAddressFromEcosystem(d1, address);
      && TotalsMatch(d1)
      && r.Success? && r.value.totalBalance == Some(k) && r.value.ecosystem == {}
      && !TotalsMatch(r.value)
  {
    var d1 := IncrementValueAtAddress(Empty, address, -k);
    assert SumBalances(d1.hashes, {}) == 0;
    var r := RemoveAddressFromEcosystem(d1, address);
    assert r.value.ecosystem == Members(r.value, Ecosystem);
    RemoveDrift(d1, address);
  }

  /** With the invariant in place, the counter read by `total_value_in_ecosystem` is the sum of the ecosystem's balances. */
  lemma TotalValueIsSumOfBalances(db: Db)
    requires TotalsMatch(db) && db.totalBalance.Some?
    ensures TotalValueInEcosystem(db) == SumBalances(db.hashes, db.ecosystem)
  {
  }
}
