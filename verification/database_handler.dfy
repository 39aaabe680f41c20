/**
 The address-ledger operations of `DatabaseHandler`, as pure members over the ledger state.
 The methods that can raise (the four create methods, removal and `DeleteDatabase`) return a
 `Result`: validation happens before any command is queued, so a rejected call issues no
 pipeline, and an accepted call executes its whole pipeline as one atomic step. Increment and
 mark-compromised never raise and return the new state; the getters return plain values or an
 `Option`; the random sampler is a method, because it makes an arbitrary choice.
 */
module DatabaseHandler {
  import opened Wrappers
  import opened Store

  /**
   The exceptions the handler raises: `ValueError` for every rejected argument, the `assert`
   on a missing baseline, and `PermissionError` when clearing a live database. A `ValueError`
   carries which `raise` produced it; `Message` gives the text that raise uses.
   */
  datatype Error = ValueError(reason: Reason) | AssertionError | PermissionError

  datatype Reason = BothDirections | BothRoles | NegativeValue | BadAddress(address: Address) | CoinsRemain

  function Message(e: Error): string {
    match e
    case ValueError(BothDirections) => "Address cannot be increasing and decreasing"
    case ValueError(BothRoles) => "Input address cannot be reused for output"
    case ValueError(NegativeValue) => "Value or intended value cannot be less than 0"
    case ValueError(BadAddress(address)) => "Address " + address + " tried to be added"
    case ValueError(CoinsRemain) => "Cannot remove an internal address with coins"
    case AssertionError => ""
    case PermissionError => "Can only clear test database"
  }

  /** The keyword flags of `store_new_address`. */
  datatype Flags = Flags(
    isOnlyDecreasing: bool,
    isOnlyIncreasing: bool,
    isForClientInput: bool,
    isForClientOutput: bool)

  /** The length every address identifier must have. */
  const AddressLength: nat := 10

  /** The guards of `store_new_address`, in the order the code checks them. `None` stands for
      a baseline that is `None` or the empty string. */
  function CreateRejection(address: Address, baseline: Option<int>, value: int, flags: Flags): Option<Error> {
    if baseline.None? then Some(AssertionError)
    else if flags.isOnlyDecreasing && flags.isOnlyIncreasing then Some(ValueError(BothDirections))
    else if flags.isForClientInput && flags.isForClientOutput then Some(ValueError(BothRoles))
    else if value < 0 || baseline.value < 0 then Some(ValueError(NegativeValue))
    else if |address| != AddressLength then Some(ValueError(BadAddress(address)))
    else None
  }

  /** At most one direction set: only-decreasing wins over only-increasing. */
  function DirectionCommands(address: Address, flags: Flags): seq<Command> {
    if flags.isOnlyDecreasing then [SAdd(OnlyDecreasing, address)]
    else if flags.isOnlyIncreasing then [SAdd(OnlyIncreasing, address)]
    else []
  }

  /** At most one role set: client-input wins over client-output. */
  function RoleCommands(address: Address, flags: Flags): seq<Command> {
    if flags.isForClientInput then [SAdd(ClientInput, address)]
    else if flags.isForClientOutput then [SAdd(ClientOutput, address)]
    else []
  }

  /** The pipeline `store_new_address` queues once its guards pass. */
  function CreatePipeline(address: Address, baseline: int, value: int, flags: Flags, maxValue: MaxValue): seq<Command> {
    [SAdd(Ecosystem, address), HMSet(address, value, baseline, maxValue), IncrByTotal(value)]
      + DirectionCommands(address, flags) + RoleCommands(address, flags)
  }

  /** The net effect of the creation pipeline on every key. */
  lemma CreatePipelineEffect(db: Db, address: Address, baseline: int, value: int, flags: Flags, maxValue: MaxValue)
    ensures var r := Execute(db, CreatePipeline(address, baseline, value, flags, maxValue));
      && r.ecosystem == db.ecosystem + {address}
      && r.hashes == db.hashes[address := Hash(value, Some(baseline), Some(maxValue))]
      && r.totalBalance == Some(db.totalBalance.GetOr(0) + value)
      && r.onlyDecreasing == (if flags.isOnlyDecreasing then db.onlyDecreasing + {address} else db.onlyDecreasing)
      && r.onlyIncreasing == (if !flags.isOnlyDecreasing && flags.isOnlyIncreasing then db.onlyIncreasing + {address} else db.onlyIncreasing)
      && r.clientInput == (if flags.isForClientInput then db.clientInput + {address} else db.clientInput)
      && r.clientOutput == (if !flags.isForClientInput && flags.isForClientOutput then db.clientOutput + {address} else db.clientOutput)
      && r.compromised == db.compromised
  {
    var head := [SAdd(Ecosystem, address), HMSet(address, value, baseline, maxValue), IncrByTotal(value)];
    var dir := DirectionCommands(address, flags);
    var role := RoleCommands(address, flags);
    ExecuteAppend(db, head + dir, role);
    ExecuteAppend(db, head, dir);
    assert head[0..] == head && head[3..] == [];
    ExecuteStep(db, head, 0);
    ExecuteStep(Apply(db, head[0]), head, 1);
    ExecuteStep(Apply(Apply(db, head[0]), head[1]), head, 2);
    var d1 := Execute(db, head);
    var d2 := Execute(d1, dir);
    if dir != [] { ExecuteSingle(d1, dir[0]); }
    if role != [] { ExecuteSingle(d2, role[0]); }
  }

  /**
   `store_new_address`: validates its arguments, then in one pipeline adds the address to the
   ecosystem, writes its hash, adds its value to the total, and adds it to at most one
   direction set and at most one role set. No other address is touched.
   */
  function StoreNewAddress(db: Db, address: Address, baseline: Option<int>, value: int, flags: Flags, maxValue: MaxValue)
    : (r: Result<Db, Error>)
    ensures r.Failure? <==>
      || baseline.None?
      || (flags.isOnlyDecreasing && flags.isOnlyIncreasing)
      || (flags.isForClientInput && flags.isForClientOutput)
      || value < 0 || baseline.value < 0
      || |address| != AddressLength
    ensures baseline.None? ==> r == Failure(AssertionError)
    ensures baseline.Some? && flags.isOnlyDecreasing && flags.isOnlyIncreasing ==>
      r == Failure(ValueError(BothDirections))
    ensures baseline.Some? && !(flags.isOnlyDecreasing && flags.isOnlyIncreasing)
            && flags.isForClientInput && flags.isForClientOutput
            ==> r == Failure(ValueError(BothRoles))
    ensures baseline.Some? && !(flags.isOnlyDecreasing && flags.isOnlyIncreasing)
            && !(flags.isForClientInput && flags.isForClientOutput) && (value < 0 || baseline.value < 0)
            ==> r == Failure(ValueError(NegativeValue))
    ensures baseline.Some? && !(flags.isOnlyDecreasing && flags.isOnlyIncreasing)
            && !(flags.isForClientInput && flags.isForClientOutput) && value >= 0 && baseline.value >= 0
            && |address| != AddressLength
            ==> r == Failure(ValueError(BadAddress(address)))
    ensures r.Success? ==>
      && r.value.ecosystem == db.ecosystem + {address}
      && r.value.hashes == db.hashes[address := Hash(value, baseline, Some(maxValue))]
      && r.value.totalBalance == Some(db.totalBalance.GetOr(0) + value)
      && r.value.onlyDecreasing == (if flags.isOnlyDecreasing then db.onlyDecreasing + {address} else db.onlyDecreasing)
      && r.value.onlyIncreasing == (if flags.isOnlyIncreasing then db.onlyIncreasing + {address} else db.onlyIncreasing)
      && r.value.clientInput == (if flags.isForClientInput then db.clientInput + {address} else db.clientInput)
      && r.value.clientOutput == (if flags.isForClientOutput then db.clientOutput + {address} else db.clientOutput)
      && r.value.compromised == db.compromised
  {
    match CreateRejection(address, baseline, value, flags)
    case Some(e) => Failure(e)
    case None =>
      CreatePipelineEffect(db, address, baseline.value, value, flags, maxValue);
      Success(Execute(db, CreatePipeline(address, baseline.value, value, flags, maxValue)))
  }

  /** `store_new_client_output_address`: an only-increasing client-output address with the given bound. */
  function StoreNewClientOutputAddress(db: Db, address: Address, baseline: Option<int>, value: int, maxValue: MaxValue)
    : (r: Result<Db, Error>)
    ensures r.Failure? <==> baseline.None? || value < 0 || baseline.value < 0 || |address| != AddressLength
    ensures r.Failure? ==>
      r.error in {AssertionError, ValueError(NegativeValue), ValueError(BadAddress(address))}
    ensures r.Success? ==>
      && address in r.value.onlyIncreasing && address in r.value.clientOutput
      && r.value.onlyDecreasing == db.onlyDecreasing && r.value.clientInput == db.clientInput
      && address in r.value.hashes && r.value.hashes[address] == Hash(value, baseline, Some(maxValue))
  {
    StoreNewAddress(db, address, baseline, value, Flags(false, true, false, true), maxValue)
  }

  /** `store_new_decreasing_address`: an only-decreasing address with no upper bound. */
  function StoreNewDecreasingAddress(db: Db, address: Address, baseline: Option<int>, value: int,
                                     isForClientInput: bool, isForClientOutput: bool)
    : (r: Result<Db, Error>)
    ensures r.Failure? <==>
      baseline.None? || (isForClientInput && isForClientOutput) || value < 0 || baseline.value < 0 || |address| != AddressLength
    ensures r.Failure? ==>
      r.error in {AssertionError, ValueError(BothRoles), ValueError(NegativeValue),
                  ValueError(BadAddress(address))}
    ensures r.Success? ==>
      && r.value.onlyDecreasing == db.onlyDecreasing + {address}
      && r.value.onlyIncreasing == db.onlyIncreasing
      && address in r.value.hashes && r.value.hashes[address] == Hash(value, baseline, Some(Infinite))
  {
    StoreNewAddress(db, address, baseline, value,
                    Flags(true, false, isForClientInput, isForClientOutput), Infinite)
  }

  /** `store_new_increasing_address`: an only-increasing address with no upper bound. */
  function StoreNewIncreasingAddress(db: Db, address: Address, baseline: Option<int>, value: int,
                                     isForClientInput: bool, isForClientOutput: bool)
    : (r: Result<Db, Error>)
    ensures r.Failure? <==>
      baseline.None? || (isForClientInput && isForClientOutput) || value < 0 || baseline.value < 0 || |address| != AddressLength
    ensures r.Failure? ==>
      r.error in {AssertionError, ValueError(BothRoles), ValueError(NegativeValue),
                  ValueError(BadAddress(address))}
    ensures r.Success? ==>
      && r.value.onlyIncreasing == db.onlyIncreasing + {address}
      && r.value.onlyDecreasing == db.onlyDecreasing
      && address in r.value.hashes && r.value.hashes[address] == Hash(value, baseline, Some(Infinite))
  {
    StoreNewAddress(db, address, baseline, value,
                    Flags(false, true, isForClientInput, isForClientOutput), Infinite)
  }

  /** The six SREM commands that take an address out of every set, in the order the code issues them. */
  function LeaveAllSets(address: Address): seq<Command> {
    [SRem(OnlyDecreasing, address), SRem(OnlyIncreasing, address), SRem(Ecosystem, address),
     SRem(ClientInput, address), SRem(ClientOutput, address), SRem(Compromised, address)]
  }

  /** The pipeline `remove_address_from_ecosystem` queues: drop the hash, subtract the balance, leave every set. */
  function RemovePipeline(address: Address, balance: int): seq<Command> {
    [Delete(address), IncrByTotal(-balance)] + LeaveAllSets(address)
  }

  lemma LeaveAllSetsEffect(db: Db, address: Address)
    ensures var r := Execute(db, LeaveAllSets(address));
      && r.hashes == db.hashes && r.totalBalance == db.totalBalance
      && forall n: SetName :: Members(r, n) == Members(db, n) - {address}
  {
    var p := LeaveAllSets(address);
    var d1 := Apply(db, p[0]);
    var d2 := Apply(d1, p[1]);
    var d3 := Apply(d2, p[2]);
    var d4 := Apply(d3, p[3]);
    var d5 := Apply(d4, p[4]);
    var d6 := Apply(d5, p[5]);
    assert p[0..] == p && p[6..] == [];
    ExecuteStep(db, p, 0);
    ExecuteStep(d1, p, 1);
    ExecuteStep(d2, p, 2);
    ExecuteStep(d3, p, 3);
    ExecuteStep(d4, p, 4);
    ExecuteStep(d5, p, 5);
  }

  /** The net effect of the removal pipeline on every key. */
  lemma RemovePipelineEffect(db: Db, address: Address, balance: int)
    ensures var r := Execute(db, RemovePipeline(address, balance));
      && r.hashes == db.hashes - {address}
      && r.totalBalance == Some(db.totalBalance.GetOr(0) - balance)
      && forall n: SetName :: Members(r, n) == Members(db, n) - {address}
  {
    var head := [Delete(address), IncrByTotal(-balance)];
    ExecuteAppend(db, head, LeaveAllSets(address));
    assert head[0..] == head && head[2..] == [];
    ExecuteStep(db, head, 0);
    ExecuteStep(Apply(db, head[0]), head, 1);
    LeaveAllSetsEffect(Execute(db, head), address);
  }

  /**
   `remove_address_from_ecosystem`: reads the stored balance (0 when absent) and refuses to
   drop an address that still holds coins unless it is a client-output address.
   */
  function RemoveAddressFromEcosystem(db: Db, address: Address): (r: Result<Db, Error>)
    ensures r.Failure? <==> StoredBalance(db.hashes, address) > 0 && address !in db.clientOutput
    ensures r.Failure? ==> r.error == ValueError(CoinsRemain)
    ensures r.Success? ==>
      && r.value.hashes == db.hashes - {address}
      && r.value.totalBalance == Some(db.totalBalance.GetOr(0) - StoredBalance(db.hashes, address))
      && forall n: SetName :: Members(r.value, n) == Members(db, n) - {address}
  {
    var balance := StoredBalance(db.hashes, address);
    if balance > 0 && address !in db.clientOutput then Failure(ValueError(CoinsRemain))
    else
      RemovePipelineEffect(db, address, balance);
      Success(Execute(db, RemovePipeline(address, balance)))
  }

  /**
   `increment_value_at_address`: a single HINCRBY on the balance field, of either sign. It
   creates the hash (balance 0) when absent and touches neither the sets nor the total.
   */
  function IncrementValueAtAddress(db: Db, address: Address, delta: int): (r: Db)
    ensures r.hashes.Keys == db.hashes.Keys + {address}
    ensures StoredBalance(r.hashes, address) == StoredBalance(db.hashes, address) + delta
    ensures address !in db.hashes ==> r.hashes[address] == Hash(delta, None, None)
    ensures address in db.hashes ==>
      r.hashes[address].baseline == db.hashes[address].baseline
      && r.hashes[address].maxValue == db.hashes[address].maxValue
    ensures forall a | a in db.hashes && a != address :: r.hashes[a] == db.hashes[a]
    ensures r.totalBalance == db.totalBalance
    ensures forall n: SetName :: Members(r, n) == Members(db, n)
  {
    Apply(db, HIncrBy(address, delta))
  }

  /** `mark_address_as_compromised`: one pipeline adding the address to only-decreasing and compromised. */
  function MarkAddressAsCompromised(db: Db, address: Address): (r: Db)
    ensures r.onlyDecreasing == db.onlyDecreasing + {address}
    ensures r.compromised == db.compromised + {address}
    ensures r.ecosystem == db.ecosystem && r.onlyIncreasing == db.onlyIncreasing
    ensures r.clientInput == db.clientInput && r.clientOutput == db.clientOutput
    ensures r.hashes == db.hashes && r.totalBalance == db.totalBalance
  {
    var p := [SAdd(OnlyDecreasing, address), SAdd(Compromised, address)];
    assert p[0..] == p && p[2..] == [];
    ExecuteStep(db, p, 0);
    ExecuteStep(Apply(db, p[0]), p, 1);
    Execute(db, p)
  }

  /** `delete_database`: FLUSHDB, allowed only on the test database. */
  function DeleteDatabase(db: Db, isTestDb: bool): (r: Result<Db, Error>)
    ensures r.Success? <==> isTestDb
    ensures r.Success? ==>
      && r.value.hashes == map[] && r.value.totalBalance.None?
      && forall n: SetName :: Members(r.value, n) == {}
    ensures r.Failure? ==> r.error == PermissionError
  {
    if !isTestDb then Failure(PermissionError) else Success(Empty)
  }

  /** `total_value_in_ecosystem`: the counter, which must have been written (`int(None)` fails otherwise). */
  function TotalValueInEcosystem(db: Db): int
    requires db.totalBalance.Some?
  {
    db.totalBalance.value
  }

  /** `total_num_addresses_in_ecosystem` */
  function TotalNumAddressesInEcosystem(db: Db): nat {
    |db.ecosystem|
  }

  /** `total_num_compromised_addresses_in_ecosystem` */
  function TotalNumCompromisedAddresses(db: Db): nat {
    |db.compromised|
  }

  /** `total_num_client_output_addresses_in_ecosystem` */
  function TotalNumClientOutputAddresses(db: Db): nat {
    |db.clientOutput|
  }

  /**
   What `get_address_data` reads in its one pipeline: the three raw hash fields (`None` when
   the hash or field is absent) and the five set memberships. Decoding into an `Address`
   object is not part of this model.
   */
  datatype Snapshot = Snapshot(
    address: Address,
    balance: Option<int>,
    baseline: Option<int>,
    isOnlyDecreasing: bool,
    isOnlyIncreasing: bool,
    isForClientInput: bool,
    isForClientOutput: bool,
    hasBeenCompromised: bool,
    maxValue: Option<MaxValue>)

  /** `get_address_data`: an unconditional read, whether or not the address is in the ecosystem. */
  function GetAddressData(db: Db, address: Address): Snapshot {
    var h := if address in db.hashes then Some(db.hashes[address]) else None;
    Snapshot(
      address,
      if h.Some? then Some(h.value.balance) else None,
      if h.Some? then h.value.baseline else None,
      address in db.onlyDecreasing,
      address in db.onlyIncreasing,
      address in db.clientInput,
      address in db.clientOutput,
      address in db.compromised,
      if h.Some? then h.value.maxValue else None)
  }

  /** `get_address_data_if_exists`: `None` exactly for addresses outside the ecosystem set. */
  function GetAddressDataIfExists(db: Db, address: Address): (r: Option<Snapshot>)
    ensures r.None? <==> address !in db.ecosystem
    ensures r.Some? ==> r.value == GetAddressData(db, address) && r.value.address == address
  {
    if address !in db.ecosystem then None else Some(GetAddressData(db, address))
  }

  /**
   `get_random_ecosystem_addresses`: SRANDMEMBER with a count, then a snapshot of each
   address drawn. The random choice is the `:|` choice here, so only what every draw
   guarantees is stated: a non-negative count yields min(count, size) distinct members, a
   negative count yields |count| members with repeats allowed (none from an empty set).
   */
  method GetRandomEcosystemAddresses(db: Db, count: int) returns (r: seq<Snapshot>)
    ensures count >= 0 ==> |r| == if count <= |db.ecosystem| then count else |db.ecosystem|
    ensures count < 0 ==> |r| == if db.ecosystem == {} then 0 else -count
    ensures forall i | 0 <= i < |r| :: r[i].address in db.ecosystem && r[i] == GetAddressData(db, r[i].address)
    ensures count >= 0 ==> forall i, j | 0 <= i < j < |r| :: r[i].address != r[j].address
  {
    var drawn: seq<Address> := [];
    if count >= 0 {
      var remaining := db.ecosystem;
      while |drawn| < count && remaining != {}
        invariant remaining <= db.ecosystem
        invariant forall i | 0 <= i < |drawn| :: drawn[i] in db.ecosystem && drawn[i] !in remaining
        invariant forall i, j | 0 <= i < j < |drawn| :: drawn[i] != drawn[j]
        invariant |drawn| + |remaining| == |db.ecosystem|
        invariant |drawn| <= count
        decreases |remaining|
      {
        var a :| a in remaining;
        drawn := drawn + [a];
        remaining := remaining - {a};
      }
    } else if db.ecosystem != {} {
      while |drawn| < -count
        invariant |drawn| <= -count
        invariant forall i | 0 <= i < |drawn| :: drawn[i] in db.ecosystem
      {
        var a :| a in db.ecosystem;
        drawn := drawn + [a];
      }
    }
    r := seq(|drawn|, i requires 0 <= i < |drawn| => GetAddressData(db, drawn[i]));
  }
}
