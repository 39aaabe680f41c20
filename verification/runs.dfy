/**
 Sequences of handler calls. Each call is one atomic step; a call the handler rejects
 leaves the state as it was. The theorem here says which calls can be chained without
 ever leaving the consistent states.
 */
module Runs {
  import opened Wrappers
  import opened Store
  import opened DatabaseHandler
  import opened Invariants

  /** One call of the handler's mutating interface. */
  datatype Call =
    | Create(address: Address, baseline: Option<int>, value: int, flags: Flags, maxValue: MaxValue)
    | Remove(address: Address)
    | Increment(address: Address, delta: int)
    | MarkCompromised(address: Address)
    | Reset

  /** The state after one call; `isTestDb` is the handler's configuration flag. */
  function Step(db: Db, call: Call, isTestDb: bool): Db {
    match call
    case Create(a, b, v, f, m) =>
      (match StoreNewAddress(db, a, b, v, f, m) case Success(d) => d case Failure(_) => db)
    case Remove(a) =>
      (match RemoveAddressFromEcosystem(db, a) case Success(d) => d case Failure(_) => db)
    case Increment(a, delta) => IncrementValueAtAddress(db, a, delta)
    case MarkCompromised(a) => MarkAddressAsCompromised(db, a)
    case Reset =>
      (match DeleteDatabase(db, isTestDb) case Success(d) => d case Failure(_) => db)
  }

  function Run(db: Db, calls: seq<Call>, isTestDb: bool): Db
    decreases |calls|
  {
    if calls == [] then db else Run(Step(db, calls[0], isTestDb), calls[1..], isTestDb)
  }

  /**
   The calls that keep the ledger consistent from a consistent state: creating an address that
   is not a member, any removal, marking a member that is not only-increasing, a zero increment
   of a member, and a reset.
   */
  ghost predicate Safe(db: Db, call: Call) {
    match call
    case Create(a, _, _, _, _) => a !in db.ecosystem
    case Remove(_) => true
    case Increment(a, delta) => a in db.ecosystem && delta == 0
    case MarkCompromised(a) => a in db.ecosystem && a !in db.onlyIncreasing
    case Reset => true
  }

  ghost predicate SafeRun(db: Db, calls: seq<Call>, isTestDb: bool)
    decreases |calls|
  {
    calls == [] || (Safe(db, calls[0]) && SafeRun(Step(db, calls[0], isTestDb), calls[1..], isTestDb))
  }

  /** A call the handler rejects leaves the state exactly as it was. */
  lemma RejectedCallKeepsState(db: Db, call: Call, isTestDb: bool)
    requires match call
      case Create(a, b, v, f, m) => StoreNewAddress(db, a, b, v, f, m).Failure?
      case Remove(a) => RemoveAddressFromEcosystem(db, a).Failure?
      case Reset => !isTestDb
      case _ => false
    ensures Step(db, call, isTestDb) == db
  {
  }

  /** A safe call keeps a consistent ledger consistent. */
  lemma StepPreservesConsistent(db: Db, call: Call, isTestDb: bool)
    requires Consistent(db) && Safe(db, call)
    ensures Consistent(Step(db, call, isTestDb))
  {
    match call
    case Create(a, b, v, f, m) =>
      if StoreNewAddress(db, a, b, v, f, m).Success? {
        CreateFreshPreservesConsistent(db, a, b, v, f, m);
      }
    case Remove(a) =>
      if RemoveAddressFromEcosystem(db, a).Success? {
        RemovePreservesConsistent(db, a);
      }
    case Increment(a, delta) => IncrementPreservesConsistentIff(db, a, delta);
    case MarkCompromised(a) => MarkPreservesConsistentIff(db, a);
    case Reset =>
      if isTestDb {
        ResetIsConsistent(db);
      }
  }

  /** Every run of safe calls from a consistent state ends in a consistent state. */
  lemma {:induction false} RunPreservesConsistent(db: Db, calls: seq<Call>, isTestDb: bool)
    requires Consistent(db) && SafeRun(db, calls, isTestDb)
    ensures Consistent(Run(db, calls, isTestDb))
    decreases |calls|
  {
    if calls != [] {
      StepPreservesConsistent(db, calls[0], isTestDb);
      RunPreservesConsistent(Step(db, calls[0], isTestDb), calls[1..], isTestDb);
    }
  }

  /** The empty ledger (a freshly flushed test database) is consistent, so safe runs from it stay consistent. */
  lemma SafeRunFromEmpty(calls: seq<Call>, isTestDb: bool)
    requires SafeRun(Empty, calls, isTestDb)
    ensures Consistent(Run(Empty, calls, isTestDb))
  {
    ResetIsConsistent(Empty);
    RunPreservesConsistent(Empty, calls, isTestDb);
  }
}
