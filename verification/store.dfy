/**
 The part of the Redis key space that the database handler uses: six address sets,
 one hash per address and one integer counter for the total balance, together with
 the Redis commands the handler issues and a pipeline interpreter.

 A pipeline is executed as one atomic step (redis-py pipelines wrap their commands
 in MULTI/EXEC by default), so `Execute` is a pure function from state to state.
 */
module Store {
  import opened Wrappers

  /** An address is both a set member and the key of its own hash. */
  type Address = string

  /** Upper bound on an address's balance; Python's `float("inf")` is `Infinite`. */
  datatype MaxValue = Finite(bound: int) | Infinite

  /**
   The fields of one address hash. The balance field is written by every command that
   creates a hash (HMSET and HINCRBY), so it is present whenever the hash is; the baseline
   and max-value fields are absent in a hash that HINCRBY created.
   */
  datatype Hash = Hash(balance: int, baseline: Option<int>, maxValue: Option<MaxValue>)

  /** The six membership sets of the schema. */
  datatype SetName = Ecosystem | OnlyDecreasing | OnlyIncreasing | ClientInput | ClientOutput | Compromised

  /** The whole ledger state held in Redis. `totalBalance` is `None` until the counter is first written. */
  datatype Db = Db(
    ecosystem: set<Address>,
    onlyDecreasing: set<Address>,
    onlyIncreasing: set<Address>,
    clientInput: set<Address>,
    clientOutput: set<Address>,
    compromised: set<Address>,
    hashes: map<Address, Hash>,
    totalBalance: Option<int>)

  /** The state after FLUSHDB: no sets, no hashes, no counter. */
  const Empty: Db := Db({}, {}, {}, {}, {}, {}, map[], None)

  /** The members of one named set. */
  function Members(db: Db, name: SetName): set<Address> {
    match name
    case Ecosystem => db.ecosystem
    case OnlyDecreasing => db.onlyDecreasing
    case OnlyIncreasing => db.onlyIncreasing
    case ClientInput => db.clientInput
    case ClientOutput => db.clientOutput
    case Compromised => db.compromised
  }

  /** Replaces the members of one named set, leaving every other key alone. */
  function WithMembers(db: Db, name: SetName, s: set<Address>): (r: Db)
    ensures Members(r, name) == s
    ensures forall n | n != name :: Members(r, n) == Members(db, n)
    ensures r.ecosystem == if name == Ecosystem then s else db.ecosystem
    ensures r.onlyDecreasing == if name == OnlyDecreasing then s else db.onlyDecreasing
    ensures r.onlyIncreasing == if name == OnlyIncreasing then s else db.onlyIncreasing
    ensures r.clientInput == if name == ClientInput then s else db.clientInput
    ensures r.clientOutput == if name == ClientOutput then s else db.clientOutput
    ensures r.compromised == if name == Compromised then s else db.compromised
    ensures r.hashes == db.hashes && r.totalBalance == db.totalBalance
  {
    match name
    case Ecosystem => db.(ecosystem := s)
    case OnlyDecreasing => db.(onlyDecreasing := s)
    case OnlyIncreasing => db.(onlyIncreasing := s)
    case ClientInput => db.(clientInput := s)
    case ClientOutput => db.(clientOutput := s)
    case Compromised => db.(compromised := s)
  }

  /** The balance field of an address's hash, read as 0 when the hash is absent. */
  function StoredBalance(hashes: map<Address, Hash>, address: Address): int {
    if address in hashes then hashes[address].balance else 0
  }

  /** The Redis commands the handler puts into its pipelines. */
  datatype Command =
    | SAdd(name: SetName, member: Address)
    | SRem(name: SetName, member: Address)
      /** HMSET of all three hash fields */
    | HMSet(key: Address, balance: int, baseline: int, maxValue: MaxValue)
      /** HINCRBY of the balance field */
    | HIncrBy(key: Address, delta: int)
      /** DEL of an address's hash */
    | Delete(key: Address)
      /** INCRBY of the total-balance counter */
    | IncrByTotal(amount: int)

  /** One command's effect. Missing hashes and a missing counter count as 0 for the increments, as in Redis. */
  function Apply(db: Db, c: Command): Db {
    match c
    case SAdd(name, a) => WithMembers(db, name, Members(db, name) + {a})
    case SRem(name, a) => WithMembers(db, name, Members(db, name) - {a})
    case HMSet(key, balance, baseline, maxValue) =>
      db.(hashes := db.hashes[key := Hash(balance, Some(baseline), Some(maxValue))])
    case HIncrBy(key, delta) =>
      var h := if key in db.hashes then db.hashes[key] else Hash(0, None, None);
      db.(hashes := db.hashes[key := h.(balance := h.balance + delta)])
    case Delete(key) => db.(hashes := db.hashes - {key})
    case IncrByTotal(amount) => db.(totalBalance := Some(db.totalBalance.GetOr(0) + amount))
  }

  /** Executes a pipeline front to back as one step. */
  function Execute(db: Db, pipeline: seq<Command>): Db
    decreases |pipeline|
  {
    if pipeline == [] then db else Execute(Apply(db, pipeline[0]), pipeline[1..])
  }

  lemma {:induction false} ExecuteAppend(db: Db, p: seq<Command>, q: seq<Command>)
    ensures Execute(db, p + q) == Execute(Execute(db, p), q)
    decreases |p|
  {
    if p == [] {
      assert p + q == q;
    } else {
      assert (p + q)[1..] == p[1..] + q;
      ExecuteAppend(Apply(db, p[0]), p[1..], q);
    }
  }

  lemma ExecuteSingle(db: Db, c: Command)
    ensures Execute(db, [c]) == Apply(db, c)
  {
    assert [c][1..] == [];
  }

  /** Executing a suffix of a pipeline is one command followed by the shorter suffix. */
  lemma ExecuteStep(db: Db, p: seq<Command>, k: nat)
    requires k < |p|
    ensures Execute(db, p[k..]) == Execute(Apply(db, p[k]), p[k + 1..])
  {
    assert p[k..][1..] == p[k + 1..];
  }
}
