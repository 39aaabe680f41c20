# Coin-mixer address ledger, modelled in Dafny

This project models the address ledger of the coin mixer: the `DatabaseHandler` class that
keeps the mixer's addresses in Redis. The ledger state is an immutable value (`Store.Db`) with
these parts:

- six address sets: ecosystem, only-decreasing, only-increasing, client-input, client-output
  and compromised;
- one hash per address, with the fields balance, baseline and max-value;
- one integer counter for the total balance.

Each public method of the handler is a pure Dafny member over that state. The methods that can
raise (the four create methods, removal and `delete_database`) return a `Result`: the new state,
or the exception the method raises. Increment and mark-compromised never raise and return the new
state. The getters and lookups return plain values or an `Option`. The random sampler is a Dafny
`method`, because it makes an arbitrary choice.

The handler sends its writes to Redis as pipelines. The model represents them the same way:
`Store.Command` mirrors the Redis commands (SADD, SREM, HMSET, HINCRBY, DEL, INCRBY), and
`Store.Execute` runs a command list front to back as one atomic step. redis-py pipelines are
transactional by default, which justifies the one-step execution. Every guard runs before the
first command is queued. So a rejected call issues no pipeline, and `Runs.Step` keeps the old
state for it (`Runs.RejectedCallKeepsState`).

Modules:

- `Wrappers`: `Option` and `Result`.
- `Store`: the Redis state, the commands and the pipeline interpreter.
- `DatabaseHandler`: the handler's methods, its error type (`ValueError` with the raise site,
  `AssertionError`, `PermissionError`), the pipelines each method builds, and the exact effect
  of each pipeline.
- `Accounting`: the sum of the ecosystem's balances, and the drift of the counter away from it.
  A lemma gives the exact drift each operation introduces.
- `Invariants`: the ledger's intended invariants (`Invariants.Consistent`), and which operations keep them.
- `Queries`: what the getters report after each mutation. This includes the
  create-then-read round trip and the frame lemmas.
- `Runs`: sequences of calls, and the theorem that safe runs stay consistent.

The ledger's intended invariants, listed in `Invariants.Consistent`, include two that should hold
after every operation. First, the total counter equals the sum
of the ecosystem's balances. Second, the direction sets and the role sets are each exclusive.
The code keeps both promises only for some operations:

- Creating a new address keeps both. So does any removal the guard allows.
- `increment_value_at_address` never touches the counter. The drift falls by exactly the
  increment.
- Re-creating an existing member adds its value to the counter again. The drift rises by the
  member's old balance. It can also leave the member in both direction sets.
- `mark_address_as_compromised` does not take the address out of only-increasing. It also adds
  non-members to sets outside the ecosystem.
- Removing an address that is outside the ecosystem but still has a hash changes the counter.
  Such a hash is left behind by `increment_value_at_address`. With a negative stray balance,
  the guard lets the removal through and the counter goes up.

Each of these behaviours is proved as an exact lemma, not assumed away. A separate
invalid-format error for a bad address length might be expected. The code raises `ValueError`
for it, as it does for every other bad argument, and it checks the length last. The model follows the code
on both points. The code also checks a missing baseline with an `assert`, so the model returns
`AssertionError` for it.

## Model

| member | source | states |
|---|---|---|
| DatabaseHandler.StoreNewAddress | coin_mixer/utils/database_handler.py:46-83 | Rejects exactly when the baseline is missing, both direction flags are set, both role flags are set, value or baseline is negative, or the id length is not 10. The error depends on the first guard that fails. On success the address joins the ecosystem and its hash becomes exactly {value, baseline, maxValue}. The counter grows by exactly value. The address joins only-decreasing iff that flag is set, otherwise only-increasing iff that flag is set. It joins client-input iff that flag is set, otherwise client-output iff that flag is set. No other set or hash changes. |
| DatabaseHandler.CreatePipelineEffect | coin_mixer/utils/database_handler.py:67-83 | The queued SADD/HMSET/INCRBY commands and the conditional SADDs have this net effect: ecosystem plus the address, the hash overwritten, the counter plus value, and at most one direction set and one role set gaining the address. |
| DatabaseHandler.StoreNewClientOutputAddress | coin_mixer/utils/database_handler.py:20-26 | Fails only for a missing baseline, a negative amount or a bad length, never with a direction or role error. On success the address is only-increasing and client-output, and is added to neither only-decreasing nor client-input. Its hash holds the given maxValue. |
| DatabaseHandler.StoreNewDecreasingAddress | coin_mixer/utils/database_handler.py:28-35 | Never fails with the both-directions error. On success the address is added to only-decreasing and not to only-increasing, and its max value is unbounded. |
| DatabaseHandler.StoreNewIncreasingAddress | coin_mixer/utils/database_handler.py:37-44 | Never fails with the both-directions error. On success the address is added to only-increasing and not to only-decreasing, and its max value is unbounded. |
| DatabaseHandler.LeaveAllSetsEffect | coin_mixer/utils/database_handler.py:101-106 | The six SREMs take the address out of every set and touch no hash and not the counter. |
| DatabaseHandler.RemovePipelineEffect | coin_mixer/utils/database_handler.py:98-107 | The removal pipeline deletes the hash, subtracts the given balance from the counter (an absent counter reads as 0), and removes the address from all six sets. |
| DatabaseHandler.RemoveAddressFromEcosystem | coin_mixer/utils/database_handler.py:85-107 | Rejects with the coins-remain ValueError exactly when the stored balance (0 if absent) is positive and the address is not client-output. On success the hash is gone, the counter falls by exactly the prior stored balance, and every set loses the address and nothing else. |
| DatabaseHandler.IncrementValueAtAddress | coin_mixer/utils/database_handler.py:109-111 | The address's balance becomes its old balance (0 if absent) plus delta, of either sign. A missing hash is created holding exactly delta, with no baseline and no max value. An existing hash keeps its other fields. Every other hash is unchanged. The counter and all six sets are untouched. |
| DatabaseHandler.MarkAddressAsCompromised | coin_mixer/utils/database_handler.py:144-148 | The address is added to only-decreasing and compromised. Only-increasing, the other sets, the hashes and the counter are unchanged. |
| DatabaseHandler.DeleteDatabase | coin_mixer/utils/database_handler.py:125-129 | Succeeds iff the handler's `is_test_db` flag is not `False`, and then every set, every hash and the counter are gone. Otherwise it raises PermissionError. |
| DatabaseHandler.GetAddressDataIfExists | coin_mixer/utils/database_handler.py:150-155 | Returns None iff the address is not in the ecosystem set, and otherwise returns the full snapshot of get_address_data. |
| DatabaseHandler.GetRandomEcosystemAddresses | coin_mixer/utils/database_handler.py:131-142 | With a count of 0 or more it returns min(count, ecosystem size) distinct members. With a negative count it returns -count members, possibly repeated, or none from an empty ecosystem. Each returned member comes with its get_address_data snapshot. |
| Accounting.CreateDrift | coin_mixer/utils/database_handler.py:67-71 | Creation leaves counter-minus-sum unchanged for a new address. For an existing member it raises counter-minus-sum by the member's old balance, because the hash is overwritten but the counter only grows. |
| Accounting.RemoveDrift | coin_mixer/utils/database_handler.py:86-107 | Removing a member leaves counter-minus-sum unchanged. Removing a non-member lowers it by the balance of the non-member's stray hash. |
| Accounting.IncrementDrift | coin_mixer/utils/database_handler.py:109-111 | Incrementing a member lowers counter-minus-sum by exactly delta. Incrementing a non-member leaves it unchanged. |
| Accounting.CreateFreshPreservesTotals | coin_mixer/utils/database_handler.py:67-71 | Creating a non-member keeps the counter equal to the sum of the ecosystem's balances. |
| Accounting.DuplicateCreateBreaksTotals | coin_mixer/utils/database_handler.py:67-71 | Re-creating a member keeps the counter equal to the sum iff the member's old balance was 0. |
| Accounting.RemoveMemberPreservesTotals | coin_mixer/utils/database_handler.py:95-100 | Removing a member keeps the counter equal to the sum. |
| Accounting.IncrementBreaksTotals | coin_mixer/utils/database_handler.py:109-111 | Incrementing a member keeps the counter equal to the sum iff delta is 0. |
| Accounting.StrayRemovalShiftsTotal | coin_mixer/utils/database_handler.py:86-100 | On an empty ledger, decrement a non-member by k > 0 and then remove it. The guard lets the removal through, and the counter ends at k while the ecosystem stays empty. |
| Accounting.TotalValueIsSumOfBalances | coin_mixer/utils/database_handler.py:113-114 | While the invariant holds, total_value_in_ecosystem reads the sum of the ecosystem's balances. |
| Invariants.ResetIsConsistent | coin_mixer/utils/database_handler.py:125-129 | After delete_database on the test database, the ledger is consistent, every count is 0 and no address exists. |
| Invariants.CreateFreshPreservesConsistent | coin_mixer/utils/database_handler.py:46-83 | Creating a non-member keeps every consistency condition. |
| Invariants.CreateFreshPreservesStructured | coin_mixer/utils/database_handler.py:60-81 | Creating a non-member keeps these conditions: one hash per member and no other, sets inside the ecosystem, direction and role exclusivity, compromised inside only-decreasing, 10-character ids, and well-formed hashes. |
| Invariants.RemovePreservesConsistent | coin_mixer/utils/database_handler.py:85-107 | Every removal the guard allows keeps every consistency condition. |
| Invariants.RemoveGuardOnConsistent | coin_mixer/utils/database_handler.py:95-96 | On a consistent ledger, removing a member succeeds iff its balance is 0 or it is client-output. |
| Invariants.MarkPreservesConsistentIff | coin_mixer/utils/database_handler.py:144-148 | On a consistent ledger, marking keeps consistency iff the address is a member and is not only-increasing. |
| Invariants.MarkDirectionsExclusiveIff | coin_mixer/utils/database_handler.py:144-148 | Starting from exclusive direction sets, marking keeps them exclusive iff the address was not only-increasing. |
| Invariants.MarkIdempotent | coin_mixer/utils/database_handler.py:144-148 | Marking twice yields the same state as marking once. |
| Invariants.IncrementPreservesConsistentIff | coin_mixer/utils/database_handler.py:109-111 | On a consistent ledger, an increment keeps consistency iff the address is a member and delta is 0. |
| Invariants.CreateKeepsExclusive | coin_mixer/utils/database_handler.py:73-81 | An address in no direction set and no role set ends up in at most one of each after creation. |
| Invariants.RecreateCanBreakDirections | coin_mixer/utils/database_handler.py:73-76 | Re-creating an only-increasing address as only-decreasing leaves it in both direction sets. |
| Queries.CreateThenRead | coin_mixer/utils/database_handler.py:150-192 | Round trip: in a consistent ledger, a new address reads back through get_address_data_if_exists with exactly its creation value, baseline, flags and maxValue, and not compromised. |
| Queries.RemoveThenRead | coin_mixer/utils/database_handler.py:98-107 | After a removal, get_address_data_if_exists reports None, and get_address_data finds no field and no membership. |
| Queries.CreateLeavesOthers | coin_mixer/utils/database_handler.py:67-83 | Creation changes no other address's snapshot or existence. |
| Queries.RemoveLeavesOthers | coin_mixer/utils/database_handler.py:98-107 | Removal changes no other address's snapshot or existence. |
| Queries.IncrementReads | coin_mixer/utils/database_handler.py:109-111 | An increment changes only the balance read of its own address, by delta from 0 if absent. Its existence and every other snapshot are unchanged. |
| Queries.MarkReads | coin_mixer/utils/database_handler.py:144-148 | After marking, the address reads as only-decreasing and compromised and keeps every other field and flag. No other snapshot changes. |
| Queries.CreateCounts | coin_mixer/utils/database_handler.py:113-123 | After a creation, the ecosystem count grows by 1 iff the address is new. The client-output count grows by 1 iff the flag is set and the address was not already client-output. The compromised count is unchanged. The total reads old total (0 if unwritten) plus value. |
| Queries.RemoveCounts | coin_mixer/utils/database_handler.py:113-123 | After a removal, each of the three counts falls by 1 iff the address was in that set. The total reads the old total minus the stored balance. |
| Queries.MarkCounts | coin_mixer/utils/database_handler.py:116-123 | Marking grows the compromised count by 1 iff the address was not compromised, and leaves the other two counts unchanged. |
| Queries.IncrementCounts | coin_mixer/utils/database_handler.py:113-123 | An increment changes no count and not the counter. |
| Queries.ScenarioCreate | coin_mixer/utils/database_handler.py:46-83 | Worked example on an empty ledger. "AAAAAAAAAA" with baseline 100, value 50, increasing and client-input gives total 50, one address, and client-input set. A 9-character id gives ValueError. |
| Runs.RejectedCallKeepsState | coin_mixer/utils/database_handler.py:46-129 | When create, remove or delete_database raises, the state after the call is the state before it, because every guard runs before the pipeline is queued. |
| Runs.StepPreservesConsistent | coin_mixer/utils/database_handler.py:20-148 | One safe call keeps a consistent ledger consistent. The safe calls are: creating a non-member, any removal, a zero increment of a member, marking a non-increasing member, and a reset. |
| Runs.RunPreservesConsistent | coin_mixer/utils/database_handler.py:20-148 | Any sequence of safe calls from a consistent ledger ends in a consistent ledger. |
| Runs.SafeRunFromEmpty | coin_mixer/utils/database_handler.py:125-129 | Safe runs that start from a flushed database stay consistent. |

The count getters, `get_address_data` and `total_value_in_ecosystem` (lines 113-123 and
157-192) are plain reads with no contract of their own. The rows for `CreateCounts`,
`RemoveCounts`, `MarkCounts`, `IncrementCounts`, `CreateThenRead`, `MarkReads` and
`TotalValueIsSumOfBalances` state what those reads report.

## Left out

- Connection set-up and environment selection (`__get_database`, lines 198-206) are I/O and
  configuration. The test/production flag is a parameter of `DeleteDatabase` and `Runs.Step`.
- The `Address` model class, and decoding of the bytes Redis returns (lines 190-192), are not
  part of this model. `coin_mixer/models/address.py` is not part of this model either.
  `GetAddressData` returns the raw fields (absent as `None`) plus the five membership flags.
- GetRandomEcosystemAddresses: the draw is the verifier's arbitrary choice, so the uniform
  sampling distribution of SRANDMEMBER is not stated.
- Concurrency: each method is one atomic step. So the race between the balance read in removal
  and its pipeline (lines 86-107) is not captured.
- Python floats: amounts are integers, `float("inf")` is `Infinite`, and a finite max value is
  an integer.
- Redis's 64-bit limits on INCRBY and HINCRBY are not modelled, because integers here are
  unbounded. So are its WRONGTYPE errors and key collisions between address keys and the
  schema's key names. The schema module is not part of this model.
- TotalValueInEcosystem: it requires that the counter has been written. It does not model the
  Python `TypeError` that `int(None)` raises on a never-written counter.
- Exception messages are not compared as strings in contracts. `Message` maps each error to its
  text, and contracts compare the error values.
- Python default arguments (`value=0`, the four flags `=False`, `max_value=float("inf")`, lines
  28-30, 37-39 and 46-49) are not modelled as defaults. Every parameter is explicit, and a call
  that relies on a default maps to the explicit call with that value, so no behaviour is lost.
- DeleteDatabase: the handler's `is_test_db` flag is modelled as a `bool`. The code tests it by
  identity twice: `is True` to pick the test connection (line 199) and `is False` for the guard
  (line 126). A non-bool falsy flag (`0`, `None`, `""`) connects to production yet passes the
  guard, so `flushdb` would clear production. A `bool` cannot express that case.
- `tests/test_bootstrapper.py` depends on the bootstrapper and on `HyperParameters`, and neither
  is part of this model. It also imports `Database_Handler`, a name the handler file does not
  define.
