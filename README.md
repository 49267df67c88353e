# Nested-transaction key-value store, in Dafny

This project models the engine of the `kvstore` package. It is a key-value store that is
used only inside transactions, and the transactions nest.

- Every transaction level records its own pending writes (`changes`) and tombstones
  (`deleted_keys`).
- `TransactionManager` keeps the levels on a stack.
  - A read scans the levels from the innermost outwards and falls back to the committed
    mapping.
  - A nested `commit` replays the child level into its parent.
  - A top-level `commit` flushes the level into the committed mapping or into a storage
    backend.
  - `rollback` discards the innermost level.
- There are two storage backends: an in-memory table and a SQLite table whose values are
  JSON text. Both apply a commit as "upsert every change, then remove every deletion".
- The public `Store` refuses data operations when no transaction is active. It re-raises
  the manager's built-in `KeyError` and `ValueError` as the store's own error kinds.

The files, one module each:

- `kvtypes.dfy` (`KvTypes`): JSON values, keys and transaction ids. It also holds the
  built-in exceptions the manager raises (`KeyError`, `ValueError`, `RuntimeError`) and the
  `Option`, `Result` and `Outcome` carriers.
- `exceptions.dfy` (`Exceptions`): the error hierarchy as a datatype, with the `IsA`
  relation that `except` clauses use.
- `storage.dfy` (`Storage`):
  - `ApplyCommit`, the meaning of a backend commit;
  - the `InMemoryStorage` and `SQLiteStorage` classes;
  - the JSON encoding, abstracted as a `Codec`;
  - the `Backend` the manager is built with.
- `visibility.dfy` (`Visibility`): the stack as values.
  - `Lookup` is what a read sees.
  - `Step` is the state machine that every mutating manager operation is proved against.
  - The stack's visibility guarantees are lemmas here.
- `transactions.dfy` (`Transactions`): the `Transaction` and `TransactionManager` classes.
  They mutate their fields in place and their loops carry invariants. Each mutating
  operation is proved to do what `Step` says.
  - The ghost field `levels` mirrors the stack's contents as values.
  - `Valid()` ties `levels` to the objects on the stack. It also requires that every level
    is active and consistent, that ids increase up the stack, and that the committed
    snapshot equals what the backend would return.
- `facade.dfy` (`Facade`): the `Store` class, proved against `StoreStep` and `StoreGet`.
  These two functions are `Step` and `Lookup` behind the active-transaction guard and the
  error translation.
- `scenarios.dfy` (`Scenarios`): client sessions taken from the repository's tests, proved
  to end as those tests expect.

Environment inputs are passed in as parameters:

- Where the database raises during a durable commit is a `DbFault` parameter of `Commit`.
- The JSON library is a `Codec`. Its round trip (decoding an encoded value gives the value
  back) is a precondition of opening a `SQLiteStorage`.

## Model

| member | source | states |
|---|---|---|
| Exceptions.Base | src/kvstore/exceptions.py:6-28 | StoreError is the only kind without a superclass; every other kind's superclass is one level closer to the root |
| Exceptions.EveryKindIsStoreError | src/kvstore/exceptions.py:6-28 | every error kind is a StoreError |
| Exceptions.TransactionErrorIsDirectStoreError | src/kvstore/exceptions.py:11-13 | TransactionError derives directly from StoreError, and not the other way round |
| Exceptions.TransactionErrorKinds | src/kvstore/exceptions.py:21-28 | a kind is a TransactionError exactly when it is TransactionError, NoActiveTransactionError or InvalidTransactionStateError |
| Exceptions.KeyNotFoundIsNotTransactionError | src/kvstore/exceptions.py:16-18 | KeyNotFoundError is a StoreError; it is not a TransactionError, nor the reverse |
| Storage.ApplyCommit | src/kvstore/storage.py:233-241 | after a commit: deleted keys are absent, even when also changed; changed keys that are not deleted hold the new value; every other key keeps its presence and value |
| Storage.DeleteMissingIsNoOp | src/kvstore/storage.py:240-241 | deleting keys the table does not hold leaves the table as it is |
| Storage.EncodedReadsBack | src/kvstore/storage.py:81-86 | with a value-preserving encoding, a row holding a value's encoding reads back as exactly that value |
| Storage.EncodeAll | src/kvstore/storage.py:99-104 | one row per change, holding that value's encoding; with a value-preserving encoding the rows read back as exactly the changes |
| Storage.DurableCommitMatchesInMemory | src/kvstore/storage.py:90-114 | with a value-preserving encoding, a durable commit read back equals the in-memory commit of the same changes and deletions |
| Storage.CommittedValuesReadBack | src/kvstore/storage.py:72-114 | after a durable commit, a fresh reader gets every written value back equal; deleted keys are absent; untouched keys keep their presence |
| Storage.InMemoryStorage.constructor | src/kvstore/storage.py:221-223 | a new in-memory table is empty |
| Storage.InMemoryStorage.Initialize | src/kvstore/storage.py:225-227 | changes nothing |
| Storage.InMemoryStorage.GetCommittedData | src/kvstore/storage.py:229-231 | returns the table's contents and changes nothing |
| Storage.InMemoryStorage.CommitTransaction | src/kvstore/storage.py:233-241 | the table becomes `ApplyCommit` of its old contents: the changes are assigned first, then the deletions are popped |
| Storage.InMemoryStorage.Close | src/kvstore/storage.py:243-245 | changes nothing |
| Storage.SQLiteStorage.constructor | src/kvstore/storage.py:40-42 | opens no connection and keeps the file's existing rows |
| Storage.SQLiteStorage.Initialize | src/kvstore/storage.py:44-70 | opens the connection; the rows already stored are kept |
| Storage.SQLiteStorage.GetCommittedData | src/kvstore/storage.py:72-88 | connects when not connected; returns `Decoded` of the rows, which are unchanged |
| Storage.SQLiteStorage.CommitTransaction | src/kvstore/storage.py:90-114 | raises RuntimeError exactly when the fault hits one of its statements or the final COMMIT, and then the table is unchanged; otherwise the table becomes `ApplyCommit` of the encoded changes |
| Storage.SQLiteStorage.Close | src/kvstore/storage.py:202-206 | closes the connection; the rows stay |
| Storage.UpsertRows | src/kvstore/storage.py:99-104 | the upserts raise exactly when the fault names a changed key; otherwise every encoded change is written over the table |
| Storage.DeleteRows | src/kvstore/storage.py:106-108 | the deletes raise exactly when the fault names a deleted key; otherwise every deleted key is removed |
| Visibility.Level.Put | src/kvstore/transaction.py:31-38 | after `set`, the key is written with the value and not tombstoned; other keys are untouched; disjointness is kept |
| Visibility.Level.Remove | src/kvstore/transaction.py:40-47 | after `delete`, the key is tombstoned and not written; other keys are untouched; disjointness is kept |
| Visibility.LookupRaisesOnlyKeyError | src/kvstore/transaction.py:142-155 | a read fails only with KeyError |
| Visibility.Merge | src/kvstore/transaction.py:104-114 | replaying the child into the parent: child tombstones win; child writes that are not tombstoned overwrite; keys the child does not touch keep the parent's entries; disjointness is kept |
| Visibility.StepKeepsDisjoint | src/kvstore/transaction.py:31-47 | every operation keeps writes and tombstones disjoint at every level |
| Visibility.NoLevelRaisesValueError | src/kvstore/transaction.py:96-99 | with an empty stack, set, delete, commit and rollback raise ValueError |
| Visibility.BeginPreservesLookup | src/kvstore/transaction.py:89-94 | begin pushes exactly one level, keeps the lower levels, and changes no read |
| Visibility.SetThenLookup | src/kvstore/transaction.py:157-163 | after set, the key reads as the value and every other key reads as before |
| Visibility.DeleteThenLookup | src/kvstore/transaction.py:165-177 | delete raises KeyError exactly when a read of the key fails; on success the key no longer reads and every other key reads as before |
| Visibility.CommitPreservesLookup | src/kvstore/transaction.py:96-131 | commit, nested or top-level, changes no read of any key |
| Visibility.RollbackPopsTop | src/kvstore/transaction.py:133-140 | rollback removes exactly the top level and keeps the committed mapping; begin then rollback is the identity |
| Visibility.RunAppend | src/kvstore/transaction.py:89-177 | running two operation sequences in turn is running their concatenation |
| Visibility.RunWithin | src/kvstore/transaction.py:89-140 | operations that stay inside one transaction never touch the levels below it or the committed mapping |
| Visibility.RollbackRestoresState | src/kvstore/transaction.py:133-140 | begin, any balanced work, then rollback gives back exactly the earlier state |
| Transactions.Transaction.constructor | src/kvstore/transaction.py:24-29 | a new transaction is active, with no writes and no tombstones |
| Transactions.Transaction.Set | src/kvstore/transaction.py:31-38 | an inactive transaction raises ValueError and is not changed; otherwise the level becomes `Put(key, value)` |
| Transactions.Transaction.Delete | src/kvstore/transaction.py:40-47 | an inactive transaction raises ValueError and is not changed; otherwise the level becomes `Remove(key)` |
| Transactions.Transaction.HasKey | src/kvstore/transaction.py:49-51 | at a consistent level, a key is written there exactly when reading it from that level alone succeeds, and a written key is not tombstoned there |
| Transactions.Transaction.IsDeleted | src/kvstore/transaction.py:53-55 | reading a tombstoned key at this level fails with KeyError |
| Transactions.Transaction.GetValue | src/kvstore/transaction.py:57-61 | this level's answer is the read of this level alone |
| Transactions.ReplayInto | src/kvstore/transaction.py:108-114 | replaying the child's sets, then its deletes, leaves the parent as `Merge(parent, child)` |
| Transactions.ReplayWrites | src/kvstore/transaction.py:108-110 | each replayed `set` overwrites the parent's write and cancels its tombstone |
| Transactions.ReplayDeletions | src/kvstore/transaction.py:112-114 | each replayed `delete` tombstones the key in the parent and drops its write |
| Transactions.TransactionManager.constructor | src/kvstore/transaction.py:67-77 | starts with an empty stack; the committed snapshot is empty without a backend, and otherwise is loaded from the backend |
| Transactions.TransactionManager.HasActiveTransaction | src/kvstore/transaction.py:179-181 | true exactly when the stack holds a level |
| Transactions.TransactionManager.Begin | src/kvstore/transaction.py:89-94 | the state becomes `Step(Begin)`: one new empty level on top, the lower levels unchanged; the returned id is the current id and differs from every id below it |
| Transactions.TransactionManager.Get | src/kvstore/transaction.py:142-155 | the innermost-first scan returns `Lookup` of the stack over the snapshot, and changes nothing |
| Transactions.TransactionManager.Set | src/kvstore/transaction.py:157-163 | behaves as `Step(Set)`: ValueError on an empty stack, otherwise a write in the top level |
| Transactions.TransactionManager.Delete | src/kvstore/transaction.py:165-177 | behaves as `Step(Delete)`: ValueError on an empty stack; KeyError when the key is not visible, changing nothing; otherwise a tombstone in the top level |
| Transactions.TransactionManager.TombstoneInTop | src/kvstore/transaction.py:176-177 | only the top level changes, becoming `Remove(key)` |
| Transactions.TransactionManager.Commit | src/kvstore/transaction.py:96-131 | when the backend does not raise, behaves as `Step(Commit)`; when it raises, the level stays popped, the snapshot is unchanged and RuntimeError propagates; the popped transaction is COMMITTED |
| Transactions.TransactionManager.PopAs | src/kvstore/transaction.py:101-102 | pops exactly the top level and leaves it in the given state |
| Transactions.TransactionManager.MergeIntoTop | src/kvstore/transaction.py:104-114 | the new top level becomes `Merge(top, child)`; the other levels and the snapshot are unchanged |
| Transactions.TransactionManager.Flush | src/kvstore/transaction.py:115-131 | the snapshot becomes `ApplyCommit` of the level, through the backend and a reload or directly; a durable write that raises leaves the snapshot unchanged |
| Transactions.TransactionManager.FlushToSnapshot | src/kvstore/transaction.py:126-131 | assigning the changes and then popping the tombstoned keys gives `ApplyCommit` |
| Transactions.TransactionManager.Close | src/kvstore/transaction.py:189-192 | closes the backend; what it holds is unchanged |
| Transactions.TransactionManager.Rollback | src/kvstore/transaction.py:133-140 | behaves as `Step(Rollback)`: ValueError on an empty stack, otherwise the top level is dropped; the popped transaction is ROLLED_BACK |
| Facade.Translate | src/kvstore/store.py:70-73 | a caught KeyError becomes KeyNotFoundError; a caught ValueError becomes TransactionError; any fault that is not caught propagates unchanged |
| Facade.StoreStep | src/kvstore/store.py:56-161 | outside a transaction every operation but begin raises NoActiveTransactionError; otherwise it succeeds exactly when the manager's step does, with the same new state |
| Facade.StoreGet | src/kvstore/store.py:75-95 | outside a transaction, NoActiveTransactionError; otherwise the stack's read, with a miss becoming KeyNotFoundError |
| Facade.StoreRaisesOnlyGuardErrors | src/kvstore/store.py:67-161 | apart from a durable backend's RuntimeError on commit (stated by `Facade.Store.Commit`), the store raises only NoActiveTransactionError, or KeyNotFoundError from delete; the ValueError-to-TransactionError branches are unreachable |
| Facade.StoreFailuresAreStoreErrors | src/kvstore/store.py:56-161 | everything the store raises of its own is a StoreError |
| Facade.GuardErrorIsTransactionError | src/kvstore/store.py:67-68 | the refusal outside a transaction is a TransactionError |
| Facade.DeleteMissingRaisesKeyNotFound | src/kvstore/store.py:111-114 | deleting a key that does not read raises KeyNotFoundError and changes nothing |
| Facade.CommitAndRollbackCloseOneLevel | src/kvstore/store.py:127-161 | inside a transaction, commit and rollback succeed and close exactly one level; a transaction is still active afterwards exactly when more than one was open |
| Facade.Store.constructor | src/kvstore/store.py:45-54 | a store starts with no transaction and with what its backend holds |
| Facade.Store.Set | src/kvstore/store.py:56-73 | behaves as `StoreStep(Set)`; the open transactions and their ids are kept |
| Facade.Store.Get | src/kvstore/store.py:75-95 | returns `StoreGet` of the current state and changes nothing |
| Facade.Store.Delete | src/kvstore/store.py:97-116 | behaves as `StoreStep(Delete)`; the open transactions and their ids are kept, also after KeyNotFoundError |
| Facade.Store.Begin | src/kvstore/store.py:118-125 | behaves as `StoreStep(Begin)`, with no guard; the open transactions stay below it, and the returned id is the current transaction id |
| Facade.Store.Commit | src/kvstore/store.py:127-144 | when the backend does not raise, behaves as `StoreStep(Commit)`; a backend failure surfaces as an untranslated RuntimeError, with the level popped and the snapshot unchanged; in both cases the open transactions are the old ones minus the innermost |
| Facade.Store.Rollback | src/kvstore/store.py:146-161 | behaves as `StoreStep(Rollback)`; the open transactions are the old ones minus the innermost, so the one around it becomes current |
| Facade.Store.HasActiveTransaction | src/kvstore/store.py:165-172 | true exactly when rollback would succeed, that is when the stack holds a level |
| Facade.Store.CurrentTransactionId | src/kvstore/store.py:174-181 | an id exactly when a transaction is open; it is the innermost transaction's id, newer than every id below it |
| Facade.Store.GetCommittedData | src/kvstore/store.py:183-190 | returns the committed snapshot |
| Facade.Store.Close | src/kvstore/store.py:192-199 | closes a durable backend's connection; what the backend holds is unchanged |
| Scenarios.BeginWith | tests/test_store.py:293-305 | begin then set: one new top level holding exactly that write |
| Scenarios.NestedRollbackScenario | tests/test_store.py:293-327 | a=50, then nested a=60 reads 60; after the rollback it reads 50, and 50 is committed |
| Scenarios.NestedCommitScenario | tests/test_store.py:329-348 | with the inner transaction committed instead, the outer one reads 60 and commits 60 |
| Scenarios.RestartScenario | tests/test_integration.py:179-228 | a value committed through SQLite is read back equal by a new store on the same file |
| Scenarios.SaveAndClose | tests/test_integration.py:186-216 | the committed value is among the decoded rows left in the file |
| Scenarios.ReopenAndRead | tests/test_integration.py:219-228 | a new store on the file reads each stored key's decoded value; a missing key raises KeyNotFoundError |
| Scenarios.NestedIdsScenario | tests/test_api_comprehensive.py:152-167 | three nested begins give distinct ids; each rollback makes the enclosing transaction's id current again; after the third no transaction is active |
| Scenarios.NoTransactionScenario | src/kvstore/store.py:67-139 | outside a transaction set, get and commit raise NoActiveTransactionError, and nothing is committed |
| Scenarios.FailedCommitScenario | src/kvstore/storage.py:112-114 | a durable write that raises reaches the caller as RuntimeError; no transaction stays open and nothing is committed |
| Scenarios.FirstTransaction | tests/test_persistence.py:307-310 | commits key1 and key2 |
| Scenarios.SecondTransaction | tests/test_persistence.py:311-314 | writes key3, deletes key1 and commits |
| Scenarios.TwoCommits | tests/test_persistence.py:306-324 | the two transactions leave the same committed data on any backend |
| Scenarios.SecondCommitLeaves | tests/test_persistence.py:326-329 | key1 is gone, key2 is 42, key3 is the nested object |
| Scenarios.BackendsAgreeScenario | tests/test_persistence.py:304-329 | the durable and the in-memory store, driven through the same operations, end with identical committed data |

## Left out

- Async variants (`async_store.py`, `async_transaction.py`, `async_storage.py`) are not part of this model. Their point is serialisation under an `asyncio.Lock`. Their `delete` check diverges (src/kvstore/async_transaction.py:140-159): a tombstone ends the scan and falls through to the committed data. So deleting an already-deleted key that is still committed succeeds there but raises here.
- SQLite plumbing is not modelled. This covers the connection object, `PRAGMA`, `CREATE TABLE` and timestamps; the `transaction_log` helpers; and `backup_data`/`restore_data`. The `kv_data` table is a map from key to stored text, and the connection is a flag.
- Database errors are environment input. A `DbFault` parameter says at which statement, if any, the database raises. It is threaded through `Commit` as an extra parameter that the Python signatures do not have.
- Connecting to the database (src/kvstore/storage.py:46, also reached from `commit_transaction` outside its `try`) and reading the table back (src/kvstore/storage.py:77-78, the reload after a top-level commit at src/kvstore/transaction.py:124) are assumed never to fail. The model therefore excludes a sqlite3 error escaping `initialize` or `get_committed_data`. It also excludes the state a failed reload leaves behind: the table already written while the manager's committed snapshot is stale, which `TransactionManager.Valid` rules out.
- JSON encoding and decoding (`json.dumps`/`json.loads`) are an abstract `Codec`. Their round trip is assumed as a precondition of opening a `SQLiteStorage`. Floating-point values are not in the value type. Values the encoder cannot serialise do not arise.
- `uuid.uuid4()` ids are replaced by a counter. Distinct ids are therefore a consequence of the model, whereas for the source they are an assumption.
- `Transaction.parent` is not modelled: it is stored but never read.
- The lazy `committed_data` property re-loads when its cache is `None`. That branch is unreachable, because the constructor always fills the cache, so the snapshot is a plain map.
- Context managers (`__enter__`/`__exit__`) are left out. Python aliasing of values returned by `get` does not arise, because values are immutable here.
- Facade.Store.Commit: when the backend raises, it states the outcome, the empty stack and the unchanged snapshot directly, not through `StoreStep`, which describes only a commit the backend accepts.
- Transactions.TransactionManager.Commit: the same for a raising backend, stated directly and not through `Step`.
- Facade.Store.Set and Facade.Store.Rollback do not write the `except ValueError: raise TransactionError` branch (src/kvstore/store.py:70-73, 158-161). Their guard leaves a transaction open, so the manager cannot raise ValueError there, and their `StoreStep` postconditions show that the branch is dead.
- Scenarios.NestedRollbackScenario: states the committed value of `a`, which is what the test checks, not the whole committed map.
- Scenarios.NestedCommitScenario: states the committed value of `a`, which is what the test checks, not the whole committed map.
- The Django API, the demo scripts and the timing-based tests are outside the engine and not part of this model.
