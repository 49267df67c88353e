/**
  Client sessions against the public store, each proved to end as the
  store's documentation and its tests describe.
*/
module Scenarios {
  import opened KvTypes
  import opened Storage
  import opened Visibility
  import opened Facade

  /** Opens a transaction and writes one key in it. */
  method BeginWith(store: Store, key: Key, value: Json)
    requires store.Valid()
    modifies store.manager.Repr
    ensures store.Valid() && fresh(store.manager.Repr - old(store.manager.Repr))
    ensures store.manager.levels == old(store.manager.levels) + [Level(map[key := value], {})]
    ensures store.manager.committed == old(store.manager.committed)
  {
    var _ := store.Begin();
    assert store.manager.levels == old(store.manager.levels) + [Empty];
    var _ := store.Set(key, value);
    assert Empty.Put(key, value) == Level(map[key := value], {});
  }

  /**
    The nested example the store is built around: an outer transaction writes
    a = 50, an inner one overwrites it with 60 and is rolled back; the outer
    one then sees 50 again and commits it.
  */
  method NestedRollbackScenario()
    returns (outer: Result<Json, StoreFailure>, inner: Result<Json, StoreFailure>,
             afterRollback: Result<Json, StoreFailure>, committed: map<Key, Json>)
    ensures outer == Success(JInt(50)) && inner == Success(JInt(60))
    ensures afterRollback == Success(JInt(50))
    ensures "a" in committed && committed["a"] == JInt(50)
  {
    var store := new Store(NoBackend);
    ghost var fifty := Level(map["a" := JInt(50)], {});
    BeginWith(store, "a", JInt(50));
    assert store.manager.levels == [fifty];
    outer := store.Get("a");
    BeginWith(store, "a", JInt(60));
    inner := store.Get("a");
    var _ := store.Rollback();
    assert store.manager.levels == [fifty];
    afterRollback := store.Get("a");
    var _ := store.Commit(NoFault);
    committed := store.GetCommittedData();
  }

  /** The same example with the inner transaction committed: the outer one then sees, and commits, 60. */
  method NestedCommitScenario() returns (afterInner: Result<Json, StoreFailure>, committed: map<Key, Json>)
    ensures afterInner == Success(JInt(60))
    ensures "a" in committed && committed["a"] == JInt(60)
  {
    var store := new Store(NoBackend);
    ghost var fifty, sixty := Level(map["a" := JInt(50)], {}), Level(map["a" := JInt(60)], {});
    BeginWith(store, "a", JInt(50));
    assert store.manager.levels == [fifty];
    BeginWith(store, "a", JInt(60));
    assert store.manager.levels == [fifty, sixty];
    var _ := store.Commit(NoFault);
    assert store.manager.levels == [Merge(fifty, sixty)];
    afterInner := store.Get("a");
    var _ := store.Commit(NoFault);
    committed := store.GetCommittedData();
  }

  /**
    Durability: a value committed through the durable backend is read back
    unchanged by a new store opened on the same database file after the
    first one is closed.
  */
  method RestartScenario(codec: Codec, key: Key, value: Json) returns (read: Result<Json, StoreFailure>)
    requires RoundTrips(codec)
    ensures read == Success(value)
  {
    var rows := SaveAndClose(codec, key, value);
    read := ReopenAndRead(codec, rows, key);
  }

  /** Writes one key through a store on a new database file, commits, closes it and returns the file's rows. */
  method SaveAndClose(codec: Codec, key: Key, value: Json) returns (rows: map<Key, string>)
    requires RoundTrips(codec)
    ensures key in Decoded(codec, rows) && Decoded(codec, rows)[key] == value
  {
    var file := new SQLiteStorage(codec, map[]);
    var store := new Store(Durable(file));
    BeginWith(store, key, value);
    var _ := store.Commit(NoFault);
    ghost var saved := store.manager.committed;
    assert key in saved && saved[key] == value;
    store.Close();
    rows := file.rows;
  }

  /** Opens a store on a database file holding `rows` and reads `key` inside a transaction it then rolls back. */
  method ReopenAndRead(codec: Codec, rows: map<Key, string>, key: Key) returns (read: Result<Json, StoreFailure>)
    requires RoundTrips(codec)
    ensures key in Decoded(codec, rows) ==> read == Success(Decoded(codec, rows)[key])
    ensures key !in Decoded(codec, rows) ==> read == Failure(Raised(Exceptions.KeyNotFoundError))
  {
    var file := new SQLiteStorage(codec, rows);
    var store := new Store(Durable(file));
    BeginPreservesLookup(store.manager.Snap(), key);
    var _ := store.Begin();
    read := store.Get(key);
    var _ := store.Rollback();
    store.Close();
  }

  /**
    Three nested `begin`s hand out three distinct ids; each `rollback` closes
    the innermost transaction and makes the one around it current again.
  */
  method NestedIdsScenario() returns (t1: TxId, t2: TxId, t3: TxId,
                                      afterFirst: Option<TxId>, afterSecond: Option<TxId>, active: bool)
    ensures t1 != t2 && t2 != t3 && t1 != t3
    ensures afterFirst == Some(t2) && afterSecond == Some(t1)
    ensures !active
  {
    var store := new Store(NoBackend);
    t1 := store.Begin();
    t2 := store.Begin();
    t3 := store.Begin();
    var _ := store.Rollback();
    afterFirst := store.CurrentTransactionId();
    var _ := store.Rollback();
    afterSecond := store.CurrentTransactionId();
    var _ := store.Rollback();
    active := store.HasActiveTransaction();
  }

  /** Outside a transaction every data operation is refused and the committed data stays as it was. */
  method NoTransactionScenario() returns (write: Outcome<StoreFailure>, get: Result<Json, StoreFailure>,
                                         commit: Outcome<StoreFailure>, committed: map<Key, Json>)
    ensures write == Fail(Raised(Exceptions.NoActiveTransactionError))
    ensures get == Failure(Raised(Exceptions.NoActiveTransactionError))
    ensures commit == Fail(Raised(Exceptions.NoActiveTransactionError))
    ensures committed == map[]
  {
    var memory := new InMemoryStorage();
    var store := new Store(InMemory(memory));
    write := store.Set("a", JInt(1));
    get := store.Get("a");
    commit := store.Commit(NoFault);
    committed := store.GetCommittedData();
  }

  /**
    A failing durable commit: the database raises while writing the
    transaction, the error reaches the caller as RuntimeError, the
    transaction is gone and the committed data is what it was.
  */
  method FailedCommitScenario(codec: Codec)
    returns (commit: Outcome<StoreFailure>, active: bool, committed: map<Key, Json>)
    requires RoundTrips(codec)
    ensures commit == Fail(Builtin(RuntimeError))
    ensures !active && committed == map[]
  {
    var file := new SQLiteStorage(codec, map[]);
    var store := new Store(Durable(file));
    var _ := store.Begin();
    var _ := store.Set("a", JInt(1));
    commit := store.Commit(FailsOn("a"));
    active := store.HasActiveTransaction();
    committed := store.GetCommittedData();
  }

  /** The two commits both backends are driven through. */
  function FirstWrites(): map<Key, Json>
  {
    map["key1" := JStr("value1"), "key2" := JInt(42)]
  }

  function NestedValue(): Json
  {
    JObject(map["nested" := JStr("data")])
  }

  /** Commits key1 and key2 in one top-level transaction. */
  method FirstTransaction(store: Store)
    requires store.Valid() && store.manager.levels == []
    modifies store.manager.Repr
    ensures store.Valid() && fresh(store.manager.Repr - old(store.manager.Repr))
    ensures store.manager.levels == []
    ensures store.manager.committed == ApplyCommit(old(store.manager.committed), FirstWrites(), {})
  {
    BeginWith(store, "key1", JStr("value1"));
    var _ := store.Set("key2", JInt(42));
    assert Level(map["key1" := JStr("value1")], {}).Put("key2", JInt(42)) == Level(FirstWrites(), {});
    assert store.manager.levels == [Level(FirstWrites(), {})];
    var _ := store.Commit(NoFault);
  }

  /** In a second top-level transaction writes key3 and deletes the (visible) key1. */
  method SecondTransaction(store: Store)
    requires store.Valid() && store.manager.levels == [] && "key1" in store.manager.committed
    modifies store.manager.Repr
    ensures store.Valid() && fresh(store.manager.Repr - old(store.manager.Repr))
    ensures store.manager.levels == []
    ensures store.manager.committed
         == ApplyCommit(old(store.manager.committed), map["key3" := NestedValue()], {"key1"})
  {
    BeginWith(store, "key3", NestedValue());
    ghost var written := Level(map["key3" := NestedValue()], {});
    assert store.manager.levels == [written];
    assert Lookup([written], store.manager.committed, "key1").Success?;
    var _ := store.Delete("key1");
    assert written.Remove("key1") == Level(map["key3" := NestedValue()], {"key1"});
    assert store.manager.levels == [Level(map["key3" := NestedValue()], {"key1"})];
    var _ := store.Commit(NoFault);
  }

  /** The two transactions, from an empty store; returns the committed data they leave. */
  method TwoCommits(store: Store) returns (data: map<Key, Json>)
    requires store.Valid() && store.manager.levels == [] && store.manager.committed == map[]
    modifies store.manager.Repr
    ensures data == ApplyCommit(FirstWrites(), map["key3" := NestedValue()], {"key1"})
  {
    FirstTransaction(store);
    assert store.manager.committed == FirstWrites();
    SecondTransaction(store);
    data := store.GetCommittedData();
  }

  /** What the two transactions leave committed. */
  lemma SecondCommitLeaves()
    ensures var data := ApplyCommit(FirstWrites(), map["key3" := NestedValue()], {"key1"});
      && "key1" !in data
      && "key2" in data && data["key2"] == JInt(42)
      && "key3" in data && data["key3"] == NestedValue()
  {
  }

  /**
    The durable and the in-memory backend, driven through the same
    operations from empty, end with the same committed data.
  */
  method BackendsAgreeScenario(codec: Codec) returns (durable: map<Key, Json>, memory: map<Key, Json>)
    requires RoundTrips(codec)
    ensures durable == memory
    ensures "key1" !in durable
    ensures "key2" in durable && durable["key2"] == JInt(42)
    ensures "key3" in durable && durable["key3"] == NestedValue()
  {
    SecondCommitLeaves();
    var file := new SQLiteStorage(codec, map[]);
    var onDisk := new Store(Durable(file));
    assert onDisk.manager.committed == map[];
    durable := TwoCommits(onDisk);

    var table := new InMemoryStorage();
    var inMemory := new Store(InMemory(table));
    memory := TwoCommits(inMemory);
  }
}
