/**
  The transaction levels and the manager that keeps them on a stack. Each
  `Transaction` object holds one level's pending writes and tombstones and is
  mutated in place; the `TransactionManager` pushes, pops and merges levels and
  flushes a top-level commit into the committed mapping or a storage backend.
  Every mutating operation is proved against `Visibility.Step`.
*/
module Transactions {
  import opened KvTypes
  import opened Storage
  import opened Visibility

  datatype TransactionState = Active | Committed | RolledBack

  /** One level of nesting. */
  class Transaction {
    const id: TxId
    var state: TransactionState
    var changes: map<Key, Json>
    var deletedKeys: set<Key>

    constructor (id: TxId)
      ensures this.id == id && state == Active
      ensures changes == map[] && deletedKeys == {}
    {
      this.id := id;
      state := Active;
      changes := map[];
      deletedKeys := {};
    }

    /** This level as a value. */
    ghost function View(): Level
      reads this
    {
      Level(changes, deletedKeys)
    }

    /**
      Records a write: the key maps to the value at this level and a pending
      deletion of it here is cancelled. A transaction that is no longer active
      raises ValueError and is left as it is.
    */
    method Set(key: Key, value: Json) returns (out: Outcome<Fault>)
      modifies this
      ensures state == old(state)
      ensures old(state) != Active ==> out == Fail(ValueError) && View() == old(View())
      ensures old(state) == Active ==> out == Pass && View() == old(View()).Put(key, value)
    {
      if state != Active {
        return Fail(ValueError);
      }
      changes := changes[key := value];
      deletedKeys := deletedKeys - {key};
      out := Pass;
    }

    /**
      Records a deletion: the key is tombstoned at this level and a pending
      write of it here is dropped. A transaction that is no longer active
      raises ValueError and is left as it is.
    */
    method Delete(key: Key) returns (out: Outcome<Fault>)
      modifies this
      ensures state == old(state)
      ensures old(state) != Active ==> out == Fail(ValueError) && View() == old(View())
      ensures old(state) == Active ==> out == Pass && View() == old(View()).Remove(key)
    {
      if state != Active {
        return Fail(ValueError);
      }
      deletedKeys := deletedKeys + {key};
      changes := changes - {key};
      out := Pass;
    }

    /** The key was written at this level; while the level is consistent, exactly when reading it here succeeds. */
    function HasKey(key: Key): (b: bool)
      reads this
      ensures b && View().Disjoint() ==> !IsDeleted(key)
      ensures View().Disjoint() ==> (b <==> GetValue(key).Success?)
    {
      key in changes
    }

    /** The key was deleted at this level; reading it here then fails. */
    function IsDeleted(key: Key): (b: bool)
      reads this
      ensures b ==> GetValue(key) == Failure(KeyError)
    {
      key in deletedKeys
    }

    /** The value written at this level, read as if this level alone stood above nothing. */
    function GetValue(key: Key): (r: Result<Json, Fault>)
      reads this
      ensures r == Lookup([View()], map[], key)
    {
      if key in deletedKeys then Failure(KeyError)
      else if key in changes then Success(changes[key])
      else Failure(KeyError)
    }
  }

  /**
    Replays a committed child's writes as `set`s and then its tombstones as
    `delete`s onto its (active) parent.
  */
  method ReplayInto(parent: Transaction, changes: map<Key, Json>, deleted: set<Key>)
    requires parent.state == Active
    modifies parent
    ensures parent.state == Active
    ensures parent.View() == Merge(old(parent.View()), Level(changes, deleted))
  {
    ReplayWrites(parent, changes);
    ReplayDeletions(parent, deleted);
  }

  /** The `set` half of a nested commit. */
  method ReplayWrites(parent: Transaction, changes: map<Key, Json>)
    requires parent.state == Active
    modifies parent
    ensures parent.state == Active
    ensures parent.changes == old(parent.changes) + changes
    ensures parent.deletedKeys == old(parent.deletedKeys) - changes.Keys
  {
    ghost var applied: map<Key, Json> := map[];
    var pending := changes.Keys;
    while pending != {}
      invariant pending <= changes.Keys
      invariant parent.state == Active
      invariant applied.Keys == changes.Keys - pending
      invariant forall k :: k in applied ==> applied[k] == changes[k]
      invariant parent.changes == old(parent.changes) + applied
      invariant parent.deletedKeys == old(parent.deletedKeys) - applied.Keys
      decreases pending
    {
      var k :| k in pending;
      var _ := parent.Set(k, changes[k]);
      applied := applied[k := changes[k]];
      pending := pending - {k};
    }
    assert applied == changes;
  }

  /** The `delete` half of a nested commit. */
  method ReplayDeletions(parent: Transaction, deleted: set<Key>)
    requires parent.state == Active
    modifies parent
    ensures parent.state == Active
    ensures parent.changes == old(parent.changes) - deleted
    ensures parent.deletedKeys == old(parent.deletedKeys) + deleted
  {
    var left := deleted;
    while left != {}
      invariant left <= deleted
      invariant parent.state == Active
      invariant parent.changes == old(parent.changes) - (deleted - left)
      invariant parent.deletedKeys == old(parent.deletedKeys) + (deleted - left)
      decreases left
    {
      var k :| k in left;
      var _ := parent.Delete(k);
      left := left - {k};
    }
  }

  /** The transaction stack over a committed snapshot and an optional storage backend. */
  class TransactionManager {
    var stack: seq<Transaction>
    var committed: map<Key, Json>
    /** Stands in for random ids: the next id `begin` hands out. */
    var nextId: TxId
    const backend: Backend
    /** The stack as values, outermost level first. */
    ghost var levels: seq<Level>
    ghost var Repr: set<object>

    /**
      Every level on the stack is an active transaction whose writes and
      tombstones are disjoint, ids grow strictly from the bottom of the stack
      up (so the levels are distinct objects), and the committed snapshot is
      what the backend would return.
    */
    ghost predicate Valid()
      reads this, Repr
    {
      && this in Repr
      && backend.Objects() <= Repr
      && backend.Valid()
      && |levels| == |stack|
      && (forall i :: 0 <= i < |stack| ==>
            && stack[i] in Repr
            && stack[i].state == Active
            && stack[i].View() == levels[i]
            && levels[i].Disjoint()
            && stack[i].id < nextId)
      && (forall i, j :: 0 <= i < j < |stack| ==> stack[i].id < stack[j].id)
      && (!backend.NoBackend? ==> committed == backend.CommittedView())
    }

    /** The abstract state that `Visibility.Step` describes. */
    ghost function Snap(): Snapshot
      reads this
    {
      Snapshot(levels, committed)
    }

    /** The operation behaved as `Step` says, starting from `before`. */
    ghost predicate Follows(before: Snapshot, op: Op, out: Outcome<Fault>)
      reads this
    {
      match Step(before, op)
      case Success(after) => out == Pass && Snap() == after
      case Failure(e) => out == Fail(e) && Snap() == before
    }

    /** Loads the committed snapshot from the backend, if there is one. */
    constructor (backend: Backend)
      requires backend.Valid()
      modifies backend.Objects()
      ensures Valid() && fresh(Repr - backend.Objects())
      ensures this.backend == backend && stack == [] && levels == []
      ensures backend.NoBackend? ==> committed == map[]
      ensures backend.CommittedView() == old(backend.CommittedView())
    {
      var c: map<Key, Json>;
      match backend {
        case NoBackend =>
          c := map[];
        case InMemory(m) =>
          m.Initialize();
          c := m.GetCommittedData();
        case Durable(d) =>
          d.Initialize();
          c := d.GetCommittedData();
      }
      stack := [];
      levels := [];
      committed := c;
      nextId := 0;
      this.backend := backend;
      Repr := {this} + backend.Objects();
    }

    /** There is an active transaction exactly when the stack holds a level. */
    function HasActiveTransaction(): (b: bool)
      reads this, Repr
      requires Valid()
      ensures b <==> |levels| > 0
    {
      |stack| > 0
    }

    /** The innermost transaction's id, or None when no transaction is active. */
    function CurrentTransactionId(): (r: Option<TxId>)
      reads this
      ensures r.Some? <==> |stack| > 0
      ensures r.Some? ==> r.value == stack[|stack| - 1].id
    {
      if |stack| > 0 then Some(stack[|stack| - 1].id) else None
    }

    /** Pushes a fresh, empty level above the current one and returns its id. */
    method Begin() returns (id: TxId)
      requires Valid()
      modifies Repr
      ensures Valid() && fresh(Repr - old(Repr))
      ensures Snap() == Step(old(Snap()), Op.Begin).value
      ensures stack[..|stack| - 1] == old(stack) && fresh(stack[|stack| - 1])
      ensures CurrentTransactionId() == Some(id)
      ensures forall i :: 0 <= i < |old(stack)| ==> id != old(stack)[i].id
    {
      id := nextId;
      var t := new Transaction(id);
      stack := stack + [t];
      levels := levels + [Empty];
      nextId := nextId + 1;
      Repr := Repr + {t};
      assert stack[..|stack| - 1] == old(stack);
    }

    /**
      A read: scans from the innermost level outwards; the first level that
      tombstones the key raises KeyError, the first that writes it answers,
      and otherwise the committed snapshot answers or KeyError is raised.
    */
    method Get(key: Key) returns (r: Result<Json, Fault>)
      requires Valid()
      ensures r == Lookup(levels, committed, key)
    {
      var i := |stack|;
      assert levels[..i] == levels;
      while i > 0
        invariant 0 <= i <= |stack|
        invariant Lookup(levels, committed, key) == Lookup(levels[..i], committed, key)
      {
        i := i - 1;
        var t := stack[i];
        assert levels[..i + 1][..i] == levels[..i];
        if t.IsDeleted(key) {
          return Failure(KeyError);
        }
        if t.HasKey(key) {
          return t.GetValue(key);
        }
      }
      if key in committed {
        return Success(committed[key]);
      }
      return Failure(KeyError);
    }

    /** A write into the innermost level; ValueError when no transaction is active. */
    method Set(key: Key, value: Json) returns (out: Outcome<Fault>)
      requires Valid()
      modifies Repr
      ensures Valid() && Repr == old(Repr)
      ensures Follows(old(Snap()), Op.Set(key, value), out)
      ensures stack == old(stack)
      ensures out.Fail? ==> unchanged(Repr)
    {
      if |stack| == 0 {
        return Fail(ValueError);
      }
      var n := |stack|;
      var top := stack[n - 1];
      out := top.Set(key, value);
      levels := levels[..n - 1] + [levels[n - 1].Put(key, value)];
    }

    /**
      A deletion in the innermost level. It first checks the key is visible,
      as a read would: an invisible key raises KeyError and nothing changes.
      ValueError when no transaction is active.
    */
    method Delete(key: Key) returns (out: Outcome<Fault>)
      requires Valid()
      modifies Repr
      ensures Valid() && Repr == old(Repr)
      ensures Follows(old(Snap()), Op.Delete(key), out)
      ensures stack == old(stack)
      ensures out.Fail? ==> unchanged(Repr)
    {
      if |stack| == 0 {
        return Fail(ValueError);
      }
      var seen := Get(key);
      if seen.Failure? {
        return Fail(KeyError);
      }
      TombstoneInTop(key);
      out := Pass;
    }

    /** The write half of a deletion: the innermost level tombstones `key`. */
    method TombstoneInTop(key: Key)
      requires Valid() && |stack| > 0
      modifies Repr
      ensures Valid() && Repr == old(Repr)
      ensures stack == old(stack) && committed == old(committed)
      ensures levels == old(levels[..|levels| - 1]) + [old(levels[|levels| - 1]).Remove(key)]
    {
      var n := |stack|;
      var top := stack[n - 1];
      var _ := top.Delete(key);
      levels := levels[..n - 1] + [levels[n - 1].Remove(key)];
    }

    /**
      A top-level commit on the durable backend whose write runs into `fault`:
      the database raises and the commit fails.
    */
    ghost predicate BackendFails(fault: DbFault)
      reads this
    {
      |levels| == 1 && backend.Durable? && fault.Hits(levels[0].changes.Keys, levels[0].deleted)
    }

    /**
      Pops the innermost level and marks it committed. A nested commit replays
      it into the new innermost level; a top-level commit writes it to the
      backend (and reloads the snapshot from it) or, without a backend, applies
      it to the snapshot. ValueError when no transaction is active. When the
      durable backend raises, the level stays popped, the snapshot is left as
      it was and RuntimeError is raised. `fault` is where, if anywhere, the
      database raises.
    */
    method Commit(fault: DbFault) returns (out: Outcome<Fault>)
      requires Valid()
      modifies Repr
      ensures Valid() && Repr <= old(Repr)
      ensures !old(BackendFails(fault)) ==> Follows(old(Snap()), Op.Commit, out)
      ensures old(BackendFails(fault)) ==>
        out == Fail(RuntimeError) && stack == [] && levels == [] && committed == old(committed)
      ensures |old(stack)| > 0 ==> old(stack[|stack| - 1]).state == Committed
      ensures |old(stack)| > 0 ==> stack == old(stack[..|stack| - 1])
      ensures out == Fail(ValueError) ==> unchanged(Repr)
    {
      if |stack| == 0 {
        return Fail(ValueError);
      }
      var n := |stack|;
      var changes, deleted := PopAs(Committed);
      if n > 1 {
        MergeIntoTop(changes, deleted);
        out := Pass;
      } else {
        out := Flush(changes, deleted, fault);
      }
    }

    /**
      Pops the innermost level, leaving it in state `s`, and hands back its
      writes and tombstones; the popped transaction leaves the footprint.
    */
    method PopAs(s: TransactionState) returns (changes: map<Key, Json>, deleted: set<Key>)
      requires Valid() && |stack| > 0
      modifies Repr
      ensures Valid() && Repr <= old(Repr)
      ensures stack == old(stack[..|stack| - 1]) && levels == old(levels[..|levels| - 1])
      ensures committed == old(committed)
      ensures Level(changes, deleted) == old(levels[|levels| - 1])
      ensures old(stack[|stack| - 1]) !in Repr && old(stack[|stack| - 1]).state == s
    {
      var n := |stack|;
      var current := stack[n - 1];
      stack := stack[..n - 1];
      levels := levels[..n - 1];
      Repr := Repr - {current};
      current.state := s;
      changes, deleted := current.changes, current.deletedKeys;
    }

    /** The nested half of a commit: the popped level is replayed into the new innermost level. */
    method MergeIntoTop(changes: map<Key, Json>, deleted: set<Key>)
      requires Valid() && |stack| > 0
      modifies Repr
      ensures Valid() && Repr == old(Repr)
      ensures stack == old(stack) && committed == old(committed)
      ensures levels == old(levels)[..|stack| - 1] + [Merge(old(levels)[|stack| - 1], Level(changes, deleted))]
    {
      var n := |stack|;
      var parent := stack[n - 1];
      ReplayInto(parent, changes, deleted);
      levels := levels[..n - 1] + [Merge(levels[n - 1], Level(changes, deleted))];
    }

    /**
      The top-level half of a commit: the popped level goes to the backend,
      whose table is then reloaded as the snapshot, or without a backend
      straight into the snapshot.
    */
    method Flush(changes: map<Key, Json>, deleted: set<Key>, fault: DbFault) returns (out: Outcome<Fault>)
      requires Valid() && stack == []
      modifies Repr
      ensures Valid() && Repr == old(Repr) && stack == [] && levels == []
      ensures backend.Durable? && fault.Hits(changes.Keys, deleted) ==>
        out == Fail(RuntimeError) && committed == old(committed)
      ensures !(backend.Durable? && fault.Hits(changes.Keys, deleted)) ==>
        out == Pass && committed == ApplyCommit(old(committed), changes, deleted)
    {
      match backend {
        case Durable(db) =>
          out := db.CommitTransaction(changes, deleted, fault);
          if out.Pass? {
            DurableCommitMatchesInMemory(db.codec, old(db.rows), changes, deleted);
            committed := db.GetCommittedData();
          }
        case InMemory(mem) =>
          mem.CommitTransaction(changes, deleted);
          committed := mem.GetCommittedData();
          out := Pass;
        case NoBackend =>
          FlushToSnapshot(changes, deleted);
          out := Pass;
      }
    }

    /** The no-backend top-level commit: assigns each write, then removes each tombstoned key. */
    method FlushToSnapshot(changes: map<Key, Json>, deleted: set<Key>)
      modifies this
      ensures committed == ApplyCommit(old(committed), changes, deleted)
      ensures stack == old(stack) && levels == old(levels) && nextId == old(nextId) && Repr == old(Repr)
    {
      var pending := changes.Keys;
      while pending != {}
        invariant pending <= changes.Keys
        invariant committed == old(committed) + (map k | k in changes && k !in pending :: changes[k])
        invariant stack == old(stack) && levels == old(levels) && nextId == old(nextId) && Repr == old(Repr)
        decreases pending
      {
        var k :| k in pending;
        committed := committed[k := changes[k]];
        pending := pending - {k};
      }
      assert committed == old(committed) + changes;
      var left := deleted;
      while left != {}
        invariant left <= deleted
        invariant committed == (old(committed) + changes) - (deleted - left)
        invariant stack == old(stack) && levels == old(levels) && nextId == old(nextId) && Repr == old(Repr)
        decreases left
      {
        var k :| k in left;
        committed := committed - {k};
        left := left - {k};
      }
    }

    /** Closes the backend's connection, if it has one; the stack, the snapshot and the stored rows stay. */
    method Close()
      requires Valid()
      modifies backend.Objects()
      ensures Valid()
      ensures backend.CommittedView() == old(backend.CommittedView())
      ensures backend.Durable? ==> !backend.db.connected
    {
      match backend {
        case Durable(db) =>
          db.Close();
        case InMemory(mem) =>
          mem.Close();
        case NoBackend =>
      }
    }

    /**
      Pops the innermost level, marks it rolled back and discards it; the
      levels below and the snapshot are untouched. ValueError when no
      transaction is active.
    */
    method Rollback() returns (out: Outcome<Fault>)
      requires Valid()
      modifies Repr
      ensures Valid() && Repr <= old(Repr)
      ensures Follows(old(Snap()), Op.Rollback, out)
      ensures |old(stack)| > 0 ==> old(stack[|stack| - 1]).state == RolledBack
      ensures |old(stack)| > 0 ==> stack == old(stack[..|stack| - 1])
      ensures out.Fail? ==> unchanged(Repr)
    {
      if |stack| == 0 {
        return Fail(ValueError);
      }
      var _, _ := PopAs(RolledBack);
      out := Pass;
    }
  }
}
