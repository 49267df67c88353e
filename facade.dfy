/**
  The public `Store`: a thin layer over the transaction manager that refuses
  every data operation outside a transaction and re-raises the manager's
  built-in exceptions as the store's own error kinds.
*/
module Facade {
  import opened KvTypes
  import opened Exceptions
  import opened Storage
  import opened Visibility
  import opened Transactions

  /** What a store operation raises: one of the store's error kinds, or a built-in exception it lets through. */
  datatype StoreFailure = Raised(kind: ErrorKind) | Builtin(fault: Fault)

  /**
    How the store re-raises a fault from the manager: where it catches
    KeyError it raises KeyNotFoundError, where it catches ValueError it raises
    TransactionError, and anything it does not catch propagates unchanged.
  */
  function Translate(catchesKeyError: bool, catchesValueError: bool, f: Fault): (e: StoreFailure)
    ensures e.Raised? <==> (catchesKeyError && f == KeyError) || (catchesValueError && f == ValueError)
    ensures e.Raised? ==> e.kind in {KeyNotFoundError, TransactionError}
    ensures e.Builtin? ==> e.fault == f
    ensures catchesKeyError && f == KeyError ==> e == Raised(KeyNotFoundError)
    ensures catchesValueError && f == ValueError ==> e == Raised(TransactionError)
  {
    match f
    case KeyError => if catchesKeyError then Raised(KeyNotFoundError) else Builtin(f)
    case ValueError => if catchesValueError then Raised(TransactionError) else Builtin(f)
    case RuntimeError => Builtin(f)
  }

  /** The operations that are refused outside a transaction. */
  predicate NeedsTransaction(op: Op)
  {
    !op.Begin?
  }

  /**
    A mutating store operation on the abstract state: outside a transaction
    every operation but `begin` raises NoActiveTransactionError and changes
    nothing; otherwise the manager's step runs, `delete` translating KeyError
    and every data operation translating ValueError.
  */
  function StoreStep(s: Snapshot, op: Op): (r: Result<Snapshot, StoreFailure>)
    ensures NeedsTransaction(op) && |s.levels| == 0 ==> r == Failure(Raised(NoActiveTransactionError))
    ensures !(NeedsTransaction(op) && |s.levels| == 0) ==> (r.Success? <==> Step(s, op).Success?)
    ensures r.Success? ==> Step(s, op).Success? && r.value == Step(s, op).value
  {
    if NeedsTransaction(op) && |s.levels| == 0 then Failure(Raised(NoActiveTransactionError))
    else
      match Step(s, op)
      case Success(t) => Success(t)
      case Failure(f) => Failure(Translate(op.Delete?, NeedsTransaction(op), f))
  }

  /**
    A store read: NoActiveTransactionError outside a transaction, otherwise
    what the stack shows, KeyError becoming KeyNotFoundError.
  */
  function StoreGet(s: Snapshot, key: Key): (r: Result<Json, StoreFailure>)
    ensures |s.levels| == 0 ==> r == Failure(Raised(NoActiveTransactionError))
    ensures |s.levels| > 0 ==> (r.Success? <==> Lookup(s.levels, s.committed, key).Success?)
    ensures |s.levels| > 0 && r.Success? ==> r.value == Lookup(s.levels, s.committed, key).value
    ensures |s.levels| > 0 && r.Failure? ==> r.error == Raised(KeyNotFoundError)
  {
    if |s.levels| == 0 then Failure(Raised(NoActiveTransactionError))
    else
      LookupRaisesOnlyKeyError(s.levels, s.committed, key);
      match Lookup(s.levels, s.committed, key)
      case Success(v) => Success(v)
      case Failure(f) => Failure(Translate(true, false, f))
  }

  /**
    Because the store checks for an active transaction first, the manager's
    ValueError never reaches its translation: apart from a durable backend's
    RuntimeError on commit (see `Store.Commit`), a store operation only ever
    raises NoActiveTransactionError or KeyNotFoundError, the latter only from
    `delete`.
  */
  lemma StoreRaisesOnlyGuardErrors(s: Snapshot, op: Op)
    ensures StoreStep(s, op).Failure? ==>
      StoreStep(s, op).error == Raised(NoActiveTransactionError)
      || (op.Delete? && StoreStep(s, op).error == Raised(KeyNotFoundError))
  {
  }

  /** Everything the store raises of its own is caught by an `except StoreError` clause. */
  lemma StoreFailuresAreStoreErrors(s: Snapshot, op: Op)
    ensures StoreStep(s, op).Failure? ==>
      StoreStep(s, op).error.Raised? && IsA(StoreStep(s, op).error.kind, StoreError)
  {
  }

  /**
    Outside a transaction a client catching TransactionError catches the
    refusal; a missing key is not a TransactionError.
  */
  lemma GuardErrorIsTransactionError(s: Snapshot, op: Op, key: Key)
    requires NeedsTransaction(op) && |s.levels| == 0
    ensures IsA(StoreStep(s, op).error.kind, TransactionError)
    ensures IsA(StoreGet(s, key).error.kind, TransactionError)
  {
  }

  /** Inside a transaction, deleting a key that no level or the snapshot shows raises KeyNotFoundError and changes nothing. */
  lemma DeleteMissingRaisesKeyNotFound(s: Snapshot, key: Key)
    requires |s.levels| > 0 && Lookup(s.levels, s.committed, key).Failure?
    ensures StoreStep(s, Op.Delete(key)) == Failure(Raised(KeyNotFoundError))
  {
  }

  /**
    Inside a transaction `commit` and `rollback` always succeed and close
    exactly the innermost transaction, so a transaction stays active
    afterwards exactly when more than one was open.
  */
  lemma CommitAndRollbackCloseOneLevel(s: Snapshot, op: Op)
    requires op.Commit? || op.Rollback?
    requires |s.levels| > 0
    ensures StoreStep(s, op).Success?
    ensures |StoreStep(s, op).value.levels| == |s.levels| - 1
    ensures |StoreStep(s, op).value.levels| > 0 <==> |s.levels| > 1
  {
  }

  /** The store. The manager is created with it and never replaced. */
  class Store {
    const manager: TransactionManager

    ghost predicate Valid()
      reads this, manager, manager.Repr
    {
      manager.Valid()
    }

    /** The mutating operation behaved as `StoreStep` says, starting from `before`. */
    ghost predicate Follows(before: Snapshot, op: Op, out: Outcome<StoreFailure>)
      reads this, manager
    {
      match StoreStep(before, op)
      case Success(after) => out == Pass && manager.Snap() == after
      case Failure(e) => out == Fail(e) && manager.Snap() == before
    }

    /** A store over the given backend (or none), starting from what the backend holds. */
    constructor (backend: Backend)
      requires backend.Valid()
      modifies backend.Objects()
      ensures Valid() && fresh(manager) && fresh(manager.Repr - backend.Objects())
      ensures manager.backend == backend && manager.levels == []
      ensures backend.NoBackend? ==> manager.committed == map[]
      ensures !backend.NoBackend? ==> manager.committed == old(backend.CommittedView())
    {
      manager := new TransactionManager(backend);
    }

    /** Writes in the innermost transaction. */
    method Set(key: Key, value: Json) returns (out: Outcome<StoreFailure>)
      requires Valid()
      modifies manager.Repr
      ensures Valid() && manager.Repr == old(manager.Repr)
      ensures Follows(old(manager.Snap()), Op.Set(key, value), out)
      ensures manager.stack == old(manager.stack)
    {
      if !manager.HasActiveTransaction() {
        return Fail(Raised(NoActiveTransactionError));
      }
      // with a transaction open the manager's ValueError cannot arise
      var _ := manager.Set(key, value);
      out := Pass;
    }

    /** Reads through the transaction stack; the store does not change. */
    method Get(key: Key) returns (r: Result<Json, StoreFailure>)
      requires Valid()
      ensures r == StoreGet(manager.Snap(), key)
    {
      if !manager.HasActiveTransaction() {
        return Failure(Raised(NoActiveTransactionError));
      }
      var v := manager.Get(key);
      r := if v.Failure? then Failure(Translate(true, false, v.error)) else Success(v.value);
    }

    /** Deletes in the innermost transaction a key that is currently visible. */
    method Delete(key: Key) returns (out: Outcome<StoreFailure>)
      requires Valid()
      modifies manager.Repr
      ensures Valid() && manager.Repr == old(manager.Repr)
      ensures Follows(old(manager.Snap()), Op.Delete(key), out)
      ensures manager.stack == old(manager.stack)
    {
      if !manager.HasActiveTransaction() {
        return Fail(Raised(NoActiveTransactionError));
      }
      var r := manager.Delete(key);
      out := if r.Fail? then Fail(Translate(true, true, r.error)) else Pass;
    }

    /** Opens a transaction nested in the current one (or a top-level one) and returns its id. */
    method Begin() returns (id: TxId)
      requires Valid()
      modifies manager.Repr
      ensures Valid() && fresh(manager.Repr - old(manager.Repr))
      ensures manager.Snap() == StoreStep(old(manager.Snap()), Op.Begin).value
      ensures manager.stack[..|manager.stack| - 1] == old(manager.stack)
      ensures CurrentTransactionId() == Some(id)
    {
      id := manager.Begin();
    }

    /**
      Commits the innermost transaction. `fault` is where, if anywhere, a
      durable backend's write raises; that RuntimeError is not caught here.
    */
    method Commit(fault: DbFault) returns (out: Outcome<StoreFailure>)
      requires Valid()
      modifies manager.Repr
      ensures Valid() && manager.Repr <= old(manager.Repr)
      ensures !old(manager.BackendFails(fault)) ==> Follows(old(manager.Snap()), Op.Commit, out)
      ensures old(manager.BackendFails(fault)) ==>
        && out == Fail(Builtin(RuntimeError))
        && manager.levels == []
        && manager.committed == old(manager.committed)
      ensures |old(manager.stack)| > 0 ==> manager.stack == old(manager.stack)[..|old(manager.stack)| - 1]
    {
      if !manager.HasActiveTransaction() {
        return Fail(Raised(NoActiveTransactionError));
      }
      var r := manager.Commit(fault);
      out := if r.Fail? then Fail(Translate(false, true, r.error)) else Pass;
    }

    /** Discards the innermost transaction. */
    method Rollback() returns (out: Outcome<StoreFailure>)
      requires Valid()
      modifies manager.Repr
      ensures Valid() && manager.Repr <= old(manager.Repr)
      ensures Follows(old(manager.Snap()), Op.Rollback, out)
      ensures |old(manager.stack)| > 0 ==> manager.stack == old(manager.stack)[..|old(manager.stack)| - 1]
    {
      if !manager.HasActiveTransaction() {
        return Fail(Raised(NoActiveTransactionError));
      }
      var _ := manager.Rollback();
      out := Pass;
    }

    /** Whether a transaction is open. */
    function HasActiveTransaction(): (b: bool)
      reads this, manager, manager.Repr
      requires Valid()
      ensures b <==> StoreStep(manager.Snap(), Op.Rollback).Success?
    {
      manager.HasActiveTransaction()
    }

    /** The innermost transaction's id, or None outside a transaction. */
    function CurrentTransactionId(): (r: Option<TxId>)
      reads this, manager, manager.Repr
      requires Valid()
      ensures r.Some? <==> StoreStep(manager.Snap(), Op.Rollback).Success?
      ensures r.Some? ==> r.value == manager.stack[|manager.stack| - 1].id
      ensures r.Some? ==> forall i :: 0 <= i < |manager.stack| - 1 ==> manager.stack[i].id < r.value
    {
      manager.CurrentTransactionId()
    }

    /** A copy of the committed snapshot. */
    method GetCommittedData() returns (r: map<Key, Json>)
      requires Valid()
      ensures r == manager.Snap().committed
    {
      r := manager.committed;
    }

    /** Closes the backend; what it holds stays. */
    method Close()
      requires Valid()
      modifies manager.backend.Objects()
      ensures Valid()
      ensures manager.backend.CommittedView() == old(manager.backend.CommittedView())
      ensures manager.backend.Durable? ==> !manager.backend.db.connected
    {
      manager.Close();
    }
  }
}
