/**
  The store's error taxonomy: a small class hierarchy rooted at StoreError.
  Each kind is a value; `Base` gives its direct superclass and `IsA` is the
  reflexive-transitive "is an instance of" relation that Python's `except`
  clauses use.
*/
module Exceptions {
  import opened KvTypes

  datatype ErrorKind =
    | StoreError
    | TransactionError
    | KeyNotFoundError
    | NoActiveTransactionError
    | InvalidTransactionStateError

  /** The direct superclass of a kind; StoreError is the root of the store's hierarchy. */
  function Base(k: ErrorKind): (r: Option<ErrorKind>)
    ensures r.None? <==> k == StoreError
    ensures r.Some? ==> Height(r.value) + 1 == Height(k)
  {
    match k
    case StoreError => None
    case TransactionError => Some(StoreError)
    case KeyNotFoundError => Some(StoreError)
    case NoActiveTransactionError => Some(TransactionError)
    case InvalidTransactionStateError => Some(TransactionError)
  }

  /** Distance from the root StoreError. */
  function Height(k: ErrorKind): nat
  {
    match k
    case StoreError => 0
    case TransactionError => 1
    case KeyNotFoundError => 1
    case NoActiveTransactionError => 2
    case InvalidTransactionStateError => 2
  }

  /** `k` is `ancestor` or inherits from it. */
  predicate IsA(k: ErrorKind, ancestor: ErrorKind)
    decreases Height(k)
  {
    k == ancestor || (Base(k).Some? && IsA(Base(k).value, ancestor))
  }

  /** Catching StoreError catches every kind of the taxonomy. */
  lemma EveryKindIsStoreError(k: ErrorKind)
    ensures IsA(k, StoreError)
  {
  }

  /** TransactionError derives directly from StoreError. */
  lemma TransactionErrorIsDirectStoreError()
    ensures Base(TransactionError) == Some(StoreError)
    ensures IsA(TransactionError, StoreError) && !IsA(StoreError, TransactionError)
  {
  }

  /** The two transaction-state errors are TransactionErrors; a missing key is not. */
  lemma TransactionErrorKinds(k: ErrorKind)
    ensures IsA(k, TransactionError) <==>
      k in {TransactionError, NoActiveTransactionError, InvalidTransactionStateError}
  {
  }

  /** KeyNotFoundError is a StoreError but unrelated to TransactionError in both directions. */
  lemma KeyNotFoundIsNotTransactionError()
    ensures IsA(KeyNotFoundError, StoreError)
    ensures !IsA(KeyNotFoundError, TransactionError) && !IsA(TransactionError, KeyNotFoundError)
  {
  }
}
