/**
  The meaning of the transaction stack as values: each level is a pair of
  pending writes and tombstones, `Lookup` is what a read sees, and `Step` is
  the state machine that the transaction manager's mutating operations
  implement. The lemmas here state the stack's visibility guarantees.
*/
module Visibility {
  import opened KvTypes
  import opened Storage

  /** One transaction level: writes and tombstones recorded at that level only. */
  datatype Level = Level(changes: map<Key, Json>, deleted: set<Key>)
  {
    /** The latest operation at a level wins: no key is both written and tombstoned. */
    predicate Disjoint()
    {
      changes.Keys !! deleted
    }

    /** The level after `set(key, value)`. */
    function Put(key: Key, value: Json): (r: Level)
      ensures key in r.changes && r.changes[key] == value && key !in r.deleted
      ensures forall k :: k != key ==> (k in r.changes <==> k in changes) && (k in r.deleted <==> k in deleted)
      ensures forall k :: k != key && k in changes ==> r.changes[k] == changes[k]
      ensures Disjoint() ==> r.Disjoint()
    {
      Level(changes[key := value], deleted - {key})
    }

    /** The level after `delete(key)`. */
    function Remove(key: Key): (r: Level)
      ensures key in r.deleted && key !in r.changes
      ensures forall k :: k != key ==> (k in r.changes <==> k in changes) && (k in r.deleted <==> k in deleted)
      ensures forall k :: k != key && k in changes ==> r.changes[k] == changes[k]
      ensures Disjoint() ==> r.Disjoint()
    {
      Level(changes - {key}, deleted + {key})
    }
  }

  /** The level `begin` pushes. */
  const Empty := Level(map[], {})

  /**
    What a read of `key` sees: the innermost (last) level that tombstones the
    key hides it, the innermost level that writes it supplies the value, and
    below all levels the committed mapping answers.
  */
  function Lookup(levels: seq<Level>, committed: map<Key, Json>, key: Key): Result<Json, Fault>
  {
    if levels == [] then
      if key in committed then Success(committed[key]) else Failure(KeyError)
    else
      var top := levels[|levels| - 1];
      if key in top.deleted then Failure(KeyError)
      else if key in top.changes then Success(top.changes[key])
      else Lookup(levels[..|levels| - 1], committed, key)
  }

  /** A read fails only by not finding the key: it never raises anything but KeyError. */
  lemma {:induction false} LookupRaisesOnlyKeyError(levels: seq<Level>, committed: map<Key, Json>, key: Key)
    ensures Lookup(levels, committed, key).Failure? ==> Lookup(levels, committed, key).error == KeyError
  {
    if levels != [] {
      LookupRaisesOnlyKeyError(levels[..|levels| - 1], committed, key);
    }
  }

  /**
    What a nested commit leaves in the parent: the child's writes replayed as
    `set`s, then its tombstones replayed as `delete`s.
  */
  function Merge(parent: Level, child: Level): (r: Level)
    ensures forall k :: k in child.deleted ==> k in r.deleted && k !in r.changes
    ensures forall k :: k in child.changes && k !in child.deleted ==>
      k in r.changes && r.changes[k] == child.changes[k] && k !in r.deleted
    ensures forall k :: k !in child.changes && k !in child.deleted ==>
      (k in r.changes <==> k in parent.changes) && (k in r.deleted <==> k in parent.deleted)
    ensures forall k :: k in r.changes && k !in child.changes ==> r.changes[k] == parent.changes[k]
    ensures parent.Disjoint() ==> r.Disjoint()
  {
    Level((parent.changes + child.changes) - child.deleted,
          (parent.deleted - child.changes.Keys) + child.deleted)
  }

  /** The manager's abstract state: its stack of levels and its committed snapshot. */
  datatype Snapshot = Snapshot(levels: seq<Level>, committed: map<Key, Json>)

  /** The operations that change the manager's state. */
  datatype Op = Begin | Set(key: Key, value: Json) | Delete(key: Key) | Commit | Rollback

  /**
    One operation of the transaction manager: the new state, or the exception
    it raises (a raising operation changes nothing). A top-level commit applies
    the level to the committed mapping as a backend commit does.
  */
  function Step(s: Snapshot, op: Op): Result<Snapshot, Fault>
  {
    var n := |s.levels|;
    match op
    case Begin => Success(Snapshot(s.levels + [Empty], s.committed))
    case Set(k, v) =>
      if n == 0 then Failure(ValueError)
      else Success(Snapshot(s.levels[..n - 1] + [s.levels[n - 1].Put(k, v)], s.committed))
    case Delete(k) =>
      if n == 0 then Failure(ValueError)
      else if Lookup(s.levels, s.committed, k).Failure? then Failure(KeyError)
      else Success(Snapshot(s.levels[..n - 1] + [s.levels[n - 1].Remove(k)], s.committed))
    case Commit =>
      if n == 0 then Failure(ValueError)
      else if n == 1 then
        Success(Snapshot([], ApplyCommit(s.committed, s.levels[0].changes, s.levels[0].deleted)))
      else
        Success(Snapshot(s.levels[..n - 2] + [Merge(s.levels[n - 2], s.levels[n - 1])], s.committed))
    case Rollback =>
      if n == 0 then Failure(ValueError)
      else Success(Snapshot(s.levels[..n - 1], s.committed))
  }

  /** Every level of a stack keeps its writes and tombstones apart. */
  predicate AllDisjoint(levels: seq<Level>)
  {
    forall i :: 0 <= i < |levels| ==> levels[i].Disjoint()
  }

  // ---------------------------------------------------------------------------
  // Single-operation properties

  /** Every operation keeps writes and tombstones disjoint at every level. */
  lemma StepKeepsDisjoint(s: Snapshot, op: Op)
    requires AllDisjoint(s.levels)
    ensures Step(s, op).Success? ==> AllDisjoint(Step(s, op).value.levels)
  {
  }

  /** Without an active transaction, set, delete, commit and rollback raise ValueError. */
  lemma NoLevelRaisesValueError(committed: map<Key, Json>, op: Op)
    requires !op.Begin?
    ensures Step(Snapshot([], committed), op) == Failure(ValueError)
  {
  }

  /** Begin pushes one empty level and hides nothing: every read answers as before. */
  lemma BeginPreservesLookup(s: Snapshot, key: Key)
    ensures Step(s, Begin).Success?
    ensures var t := Step(s, Begin).value;
      && |t.levels| == |s.levels| + 1 && t.levels[..|s.levels|] == s.levels
      && Lookup(t.levels, t.committed, key) == Lookup(s.levels, s.committed, key)
  {
  }

  /** After `set(key, value)` the key reads as the value; every other key reads as before. */
  lemma SetThenLookup(s: Snapshot, key: Key, value: Json, other: Key)
    requires |s.levels| > 0
    ensures Step(s, Set(key, value)).Success?
    ensures var t := Step(s, Set(key, value)).value;
      && Lookup(t.levels, t.committed, key) == Success(value)
      && (other != key ==> Lookup(t.levels, t.committed, other) == Lookup(s.levels, s.committed, other))
  {
  }

  /**
    `delete(key)` fails with KeyError exactly when a read of the key fails; on
    success the key is no longer visible and every other key reads as before.
  */
  lemma DeleteThenLookup(s: Snapshot, key: Key, other: Key)
    requires |s.levels| > 0
    ensures Step(s, Delete(key)).Failure? <==> Lookup(s.levels, s.committed, key).Failure?
    ensures Step(s, Delete(key)).Failure? ==> Step(s, Delete(key)).error == KeyError
    ensures Step(s, Delete(key)).Success? ==>
      var t := Step(s, Delete(key)).value;
      && Lookup(t.levels, t.committed, key) == Failure(KeyError)
      && (other != key ==> Lookup(t.levels, t.committed, other) == Lookup(s.levels, s.committed, other))
  {
  }

  /**
    Committing never changes what a read returns: a nested commit folds the
    top level into its parent and a top-level commit folds it into the
    committed mapping, for every key.
  */
  lemma CommitPreservesLookup(s: Snapshot, key: Key)
    requires |s.levels| > 0
    ensures Step(s, Commit).Success?
    ensures var t := Step(s, Commit).value;
      Lookup(t.levels, t.committed, key) == Lookup(s.levels, s.committed, key)
  {
    var n := |s.levels|;
    var t := Step(s, Commit).value;
    if n == 1 {
      assert s.levels[..0] == [];
    } else {
      var parent, child := s.levels[n - 2], s.levels[n - 1];
      assert t.levels[..n - 2] == s.levels[..n - 1][..n - 2];
      if key !in child.changes && key !in child.deleted && key !in parent.changes && key !in parent.deleted {
        assert Lookup(t.levels, t.committed, key) == Lookup(s.levels[..n - 2], s.committed, key);
      }
    }
  }

  /** A rollback pops exactly the top level; the levels below and the committed mapping stay. */
  lemma RollbackPopsTop(s: Snapshot)
    requires |s.levels| > 0
    ensures Step(s, Rollback) == Success(Snapshot(s.levels[..|s.levels| - 1], s.committed))
    ensures Step(Step(s, Begin).value, Rollback) == Success(s)
  {
  }

  // ---------------------------------------------------------------------------
  // Sequences of operations

  /** Runs operations in order; an operation that raises leaves the state as it was. */
  function Run(s: Snapshot, ops: seq<Op>): Snapshot
    decreases |ops|
  {
    if ops == [] then s
    else
      var next := if Step(s, ops[0]).Success? then Step(s, ops[0]).value else s;
      Run(next, ops[1..])
  }

  /** The change in stack depth a sequence of operations makes when none of them fails. */
  function Net(ops: seq<Op>): int
  {
    if ops == [] then 0
    else (match ops[0] case Begin => 1 case Commit => -1 case Rollback => -1 case _ => 0) + Net(ops[1..])
  }

  /**
    The operations never commit or roll back more levels than they began on
    top of `above` levels: they stay within the transaction they run in.
  */
  predicate StaysWithin(ops: seq<Op>, above: nat)
  {
    if ops == [] then true
    else match ops[0]
      case Begin => StaysWithin(ops[1..], above + 1)
      case Commit => above > 0 && StaysWithin(ops[1..], above - 1)
      case Rollback => above > 0 && StaysWithin(ops[1..], above - 1)
      case _ => StaysWithin(ops[1..], above)
  }

  /** Running two sequences of operations one after the other is running their concatenation. */
  lemma {:induction false} RunAppend(s: Snapshot, a: seq<Op>, b: seq<Op>)
    ensures Run(s, a + b) == Run(Run(s, a), b)
    decreases |a|
  {
    if a == [] {
      assert a + b == b;
    } else {
      assert (a + b)[0] == a[0] && (a + b)[1..] == a[1..] + b;
      var next := if Step(s, a[0]).Success? then Step(s, a[0]).value else s;
      RunAppend(next, a[1..], b);
    }
  }

  /**
    Operations that stay within the transaction at depth `|s.levels| - above`
    never touch the levels below it nor the committed mapping, and end with
    the stack `Net(ops)` levels deeper.
  */
  lemma {:induction false} RunWithin(s: Snapshot, ops: seq<Op>, above: nat)
    requires |s.levels| > above
    requires StaysWithin(ops, above)
    ensures var t := Run(s, ops);
      && |t.levels| == |s.levels| + Net(ops)
      && |t.levels| > |s.levels| - above - 1
      && t.levels[..|s.levels| - above - 1] == s.levels[..|s.levels| - above - 1]
      && t.committed == s.committed
    decreases |ops|
  {
    if ops != [] {
      var n := |s.levels|;
      var base := n - above - 1;
      var next := if Step(s, ops[0]).Success? then Step(s, ops[0]).value else s;
      var above' := match ops[0] case Begin => above + 1 case Commit => above - 1
                                 case Rollback => above - 1 case _ => above;
      assert next.levels[..base] == s.levels[..base];
      assert |next.levels| - above' - 1 == base;
      RunWithin(next, ops[1..], above');
    }
  }

  /**
    A rollback restores exactly the state before its matching begin: whatever
    balanced work happens inside the transaction, the stack below and the
    committed mapping come back unchanged.
  */
  lemma RollbackRestoresState(s: Snapshot, inner: seq<Op>)
    requires StaysWithin(inner, 0) && Net(inner) == 0
    ensures Run(s, [Begin] + inner + [Rollback]) == s
  {
    var s1 := Run(s, [Begin]);
    assert s1 == Snapshot(s.levels + [Empty], s.committed);
    RunAppend(s, [Begin], inner);
    RunAppend(s, [Begin] + inner, [Rollback]);
    RunWithin(s1, inner, 0);
    var s2 := Run(s1, inner);
    assert s2.levels[..|s.levels|] == s1.levels[..|s.levels|] == s.levels;
  }
}
