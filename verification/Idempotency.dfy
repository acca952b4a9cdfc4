/**
 IdempotencyManager: the first request with a key owns it; later requests with the same fingerprint and
 binding share the owner's result, and any other request with that key is a conflict.
 */
module Idempotency {
  import opened Basics

  type Key = string

  /** Fingerprint and request binding are digests; only their equality matters. */
  datatype Entry = Entry(fingerprint: string, binding: string, promise: nat)

  datatype Acquisition = Owner(promise: nat) | Duplicate(promise: nat) | Conflict

  /** `promises` are the results handed to waiters, in order of creation; None while unresolved. */
  datatype Table<R> = Table(entries: map<Key, Entry>, promises: seq<Option<R>>)

  function Acquired<R>(t: Table<R>, key: Key, fingerprint: string, binding: string): (Table<R>, Acquisition) {
    if key in t.entries then
      var e := t.entries[key];
      (t, if e.fingerprint == fingerprint && e.binding == binding then Duplicate(e.promise) else Conflict)
    else
      var p := |t.promises|;
      (Table(t.entries[key := Entry(fingerprint, binding, p)], t.promises + [None]), Owner(p))
  }

  function Completed<R>(t: Table<R>, promise: nat, result: R): Table<R>
    requires promise < |t.promises|
  {
    if t.promises[promise].Some? then t else t.(promises := t.promises[promise := Some(result)])
  }

  datatype Op<R> =
    | AcquireOp(key: Key, fingerprint: string, binding: string)
    | CompleteOp(promise: nat, result: R)

  function Apply<R>(t: Table<R>, op: Op<R>): Table<R> {
    match op
    case AcquireOp(key, fingerprint, binding) => Acquired(t, key, fingerprint, binding).0
    case CompleteOp(promise, result) => if promise < |t.promises| then Completed(t, promise, result) else t
  }

  function ApplyAll<R>(t: Table<R>, ops: seq<Op<R>>): Table<R>
    decreases |ops|
  {
    if ops == [] then t else ApplyAll(Apply(t, ops[0]), ops[1..])
  }

  /** Each promise belongs to exactly one key. */
  predicate ValidTable<R>(t: Table<R>) {
    && (forall k :: k in t.entries ==> t.entries[k].promise < |t.promises|)
    && forall k, l :: k in t.entries && l in t.entries && t.entries[k].promise == t.entries[l].promise ==> k == l
  }

  /** What one operation leaves as it was. */
  lemma OperationKeeps<R>(t: Table<R>, op: Op<R>)
    requires ValidTable(t)
    ensures var u := Apply(t, op);
            && ValidTable(u)
            && |t.promises| <= |u.promises|
            && (forall k :: k in t.entries ==> k in u.entries && u.entries[k] == t.entries[k])
            && (forall p :: 0 <= p < |t.promises| && t.promises[p].Some? ==> u.promises[p] == t.promises[p])
  {
  }

  /**
   Without a durable coordinator nothing is released: an entry, its binding and a resolved result stay
   as they are through any further operations.
   */
  lemma {:induction false} EntriesAreForGood<R>(t: Table<R>, ops: seq<Op<R>>)
    requires ValidTable(t)
    ensures var u := ApplyAll(t, ops);
            && ValidTable(u)
            && |t.promises| <= |u.promises|
            && (forall k :: k in t.entries ==> k in u.entries && u.entries[k] == t.entries[k])
            && (forall p :: 0 <= p < |t.promises| && t.promises[p].Some? ==> u.promises[p] == t.promises[p])
    decreases |ops|
  {
    hide Apply, ValidTable;
    if ops != [] {
      OperationKeeps(t, ops[0]);
      EntriesAreForGood(Apply(t, ops[0]), ops[1..]);
    }
  }

  /** A key is owned once: after its first acquisition every acquisition is a duplicate or a conflict. */
  lemma OwnedOnce<R>(t: Table<R>, key: Key, fingerprint: string, binding: string, ops: seq<Op<R>>, f: string, b: string)
    requires ValidTable(t)
    ensures var first := Acquired(t, key, fingerprint, binding);
            var again := Acquired(ApplyAll(first.0, ops), key, f, b);
            && (first.1.Owner? <==> key !in t.entries)
            && !again.1.Owner?
            && (first.1.Owner? ==>
                  again.1 == if f == fingerprint && b == binding then Duplicate(first.1.promise) else Conflict)
  {
    EntriesAreForGood(Acquired(t, key, fingerprint, binding).0, ops);
  }

  class IdempotencyManager<R> {
    var entries: map<Key, Entry>
    var promises: seq<Option<R>>

    ghost function Abstract(): Table<R>
      reads this
    {
      Table(entries, promises)
    }

    constructor ()
      ensures Abstract() == Table(map[], [])
    {
      entries, promises := map[], [];
    }

    method Acquire(key: Key, fingerprint: string, binding: string) returns (a: Acquisition)
      modifies this
      ensures (Abstract(), a) == Acquired(old(Abstract()), key, fingerprint, binding)
    {
      if key in entries {
        var existing := entries[key];
        return if existing.fingerprint == fingerprint && existing.binding == binding
               then Duplicate(existing.promise) else Conflict;
      }
      var promise := |promises|;
      promises := promises + [None];
      entries := entries[key := Entry(fingerprint, binding, promise)];
      return Owner(promise);
    }

    /** The `completed` flag of the owner's closure makes every call after the first one a no-op. */
    method Complete(promise: nat, result: R)
      requires promise < |promises|
      modifies this
      ensures Abstract() == Completed(old(Abstract()), promise, result)
    {
      if promises[promise].Some? {
        return;
      }
      promises := promises[promise := Some(result)];
    }

    /** Only the holder of the same fingerprint and binding can release an entry. */
    method Release(key: Key, fingerprint: string, binding: string) returns (deleted: bool)
      modifies this
      ensures deleted <==> key in old(entries)
                           && old(entries)[key].fingerprint == fingerprint && old(entries)[key].binding == binding
      ensures entries == old(entries) - (if deleted then {key} else {})
      ensures promises == old(promises)
    {
      if key !in entries || entries[key].fingerprint != fingerprint || entries[key].binding != binding {
        return false;
      }
      entries := entries - {key};
      return true;
    }
  }
}
