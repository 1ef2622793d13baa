/**
 * The registration records of an observer set (ObserverSetEntry) and the
 * three list filters the set applies to them.
 *
 * An entry is an object: two entries are the same only when they are the
 * same reference, whatever they hold. Its observer is held weakly; the
 * runtime's half of a weak reference is modelled by a set `dead` of objects
 * that have been deallocated, and reading the weak field gives None exactly
 * for those.
 */
module Entries {

  datatype Option<+T> = None | Some(value: T)

  /** Identity of a dispatch queue a callback can be submitted to. */
  type QueueId = nat

  /** Identity of a closure supplied by the user; its code is not modelled. */
  type FunctionId = nat

  /**
   * The two-stage callback an entry stores: given the live observer it
   * yields the closure that takes the notification parameters.
   * `UseObserver(f)` is the wrapper built by the observer form of `add`
   * (it hands the observer to `f`); `IgnoreObserver(f)` is the wrapper
   * built by the callback-only form (it discards the observer).
   */
  datatype Callback = UseObserver(fn: FunctionId) | IgnoreObserver(fn: FunctionId)

  /** The closure a callback yields once bound to its observer. */
  datatype Closure = Applied(fn: FunctionId, observer: object) | Plain(fn: FunctionId)

  /** Applying an entry's callback to its resolved observer. */
  function Bind(cb: Callback, observer: object): Closure
  {
    match cb
    case UseObserver(f) => Applied(f, observer)
    case IgnoreObserver(f) => Plain(f)
  }

  /** One registration: a weak observer, an optional queue and a callback. */
  class Entry {
    const observer: object
    const notificationQueue: Option<QueueId>
    const callback: Callback

    constructor (observer: object, notificationQueue: Option<QueueId>, callback: Callback)
      ensures this.observer == observer
      ensures this.notificationQueue == notificationQueue
      ensures this.callback == callback
    {
      this.observer := observer;
      this.notificationQueue := notificationQueue;
      this.callback := callback;
    }
  }

  /** Reading the weak `observer` field: nil once the observer is deallocated. */
  function Resolve(e: Entry, dead: set<object>): Option<object>
  {
    if e.observer in dead then None else Some(e.observer)
  }

  predicate IsLive(e: Entry, dead: set<object>)
  {
    Resolve(e, dead).Some?
  }

  /** The closures passed to `filter` by remove, removeObserver and notify. */
  datatype Keep =
    | NotIdentical(entry: Entry)          // keep entries other than this handle
    | ObserverNotIdentical(other: object) // keep entries whose observer does not read as `other`
    | ObserverNotNil                      // keep entries whose observer does not read as nil

  predicate Keeps(k: Keep, e: Entry, dead: set<object>)
  {
    match k
    case NotIdentical(h) => e != h
    case ObserverNotIdentical(o) => Resolve(e, dead) != Some(o)
    case ObserverNotNil => Resolve(e, dead).Some?
  }

  /** Array `filter`: the entries `k` keeps, in their original order. */
  function Filter(es: seq<Entry>, k: Keep, dead: set<object>): (r: seq<Entry>)
    ensures |r| <= |es|
    ensures forall e :: e in r ==> e in es && Keeps(k, e, dead)
    ensures forall e :: e in es && Keeps(k, e, dead) ==> e in r
  {
    if es == [] then []
    else if Keeps(k, es[0], dead) then [es[0]] + Filter(es[1..], k, dead)
    else Filter(es[1..], k, dead)
  }

  /** No entry occurs twice. */
  ghost predicate Distinct(es: seq<Entry>)
  {
    forall i, j :: 0 <= i < j < |es| ==> es[i] != es[j]
  }

  /** Filtering a concatenation filters each part: relative order is kept. */
  lemma {:induction false} FilterConcat(a: seq<Entry>, b: seq<Entry>, k: Keep, dead: set<object>)
    ensures Filter(a + b, k, dead) == Filter(a, k, dead) + Filter(b, k, dead)
  {
    if a != [] {
      assert (a + b)[0] == a[0];
      assert (a + b)[1..] == a[1..] + b;
      FilterConcat(a[1..], b, k, dead);
      if Keeps(k, a[0], dead) {
        calc {
          Filter(a + b, k, dead);
          [a[0]] + Filter(a[1..] + b, k, dead);
          [a[0]] + (Filter(a[1..], k, dead) + Filter(b, k, dead));
          ([a[0]] + Filter(a[1..], k, dead)) + Filter(b, k, dead);
        }
      }
    } else {
      assert a + b == b;
    }
  }

  /** When `k` keeps every entry, filtering changes nothing. */
  lemma {:induction false} FilterKeepsAll(es: seq<Entry>, k: Keep, dead: set<object>)
    requires forall e :: e in es ==> Keeps(k, e, dead)
    ensures Filter(es, k, dead) == es
  {
    if es != [] {
      assert es[0] in es;
      FilterKeepsAll(es[1..], k, dead);
    }
  }

  /** A second identical filter is a no-op. */
  lemma {:induction false} FilterIdempotent(es: seq<Entry>, k: Keep, dead: set<object>)
    ensures Filter(Filter(es, k, dead), k, dead) == Filter(es, k, dead)
  {
    FilterKeepsAll(Filter(es, k, dead), k, dead);
  }

  /** Filtering never introduces a duplicate. */
  lemma {:induction false} FilterDistinct(es: seq<Entry>, k: Keep, dead: set<object>)
    requires Distinct(es)
    ensures Distinct(Filter(es, k, dead))
  {
    if es != [] {
      FilterDistinct(es[1..], k, dead);
      var rest := Filter(es[1..], k, dead);
      assert es[0] !in es[1..];
      assert es[0] !in rest;
    }
  }

  /** Taking out a handle that occurs once splices the list around it. */
  lemma RemoveSplices(a: seq<Entry>, h: Entry, b: seq<Entry>, dead: set<object>)
    requires h !in a && h !in b
    ensures Filter(a + [h] + b, NotIdentical(h), dead) == a + b
  {
    FilterConcat(a + [h], b, NotIdentical(h), dead);
    FilterConcat(a, [h], NotIdentical(h), dead);
    FilterKeepsAll(a, NotIdentical(h), dead);
    FilterKeepsAll(b, NotIdentical(h), dead);
    assert Filter([h], NotIdentical(h), dead) == [];
  }

  /** In a list without duplicates an entry is counted once or not at all. */
  lemma {:induction false} DistinctCount(es: seq<Entry>, e: Entry)
    requires Distinct(es)
    ensures multiset(es)[e] == if e in es then 1 else 0
  {
    if es != [] {
      assert es == [es[0]] + es[1..];
      assert Distinct(es[1..]);
      DistinctCount(es[1..], e);
      assert es[0] !in es[1..];
    }
  }
}
