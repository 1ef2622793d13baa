/**
 * ObserverSet: an ordered list of entries, appended to by `add`, filtered by
 * `remove` and `removeObserver`, and scanned, pruned and delivered by
 * `notify`.
 *
 * Each operation runs atomically (the serial queue used as a lock is not
 * modelled) and the set of deallocated objects stays fixed during one call.
 * Callbacks are not run: `Notify` returns the trace of what it would do, an
 * inline call or a submission to a queue per delivered entry.
 */
module ObserverSets {
  import opened Entries

  /** One element of notify's `callbacks` array, with the entry it came from. */
  datatype Pending = Pending(queue: Option<QueueId>, call: Closure, source: Entry)

  /** What delivery does with one pending callback. */
  datatype Delivery<P> =
    | RunInline(call: Closure, arg: P, source: Entry)
    | Submitted(queue: QueueId, call: Closure, arg: P, source: Entry)

  /** The pending callback an entry contributes to the snapshot: none if its observer is nil. */
  function Prepared(e: Entry, dead: set<object>): seq<Pending>
  {
    match Resolve(e, dead)
    case Some(observer) => [Pending(e.notificationQueue, Bind(e.callback, observer), e)]
    case None => []
  }

  /** The `callbacks` array notify collects while scanning `entries`. */
  function Snapshot(es: seq<Entry>, dead: set<object>): seq<Pending>
  {
    if es == [] then [] else Prepared(es[0], dead) + Snapshot(es[1..], dead)
  }

  /** The entries that survive notify's pruning filter. */
  function Pruned(es: seq<Entry>, dead: set<object>): seq<Entry>
  {
    Filter(es, ObserverNotNil, dead)
  }

  /** Submit to the entry's queue if it has one, otherwise call inline. */
  function Dispatch<P>(c: Pending, p: P): Delivery<P>
  {
    match c.queue
    case Some(q) => Submitted(q, c.call, p, c.source)
    case None => RunInline(c.call, p, c.source)
  }

  /** Delivery of a whole snapshot, in snapshot order. */
  function Deliveries<P>(cs: seq<Pending>, p: P): seq<Delivery<P>>
  {
    seq(|cs|, i requires 0 <= i < |cs| => Dispatch(cs[i], p))
  }

  /** How many entries of `es` were registered for `o`. */
  function Registrations(es: seq<Entry>, o: object): nat
  {
    if es == [] then 0 else (if es[0].observer == o then 1 else 0) + Registrations(es[1..], o)
  }

  /** The entries a trace delivers to, in trace order. */
  function Recipients<P>(trace: seq<Delivery<P>>): seq<Entry>
  {
    seq(|trace|, i requires 0 <= i < |trace| => trace[i].source)
  }

  /** Scanning a concatenation scans each part in turn. */
  lemma {:induction false} SnapshotConcat(a: seq<Entry>, b: seq<Entry>, dead: set<object>)
    ensures Snapshot(a + b, dead) == Snapshot(a, dead) + Snapshot(b, dead)
  {
    if a == [] {
      assert a + b == b;
    } else {
      assert (a + b)[0] == a[0];
      assert (a + b)[1..] == a[1..] + b;
      SnapshotConcat(a[1..], b, dead);
    }
  }

  /**
   * The snapshot has one element per surviving entry, in the same order,
   * carrying that entry's queue and its callback bound to its observer.
   */
  lemma {:induction false} SnapshotOfSurvivors(es: seq<Entry>, dead: set<object>)
    ensures |Snapshot(es, dead)| == |Pruned(es, dead)|
    ensures forall i :: 0 <= i < |Snapshot(es, dead)| ==>
      var e := Pruned(es, dead)[i];
      Snapshot(es, dead)[i] == Pending(e.notificationQueue, Bind(e.callback, e.observer), e)
  {
    if es != [] {
      SnapshotOfSurvivors(es[1..], dead);
    }
  }

  /** Registration order is delivery order: earlier entries are delivered first. */
  lemma DeliveryOrder<P>(a: seq<Entry>, b: seq<Entry>, dead: set<object>, p: P)
    ensures Deliveries(Snapshot(a + b, dead), p)
         == Deliveries(Snapshot(a, dead), p) + Deliveries(Snapshot(b, dead), p)
  {
    SnapshotConcat(a, b, dead);
  }

  /** Each entry of a duplicate-free list is delivered once if live, never if dead. */
  lemma DeliveredExactlyOnce<P>(es: seq<Entry>, dead: set<object>, p: P, e: Entry)
    requires Distinct(es)
    ensures multiset(Recipients(Deliveries(Snapshot(es, dead), p)))[e]
         == if e in es && IsLive(e, dead) then 1 else 0
  {
    SnapshotOfSurvivors(es, dead);
    assert Recipients(Deliveries(Snapshot(es, dead), p)) == Pruned(es, dead);
    FilterDistinct(es, ObserverNotNil, dead);
    DistinctCount(Pruned(es, dead), e);
  }

  /** Pruning keeps every registration of a live observer. */
  lemma {:induction false} PruneKeepsLiveObserver(es: seq<Entry>, dead: set<object>, o: object)
    requires o !in dead
    ensures Registrations(Pruned(es, dead), o) == Registrations(es, o)
  {
    if es != [] {
      PruneKeepsLiveObserver(es[1..], dead, o);
    }
  }

  /** A live observer registered n times receives n deliveries per notify. */
  lemma DeliveredPerRegistration<P>(es: seq<Entry>, dead: set<object>, p: P, o: object)
    requires o !in dead
    ensures Registrations(Recipients(Deliveries(Snapshot(es, dead), p)), o) == Registrations(es, o)
  {
    SnapshotOfSurvivors(es, dead);
    assert Recipients(Deliveries(Snapshot(es, dead), p)) == Pruned(es, dead);
    PruneKeepsLiveObserver(es, dead, o);
  }

  /**
   * Pruning again after more observers died is the same as pruning once
   * with the later liveness; with unchanged liveness it is a no-op.
   */
  lemma {:induction false} PruneTwice(es: seq<Entry>, dead: set<object>, later: set<object>)
    requires dead <= later
    ensures Pruned(Pruned(es, dead), later) == Pruned(es, later)
  {
    if es != [] {
      PruneTwice(es[1..], dead, later);
    }
  }

  /**
   * After removeObserver(o), a later notify (with at least the same objects
   * deallocated) delivers nothing to o, whether o was live or already gone.
   */
  lemma RemovedObserverNotDelivered<P>(es: seq<Entry>, dead: set<object>, o: object,
                                      later: set<object>, p: P)
    requires dead <= later
    ensures forall d :: (d in Deliveries(Snapshot(Filter(es, ObserverNotIdentical(o), dead), later), p)
                         ==> d.source.observer != o)
  {
    var rest := Filter(es, ObserverNotIdentical(o), dead);
    SnapshotOfSurvivors(rest, later);
    forall d | d in Deliveries(Snapshot(rest, later), p)
      ensures d.source.observer != o
    {
      var i :| 0 <= i < |Snapshot(rest, later)| && Deliveries(Snapshot(rest, later), p)[i] == d;
      var e := Pruned(rest, later)[i];
      assert e in Pruned(rest, later);
    }
  }

  /** Delivery loop of notify: dispatch each pending callback in order. */
  method Deliver<P>(callbacks: seq<Pending>, p: P) returns (trace: seq<Delivery<P>>)
    ensures |trace| == |callbacks|
    ensures forall i :: 0 <= i < |callbacks| ==>
      (&& trace[i].source == callbacks[i].source
       && trace[i].call == callbacks[i].call && trace[i].arg == p
       && (trace[i].Submitted? <==> callbacks[i].queue.Some?)
       && (trace[i].Submitted? ==> trace[i].queue == callbacks[i].queue.value))
  {
    trace := [];
    for i := 0 to |callbacks|
      invariant |trace| == i
      invariant forall j :: 0 <= j < i ==> trace[j] == Dispatch(callbacks[j], p)
    {
      var c := callbacks[i];
      match c.queue {
        case Some(q) =>
          trace := trace + [Submitted(q, c.call, p, c.source)];
        case None =>
          trace := trace + [RunInline(c.call, p, c.source)];
      }
    }
  }

  class ObserverSet<P> {
    /** The registered entries, in insertion order. */
    var entries: seq<Entry>
    /** Objects deallocated so far: the weak references to them read nil. */
    var dead: set<object>

    ghost predicate Valid()
      reads this
    {
      this !in dead && Distinct(entries)
    }

    constructor ()
      ensures Valid() && entries == [] && dead == {}
    {
      entries := [];
      dead := {};
    }

    /** Register `callback` for `observer`; the new entry goes last. */
    method Add(observer: object, notificationQueue: Option<QueueId>, callback: Callback) returns (entry: Entry)
      requires Valid()
      modifies this
      ensures Valid() && fresh(entry) && dead == old(dead)
      ensures entries == old(entries) + [entry]
      ensures entry.observer == observer && entry.notificationQueue == notificationQueue
      ensures entry.callback == callback
    {
      entry := new Entry(observer, notificationQueue, callback);
      entries := entries + [entry];
    }

    /** Register a closure with the set itself standing in as the observer. */
    method AddCallback(notificationQueue: Option<QueueId>, fn: FunctionId) returns (entry: Entry)
      requires Valid()
      modifies this
      ensures Valid() && fresh(entry) && dead == old(dead)
      ensures entries == old(entries) + [entry]
      ensures entry.observer == this && entry.notificationQueue == notificationQueue
      ensures entry.callback == IgnoreObserver(fn)
      ensures IsLive(entry, dead)
    {
      entry := Add(this, notificationQueue, IgnoreObserver(fn));
    }

    /** Drop the entry identical to `entry`, if any. */
    method Remove(entry: Entry)
      requires Valid()
      modifies this
      ensures Valid() && dead == old(dead)
      ensures entries == Filter(old(entries), NotIdentical(entry), dead)
      ensures entry !in entries
      ensures forall e :: e in old(entries) && e != entry ==> e in entries
      ensures entry !in old(entries) ==> entries == old(entries)
      ensures forall i :: (0 <= i < |old(entries)| && old(entries)[i] == entry
                           ==> entries == old(entries)[..i] + old(entries)[i + 1..])
    {
      ghost var before := entries;
      entries := Filter(entries, NotIdentical(entry), dead);
      FilterDistinct(before, NotIdentical(entry), dead);
      if entry !in before {
        FilterKeepsAll(before, NotIdentical(entry), dead);
      }
      forall i | 0 <= i < |before| && before[i] == entry
        ensures entries == before[..i] + before[i + 1..]
      {
        assert before == before[..i] + [entry] + before[i + 1..];
        RemoveSplices(before[..i], entry, before[i + 1..], dead);
      }
    }

    /** Drop every entry whose observer is `observer`. */
    method RemoveObserver(observer: object)
      requires Valid()
      modifies this
      ensures Valid() && dead == old(dead)
      ensures entries == Filter(old(entries), ObserverNotIdentical(observer), dead)
      ensures forall e :: e in entries ==> e in old(entries) && Resolve(e, dead) != Some(observer)
      ensures observer !in dead ==> forall e :: e in entries ==> e.observer != observer
      ensures forall e :: e in old(entries) && e.observer != observer ==> e in entries
      ensures forall e :: e in old(entries) && !IsLive(e, dead) ==> e in entries
    {
      FilterDistinct(entries, ObserverNotIdentical(observer), dead);
      entries := Filter(entries, ObserverNotIdentical(observer), dead);
    }

    /** The deallocation of `o` elsewhere: weak references to it now read nil. */
    method Destroy(o: object)
      requires Valid() && o != this
      modifies this
      ensures Valid() && entries == old(entries) && dead == old(dead) + {o}
    {
      dead := dead + {o};
    }

    /** Scan phase of notify: the live entries' callbacks, in entry order. */
    method Scan() returns (callbacks: seq<Pending>)
      ensures callbacks == Snapshot(entries, dead)
    {
      callbacks := [];
      for i := 0 to |entries|
        invariant callbacks == Snapshot(entries[..i], dead)
      {
        var entry := entries[i];
        match Resolve(entry, dead) {
          case Some(observer) =>
            callbacks := callbacks + [Pending(entry.notificationQueue, Bind(entry.callback, observer), entry)];
          case None =>
        }
        assert entries[..i + 1] == entries[..i] + [entry];
        SnapshotConcat(entries[..i], [entry], dead);
      }
      assert entries[..|entries|] == entries;
    }

    /**
     * Notify every live observer with `p`: collect the live entries'
     * callbacks, prune the dead entries, then dispatch in order.
     */
    method Notify(p: P) returns (trace: seq<Delivery<P>>)
      requires Valid()
      modifies this
      ensures Valid() && dead == old(dead)
      ensures entries == Pruned(old(entries), dead)
      ensures trace == Deliveries(Snapshot(old(entries), dead), p)
      ensures forall e :: e in entries ==> e in old(entries) && IsLive(e, dead)
      ensures forall e :: e in old(entries) && IsLive(e, dead) ==> e in entries
      ensures (forall e :: e in old(entries) ==> IsLive(e, dead)) ==> entries == old(entries)
      ensures |trace| == |entries| <= |old(entries)|
      ensures forall i :: 0 <= i < |trace| ==>
        (&& trace[i].source == entries[i] && trace[i].arg == p
         && trace[i].call == Bind(entries[i].callback, entries[i].observer)
         && (trace[i].RunInline? <==> entries[i].notificationQueue.None?)
         && (trace[i].Submitted? ==> entries[i].notificationQueue == Some(trace[i].queue)))
    {
      var callbacks := Scan();
      ghost var before := entries;
      FilterDistinct(entries, ObserverNotNil, dead);
      entries := Pruned(entries, dead);
      trace := Deliver(callbacks, p);
      SnapshotOfSurvivors(before, dead);
      if forall e :: e in before ==> IsLive(e, dead) {
        FilterKeepsAll(before, ObserverNotNil, dead);
      }
    }
  }

  /** `notify()` for a set whose parameter type is Void: `notify(())`. */
  method NotifyVoid(s: ObserverSet<()>) returns (trace: seq<Delivery<()>>)
    requires s.Valid()
    modifies s
    ensures s.Valid() && s.dead == old(s.dead)
    ensures s.entries == Pruned(old(s.entries), s.dead)
    ensures trace == Deliveries(Snapshot(old(s.entries), s.dead), ())
    ensures (forall e :: e in old(s.entries) ==> IsLive(e, s.dead)) ==> s.entries == old(s.entries)
    ensures |trace| == |s.entries|
    ensures forall i :: 0 <= i < |trace| ==>
      (&& trace[i].source == s.entries[i]
       && trace[i].call == Bind(s.entries[i].callback, s.entries[i].observer)
       && (trace[i].RunInline? <==> s.entries[i].notificationQueue.None?)
       && (trace[i].Submitted? ==> s.entries[i].notificationQueue == Some(trace[i].queue)))
  {
    trace := s.Notify(());
  }
}
