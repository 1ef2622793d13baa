# ObserverSet in Dafny

A model of `ObserverSet`, a Swift registry of weakly-held observers and their
callbacks, and of its entry type `ObserverSetEntry`.

- `entries.dfy` (module `Entries`): the entry, an object with a constant
  observer, optional notification queue and callback. Entries are compared by
  reference identity, as in the source. The observer is held weakly: the set
  keeps a field `dead` of deallocated objects, and reading an entry's observer
  (`Resolve`) gives `None` exactly when that observer is in `dead`. The three
  closures the source hands to `filter` are the constructors of `Keep`, and
  `Filter` is the array filter, with its order, idempotence and
  duplicate-freedom lemmas.
- `observer_set.dfy` (module `ObserverSets`): the `ObserverSet<P>` class with
  its `entries` list, `Add` (observer form), `AddCallback` (callback-only
  form, which registers the set itself), `Remove`, `RemoveObserver` and
  `Notify`. `Notify` is split as in the source: `Scan` is the loop that
  collects the live entries' callbacks, `Pruned` is the filter that drops
  the dead entries, and `Deliver` is the loop that dispatches them.
  Callbacks are not run. `Notify` returns a trace instead. It holds
  `RunInline` for an entry without a queue and `Submitted(q, …)` for an entry
  whose queue is `q`. `NotifyVoid` is the `notify()` form for `Void`
  parameters.
- `scenarios.dfy` (module `Scenarios`): client methods. They show what
  callers can conclude from the contracts alone. One shows two observers
  where one is deallocated between notifications. One shows an observer
  registered twice, once on a queue. One shows that removing the same handle
  twice changes nothing the second time. One shows that removeObserver drops
  both registrations of an observer and keeps the callback-only entry.

The callback stored in an entry is two-stage: given the live observer, it
yields the closure that receives the parameters. It is modelled by
`Callback`. `UseObserver(f)` is the wrapper built by the observer form of
`add`. `IgnoreObserver(f)` is the `{ _ in callback }` wrapper of the
callback-only form. `Bind` applies the callback to the resolved observer
during the scan, as the source does.

## Model

| member | source | states |
|---|---|---|
| Entries.Entry.constructor | ObserverSet.swift:39-43 | an entry holds exactly the observer, queue and callback it was built with |
| Entries.Filter | ObserverSet.swift:103 | the filtered list keeps exactly the entries the closure accepts and never grows |
| Entries.FilterConcat | ObserverSet.swift:115 | filtering a concatenation filters each part, so surviving entries keep their relative order |
| Entries.FilterKeepsAll | ObserverSet.swift:103 | a filter that accepts every entry leaves the list unchanged (removing an unknown handle is a no-op) |
| Entries.FilterIdempotent | ObserverSet.swift:113-117 | repeating remove, removeObserver or the prune changes nothing the second time |
| Entries.FilterDistinct | ObserverSet.swift:132 | filtering a list without duplicate entries yields a list without duplicates |
| Entries.RemoveSplices | ObserverSet.swift:101-105 | removing a handle that occurs once gives the entries before it followed by the entries after it |
| ObserverSets.SnapshotConcat | ObserverSet.swift:125-131 | the scan of a concatenation is the scan of the first part followed by the scan of the second |
| ObserverSets.SnapshotOfSurvivors | ObserverSet.swift:127-132 | the collected callbacks correspond one to one, in order, to the entries that survive pruning, each with its entry's queue and its callback bound to its observer |
| ObserverSets.DeliveryOrder | ObserverSet.swift:134-142 | entries registered earlier are delivered before entries registered later |
| ObserverSets.DeliveredExactlyOnce | ObserverSet.swift:127-142 | each live entry is delivered exactly once per notify and a dead entry never |
| ObserverSets.PruneKeepsLiveObserver | ObserverSet.swift:132 | pruning removes no registration of a live observer |
| ObserverSets.DeliveredPerRegistration | ObserverSet.swift:127-142 | a live observer registered n times receives n deliveries per notify |
| ObserverSets.PruneTwice | ObserverSet.swift:132 | pruning after more observers died equals one prune with the later liveness; with the same liveness a second prune is a no-op |
| ObserverSets.RemovedObserverNotDelivered | ObserverSet.swift:113-142 | after removeObserver(o), a later notify delivers nothing to o, whether o was live or already deallocated |
| ObserverSets.Deliver | ObserverSet.swift:134-142 | one delivery per collected callback, in order: submitted to its queue when it has one, run inline otherwise, always with the notification's parameters |
| ObserverSets.ObserverSet.constructor | ObserverSet.swift:52-63 | a new set has no entries |
| ObserverSets.ObserverSet.Add | ObserverSet.swift:76-82 | the entries grow by exactly one fresh entry, last, carrying the given observer, queue and callback; earlier entries are unchanged and in order |
| ObserverSets.ObserverSet.AddCallback | ObserverSet.swift:92-94 | same as Add with the set itself as observer and an observer-ignoring callback; the new entry is live |
| ObserverSets.ObserverSet.Remove | ObserverSet.swift:101-105 | no entry identical to the handle remains; the others stay in order; an unknown handle changes nothing |
| ObserverSets.ObserverSet.RemoveObserver | ObserverSet.swift:113-117 | no remaining entry resolves to the observer (all its registrations go when it is live); other entries and dead entries are kept |
| ObserverSets.ObserverSet.Destroy | ObserverSet.swift:35 | deallocating an object elsewhere turns weak references to it nil and changes no entry |
| ObserverSets.ObserverSet.Scan | ObserverSet.swift:125-131 | the collected callbacks are the snapshot of the live entries in entry order |
| ObserverSets.ObserverSet.Notify | ObserverSet.swift:124-143 | the survivors are exactly the live entries in their original order; the i-th delivery is for the i-th survivor, inline iff it has no queue; with no dead entry nothing is pruned |
| ObserverSets.NotifyVoid | ObserverSet.swift:152-155 | notify() behaves as notify with the empty tuple |

## Left out

- The serial dispatch queue used as a lock (`synchronized`): every operation is atomic, and mutual exclusion is not modelled.
- Asynchronous execution on a notification queue: a submission is recorded in the trace as `Submitted`, and nothing is run.
- Running the user's closures: callbacks are identified by a number. Reentrancy from a callback and failures inside one are not modelled.
- The `as! T` cast in the observer form of `add`: Dafny's types make it unnecessary.
- Automatic reference counting: weak references are modelled by the explicit `dead` set. An observer deallocated between the scan and the prune of one notify (a race) is not modelled, because `dead` is fixed during a call.
- The unused `notificationQueue` property of the set.
- ObserverSets.ObserverSet.Destroy: requires the object to differ from the set itself, because a set whose method is running cannot be deallocated.
- ObserverSets.ObserverSet.Add: accepts an observer that is already deallocated. In the source the caller holds a strong reference, so this cannot happen; the model prunes such an entry on the next notify.
