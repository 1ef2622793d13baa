/**
 * Client code: what a caller of ObserverSet can conclude from the
 * contracts alone, on four typical uses: an observer deallocated between
 * notifications, a double registration, repeated removal of one handle,
 * and removal of every registration of one observer.
 */
module Scenarios {
  import opened Entries
  import opened ObserverSets

  /** An observer object with no state of its own. */
  class Listener { }

  /**
   * Two observers with callbacks 1 and 2, both inline, notified with 5; the
   * first is deallocated, and the notification with 7 reaches only the
   * second and prunes the first's entry.
   */
  method PruneScenario() {
    var observers := new ObserverSet<int>();
    var a := new Listener;
    var b := new Listener;
    var ea := observers.Add(a, None, UseObserver(1));
    var eb := observers.Add(b, None, UseObserver(2));
    var trace := observers.Notify(5);
    assert trace == [RunInline(Applied(1, a), 5, ea), RunInline(Applied(2, b), 5, eb)];
    observers.Destroy(a);
    trace := observers.Notify(7);
    assert trace == [RunInline(Applied(2, b), 7, eb)];
    assert observers.entries == [eb];
  }

  /** One observer registered twice, once with a queue, plus a callback-only entry. */
  method DispatchScenario() {
    var observers := new ObserverSet<()>();
    var a := new Listener;
    var e1 := observers.Add(a, None, UseObserver(1));
    var e2 := observers.Add(a, Some(9), UseObserver(2));
    var e3 := observers.AddCallback(None, 3);
    assert observers.entries == [e1, e2, e3] && observers.dead == {};
    var trace := NotifyVoid(observers);
    assert observers.entries == [e1, e2, e3];
    assert trace == [RunInline(Applied(1, a), (), e1),
                     Submitted(9, Applied(2, a), (), e2),
                     RunInline(Plain(3), (), e3)];
  }

  /** Removing the same handle twice: the second call changes nothing. */
  method RemoveTwiceScenario() {
    var observers := new ObserverSet<()>();
    var a := new Listener;
    var e1 := observers.Add(a, None, UseObserver(1));
    var e2 := observers.AddCallback(None, 2);
    assert observers.entries == [e1, e2];
    observers.Remove(e1);
    assert [e1, e2][1..] == [e2];
    assert observers.entries == [e2];
    observers.Remove(e1);
    assert observers.entries == [e2];
  }

  /** removeObserver drops every registration of the observer and nothing else. */
  method RemoveObserverScenario() {
    var observers := new ObserverSet<()>();
    var a := new Listener;
    var e1 := observers.Add(a, None, UseObserver(1));
    var e2 := observers.AddCallback(None, 2);
    var e3 := observers.Add(a, Some(9), UseObserver(3));
    assert observers.entries == [e1, e2, e3];
    var k := ObserverNotIdentical(a);
    assert Filter([e3], k, {}) == [];
    assert [e2, e3][1..] == [e3] && Filter([e2, e3], k, {}) == [e2];
    assert [e1, e2, e3][1..] == [e2, e3] && Filter([e1, e2, e3], k, {}) == [e2];
    observers.RemoveObserver(a);
    assert observers.entries == [e2];
  }
}
