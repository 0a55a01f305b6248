/** `Observable`: an ordered list of observers, compared by identity, with
    append, remove-first and in-order notification. Observers are named by
    identity tokens; a notification is the sequence of `update` calls made. */
module Observer {
  import opened Wrappers
  import opened Seqs

  type ObserverId = nat
  type ObservableId = nat

  /** One call `observer.update(observable)`. */
  datatype Update = Update(observer: ObserverId, observable: ObservableId)

  /** Appends without a duplicate check. */
  function AddObserver(observers: seq<ObserverId>, o: ObserverId): (r: seq<ObserverId>)
    ensures |r| == |observers| + 1
    ensures r[..|observers|] == observers && r[|observers|] == o
    ensures multiset(r) == multiset(observers) + multiset{o}
  {
    observers + [o]
  }

  /** Removes the first entry identical to `o` and returns it, or returns
      `None` (the source's `null`) and the list unchanged when `o` is absent. */
  function RemoveObserver(observers: seq<ObserverId>, o: ObserverId): (r: (seq<ObserverId>, Option<ObserverId>))
    ensures o !in observers ==> r == (observers, None)
    ensures o in observers ==> r.1 == Some(o)
    ensures o in observers ==>
      exists i :: 0 <= i < |observers| && observers[i] == o && o !in observers[..i]
        && r.0 == observers[..i] + observers[i + 1..]
    ensures multiset(r.0) == multiset(observers) - multiset{o}
  {
    match FindIndex(observers, o)
    case None => (observers, None)
    case Some(i) =>
      assert observers == observers[..i] + [o] + observers[i + 1..];
      (RemoveAt(observers, i), Some(observers[i]))
  }

  /** Adding an observer that was not registered and removing it again gives
      back the original list. */
  lemma AddThenRemove(observers: seq<ObserverId>, o: ObserverId)
    requires o !in observers
    ensures RemoveObserver(AddObserver(observers, o), o) == (observers, Some(o))
  {
    var s := AddObserver(observers, o);
    assert FindIndex(s, o) == Some(|observers|);
    assert RemoveAt(s, |observers|) == observers;
  }

  /** Only one of two identical registrations is removed. */
  lemma RemoveKeepsDuplicate(observers: seq<ObserverId>, o: ObserverId)
    ensures o in RemoveObserver(AddObserver(AddObserver(observers, o), o), o).0
  {
    var s: seq<ObserverId> := AddObserver(AddObserver(observers, o), o);
    assert multiset(s)[o] >= 2;
    assert multiset(RemoveObserver(s, o).0)[o] >= 1;
  }

  /** `notifyObservers`: one `update(self)` per list entry, in list order.
      The list is an input only, so notifying cannot change it. */
  method NotifyObservers(observers: seq<ObserverId>, self: ObservableId) returns (calls: seq<Update>)
    ensures |calls| == |observers|
    ensures forall i :: 0 <= i < |observers| ==> calls[i] == Update(observers[i], self)
  {
    calls := [];
    for k := 0 to |observers|
      invariant |calls| == k
      invariant forall i :: 0 <= i < k ==> calls[i] == Update(observers[i], self)
    {
      calls := calls + [Update(observers[k], self)];
    }
  }
}
