/**
 * The saved-calculations list and its copy in the browser's local storage
 * (src/App.tsx). Storage is a map from key to the list stored under it; the
 * JSON encoding in between is not modelled.
 */
module History {
  import opened Pricing

  /** The one storage key the history is kept under. */
  const StorageKey: string := "pricingHistory"

  type Storage = map<string, seq<Calculation>>

  /**
   * `history.filter((_, i) => i !== index)`: every element except the one at
   * `index`; an index outside the list removes nothing.
   */
  function RemoveAt<T>(h: seq<T>, index: int): (r: seq<T>)
    ensures 0 <= index < |h| ==> r == h[..index] + h[index + 1..]
    ensures !(0 <= index < |h|) ==> r == h
  {
    if h == [] then []
    else (if index == 0 then [] else [h[0]]) + RemoveAt(h[1..], index - 1)
  }

  /** `loadHistory`: the stored list when the key is present, otherwise the list in memory. */
  function Loaded(storage: Storage, h: seq<Calculation>): seq<Calculation> {
    if StorageKey in storage then storage[StorageKey] else h
  }

  /** The stored list mirrors the list in memory, or the key is absent and memory is empty. */
  predicate Mirrors(storage: Storage, h: seq<Calculation>) {
    if StorageKey in storage then storage[StorageKey] == h else h == []
  }

  /** Deleting inside the list removes one element and keeps the others in order. */
  lemma {:induction false} RemoveAtDropsOne<T>(h: seq<T>, index: int)
    requires 0 <= index < |h|
    ensures |RemoveAt(h, index)| == |h| - 1
    ensures forall j :: 0 <= j < index ==> RemoveAt(h, index)[j] == h[j]
    ensures forall j :: index <= j < |h| - 1 ==> RemoveAt(h, index)[j] == h[j + 1]
    ensures multiset(RemoveAt(h, index)) + multiset{h[index]} == multiset(h)
  {
    assert h == h[..index] + [h[index]] + h[index + 1..];
  }

  /** While the two mirror each other, loading from storage gives back the list in memory. */
  lemma LoadingMirroredStorage(storage: Storage, h: seq<Calculation>, before: seq<Calculation>)
    requires Mirrors(storage, h)
    requires StorageKey in storage || before == []
    ensures Loaded(storage, before) == h
  {
  }

  /** A list written under the key is what the next load reads. */
  lemma SaveThenLoad(storage: Storage, h: seq<Calculation>, before: seq<Calculation>)
    ensures Mirrors(storage[StorageKey := h], h)
    ensures Loaded(storage[StorageKey := h], before) == h
  {
  }

  /** After the key is removed a load leaves memory as it is, and memory must be empty to mirror it. */
  lemma ClearThenLoad(storage: Storage, before: seq<Calculation>)
    ensures Mirrors(storage - {StorageKey}, [])
    ensures Loaded(storage - {StorageKey}, before) == before
  {
  }
}
