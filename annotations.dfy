/**
 * The annotation store: a map from a tile-source reference (the path of a
 * deep-zoom image descriptor) to the annotations placed on that image, in the
 * order they were created.
 */
module Annotations {

  /** One annotation: a point in image coordinates, its text and its marker id. */
  datatype Annotation = Annotation(x: real, y: real, text: string, id: string)

  type Store = map<string, seq<Annotation>>

  /** The tile sources the page knows about. */
  const Andromeda := "images/andromeda.dzi"
  const OrionNebula := "images/OrionNebula.dzi"
  const RedAndromeda := "images/red-andromeda.dzi"
  const GiantBubble := "images/Hubble Sees a Star \U{2018}Inflating\U{2019} a Giant Bubble.dzi"

  /** The store as the page starts: every known image with no annotations. */
  const InitialStore: Store :=
    map[Andromeda := [], OrionNebula := [], RedAndromeda := [], GiantBubble := []]

  /** The annotations stored for `key`; an unknown key reads as the empty sequence. */
  function Get(store: Store, key: string): (r: seq<Annotation>)
  {
    if key in store then store[key] else []
  }

  /**
   * What a quick double-click does to the store: the key is created with an
   * empty sequence when it is absent, then `a` is pushed onto its end.
   */
  function Append(store: Store, key: string, a: Annotation): (r: Store)
    ensures r.Keys == store.Keys + {key}
    ensures Get(r, key) == Get(store, key) + [a]
    ensures forall k :: k != key ==> Get(r, k) == Get(store, k)
  {
    store[key := Get(store, key) + [a]]
  }

  /** A double-click that reached the store: the key it was filed under and the record. */
  datatype Placement = Placement(key: string, record: Annotation)

  /** The store after the placements, oldest first, have been appended in turn. */
  function Replay(store: Store, placements: seq<Placement>): (r: Store)
    decreases |placements|
  {
    if placements == [] then store
    else
      var last := placements[|placements| - 1];
      Append(Replay(store, placements[..|placements| - 1]), last.key, last.record)
  }

  /** The records among `placements` that were filed under `key`, in order. */
  function FiledUnder(placements: seq<Placement>, key: string): (r: seq<Annotation>)
    decreases |placements|
  {
    if placements == [] then []
    else
      var last := placements[|placements| - 1];
      FiledUnder(placements[..|placements| - 1], key) + (if last.key == key then [last.record] else [])
  }

  /**
   * After any history of double-clicks, the sequence stored for a key is what
   * it held before followed by exactly the records filed under that key, in
   * creation order: nothing is lost, reordered or filed elsewhere.
   */
  lemma {:induction false} ReplayGet(store: Store, placements: seq<Placement>, key: string)
    ensures Get(Replay(store, placements), key) == Get(store, key) + FiledUnder(placements, key)
    decreases |placements|
  {
    if placements != [] {
      var prefix := placements[..|placements| - 1];
      ReplayGet(store, prefix, key);
    }
  }

  /** A key no placement names contributes no record. */
  lemma {:induction false} FiledUnderOthers(placements: seq<Placement>, key: string)
    requires forall i :: 0 <= i < |placements| ==> placements[i].key != key
    ensures FiledUnder(placements, key) == []
    decreases |placements|
  {
    if placements != [] {
      var prefix := placements[..|placements| - 1];
      assert forall i :: 0 <= i < |prefix| ==> prefix[i].key == placements[i].key;
      FiledUnderOthers(prefix, key);
    }
  }

  /** An image that was never annotated reads as the empty sequence, never as an error. */
  lemma {:induction false} NeverAnnotatedIsEmpty(placements: seq<Placement>, key: string)
    requires forall i :: 0 <= i < |placements| ==> placements[i].key != key
    ensures Get(Replay(InitialStore, placements), key) == []
  {
    assert Get(InitialStore, key) == [] by {
      assert forall k :: k in InitialStore ==> InitialStore[k] == [];
    }
    ReplayGet(InitialStore, placements, key);
    FiledUnderOthers(placements, key);
  }
}
