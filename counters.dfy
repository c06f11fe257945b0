/** Call counters keyed by an id, as the mocks keep them in dictionaries of
    `NSNumber`s: a key that was never counted reads as zero. */
module Counters {

  /** The count recorded for a key; zero if none was recorded. */
  function CountOf<K(!new)>(counts: map<K, nat>, key: K): nat
  {
    if key in counts then counts[key] else 0
  }

  /** Adds one to the count for `key` and leaves every other count alone. */
  function Bump<K(!new)>(counts: map<K, nat>, key: K): (r: map<K, nat>)
    ensures CountOf(r, key) == CountOf(counts, key) + 1
    ensures forall k :: k != key ==> CountOf(r, k) == CountOf(counts, k)
    ensures r.Keys == counts.Keys + {key}
  {
    counts[key := CountOf(counts, key) + 1]
  }

  /** Counts that record how often each key occurs in a history keep doing so
      when one more key is both counted and recorded. */
  lemma BumpTracksHistory<K(!new)>(counts: map<K, nat>, history: seq<K>, key: K)
    requires forall k :: CountOf(counts, k) == multiset(history)[k]
    ensures forall k :: CountOf(Bump(counts, key), k) == multiset(history + [key])[k]
  {
    assert multiset(history + [key]) == multiset(history) + multiset{key};
  }
}
