/** The verdict cache (cache/store.py, `Cache`). */
module Caching {
  import opened Wrappers

  class Cache<K(==)> {
    var results: map<K, bool>
    var lookups: nat
    var hits: nat
    var acceptedHits: nat
    var rejectedHits: nat

    ghost predicate Valid()
      reads this
    {
      hits == acceptedHits + rejectedHits && hits <= lookups
    }

    constructor ()
      ensures Valid() && results == map[] && lookups == 0 && hits == 0
    {
      results, lookups, hits, acceptedHits, rejectedHits := map[], 0, 0, 0, 0;
    }

    method Get(key: K) returns (r: Option<bool>)
      requires Valid()
      modifies this
      ensures Valid() && results == old(results)
      ensures r == if key in results then Some(results[key]) else None
      ensures lookups == old(lookups) + 1 && hits == old(hits) + (if r.Some? then 1 else 0)
      ensures acceptedHits == old(acceptedHits) + (if r == Some(true) then 1 else 0)
    {
      lookups := lookups + 1;
      r := if key in results then Some(results[key]) else None;
      if r.Some? {
        hits := hits + 1;
        if r.value {
          acceptedHits := acceptedHits + 1;
        } else {
          rejectedHits := rejectedHits + 1;
        }
      }
    }
  }
}
