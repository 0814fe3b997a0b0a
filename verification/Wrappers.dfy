module Wrappers {
  datatype Option<+T> = None | Some(value: T)

  /** `Counter`: a missing key counts zero. */
  function Tally<K>(counter: map<K, nat>, k: K): nat {
    if k in counter then counter[k] else 0
  }

  function Counted<K>(counter: map<K, nat>, k: K): map<K, nat> {
    counter[k := Tally(counter, k) + 1]
  }
}
