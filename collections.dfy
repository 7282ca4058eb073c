/** Lookups over the in-memory collections that stand for the document store. */
module Collections {
  import opened Wrappers

  /** Position of the first element of `xs`, at or after `from`, whose `key`
      is `k`: what a `findOne`/`findById` on that key finds. */
  function IndexWhere<T>(xs: seq<T>, key: T -> string, k: string, from: nat): (r: Option<nat>)
    requires from <= |xs|
    ensures r.Some? ==> from <= r.value < |xs| && key(xs[r.value]) == k
    ensures r.Some? ==> forall j :: from <= j < r.value ==> key(xs[j]) != k
    ensures r.None? ==> forall j :: from <= j < |xs| ==> key(xs[j]) != k
    decreases |xs| - from
  {
    if from == |xs| then None else if key(xs[from]) == k then Some(from) else IndexWhere(xs, key, k, from + 1)
  }
}
