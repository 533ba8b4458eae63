/** Small facts about sequences that the list-building proofs cite by name,
    so the solver does not have to rediscover them. */
module Seqs {

  lemma AppendAssoc<T>(a: seq<T>, b: seq<T>, c: seq<T>)
    ensures a + b + c == a + (b + c)
  {
  }

  /** How often `u` occurs in a list: once more when it is the head. */
  lemma HeadCount<T>(x: T, t: seq<T>, u: T)
    ensures multiset([x] + t)[u] == (if x == u then 1 else 0) + multiset(t)[u]
  {
    assert multiset([x] + t) == multiset([x]) + multiset(t);
  }
}
