/** Optional values: Python's `None` versus a present value; and the one
    fact about sequence prefixes every module leans on. */
module Wrappers {

  datatype Option<+T> = None | Some(value: T)

  /** Being a prefix is transitive. */
  lemma PrefixTransitive<T>(a: seq<T>, b: seq<T>, c: seq<T>)
    requires a <= b && b <= c
    ensures a <= c
  {
    assert c[..|a|] == c[..|b|][..|a|];
  }

}
