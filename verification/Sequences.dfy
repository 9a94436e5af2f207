/** Facts about sequences that several modules use. */
module Sequences {
  predicate StartsWith<T(==)>(s: seq<T>, prefix: seq<T>) { |prefix| <= |s| && s[..|prefix|] == prefix }

  lemma Regroup<T>(a: seq<T>, b: seq<T>, c: seq<T>)
    ensures a + (b + c) == (a + b) + c
  {
  }
}
