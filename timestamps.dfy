/**
 * Timestamps are ISO-8601 strings and the server compares them as strings:
 * the history cutoff test and the history sort both use the string order,
 * which is lexicographic by code point. This module defines that order and
 * proves that it is a total order, which is what sorting and "latest" need.
 */
module Timestamps {

  type Timestamp = string

  /** a <= b in lexicographic (code point) order, as Python compares strings. */
  predicate Le(a: string, b: string)
    decreases |a|
  {
    if a == [] then true
    else if b == [] then false
    else if a[0] != b[0] then a[0] < b[0]
    else Le(a[1..], b[1..])
  }

  lemma {:induction false} LeReflexive(a: string)
    ensures Le(a, a)
    decreases |a|
  {
    if a != [] {
      LeReflexive(a[1..]);
    }
  }

  lemma {:induction false} LeTotal(a: string, b: string)
    ensures Le(a, b) || Le(b, a)
    decreases |a|
  {
    if a != [] && b != [] && a[0] == b[0] {
      LeTotal(a[1..], b[1..]);
    }
  }

  lemma {:induction false} LeAntisymmetric(a: string, b: string)
    requires Le(a, b) && Le(b, a)
    ensures a == b
    decreases |a|
  {
    if a != [] && b != [] {
      LeAntisymmetric(a[1..], b[1..]);
      assert a == [a[0]] + a[1..];
      assert b == [b[0]] + b[1..];
    }
  }

  lemma {:induction false} LeTransitive(a: string, b: string, c: string)
    requires Le(a, b) && Le(b, c)
    ensures Le(a, c)
    decreases |a|
  {
    if a != [] && b != [] && c != [] && a[0] == b[0] && b[0] == c[0] {
      LeTransitive(a[1..], b[1..], c[1..]);
    }
  }

  /** Two distinct timestamps are ordered one way only. */
  lemma NotLeIsGreater(a: string, b: string)
    requires !Le(a, b)
    ensures Le(b, a) && a != b
  {
    LeTotal(a, b);
    if a == b {
      LeReflexive(a);
    }
  }
}
