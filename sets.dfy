/**
 * Iteration over unordered collections: a loop over a Python set or a
 * directory listing visits every member once, in an order the model does
 * not fix.
 */
module Sets {
  /** `xs` lists every member of `s`, each exactly once. */
  predicate Listing<T>(xs: seq<T>, s: set<T>) {
    && (forall i :: 0 <= i < |xs| ==> xs[i] in s)
    && (forall v :: v in s ==> v in xs)
    && Distinct(xs)
  }

  /** No element occurs twice. */
  predicate Distinct<T(==)>(xs: seq<T>) {
    forall i, j :: 0 <= i < j < |xs| ==> xs[i] != xs[j]
  }

  /** A `for` loop over a set: every member once, in the order the set yields them. */
  method ListMembers<T>(members: set<T>) returns (order: seq<T>)
    ensures Listing(order, members)
  {
    order := [];
    var rest := members;
    while rest != {}
      invariant rest <= members
      invariant forall i :: 0 <= i < |order| ==> order[i] in members && order[i] !in rest
      invariant forall v :: v in members ==> v in rest || v in order
      invariant forall i, j :: 0 <= i < j < |order| ==> order[i] != order[j]
      decreases |rest|
    {
      var p :| p in rest;
      order := order + [p];
      rest := rest - {p};
    }
  }

  lemma AppendAssoc<T>(a: seq<T>, b: seq<T>, c: seq<T>)
    ensures (a + b) + c == a + (b + c)
  {
  }

  lemma DropPrefix<T>(a: seq<T>, b: seq<T>)
    ensures (a + b)[|a|..] == b
  {
  }

  /** A prefix of a prefix is a prefix. */
  lemma PrefixTrans<T>(a: seq<T>, b: seq<T>, c: seq<T>)
    requires a <= b && b <= c
    ensures a <= c
  {
    assert c[..|b|] == b;
    assert c[..|a|] == b[..|a|];
  }
}
