// Order-keeping selection from a sequence, shared by the modules whose source
// filters a list (`[p for p in parts if p]`, `all.filter(...)`).
module Seqs {

  /** `a` is `b` with some elements dropped, the rest in order. */
  predicate SubsequenceOf<T(==)>(a: seq<T>, b: seq<T>)
    decreases |b|
  {
    if a == [] then true
    else if b == [] then false
    else if a[0] == b[0] then SubsequenceOf(a[1..], b[1..])
    else SubsequenceOf(a, b[1..])
  }

  lemma {:induction false} PrefixIsSubsequence<T>(a: seq<T>, n: nat, b: seq<T>)
    requires n <= |a| && SubsequenceOf(a, b)
    ensures SubsequenceOf(a[..n], b)
    decreases |b|
  {
    if n > 0 && b != [] {
      assert a[..n][0] == a[0];
      assert a[..n][1..] == a[1..][..n - 1];
      if a[0] == b[0] {
        PrefixIsSubsequence(a[1..], n - 1, b[1..]);
      } else {
        PrefixIsSubsequence(a, n, b[1..]);
      }
    }
  }

  /** A subsequence stays one when `b` grows at the end. */
  lemma {:induction false} SubsequenceSnoc<T>(a: seq<T>, b: seq<T>, x: T)
    requires SubsequenceOf(a, b)
    ensures SubsequenceOf(a, b + [x])
    decreases |b|
  {
    if a != [] {
      assert (b + [x])[0] == b[0] && (b + [x])[1..] == b[1..] + [x];
      if a[0] == b[0] {
        SubsequenceSnoc(a[1..], b[1..], x);
      } else {
        SubsequenceSnoc(a, b[1..], x);
      }
    }
  }

  /** Growing both sequences by the same last element keeps the relation. */
  lemma {:induction false} SubsequenceSnocBoth<T>(a: seq<T>, b: seq<T>, x: T)
    requires SubsequenceOf(a, b)
    ensures SubsequenceOf(a + [x], b + [x])
    decreases |b|
  {
    if b == [] {
      assert a == [] && a + [x] == [x] && b + [x] == [x];
      assert [x][1..] == [];
    } else {
      assert (b + [x])[0] == b[0] && (b + [x])[1..] == b[1..] + [x];
      if a == [] {
        SubsequenceSnocBoth(a, b[1..], x);
        assert [x][1..] == [];
      } else {
        assert (a + [x])[0] == a[0] && (a + [x])[1..] == a[1..] + [x];
        if a[0] == b[0] {
          SubsequenceSnocBoth(a[1..], b[1..], x);
        } else {
          SubsequenceSnocBoth(a, b[1..], x);
        }
      }
    }
  }
}
