/**
 Sequence helpers shared by the pages: the order-preserving `Array.prototype.filter`
 and the left-to-right product computed by `reduce((acc, x) => acc * x, 1)`.
 */
module Seqs {

  /** `s.filter(p)`: the elements of `s` that satisfy `p`, front to back. */
  function Filter<T>(p: T -> bool, s: seq<T>): (r: seq<T>)
    ensures |r| <= |s|
    ensures forall i :: 0 <= i < |r| ==> r[i] in s && p(r[i])
    ensures forall i :: 0 <= i < |s| && p(s[i]) ==> s[i] in r
    decreases |s|
  {
    if |s| == 0 then []
    else (if p(s[0]) then [s[0]] else []) + Filter(p, s[1..])
  }

  /** Filtering a concatenation filters each part and keeps them in order. */
  lemma {:induction false} FilterConcat<T>(p: T -> bool, a: seq<T>, b: seq<T>)
    ensures Filter(p, a + b) == Filter(p, a) + Filter(p, b)
    decreases |a|
  {
    if |a| == 0 {
      assert a + b == b;
    } else {
      assert (a + b)[0] == a[0];
      assert (a + b)[1..] == a[1..] + b;
      FilterConcat(p, a[1..], b);
    }
  }

  /** A filter that keeps every element is the identity. */
  lemma {:induction false} FilterKeepsAll<T>(p: T -> bool, s: seq<T>)
    requires forall i :: 0 <= i < |s| ==> p(s[i])
    ensures Filter(p, s) == s
    decreases |s|
  {
    if |s| > 0 {
      FilterKeepsAll(p, s[1..]);
    }
  }

  /** The product of `xs`, folded from the left starting at 1. */
  function Product(xs: seq<real>): real
    decreases |xs|
  {
    if |xs| == 0 then 1.0 else Product(xs[..|xs| - 1]) * xs[|xs| - 1]
  }

  /** A product is zero exactly when one of its factors is zero. */
  lemma {:induction false} ProductZeroIff(xs: seq<real>)
    ensures Product(xs) == 0.0 <==> exists i :: 0 <= i < |xs| && xs[i] == 0.0
    decreases |xs|
  {
    if |xs| > 0 {
      var init := xs[..|xs| - 1];
      ProductZeroIff(init);
      if exists i :: 0 <= i < |init| && init[i] == 0.0 {
        var i :| 0 <= i < |init| && init[i] == 0.0;
        assert xs[i] == 0.0;
      }
      if exists i :: 0 <= i < |xs| && xs[i] == 0.0 {
        var i :| 0 <= i < |xs| && xs[i] == 0.0;
        if i < |init| {
          assert init[i] == 0.0;
        }
      }
    }
  }

  /** The product of a concatenation is the product of the products. */
  lemma {:induction false} ProductConcat(a: seq<real>, b: seq<real>)
    ensures Product(a + b) == Product(a) * Product(b)
    decreases |b|
  {
    if |b| == 0 {
      assert a + b == a;
    } else {
      var b' := b[..|b| - 1];
      assert (a + b)[..|a + b| - 1] == a + b';
      ProductConcat(a, b');
      calc {
        Product(a + b);
        Product(a + b') * b[|b| - 1];
        (Product(a) * Product(b')) * b[|b| - 1];
        Product(a) * (Product(b') * b[|b| - 1]);
      }
    }
  }

  /** Factors equal to 1 do not change a product. */
  lemma {:induction false} ProductOfOnes(xs: seq<real>)
    requires forall i :: 0 <= i < |xs| ==> xs[i] == 1.0
    ensures Product(xs) == 1.0
    decreases |xs|
  {
    if |xs| > 0 {
      ProductOfOnes(xs[..|xs| - 1]);
    }
  }
}
