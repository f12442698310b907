/** Small value types and the summation used by every module of the model. */
module Common {

  datatype Option<+T> = None | Some(value: T)

  datatype Result<+T, +E> = Ok(value: T) | Err(error: E)

  /** Sum of `w` over `xs`, accumulated from the left as `Array.prototype.reduce((acc, x) => acc + w(x), 0)` does. */
  function Sum<T>(xs: seq<T>, w: T -> int): int
  {
    if xs == [] then 0 else Sum(xs[..|xs| - 1], w) + w(xs[|xs| - 1])
  }

  /** Summation distributes over concatenation. */
  lemma {:induction false} SumConcat<T>(a: seq<T>, b: seq<T>, w: T -> int)
    ensures Sum(a + b, w) == Sum(a, w) + Sum(b, w)
    decreases |b|
  {
    if b != [] {
      var b' := b[..|b| - 1];
      assert (a + b)[..|a + b| - 1] == a + b';
      assert (a + b)[|a + b| - 1] == b[|b| - 1];
      SumConcat(a, b', w);
    } else {
      assert a + b == a;
    }
  }

  /** Summing a pointwise difference is the difference of the sums. */
  lemma {:induction false} SumDifference<T>(xs: seq<T>, f: T -> int, g: T -> int, h: T -> int)
    requires forall x :: h(x) == f(x) - g(x)
    ensures Sum(xs, h) == Sum(xs, f) - Sum(xs, g)
  {
    if xs != [] {
      SumDifference(xs[..|xs| - 1], f, g, h);
    }
  }

  /** Summing a sequence read backwards, through weights that agree element by element, gives the same total. */
  lemma {:induction false} SumReversed<A, B>(xs: seq<A>, f: A -> int, ys: seq<B>, g: B -> int)
    requires |ys| == |xs|
    requires forall j :: 0 <= j < |xs| ==> g(ys[j]) == f(xs[|xs| - 1 - j])
    ensures Sum(ys, g) == Sum(xs, f)
  {
    if xs != [] {
      var n := |xs|;
      var ys' := ys[1..];
      SumReversed(xs[..n - 1], f, ys', g);
      assert ys == [ys[0]] + ys';
      SumConcat([ys[0]], ys', g);
      assert [ys[0]][..0] == [];
    }
  }
}
