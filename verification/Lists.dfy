/** Lists made of one list for each element. */
module Lists {
  function FlatMap<A, B>(xs: seq<A>, f: A -> seq<B>): seq<B> {
    if xs == [] then [] else f(xs[0]) + FlatMap(xs[1..], f)
  }

  lemma {:induction false} FlatMapConcat<A, B>(a: seq<A>, b: seq<A>, f: A -> seq<B>)
    ensures FlatMap(a + b, f) == FlatMap(a, f) + FlatMap(b, f)
  {
    if a == [] {
      assert a + b == b;
    } else {
      var rest := a[1..];
      FlatMapConcat(rest, b, f);
      assert (a + b)[0] == a[0] && (a + b)[1..] == rest + b;
      assert f(a[0]) + (FlatMap(rest, f) + FlatMap(b, f)) == FlatMap(a, f) + FlatMap(b, f);
    }
  }

  lemma {:induction false} FlatMapOne<A, B>(x: A, f: A -> seq<B>)
    ensures FlatMap([x], f) == f(x)
  {
    assert [x][1..] == [];
  }

  /** The part of element k stands right after the parts of the elements before it. */
  lemma {:induction false} PartIsAt<A, B>(xs: seq<A>, f: A -> seq<B>, k: nat)
    requires k < |xs|
    ensures var start := |FlatMap(xs[..k], f)|;
            && start + |f(xs[k])| <= |FlatMap(xs, f)|
            && FlatMap(xs, f)[start..][..|f(xs[k])|] == f(xs[k])
            && |FlatMap(xs[..k + 1], f)| == start + |f(xs[k])|
  {
    var before, after := xs[..k], xs[k + 1..];
    assert xs == before + ([xs[k]] + after) && xs[..k + 1] == before + [xs[k]];
    FlatMapOne(xs[k], f);
    FlatMapConcat(before, [xs[k]], f);
    FlatMapConcat([xs[k]], after, f);
    FlatMapConcat(before, [xs[k]] + after, f);
    MiddleIsAt(FlatMap(before, f), f(xs[k]), FlatMap(after, f));
  }

  lemma {:induction false} MiddleIsAt<B>(a: seq<B>, b: seq<B>, d: seq<B>)
    ensures |a| + |b| <= |a + (b + d)| && (a + (b + d))[|a|..][..|b|] == b
  {
    assert (a + (b + d))[|a|..] == b + d;
  }

  /** The sum of the sizes. */
  function Total<A>(xs: seq<A>, size: A -> nat): nat {
    if xs == [] then 0 else size(xs[0]) + Total(xs[1..], size)
  }

  lemma {:induction false} TotalIsLength<A, B>(xs: seq<A>, f: A -> seq<B>, size: A -> nat)
    requires forall i :: 0 <= i < |xs| ==> |f(xs[i])| == size(xs[i])
    ensures |FlatMap(xs, f)| == Total(xs, size)
  {
    if xs != [] { TotalIsLength(xs[1..], f, size); }
  }
}
