/** Facts about sequences. */
module Sequences {

  lemma SeqAssoc<T>(a: seq<T>, b: seq<T>, c: seq<T>)
    ensures (a + b) + c == a + (b + c)
  {
  }

  function Mapped<A, B>(f: A -> B, xs: seq<A>): seq<B> {
    seq(|xs|, i requires 0 <= i < |xs| => f(xs[i]))
  }

  function Zip<A, B>(a: seq<A>, b: seq<B>): seq<(A, B)>
    requires |a| == |b|
  {
    seq(|a|, i requires 0 <= i < |a| => (a[i], b[i]))
  }

  /** Zipping two images pairs them element by element. */
  lemma ZipMapped<A, B, C>(f: A -> B, g: A -> C, pair: A -> (B, C), xs: seq<A>)
    requires forall i :: 0 <= i < |xs| ==> pair(xs[i]) == (f(xs[i]), g(xs[i]))
    ensures Zip(Mapped(f, xs), Mapped(g, xs)) == Mapped(pair, xs)
  {
    forall i | 0 <= i < |xs|
      ensures Zip(Mapped(f, xs), Mapped(g, xs))[i] == Mapped(pair, xs)[i]
    {
      assert pair(xs[i]) == (f(xs[i]), g(xs[i]));
    }
  }
}
