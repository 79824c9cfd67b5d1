/**
 Shard selection without a hint (smart.go:396-401, 462): a 32-bit counter of which the low 31 bits,
 modulo the shard count, are the shard. Exactly when do consecutive ticks visit every shard once?
 */
module Rounds {

  const HALF := 0x8000_0000
  const WRAP := 0x1_0000_0000

  /** The values of the 32-bit counter. */
  type Counter = n: int | 0 <= n < WRAP

  /** The counter after one more tick. */
  function Next(round: Counter): Counter {
    (round + 1) % WRAP
  }

  /** The counter after `n` ticks. */
  function After(round: Counter, n: nat): Counter {
    if n == 0 then round else Next(After(round, n - 1))
  }

  /** `round & (1<<31 - 1)`, modulo the shards. */
  function Shard(round: nat, shards: nat): nat
    requires shards > 0
  {
    round % HALF % shards
  }

  /** The shard of tick number `tick`, counted without wrap-around. */
  function At(tick: nat, shards: nat): (r: nat)
    requires shards > 0
    ensures r < shards
  {
    Shard(tick % WRAP, shards)
  }

  /** The shard of the tick with index `i` in the window that starts at `first`. */
  function Visit(first: nat, i: nat, shards: nat): nat
    requires shards > 0
  {
    At(first + i, shards)
  }

  /** The window of `shards` ticks from `first` on visits no shard twice. */
  predicate OnceEach(first: nat, shards: nat)
    requires shards > 0
  {
    forall i, j :: 0 <= i < j < shards ==> Visit(first, i, shards) != Visit(first, j, shards)
  }

  predicate Visited(first: nat, shards: nat, shard: nat)
    requires shards > 0
  {
    exists i :: 0 <= i < shards && Visit(first, i, shards) == shard
  }

  predicate VisitsAll(first: nat, shards: nat)
    requires shards > 0
  {
    forall shard :: 0 <= shard < shards ==> Visited(first, shards, shard)
  }

  /** A multiple of 2^31 lies inside the window. */
  predicate Straddles(first: nat, shards: nat)
    requires shards > 0
  {
    first / HALF != (first + shards - 1) / HALF
  }

  // ---- residues

  lemma Unfold(x: nat, n: nat)
    requires n > 0
    ensures x == n * (x / n) + x % n && 0 <= x % n < n
  {
  }

  lemma Multiples(n: int, d: int)
    requires n > 0
    ensures d >= 1 ==> n * d >= n
    ensures d <= -1 ==> n * d <= -n
  {
  }

  /** A number has only one quotient and remainder. */
  lemma Residue(x: nat, n: nat, q: int, r: nat)
    requires n > 0 && x == n * q + r && r < n
    ensures x % n == r && x / n == q
  {
    Unfold(x, n);
    assert n * (q - x / n) == n * q - n * (x / n);
    Multiples(n, q - x / n);
  }

  lemma SameResidue(x: nat, y: nat, n: nat)
    requires n > 0 && x % n == y % n && x <= y < x + n
    ensures x == y
  {
    Unfold(x, n);
    Unfold(y, n);
    assert n * (y / n - x / n) == n * (y / n) - n * (x / n);
    Multiples(n, y / n - x / n);
  }

  /** Every residue occurs among `n` consecutive numbers. */
  lemma Occurs(x: nat, n: nat, r: nat) returns (i: nat)
    requires r < n
    ensures i < n && (x + i) % n == r
  {
    Unfold(x, n);
    if r >= x % n {
      i := r - x % n;
      Residue(x + i, n, x / n, r);
    } else {
      i := n + r - x % n;
      assert x + i == n * (x / n) + n + r;
      assert n * (x / n) + n == n * (x / n + 1);
      Residue(x + i, n, x / n + 1, r);
    }
  }

  lemma Multiple(x: nat, n: nat)
    requires n > 0 && HALF % n == 0
    ensures x % HALF % n == x % n
  {
    var k, q, r := HALF / n, x / HALF, x % HALF;
    Unfold(HALF, n);
    Unfold(r, n);
    assert x == HALF * q + r;
    assert HALF * q == n * (k * q) by {
      assert n * k == HALF;
      assert n * (k * q) == (n * k) * q;
    }
    assert x == n * (k * q + r / n) + r % n by {
      assert n * (k * q + r / n) == n * (k * q) + n * (r / n);
    }
    Residue(x, n, k * q + r / n, r % n);
  }

  /** Only the low 31 bits of the tick number matter. */
  lemma Low31(tick: nat, shards: nat)
    requires shards > 0
    ensures At(tick, shards) == tick % HALF % shards
  {
    HalfOfWrap(tick);
  }

  lemma HalfOfWrap(n: nat)
    ensures n % WRAP % HALF == n % HALF
  {
  }

  // ---- the theorem

  /** Up to the border the low bits run on from those of `first`. */
  lemma BeforeBorder(first: nat, shards: nat, i: nat)
    requires 0 < shards && first % HALF + i < HALF
    ensures Visit(first, i, shards) == (first % HALF + i) % shards
  {
    Low31(first + i, shards);
    Unfold(first, HALF);
    Residue(first + i, HALF, first / HALF, first % HALF + i);
  }

  /** At the border, `before` ticks after `first`, they start again from 0. */
  lemma AfterBorder(first: nat, shards: nat, before: nat, i: nat)
    requires 0 < shards <= HALF && before == HALF - first % HALF && i < shards
    ensures Visit(first, before + i, shards) == i
  {
    Low31(first + before + i, shards);
    Unfold(first, HALF);
    Residue(first + before + i, HALF, first / HALF + 1, i);
    Residue(i, shards, 0, i);
  }

  /** If the residues run on from `base`, every shard is visited once. */
  lemma RunsIsBalanced(first: nat, shards: nat, base: nat)
    requires shards > 0 && forall i :: 0 <= i < shards ==> Visit(first, i, shards) == (base + i) % shards
    ensures OnceEach(first, shards) && VisitsAll(first, shards)
  {
    hide Visit;
    forall i, j | 0 <= i < j < shards
      ensures Visit(first, i, shards) != Visit(first, j, shards)
    {
      if (base + i) % shards == (base + j) % shards {
        SameResidue(base + i, base + j, shards);
      }
    }
    forall shard | 0 <= shard < shards
      ensures Visited(first, shards, shard)
    {
      var i := Occurs(base, shards, shard);
      assert Visit(first, i, shards) == shard;
    }
  }

  lemma InsideIsBalanced(first: nat, shards: nat)
    requires shards > 0 && !Straddles(first, shards)
    ensures OnceEach(first, shards) && VisitsAll(first, shards)
  {
    forall i | 0 <= i < shards
      ensures Visit(first, i, shards) == (first % HALF + i) % shards
    {
      BeforeBorder(first, shards, i);
    }
    hide *;
    RunsIsBalanced(first, shards, first % HALF);
  }

  lemma DivisorIsBalanced(first: nat, shards: nat)
    requires shards > 0 && HALF % shards == 0
    ensures OnceEach(first, shards) && VisitsAll(first, shards)
  {
    forall i | 0 <= i < shards
      ensures Visit(first, i, shards) == (first + i) % shards
    {
      Low31(first + i, shards);
      Multiple(first + i, shards);
    }
    hide *;
    RunsIsBalanced(first, shards, first);
  }

  /** The border lies inside a window that straddles. */
  lemma Border(first: nat, shards: nat)
    requires 0 < shards && Straddles(first, shards)
    ensures HALF - first % HALF < shards
  {
  }

  /** The last ticks before the border end on a shard that the ticks after it visit again. */
  lemma Collision(first: nat, shards: nat, before: nat, rest: nat) returns (i: nat, j: nat)
    requires 0 < before < shards <= HALF && before == HALF - first % HALF && 0 < rest == HALF % shards
    ensures i < j < shards && Visit(first, i, shards) == Visit(first, j, shards)
  {
    Unfold(HALF, shards);
    hide Visit;
    if rest >= before {
      i, j := 0, rest;
      Residue(HALF - before, shards, HALF / shards, rest - before);
      AfterBorder(first, shards, before, rest - before);
    } else {
      i, j := before - rest, before;
      Residue(HALF - rest, shards, HALF / shards, 0);
      AfterBorder(first, shards, before, 0);
    }
    BeforeBorder(first, shards, i);
  }

  /** More than 2^31 shards: the low bits repeat within the window. */
  lemma TooMany(first: nat, shards: nat)
    requires shards > HALF
    ensures Visit(first, 0, shards) == Visit(first, HALF, shards)
  {
    Low31(first, shards);
    Low31(first + HALF, shards);
    hide At;
    Unfold(first, HALF);
    Residue(first + HALF, HALF, first / HALF + 1, first % HALF);
  }

  lemma StraddlingCollides(first: nat, shards: nat)
    requires shards > 0 && Straddles(first, shards) && HALF % shards != 0
    ensures !OnceEach(first, shards)
  {
    if shards > HALF {
      TooMany(first, shards);
    } else {
      Border(first, shards);
      hide Visit, Straddles;
      var i, j := Collision(first, shards, HALF - first % HALF, HALF % shards);
    }
  }

  /** The window that starts at tick number `first` is fair exactly in these cases. */
  lemma FairWindow(first: nat, shards: nat)
    requires shards > 0
    ensures OnceEach(first, shards) <==> !Straddles(first, shards) || HALF % shards == 0
    ensures OnceEach(first, shards) ==> VisitsAll(first, shards)
  {
    hide *;
    if !Straddles(first, shards) {
      InsideIsBalanced(first, shards);
    } else if HALF % shards == 0 {
      DivisorIsBalanced(first, shards);
    } else {
      StraddlingCollides(first, shards);
    }
  }

  // ---- for the counter

  lemma NextResidue(x: nat)
    ensures (x % WRAP + 1) % WRAP == (x + 1) % WRAP
  {
    Unfold(x, WRAP);
    if x % WRAP == WRAP - 1 {
      Residue(x + 1, WRAP, x / WRAP + 1, 0);
    } else {
      Residue(x + 1, WRAP, x / WRAP, x % WRAP + 1);
    }
  }

  /** The counter wraps around and otherwise counts the ticks. */
  lemma {:induction false} AfterTicks(round: Counter, n: nat)
    ensures After(round, n) == (round + n) % WRAP
  {
    if n > 0 {
      AfterTicks(round, n - 1);
      NextResidue(round + n - 1);
    }
  }

  /** The shard that the `i`-th tick from now on selects, when the counter is at `round`. */
  function Selected(round: Counter, i: nat, shards: nat): nat
    requires shards > 0
  {
    Shard(After(round, i + 1), shards)
  }

  /** The next `shards` ticks select no shard twice. */
  predicate SelectsOnce(round: Counter, shards: nat)
    requires shards > 0
  {
    forall i, j :: 0 <= i < j < shards ==> Selected(round, i, shards) != Selected(round, j, shards)
  }

  /** One of the next `shards` ticks selects this shard. */
  predicate Selects(round: Counter, shards: nat, shard: nat)
    requires shards > 0
  {
    exists i :: 0 <= i < shards && Selected(round, i, shards) == shard
  }

  lemma SelectedIsVisit(round: Counter, i: nat, shards: nat)
    requires shards > 0
    ensures Selected(round, i, shards) == Visit(round + 1, i, shards)
  {
    AfterTicks(round, i + 1);
  }

  lemma SelectsLikeVisits(round: Counter, first: nat, shards: nat)
    requires shards > 0 && first == round + 1
    ensures SelectsOnce(round, shards) <==> OnceEach(first, shards)
    ensures forall shard :: Selects(round, shards, shard) <==> Visited(first, shards, shard)
  {
    hide Selected, Visit;
    forall i | 0 <= i < shards
      ensures Selected(round, i, shards) == Visit(first, i, shards)
    {
      SelectedIsVisit(round, i, shards);
    }
  }

  /**
   Round robin, for the values that consecutive ticks of the counter return, across its wrap-around: the
   next `shards` ticks select no shard twice, and so every shard once, if and only if they do not cross a
   multiple of 2^31, or the shard count divides 2^31.
   */
  lemma RoundRobin(round: Counter, shards: nat)
    requires shards > 0
    ensures SelectsOnce(round, shards) <==> !Straddles(round + 1, shards) || HALF % shards == 0
    ensures SelectsOnce(round, shards) ==> forall shard :: 0 <= shard < shards ==> Selects(round, shards, shard)
  {
    hide SelectsOnce, Selects, OnceEach, Visited, Straddles;
    FairWindow(round + 1, shards);
    SelectsLikeVisits(round, round + 1, shards);
  }
}
