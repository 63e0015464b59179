/** Pixel geometry of a row-major W x H image and 8-neighbour connectivity of its solid pixels. */
module Raster {

  type Byte = x: int | 0 <= x < 256

  lemma MulMonotone(a: int, b: int, c: int)
    requires a <= b && 0 <= c
    ensures a * c <= b * c
  {
  }

  /** A non-zero multiple of d is at least d away from 0. */
  lemma MultipleOutOfRange(k: int, d: int)
    requires 0 < d && -d < k * d < d
    ensures k == 0
  {
  }

  lemma DivModUnique(p: int, d: int, q: int, r: int)
    requires 0 < d && 0 <= r < d && p == q * d + r
    ensures p / d == q && p % d == r
  {
    var q', r' := p / d, p % d;
    assert p == q' * d + r';
    assert (q - q') * d == q * d - q' * d;
    MultipleOutOfRange(q - q', d);
  }

  /** The pixel at column x of row y lies inside the buffer, and its index determines x and y. */
  lemma Coordinates(w: nat, h: nat, x: int, y: int)
    requires 0 <= x < w && 0 <= y < h
    ensures 0 <= y * w + x < w * h
    ensures (y * w + x) / w == y && (y * w + x) % w == x
  {
    MulMonotone(0, y, w);
    MulMonotone(y + 1, h, w);
    assert (y + 1) * w == y * w + w;
    DivModUnique(y * w + x, w, y, x);
  }

  /** Every index of the buffer has in-range coordinates that rebuild it. */
  lemma InBounds(w: nat, h: nat, p: int)
    requires 0 <= p < w * h
    ensures 0 < w
    ensures 0 <= p % w < w && 0 <= p / w < h && p == (p / w) * w + p % w
  {
  }

  /** p and q are distinct pixels that touch along an edge or at a corner. */
  predicate Adjacent(w: nat, p: int, q: int)
    requires 0 < w
  {
    p != q && -1 <= p % w - q % w <= 1 && -1 <= p / w - q / w <= 1
  }

  /** A walk over solid pixels, each adjacent to the one before. */
  ghost predicate IsChain(w: nat, solid: seq<bool>, path: seq<int>)
    requires 0 < w
  {
    && 0 < |path|
    && (forall i :: 0 <= i < |path| ==> 0 <= path[i] < |solid| && solid[path[i]])
    && (forall i :: 0 < i < |path| ==> Adjacent(w, path[i - 1], path[i]))
  }

  ghost predicate ChainFrom(w: nat, solid: seq<bool>, path: seq<int>, p: int, q: int)
    requires 0 < w
  {
    IsChain(w, solid, path) && path[0] == p && path[|path| - 1] == q
  }

  /** p and q lie on the same island: some chain of solid pixels joins them. */
  ghost predicate Joined(w: nat, solid: seq<bool>, p: int, q: int)
    requires 0 < w
  {
    exists path: seq<int> :: ChainFrom(w, solid, path, p, q)
  }

  lemma JoinedSelf(w: nat, solid: seq<bool>, p: int)
    requires 0 < w && 0 <= p < |solid| && solid[p]
    ensures Joined(w, solid, p, p)
  {
    assert ChainFrom(w, solid, [p], p, p);
  }

  lemma JoinedIsSolid(w: nat, solid: seq<bool>, p: int, q: int)
    requires 0 < w && Joined(w, solid, p, q)
    ensures 0 <= p < |solid| && solid[p] && 0 <= q < |solid| && solid[q]
  {
  }

  lemma JoinedStep(w: nat, solid: seq<bool>, p: int, q: int, r: int)
    requires 0 < w && Joined(w, solid, p, q)
    requires 0 <= r < |solid| && solid[r] && Adjacent(w, q, r)
    ensures Joined(w, solid, p, r)
  {
    var path :| ChainFrom(w, solid, path, p, q);
    assert ChainFrom(w, solid, path + [r], p, r);
  }

  lemma {:induction false} JoinedTransitive(w: nat, solid: seq<bool>, p: int, q: int, r: int)
    requires 0 < w && Joined(w, solid, p, q) && Joined(w, solid, q, r)
    ensures Joined(w, solid, p, r)
  {
    var path :| ChainFrom(w, solid, path, q, r);
    for i := 1 to |path|
      invariant Joined(w, solid, p, path[i - 1])
    {
      JoinedStep(w, solid, p, path[i - 1], path[i]);
    }
  }

  lemma JoinedSymmetric(w: nat, solid: seq<bool>, p: int, q: int)
    requires 0 < w && Joined(w, solid, p, q)
    ensures Joined(w, solid, q, p)
  {
    var path :| ChainFrom(w, solid, path, p, q);
    JoinedSelf(w, solid, q);
    var i := |path| - 1;
    while 0 < i
      invariant 0 <= i < |path| && Joined(w, solid, q, path[i])
    {
      JoinedStep(w, solid, q, path[i], path[i - 1]);
      i := i - 1;
    }
  }

  /** A property that no solid adjacency can leave holds along a whole island. */
  lemma IslandClosed(w: nat, solid: seq<bool>, p: int, q: int, inside: int -> bool)
    requires 0 < w && Joined(w, solid, p, q) && inside(p)
    requires forall a, b ::
               0 <= a < |solid| && 0 <= b < |solid| && inside(a) && solid[b] && Adjacent(w, a, b) ==> inside(b)
    ensures inside(q)
  {
    var path :| ChainFrom(w, solid, path, p, q);
    for i := 1 to |path|
      invariant inside(path[i - 1])
    {
      assert Adjacent(w, path[i - 1], path[i]);
    }
  }

  /** The island of p as a set of pixels. */
  ghost function Island(w: nat, solid: seq<bool>, p: int): (r: set<int>)
    requires 0 < w
  {
    set q | 0 <= q < |solid| && Joined(w, solid, p, q)
  }

  /** Chains survive when the pixels on them stay solid. */
  lemma JoinedKept(w: nat, solid: seq<bool>, solid': seq<bool>, p: int, q: int)
    requires 0 < w && |solid| == |solid'| && Joined(w, solid, p, q)
    requires forall r :: 0 <= r < |solid| && Joined(w, solid, p, r) ==> solid'[r]
    ensures Joined(w, solid', p, q)
  {
    var path :| ChainFrom(w, solid, path, p, q);
    JoinedSelf(w, solid, p);
    JoinedSelf(w, solid', p);
    for i := 1 to |path|
      invariant Joined(w, solid, p, path[i - 1]) && Joined(w, solid', p, path[i - 1])
    {
      JoinedStep(w, solid, p, path[i - 1], path[i]);
      JoinedStep(w, solid', p, path[i - 1], path[i]);
    }
  }
}
