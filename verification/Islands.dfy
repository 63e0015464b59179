/** Removal of detached islands: clear every island much smaller than the largest one. */
module Islands {
  import opened Raster
  import opened Labelling

  /** Smallest island size that is kept beside a largest island of size b. */
  function KeepThreshold(b: nat): (r: nat) {
    b * 15 / 1000
  }

  ghost function IslandSize(w: nat, solid: seq<bool>, p: int): (r: nat)
    requires 0 < w
  {
    |Island(w, solid, p)|
  }

  /** b is the size of the largest island. */
  ghost predicate IsLargest(w: nat, solid: seq<bool>, b: nat)
    requires 0 < w
  {
    && (exists p :: 0 <= p < |solid| && solid[p] && IslandSize(w, solid, p) == b)
    && (forall p :: 0 <= p < |solid| && solid[p] ==> IslandSize(w, solid, p) <= b)
  }

  ghost predicate Dropped(w: nat, solid: seq<bool>, b: nat, p: int)
    requires 0 < w && 0 <= p < |solid|
  {
    solid[p] && IslandSize(w, solid, p) < KeepThreshold(b)
  }

  /** Pixel p of img' is pixel p of img, or fully transparent when it must be dropped. */
  ghost predicate PixelCleaned(img: seq<Byte>, img': seq<Byte>, p: int, drop: bool)
    requires 0 <= p && p * 4 + 4 <= |img| == |img'|
  {
    img'[p * 4..p * 4 + 4] == if drop then [0, 0, 0, 0] else img[p * 4..p * 4 + 4]
  }

  /** The clean-up, stated without labels: exactly the islands below the threshold are cleared. */
  ghost predicate IsCleaned(w: nat, n: nat, img: seq<Byte>, img': seq<Byte>) {
    && |img| == |img'| == n * 4
    && (0 < n ==> 0 < w)
    && var solid := Solid(n, img);
       if forall p :: 0 <= p < n ==> !solid[p] then img' == img
       else 0 < w && exists b: nat :: IsLargest(w, solid, b) && CleanedPrefix(w, n, solid, b, img, img', n)
  }

  /** The first i pixels are cleaned, the rest untouched. */
  ghost predicate CleanedPrefix(w: nat, n: nat, solid: seq<bool>, b: nat, img: seq<Byte>, img': seq<Byte>, i: nat)
    requires 0 < w && i <= n && |solid| == n
  {
    && |img| == |img'| == n * 4
    && (forall p :: 0 <= p < i ==> PixelCleaned(img, img', p, Dropped(w, solid, b, p)))
    && img'[i * 4..] == img[i * 4..]
  }

  // ---- labels measure islands ----

  lemma LabelMeasuresIsland(w: nat, solid: seq<bool>, labels: seq<int>, sizes: seq<nat>, p: int)
    requires IsLabelling(w, solid, labels, sizes) && 0 <= p < |solid| && solid[p]
    ensures 0 < w && 0 <= labels[p] < |sizes| && sizes[labels[p]] == IslandSize(w, solid, p)
  {
    forall q
      ensures q in Members(labels, labels[p]) <==> q in Island(w, solid, p)
    {
      if Joined(w, solid, p, q) { JoinedIsSolid(w, solid, p, q); }
    }
    assert Members(labels, labels[p]) == Island(w, solid, p);
  }

  lemma LabelMaxIsLargest(w: nat, solid: seq<bool>, labels: seq<int>, sizes: seq<nat>, b: nat)
    requires IsLabelling(w, solid, labels, sizes) && 0 < w
    requires b in sizes && forall i :: 0 <= i < |sizes| ==> sizes[i] <= b
    ensures IsLargest(w, solid, b)
  {
    var id :| 0 <= id < |sizes| && sizes[id] == b;
    var p :| p in Members(labels, id);
    LabelMeasuresIsland(w, solid, labels, sizes, p);
    forall q | 0 <= q < |solid| && solid[q]
      ensures IslandSize(w, solid, q) <= b
    {
      LabelMeasuresIsland(w, solid, labels, sizes, q);
    }
  }

  method MaxSize(sizes: seq<nat>) returns (b: nat)
    requires sizes != []
    ensures b in sizes && forall i :: 0 <= i < |sizes| ==> sizes[i] <= b
  {
    b := sizes[0];
    for k := 1 to |sizes|
      invariant b in sizes && forall i :: 0 <= i < k ==> sizes[i] <= b
    {
      if sizes[k] > b { b := sizes[k]; }
    }
  }

  /** Clear the islands below the threshold, given any correct labelling. */
  method DropSmallIslands(w: nat, n: nat, out: array<Byte>, labels: seq<int>, sizes: seq<nat>)
    requires out.Length == n * 4 && IsLabelling(w, Solid(n, out[..]), labels, sizes)
    modifies out
    ensures IsCleaned(w, n, old(out[..]), out[..])
  {
    ghost var img := out[..];
    ghost var solid := Solid(n, img);
    if sizes == [] {
      return;
    }
    var biggest := MaxSize(sizes);
    var keep := KeepThreshold(biggest);
    ghost var member: int :| member in Members(labels, 0);
    LabelMaxIsLargest(w, solid, labels, sizes, biggest);
    for i := 0 to n
      invariant CleanedPrefix(w, n, solid, biggest, img, out[..], i)
    {
      var l := labels[i];
      if l >= 0 {
        LabelMeasuresIsland(w, solid, labels, sizes, i);
      }
      ghost var was := out[..];
      if l >= 0 && sizes[l] < keep {
        ClearPixel(out, i);
      }
      CleanedPrefixGrows(w, n, solid, biggest, img, was, out[..], i, l >= 0 && sizes[l] < keep);
    }
  }

  method ClearPixel(out: array<Byte>, i: nat)
    requires i * 4 + 4 <= out.Length
    modifies out
    ensures out[..] == old(out[..i * 4]) + [0, 0, 0, 0] + old(out[i * 4 + 4..])
  {
    out[i * 4], out[i * 4 + 1], out[i * 4 + 2], out[i * 4 + 3] := 0, 0, 0, 0;
  }

  lemma CleanedPrefixGrows(w: nat, n: nat, solid: seq<bool>, b: nat, img: seq<Byte>, was: seq<Byte>, now: seq<Byte>,
                           i: nat, drop: bool)
    requires 0 < w && i < n && |solid| == n && CleanedPrefix(w, n, solid, b, img, was, i)
    requires drop == Dropped(w, solid, b, i)
    requires now == if drop then was[..i * 4] + [0, 0, 0, 0] + was[i * 4 + 4..] else was
    ensures CleanedPrefix(w, n, solid, b, img, now, i + 1)
  {
  }

  /** Label, then clear: the whole clean-up pass. */
  method RemoveDetachedIslands(w: nat, h: nat, out: array<Byte>)
    requires out.Length == w * h * 4
    modifies out
    ensures IsCleaned(w, w * h, old(out[..]), out[..])
  {
    var labels, sizes := LabelComponents(w, h, out);
    DropSmallIslands(w, w * h, out, labels, sizes);
  }

  // ---- what the clean-up means ----

  lemma JoinedShareIsland(w: nat, solid: seq<bool>, p: int, q: int)
    requires 0 < w && Joined(w, solid, p, q)
    ensures Island(w, solid, p) == Island(w, solid, q)
  {
    JoinedSymmetric(w, solid, p, q);
    forall r
      ensures r in Island(w, solid, p) <==> r in Island(w, solid, q)
    {
      if r in Island(w, solid, p) { JoinedTransitive(w, solid, q, p, r); }
      if r in Island(w, solid, q) { JoinedTransitive(w, solid, p, q, r); }
    }
  }

  lemma LargestIsUnique(w: nat, solid: seq<bool>, b: nat, b': nat)
    requires 0 < w && IsLargest(w, solid, b) && IsLargest(w, solid, b')
    ensures b == b'
  {
  }

  /** An island goes or stays as a whole, and the largest one always stays. */
  lemma IslandsGoWhole(w: nat, n: nat, img: seq<Byte>, img': seq<Byte>, p: int, q: int)
    requires IsCleaned(w, n, img, img') && 0 <= p < n && 0 <= q < n
    requires Joined(w, Solid(n, img), p, q)
    ensures Solid(n, img')[p] <==> Solid(n, img')[q]
    ensures IsLargest(w, Solid(n, img), IslandSize(w, Solid(n, img), p)) ==> Solid(n, img')[p]
    ensures Solid(n, img')[p] ==> img'[p * 4..p * 4 + 4] == img[p * 4..p * 4 + 4]
  {
    var solid := Solid(n, img);
    JoinedShareIsland(w, solid, p, q);
    JoinedIsSolid(w, solid, p, q);
    var b := CleanedThreshold(w, n, img, img', p);
  }

  /** The largest-island size behind a clean-up, and which solid pixels it left. */
  lemma CleanedThreshold(w: nat, n: nat, img: seq<Byte>, img': seq<Byte>, p: int) returns (b: nat)
    requires IsCleaned(w, n, img, img') && 0 <= p < n && Solid(n, img)[p]
    ensures 0 < w && IsLargest(w, Solid(n, img), b)
    ensures forall q :: 0 <= q < n ==> PixelCleaned(img, img', q, Dropped(w, Solid(n, img), b, q))
    ensures forall q :: 0 <= q < n ==> Solid(n, img')[q] == (Solid(n, img)[q] && !Dropped(w, Solid(n, img), b, q))
  {
    var solid := Solid(n, img);
    b :| IsLargest(w, solid, b) && CleanedPrefix(w, n, solid, b, img, img', n);
    forall q | 0 <= q < n
      ensures Solid(n, img')[q] == (solid[q] && !Dropped(w, solid, b, q))
    {
      assert PixelCleaned(img, img', q, Dropped(w, solid, b, q));
      assert img'[q * 4 + 3] == img'[q * 4..q * 4 + 4][3];
      assert img[q * 4 + 3] == img[q * 4..q * 4 + 4][3];
    }
  }

  /** Surviving islands keep their exact shape. */
  lemma SurvivorKeepsShape(w: nat, solid: seq<bool>, solid': seq<bool>, b: nat, p: int)
    requires 0 < w && |solid| == |solid'| && 0 <= p < |solid| && solid'[p]
    requires forall q :: 0 <= q < |solid| ==> solid'[q] == (solid[q] && !Dropped(w, solid, b, q))
    ensures Island(w, solid', p) == Island(w, solid, p)
  {
    forall q | 0 <= q < |solid| && Joined(w, solid, p, q)
      ensures solid'[q] && Joined(w, solid', p, q)
    {
      SurvivorsReached(w, solid, solid', b, p);
      JoinedKept(w, solid, solid', p, q);
      JoinedIsSolid(w, solid', p, q);
    }
    forall q | 0 <= q < |solid| && Joined(w, solid', p, q)
      ensures Joined(w, solid, p, q)
    {
      var path :| ChainFrom(w, solid', path, p, q);
      assert ChainFrom(w, solid, path, p, q);
    }
  }

  lemma SurvivorsReached(w: nat, solid: seq<bool>, solid': seq<bool>, b: nat, p: int)
    requires 0 < w && |solid| == |solid'| && 0 <= p < |solid| && solid'[p]
    requires forall q :: 0 <= q < |solid| ==> solid'[q] == (solid[q] && !Dropped(w, solid, b, q))
    ensures forall r :: 0 <= r < |solid| && Joined(w, solid, p, r) ==> solid'[r]
  {
    forall r | 0 <= r < |solid| && Joined(w, solid, p, r)
      ensures solid'[r]
    {
      JoinedIsSolid(w, solid, p, r);
      JoinedShareIsland(w, solid, p, r);
    }
  }

  lemma LargestSurvives(w: nat, solid: seq<bool>, solid': seq<bool>, b: nat)
    requires 0 < w && |solid| == |solid'| && IsLargest(w, solid, b)
    requires forall q :: 0 <= q < |solid| ==> solid'[q] == (solid[q] && !Dropped(w, solid, b, q))
    ensures IsLargest(w, solid', b)
  {
    var top :| 0 <= top < |solid| && solid[top] && IslandSize(w, solid, top) == b;
    assert solid'[top];
    SurvivorKeepsShape(w, solid, solid', b, top);
    forall p | 0 <= p < |solid'| && solid'[p]
      ensures IslandSize(w, solid', p) <= b
    {
      SurvivorKeepsShape(w, solid, solid', b, p);
    }
  }

  /** Cleaning a cleaned image changes nothing. */
  lemma CleanupIdempotent(w: nat, n: nat, img: seq<Byte>, img': seq<Byte>, img'': seq<Byte>)
    requires IsCleaned(w, n, img, img') && IsCleaned(w, n, img', img'')
    ensures img'' == img'
  {
    var solid, solid' := Solid(n, img), Solid(n, img');
    if p :| 0 <= p < n && solid'[p] {
      SolidWasSolid(w, n, img, img', p);
      var b := CleanedThreshold(w, n, img, img', p);
      LargestSurvives(w, solid, solid', b);
      var b' := CleanedThreshold(w, n, img', img'', p);
      LargestIsUnique(w, solid', b, b');
      forall q | 0 <= q < n
        ensures img''[q * 4..q * 4 + 4] == img'[q * 4..q * 4 + 4]
      {
        assert PixelCleaned(img', img'', q, Dropped(w, solid', b, q));
        if solid'[q] {
          SurvivorKeepsShape(w, solid, solid', b, q);
        }
      }
      SamePixelsSameImage(n, img', img'');
    }
  }

  lemma SolidWasSolid(w: nat, n: nat, img: seq<Byte>, img': seq<Byte>, p: int)
    requires IsCleaned(w, n, img, img') && 0 <= p < n && Solid(n, img')[p]
    ensures Solid(n, img)[p]
  {
    if q :| 0 <= q < n && Solid(n, img)[q] {
      var b := CleanedThreshold(w, n, img, img', q);
    }
  }

  lemma SamePixelsSameImage(n: nat, img: seq<Byte>, img': seq<Byte>)
    requires |img| == |img'| == n * 4
    requires forall q :: 0 <= q < n ==> img'[q * 4..q * 4 + 4] == img[q * 4..q * 4 + 4]
    ensures img == img'
  {
    forall k | 0 <= k < n * 4
      ensures img[k] == img'[k]
    {
      var q, c := k / 4, k % 4;
      assert img[q * 4..q * 4 + 4][c] == img'[q * 4..q * 4 + 4][c];
    }
  }

  // ---- the documented 1.5% against the truncated threshold ----

  /** An island strictly under 1.5% of the largest. */
  predicate UnderOneAndAHalfPercent(size: nat, b: nat) {
    1000 * size < 15 * b
  }

  /** The truncation spares exactly the islands whose size is the truncated threshold itself. */
  lemma ThresholdAgainstDocumentation(size: nat, b: nat)
    ensures size < KeepThreshold(b) <==> UnderOneAndAHalfPercent(size, b) && size != KeepThreshold(b)
  {
  }

  /** Clearing matches the documented 1.5% for every island size exactly when the largest island's
      size is a multiple of 200. */
  lemma DocumentedThresholdExactly(b: nat)
    ensures (forall size: nat :: size < KeepThreshold(b) <==> UnderOneAndAHalfPercent(size, b)) <==> b % 200 == 0
  {
    var k := KeepThreshold(b);
    forall size: nat
      ensures size < KeepThreshold(b) <==> UnderOneAndAHalfPercent(size, b) && size != k
    {
      ThresholdAgainstDocumentation(size, b);
    }
    assert 1000 * k <= 15 * b < 1000 * k + 1000;
    assert UnderOneAndAHalfPercent(k, b) <==> 15 * b != 1000 * k;
    assert 15 * b == 1000 * k <==> b % 200 == 0;
  }
}
