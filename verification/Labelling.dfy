/** Connected-component labelling of the solid pixels by an explicit-stack flood fill. */
module Labelling {
  import opened Raster

  const SOLID_ALPHA := 40

  const OFFSETS: seq<(int, int)> :=
    [(-1, 0), (1, 0), (0, -1), (0, 1), (-1, -1), (1, -1), (-1, 1), (1, 1)]

  /** Which pixels of an RGBA buffer count as solid. */
  function Solid(n: nat, img: seq<Byte>): (r: seq<bool>)
    requires |img| == n * 4
    ensures |r| == n && forall p :: 0 <= p < n ==> r[p] == (img[p * 4 + 3] > SOLID_ALPHA)
  {
    seq(n, p requires 0 <= p < n => img[p * 4 + 3] > SOLID_ALPHA)
  }

  ghost function Members(marks: seq<int>, id: int): (r: set<int>)
  {
    set p | 0 <= p < |marks| && marks[p] == id
  }

  /** The result the labelling promises: exactly the solid pixels are labelled, two of them share a
      label exactly when a chain of solid neighbours joins them, and sizes counts each island. */
  ghost predicate IsLabelling(w: nat, solid: seq<bool>, marks: seq<int>, sizes: seq<nat>) {
    && |marks| == |solid|
    && (0 < |solid| ==> 0 < w)
    && (forall p :: 0 <= p < |marks| ==> -1 <= marks[p] < |sizes| && (marks[p] == -1 <==> !solid[p]))
    && (forall p, q :: 0 <= p < |marks| && 0 <= q < |marks| && solid[p] && solid[q] ==>
          (marks[p] == marks[q] <==> Joined(w, solid, p, q)))
    && (forall id :: 0 <= id < |sizes| ==> sizes[id] == |Members(marks, id)| && 0 < sizes[id])
  }

  /** No solid neighbour of a labelled pixel carries another mark. */
  ghost predicate Closed(w: nat, solid: seq<bool>, marks: seq<int>)
    requires 0 < w && |marks| == |solid|
  {
    forall p, q :: 0 <= p < |marks| && 0 <= q < |marks| && marks[p] != -1 && solid[q] && Adjacent(w, p, q)
      ==> marks[q] == marks[p]
  }

  ghost predicate Partial(w: nat, solid: seq<bool>, marks: seq<int>, ids: nat)
  {
    && 0 < w && |marks| == |solid|
    && (forall p :: 0 <= p < |marks| ==> -1 <= marks[p] < ids && (!solid[p] ==> marks[p] == -1))
    && Closed(w, solid, marks)
  }

  /** What one flood adds: the island of start, and nothing else, gets the new mark. */
  ghost predicate Flooded(w: nat, solid: seq<bool>, before: seq<int>, after: seq<int>, start: int, id: int)
    requires 0 < w && |before| == |after|
  {
    forall p :: 0 <= p < |before| ==>
      after[p] == if Joined(w, solid, start, p) then id else before[p]
  }

  /** The fixed context of one flood. */
  datatype Fill = Fill(w: nat, solid: seq<bool>, before: seq<int>, start: int, id: nat)

  /** Everything newly marked so far is solid and joined to the start; nothing else changed. */
  ghost predicate Sound(f: Fill, marks: seq<int>) {
    && 0 < f.w && |marks| == |f.before| == |f.solid|
    && 0 <= f.start < |marks| && marks[f.start] == f.id
    && forall p :: 0 <= p < |marks| ==>
         || (marks[p] == f.before[p] != f.id)
         || (f.before[p] == -1 && marks[p] == f.id && f.solid[p] && Joined(f.w, f.solid, f.start, p))
  }

  /** The pixels marked so far are the popped ones and, once each, the stacked ones. */
  ghost predicate Accounted(f: Fill, marks: seq<int>, stack: seq<int>, popped: set<int>) {
    && (forall i :: 0 <= i < |stack| ==> 0 <= stack[i] < |marks| && marks[stack[i]] == f.id && stack[i] !in popped)
    && (forall i, j :: 0 <= i < j < |stack| ==> stack[i] != stack[j])
    && (forall p :: p in popped ==> 0 <= p < |marks| && marks[p] == f.id)
    && (forall p :: 0 <= p < |marks| && marks[p] == f.id ==> p in popped || p in stack)
  }

  ghost predicate NeighboursMarked(f: Fill, marks: seq<int>, p: int)
    requires 0 < f.w && |marks| == |f.solid|
  {
    forall q :: 0 <= q < |marks| && f.solid[q] && Adjacent(f.w, p, q) ==> marks[q] != -1
  }

  /** Popped pixels, except possibly those still open, have passed the mark to their neighbours. */
  ghost predicate Frontier(f: Fill, marks: seq<int>, stack: seq<int>, popped: set<int>, open: set<int>) {
    && Sound(f, marks) && Accounted(f, marks, stack, popped)
    && forall p :: p in popped && p !in open ==> NeighboursMarked(f, marks, p)
  }

  /** Pixel q lies one step from p in direction k. */
  ghost predicate InDirection(w: nat, p: int, k: int, q: int)
    requires 0 < w && 0 <= k < |OFFSETS|
  {
    OFFSETS[k] == (q % w - p % w, q / w - p / w)
  }

  lemma OffsetsAreNeighbours(w: nat, p: int, q: int)
    requires 0 < w && Adjacent(w, p, q)
    ensures exists k :: 0 <= k < |OFFSETS| && InDirection(w, p, k, q)
  {
    var dx, dy := q % w - p % w, q / w - p / w;
    assert p == (p / w) * w + p % w && q == (q / w) * w + q % w;
    assert dx != 0 || dy != 0;
    var k := OffsetIndex(dx, dy);
    assert InDirection(w, p, k, q);
  }

  function OffsetIndex(dx: int, dy: int): (k: int)
    requires -1 <= dx <= 1 && -1 <= dy <= 1 && (dx, dy) != (0, 0)
    ensures 0 <= k < |OFFSETS| && OFFSETS[k] == (dx, dy)
  {
    if dy == 0 then (if dx == -1 then 0 else 1)
    else if dx == 0 then (if dy == -1 then 2 else 3)
    else if dy == -1 then (if dx == -1 then 4 else 5)
    else (if dx == -1 then 6 else 7)
  }

  lemma OffsetsAreSmall(k: int)
    requires 0 <= k < |OFFSETS|
    ensures -1 <= OFFSETS[k].0 <= 1 && -1 <= OFFSETS[k].1 <= 1 && OFFSETS[k] != (0, 0)
  {
  }

  lemma PopKeepsFrontier(f: Fill, marks: seq<int>, stack: seq<int>, popped: set<int>)
    requires Frontier(f, marks, stack, popped, {}) && stack != []
    ensures var p := stack[|stack| - 1];
            && Frontier(f, marks, stack[..|stack| - 1], popped + {p}, {p})
            && |popped + {p}| == |popped| + 1
  {
  }

  lemma PushKeepsFrontier(f: Fill, marks: seq<int>, stack: seq<int>, popped: set<int>, p: int, q: int)
    requires Frontier(f, marks, stack, popped, {p}) && p in popped
    requires 0 <= q < |marks| && f.solid[q] && marks[q] == -1 && Adjacent(f.w, p, q)
    ensures Frontier(f, marks[q := f.id], stack + [q], popped, {p})
    ensures Unlabelled(marks[q := f.id]) < Unlabelled(marks)
  {
    JoinedStep(f.w, f.solid, f.start, p, q);
    assert Members(marks, -1) == Members(marks[q := f.id], -1) + {q};
  }

  ghost function Unlabelled(marks: seq<int>): (r: nat) {
    |Members(marks, -1)|
  }

  /** When nothing is stacked or open, the flood has reached the whole island of its start. */
  lemma FloodDone(f: Fill, marks: seq<int>, popped: set<int>)
    requires Partial(f.w, f.solid, f.before, f.id)
    requires Frontier(f, marks, [], popped, {}) && f.before[f.start] == -1
    ensures Flooded(f.w, f.solid, f.before, marks, f.start, f.id)
    ensures Partial(f.w, f.solid, marks, f.id + 1)
    ensures Members(marks, f.id) == popped
  {
    forall p, q | 0 <= p < |marks| && 0 <= q < |marks| && marks[p] == f.id && f.solid[q] && Adjacent(f.w, p, q)
      ensures marks[q] == f.id
    {
      assert NeighboursMarked(f, marks, p);
      if marks[q] != f.id {
        assert f.before[q] != -1 && Adjacent(f.w, q, p);
      }
    }
    forall p | 0 <= p < |marks| && Joined(f.w, f.solid, f.start, p)
      ensures marks[p] == f.id
    {
      IslandClosed(f.w, f.solid, f.start, p, r => 0 <= r < |marks| && marks[r] == f.id);
    }
    forall p, q | 0 <= p < |marks| && 0 <= q < |marks| && marks[p] != -1 && f.solid[q] && Adjacent(f.w, p, q)
      ensures marks[q] == marks[p]
    {
      if marks[p] != f.id {
        assert f.before[q] == f.before[p];
      }
    }
  }

  /** Solid neighbours of p in direction k are marked. */
  ghost predicate DirectionDone(f: Fill, marks: seq<int>, p: int, k: int)
    requires 0 < f.w && |marks| == |f.solid| && 0 <= k < |OFFSETS|
  {
    forall q :: 0 <= q < |marks| && f.solid[q] && InDirection(f.w, p, k, q)
      ==> marks[q] != -1
  }

  lemma AllDirectionsDone(f: Fill, marks: seq<int>, p: int)
    requires 0 < f.w && |marks| == |f.solid|
    requires forall k :: 0 <= k < |OFFSETS| ==> DirectionDone(f, marks, p, k)
    ensures NeighboursMarked(f, marks, p)
  {
    forall q | 0 <= q < |marks| && f.solid[q] && Adjacent(f.w, p, q)
      ensures marks[q] != -1
    {
      OffsetsAreNeighbours(f.w, p, q);
      var k :| 0 <= k < |OFFSETS| && InDirection(f.w, p, k, q);
      assert DirectionDone(f, marks, p, k);
    }
  }

  /** The pixel in direction k from p, or -1 when that lies outside the image. */
  method Neighbour(w: nat, h: nat, p: nat, k: nat) returns (q: int)
    requires p < w * h && k < |OFFSETS|
    ensures 0 < w
    ensures q == -1 || (0 <= q < w * h && Adjacent(w, p, q))
    ensures forall r :: 0 <= r < w * h && InDirection(w, p, k, r) ==> q == r
  {
    InBounds(w, h, p);
    OffsetsAreSmall(k);
    var nx, ny := p % w + OFFSETS[k].0, p / w + OFFSETS[k].1;
    forall r | 0 <= r < w * h && InDirection(w, p, k, r)
      ensures 0 <= nx < w && 0 <= ny < h && r == ny * w + nx
    {
      InBounds(w, h, r);
    }
    if 0 <= nx < w && 0 <= ny < h {
      Coordinates(w, h, nx, ny);
      q := ny * w + nx;
    } else {
      q := -1;
    }
  }

  /** The loop state while the neighbours of p are visited, before direction k. */
  ghost predicate Visiting(f: Fill, marks: seq<int>, stack: seq<int>, popped: set<int>, p: int, k: int) {
    && 0 <= k <= |OFFSETS| && p in popped && Frontier(f, marks, stack, popped, {p})
    && forall j :: 0 <= j < k ==> DirectionDone(f, marks, p, j)
  }

  lemma DirectionsKept(f: Fill, marks: seq<int>, marks': seq<int>, p: int, q: int, k: int)
    requires 0 < f.w && |marks| == |f.solid| && 0 <= q < |marks| && 0 <= k < |OFFSETS|
    requires forall j :: 0 <= j < k ==> DirectionDone(f, marks, p, j)
    requires forall r :: 0 <= r < |marks| && InDirection(f.w, p, k, r) ==> q == r
    requires marks' == marks[q := f.id]
    ensures forall j :: 0 <= j <= k ==> DirectionDone(f, marks', p, j)
  {
    forall j | 0 <= j <= k
      ensures DirectionDone(f, marks', p, j)
    {
      if j < k {
        assert DirectionDone(f, marks, p, j);
      }
    }
  }

  lemma VisitMarks(f: Fill, marks: seq<int>, stack: seq<int>, popped: set<int>, p: int, k: int, q: int)
    requires Visiting(f, marks, stack, popped, p, k) && k < |OFFSETS|
    requires 0 <= q < |marks| && f.solid[q] && marks[q] == -1 && Adjacent(f.w, p, q)
    requires forall r :: 0 <= r < |marks| && InDirection(f.w, p, k, r) ==> q == r
    ensures Visiting(f, marks[q := f.id], stack + [q], popped, p, k + 1)
    ensures Unlabelled(marks[q := f.id]) < Unlabelled(marks)
  {
    PushKeepsFrontier(f, marks, stack, popped, p, q);
    DirectionsKept(f, marks, marks[q := f.id], p, q, k);
  }

  lemma VisitStep(f: Fill, marks: seq<int>, stack: seq<int>, popped: set<int>, p: int, k: int, q: int, take: bool)
    requires Visiting(f, marks, stack, popped, p, k) && k < |OFFSETS|
    requires q == -1 || (0 <= q < |marks| && Adjacent(f.w, p, q))
    requires forall r :: 0 <= r < |marks| && InDirection(f.w, p, k, r) ==> q == r
    requires take <==> q != -1 && f.solid[q] && marks[q] == -1
    ensures !take ==> Visiting(f, marks, stack, popped, p, k + 1)
    ensures take ==> Visiting(f, marks[q := f.id], stack + [q], popped, p, k + 1)
    ensures take ==> Unlabelled(marks[q := f.id]) < Unlabelled(marks)
  {
    if take {
      VisitMarks(f, marks, stack, popped, p, k, q);
    } else {
      assert DirectionDone(f, marks, p, k);
    }
  }

  /** Mark the neighbour of p in direction k, if it is solid and unmarked. */
  method TryMark(w: nat, h: nat, out: array<Byte>, marks: array<int>, p: nat, k: nat, id: nat)
    returns (q: int, take: bool)
    requires out.Length == w * h * 4 && marks.Length == w * h && p < w * h && k < |OFFSETS|
    modifies marks
    ensures 0 < w && (q == -1 || (0 <= q < w * h && Adjacent(w, p, q)))
    ensures forall r :: 0 <= r < w * h && InDirection(w, p, k, r) ==> q == r
    ensures take <==> q != -1 && out[q * 4 + 3] > SOLID_ALPHA && old(marks[q]) == -1
    ensures marks[..] == if take then old(marks[..])[q := id] else old(marks[..])
  {
    q := Neighbour(w, h, p, k);
    take := q != -1 && out[q * 4 + 3] > SOLID_ALPHA && marks[q] == -1;
    if take {
      marks[q] := id;
    }
  }

  /** Mark and stack the solid unmarked neighbours of the popped pixel p. */
  method Spread(w: nat, h: nat, out: array<Byte>, marks: array<int>, p: nat, id: nat, stack: seq<int>,
                ghost f: Fill, ghost popped: set<int>)
    returns (stack': seq<int>)
    requires out.Length == w * h * 4 && marks.Length == w * h && p < w * h
    requires f.w == w && f.id == id && f.solid == Solid(w * h, out[..])
    requires p in popped && Frontier(f, marks[..], stack, popped, {p})
    modifies marks
    ensures Frontier(f, marks[..], stack', popped, {})
    ensures (stack' == stack && marks[..] == old(marks[..])) || Unlabelled(marks[..]) < Unlabelled(old(marks[..]))
  {
    stack' := stack;
    for k := 0 to |OFFSETS|
      invariant Visiting(f, marks[..], stack', popped, p, k)
      invariant (stack' == stack && marks[..] == old(marks[..])) || Unlabelled(marks[..]) < Unlabelled(old(marks[..]))
    {
      stack' := Visit(w, h, out, marks, p, k, id, stack', f, popped);
    }
    AllDirectionsDone(f, marks[..], p);
  }

  /** Mark and stack the neighbour of p in direction k, if it is solid and unmarked. */
  method Visit(w: nat, h: nat, out: array<Byte>, marks: array<int>, p: nat, k: nat, id: nat, stack: seq<int>,
               ghost f: Fill, ghost popped: set<int>)
    returns (stack': seq<int>)
    requires out.Length == w * h * 4 && marks.Length == w * h && p < w * h && k < |OFFSETS|
    requires f.w == w && f.id == id && f.solid == Solid(w * h, out[..])
    requires Visiting(f, marks[..], stack, popped, p, k)
    modifies marks
    ensures Visiting(f, marks[..], stack', popped, p, k + 1)
    ensures (stack' == stack && marks[..] == old(marks[..])) || Unlabelled(marks[..]) < Unlabelled(old(marks[..]))
  {
    hide *;
    ghost var was := marks[..];
    var q, take := TryMark(w, h, out, marks, p, k, id);
    assert q != -1 ==> f.solid[q] == (out[q * 4 + 3] > SOLID_ALPHA);
    VisitStep(f, was, stack, popped, p, k, q, take);
    stack' := if take then stack + [q] else stack;
  }

  /** Mark the island of `start`, returning its size. */
  method Flood(w: nat, h: nat, out: array<Byte>, marks: array<int>, start: nat, id: nat) returns (count: nat)
    requires out.Length == w * h * 4 && marks.Length == w * h && start < w * h
    requires Partial(w, Solid(w * h, out[..]), marks[..], id)
    requires marks[start] == -1 && out[start * 4 + 3] > SOLID_ALPHA
    modifies marks
    ensures 0 < w && Flooded(w, Solid(w * h, out[..]), old(marks[..]), marks[..], start, id)
    ensures Partial(w, Solid(w * h, out[..]), marks[..], id + 1)
    ensures count == |Members(marks[..], id)|
  {
    ghost var f := Fill(w, Solid(w * h, out[..]), marks[..], start, id);
    var stack := [start];
    marks[start] := id;
    count := 0;
    ghost var popped: set<int> := {};
    JoinedSelf(w, f.solid, start);
    while stack != []
      invariant Frontier(f, marks[..], stack, popped, {})
      invariant count == |popped|
      decreases Unlabelled(marks[..]), |stack|
    {
      PopKeepsFrontier(f, marks[..], stack, popped);
      var p := stack[|stack| - 1];
      stack := stack[..|stack| - 1];
      count := count + 1;
      popped := popped + {p};
      stack := Spread(w, h, out, marks, p, id, stack, f, popped);
    }
    FloodDone(f, marks[..], popped);
  }

  /** Marked pixels share a mark exactly when they share an island. */
  ghost predicate SameMarkIffJoined(w: nat, solid: seq<bool>, marks: seq<int>)
    requires 0 < w && |marks| == |solid|
  {
    forall p, q :: 0 <= p < |marks| && 0 <= q < |marks| && marks[p] != -1 && marks[q] != -1 ==>
      (marks[p] == marks[q] <==> Joined(w, solid, p, q))
  }

  ghost predicate Sized(marks: seq<int>, sizes: seq<nat>) {
    forall id :: 0 <= id < |sizes| ==> sizes[id] == |Members(marks, id)| && 0 < sizes[id]
  }

  /** A flood from an unmarked pixel never meets a marked one. */
  lemma FloodAvoidsMarked(w: nat, solid: seq<bool>, marks: seq<int>, ids: nat, start: int, p: int)
    requires Partial(w, solid, marks, ids)
    requires 0 <= start < |marks| && marks[start] == -1 && 0 <= p < |marks| && marks[p] != -1
    ensures !Joined(w, solid, start, p)
  {
    if Joined(w, solid, start, p) {
      JoinedSymmetric(w, solid, start, p);
      IslandClosed(w, solid, p, start, r => 0 <= r < |marks| && marks[r] == marks[p]);
    }
  }

  lemma FloodExtendsClasses(w: nat, solid: seq<bool>, before: seq<int>, after: seq<int>, start: int, id: nat)
    requires Partial(w, solid, before, id) && SameMarkIffJoined(w, solid, before) && |after| == |before|
    requires 0 <= start < |before| && before[start] == -1 && solid[start]
    requires Flooded(w, solid, before, after, start, id)
    ensures SameMarkIffJoined(w, solid, after)
    ensures forall p :: 0 <= p < |before| && before[p] != -1 ==> after[p] == before[p]
  {
    forall p | 0 <= p < |before| && before[p] != -1
      ensures after[p] == before[p]
    {
      FloodAvoidsMarked(w, solid, before, id, start, p);
    }
    forall p, q | 0 <= p < |after| && 0 <= q < |after| && after[p] != -1 && after[q] != -1
      ensures after[p] == after[q] <==> Joined(w, solid, p, q)
    {
      if Joined(w, solid, start, p) {
        JoinedSymmetric(w, solid, start, p);
        if Joined(w, solid, start, q) {
          JoinedTransitive(w, solid, p, start, q);
        } else if Joined(w, solid, p, q) {
          JoinedTransitive(w, solid, start, p, q);
        }
      } else if Joined(w, solid, start, q) && Joined(w, solid, p, q) {
        JoinedSymmetric(w, solid, p, q);
        JoinedTransitive(w, solid, start, q, p);
      }
    }
  }

  lemma FloodExtendsSizes(w: nat, solid: seq<bool>, before: seq<int>, after: seq<int>, start: int, sizes: seq<nat>,
                          count: nat)
    requires Partial(w, solid, before, |sizes|) && Sized(before, sizes) && |after| == |before|
    requires 0 <= start < |before| && before[start] == -1 && solid[start]
    requires Flooded(w, solid, before, after, start, |sizes|)
    requires forall p :: 0 <= p < |before| && before[p] != -1 ==> after[p] == before[p]
    requires count == |Members(after, |sizes|)|
    ensures Sized(after, sizes + [count])
  {
    JoinedSelf(w, solid, start);
    assert start in Members(after, |sizes|);
    forall id | 0 <= id < |sizes|
      ensures Members(after, id) == Members(before, id)
    {
      assert forall p :: 0 <= p < |before| && after[p] == id ==> before[p] == id;
    }
  }

  /** The scan state: pixels before `start` are settled and the islands met so far are sized. */
  ghost predicate Scanned(w: nat, solid: seq<bool>, marks: seq<int>, sizes: seq<nat>, start: int) {
    && |marks| == |solid|
    && (0 < |solid| ==> Partial(w, solid, marks, |sizes|) && SameMarkIffJoined(w, solid, marks))
    && Sized(marks, sizes)
    && forall p :: 0 <= p < |marks| && p < start && solid[p] ==> marks[p] != -1
  }

  lemma FloodExtendsScan(w: nat, solid: seq<bool>, before: seq<int>, after: seq<int>, start: int, sizes: seq<nat>,
                         count: nat)
    requires Scanned(w, solid, before, sizes, start) && |after| == |before| && 0 < w
    requires 0 <= start < |before| && before[start] == -1 && solid[start]
    requires Flooded(w, solid, before, after, start, |sizes|) && Partial(w, solid, after, |sizes| + 1)
    requires count == |Members(after, |sizes|)|
    ensures Scanned(w, solid, after, sizes + [count], start + 1)
  {
    FloodExtendsClasses(w, solid, before, after, start, |sizes|);
    FloodExtendsSizes(w, solid, before, after, start, sizes, count);
    JoinedSelf(w, solid, start);
  }

  lemma ScanStarts(w: nat, h: nat, solid: seq<bool>, marks: seq<int>)
    requires |solid| == |marks| == w * h && forall p :: 0 <= p < |marks| ==> marks[p] == -1
    ensures Scanned(w, solid, marks, [], 0)
  {
  }

  /** Visit one pixel of the scan, flooding its island if it is new. */
  method ScanPixel(w: nat, h: nat, out: array<Byte>, marks: array<int>, sizes: seq<nat>, start: nat,
                   ghost solid: seq<bool>)
    returns (sizes': seq<nat>)
    requires out.Length == w * h * 4 && marks.Length == w * h && start < w * h && solid == Solid(w * h, out[..])
    requires Scanned(w, solid, marks[..], sizes, start)
    modifies marks
    ensures Scanned(w, solid, marks[..], sizes', start + 1)
  {
    sizes' := sizes;
    if out[start * 4 + 3] > SOLID_ALPHA && marks[start] == -1 {
      ghost var before := marks[..];
      var count := Flood(w, h, out, marks, start, |sizes|);
      FloodExtendsScan(w, solid, before, marks[..], start, sizes, count);
      sizes' := sizes + [count];
    }
  }

  /** Label every island of the image. */
  method LabelComponents(w: nat, h: nat, out: array<Byte>) returns (labels: seq<int>, sizes: seq<nat>)
    requires out.Length == w * h * 4
    ensures IsLabelling(w, Solid(w * h, out[..]), labels, sizes)
  {
    ghost var solid := Solid(w * h, out[..]);
    var n := w * h;
    var marks := new int[n](_ => -1);
    sizes := [];
    ScanStarts(w, h, solid, marks[..]);
    for start := 0 to n
      invariant Scanned(w, solid, marks[..], sizes, start)
    {
      sizes := ScanPixel(w, h, out, marks, sizes, start, solid);
    }
    labels := marks[..];
    ScanComplete(w, solid, labels, sizes);
  }

  lemma ScanComplete(w: nat, solid: seq<bool>, marks: seq<int>, sizes: seq<nat>)
    requires Scanned(w, solid, marks, sizes, |marks|)
    ensures IsLabelling(w, solid, marks, sizes)
  {
  }
}
