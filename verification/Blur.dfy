/** The separable box blur and the normalised background estimate built from it. */
module Blur {
  import opened Basics
  import opened Raster

  // ---- finite sums ----

  function Sum(f: int -> real, lo: int, hi: int): (r: real)
    requires lo <= hi
    decreases hi - lo
  {
    if lo == hi then 0.0 else Sum(f, lo, hi - 1) + f(hi - 1)
  }

  lemma {:induction false} SumCongruent(f: int -> real, g: int -> real, lo: int, hi: int)
    requires lo <= hi && forall d :: lo <= d < hi ==> f(d) == g(d)
    ensures Sum(f, lo, hi) == Sum(g, lo, hi)
    decreases hi - lo
  {
    if lo < hi { SumCongruent(f, g, lo, hi - 1); }
  }

  lemma {:induction false} SumAdds(f: int -> real, g: int -> real, k: int -> real, lo: int, hi: int)
    requires lo <= hi && forall d :: lo <= d < hi ==> k(d) == f(d) + g(d)
    ensures Sum(k, lo, hi) == Sum(f, lo, hi) + Sum(g, lo, hi)
    decreases hi - lo
  {
    if lo < hi { SumAdds(f, g, k, lo, hi - 1); }
  }

  lemma {:induction false} SumZero(f: int -> real, lo: int, hi: int)
    requires lo <= hi && forall d :: lo <= d < hi ==> f(d) == 0.0
    ensures Sum(f, lo, hi) == 0.0
    decreases hi - lo
  {
    if lo < hi { SumZero(f, lo, hi - 1); }
  }

  /** The inner sums of a doubly indexed family. */
  function Inner(f: (int, int) -> real, lo: int, hi: int): (g: int -> real)
    requires lo <= hi
  {
    i => Sum(j => f(i, j), lo, hi)
  }

  function Flip(f: (int, int) -> real): (g: (int, int) -> real) {
    (i, j) => f(j, i)
  }

  /** The order of two nested sums does not matter. */
  lemma {:induction false} SumExchange(f: (int, int) -> real, lo: int, hi: int, lo': int, hi': int)
    requires lo <= hi && lo' <= hi'
    ensures Sum(Inner(f, lo', hi'), lo, hi) == Sum(Inner(Flip(f), lo, hi), lo', hi')
    decreases hi - lo
  {
    if lo == hi {
      SumZero(Inner(Flip(f), lo, hi), lo', hi');
    } else {
      SumExchange(f, lo, hi - 1, lo', hi');
      var last := j => f(hi - 1, j);
      SumAdds(Inner(Flip(f), lo, hi - 1), last, Inner(Flip(f), lo, hi), lo', hi');
      assert Inner(f, lo', hi')(hi - 1) == Sum(last, lo', hi');
    }
  }

  // ---- clamped samples and windows ----

  /** A W x H buffer with ch interleaved channels. */
  datatype Grid = Grid(w: nat, h: nat, ch: nat) {
    predicate Holds<T>(v: seq<T>) { |v| == w * h * ch }
  }

  function Clamp(i: int, n: nat): (r: int)
  {
    if i < 0 then 0 else if i > n - 1 then n - 1 else i
  }

  /** Channel c at (x, y), with coordinates clamped into the image. */
  function Sample(g: Grid, v: seq<real>, c: int, x: int, y: int): (r: real) {
    var k := (Clamp(y, g.h) * g.w + Clamp(x, g.w)) * g.ch + c;
    if 0 <= k < |v| then v[k] else 0.0
  }

  datatype Direction = Horizontal | Vertical

  /** The sum of f over the offsets -r .. r. */
  function Window(f: int -> real, r: nat): (s: real) {
    Sum(f, 0 - r, r + 1)
  }

  /** The one-dimensional window sum of a pass. */
  function LineSum(g: Grid, v: seq<real>, dir: Direction, r: nat, c: int, x: int, y: int): (s: real) {
    match dir
    case Horizontal => Window(d => Sample(g, v, c, x + d, y), r)
    case Vertical => Window(d => Sample(g, v, c, x, y + d), r)
  }

  /** The full two-dimensional clamped window sum, row by row. */
  function BoxSum(g: Grid, v: seq<real>, r: nat, c: int, x: int, y: int): (s: real) {
    Window(dy => LineSum(g, v, Horizontal, r, c, x, y + dy), r)
  }

  /** The same window summed column by column. */
  function BoxSumByColumns(g: Grid, v: seq<real>, r: nat, c: int, x: int, y: int): (s: real) {
    Window(dx => LineSum(g, v, Vertical, r, c, x + dx, y), r)
  }

  /** out is one pass of v: each entry is the window sum at its own pixel and channel. */
  ghost predicate IsPass(g: Grid, dir: Direction, r: nat, v: seq<real>, out: seq<real>) {
    && g.Holds(v) && |out| == |v|
    && forall x, y, c :: 0 <= x < g.w && 0 <= y < g.h && 0 <= c < g.ch ==>
         Sample(g, out, c, x, y) == LineSum(g, v, dir, r, c, x, y)
  }

  ghost predicate IsBoxBlur(g: Grid, r: nat, v: seq<real>, out: seq<real>) {
    && g.Holds(v) && |out| == |v|
    && forall x, y, c :: 0 <= x < g.w && 0 <= y < g.h && 0 <= c < g.ch ==>
         Sample(g, out, c, x, y) == BoxSum(g, v, r, c, x, y)
  }

  lemma SampleClamps(g: Grid, v: seq<real>, c: int, x: int, y: int)
    requires 0 < g.w && 0 < g.h
    ensures Sample(g, v, c, x, y) == Sample(g, v, c, Clamp(x, g.w), Clamp(y, g.h))
    ensures 0 <= Clamp(x, g.w) < g.w && 0 <= Clamp(y, g.h) < g.h
  {
  }

  /** A row sum of an out-of-range row is the row sum of the row it clamps to. */
  lemma RowSumClamps(g: Grid, v: seq<real>, r: nat, c: int, x: int, y: int)
    requires 0 < g.w && 0 < g.h
    ensures LineSum(g, v, Horizontal, r, c, x, y) == LineSum(g, v, Horizontal, r, c, x, Clamp(y, g.h))
  {
    var yy := Clamp(y, g.h);
    var f, f' := dx => Sample(g, v, c, x + dx, y), dx => Sample(g, v, c, x + dx, yy);
    forall dx | 0 - r <= dx < r + 1
      ensures f(dx) == f'(dx)
    {
      SampleClamps(g, v, c, x + dx, y);
      SampleClamps(g, v, c, x + dx, yy);
    }
    SumCongruent(f, f', 0 - r, r + 1);
  }

  /** Horizontal then vertical is the full two-dimensional window sum. */
  lemma PassesMakeBox(g: Grid, r: nat, v: seq<real>, mid: seq<real>, out: seq<real>)
    requires IsPass(g, Horizontal, r, v, mid) && IsPass(g, Vertical, r, mid, out)
    ensures IsBoxBlur(g, r, v, out)
  {
    forall x, y, c | 0 <= x < g.w && 0 <= y < g.h && 0 <= c < g.ch
      ensures Sample(g, out, c, x, y) == BoxSum(g, v, r, c, x, y)
    {
      var f := dy => Sample(g, mid, c, x, y + dy);
      var rows := dy => LineSum(g, v, Horizontal, r, c, x, y + dy);
      forall dy | 0 - r <= dy < r + 1
        ensures f(dy) == rows(dy)
      {
        SampleClamps(g, mid, c, x, y + dy);
        RowSumClamps(g, v, r, c, x, y + dy);
      }
      SumCongruent(f, rows, 0 - r, r + 1);
    }
  }

  /** The two orders of summing a window agree. */
  lemma BoxSumEitherWay(g: Grid, v: seq<real>, r: nat, c: int, x: int, y: int)
    ensures BoxSum(g, v, r, c, x, y) == BoxSumByColumns(g, v, r, c, x, y)
  {
    var f := (dy: int, dx: int) => Sample(g, v, c, x + dx, y + dy);
    var lo, hi := 0 - r, r + 1;
    SumExchange(f, lo, hi, lo, hi);
    var rows := dy => LineSum(g, v, Horizontal, r, c, x, y + dy);
    var cols := dx => LineSum(g, v, Vertical, r, c, x + dx, y);
    forall i | lo <= i < hi
      ensures rows(i) == Inner(f, lo, hi)(i) && cols(i) == Inner(Flip(f), lo, hi)(i)
    {
      SumCongruent(dx => Sample(g, v, c, x + dx, y + i), dx => f(i, dx), lo, hi);
      assert LineSum(g, v, Horizontal, r, c, x, y + i) == Sum(dx => Sample(g, v, c, x + dx, y + i), lo, hi);
      assert Inner(f, lo, hi)(i) == Sum(dx => f(i, dx), lo, hi);
      SumCongruent(dy => Sample(g, v, c, x + i, y + dy), dy => Flip(f)(i, dy), lo, hi);
      assert LineSum(g, v, Vertical, r, c, x + i, y) == Sum(dy => Sample(g, v, c, x + i, y + dy), lo, hi);
      assert Inner(Flip(f), lo, hi)(i) == Sum(dy => Flip(f)(i, dy), lo, hi);
    }
    SumCongruent(rows, Inner(f, lo, hi), lo, hi);
    SumCongruent(cols, Inner(Flip(f), lo, hi), lo, hi);
  }

  // ---- the passes ----

  /** The window term at offset d, which is what the inner loop adds. */
  function Term(g: Grid, v: seq<real>, dir: Direction, c: int, x: int, y: int, d: int): (r: real) {
    match dir
    case Horizontal => Sample(g, v, c, x + d, y)
    case Vertical => Sample(g, v, c, x, y + d)
  }

  function Partial(g: Grid, v: seq<real>, dir: Direction, r: nat, c: int, x: int, y: int, d: int): (s: real)
    requires 0 - r <= d
  {
    Sum(e => Term(g, v, dir, c, x, y, e), 0 - r, d)
  }

  lemma PartialIsLineSum(g: Grid, v: seq<real>, dir: Direction, r: nat, c: int, x: int, y: int)
    ensures Partial(g, v, dir, r, c, x, y, r + 1) == LineSum(g, v, dir, r, c, x, y)
  {
    match dir
    case Horizontal =>
      SumCongruent(e => Term(g, v, dir, c, x, y, e), d => Sample(g, v, c, x + d, y), 0 - r, r + 1);
    case Vertical =>
      SumCongruent(e => Term(g, v, dir, c, x, y, e), d => Sample(g, v, c, x, y + d), 0 - r, r + 1);
  }

  /** The buffer position of channel c at (x, y), inside the buffer. */
  lemma EntryInBounds(g: Grid, x: int, y: int, c: int)
    requires 0 <= x < g.w && 0 <= y < g.h && 0 <= c < g.ch
    ensures 0 <= (y * g.w + x) * g.ch + c < g.w * g.h * g.ch
    ensures ((y * g.w + x) * g.ch + c) / g.ch == y * g.w + x && ((y * g.w + x) * g.ch + c) % g.ch == c
  {
    Coordinates(g.w, g.h, x, y);
    Coordinates(g.ch, g.w * g.h, c, y * g.w + x);
  }

  /** The entry the inner loop reads at offset d is the window's term. */
  lemma TermEntry(g: Grid, v: seq<real>, dir: Direction, x: nat, y: nat, d: int, xx: int, yy: int, c: nat)
    requires g.Holds(v) && x < g.w && y < g.h && c < g.ch
    requires xx == (if dir.Horizontal? then Clamp(x + d, g.w) else x)
    requires yy == (if dir.Vertical? then Clamp(y + d, g.h) else y)
    ensures 0 <= (yy * g.w + xx) * g.ch + c < |v|
    ensures v[(yy * g.w + xx) * g.ch + c] == Term(g, v, dir, c, x, y, d)
  {
    EntryInBounds(g, xx, yy, c);
  }

  method AddChannels(v: array<real>, base: nat, sv: seq<real>) returns (sv': seq<real>)
    requires base + |sv| <= v.Length
    ensures |sv'| == |sv| && forall c :: 0 <= c < |sv| ==> sv'[c] == sv[c] + v[base + c]
  {
    sv' := sv;
    for c := 0 to |sv|
      invariant |sv'| == |sv|
      invariant forall e :: 0 <= e < |sv| ==> sv'[e] == if e < c then sv[e] + v[base + e] else sv[e]
    {
      sv' := sv'[c := sv'[c] + v[base + c]];
    }
  }

  /** All channels read at offset d lie in the buffer and are the window's terms. */
  lemma TermEntries(g: Grid, v: seq<real>, dir: Direction, x: nat, y: nat, d: int, xx: int, yy: int, base: int)
    requires g.Holds(v) && x < g.w && y < g.h
    requires xx == (if dir.Horizontal? then Clamp(x + d, g.w) else x)
    requires yy == (if dir.Vertical? then Clamp(y + d, g.h) else y)
    requires base == (yy * g.w + xx) * g.ch
    ensures 0 <= base && base + g.ch <= |v|
    ensures forall c :: 0 <= c < g.ch ==> v[base + c] == Term(g, v, dir, c, x, y, d)
  {
    Coordinates(g.w, g.h, xx, yy);
    MulMonotone(0, yy * g.w + xx, g.ch);
    MulMonotone(yy * g.w + xx + 1, g.w * g.h, g.ch);
    assert (yy * g.w + xx + 1) * g.ch == base + g.ch;
    forall c | 0 <= c < g.ch
      ensures v[base + c] == Term(g, v, dir, c, x, y, d)
    {
      TermEntry(g, v, dir, x, y, d, xx, yy, c);
    }
  }

  /** Add the pixel at offset d of the window around (x, y). */
  method AddOffset(g: Grid, v: array<real>, wt: array<real>, dir: Direction, x: nat, y: nat, d: int, sv: seq<real>,
                   sw: real)
    returns (sv': seq<real>, sw': real)
    requires g.Holds(v[..]) && Grid(g.w, g.h, 1).Holds(wt[..]) && x < g.w && y < g.h && |sv| == g.ch
    ensures |sv'| == g.ch && forall c :: 0 <= c < g.ch ==> sv'[c] == sv[c] + Term(g, v[..], dir, c, x, y, d)
    ensures sw' == sw + Term(Grid(g.w, g.h, 1), wt[..], dir, 0, x, y, d)
  {
    var xx := if dir.Horizontal? then Clamp(x + d, g.w) else x;
    var yy := if dir.Vertical? then Clamp(y + d, g.h) else y;
    var j := yy * g.w + xx;
    var base := j * g.ch;
    TermEntries(Grid(g.w, g.h, 1), wt[..], dir, x, y, d, xx, yy, j);
    TermEntries(g, v[..], dir, x, y, d, xx, yy, base);
    sv' := AddChannels(v, base, sv);
    assert wt[j + 0] == Term(Grid(g.w, g.h, 1), wt[..], dir, 0, x, y, d);
    sw' := sw + wt[j];
  }

  /** Sum one window of values and weights around (x, y). */
  method SumWindow(g: Grid, v: array<real>, wt: array<real>, dir: Direction, radius: nat, x: nat, y: nat)
    returns (sv: seq<real>, sw: real)
    requires g.Holds(v[..]) && Grid(g.w, g.h, 1).Holds(wt[..]) && x < g.w && y < g.h
    ensures |sv| == g.ch && forall c :: 0 <= c < g.ch ==> sv[c] == LineSum(g, v[..], dir, radius, c, x, y)
    ensures sw == LineSum(Grid(g.w, g.h, 1), wt[..], dir, radius, 0, x, y)
  {
    ghost var gw := Grid(g.w, g.h, 1);
    sv := seq(g.ch, _ => 0.0);
    sw := 0.0;
    for d: int := 0 - radius to radius + 1
      invariant |sv| == g.ch
      invariant forall c :: 0 <= c < g.ch ==> sv[c] == Partial(g, v[..], dir, radius, c, x, y, d)
      invariant sw == Partial(gw, wt[..], dir, radius, 0, x, y, d)
    {
      sv, sw := AddOffset(g, v, wt, dir, x, y, d, sv, sw);
    }
    forall c | 0 <= c < g.ch
      ensures sv[c] == LineSum(g, v[..], dir, radius, c, x, y)
    {
      PartialIsLineSum(g, v[..], dir, radius, c, x, y);
    }
    PartialIsLineSum(gw, wt[..], dir, radius, 0, x, y);
  }

  /** Entry k of a pass: the window sum at the pixel and channel that k addresses. */
  function PassEntry(g: Grid, v: seq<real>, dir: Direction, r: nat, k: int): (s: real)
    requires 0 < g.w && 0 < g.ch
  {
    LineSum(g, v, dir, r, k % g.ch, (k / g.ch) % g.w, (k / g.ch) / g.w)
  }

  ghost predicate PassPrefix(g: Grid, v: seq<real>, dir: Direction, r: nat, out: seq<real>, n: int)
    requires 0 < g.w && 0 < g.ch
  {
    0 <= n <= |out| && forall k :: 0 <= k < n ==> out[k] == PassEntry(g, v, dir, r, k)
  }

  lemma PassPrefixComplete(g: Grid, v: seq<real>, dir: Direction, r: nat, out: seq<real>)
    requires 0 < g.w && 0 < g.ch && g.Holds(v) && g.Holds(out)
    requires PassPrefix(g, v, dir, r, out, |out|)
    ensures IsPass(g, dir, r, v, out)
  {
    forall x, y, c | 0 <= x < g.w && 0 <= y < g.h && 0 <= c < g.ch
      ensures Sample(g, out, c, x, y) == LineSum(g, v, dir, r, c, x, y)
    {
      PassEntryAt(g, v, dir, r, x, y, c);
      assert out[(y * g.w + x) * g.ch + c] == PassEntry(g, v, dir, r, (y * g.w + x) * g.ch + c);
    }
  }

  lemma PassEntryAt(g: Grid, v: seq<real>, dir: Direction, r: nat, x: int, y: int, c: int)
    requires 0 <= x < g.w && 0 <= y < g.h && 0 <= c < g.ch
    ensures 0 <= (y * g.w + x) * g.ch + c < g.w * g.h * g.ch
    ensures PassEntry(g, v, dir, r, (y * g.w + x) * g.ch + c) == LineSum(g, v, dir, r, c, x, y)
  {
    EntryInBounds(g, x, y, c);
    Coordinates(g.w, g.h, x, y);
  }

  /** Write the window sums of pixel i into the pass buffer. */
  method StorePixel(g: Grid, ghost v: seq<real>, dir: Direction, ghost r: nat, out: array<real>, i: nat, x: nat, y: nat,
                    sv: seq<real>)
    requires x < g.w && y < g.h && i == y * g.w + x && 0 < g.ch && |sv| == g.ch
    requires out.Length == g.w * g.h * g.ch && PassPrefix(g, v, dir, r, out[..], i * g.ch)
    requires forall c :: 0 <= c < g.ch ==> sv[c] == LineSum(g, v, dir, r, c, x, y)
    modifies out
    ensures PassPrefix(g, v, dir, r, out[..], (i + 1) * g.ch)
  {
    hide PassEntry, LineSum;
    PassEntryAt(g, v, dir, r, x, y, g.ch - 1);
    for c := 0 to g.ch
      invariant PassPrefix(g, v, dir, r, out[..], i * g.ch + c)
    {
      PassEntryAt(g, v, dir, r, x, y, c);
      out[i * g.ch + c] := sv[c];
    }
    assert (i + 1) * g.ch == i * g.ch + g.ch;
  }

  /** The first i pixels of both pass buffers are done. */
  ghost predicate PassedPixels(g: Grid, v: seq<real>, wt: seq<real>, dir: Direction, r: nat, outV: seq<real>,
                               outW: seq<real>, i: int)
    requires 0 < g.w && 0 < g.ch
  {
    && |outV| == |v| && |outW| == |wt|
    && PassPrefix(g, v, dir, r, outV, i * g.ch)
    && PassPrefix(Grid(g.w, g.h, 1), wt, dir, r, outW, i)
  }

  /** Compute and store the window sums of pixel i = (x, y). */
  method PassPixel(g: Grid, v: array<real>, wt: array<real>, dir: Direction, radius: nat,
                   outV: array<real>, outW: array<real>, i: nat, x: nat, y: nat)
    requires x < g.w && y < g.h && i == y * g.w + x && 0 < g.ch
    requires g.Holds(v[..]) && Grid(g.w, g.h, 1).Holds(wt[..])
    requires outV != v && outV != wt && outW != v && outW != wt && outV != outW
    requires PassedPixels(g, v[..], wt[..], dir, radius, outV[..], outW[..], i)
    modifies outV, outW
    ensures PassedPixels(g, v[..], wt[..], dir, radius, outV[..], outW[..], i + 1)
  {
    ghost var v0, w0 := v[..], wt[..];
    var sv, sw := SumWindow(g, v, wt, dir, radius, x, y);
    StorePixel(g, v0, dir, radius, outV, i, x, y, sv);
    StorePixel(Grid(g.w, g.h, 1), w0, dir, radius, outW, i, x, y, [sw]);
    assert v[..] == v0 && wt[..] == w0;
  }

  /** One row of a pass. */
  method PassRow(g: Grid, v: array<real>, wt: array<real>, dir: Direction, radius: nat,
                 outV: array<real>, outW: array<real>, y: nat)
    requires y < g.h && 0 < g.w && 0 < g.ch
    requires g.Holds(v[..]) && Grid(g.w, g.h, 1).Holds(wt[..])
    requires outV != v && outV != wt && outW != v && outW != wt && outV != outW
    requires PassedPixels(g, v[..], wt[..], dir, radius, outV[..], outW[..], y * g.w)
    modifies outV, outW
    ensures PassedPixels(g, v[..], wt[..], dir, radius, outV[..], outW[..], (y + 1) * g.w)
  {
    MulMonotone(0, y, g.w);
    ghost var v0, w0 := v[..], wt[..];
    for x := 0 to g.w
      invariant v[..] == v0 && wt[..] == w0
      invariant PassedPixels(g, v0, w0, dir, radius, outV[..], outW[..], y * g.w + x)
    {
      PassPixel(g, v, wt, dir, radius, outV, outW, y * g.w + x, x, y);
    }
    assert y * g.w + g.w == (y + 1) * g.w;
  }

  /** One pass over values and weights, into fresh buffers. */
  method Pass(g: Grid, v: array<real>, wt: array<real>, dir: Direction, radius: nat)
    returns (outV: array<real>, outW: array<real>)
    requires 0 < g.w && 0 < g.ch && g.Holds(v[..]) && Grid(g.w, g.h, 1).Holds(wt[..])
    ensures fresh(outV) && fresh(outW) && outV != outW
    ensures IsPass(g, dir, radius, v[..], outV[..])
    ensures IsPass(Grid(g.w, g.h, 1), dir, radius, wt[..], outW[..])
  {
    outV := new real[v.Length](_ => 0.0);
    outW := new real[wt.Length](_ => 0.0);
    ghost var v0, w0 := v[..], wt[..];
    for y := 0 to g.h
      invariant v[..] == v0 && wt[..] == w0
      invariant PassedPixels(g, v0, w0, dir, radius, outV[..], outW[..], y * g.w)
    {
      PassRow(g, v, wt, dir, radius, outV, outW, y);
    }
    assert g.h * g.w == g.w * g.h;
    PassPrefixComplete(g, v0, dir, radius, outV[..]);
    PassPrefixComplete(Grid(g.w, g.h, 1), w0, dir, radius, outW[..]);
  }

  /** Blur values and weights in place, horizontally and then vertically. */
  method BoxBlur(g: Grid, v: array<real>, wt: array<real>, radius: nat)
    requires 0 < g.w && 0 < g.ch && v != wt && g.Holds(v[..]) && Grid(g.w, g.h, 1).Holds(wt[..])
    modifies v, wt
    ensures IsBoxBlur(g, radius, old(v[..]), v[..])
    ensures IsBoxBlur(Grid(g.w, g.h, 1), radius, old(wt[..]), wt[..])
  {
    var gw := Grid(g.w, g.h, 1);
    var midV, midW := Pass(g, v, wt, Horizontal, radius);
    var outV, outW := Pass(g, midV, midW, Vertical, radius);
    PassesMakeBox(g, radius, v[..], midV[..], outV[..]);
    PassesMakeBox(gw, radius, wt[..], midW[..], outW[..]);
    forall k | 0 <= k < v.Length { v[k] := outV[k]; }
    forall k | 0 <= k < wt.Length { wt[k] := outW[k]; }
    assert v[..] == outV[..] && wt[..] == outW[..];
  }

  // ---- the background estimate ----

  const BLUR_RADIUS: nat := 18
  const MIN_WEIGHT := 0.0001

  /** Background weight of each pixel: what the subject mask leaves over. */
  function Weights(a: seq<real>): (r: seq<real>)
    ensures |r| == |a| && forall i :: 0 <= i < |a| ==> r[i] == 1.0 - a[i]
  {
    seq(|a|, i requires 0 <= i < |a| => 1.0 - a[i])
  }

  /** RGB of the RGBA source, premultiplied with the background weight. */
  function Premultiplied(rgba: seq<real>, a: seq<real>): (r: seq<real>)
    requires |rgba| == |a| * 4
    ensures |r| == |a| * 3
    ensures forall k :: 0 <= k < |a| * 3 ==> r[k] == PremultipliedAt(rgba, a, k)
  {
    seq(|a| * 3, k requires 0 <= k < |a| * 3 => PremultipliedAt(rgba, a, k))
  }

  function PremultipliedAt(rgba: seq<real>, a: seq<real>, k: nat): (r: real)
    requires |rgba| == |a| * 4 && k < |a| * 3
  {
    rgba[k / 3 * 4 + k % 3] * (1.0 - a[k / 3])
  }

  function Colour(w: nat, h: nat): (g: Grid) { Grid(w, h, 3) }
  function Mask(w: nat, h: nat): (g: Grid) { Grid(w, h, 1) }

  /** The estimate: blurred colour over blurred weight, the weight kept away from zero. */
  ghost predicate IsBackground(w: nat, h: nat, rgba: seq<real>, a: seq<real>, bg: seq<real>)
    requires |a| == w * h && |rgba| == |a| * 4
  {
    && |bg| == w * h * 3
    && forall x, y, c :: 0 <= x < w && 0 <= y < h && 0 <= c < 3 ==>
         Sample(Colour(w, h), bg, c, x, y) ==
         BoxSum(Colour(w, h), Premultiplied(rgba, a), BLUR_RADIUS, c, x, y)
         / MaxReal(BoxSum(Mask(w, h), Weights(a), BLUR_RADIUS, 0, x, y), MIN_WEIGHT)
  }

  /** A sample is the buffer entry at the clamped pixel. */
  lemma SampleEntry(g: Grid, v: seq<real>, c: nat, x: int, y: int) returns (i: nat)
    requires 0 < g.w && 0 < g.h && g.Holds(v) && c < g.ch
    ensures i == Clamp(y, g.h) * g.w + Clamp(x, g.w) && i < g.w * g.h
    ensures 0 <= i * g.ch + c < |v| && Sample(g, v, c, x, y) == v[i * g.ch + c]
  {
    i := Clamp(y, g.h) * g.w + Clamp(x, g.w);
    Coordinates(g.w, g.h, Clamp(x, g.w), Clamp(y, g.h));
    EntryInBounds(g, Clamp(x, g.w), Clamp(y, g.h), c);
  }

  function Scaled(k: real, u: seq<real>): (r: seq<real>)
    ensures |r| == |u| && forall i :: 0 <= i < |u| ==> r[i] == k * u[i]
  {
    seq(|u|, i requires 0 <= i < |u| => k * u[i])
  }

  lemma {:induction false} SumScales(f: int -> real, g: int -> real, k: real, lo: int, hi: int)
    requires lo <= hi && forall d :: lo <= d < hi ==> f(d) == k * g(d)
    ensures Sum(f, lo, hi) == k * Sum(g, lo, hi)
    decreases hi - lo
  {
    if lo < hi {
      SumScales(f, g, k, lo, hi - 1);
      assert k * (Sum(g, lo, hi - 1) + g(hi - 1)) == k * Sum(g, lo, hi - 1) + k * g(hi - 1);
    }
  }

  lemma {:induction false} SumMonotone(f: int -> real, g: int -> real, lo: int, hi: int)
    requires lo <= hi && forall d :: lo <= d < hi ==> f(d) <= g(d)
    ensures Sum(f, lo, hi) <= Sum(g, lo, hi)
    decreases hi - lo
  {
    if lo < hi { SumMonotone(f, g, lo, hi - 1); }
  }

  lemma SampleScales(g: Grid, u: seq<real>, k: real, c: int, x: int, y: int)
    ensures Sample(g, Scaled(k, u), c, x, y) == k * Sample(g, u, c, x, y)
  {
  }

  lemma LineSumScales(g: Grid, u: seq<real>, k: real, r: nat, c: int, x: int, y: int)
    ensures LineSum(g, Scaled(k, u), Horizontal, r, c, x, y) == k * LineSum(g, u, Horizontal, r, c, x, y)
  {
    var f, f' := d => Sample(g, Scaled(k, u), c, x + d, y), d => Sample(g, u, c, x + d, y);
    forall d
      ensures f(d) == k * f'(d)
    {
      SampleScales(g, u, k, c, x + d, y);
    }
    SumScales(f, f', k, 0 - r, r + 1);
    assert LineSum(g, Scaled(k, u), Horizontal, r, c, x, y) == Sum(f, 0 - r, r + 1);
    assert LineSum(g, u, Horizontal, r, c, x, y) == Sum(f', 0 - r, r + 1);
  }

  /** Blurring commutes with scaling. */
  lemma BoxSumScales(g: Grid, u: seq<real>, k: real, r: nat, c: int, x: int, y: int)
    ensures BoxSum(g, Scaled(k, u), r, c, x, y) == k * BoxSum(g, u, r, c, x, y)
  {
    var f := dy => LineSum(g, Scaled(k, u), Horizontal, r, c, x, y + dy);
    var f' := dy => LineSum(g, u, Horizontal, r, c, x, y + dy);
    forall dy
      ensures f(dy) == k * f'(dy)
    {
      LineSumScales(g, u, k, r, c, x, y + dy);
    }
    SumScales(f, f', k, 0 - r, r + 1);
  }

  /** One channel of v lies below one channel of u at every sample. */
  ghost predicate Below(g: Grid, v: seq<real>, c: int, g': Grid, u: seq<real>, c': int) {
    forall x, y :: Sample(g, v, c, x, y) <= Sample(g', u, c', x, y)
  }

  lemma LineSumMonotone(g: Grid, v: seq<real>, c: int, g': Grid, u: seq<real>, c': int, r: nat, x: int, y: int)
    requires Below(g, v, c, g', u, c')
    ensures LineSum(g, v, Horizontal, r, c, x, y) <= LineSum(g', u, Horizontal, r, c', x, y)
  {
    var f, f' := d => Sample(g, v, c, x + d, y), d => Sample(g', u, c', x + d, y);
    SumMonotone(f, f', 0 - r, r + 1);
    assert LineSum(g, v, Horizontal, r, c, x, y) == Sum(f, 0 - r, r + 1);
    assert LineSum(g', u, Horizontal, r, c', x, y) == Sum(f', 0 - r, r + 1);
  }

  /** Blurring is monotone. */
  lemma BoxSumMonotone(g: Grid, v: seq<real>, c: int, g': Grid, u: seq<real>, c': int, r: nat, x: int, y: int)
    requires Below(g, v, c, g', u, c')
    ensures BoxSum(g, v, r, c, x, y) <= BoxSum(g', u, r, c', x, y)
  {
    var f := dy => LineSum(g, v, Horizontal, r, c, x, y + dy);
    var f' := dy => LineSum(g', u, Horizontal, r, c', x, y + dy);
    forall dy
      ensures f(dy) <= f'(dy)
    {
      LineSumMonotone(g, v, c, g', u, c', r, x, y + dy);
    }
    SumMonotone(f, f', 0 - r, r + 1);
  }

  /** Every value of channel c lies between lo and hi. */
  ghost predicate ChannelBetween(rgba: seq<real>, c: nat, lo: real, hi: real) {
    forall k :: 0 <= k < |rgba| && k % 4 == c ==> lo <= rgba[k] <= hi
  }

  /** A colour bound carries over to the premultiplied samples, relative to the weight. */
  lemma PremultipliedBounds(w: nat, h: nat, rgba: seq<real>, a: seq<real>, c: nat, lo: real, hi: real)
    requires 0 < w && 0 < h && |a| == w * h && |rgba| == |a| * 4 && c < 3
    requires forall i :: 0 <= i < |a| ==> a[i] <= 1.0
    requires ChannelBetween(rgba, c, lo, hi)
    ensures Below(Mask(w, h), Scaled(lo, Weights(a)), 0, Colour(w, h), Premultiplied(rgba, a), c)
    ensures Below(Colour(w, h), Premultiplied(rgba, a), c, Mask(w, h), Scaled(hi, Weights(a)), 0)
    ensures Below(Mask(w, h), Scaled(0.0, Weights(a)), 0, Mask(w, h), Weights(a), 0)
  {
    forall x, y
      ensures Sample(Mask(w, h), Scaled(lo, Weights(a)), 0, x, y)
              <= Sample(Colour(w, h), Premultiplied(rgba, a), c, x, y)
      ensures Sample(Colour(w, h), Premultiplied(rgba, a), c, x, y)
              <= Sample(Mask(w, h), Scaled(hi, Weights(a)), 0, x, y)
      ensures Sample(Mask(w, h), Scaled(0.0, Weights(a)), 0, x, y) <= Sample(Mask(w, h), Weights(a), 0, x, y)
    {
      PremultipliedBoundsAt(w, h, rgba, a, c, lo, hi, x, y);
    }
  }

  lemma PremultipliedBoundsAt(w: nat, h: nat, rgba: seq<real>, a: seq<real>, c: nat, lo: real, hi: real, x: int, y: int)
    requires 0 < w && 0 < h && |a| == w * h && |rgba| == |a| * 4 && c < 3
    requires forall i :: 0 <= i < |a| ==> a[i] <= 1.0
    requires ChannelBetween(rgba, c, lo, hi)
    ensures Sample(Mask(w, h), Scaled(lo, Weights(a)), 0, x, y) <= Sample(Colour(w, h), Premultiplied(rgba, a), c, x, y)
    ensures Sample(Colour(w, h), Premultiplied(rgba, a), c, x, y) <= Sample(Mask(w, h), Scaled(hi, Weights(a)), 0, x, y)
    ensures Sample(Mask(w, h), Scaled(0.0, Weights(a)), 0, x, y) <= Sample(Mask(w, h), Weights(a), 0, x, y)
  {
    hide Sample;
    var i, p, s := PremultipliedEntry(w, h, rgba, a, c, x, y);
    var m0 := ScaledEntry(w, h, a, 0.0, x, y, i);
    var m1 := ScaledEntry(w, h, a, lo, x, y, i);
    var m2 := ScaledEntry(w, h, a, hi, x, y, i);
    assert (i * 4 + c) % 4 == c;
    EntryBounds(lo, rgba[i * 4 + c], hi, s, p, m0, m1, m2);
  }

  lemma EntryBounds(lo: real, q: real, hi: real, s: real, p: real, m0: real, m1: real, m2: real)
    requires lo <= q <= hi && 0.0 <= s
    requires p == q * s && m0 == 0.0 * s && m1 == lo * s && m2 == hi * s
    ensures m1 <= p <= m2 && m0 <= s
  {
  }

  lemma ScaledEntry(w: nat, h: nat, a: seq<real>, k: real, x: int, y: int, i: nat) returns (m: real)
    requires 0 < w && 0 < h && |a| == w * h && i == Clamp(y, h) * w + Clamp(x, w) && i < |a|
    ensures m == Sample(Mask(w, h), Scaled(k, Weights(a)), 0, x, y) && m == k * (1.0 - a[i])
  {
    var j := SampleEntry(Mask(w, h), Scaled(k, Weights(a)), 0, x, y);
    m := Sample(Mask(w, h), Scaled(k, Weights(a)), 0, x, y);
  }

  lemma PremultipliedEntry(w: nat, h: nat, rgba: seq<real>, a: seq<real>, c: nat, x: int, y: int)
    returns (i: nat, p: real, s: real)
    requires 0 < w && 0 < h && |a| == w * h && |rgba| == |a| * 4 && c < 3
    ensures i == Clamp(y, h) * w + Clamp(x, w) && i < |a|
    ensures s == Sample(Mask(w, h), Weights(a), 0, x, y) == 1.0 - a[i]
    ensures p == Sample(Colour(w, h), Premultiplied(rgba, a), c, x, y) == rgba[i * 4 + c] * (1.0 - a[i])
  {
    i := SampleEntry(Mask(w, h), Weights(a), 0, x, y);
    var j := SampleEntry(Colour(w, h), Premultiplied(rgba, a), c, x, y);
    var k := i * 3 + c;
    assert k / 3 == i && k % 3 == c;
    p, s := Premultiplied(rgba, a)[k], Weights(a)[i];
  }

  lemma QuotientBounded(s: real, q: real, lo: real, hi: real, m: real)
    requires 0.0 < m && lo * s <= q <= hi * s
    requires s == m || (0.0 <= s <= m && lo <= 0.0 <= hi)
    ensures lo <= q / m <= hi
  {
  }

  /** Blurred colour stays within the colour's bounds times the blurred weight. */
  lemma BlurredProportion(w: nat, h: nat, rgba: seq<real>, a: seq<real>, c: nat, lo: real, hi: real, x: int, y: int)
    requires 0 < w && 0 < h && |a| == w * h && |rgba| == |a| * 4 && c < 3
    requires forall i :: 0 <= i < |a| ==> a[i] <= 1.0
    requires ChannelBetween(rgba, c, lo, hi)
    ensures 0.0 <= BoxSum(Mask(w, h), Weights(a), BLUR_RADIUS, 0, x, y)
    ensures lo * BoxSum(Mask(w, h), Weights(a), BLUR_RADIUS, 0, x, y)
              <= BoxSum(Colour(w, h), Premultiplied(rgba, a), BLUR_RADIUS, c, x, y)
              <= hi * BoxSum(Mask(w, h), Weights(a), BLUR_RADIUS, 0, x, y)
  {
    var v, u := Premultiplied(rgba, a), Weights(a);
    PremultipliedBounds(w, h, rgba, a, c, lo, hi);
    BoxSumMonotone(Mask(w, h), Scaled(lo, u), 0, Colour(w, h), v, c, BLUR_RADIUS, x, y);
    BoxSumMonotone(Colour(w, h), v, c, Mask(w, h), Scaled(hi, u), 0, BLUR_RADIUS, x, y);
    BoxSumMonotone(Mask(w, h), Scaled(0.0, u), 0, Mask(w, h), u, 0, BLUR_RADIUS, x, y);
    BoxSumScales(Mask(w, h), u, lo, BLUR_RADIUS, 0, x, y);
    BoxSumScales(Mask(w, h), u, hi, BLUR_RADIUS, 0, x, y);
    BoxSumScales(Mask(w, h), u, 0.0, BLUR_RADIUS, 0, x, y);
  }

  /** Where enough background is in the window, the estimate lies between the extremes of the image. */
  lemma BackgroundBetweenExtremes(w: nat, h: nat, rgba: seq<real>, a: seq<real>, bg: seq<real>, c: nat, lo: real,
                                  hi: real, x: nat, y: nat)
    requires |a| == w * h && |rgba| == |a| * 4 && c < 3 && x < w && y < h
    requires forall i :: 0 <= i < |a| ==> a[i] <= 1.0
    requires ChannelBetween(rgba, c, lo, hi)
    requires IsBackground(w, h, rgba, a, bg)
    requires BoxSum(Mask(w, h), Weights(a), BLUR_RADIUS, 0, x, y) >= MIN_WEIGHT || lo <= 0.0 <= hi
    ensures lo <= Sample(Colour(w, h), bg, c, x, y) <= hi
  {
    hide BoxSum, Sample, IsBackground, ChannelBetween;
    BlurredProportion(w, h, rgba, a, c, lo, hi, x, y);
    var q, s := BackgroundQuotient(w, h, rgba, a, bg, c, x, y);
    QuotientBounded(s, q, lo, hi, MaxReal(s, MIN_WEIGHT));
  }

  lemma BackgroundQuotient(w: nat, h: nat, rgba: seq<real>, a: seq<real>, bg: seq<real>, c: nat, x: nat, y: nat)
    returns (q: real, s: real)
    requires |a| == w * h && |rgba| == |a| * 4 && c < 3 && x < w && y < h
    requires IsBackground(w, h, rgba, a, bg)
    ensures s == BoxSum(Mask(w, h), Weights(a), BLUR_RADIUS, 0, x, y)
    ensures q == BoxSum(Colour(w, h), Premultiplied(rgba, a), BLUR_RADIUS, c, x, y)
    ensures Sample(Colour(w, h), bg, c, x, y) == q / MaxReal(s, MIN_WEIGHT)
  {
    s := BoxSum(Mask(w, h), Weights(a), BLUR_RADIUS, 0, x, y);
    q := BoxSum(Colour(w, h), Premultiplied(rgba, a), BLUR_RADIUS, c, x, y);
  }

  /** With colours and mask in [0, 1], every channel of the estimate is in [0, 1]. */
  lemma BackgroundInUnitRange(w: nat, h: nat, rgba: seq<real>, a: seq<real>, bg: seq<real>, k: nat)
    requires |a| == w * h && |rgba| == |a| * 4 && k < w * h * 3
    requires forall i :: 0 <= i < |a| ==> a[i] <= 1.0
    requires forall i :: 0 <= i < |rgba| ==> 0.0 <= rgba[i] <= 1.0
    requires IsBackground(w, h, rgba, a, bg)
    ensures 0.0 <= bg[k] <= 1.0
  {
    var i, c := k / 3, k % 3;
    InBounds(w, h, i);
    var x, y := i % w, i / w;
    BackgroundBetweenExtremes(w, h, rgba, a, bg, c, 0.0, 1.0, x, y);
    assert Clamp(x, w) == x && Clamp(y, h) == y;
    assert (y * w + x) * 3 + c == k;
  }

  /** The buffer entry of a blurred image is the box sum of its pixel and channel. */
  lemma BlurredEntry(g: Grid, r: nat, v: seq<real>, out: seq<real>, x: nat, y: nat, c: nat, i: nat)
    requires IsBoxBlur(g, r, v, out) && x < g.w && y < g.h && c < g.ch
    requires i == Clamp(y, g.h) * g.w + Clamp(x, g.w)
    ensures 0 <= i * g.ch + c < |out| && out[i * g.ch + c] == BoxSum(g, v, r, c, x, y)
  {
    var j := SampleEntry(g, out, c, x, y);
  }

  /** The premultiplied colour and the weight of every pixel, as the source fills them. */
  method BackgroundInputs(n: nat, rgba: array<real>, a: array<real>) returns (bgVal: array<real>, bgW: array<real>)
    requires a.Length == n && rgba.Length == n * 4
    ensures fresh(bgVal) && fresh(bgW) && bgVal != bgW
    ensures bgVal[..] == Premultiplied(rgba[..], a[..]) && bgW[..] == Weights(a[..])
  {
    bgVal := new real[n * 3](_ => 0.0);
    bgW := new real[n](_ => 0.0);
    ghost var rgba0, a0 := rgba[..], a[..];
    for i := 0 to n
      invariant rgba[..] == rgba0 && a[..] == a0
      invariant bgW[..i] == Weights(a0)[..i]
      invariant bgVal[..i * 3] == Premultiplied(rgba0, a0)[..i * 3]
    {
      var wgt := 1.0 - a[i];
      bgW[i] := wgt;
      FillPixel(rgba, wgt, bgVal, i, rgba0, a0);
    }
    assert bgW[..n] == bgW[..] && bgVal[..n * 3] == bgVal[..];
  }

  method FillPixel(rgba: array<real>, wgt: real, bgVal: array<real>, i: nat, ghost rgba0: seq<real>,
                   ghost a0: seq<real>)
    requires rgba != bgVal && rgba[..] == rgba0 && |rgba0| == |a0| * 4 && i < |a0| && wgt == 1.0 - a0[i]
    requires bgVal.Length == |a0| * 3 && bgVal[..i * 3] == Premultiplied(rgba0, a0)[..i * 3]
    modifies bgVal
    ensures bgVal[..(i + 1) * 3] == Premultiplied(rgba0, a0)[..(i + 1) * 3]
  {
    for c := 0 to 3
      invariant rgba[..] == rgba0
      invariant bgVal[..i * 3 + c] == Premultiplied(rgba0, a0)[..i * 3 + c]
    {
      assert (i * 3 + c) / 3 == i && (i * 3 + c) % 3 == c;
      bgVal[i * 3 + c] := rgba[i * 4 + c] * wgt;
      assert bgVal[i * 3 + c] == PremultipliedAt(rgba0, a0, i * 3 + c);
    }
  }

  /** Divide the blurred colour by the blurred weight. */
  method Normalise(n: nat, bgVal: array<real>, bgW: array<real>) returns (bg: array<real>)
    requires bgW.Length == n && bgVal.Length == n * 3
    ensures fresh(bg) && bg.Length == n * 3
    ensures forall k :: 0 <= k < n * 3 ==> bg[k] == bgVal[k] / MaxReal(bgW[k / 3], MIN_WEIGHT)
  {
    bg := new real[n * 3](_ => 0.0);
    for i := 0 to n
      invariant forall k :: 0 <= k < i * 3 ==> bg[k] == bgVal[k] / MaxReal(bgW[k / 3], MIN_WEIGHT)
    {
      var wgt := MaxReal(bgW[i], MIN_WEIGHT);
      for c := 0 to 3
        invariant forall k :: 0 <= k < i * 3 + c ==> bg[k] == bgVal[k] / MaxReal(bgW[k / 3], MIN_WEIGHT)
      {
        assert (i * 3 + c) / 3 == i;
        bg[i * 3 + c] := bgVal[i * 3 + c] / wgt;
      }
    }
  }

  lemma NormalisedIsBackground(w: nat, h: nat, rgba: seq<real>, a: seq<real>, val: seq<real>, wts: seq<real>,
                               bg: seq<real>)
    requires |a| == w * h && |rgba| == |a| * 4 && |bg| == w * h * 3
    requires IsBoxBlur(Colour(w, h), BLUR_RADIUS, Premultiplied(rgba, a), val)
    requires IsBoxBlur(Mask(w, h), BLUR_RADIUS, Weights(a), wts)
    requires forall k :: 0 <= k < w * h * 3 ==> bg[k] == val[k] / MaxReal(wts[k / 3], MIN_WEIGHT)
    ensures IsBackground(w, h, rgba, a, bg)
  {
    hide BoxSum, Sample, IsBoxBlur;
    forall x, y, c | 0 <= x < w && 0 <= y < h && 0 <= c < 3
      ensures Sample(Colour(w, h), bg, c, x, y) ==
              BoxSum(Colour(w, h), Premultiplied(rgba, a), BLUR_RADIUS, c, x, y)
              / MaxReal(BoxSum(Mask(w, h), Weights(a), BLUR_RADIUS, 0, x, y), MIN_WEIGHT)
    {
      var i := SampleEntry(Colour(w, h), bg, c, x, y);
      BlurredEntry(Colour(w, h), BLUR_RADIUS, Premultiplied(rgba, a), val, x, y, c, i);
      BlurredEntry(Mask(w, h), BLUR_RADIUS, Weights(a), wts, x, y, 0, i);
      assert (i * 3 + c) / 3 == i && i * 1 + 0 == i;
    }
  }

  /** Estimate the background colour at every pixel of an RGBA image with subject mask a. */
  method EstimateBackground(w: nat, h: nat, rgba: array<real>, a: array<real>) returns (bg: array<real>)
    requires a.Length == w * h && rgba.Length == a.Length * 4
    ensures fresh(bg) && IsBackground(w, h, rgba[..], a[..], bg[..])
  {
    var n := w * h;
    var bgVal, bgW := BackgroundInputs(n, rgba, a);
    ghost var pre, wts := bgVal[..], bgW[..];
    if w == 0 {
      bg := bgVal;
      return;
    }
    BoxBlur(Colour(w, h), bgVal, bgW, BLUR_RADIUS);
    bg := Normalise(n, bgVal, bgW);
    NormalisedIsBackground(w, h, rgba[..], a[..], bgVal[..], bgW[..], bg[..]);
  }
}
