/** Trimming an RGBA image to the bounding box of its visible pixels. */
module Crop {
  import opened Raster

  const ALPHA_FLOOR := 8

  datatype Box = Box(minX: int, minY: int, maxX: int, maxY: int)

  datatype CropResult = EmptyCutout | Cropped(box: Box, width: nat, height: nat, pixels: seq<Byte>)

  predicate Visible(w: nat, h: nat, img: seq<Byte>, x: int, y: int)
    requires |img| == w * h * 4 && 0 <= x < w && 0 <= y < h
  {
    Coordinates(w, h, x, y);
    img[(y * w + x) * 4 + 3] > ALPHA_FLOOR
  }

  ghost predicate Covers(w: nat, h: nat, img: seq<Byte>, b: Box)
    requires |img| == w * h * 4
  {
    forall x, y :: 0 <= x < w && 0 <= y < h && Visible(w, h, img, x, y) ==>
      b.minX <= x <= b.maxX && b.minY <= y <= b.maxY
  }

  /** Each side of the box touches a visible pixel. */
  ghost predicate Touches(w: nat, h: nat, img: seq<Byte>, b: Box)
    requires |img| == w * h * 4
  {
    && 0 <= b.minX <= b.maxX < w && 0 <= b.minY <= b.maxY < h
    && (exists y :: 0 <= y < h && Visible(w, h, img, b.minX, y))
    && (exists y :: 0 <= y < h && Visible(w, h, img, b.maxX, y))
    && (exists x :: 0 <= x < w && Visible(w, h, img, x, b.minY))
    && (exists x :: 0 <= x < w && Visible(w, h, img, x, b.maxY))
  }

  ghost predicate SomeVisible(w: nat, h: nat, img: seq<Byte>)
    requires |img| == w * h * 4
  {
    exists x, y :: 0 <= x < w && 0 <= y < h && Visible(w, h, img, x, y)
  }

  /** Pixel (x, y) of the crop is pixel (x + minX, y + minY) of the image. */
  ghost predicate CopiedFrom(w: nat, h: nat, img: seq<Byte>, b: Box, tw: nat, th: nat, pixels: seq<Byte>)
    requires |img| == w * h * 4 && |pixels| == tw * th * 4
    requires 0 <= b.minX && b.minX + tw <= w && 0 <= b.minY && b.minY + th <= h
  {
    forall x, y :: 0 <= x < tw && 0 <= y < th ==> SamePixel(w, h, img, b, tw, th, pixels, x, y)
  }

  ghost predicate SamePixel(w: nat, h: nat, img: seq<Byte>, b: Box, tw: nat, th: nat, pixels: seq<Byte>, x: int, y: int)
    requires |img| == w * h * 4 && |pixels| == tw * th * 4 && 0 <= x < tw && 0 <= y < th
    requires 0 <= b.minX && b.minX + tw <= w && 0 <= b.minY && b.minY + th <= h
  {
    Coordinates(tw, th, x, y);
    Coordinates(w, h, x + b.minX, y + b.minY);
    var d, s := (y * tw + x) * 4, ((y + b.minY) * w + (x + b.minX)) * 4;
    pixels[d..d + 4] == img[s..s + 4]
  }

  /** The crop of an image: its tightest covering box, copied; or nothing when nothing is visible. */
  ghost predicate IsCrop(w: nat, h: nat, img: seq<Byte>, r: CropResult)
    requires |img| == w * h * 4
  {
    match r
    case EmptyCutout => !SomeVisible(w, h, img)
    case Cropped(b, tw, th, pixels) =>
      && Covers(w, h, img, b) && Touches(w, h, img, b)
      && tw == b.maxX - b.minX + 1 && th == b.maxY - b.minY + 1
      && |pixels| == tw * th * 4
      && CopiedFrom(w, h, img, b, tw, th, pixels)
  }

  // ---- scanning for the box ----

  /** Pixel (x, y) comes before (cx, cy) in row-major order. */
  predicate Before(x: int, y: int, cx: int, cy: int) {
    y < cy || (y == cy && x < cx)
  }

  ghost predicate ScannedBox(w: nat, h: nat, img: seq<Byte>, b: Box, cx: int, cy: int)
    requires |img| == w * h * 4
  {
    && (forall x, y :: 0 <= x < w && 0 <= y < h && Before(x, y, cx, cy) && Visible(w, h, img, x, y) ==>
          b.minX <= x <= b.maxX && b.minY <= y <= b.maxY)
    && (b == Box(w, h, -1, -1) || Touches(w, h, img, b))
  }

  lemma ScanOne(w: nat, h: nat, img: seq<Byte>, b: Box, b': Box, x: int, y: int)
    requires |img| == w * h * 4 && 0 <= x < w && 0 <= y < h && ScannedBox(w, h, img, b, x, y)
    requires b' == if Visible(w, h, img, x, y)
                   then Box(if x < b.minX then x else b.minX, if y < b.minY then y else b.minY,
                            if x > b.maxX then x else b.maxX, if y > b.maxY then y else b.maxY)
                   else b
    ensures ScannedBox(w, h, img, b', x + 1, y)
  {
    if Visible(w, h, img, x, y) && b != Box(w, h, -1, -1) {
      assert Touches(w, h, img, b);
      assert Touches(w, h, img, b');
    }
  }

  method FindBox(w: nat, h: nat, out: array<Byte>) returns (b: Box)
    requires out.Length == w * h * 4
    ensures Covers(w, h, out[..], b)
    ensures b == Box(w, h, -1, -1) || Touches(w, h, out[..], b)
    ensures b.minX <= b.maxX && b.minY <= b.maxY <==> SomeVisible(w, h, out[..])
  {
    var minX, minY, maxX, maxY: int := w, h, -1, -1;
    for y := 0 to h
      invariant ScannedBox(w, h, out[..], Box(minX, minY, maxX, maxY), 0, y)
    {
      for x := 0 to w
        invariant ScannedBox(w, h, out[..], Box(minX, minY, maxX, maxY), x, y)
      {
        ghost var was := Box(minX, minY, maxX, maxY);
        Coordinates(w, h, x, y);
        if out[(y * w + x) * 4 + 3] > ALPHA_FLOOR {
          if x < minX { minX := x; }
          if x > maxX { maxX := x; }
          if y < minY { minY := y; }
          if y > maxY { maxY := y; }
        }
        ScanOne(w, h, out[..], was, Box(minX, minY, maxX, maxY), x, y);
      }
    }
    b := Box(minX, minY, maxX, maxY);
  }

  /** Where pixel j of a crop comes from. */
  function SourceOffset(w: nat, b: Box, tw: nat, j: int): (s: int)
    requires 0 < tw
  {
    ((j / tw + b.minY) * w + (j % tw + b.minX)) * 4
  }

  /** The first k pixels of the crop buffer are copied. */
  ghost predicate CopiedPixels(w: nat, img: seq<Byte>, b: Box, tw: nat, t: seq<Byte>, k: nat)
    requires 0 < tw
  {
    k * 4 <= |t| && forall j :: 0 <= j < k ==> PixelCopied(img, SourceOffset(w, b, tw, j), t, j)
  }

  ghost predicate PixelCopied(img: seq<Byte>, s: int, t: seq<Byte>, j: nat)
    requires j * 4 + 4 <= |t|
  {
    0 <= s && s + 4 <= |img| && t[j * 4..j * 4 + 4] == img[s..s + 4]
  }

  method CopyPixel(out: array<Byte>, s: nat, t: array<Byte>, d: nat)
    requires out != t && s + 4 <= out.Length && d + 4 <= t.Length
    modifies t
    ensures t[..] == old(t[..d]) + out[s..s + 4] + old(t[d + 4..])
  {
    for c := 0 to 4
      invariant t[..] == old(t[..d]) + out[s..s + c] + old(t[d + c..])
    {
      t[d + c] := out[s + c];
    }
  }

  lemma CopiedGrows(w: nat, img: seq<Byte>, b: Box, tw: nat, was: seq<Byte>, now: seq<Byte>, k: nat, s: nat)
    requires 0 < tw && CopiedPixels(w, img, b, tw, was, k) && k * 4 + 4 <= |was|
    requires s == SourceOffset(w, b, tw, k) && s + 4 <= |img|
    requires now == was[..k * 4] + img[s..s + 4] + was[k * 4 + 4..]
    ensures CopiedPixels(w, img, b, tw, now, k + 1)
  {
  }

  method CopyBox(w: nat, h: nat, out: array<Byte>, b: Box, tw: nat, th: nat) returns (pixels: seq<Byte>)
    requires out.Length == w * h * 4 && 0 < tw && 0 < th
    requires 0 <= b.minX && b.minX + tw <= w && 0 <= b.minY && b.minY + th <= h
    ensures |pixels| == tw * th * 4 && CopiedFrom(w, h, out[..], b, tw, th, pixels)
  {
    var trimmed := new Byte[tw * th * 4](_ => 0);
    ghost var img := out[..];
    for y := 0 to th
      invariant out[..] == img && CopiedPixels(w, img, b, tw, trimmed[..], y * tw)
    {
      for x := 0 to tw
        invariant out[..] == img && CopiedPixels(w, img, b, tw, trimmed[..], y * tw + x)
      {
        Coordinates(w, h, x + b.minX, y + b.minY);
        Coordinates(tw, th, x, y);
        var s := ((y + b.minY) * w + (x + b.minX)) * 4;
        var d := (y * tw + x) * 4;
        ghost var was := trimmed[..];
        CopyPixel(out, s, trimmed, d);
        CopiedGrows(w, img, b, tw, was, trimmed[..], y * tw + x, s);
      }
      assert (y + 1) * tw == y * tw + tw;
    }
    pixels := trimmed[..];
    CopiedAll(w, h, img, b, tw, th, pixels);
  }

  lemma CopiedAll(w: nat, h: nat, img: seq<Byte>, b: Box, tw: nat, th: nat, pixels: seq<Byte>)
    requires |img| == w * h * 4 && |pixels| == tw * th * 4 && 0 < tw
    requires 0 <= b.minX && b.minX + tw <= w && 0 <= b.minY && b.minY + th <= h
    requires CopiedPixels(w, img, b, tw, pixels, th * tw)
    ensures CopiedFrom(w, h, img, b, tw, th, pixels)
  {
    forall x, y | 0 <= x < tw && 0 <= y < th
      ensures SamePixel(w, h, img, b, tw, th, pixels, x, y)
    {
      Coordinates(tw, th, x, y);
      assert PixelCopied(img, SourceOffset(w, b, tw, y * tw + x), pixels, y * tw + x);
    }
  }

  /** Trim the image to its visible bounding box. */
  method Trim(w: nat, h: nat, out: array<Byte>) returns (r: CropResult)
    requires out.Length == w * h * 4
    ensures IsCrop(w, h, out[..], r)
  {
    var b := FindBox(w, h, out);
    if !(b.maxX >= b.minX && b.maxY >= b.minY) {
      return EmptyCutout;
    }
    var tw, th := b.maxX - b.minX + 1, b.maxY - b.minY + 1;
    var trimmed := CopyBox(w, h, out, b, tw, th);
    r := Cropped(b, tw, th, trimmed);
  }

  // ---- what the crop means ----

  /** No smaller box covers the visible pixels, so the crop is determined by the image. */
  lemma CropIsTightest(w: nat, h: nat, img: seq<Byte>, r: CropResult, b: Box)
    requires |img| == w * h * 4 && IsCrop(w, h, img, r) && r.Cropped? && Covers(w, h, img, b)
    ensures b.minX <= r.box.minX <= r.box.maxX <= b.maxX
    ensures b.minY <= r.box.minY <= r.box.maxY <= b.maxY
  {
  }

  lemma CropIsUnique(w: nat, h: nat, img: seq<Byte>, r: CropResult, r': CropResult)
    requires |img| == w * h * 4 && IsCrop(w, h, img, r) && IsCrop(w, h, img, r')
    ensures r == r'
  {
    if r.Cropped? && r'.Cropped? {
      CropIsTightest(w, h, img, r, r'.box);
      CropIsTightest(w, h, img, r', r.box);
      var tw, th := r.width, r.height;
      forall k | 0 <= k < tw * th * 4
        ensures r.pixels[k] == r'.pixels[k]
      {
        InBounds(tw, th, k / 4);
        var x, y := (k / 4) % tw, (k / 4) / tw;
        assert SamePixel(w, h, img, r.box, tw, th, r.pixels, x, y);
        assert SamePixel(w, h, img, r'.box, tw, th, r'.pixels, x, y);
        var d := (y * tw + x) * 4;
        assert d == k / 4 * 4 && k == d + k % 4;
        assert r.pixels[k] == r.pixels[d..d + 4][k % 4];
        assert r'.pixels[k] == r'.pixels[d..d + 4][k % 4];
      }
      assert r.pixels == r'.pixels;
    }
  }

  /** Every visible pixel survives the crop at its shifted place. */
  lemma VisibleSurvives(w: nat, h: nat, img: seq<Byte>, r: CropResult, x: int, y: int)
    requires |img| == w * h * 4 && IsCrop(w, h, img, r)
    requires 0 <= x < w && 0 <= y < h && Visible(w, h, img, x, y)
    ensures r.Cropped?
    ensures var x', y' := x - r.box.minX, y - r.box.minY;
            && 0 <= x' < r.width && 0 <= y' < r.height
            && Visible(r.width, r.height, r.pixels, x', y')
            && SamePixel(w, h, img, r.box, r.width, r.height, r.pixels, x', y')
  {
    var x', y' := x - r.box.minX, y - r.box.minY;
    assert SamePixel(w, h, img, r.box, r.width, r.height, r.pixels, x', y');
    Coordinates(r.width, r.height, x', y');
    Coordinates(w, h, x, y);
    var d, s := (y' * r.width + x') * 4, (y * w + x) * 4;
    assert r.pixels[d + 3] == r.pixels[d..d + 4][3] == img[s..s + 4][3];
  }

  lemma CropTouchesItsSides(w: nat, h: nat, img: seq<Byte>, r: CropResult)
    requires |img| == w * h * 4 && IsCrop(w, h, img, r) && r.Cropped?
    ensures Touches(r.width, r.height, r.pixels, Box(0, 0, r.width - 1, r.height - 1))
  {
    var b := r.box;
    var y0 :| 0 <= y0 < h && Visible(w, h, img, b.minX, y0);
    var y1 :| 0 <= y1 < h && Visible(w, h, img, b.maxX, y1);
    var x0 :| 0 <= x0 < w && Visible(w, h, img, x0, b.minY);
    var x1 :| 0 <= x1 < w && Visible(w, h, img, x1, b.maxY);
    VisibleSurvives(w, h, img, r, b.minX, y0);
    VisibleSurvives(w, h, img, r, b.maxX, y1);
    VisibleSurvives(w, h, img, r, x0, b.minY);
    VisibleSurvives(w, h, img, r, x1, b.maxY);
  }

  lemma CropOfItself(tw: nat, th: nat, pixels: seq<Byte>)
    requires |pixels| == tw * th * 4 && Touches(tw, th, pixels, Box(0, 0, tw - 1, th - 1))
    ensures IsCrop(tw, th, pixels, Cropped(Box(0, 0, tw - 1, th - 1), tw, th, pixels))
  {
  }

  /** Cropping a cropped image changes nothing. */
  lemma CropIdempotent(w: nat, h: nat, img: seq<Byte>, r: CropResult, r': CropResult)
    requires |img| == w * h * 4 && IsCrop(w, h, img, r) && r.Cropped?
    requires IsCrop(r.width, r.height, r.pixels, r')
    ensures r' == Cropped(Box(0, 0, r.width - 1, r.height - 1), r.width, r.height, r.pixels)
  {
    CropTouchesItsSides(w, h, img, r);
    CropOfItself(r.width, r.height, r.pixels);
    CropIsUnique(r.width, r.height, r.pixels, r',
                 Cropped(Box(0, 0, r.width - 1, r.height - 1), r.width, r.height, r.pixels));
  }
}
