/** The 32-bit BGRA back buffer shared by both devices (Device.cs, UnityDevice.cs): a flat byte
    array of width * height pixels, four bytes per pixel, row after row, and the arithmetic that
    maps screen points to its slots. */
module FrameBuffers {
  import opened Vectors
  import opened Arithmetic

  newtype byte = x: int | 0 <= x < 256

  /** The four channels a pixel write stores. The source builds them from a Color4 by
      (byte)(channel * 255); the model takes the bytes. */
  datatype Color = Color(r: byte, g: byte, b: byte, a: byte)

  /** Color4(1, 1, 0, 1) in bytes: red and green full, no blue, opaque. */
  const Yellow: Color := Color(255, 255, 0, 255)

  /** A SharpDX Vector2: a screen point in pixels. */
  datatype Vector2 = Vector2(x: real, y: real)

  /** The byte a pixel holds at offset k of its four: blue, green, red, alpha. */
  function Channel(c: Color, k: int): byte
    requires 0 <= k < 4
  {
    if k == 0 then c.b else if k == 1 then c.g else if k == 2 then c.r else c.a
  }

  /** A buffer for a width * height target. */
  predicate SizedFor(buf: seq<byte>, width: nat, height: nat)
  {
    |buf| == width * height * 4
  }

  /** Every sized buffer holds whole pixels. */
  lemma SizeIsWholePixels(width: nat, height: nat)
    ensures (width * height * 4) % 4 == 0
    ensures (width * height * 4) / 4 == width * height
  {
  }

  /** `(x + y * width) * 4`: the first of the four bytes of pixel (x, y). */
  function PixelIndex(width: int, x: int, y: int): int
  {
    (x + y * width) * 4
  }

  /** A pixel inside the target has all four of its bytes inside the buffer, at an offset that
      is a multiple of four. */
  lemma {:induction false} PixelIndexInBounds(width: nat, height: nat, x: int, y: int)
    requires 0 <= x < width && 0 <= y < height
    ensures 0 <= PixelIndex(width, x, y) && PixelIndex(width, x, y) % 4 == 0
    ensures PixelIndex(width, x, y) + 3 < width * height * 4
  {
    assert 0 <= y * width;
    assert x + y * width < (y + 1) * width;
    assert (y + 1) * width <= height * width by {
      MulMonotone(y + 1, height, width);
    }
  }

  /** Distinct pixels of the target own disjoint byte ranges: the pixel is recovered from its
      index by division by four and by the width. */
  lemma {:induction false} PixelIndexInverse(width: nat, height: nat, x: int, y: int)
    requires 0 <= x < width && 0 <= y < height
    ensures PixelIndex(width, x, y) / 4 % width == x
    ensures PixelIndex(width, x, y) / 4 / width == y
  {
    var q := x + y * width;
    assert PixelIndex(width, x, y) / 4 == q;
    DivModUnique(q, width, y, x);
  }

  /** The buffer after Clear: byte k holds channel k % 4 of the colour. */
  function Filled(n: nat, c: Color): (r: seq<byte>)
    ensures |r| == n
  {
    seq(n, k => Channel(c, k % 4))
  }

  /** A buffer holds the cleared pattern exactly when each of its pixels holds b, g, r, a in
      this order; so clearing twice with one colour leaves what clearing once left. */
  lemma {:induction false} FilledIffEveryPixel(buf: seq<byte>, c: Color)
    requires |buf| % 4 == 0
    ensures buf == Filled(|buf|, c) <==>
      forall p :: 0 <= p < |buf| / 4 ==> buf[4 * p..4 * p + 4] == [c.b, c.g, c.r, c.a]
  {
    if buf == Filled(|buf|, c) {
      forall p | 0 <= p < |buf| / 4
        ensures buf[4 * p..4 * p + 4] == [c.b, c.g, c.r, c.a]
      {
        FilledPixel(|buf|, c, p);
      }
    }
    if forall p :: 0 <= p < |buf| / 4 ==> buf[4 * p..4 * p + 4] == [c.b, c.g, c.r, c.a] {
      forall k | 0 <= k < |buf|
        ensures buf[k] == Channel(c, k % 4)
      {
        var p := k / 4;
        PixelOfByte(k, |buf|);
        assert buf[4 * p..4 * p + 4][k % 4] == buf[k];
      }
    }
  }

  /** Byte k of a buffer of whole pixels lies at offset k % 4 of pixel k / 4. */
  lemma PixelOfByte(k: int, n: int)
    requires n % 4 == 0 && 0 <= k < n
    ensures 0 <= k / 4 < n / 4 && 4 * (k / 4) + k % 4 == k && 4 * (k / 4) + 4 <= n
  {
  }

  /** A buffer whose every byte k holds channel k % 4 of c is the cleared pattern. */
  lemma FilledByChannels(buf: seq<byte>, c: Color)
    requires forall k :: 0 <= k < |buf| ==> buf[k] == Channel(c, k % 4)
    ensures buf == Filled(|buf|, c)
  {
  }

  /** Pixel p of a cleared buffer holds the colour's bytes in the order b, g, r, a. */
  lemma FilledPixel(n: nat, c: Color, p: nat)
    requires 4 * p + 4 <= n
    ensures Filled(n, c)[4 * p..4 * p + 4] == [c.b, c.g, c.r, c.a]
  {
    var s := Filled(n, c)[4 * p..4 * p + 4];
    assert s[0] == Filled(n, c)[4 * p];
    assert (4 * p + 1) % 4 == 1 && (4 * p + 2) % 4 == 2 && (4 * p + 3) % 4 == 3;
  }

  /** putPixel's four stores: b, g, r, a from index i on. */
  function WritePixel(buf: seq<byte>, i: int, c: Color): (r: seq<byte>)
    requires 0 <= i && i + 3 < |buf|
    ensures |r| == |buf|
    ensures r[i..i + 4] == [c.b, c.g, c.r, c.a]
    ensures forall k :: 0 <= k < |buf| && !(i <= k < i + 4) ==> r[k] == buf[k]
  {
    buf[i := c.b][i + 1 := c.g][i + 2 := c.r][i + 3 := c.a]
  }

  /** C#'s (int) cast of a float: truncation toward zero. */
  function Trunc(v: real): (r: int)
    ensures v >= 0.0 ==> 0 <= r && r as real <= v < r as real + 1.0
    ensures v < 0.0 ==> r <= 0 && r as real - 1.0 < v <= r as real
  {
    if v >= 0.0 then v.Floor else -((-v).Floor)
  }

  /** drawPoint's culling test: the point lies in [0, width) x [0, height). */
  predicate InTarget(width: nat, height: nat, p: Vector2)
  {
    p.x >= 0.0 && p.y >= 0.0 && p.x < width as real && p.y < height as real
  }

  /** A point that passes the culling test truncates to a pixel inside the target. */
  lemma TruncInTarget(width: nat, height: nat, p: Vector2)
    requires InTarget(width, height, p)
    ensures 0 <= Trunc(p.x) < width && 0 <= Trunc(p.y) < height
  {
  }

  /** The first byte of the pixel a culled-in point lands on. */
  function PointIndex(width: nat, height: nat, p: Vector2): (i: int)
    requires InTarget(width, height, p)
    ensures 0 <= i && i % 4 == 0 && i + 3 < width * height * 4
  {
    TruncInTarget(width, height, p);
    PixelIndexInBounds(width, height, Trunc(p.x), Trunc(p.y));
    PixelIndex(width, Trunc(p.x), Trunc(p.y))
  }

  /** The buffer after drawPoint(p): the yellow pixel at the truncated point, or no change for
      a point outside the target. */
  function Plot(width: nat, height: nat, buf: seq<byte>, p: Vector2): (r: seq<byte>)
    requires SizedFor(buf, width, height)
    ensures SizedFor(r, width, height)
    ensures !InTarget(width, height, p) ==> r == buf
  {
    if InTarget(width, height, p) then WritePixel(buf, PointIndex(width, height, p), Yellow)
    else buf
  }

  /** drawPoint for each point in turn, first to last. */
  function PlotAll(width: nat, height: nat, buf: seq<byte>, points: seq<Vector2>): (r: seq<byte>)
    requires SizedFor(buf, width, height)
    ensures SizedFor(r, width, height)
    decreases |points|
  {
    if points == [] then buf
    else PlotAll(width, height, Plot(width, height, buf, points[0]), points[1..])
  }

  /** Drawing one more point after a list is drawing it on the list's result. */
  lemma {:induction false} PlotAllSnoc(width: nat, height: nat, buf: seq<byte>, points: seq<Vector2>, p: Vector2)
    requires SizedFor(buf, width, height)
    ensures PlotAll(width, height, buf, points + [p]) ==
      Plot(width, height, PlotAll(width, height, buf, points), p)
    decreases |points|
  {
    if points == [] {
      assert [] + [p] == [p];
      assert [p][1..] == [];
    } else {
      assert (points + [p])[0] == points[0];
      assert (points + [p])[1..] == points[1..] + [p];
      PlotAllSnoc(width, height, Plot(width, height, buf, points[0]), points[1..], p);
    }
  }

  /** Drawing a + b is drawing a, then b on the result. */
  lemma {:induction false} PlotAllAppend(width: nat, height: nat, buf: seq<byte>, a: seq<Vector2>, b: seq<Vector2>)
    requires SizedFor(buf, width, height)
    ensures PlotAll(width, height, buf, a + b) ==
      PlotAll(width, height, PlotAll(width, height, buf, a), b)
    decreases |a|
  {
    if a == [] {
      assert [] + b == b;
    } else {
      assert (a + b)[0] == a[0];
      assert (a + b)[1..] == a[1..] + b;
      PlotAllAppend(width, height, Plot(width, height, buf, a[0]), a[1..], b);
    }
  }

  /** Byte k belongs to the pixel point p is drawn on. */
  predicate Covers(width: nat, height: nat, p: Vector2, k: int)
  {
    InTarget(width, height, p) && PointIndex(width, height, p) <= k < PointIndex(width, height, p) + 4
  }

  /** After drawing a list of points, a byte covered by one of them holds its share of yellow
      and every other byte is what it was. */
  lemma {:induction false} PlotAllEffect(width: nat, height: nat, buf: seq<byte>, points: seq<Vector2>)
    requires SizedFor(buf, width, height)
    ensures forall k :: 0 <= k < |buf| ==>
      PlotAll(width, height, buf, points)[k] ==
        if exists j :: 0 <= j < |points| && Covers(width, height, points[j], k)
        then Channel(Yellow, k % 4) else buf[k]
    decreases |points|
  {
    if points != [] {
      var next := Plot(width, height, buf, points[0]);
      PlotEffect(width, height, buf, points[0]);
      PlotAllEffect(width, height, next, points[1..]);
      forall k | 0 <= k < |buf|
        ensures PlotAll(width, height, buf, points)[k] ==
          if exists j :: 0 <= j < |points| && Covers(width, height, points[j], k)
          then Channel(Yellow, k % 4) else buf[k]
      {
        if exists j :: 0 <= j < |points| && Covers(width, height, points[j], k) {
          var j :| 0 <= j < |points| && Covers(width, height, points[j], k);
          if j > 0 {
            assert points[1..][j - 1] == points[j];
          }
        } else {
          forall j | 0 <= j < |points| - 1
            ensures !Covers(width, height, points[1..][j], k)
          {
            assert points[1..][j] == points[j + 1];
          }
        }
      }
    }
  }

  /** One drawPoint: the covered bytes take yellow, the rest keep their value. */
  lemma PlotEffect(width: nat, height: nat, buf: seq<byte>, p: Vector2)
    requires SizedFor(buf, width, height)
    ensures |Plot(width, height, buf, p)| == |buf|
    ensures forall k :: 0 <= k < |buf| ==>
      Plot(width, height, buf, p)[k] ==
        if Covers(width, height, p, k) then Channel(Yellow, k % 4) else buf[k]
  {
    if InTarget(width, height, p) {
      var i := PointIndex(width, height, p);
      var r := WritePixel(buf, i, Yellow);
      forall k | i <= k < i + 4
        ensures r[k] == Channel(Yellow, k % 4)
      {
        AlignedOffset(i, k - i);
        assert r[i..i + 4][k - i] == r[k];
      }
    }
  }

  /** Byte j of a pixel that starts at a multiple of 4 is channel j. */
  lemma AlignedOffset(i: int, j: int)
    requires i % 4 == 0 && 0 <= j < 4
    ensures (i + j) % 4 == j
  {
    DivModUnique(i + j, 4, i / 4, j);
  }

  /** Drawing points changes only bytes of yellow pixels. */
  lemma PlotAllOnlyYellow(width: nat, height: nat, buf: seq<byte>, points: seq<Vector2>)
    requires SizedFor(buf, width, height)
    ensures var r := PlotAll(width, height, buf, points);
      forall k :: 0 <= k < |buf| ==> r[k] == buf[k] || r[k] == Channel(Yellow, k % 4)
  {
    PlotAllEffect(width, height, buf, points);
  }

  /** project's offset from the centre to the top-left corner: NDC x is scaled by the width,
      NDC y by the height and flipped, and both shifted by half the target. */
  function ScreenPoint(width: nat, height: nat, p: Vector3): Vector2
  {
    Vector2(p.x * width as real + width as real / 2.0,
            -p.y * height as real + height as real / 2.0)
  }

  /** The inverse mapping from a screen point back to NDC x and y (as a Vector2). */
  function ScreenToNdc(width: nat, height: nat, s: Vector2): Vector2
    requires width > 0 && height > 0
  {
    var w, h := width as real, height as real;
    Vector2((s.x - w / 2.0) / w, -(s.y - h / 2.0) / h)
  }

  /** The NDC origin lands at the centre of the target. */
  lemma ScreenCentre(width: nat, height: nat, z: real)
    ensures ScreenPoint(width, height, Vector3(0.0, 0.0, z)) ==
      Vector2(width as real / 2.0, height as real / 2.0)
  {
  }

  /** Screen x grows with NDC x; screen y shrinks as NDC y grows. */
  lemma {:induction false} ScreenMonotone(width: nat, height: nat, p: Vector3, q: Vector3)
    requires width > 0 && height > 0
    ensures p.x < q.x ==> ScreenPoint(width, height, p).x < ScreenPoint(width, height, q).x
    ensures p.y < q.y ==> ScreenPoint(width, height, p).y > ScreenPoint(width, height, q).y
  {
    var w, h := width as real, height as real;
    if p.x < q.x {
      assert (q.x - p.x) * w > 0.0;
    }
    if p.y < q.y {
      assert (q.y - p.y) * h > 0.0;
    }
  }

  /** The screen mapping loses only the depth: its inverse gives back NDC x and y. */
  lemma {:induction false} ScreenRoundTrip(width: nat, height: nat, p: Vector3)
    requires width > 0 && height > 0
    ensures ScreenToNdc(width, height, ScreenPoint(width, height, p)) == Vector2(p.x, p.y)
  {
    var w, h := width as real, height as real;
    var s := ScreenPoint(width, height, p);
    assert s.x - w / 2.0 == p.x * w;
    assert -(s.y - h / 2.0) == p.y * h;
    DivideOut(p.x, w);
    DivideOut(p.y, h);
  }

  lemma DivideOut(a: real, w: real)
    requires w != 0.0
    ensures (a * w) / w == a
  {
  }

  /** The NDC window [-1/2, 1/2) x (-1/2, 1/2] is exactly what passes the culling test. */
  lemma {:induction false} VisibleWindow(width: nat, height: nat, p: Vector3)
    requires width > 0 && height > 0
    ensures InTarget(width, height, ScreenPoint(width, height, p)) <==>
      -0.5 <= p.x < 0.5 && -0.5 < p.y <= 0.5
  {
    var w, h := width as real, height as real;
    var s := ScreenPoint(width, height, p);
    WindowAxis(p.x, w, s.x);
    WindowAxis(-p.y, h, s.y);
  }

  /** One axis of the culling test: a screen coordinate a * w + w / 2 lies in [0, w) exactly
      when a lies in [-1/2, 1/2). */
  lemma {:induction false} WindowAxis(a: real, w: real, s: real)
    requires w > 0.0 && s == a * w + w / 2.0
    ensures 0.0 <= s < w <==> -0.5 <= a < 0.5
  {
    assert s == (a + 0.5) * w;
    ProductSign(a + 0.5, w);
    ProductSign(0.5 - a, w);
    assert w - s == (0.5 - a) * w;
  }

  /** With a positive factor, a product has the sign of the other factor. */
  lemma ProductSign(a: real, w: real)
    requires w > 0.0
    ensures a * w >= 0.0 <==> a >= 0.0
    ensures a * w > 0.0 <==> a > 0.0
  {
    if a < 0.0 {
      assert (-a) * w > 0.0;
    } else if a > 0.0 {
      assert a * w > 0.0;
    }
  }
}
