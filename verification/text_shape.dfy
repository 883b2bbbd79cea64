/** The text generator (the ILoveYou shape): the caption is drawn white on a
    black 512x256 RGBA canvas, the canvas is scanned at stride 2 in both
    axes for pixels whose red byte exceeds 128, and the particles cycle
    through the lit pixels with a small random jitter. Drawing the caption
    is outside the model: the RGBA bytes are an input, absent when the
    canvas has no 2D context. */
module TextShape {
  import opened Outcome
  import opened Shapes

  const CanvasWidth: nat := 512
  const CanvasHeight: nat := 256
  const Channels: nat := 4
  /** A pixel is lit when its red byte is strictly above this. */
  const LitThreshold: int := 128
  /** Canvas pixels per scene unit. */
  const PixelsPerUnit: real := 40.0

  const BitmapSize: nat := CanvasWidth * CanvasHeight * Channels

  type Byte = b: int | 0 <= b < 256

  /** A canvas pixel position, origin top-left. */
  datatype PixelPos = PixelPos(x: nat, y: nat)

  /** A lit pixel in scene coordinates (y grows upward). */
  datatype ScenePoint = ScenePoint(x: real, y: real)

  predicate IsLit(data: seq<Byte>, x: nat, y: nat)
    requires |data| == BitmapSize && x < CanvasWidth && y < CanvasHeight
  {
    data[(y * CanvasWidth + x) * Channels] > LitThreshold
  }

  /** The positions the scan visits: both coordinates even and on the canvas. */
  predicate OnScanGrid(p: PixelPos) {
    p.x % 2 == 0 && p.y % 2 == 0 && p.x < CanvasWidth && p.y < CanvasHeight
  }

  /** Row-major order: earlier row, or same row and further left. */
  predicate RowMajorBefore(p: PixelPos, q: PixelPos) {
    p.y < q.y || (p.y == q.y && p.x < q.x)
  }

  predicate StrictlyRowMajor(ps: seq<PixelPos>) {
    forall i, j :: 0 <= i < j < |ps| ==> RowMajorBefore(ps[i], ps[j])
  }

  /** The lit positions among the first `n` scan columns (x = 0, 2, ..) of row `y`. */
  function LitRow(data: seq<Byte>, y: nat, n: nat): seq<PixelPos>
    requires |data| == BitmapSize && y < CanvasHeight && n <= CanvasWidth / 2
  {
    if n == 0 then []
    else LitRow(data, y, n - 1) + (if IsLit(data, 2 * (n - 1), y) then [PixelPos(2 * (n - 1), y)] else [])
  }

  /** The lit positions among the first `m` scan rows (y = 0, 2, ..). */
  function LitRows(data: seq<Byte>, m: nat): seq<PixelPos>
    requires |data| == BitmapSize && m <= CanvasHeight / 2
  {
    if m == 0 then []
    else LitRows(data, m - 1) + LitRow(data, 2 * (m - 1), CanvasWidth / 2)
  }

  /** All lit positions the scan collects, in the order it collects them. */
  function LitPositions(data: seq<Byte>): seq<PixelPos>
    requires |data| == BitmapSize
  {
    LitRows(data, CanvasHeight / 2)
  }

  /** Canvas pixel to scene point: centred, y flipped, 40 pixels per unit. */
  function ToScene(p: PixelPos): ScenePoint {
    ScenePoint((p.x as real - (CanvasWidth / 2) as real) / PixelsPerUnit,
               ((CanvasHeight / 2) as real - p.y as real) / PixelsPerUnit)
  }

  function Scene(ps: seq<PixelPos>): (sp: seq<ScenePoint>)
    ensures |sp| == |ps|
    ensures forall i :: 0 <= i < |ps| ==> sp[i] == ToScene(ps[i])
  {
    seq(|ps|, i requires 0 <= i < |ps| => ToScene(ps[i]))
  }

  /** The list of valid pixels the scan builds. */
  function LitScene(data: seq<Byte>): seq<ScenePoint>
    requires |data| == BitmapSize
  {
    Scene(LitPositions(data))
  }

  lemma {:induction false} LitRowMembers(data: seq<Byte>, y: nat, n: nat, p: PixelPos)
    requires |data| == BitmapSize && y < CanvasHeight && n <= CanvasWidth / 2
    ensures p in LitRow(data, y, n) <==>
              p.y == y && p.x % 2 == 0 && p.x < 2 * n && IsLit(data, p.x, p.y)
  {
    if n > 0 {
      LitRowMembers(data, y, n - 1, p);
    }
  }

  lemma {:induction false} LitRowOrdered(data: seq<Byte>, y: nat, n: nat)
    requires |data| == BitmapSize && y < CanvasHeight && n <= CanvasWidth / 2
    ensures StrictlyRowMajor(LitRow(data, y, n))
  {
    if n > 0 {
      LitRowOrdered(data, y, n - 1);
      var prefix := LitRow(data, y, n - 1);
      if IsLit(data, 2 * (n - 1), y) {
        forall i | 0 <= i < |prefix|
          ensures RowMajorBefore(prefix[i], PixelPos(2 * (n - 1), y))
        {
          LitRowMembers(data, y, n - 1, prefix[i]);
        }
      }
    }
  }

  lemma {:induction false} LitRowsMembers(data: seq<Byte>, m: nat, p: PixelPos)
    requires |data| == BitmapSize && m <= CanvasHeight / 2
    ensures p in LitRows(data, m) <==>
              OnScanGrid(p) && p.y < 2 * m && IsLit(data, p.x, p.y)
  {
    if m > 0 {
      var y := 2 * (m - 1);
      LitRowsMembers(data, m - 1, p);
      LitRowMembers(data, y, CanvasWidth / 2, p);
      var upper, row := LitRows(data, m - 1), LitRow(data, y, CanvasWidth / 2);
      assert LitRows(data, m) == upper + row;
      assert p in upper + row <==> p in upper || p in row;
      if OnScanGrid(p) && p.y < 2 * m && IsLit(data, p.x, p.y) {
        if p.y != y {
          assert p.y < 2 * (m - 1);
          assert p in upper;
        } else {
          assert p in row;
        }
      }
    }
  }

  lemma {:induction false} LitRowsOrdered(data: seq<Byte>, m: nat)
    requires |data| == BitmapSize && m <= CanvasHeight / 2
    ensures StrictlyRowMajor(LitRows(data, m))
  {
    if m > 0 {
      LitRowsOrdered(data, m - 1);
      var y := 2 * (m - 1);
      var upper, row := LitRows(data, m - 1), LitRow(data, y, CanvasWidth / 2);
      LitRowOrdered(data, y, CanvasWidth / 2);
      forall i, j | 0 <= i < |upper| && 0 <= j < |row|
        ensures RowMajorBefore(upper[i], row[j])
      {
        LitRowsMembers(data, m - 1, upper[i]);
        LitRowMembers(data, y, CanvasWidth / 2, row[j]);
      }
      var all := upper + row;
      forall i, j | 0 <= i < j < |all|
        ensures RowMajorBefore(all[i], all[j])
      {
        if j < |upper| {
        } else if i >= |upper| {
          assert all[i] == row[i - |upper|] && all[j] == row[j - |upper|];
        } else {
          assert all[j] == row[j - |upper|];
        }
      }
    }
  }

  /** The scan collects exactly the lit positions of the stride-2 grid, each
      once, in row-major order. */
  lemma LitPositionsExact(data: seq<Byte>)
    requires |data| == BitmapSize
    ensures forall p :: p in LitPositions(data) <==> OnScanGrid(p) && IsLit(data, p.x, p.y)
    ensures StrictlyRowMajor(LitPositions(data))
  {
    forall p
      ensures p in LitPositions(data) <==> OnScanGrid(p) && IsLit(data, p.x, p.y)
    {
      LitRowsMembers(data, CanvasHeight / 2, p);
    }
    LitRowsOrdered(data, CanvasHeight / 2);
  }

  /** The nested stride-2 scan as the generator writes it, pushing the scene
      coordinates of every lit pixel. */
  method ScanPixels(data: seq<Byte>) returns (pixels: seq<ScenePoint>)
    requires |data| == BitmapSize
    ensures pixels == LitScene(data)
  {
    pixels := [];
    var y: nat := 0;
    while y < CanvasHeight
      invariant y % 2 == 0 && y <= CanvasHeight
      invariant pixels == Scene(LitRows(data, y / 2))
    {
      var x: nat := 0;
      while x < CanvasWidth
        invariant x % 2 == 0 && x <= CanvasWidth
        invariant pixels == Scene(LitRows(data, y / 2) + LitRow(data, y, x / 2))
      {
        if data[(y * CanvasWidth + x) * Channels] > LitThreshold {
          pixels := pixels + [ToScene(PixelPos(x, y))];
        }
        x := x + 2;
      }
      y := y + 2;
    }
  }

  /** Why the generator can fail: with no lit pixel, `validPixels[i % 0]` is
      `undefined` and reading its `.x` throws. */
  datatype TextFault = EmptyPixelList

  /** Point `i` is the pixel `i mod len` jittered by up to 0.05 in x and y,
      with a depth in [-0.25, 0.25); three samples per point. */
  function CyclePixels(count: nat, pixels: seq<ScenePoint>, rnd: seq<real>): (pts: seq<real>)
    requires |pixels| > 0 && |rnd| >= 3 * count
    ensures |pts| == 3 * count
    ensures UnitSamples(rnd) ==> forall i :: 0 <= i < count ==>
              && pixels[i % |pixels|].x - 0.05 <= pts[3 * i] < pixels[i % |pixels|].x + 0.05
              && pixels[i % |pixels|].y - 0.05 <= pts[3 * i + 1] < pixels[i % |pixels|].y + 0.05
              && -0.25 <= pts[3 * i + 2] < 0.25
  {
    var pts := seq(3 * count, k requires 0 <= k < 3 * count =>
      var pixel := pixels[(k / 3) % |pixels|];
      if k % 3 == 0 then pixel.x + Centered(rnd[k], 0.1)
      else if k % 3 == 1 then pixel.y + Centered(rnd[k], 0.1)
      else Centered(rnd[k], 0.5));
    assert UnitSamples(rnd) ==> forall i :: 0 <= i < count ==>
              && pixels[i % |pixels|].x - 0.05 <= pts[3 * i] < pixels[i % |pixels|].x + 0.05
              && pixels[i % |pixels|].y - 0.05 <= pts[3 * i + 1] < pixels[i % |pixels|].y + 0.05
              && -0.25 <= pts[3 * i + 2] < 0.25 by {
      if UnitSamples(rnd) {
        forall i | 0 <= i < count
          ensures pixels[i % |pixels|].x - 0.05 <= pts[3 * i] < pixels[i % |pixels|].x + 0.05
          ensures pixels[i % |pixels|].y - 0.05 <= pts[3 * i + 1] < pixels[i % |pixels|].y + 0.05
          ensures -0.25 <= pts[3 * i + 2] < 0.25
        {
          assert (3 * i) / 3 == i && (3 * i + 1) / 3 == i && (3 * i + 2) / 3 == i;
          assert (3 * i) % 3 == 0 && (3 * i + 1) % 3 == 1 && (3 * i + 2) % 3 == 2;
          assert 0.0 <= rnd[3 * i] < 1.0 && 0.0 <= rnd[3 * i + 1] < 1.0 && 0.0 <= rnd[3 * i + 2] < 1.0;
        }
      }
    }
    pts
  }

  /** The text generator. `bitmap` is `None` when no 2D context is available,
      in which case the buffer stays all zero. */
  function TextPoints(count: nat, bitmap: Option<seq<Byte>>, rnd: seq<real>): (res: Result<seq<real>, TextFault>)
    requires bitmap.Some? ==> |bitmap.value| == BitmapSize
    requires |rnd| >= 3 * count
    ensures res.Failure? <==> bitmap.Some? && count > 0 && |LitPositions(bitmap.value)| == 0
    ensures res.Success? ==> |res.value| == 3 * count
    ensures bitmap.None? ==> forall k :: 0 <= k < |res.value| ==> res.value[k] == 0.0
    ensures bitmap.Some? && res.Success? && UnitSamples(rnd) ==>
              var px := LitScene(bitmap.value);
              forall i :: 0 <= i < count ==>
                && |px| > 0
                && px[i % |px|].x - 0.05 <= res.value[3 * i] < px[i % |px|].x + 0.05
                && px[i % |px|].y - 0.05 <= res.value[3 * i + 1] < px[i % |px|].y + 0.05
                && -0.25 <= res.value[3 * i + 2] < 0.25
  {
    match bitmap
    case None => Success(seq(3 * count, _ => 0.0))
    case Some(data) =>
      var pixels := LitScene(data);
      if |pixels| > 0 then Success(CyclePixels(count, pixels, rnd))
      else if count == 0 then Success([])
      else Failure(EmptyPixelList)
  }
}
