/** The two coordinate conversions of the annotation manager, over exact reals:
    viewport pixels to normalized device coordinates (NDC) for picking, and
    projected NDC back to CSS pixels for placing a panel. */
module Projection {

  /** A point in the plane: a pointer position, or a projected point in NDC. */
  datatype Vec2 = Vec2(x: real, y: real)

  /** A rounded screen offset, as written to a panel's `left` and `top`. */
  datatype Pixel = Pixel(left: int, top: int)

  /** JavaScript's `Math.round`: the nearest integer, a half rounded up. */
  function Round(v: real): (n: int)
    ensures v - 0.5 < n as real <= v + 0.5
  {
    (v + 0.5).Floor
  }

  /** An integer rounds to itself, and rounding never inverts an order. */
  lemma RoundFacts(n: int, a: real, b: real)
    ensures Round(n as real) == n
    ensures a <= b ==> Round(a) <= Round(b)
  {
  }

  /** Scaling by a positive factor keeps the order of two reals. */
  lemma ScaleOrder(a: real, b: real, w: real)
    requires w > 0.0
    ensures a <= b <==> a * w <= b * w
    ensures a < b <==> a * w < b * w
  {
  }

  /** Dividing by a positive factor keeps the order of two reals. */
  lemma DivOrder(a: real, b: real, w: real)
    requires w > 0.0
    ensures a <= b <==> a / w <= b / w
    ensures a < b <==> a / w < b / w
  {
  }

  /** Horizontal pointer normalisation: the viewport's width onto [-1, 1]. */
  function NormalizeX(clientX: real, width: real): (x: real)
    requires width > 0.0
    ensures -1.0 <= x <= 1.0 <==> 0.0 <= clientX <= width
  {
    var q := clientX / width;
    DivOrder(0.0, clientX, width);
    DivOrder(clientX, width, width);
    q * 2.0 - 1.0
  }

  /** Vertical pointer normalisation: the viewport's height onto [1, -1],
      upside down because screen rows grow downwards. */
  function NormalizeY(clientY: real, height: real): (y: real)
    requires height > 0.0
    ensures -1.0 <= y <= 1.0 <==> 0.0 <= clientY <= height
  {
    var q := clientY / height;
    DivOrder(0.0, clientY, height);
    DivOrder(clientY, height, height);
    -q * 2.0 + 1.0
  }

  /** The pointer position both pointer handlers store before picking. */
  function Normalize(client: Vec2, width: real, height: real): (ndc: Vec2)
    requires width > 0.0 && height > 0.0
    ensures (-1.0 <= ndc.x <= 1.0 && -1.0 <= ndc.y <= 1.0)
        <==> (0.0 <= client.x <= width && 0.0 <= client.y <= height)
  {
    Vec2(NormalizeX(client.x, width), NormalizeY(client.y, height))
  }

  /** The corners and the centre of the viewport land on the corners and
      the centre of the NDC square. */
  lemma NormalizeCorners(width: real, height: real)
    requires width > 0.0 && height > 0.0
    ensures Normalize(Vec2(0.0, 0.0), width, height) == Vec2(-1.0, 1.0)
    ensures Normalize(Vec2(width, height), width, height) == Vec2(1.0, -1.0)
    ensures Normalize(Vec2(width / 2.0, height / 2.0), width, height) == Vec2(0.0, 0.0)
  {
    assert width / width == 1.0 && height / height == 1.0;
    assert width / 2.0 / width == 0.5 && height / 2.0 / height == 0.5;
  }

  /** Normalisation is strictly increasing in x and strictly decreasing in y. */
  lemma NormalizeMonotone(a: real, b: real, size: real)
    requires size > 0.0 && a < b
    ensures NormalizeX(a, size) < NormalizeX(b, size)
    ensures NormalizeY(a, size) > NormalizeY(b, size)
  {
    DivOrder(a, b, size);
  }

  /** The unrounded horizontal CSS offset of an NDC abscissa on a surface
      `cssWidth` wide. */
  function ScreenX(ndcX: real, cssWidth: real): (sx: real)
    ensures cssWidth > 0.0 ==> (0.0 <= sx <= cssWidth <==> -1.0 <= ndcX <= 1.0)
  {
    var t := 0.5 + ndcX / 2.0;
    assert cssWidth > 0.0 ==> (0.0 <= t * cssWidth <= cssWidth <==> 0.0 <= t <= 1.0) by {
      if cssWidth > 0.0 {
        ScaleOrder(0.0, t, cssWidth);
        ScaleOrder(t, 1.0, cssWidth);
      }
    }
    t * cssWidth
  }

  /** The unrounded vertical CSS offset of an NDC ordinate on a surface
      `cssHeight` high; NDC y points up, CSS top points down. */
  function ScreenY(ndcY: real, cssHeight: real): (sy: real)
    ensures cssHeight > 0.0 ==> (0.0 <= sy <= cssHeight <==> -1.0 <= ndcY <= 1.0)
  {
    var t := 0.5 - ndcY / 2.0;
    assert cssHeight > 0.0 ==> (0.0 <= t * cssHeight <= cssHeight <==> 0.0 <= t <= 1.0) by {
      if cssHeight > 0.0 {
        ScaleOrder(0.0, t, cssHeight);
        ScaleOrder(t, 1.0, cssHeight);
      }
    }
    t * cssHeight
  }

  /** A canvas dimension in device pixels, in CSS pixels. */
  function CssSize(devicePixels: nat, ratio: real): (s: real)
    requires ratio > 0.0
    ensures s >= 0.0 && s * ratio == devicePixels as real
  {
    devicePixels as real / ratio
  }

  /** The panel offset of a projected point: the canvas is `canvasWidth` by
      `canvasHeight` device pixels at `ratio` device pixels per CSS pixel. */
  function ToPixel(ndc: Vec2, canvasWidth: nat, canvasHeight: nat, ratio: real): (p: Pixel)
    requires ratio > 0.0
    ensures -0.5 < p.left as real - ScreenX(ndc.x, CssSize(canvasWidth, ratio)) <= 0.5
    ensures -0.5 < p.top as real - ScreenY(ndc.y, CssSize(canvasHeight, ratio)) <= 0.5
  {
    Pixel(Round(ScreenX(ndc.x, CssSize(canvasWidth, ratio))),
          Round(ScreenY(ndc.y, CssSize(canvasHeight, ratio))))
  }

  /** The NDC origin (a marker straight ahead of the camera) is placed at
      the rounded centre of the canvas. */
  lemma ToPixelCentre(canvasWidth: nat, canvasHeight: nat, ratio: real)
    requires ratio > 0.0
    ensures ToPixel(Vec2(0.0, 0.0), canvasWidth, canvasHeight, ratio)
         == Pixel(Round(CssSize(canvasWidth, ratio) / 2.0), Round(CssSize(canvasHeight, ratio) / 2.0))
  {
  }

  /** The NDC corners are placed at the canvas corners: x -1 and 1 at left 0
      and the rounded CSS width, y 1 and -1 at top 0 and the rounded CSS height. */
  lemma ToPixelCorners(canvasWidth: nat, canvasHeight: nat, ratio: real)
    requires ratio > 0.0
    ensures ToPixel(Vec2(-1.0, 1.0), canvasWidth, canvasHeight, ratio) == Pixel(0, 0)
    ensures ToPixel(Vec2(1.0, -1.0), canvasWidth, canvasHeight, ratio)
         == Pixel(Round(CssSize(canvasWidth, ratio)), Round(CssSize(canvasHeight, ratio)))
  {
  }

  /** Over exact reals, normalising a pointer position and placing it back on
      a surface of the viewport's size returns the position, and the other way
      round. */
  lemma PixelNdcRoundTrip(client: Vec2, ndc: Vec2, width: real, height: real)
    requires width > 0.0 && height > 0.0
    ensures ScreenX(NormalizeX(client.x, width), width) == client.x
    ensures ScreenY(NormalizeY(client.y, height), height) == client.y
    ensures NormalizeX(ScreenX(ndc.x, width), width) == ndc.x
    ensures NormalizeY(ScreenY(ndc.y, height), height) == ndc.y
  {
  }
}
