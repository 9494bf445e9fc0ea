/** The geometry of the branded export: the canvas size, the uniform scale
    and the rectangle the stencil is drawn into. Canvas sizes are integers;
    the scale and the drawn rectangle are exact rationals. */
module ExportGeometry {

  /** Margin kept free on every side of the stencil. */
  const Padding: int := 100
  /** Band kept free at the bottom of the canvas for the brand text. */
  const Footer: int := 150
  /** The export is never smaller than this. */
  const MinCanvasWidth: int := 1200
  const MinCanvasHeight: int := 1600

  /** A rectangle on the canvas: top-left corner and extent. */
  datatype Rect = Rect(x: real, y: real, width: real, height: real)

  function Max(a: int, b: int): (m: int)
    ensures m >= a && m >= b && (m == a || m == b)
  {
    if a >= b then a else b
  }

  function Min(a: real, b: real): (m: real)
    ensures m <= a && m <= b && (m == a || m == b)
  {
    if a <= b then a else b
  }

  /** Width of the export canvas for a stencil `w` pixels wide. */
  function CanvasWidth(w: nat): (width: int)
    ensures width >= MinCanvasWidth && width >= w + 2 * Padding
    ensures width == MinCanvasWidth || width == w + 2 * Padding
  {
    Max(w + Padding * 2, MinCanvasWidth)
  }

  /** Height of the export canvas for a stencil `h` pixels high. */
  function CanvasHeight(h: nat): (height: int)
    ensures height >= MinCanvasHeight && height >= h + 2 * Padding + Footer
    ensures height == MinCanvasHeight || height == h + 2 * Padding + Footer
  {
    Max(h + Padding * 2 + Footer, MinCanvasHeight)
  }

  /** Width of the region the stencil may occupy: the canvas less the side padding. */
  function AvailableWidth(w: nat): (aw: int)
    ensures aw >= w && aw >= MinCanvasWidth - 2 * Padding
    ensures aw + 2 * Padding == CanvasWidth(w)
  {
    CanvasWidth(w) - Padding * 2
  }

  /** Height of the region the stencil may occupy: the canvas less the footer
      band and the top and bottom padding. */
  function AvailableHeight(h: nat): (ah: int)
    ensures ah >= h && ah >= MinCanvasHeight - Footer - 2 * Padding
    ensures Padding + ah + Padding + Footer == CanvasHeight(h)
  {
    CanvasHeight(h) - Footer - Padding * 2
  }

  /** The uniform scale that fits the stencil into the available region:
      the smaller of the horizontal and vertical ratios. */
  function Scale(w: nat, h: nat): (s: real)
    requires w > 0 && h > 0
    ensures s >= 1.0
    ensures w as real * s <= AvailableWidth(w) as real
    ensures h as real * s <= AvailableHeight(h) as real
    ensures w as real * s == AvailableWidth(w) as real || h as real * s == AvailableHeight(h) as real
  {
    var sx := AvailableWidth(w) as real / w as real;
    var sy := AvailableHeight(h) as real / h as real;
    RatioFacts(AvailableWidth(w), w);
    RatioFacts(AvailableHeight(h), h);
    if sx <= sy then ScaledBelow(h, sx, sy); Min(sx, sy)
    else ScaledBelow(w, sy, sx); Min(sx, sy)
  }

  /** `n / d` scaled back by `d` is `n`, and it is at least 1 when `n >= d`. */
  lemma RatioFacts(n: int, d: int)
    requires 0 < d <= n
    ensures d as real * (n as real / d as real) == n as real
    ensures n as real / d as real >= 1.0
  {
  }

  /** Scaling a positive length by the smaller of two factors gives the smaller length. */
  lemma ScaledBelow(d: int, s: real, t: real)
    requires d > 0
    requires s <= t
    ensures d as real * s <= d as real * t
  {
  }

  /** Where the stencil is drawn: scaled by `Scale`, centred horizontally on
      the canvas and vertically in the band between the top padding and the
      footer. The drawn size keeps the stencil's aspect ratio, is never
      smaller than the stencil, fits the available region and fills it along
      at least one axis. */
  function Placement(w: nat, h: nat): (r: Rect)
    requires w > 0 && h > 0
    ensures r.width * h as real == r.height * w as real
    ensures w as real <= r.width <= AvailableWidth(w) as real
    ensures h as real <= r.height <= AvailableHeight(h) as real
    ensures r.width == AvailableWidth(w) as real || r.height == AvailableHeight(h) as real
  {
    var s := Scale(w, h);
    var drawWidth := w as real * s;
    var drawHeight := h as real * s;
    ScaledSize(w, h, s, AvailableWidth(w), AvailableHeight(h));
    Rect((CanvasWidth(w) as real - drawWidth) / 2.0,
         Padding as real + (AvailableHeight(h) as real - drawHeight) / 2.0,
         drawWidth, drawHeight)
  }

  /** A stencil scaled by a fitting factor `s >= 1`: the scaled size keeps
      the aspect ratio, is at least the original size and at most the region. */
  lemma ScaledSize(w: int, h: int, s: real, aw: int, ah: int)
    requires 0 < w <= aw && 0 < h <= ah && s >= 1.0
    requires w as real * s <= aw as real && h as real * s <= ah as real
    requires w as real * s == aw as real || h as real * s == ah as real
    ensures (w as real * s) * h as real == (h as real * s) * w as real
    ensures w as real <= w as real * s <= aw as real
    ensures h as real <= h as real * s <= ah as real
    ensures w as real * s == aw as real || h as real * s == ah as real
  {
    ScaledBelow(w, 1.0, s);
    ScaledBelow(h, 1.0, s);
  }

  /** The drawn stencil is centred horizontally on the canvas and vertically
      in the band above the footer, so it lies inside the padding on every
      side and entirely above the footer band. */
  lemma PlacementCentred(w: nat, h: nat)
    requires w > 0 && h > 0
    ensures Placement(w, h).x + Placement(w, h).width / 2.0 == CanvasWidth(w) as real / 2.0
    ensures Placement(w, h).y + Placement(w, h).height / 2.0 ==
      Padding as real + AvailableHeight(h) as real / 2.0
    ensures Padding as real <= Placement(w, h).x
    ensures Placement(w, h).x + Placement(w, h).width <= (CanvasWidth(w) - Padding) as real
    ensures Padding as real <= Placement(w, h).y
    ensures Placement(w, h).y + Placement(w, h).height <= (CanvasHeight(h) - Footer - Padding) as real
  {
  }

  /** The horizontal ratio is exactly 1 when the stencil is at least as wide
      as the floor's available width, and above 1 otherwise. */
  lemma RatioIsOneIff(n: int, d: int)
    requires 0 < d <= n
    ensures n as real / d as real == 1.0 <==> n == d
  {
    if n as real / d as real == 1.0 {
      RatioFacts(n, d);
    }
  }

  /** The stencil is drawn at its own size exactly when it already reaches
      one of the floors: at least 1000 wide or at least 1250 high. In
      particular a stencil past both floors is never rescaled. */
  lemma ScaleIsOneIff(w: nat, h: nat)
    requires w > 0 && h > 0
    ensures Scale(w, h) == 1.0 <==> w >= MinCanvasWidth - 2 * Padding || h >= MinCanvasHeight - Footer - 2 * Padding
  {
    RatioFacts(AvailableWidth(w), w);
    RatioFacts(AvailableHeight(h), h);
    RatioIsOneIff(AvailableWidth(w), w);
    RatioIsOneIff(AvailableHeight(h), h);
  }

  /** A 1300 × 1700 stencil gets a 1500 × 2050 canvas and is drawn unscaled
      at the top-left corner of the padded region. */
  lemma LargeStencilGeometry()
    ensures CanvasWidth(1300) == 1500 && CanvasHeight(1700) == 2050
    ensures Scale(1300, 1700) == 1.0
    ensures Placement(1300, 1700) == Rect(100.0, 100.0, 1300.0, 1700.0)
  {
    ScaleIsOneIff(1300, 1700);
  }
}
