/** `addBrandingToImage` on an already decoded stencil: the canvas it creates
    and the sequence of drawing operations it issues on it. */
module Branding {

  import opened ExportGeometry
  import opened Results

  /** The two paints used: `#ffffff` and `#000000`. */
  datatype Color = White | Black

  /** One call on the 2-D context. Text is always drawn with centred alignment,
      so `centreX` is the horizontal centre of the text. */
  datatype DrawCmd =
    | FillRect(color: Color, x: int, y: int, width: int, height: int)
    | StrokeRect(color: Color, lineWidth: int, x: int, y: int, width: int, height: int)
    | DrawImage(dest: Rect)
    | FillText(color: Color, font: string, text: string, centreX: real, baseline: int)

  /** What the export hands on: the canvas size and what was drawn on it. */
  datatype Export = Export(width: int, height: int, commands: seq<DrawCmd>)

  /** Distance of the frame from each canvas edge, and its line width. */
  const FrameInset: int := 40
  const FrameLineWidth: int := 4

  /** Distances of the two text baselines from the bottom edge. */
  const BrandBaselineLift: int := 90
  const TaglineBaselineLift: int := 50

  const BrandFontSize: int := 40
  const BrandFont: string := "bold 40px \"Syne\", sans-serif"
  const BrandName: string := "EasyInkLab"
  const TaglineFont: string := "300 20px \"Space Grotesk\", sans-serif"
  const Tagline: string := "GENERATED STENCIL \U{2022} SONERKAYA.ART"

  /** Message the export rejects with when no 2-D context can be acquired. */
  const ContextError: string := "Canvas error"

  /** The opaque backdrop: white over the whole canvas, then the black frame. */
  function Backdrop(width: int, height: int): (cmds: seq<DrawCmd>) {
    [ FillRect(White, 0, 0, width, height),
      StrokeRect(Black, FrameLineWidth, FrameInset, FrameInset,
                 width - 2 * FrameInset, height - 2 * FrameInset) ]
  }

  /** The two centred brand lines near the bottom of a canvas. */
  function BrandText(width: int, height: int): (cmds: seq<DrawCmd>) {
    [ FillText(Black, BrandFont, BrandName, width as real / 2.0, height - BrandBaselineLift),
      FillText(Black, TaglineFont, Tagline, width as real / 2.0, height - TaglineBaselineLift) ]
  }

  /** Everything drawn on the export canvas for a `w` × `h` stencil, in order. */
  function DrawCommands(w: nat, h: nat, isTransparent: bool): (cmds: seq<DrawCmd>)
    requires w > 0 && h > 0
    ensures |cmds| == if isTransparent then 3 else 5
    ensures PaintsBackground(cmds) <==> !isTransparent
    ensures StrokesFrame(cmds) <==> !isTransparent
    ensures Images(cmds) == [Placement(w, h)]
    ensures Texts(cmds) == BrandText(CanvasWidth(w), CanvasHeight(h))
    // the stencil is drawn after any backdrop and before the two brand lines
    ensures cmds[|cmds| - 3] == DrawImage(Placement(w, h))
    ensures cmds[|cmds| - 2..] == BrandText(CanvasWidth(w), CanvasHeight(h))
  {
    var width, height := CanvasWidth(w), CanvasHeight(h);
    var backdrop := if isTransparent then [] else Backdrop(width, height);
    var cmds := backdrop + [DrawImage(Placement(w, h))] + BrandText(width, height);
    assert isTransparent ==> cmds[0].DrawImage? && cmds[1].FillText? && cmds[2].FillText?;
    PieceFilters(width, height, Placement(w, h));
    ImagesAppend(backdrop + [DrawImage(Placement(w, h))], BrandText(width, height));
    ImagesAppend(backdrop, [DrawImage(Placement(w, h))]);
    TextsAppend(backdrop + [DrawImage(Placement(w, h))], BrandText(width, height));
    TextsAppend(backdrop, [DrawImage(Placement(w, h))]);
    cmds
  }

  predicate PaintsBackground(cmds: seq<DrawCmd>) {
    exists i :: 0 <= i < |cmds| && cmds[i].FillRect?
  }

  predicate StrokesFrame(cmds: seq<DrawCmd>) {
    exists i :: 0 <= i < |cmds| && cmds[i].StrokeRect?
  }

  /** The destination rectangles of the image draws, in order. */
  function Images(cmds: seq<DrawCmd>): (rects: seq<Rect>) {
    if |cmds| == 0 then []
    else (if cmds[0].DrawImage? then [cmds[0].dest] else []) + Images(cmds[1..])
  }

  /** The text draws, in order. */
  function Texts(cmds: seq<DrawCmd>): (texts: seq<DrawCmd>) {
    if |cmds| == 0 then []
    else (if cmds[0].FillText? then [cmds[0]] else []) + Texts(cmds[1..])
  }

  lemma {:induction false} ImagesAppend(a: seq<DrawCmd>, b: seq<DrawCmd>)
    ensures Images(a + b) == Images(a) + Images(b)
    decreases |a|
  {
    if |a| == 0 {
      assert a + b == b;
    } else {
      var ab := a + b;
      assert ab[0] == a[0];
      assert ab[1..] == a[1..] + b;
      ImagesAppend(a[1..], b);
    }
  }

  lemma {:induction false} TextsAppend(a: seq<DrawCmd>, b: seq<DrawCmd>)
    ensures Texts(a + b) == Texts(a) + Texts(b)
    decreases |a|
  {
    if |a| == 0 {
      assert a + b == b;
    } else {
      var ab := a + b;
      assert ab[0] == a[0];
      assert ab[1..] == a[1..] + b;
      TextsAppend(a[1..], b);
    }
  }

  /** What `Images` and `Texts` pick out of each part of the command list. */
  lemma PieceFilters(width: int, height: int, r: Rect)
    ensures Images(Backdrop(width, height)) == [] && Texts(Backdrop(width, height)) == []
    ensures Images([DrawImage(r)]) == [r] && Texts([DrawImage(r)]) == []
    ensures Images(BrandText(width, height)) == []
    ensures Texts(BrandText(width, height)) == BrandText(width, height)
  {
    var back, text := Backdrop(width, height), BrandText(width, height);
    assert back[1..][1..] == [] && text[1..][1..] == [];
    assert Images(back[1..]) == [] && Texts(back[1..]) == [];
    assert Images(text[1..]) == [] && Texts(text[1..]) == text[1..];
    assert [DrawImage(r)][1..] == [];
  }

  /** `addBrandingToImage` for a decoded `w` × `h` stencil. Fails only when
      the 2-D context is unavailable; otherwise the canvas is at least the
      floor size and large enough for the stencil at its own size plus the
      padding and the footer band, and holds exactly `DrawCommands` for the
      flag. */
  function AddBranding(w: nat, h: nat, isTransparent: bool, contextAvailable: bool): (res: Result<Export>)
    requires w > 0 && h > 0
    ensures !contextAvailable <==> res == Err(ContextError)
    ensures res.Ok? ==> res.value.width >= MinCanvasWidth && res.value.height >= MinCanvasHeight
    ensures res.Ok? ==> res.value.width >= w + 2 * Padding
    ensures res.Ok? ==> res.value.height >= h + 2 * Padding + Footer
    ensures res.Ok? ==> forall c :: c in res.value.commands ==>
      InsideCanvas(c, res.value.width, res.value.height)
    ensures res.Ok? ==> res.value.width == CanvasWidth(w) && res.value.height == CanvasHeight(h)
    ensures res.Ok? ==> res.value.commands == DrawCommands(w, h, isTransparent)
  {
    if !contextAvailable then Err(ContextError)
    else
      CommandsInsideCanvas(w, h, isTransparent);
      Ok(Export(CanvasWidth(w), CanvasHeight(h), DrawCommands(w, h, isTransparent)))
  }

  /** A drawing operation stays on a `width` × `height` canvas; a stroke
      reaches half its line width beyond its rectangle. */
  predicate InsideCanvas(c: DrawCmd, width: int, height: int) {
    match c
    case FillRect(_, x, y, cw, ch) => 0 <= x && 0 <= y && x + cw <= width && y + ch <= height
    case StrokeRect(_, lw, x, y, cw, ch) =>
      0 <= x - lw / 2 && 0 <= y - lw / 2 && x + cw + lw / 2 <= width && y + ch + lw / 2 <= height
    case DrawImage(r) =>
      0.0 <= r.x && 0.0 <= r.y && r.x + r.width <= width as real && r.y + r.height <= height as real
    case FillText(_, _, _, x, y) => 0.0 <= x <= width as real && 0 <= y <= height
  }

  lemma CommandsInsideCanvas(w: nat, h: nat, isTransparent: bool)
    requires w > 0 && h > 0
    ensures forall c :: c in DrawCommands(w, h, isTransparent) ==>
      InsideCanvas(c, CanvasWidth(w), CanvasHeight(h))
  {
    PlacementCentred(w, h);
  }

  /** The opaque export is the transparent one drawn over the white backdrop
      and frame: the flag adds or removes exactly those two operations. */
  lemma OpaqueIsBackdropThenTransparent(w: nat, h: nat)
    requires w > 0 && h > 0
    ensures DrawCommands(w, h, false) ==
      Backdrop(CanvasWidth(w), CanvasHeight(h)) + DrawCommands(w, h, true)
  {
  }

  /** The text draws do not depend on the flag. */
  lemma TextIndependentOfFlag(w: nat, h: nat)
    requires w > 0 && h > 0
    ensures Texts(DrawCommands(w, h, false)) == Texts(DrawCommands(w, h, true))
    ensures forall t :: t in Texts(DrawCommands(w, h, true)) ==>
      t.centreX == CanvasWidth(w) as real / 2.0 && t.color == Black
  {
  }

  /** The stencil lies strictly inside the frame's inner edge and its bottom
      edge is clear of the brand line's text height above its baseline. */
  lemma StencilClearOfFrameAndText(w: nat, h: nat)
    requires w > 0 && h > 0
    ensures var r := Placement(w, h);
      var width, height := CanvasWidth(w), CanvasHeight(h);
      && (FrameInset + FrameLineWidth / 2) as real < r.x
      && r.x + r.width < (width - FrameInset - FrameLineWidth / 2) as real
      && (FrameInset + FrameLineWidth / 2) as real < r.y
      && r.y + r.height < (height - BrandBaselineLift - BrandFontSize) as real
  {
    PlacementCentred(w, h);
  }

  /** A 1300 × 1700 opaque stencil: a 1500 × 2050 canvas with a white fill,
      the frame at inset 40, the stencil unscaled at (100, 100), and the two
      brand lines centred at x = 750. */
  lemma LargeOpaqueExport()
    ensures AddBranding(1300, 1700, false, true) == Ok(Export(1500, 2050, [
      FillRect(White, 0, 0, 1500, 2050),
      StrokeRect(Black, 4, 40, 40, 1420, 1970),
      DrawImage(Rect(100.0, 100.0, 1300.0, 1700.0)),
      FillText(Black, BrandFont, BrandName, 750.0, 1960),
      FillText(Black, TaglineFont, Tagline, 750.0, 2000)]))
  {
    LargeStencilGeometry();
    var cmds := DrawCommands(1300, 1700, false);
    assert cmds[0] == FillRect(White, 0, 0, 1500, 2050);
    assert cmds[1] == StrokeRect(Black, 4, 40, 40, 1420, 1970);
    assert cmds[2] == DrawImage(Rect(100.0, 100.0, 1300.0, 1700.0));
    assert cmds[3] == FillText(Black, BrandFont, BrandName, 750.0, 1960);
    assert cmds[4] == FillText(Black, TaglineFont, Tagline, 750.0, 2000);
    assert cmds == [cmds[0], cmds[1], cmds[2], cmds[3], cmds[4]];
  }
}
