# EasyInkLab image post-processing, in Dafny

EasyInkLab turns a photographed tattoo into a black-on-white line-art stencil
and exports it. This project models the two image transforms that follow
stencil generation, both in `easyinklab/utils/imageUtils.ts`:

- **The transparency keyer** (`createTransparentPNG`). It walks the canvas's
  flat RGBA byte buffer four bytes at a time. For every pixel whose mean
  brightness `(r+g+b)/3` is strictly above 200, it zeroes the alpha byte.
  Nothing else changes.
- **The branded export** (`addBrandingToImage`). It sizes a canvas from the
  stencil: 100 px padding on every side, a 150 px footer band, and a floor of
  1200 × 1600. When the background is not transparent, it paints a white
  backdrop and a 4 px black frame inset 40 px. It then draws the stencil
  scaled by the smaller of the two fit ratios, centred. Last come two centred
  brand lines, 90 and 50 px above the bottom edge. The canvas height thus
  adds `2 × 100 + 150 = 350` to the stencil height before the floor
  applies (imageUtils.ts:68).

Layout:

- `results.dfy`, module `Results`: the `Ok`/`Err` outcome of a canvas
  operation.
- `raster.dfy`, module `Raster`: pixels, decoded images, and the
  `ImageData` buffer layout (pixel `i` sits at bytes `4i..4i+3`), with both
  round trips between pixels and bytes.
- `lumakey.dfy`, module `LumaKey`: the per-pixel keying rule, the
  buffer-walking loop (`KeyBuffer`), and the whole keyer
  (`CreateTransparent`).
- `geometry.dfy`, module `ExportGeometry`: canvas size, available region,
  scale and placement. Sizes are integers. The scale and the drawn rectangle
  are exact rationals (`real`).
- `branding.dfy`, module `Branding`: the draw operations as a
  `seq<DrawCmd>` (`FillRect`, `StrokeRect`, `DrawImage`, `FillText`), and the
  whole export (`AddBranding`).

The brightness test is modelled as the exact rational `(r+g+b)/3 > 200`.
`LumaKey.BrightIffSumAbove600` shows this is the integer test
`r+g+b > 600`. JavaScript's double division agrees with it. The sum is an
integer of at most 765. Division is correctly rounded and monotone, and 200
is representable. So `x/3 > 200` holds in doubles exactly when `x > 600`.

## Model

| member | source | states |
|---|---|---|
| Raster.FlattenUnflatten | easyinklab/utils/imageUtils.ts:31-46 | Reading the canvas buffer as pixels and writing them back reproduces the buffer byte for byte |
| Raster.UnflattenFlatten | easyinklab/utils/imageUtils.ts:31-32 | Writing pixels into an `ImageData`-style buffer and reading them back gives the same pixels |
| Raster.FlattenLayout | easyinklab/utils/imageUtils.ts:36-42 | Pixel `i` occupies buffer bytes `4i` (red), `4i+1` (green), `4i+2` (blue), `4i+3` (alpha) |
| Raster.ImageBufferLength | easyinklab/utils/imageUtils.ts:23-31 | The buffer of a `width × height` canvas holds `4 · width · height` bytes |
| LumaKey.BrightIffSumAbove600 | easyinklab/utils/imageUtils.ts:39-41 | Brightness above 200 is exactly `r+g+b > 600`; a pixel whose brightness is exactly 200 is not keyed |
| LumaKey.KeyPixel | easyinklab/utils/imageUtils.ts:36-43 | Keying a pixel keeps red, green and blue; zeroes alpha when it is bright; leaves any other pixel unchanged |
| LumaKey.KeyBuffer | easyinklab/utils/imageUtils.ts:35-44 | The four-bytes-at-a-time loop keeps the buffer length and leaves exactly the buffer of the image with every pixel keyed |
| LumaKey.KeyBytesMeaning | easyinklab/utils/imageUtils.ts:35-44 | In the keyed buffer every red, green and blue byte is unchanged; an alpha byte is 0 when its pixel's `r+g+b > 600` and unchanged otherwise |
| LumaKey.KeyPixelsMeaning | easyinklab/utils/imageUtils.ts:36-43 | A keyed pixel has alpha 0 iff it was bright or already transparent; it is unchanged iff it was not bright or already transparent; its colour channels never change |
| LumaKey.KeyThroughBuffer | easyinklab/utils/imageUtils.ts:31-46 | Keying an image through its byte buffer is the same as keying each of its pixels |
| LumaKey.CreateTransparent | easyinklab/utils/imageUtils.ts:22-47 | Rejects with "Canvas context error" exactly when no context is available; otherwise the result, the buffer handed to `putImageData` read as pixels, has the input's width and height and each pixel is the keyed input pixel |
| LumaKey.KeyPixelsIdempotent | easyinklab/utils/imageUtils.ts:35-44 | Keying an already keyed image changes nothing |
| LumaKey.KeyBytesIdempotent | easyinklab/utils/imageUtils.ts:35-44 | Running the keying loop over its own output leaves the buffer as it is |
| LumaKey.SquareStencilKeyed | easyinklab/utils/imageUtils.ts:35-44 | A 400 × 500 white stencil with a centred 10 × 10 black square keys to alpha 0 everywhere except the square, which stays at 255 |
| ExportGeometry.CanvasWidth | easyinklab/utils/imageUtils.ts:65-67 | The canvas is at least 1200 wide and at least the stencil width plus 200, and equals one of the two |
| ExportGeometry.CanvasHeight | easyinklab/utils/imageUtils.ts:65-68 | The canvas is at least 1600 high and at least the stencil height plus 350, and equals one of the two |
| ExportGeometry.AvailableWidth | easyinklab/utils/imageUtils.ts:92 | The canvas width less the side padding is at least the stencil width and at least 1000 |
| ExportGeometry.AvailableHeight | easyinklab/utils/imageUtils.ts:90 | The region above the footer, less top and bottom padding, is at least the stencil height and at least 1250 |
| ExportGeometry.Scale | easyinklab/utils/imageUtils.ts:91-94 | The scale is at least 1; the scaled stencil fits the available width and height, and fills at least one of them exactly |
| ExportGeometry.Placement | easyinklab/utils/imageUtils.ts:90-99 | The drawn rectangle keeps the stencil's aspect ratio, is never smaller than the stencil, is never cropped and fills the region along one axis |
| ExportGeometry.PlacementCentred | easyinklab/utils/imageUtils.ts:96-99 | The stencil is centred horizontally on the canvas and vertically in the band above the footer, inside the padding on every side |
| ExportGeometry.ScaleIsOneIff | easyinklab/utils/imageUtils.ts:91-94 | The stencil is drawn at its own size iff it is at least 1000 wide or at least 1250 high; in particular when it exceeds both floors |
| ExportGeometry.LargeStencilGeometry | easyinklab/utils/imageUtils.ts:65-99 | A 1300 × 1700 stencil gets a 1500 × 2050 canvas and is drawn unscaled at (100, 100) |
| Branding.DrawCommands | easyinklab/utils/imageUtils.ts:75-114 | The background fill and the frame stroke are drawn iff the export is not transparent; exactly one image draw, at the placement; the two brand lines always; the image is drawn after any backdrop and immediately before the two brand lines, which come last |
| Branding.OpaqueIsBackdropThenTransparent | easyinklab/utils/imageUtils.ts:75-86 | The opaque draw list is the white fill and the frame stroke at `(40, 40, width-80, height-80)`, followed by the transparent draw list |
| Branding.TextIndependentOfFlag | easyinklab/utils/imageUtils.ts:103-114 | The text draws are the same with and without transparency, black and centred on the canvas |
| Branding.CommandsInsideCanvas | easyinklab/utils/imageUtils.ts:76-114 | Every fill, stroke (with its line width), image and text anchor lies on the canvas |
| Branding.StencilClearOfFrameAndText | easyinklab/utils/imageUtils.ts:82-110 | The stencil lies strictly inside the frame's inner edge and ends above the brand line's 40 px text height |
| Branding.AddBranding | easyinklab/utils/imageUtils.ts:61-116 | Rejects with "Canvas error" exactly when no context is available; otherwise the canvas is exactly `CanvasWidth × CanvasHeight` (at least 1200 × 1600, and fitting the stencil at its own size plus padding and footer), its drawing is exactly `DrawCommands` for the flag, and all of it stays on the canvas |
| Branding.LargeOpaqueExport | easyinklab/utils/imageUtils.ts:65-114 | An opaque 1300 × 1700 export is a 1500 × 2050 canvas: white fill, frame `(40, 40, 1420, 1970)`, stencil at `(100, 100, 1300, 1700)`, brand lines at x = 750, baselines 1960 and 2000 |

## Left out

- `fileToBase64` (imageUtils.ts:4-11) is file-reading I/O.
- `downloadImage` (imageUtils.ts:125-132) and `printImage` (imageUtils.ts:137-221) are DOM and window side effects that build an HTML page.
- Image decoding (`new Image`, `crossOrigin`) and PNG encoding (`toDataURL`) are browser codecs. The model starts from decoded pixels and ends at the pixel grid or the draw list. A decode failure (`img.onerror`) is not modelled.
- Rasterisation is not modelled. That covers how `drawImage` resamples, font loading and text metrics. Only the draw operations and their coordinates are modelled.
- LumaKey.CreateTransparent: the model assumes that drawing the image at (0, 0) and reading it back with `getImageData` gives the decoded pixels exactly. Premultiplied-alpha rounding in the browser is not modelled. The result is the keyed `ImageData` buffer passed to `putImageData` (imageUtils.ts:46). A premultiplied canvas drops the colour of alpha-0 pixels, so keyed pixels reach the PNG as (0, 0, 0, 0), and the red, green and blue the model keeps are not what `toDataURL` encodes for them.
- LumaKey.CreateTransparent: requires an image at least 1 × 1. For a zero side, `getImageData` (imageUtils.ts:31) throws an `IndexSizeError` inside the load handler, so the promise never settles. A decoded PNG or JPEG cannot have a zero side.
- LumaKey.KeyBuffer: the buffer is a value that the loop updates, not the shared `ImageData` array. That array is local to the call, so nothing outside can see the difference.
- ExportGeometry.Scale: requires a stencil at least 1 × 1. For a 0 × 0 image both ratios are 1000/0 and 1250/0, so the scale is Infinity and drawWidth, drawHeight, drawX and drawY are NaN. For an image with one zero side, `Math.min` picks the finite ratio of the other side, and the export resolves with a zero-extent image draw. Neither case is modelled. `Placement`, `PlacementCentred`, `DrawCommands` and `AddBranding` inherit this requirement.
- ExportGeometry.Placement: coordinates are exact rationals. JavaScript doubles may round `drawWidth`, `drawX` and similar values by an ulp, so "fills one axis exactly" holds up to that rounding.
- Branding.AddBranding: the `isTransparent` parameter's default of `false` is a call-site convenience. The model always takes the flag explicitly.
- The asynchronous promise wrapping is not modelled. Neither are the React components, the generative-image service stub or the type declarations. They only choose which image and flag reach the two transforms.
