/** The transparency keyer: turns near-white pixels of a white-background
    stencil fully transparent by a hard brightness threshold. */
module LumaKey {

  import opened Raster
  import opened Results

  /** Pixels strictly brighter than this (on the 0..255 scale) are keyed out. */
  const BrightnessThreshold: real := 200.0

  /** Message the keyer rejects with when no 2-D context can be acquired. */
  const ContextError: string := "Canvas context error"

  /** The mean of the red, green and blue channels, computed exactly. */
  function Brightness(p: Pixel): (mean: real) {
    (p.r + p.g + p.b) as real / 3.0
  }

  predicate IsBright(p: Pixel) {
    Brightness(p) > BrightnessThreshold
  }

  /** The threshold on the mean is the integer test `r + g + b > 600`; a pixel
      whose mean is exactly 200 is not bright. */
  lemma BrightIffSumAbove600(p: Pixel)
    ensures IsBright(p) <==> p.r + p.g + p.b > 600
    ensures Brightness(p) == BrightnessThreshold ==> !IsBright(p)
  {
  }

  /** The keying of one pixel. */
  function KeyPixel(p: Pixel): (q: Pixel)
    ensures q.r == p.r && q.g == p.g && q.b == p.b
    ensures IsBright(p) ==> q.a == 0
    ensures !IsBright(p) ==> q == p
  {
    if IsBright(p) then p.(a := 0) else p
  }

  /** Keys every pixel independently. */
  function KeyPixels(px: seq<Pixel>): (out: seq<Pixel>)
    ensures |out| == |px|
  {
    seq(|px|, i requires 0 <= i < |px| => KeyPixel(px[i]))
  }

  /** What the keying loop leaves in the canvas buffer: the buffer read as
      pixels, each pixel keyed, written back. */
  function KeyBytes(data: seq<byte>): (out: seq<byte>)
    requires |data| % ChannelCount == 0
    ensures |out| == |data|
  {
    Flatten(KeyPixels(Unflatten(data)))
  }

  /** Byte `k` of a buffer after keying: an alpha byte is zeroed when the
      three bytes before it make a bright pixel; every other byte is kept. */
  function KeyedByte(data: seq<byte>, k: int): (v: byte)
    requires |data| % ChannelCount == 0
    requires 0 <= k < |data|
  {
    if k % 4 == 3 && IsBright(Pixel(data[k - 3], data[k - 2], data[k - 1], data[k])) then 0
    else data[k]
  }

  /** `KeyedByte` on the four bytes of the pixel starting at index `i`. */
  lemma KeyedPixelBytes(data: seq<byte>, i: int)
    requires |data| % ChannelCount == 0
    requires 0 <= i < |data| && i % 4 == 0
    ensures i + 3 < |data|
    ensures KeyedByte(data, i) == data[i]
    ensures KeyedByte(data, i + 1) == data[i + 1]
    ensures KeyedByte(data, i + 2) == data[i + 2]
    ensures KeyedByte(data, i + 3) ==
      (if (data[i] as int + data[i + 1] + data[i + 2]) as real / 3.0 > 200.0 then 0 else data[i + 3])
  {
    assert KeyedByte(data, i + 1) == data[i + 1] by { assert (i + 1) % 4 == 1; }
    assert KeyedByte(data, i + 2) == data[i + 2] by { assert (i + 2) % 4 == 2; }
    assert (i + 3) % 4 == 3;
  }

  /** The buffer-level reference agrees with the pixel-level one byte for byte. */
  lemma KeyBytesAt(data: seq<byte>, k: int)
    requires |data| % ChannelCount == 0
    requires 0 <= k < |data|
    ensures KeyBytes(data)[k] == KeyedByte(data, k)
  {
    var px := Unflatten(data);
    var i := k / 4;
    assert k == 4 * i + k % 4;
    FlattenLayout(KeyPixels(px), i);
  }

  /** The loop of `createTransparentPNG`: walks the buffer four bytes at a
      time and zeroes the alpha byte of every pixel whose brightness exceeds
      200. The buffer is a value here, so the caller's copy is not changed. */
  method KeyBuffer(data: seq<byte>) returns (out: seq<byte>)
    requires |data| % ChannelCount == 0
    ensures |out| == |data|
    ensures out == KeyBytes(data)
  {
    var buf := data;
    var i := 0;
    while i < |buf|
      invariant 0 <= i <= |buf| == |data|
      invariant i % 4 == 0
      invariant forall k :: i <= k < |data| ==> buf[k] == data[k]
      invariant forall k :: 0 <= k < i ==> buf[k] == KeyedByte(data, k)
    {
      var r: int, g: int, b: int := buf[i], buf[i + 1], buf[i + 2];
      var brightness := (r + g + b) as real / 3.0;
      if brightness > 200.0 {
        buf := buf[i + 3 := 0];
      }
      KeyedPixelBytes(data, i);
      i := i + 4;
    }
    out := buf;
    KeyedBufferIsKeyBytes(data, out);
  }

  /** A buffer that agrees with `KeyedByte` everywhere is the keyed image. */
  lemma KeyedBufferIsKeyBytes(data: seq<byte>, out: seq<byte>)
    requires |data| % ChannelCount == 0
    requires |out| == |data|
    requires forall k :: 0 <= k < |data| ==> out[k] == KeyedByte(data, k)
    ensures out == KeyBytes(data)
  {
    forall k | 0 <= k < |data|
      ensures out[k] == KeyBytes(data)[k]
    {
      KeyBytesAt(data, k);
    }
  }

  /** `KeyedByte` in terms of the integer threshold. */
  lemma KeyedByteMeaning(data: seq<byte>, k: int)
    requires |data| % ChannelCount == 0
    requires 0 <= k < |data|
    ensures k % 4 != 3 ==> KeyedByte(data, k) == data[k]
    ensures k % 4 == 3 ==>
      KeyedByte(data, k) == (if data[k - 3] as int + data[k - 2] + data[k - 1] > 600 then 0 else data[k])
  {
    if k % 4 == 3 {
      BrightIffSumAbove600(Pixel(data[k - 3], data[k - 2], data[k - 1], data[k]));
    }
  }

  /** The keyed buffer differs from its input only in the alpha bytes of
      pixels with `r + g + b > 600`, and those are 0. */
  lemma KeyBytesMeaning(data: seq<byte>)
    requires |data| % ChannelCount == 0
    ensures forall k :: 0 <= k < |data| && k % 4 != 3 ==> KeyBytes(data)[k] == data[k]
    ensures forall k :: 0 <= k < |data| && k % 4 == 3 ==>
      KeyBytes(data)[k] == (if data[k - 3] as int + data[k - 2] + data[k - 1] > 600 then 0 else data[k])
  {
    var out := KeyBytes(data);
    forall k | 0 <= k < |data|
      ensures out[k] == KeyedByte(data, k)
    {
      KeyBytesAt(data, k);
    }
    forall k | 0 <= k < |data|
      ensures k % 4 != 3 ==> KeyedByte(data, k) == data[k]
      ensures k % 4 == 3 ==>
        KeyedByte(data, k) == (if data[k - 3] as int + data[k - 2] + data[k - 1] > 600 then 0 else data[k])
    {
      KeyedByteMeaning(data, k);
    }
  }

  /** `createTransparentPNG` on an already decoded image of at least 1 × 1
      pixels: a canvas of the image's size is drawn and its buffer keyed. The
      result is that keyed buffer, as handed to `putImageData`, read as
      pixels. Fails only when the 2-D context is unavailable. */
  function CreateTransparent(img: Image, contextAvailable: bool): (res: Result<Image>)
    requires img.Valid() && img.width > 0 && img.height > 0
    ensures !contextAvailable <==> res == Err(ContextError)
    ensures res.Ok? ==> res.value.width == img.width && res.value.height == img.height
    ensures res.Ok? ==> res.value.Valid()
    ensures res.Ok? ==> forall i :: 0 <= i < |img.pixels| ==>
      res.value.pixels[i] == KeyPixel(img.pixels[i])
  {
    if !contextAvailable then Err(ContextError)
    else
      KeyThroughBuffer(img.pixels);
      Ok(Image(img.width, img.height, Unflatten(KeyBytes(Flatten(img.pixels)))))
  }

  /** Keying an image through its canvas buffer is keying each of its pixels. */
  lemma KeyThroughBuffer(px: seq<Pixel>)
    ensures Unflatten(KeyBytes(Flatten(px))) == KeyPixels(px)
  {
    UnflattenFlatten(px);
    UnflattenFlatten(KeyPixels(px));
  }

  /** Every pixel brighter than 200 ends with alpha 0; every other pixel is
      byte-identical to its input; the colour channels never change. */
  lemma KeyPixelsMeaning(px: seq<Pixel>, i: int)
    requires 0 <= i < |px|
    ensures KeyPixels(px)[i].a == 0 <==> IsBright(px[i]) || px[i].a == 0
    ensures KeyPixels(px)[i] == px[i] <==> !IsBright(px[i]) || px[i].a == 0
    ensures KeyPixels(px)[i].r == px[i].r && KeyPixels(px)[i].g == px[i].g && KeyPixels(px)[i].b == px[i].b
  {
  }

  /** Keying an already keyed image changes nothing. */
  lemma KeyPixelsIdempotent(px: seq<Pixel>)
    ensures KeyPixels(KeyPixels(px)) == KeyPixels(px)
  {
    var once := KeyPixels(px);
    forall i | 0 <= i < |px|
      ensures KeyPixels(once)[i] == once[i]
    {
      assert IsBright(once[i]) <==> IsBright(px[i]);
    }
  }

  /** The byte-level keyer is idempotent too: running the loop over its own
      output leaves the buffer as it is. */
  lemma KeyBytesIdempotent(data: seq<byte>)
    requires |data| % ChannelCount == 0
    ensures KeyBytes(KeyBytes(data)) == KeyBytes(data)
  {
    UnflattenFlatten(KeyPixels(Unflatten(data)));
    KeyPixelsIdempotent(Unflatten(data));
  }

  /** A 400 × 500 opaque white stencil with a 10 × 10 black square at its centre. */
  function SquareStencil(): (img: Image)
    ensures img.Valid()
  {
    Image(400, 500, seq(400 * 500, i requires 0 <= i < 400 * 500 =>
      if InCentreSquare(i % 400, i / 400) then Pixel(0, 0, 0, 255) else Pixel(255, 255, 255, 255)))
  }

  predicate InCentreSquare(x: int, y: int) {
    195 <= x < 205 && 245 <= y < 255
  }

  /** Keying that stencil makes everything transparent except the black square,
      which stays fully opaque. */
  lemma SquareStencilKeyed()
    ensures CreateTransparent(SquareStencil(), true).Ok?
    ensures forall i :: 0 <= i < 400 * 500 ==>
      CreateTransparent(SquareStencil(), true).value.pixels[i].a ==
        (if InCentreSquare(i % 400, i / 400) then 255 else 0)
  {
    var img := SquareStencil();
    var out := CreateTransparent(img, true);
    forall i | 0 <= i < 400 * 500
      ensures out.value.pixels[i].a == (if InCentreSquare(i % 400, i / 400) then 255 else 0)
    {
      assert out.value.pixels[i] == KeyPixel(img.pixels[i]);
    }
  }
}
