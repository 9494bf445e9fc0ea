/** Decoded raster images and the flat RGBA byte buffer (`ImageData.data`) a
    2-D canvas exposes them through. */
module Raster {

  /** One element of a `Uint8ClampedArray`. */
  type byte = x: int | 0 <= x < 256

  /** Number of buffer bytes per pixel: red, green, blue, alpha, in that order. */
  const ChannelCount: nat := 4

  datatype Pixel = Pixel(r: byte, g: byte, b: byte, a: byte)

  /** A decoded image of `width` × `height` pixels, stored row by row. */
  datatype Image = Image(width: nat, height: nat, pixels: seq<Pixel>) {

    predicate Valid() {
      |pixels| == width * height
    }
  }

  /** Channel `c` of a pixel, numbered as in the buffer layout. */
  function Channel(p: Pixel, c: nat): (v: byte)
    requires c < ChannelCount
  {
    if c == 0 then p.r
    else if c == 1 then p.g
    else if c == 2 then p.b
    else p.a
  }

  /** The byte buffer a canvas holds for these pixels: pixel `i` occupies
      indices `4*i .. 4*i+3`. */
  function Flatten(px: seq<Pixel>): (data: seq<byte>)
    ensures |data| == ChannelCount * |px|
    ensures |data| % ChannelCount == 0
  {
    seq(4 * |px|, k requires 0 <= k < 4 * |px| => Channel(px[k / 4], k % 4))
  }

  /** Reads a byte buffer back as pixels, four bytes at a time. */
  function Unflatten(data: seq<byte>): (px: seq<Pixel>)
    requires |data| % ChannelCount == 0
    ensures ChannelCount * |px| == |data|
  {
    seq(|data| / 4, i requires 0 <= i < |data| / 4 =>
      Pixel(data[4 * i], data[4 * i + 1], data[4 * i + 2], data[4 * i + 3]))
  }

  /** Pixel `i` of a buffer is read from exactly the four bytes starting at `4*i`. */
  lemma FlattenLayout(px: seq<Pixel>, i: int)
    requires 0 <= i < |px|
    ensures Flatten(px)[4 * i] == px[i].r
    ensures Flatten(px)[4 * i + 1] == px[i].g
    ensures Flatten(px)[4 * i + 2] == px[i].b
    ensures Flatten(px)[4 * i + 3] == px[i].a
  {
    var data := Flatten(px);
    assert (4 * i) / 4 == i && (4 * i) % 4 == 0;
    assert (4 * i + 1) / 4 == i && (4 * i + 1) % 4 == 1;
    assert (4 * i + 2) / 4 == i && (4 * i + 2) % 4 == 2;
    assert (4 * i + 3) / 4 == i && (4 * i + 3) % 4 == 3;
  }

  /** Reading a canvas buffer as pixels and writing it back gives the same bytes. */
  lemma FlattenUnflatten(data: seq<byte>)
    requires |data| % ChannelCount == 0
    ensures Flatten(Unflatten(data)) == data
  {
    var px := Unflatten(data);
    var back := Flatten(px);
    forall k | 0 <= k < |data|
      ensures back[k] == data[k]
    {
      var i, c := k / 4, k % 4;
      assert k == 4 * i + c;
      FlattenLayout(px, i);
    }
  }

  /** Writing pixels into a buffer and reading them back gives the same pixels. */
  lemma UnflattenFlatten(px: seq<Pixel>)
    ensures Unflatten(Flatten(px)) == px
  {
    var back := Unflatten(Flatten(px));
    forall i | 0 <= i < |px|
      ensures back[i] == px[i]
    {
      FlattenLayout(px, i);
    }
  }

  /** A valid image's buffer has the `4 * width * height` bytes `getImageData` returns. */
  lemma ImageBufferLength(img: Image)
    requires img.Valid()
    ensures |Flatten(img.pixels)| == 4 * img.width * img.height
  {
  }
}
