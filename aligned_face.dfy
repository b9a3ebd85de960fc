/** The native `DlibLandmarks::createAlignedFace`: it copies an RGBA_8888 Android bitmap into
    an RGB image (undoing premultiplied alpha), clamps the face rectangle to the image, asks
    the landmark predictor for five points, cuts out the aligned chip and packs it as
    interleaved RGB floats in [0, 1]. dlib's predictor and chip extraction are parameters. */
module AlignedFace {
  import opened Outcomes

  type Byte = bv8

  // ---------------------------------------------------------------------------
  // clamp_long

  /** `llround`: the nearest integer, halves rounded away from zero. */
  function RoundHalfAway(v: real): (n: int)
    ensures v - 0.5 <= n as real <= v + 0.5
    ensures v == v.Floor as real ==> n == v.Floor
    ensures v >= 0.0 ==> n >= 0
  {
    if v >= 0.0 then (v + 0.5).Floor else -((-v + 0.5).Floor)
  }

  /** `std::min(std::max(v, lo), hi)` on integers: the side a rectangle keeps once
      clamped into `[lo, hi]`, and `hi` when that range is empty. */
  function Clamp(v: int, lo: int, hi: int): int {
    var raised := if v < lo then lo else v;
    if raised > hi then hi else raised
  }

  /** `clamp_long(v, lo, hi)`: `v` is raised to `lo`, then lowered to `hi`, then rounded. */
  function ClampLong(v: real, lo: int, hi: int): (r: int)
    ensures lo <= hi ==> lo <= r <= hi
    ensures lo as real <= v <= hi as real && v == v.Floor as real ==> r == v.Floor
    ensures hi < lo ==> r == hi
    ensures lo <= hi && v <= lo as real ==> r == lo
    ensures v >= hi as real ==> r == hi
    ensures v == v.Floor as real ==> r == Clamp(v.Floor, lo, hi)
  {
    var raised := if v < lo as real then lo as real else v;
    var lowered := if raised > hi as real then hi as real else raised;
    RoundHalfAway(lowered)
  }

  /** Clamping keeps order, so a rectangle with `left <= right` keeps `L <= R`. */
  lemma ClampLongMonotone(v: real, w: real, lo: int, hi: int)
    requires v <= w
    ensures ClampLong(v, lo, hi) <= ClampLong(w, lo, hi)
  {
    var rv := if v < lo as real then lo as real else v;
    var lv := if rv > hi as real then hi as real else rv;
    var rw := if w < lo as real then lo as real else w;
    var lw := if rw > hi as real then hi as real else rw;
    assert lv <= lw;
    RoundMonotone(lv, lw);
  }

  lemma RoundMonotone(v: real, w: real)
    requires v <= w
    ensures RoundHalfAway(v) <= RoundHalfAway(w)
  {
    if v >= 0.0 {
      assert v + 0.5 <= w + 0.5;
    } else if w < 0.0 {
      assert -w + 0.5 <= -v + 0.5;
    }
  }

  // ---------------------------------------------------------------------------
  // Pixel words

  /** The four 8-bit fields of a 32-bit pixel word, named as the code names them. */
  datatype Channels = Channels(a: Byte, r: Byte, g: Byte, b: Byte)

  /** The shifts of the copy loop: a = bits 24-31, r = bits 16-23, g = bits 8-15,
      b = bits 0-7. */
  function Unpack(w: bv32): (c: Channels)
    ensures Pack(c) == w
  {
    Channels(
      ((w >> 24) & 0xff) as Byte,
      ((w >> 16) & 0xff) as Byte,
      ((w >> 8) & 0xff) as Byte,
      (w & 0xff) as Byte)
  }

  /** The word whose fields, in the layout `Unpack` reads, are `c`. */
  function Pack(c: Channels): bv32 {
    (c.a as bv32 << 24) | (c.r as bv32 << 16) | (c.g as bv32 << 8) | c.b as bv32
  }

  /** `Unpack` loses nothing: it and `Pack` are inverse to each other. */
  lemma UnpackPackRoundTrip(c: Channels, w: bv32)
    ensures Unpack(Pack(c)) == c
    ensures Pack(Unpack(w)) == w
  {
  }

  /** `row[x]`: the `uint32_t` at byte offset `o`, read little-endian as on every Android
      ABI. */
  function LoadWord(mem: seq<Byte>, o: int): bv32
    requires 0 <= o && o + 4 <= |mem|
  {
    mem[o] as bv32 | (mem[o + 1] as bv32 << 8) | (mem[o + 2] as bv32 << 16) | (mem[o + 3] as bv32 << 24)
  }

  /** RGBA_8888 keeps the bytes of a pixel in the order R, G, B, A. Read through a
      little-endian word, the shifts as written take the red field from the blue byte and
      the blue field from the red byte; only green and alpha land where they belong. */
  lemma AsWrittenSwapsRedAndBlue(mem: seq<Byte>, o: int)
    requires 0 <= o && o + 4 <= |mem|
    ensures Unpack(LoadWord(mem, o)) == Channels(mem[o + 3], mem[o + 2], mem[o + 1], mem[o])
  {
    WordFields(LoadWord(mem, o), mem[o], mem[o + 1], mem[o + 2], mem[o + 3]);
  }

  /** The fields of a word assembled from four bytes, lowest byte first. */
  lemma WordFields(w: bv32, m0: Byte, m1: Byte, m2: Byte, m3: Byte)
    requires w == m0 as bv32 | (m1 as bv32 << 8) | (m2 as bv32 << 16) | (m3 as bv32 << 24)
    ensures Unpack(w) == Channels(m3, m2, m1, m0)
    ensures UnpackMemoryOrder(w) == Channels(m3, m0, m1, m2)
  {
  }

  /** An opaque red pixel: its bytes are R = 255, G = 0, B = 0, A = 255, and the copy loop
      reads it as r = 0, b = 255, a blue pixel. */
  lemma OpaqueRedReadsAsBlue()
    ensures var c := Unpack(LoadWord([255, 0, 0, 255], 0)); c.r == 0 && c.b == 255
  {
    AsWrittenSwapsRedAndBlue([255, 0, 0, 255], 0);
  }

  /** The unpack the RGBA_8888 layout calls for on a little-endian word: r = bits 0-7,
      g = bits 8-15, b = bits 16-23, a = bits 24-31. */
  function UnpackMemoryOrder(w: bv32): Channels {
    Channels(
      ((w >> 24) & 0xff) as Byte,
      (w & 0xff) as Byte,
      ((w >> 8) & 0xff) as Byte,
      ((w >> 16) & 0xff) as Byte)
  }

  /** The bytes of one RGBA_8888 pixel, in memory order. */
  function StoreRgba(c: Channels): (bytes: seq<Byte>)
    ensures |bytes| == 4
  {
    [c.r, c.g, c.b, c.a]
  }

  /** Read in memory order, every channel comes from its own byte. */
  lemma MemoryOrderReadsOwnBytes(mem: seq<Byte>, o: int)
    requires 0 <= o && o + 4 <= |mem|
    ensures UnpackMemoryOrder(LoadWord(mem, o)) == Channels(mem[o + 3], mem[o], mem[o + 1], mem[o + 2])
  {
    WordFields(LoadWord(mem, o), mem[o], mem[o + 1], mem[o + 2], mem[o + 3]);
  }

  /** A stored pixel loads back unchanged when read in memory order. */
  lemma StoredPixelLoadsBack(c: Channels)
    ensures UnpackMemoryOrder(LoadWord(StoreRgba(c), 0)) == c
  {
    MemoryOrderReadsOwnBytes(StoreRgba(c), 0);
  }

  // ---------------------------------------------------------------------------
  // Un-premultiplying alpha

  /** One colour channel with premultiplied alpha undone: for `a` other than 0 and 255,
      `(c * 255 + (a >> 1)) / a` in `uint32_t` (where it cannot overflow), stored back into
      a `uint8_t`. */
  function Unpremultiply(c: Byte, a: Byte): (u: Byte)
    ensures a == 0 || a == 255 ==> u == c
  {
    if a != 0 && a != 255 then (Quotient(c as int, a as int) % 256) as Byte else c
  }

  function Quotient(c: int, a: int): int
    requires a > 0
  {
    (c * 255 + a / 2) / a
  }

  /** For a channel that does not exceed its alpha, as premultiplied data always has it,
      the result is `255 * c / a` rounded to the nearest integer, and so at most 255: the
      narrowing to `uint8_t` never cuts anything off. */
  lemma UnpremultiplyRounds(c: Byte, a: Byte)
    requires a != 0 && a != 255 && c <= a
    ensures var u, n := Unpremultiply(c, a) as int, 255 * (c as int);
      u * (a as int) <= n + (a as int) / 2 < (u + 1) * (a as int)
  {
    var ai, ci := a as int, c as int;
    var q := Quotient(ci, ai);
    assert q * ai <= 255 * ci + ai / 2 < (q + 1) * ai by {
      QuotientBounds(ci, ai);
    }
    UnpremultiplyIsQuotient(c, a);
  }

  /** A channel equal to its alpha, fully saturated, becomes 255. */
  lemma UnpremultiplySaturated(c: Byte, a: Byte)
    requires a != 0 && c == a
    ensures Unpremultiply(c, a) == 255
  {
    if a != 255 {
      var ai := a as int;
      var q := Quotient(ai, ai);
      assert q * ai <= 255 * ai + ai / 2 < (q + 1) * ai by {
        QuotientBounds(ai, ai);
      }
      if q < 255 {
        MultiplyMonotone(q + 1, 255, ai);
      } else if q > 255 {
        MultiplyMonotone(256, q, ai);
      }
      UnpremultiplyIsQuotient(c, a);
    }
  }

  /** Without the wrap: the channel is the quotient itself. */
  lemma UnpremultiplyIsQuotient(c: Byte, a: Byte)
    requires a != 0 && a != 255 && c <= a
    ensures Unpremultiply(c, a) as int == Quotient(c as int, a as int)
  {
    var q := Quotient(c as int, a as int);
    QuotientBounds(c as int, a as int);
    assert (q % 256) as Byte as int == q;
  }

  lemma QuotientBounds(c: int, a: int)
    requires 0 < a < 256 && 0 <= c <= a
    ensures 0 <= Quotient(c, a) < 256
    ensures Quotient(c, a) * a <= 255 * c + a / 2 < (Quotient(c, a) + 1) * a
  {
    var n := c * 255 + a / 2;
    var q := n / a;
    assert q * a + n % a == n;
    assert 0 <= n % a < a;
    assert n < 256 * a by {
      MultiplyMonotone(c, a, 255);
    }
    if q >= 256 {
      MultiplyMonotone(256, q, a);
    }
    if q < 0 {
      MultiplyMonotone(q + 1, 0, a);
    }
  }

  lemma MultiplyMonotone(x: int, y: int, m: int)
    requires x <= y && m >= 0
    ensures x * m <= y * m
  {
  }

  /** A channel larger than its alpha, which premultiplied data never has, wraps: c = 255
      with a = 128 comes out as 252. */
  lemma UnpremultiplyWrapsOnInvalidInput()
    ensures Unpremultiply(255, 128) == 252
  {
    assert Quotient(255, 128) == 508;
  }

  // ---------------------------------------------------------------------------
  // Copying the bitmap

  /** `dlib::rgb_pixel`. */
  datatype Rgb = Rgb(red: Byte, green: Byte, blue: Byte)

  /** `dlib::array2d<rgb_pixel>` (and `dlib::matrix<rgb_pixel>`), row by row. */
  type Image = seq<seq<Rgb>>

  /** The locked pixel memory holds `height` rows of `stride` bytes, each row wide enough for
      `width` four-byte pixels, as `AndroidBitmap_getInfo` describes it. */
  predicate Covers(mem: seq<Byte>, width: int, height: int, stride: int) {
    0 <= width && 0 <= height && 4 * width <= stride && height * stride <= |mem|
  }

  /** Pixel `(y, x)` lies inside the locked memory. */
  lemma PixelInBounds(mem: seq<Byte>, width: int, height: int, stride: int, y: int, x: int)
    requires Covers(mem, width, height, stride) && 0 <= y < height && 0 <= x < width
    ensures 0 <= y * stride + 4 * x && y * stride + 4 * x + 4 <= |mem|
  {
    MultiplyMonotone(0, y, stride);
    MultiplyMonotone(y + 1, height, stride);
  }

  /** `row[x]` with `row = src + y * stride`: the word of pixel `(y, x)`. */
  function PixelWord(mem: seq<Byte>, width: int, height: int, stride: int, y: int, x: int): bv32
    requires Covers(mem, width, height, stride) && 0 <= y < height && 0 <= x < width
  {
    PixelInBounds(mem, width, height, stride, y, x);
    LoadWord(mem, y * stride + 4 * x)
  }

  /** The colour the copy loop stores for one word: the shifts as written, with premultiplied
      alpha undone. */
  function ConvertPixel(w: bv32): (p: Rgb)
    ensures var c := Unpack(w); c.a == 0 || c.a == 255 ==> p == Rgb(c.r, c.g, c.b)
  {
    var c := Unpack(w);
    Rgb(Unpremultiply(c.r, c.a), Unpremultiply(c.g, c.a), Unpremultiply(c.b, c.a))
  }

  /** The image the copy loop builds. */
  function ImageOf(mem: seq<Byte>, width: int, height: int, stride: int): (img: Image)
    requires Covers(mem, width, height, stride)
    ensures |img| == height && forall y :: 0 <= y < height ==> |img[y]| == width
  {
    seq(height, y requires 0 <= y < height =>
      seq(width, x requires 0 <= x < width => ConvertPixel(PixelWord(mem, width, height, stride, y, x))))
  }

  /** Step 2 of `createAlignedFace`: every pixel `(y, x)` of the bitmap is copied, row `y`
      being read from byte offset `y * stride`. */
  method CopyPixels(mem: seq<Byte>, width: int, height: int, stride: int) returns (img: Image)
    requires Covers(mem, width, height, stride)
    ensures |img| == height
    ensures forall y :: 0 <= y < height ==> |img[y]| == width
    ensures forall y, x :: 0 <= y < height && 0 <= x < width ==>
      img[y][x] == ConvertPixel(PixelWord(mem, width, height, stride, y, x))
    ensures img == ImageOf(mem, width, height, stride)
  {
    img := [];
    for y := 0 to height
      invariant |img| == y
      invariant forall y' :: 0 <= y' < y ==> |img[y']| == width
      invariant forall y', x :: 0 <= y' < y && 0 <= x < width ==>
        img[y'][x] == ConvertPixel(PixelWord(mem, width, height, stride, y', x))
    {
      var row: seq<Rgb> := [];
      for x := 0 to width
        invariant |row| == x
        invariant forall x' :: 0 <= x' < x ==> row[x'] == ConvertPixel(PixelWord(mem, width, height, stride, y, x'))
      {
        var c := Unpack(PixelWord(mem, width, height, stride, y, x));
        var r, g, b := c.r, c.g, c.b;
        if c.a != 0 && c.a != 255 {
          r, g, b := Unpremultiply(r, c.a), Unpremultiply(g, c.a), Unpremultiply(b, c.a);
        }
        row := row + [Rgb(r, g, b)];
      }
      img := img + [row];
    }
    forall y | 0 <= y < height
      ensures img[y] == ImageOf(mem, width, height, stride)[y]
    {
    }
  }

  // ---------------------------------------------------------------------------
  // The face rectangle

  /** `rectangle(L, T, R, B)`. */
  datatype Bounds = Bounds(left: int, top: int, right: int, bottom: int)

  const RectangleOutOfBounds: string := "Face rectangle out of bounds"

  /** Step 3: each side clamped into the image, then the rectangle must keep a positive
      width and height. */
  function FaceBounds(left: int, top: int, right: int, bottom: int, width: int, height: int): (r: Result<Bounds>)
    ensures r.Failure? ==> r.error == RuntimeError(RectangleOutOfBounds)
    ensures var L, T, R, B := Clamp(left, 0, width - 1), Clamp(top, 0, height - 1),
        Clamp(right, 0, width - 1), Clamp(bottom, 0, height - 1);
      && (r.Success? <==> L < R && T < B)
      && (r.Success? ==> r.value == Bounds(L, T, R, B))
    ensures r.Success? ==>
      && 0 <= r.value.left < r.value.right <= width - 1
      && 0 <= r.value.top < r.value.bottom <= height - 1
  {
    var L := ClampLong(left as real, 0, width - 1);
    var T := ClampLong(top as real, 0, height - 1);
    var R := ClampLong(right as real, 0, width - 1);
    var B := ClampLong(bottom as real, 0, height - 1);
    if R <= L || B <= T then Failure(RuntimeError(RectangleOutOfBounds))
    else Success(Bounds(L, T, R, B))
  }

  /** A rectangle already inside the image, with positive width and height, passes
      unchanged. */
  lemma InsideRectangleKept(left: int, top: int, right: int, bottom: int, width: int, height: int)
    requires 0 <= left < right <= width - 1 && 0 <= top < bottom <= height - 1
    ensures FaceBounds(left, top, right, bottom, width, height) == Success(Bounds(left, top, right, bottom))
  {
    assert (left as real).Floor == left && (right as real).Floor == right;
    assert (top as real).Floor == top && (bottom as real).Floor == bottom;
  }

  /** A rectangle reaching past the left and right edges is cut back to the image's
      columns; its top and bottom, already inside, are kept. */
  lemma WideRectangleClamped(left: int, top: int, right: int, bottom: int, width: int, height: int)
    requires left < 0 && right > width - 1 && width >= 2
    requires 0 <= top < bottom <= height - 1
    ensures FaceBounds(left, top, right, bottom, width, height) == Success(Bounds(0, top, width - 1, bottom))
  {
  }

  /** A rectangle whose sides are not in order, or an image less than two pixels wide or
      high, is always rejected. */
  lemma DegenerateRectangleRejected(left: int, top: int, right: int, bottom: int, width: int, height: int)
    requires right <= left || bottom <= top || width < 2 || height < 2
    ensures FaceBounds(left, top, right, bottom, width, height) == Failure(RuntimeError(RectangleOutOfBounds))
  {
    if right <= left {
      ClampLongMonotone(right as real, left as real, 0, width - 1);
    } else if bottom <= top {
      ClampLongMonotone(bottom as real, top as real, 0, height - 1);
    }
  }

  /** A rectangle wholly left of or above the image is rejected: its far side clamps onto
      the near edge. */
  lemma OutsideRectangleRejected(left: int, top: int, right: int, bottom: int, width: int, height: int)
    requires right <= 0 || bottom <= 0
    ensures FaceBounds(left, top, right, bottom, width, height).Failure?
  {
  }

  // ---------------------------------------------------------------------------
  // Packing the chip

  /** Channel `k` (0 red, 1 green, 2 blue) of a pixel, divided by 255. */
  function ChannelValue(p: Rgb, k: int): (v: real)
    requires 0 <= k < 3
    ensures 0.0 <= v <= 1.0
  {
    (if k == 0 then p.red else if k == 1 then p.green else p.blue) as int as real / 255.0
  }

  /** A chip of `size` rows of `size` pixels, as `extract_image_chip` produces it. */
  predicate IsSquare(chip: Image, size: int) {
    |chip| == size && forall y :: 0 <= y < size ==> |chip[y]| == size
  }

  /** Where channel `k` of chip pixel `(y, x)` goes: row-major, three floats per pixel. */
  function ChipIndex(size: int, y: int, x: int, k: int): (i: int)
    requires 0 <= y < size && 0 <= x < size && 0 <= k < 3
    ensures 0 <= i < size * size * 3
  {
    SlotBefore(size, y, x, size - 1, size - 1);
    (y * size + x) * 3 + k
  }

  /** Slots are laid out in the order the loops visit pixels: row by row, left to right. */
  lemma SlotBefore(size: int, y: int, x: int, y2: int, x2: int)
    requires 0 <= y < size && 0 <= x < size && 0 <= y2 < size && 0 <= x2 < size
    requires y < y2 || (y == y2 && x <= x2)
    ensures 0 <= y * size + x <= y2 * size + x2 < size * size
  {
    MultiplyMonotone(0, y, size);
    if y < y2 {
      MultiplyMonotone(y + 1, y2, size);
    }
    MultiplyMonotone(y2 + 1, size, size);
  }

  /** Every slot of the buffer belongs to one channel of one pixel. */
  lemma ChipIndexOnto(size: int, i: int)
    requires size >= 0 && 0 <= i < size * size * 3
    ensures var p := i / 3;
      && 0 <= p / size < size && 0 <= p % size < size
      && ChipIndex(size, p / size, p % size, i % 3) == i
  {
    var p := i / 3;
    assert p < size * size;
    assert size != 0;
    var y, x := p / size, p % size;
    assert y * size + x == p;
    assert y < size by {
      if y >= size {
        MultiplyMonotone(size, y, size);
      }
    }
    assert 0 <= y by {
      if y < 0 {
        MultiplyMonotone(y, -1, size);
      }
    }
  }

  /** No two channels share a slot: the slot gives back pixel and channel. */
  lemma ChipIndexInjective(size: int, y: int, x: int, k: int)
    requires 0 <= y < size && 0 <= x < size && 0 <= k < 3
    ensures var i := ChipIndex(size, y, x, k);
      (i / 3) / size == y && (i / 3) % size == x && i % 3 == k
  {
    DivModUnique((y * size + x) * 3 + k, 3, y * size + x, k);
    DivModUnique(y * size + x, size, y, x);
  }

  /** Quotient and remainder are determined. */
  lemma DivModUnique(n: int, d: int, q: int, r: int)
    requires d > 0 && 0 <= r < d && n == q * d + r
    ensures n / d == q && n % d == r
  {
    var q', r' := n / d, n % d;
    assert q' * d + r' == n;
    if q' < q {
      MultiplyMonotone(q' + 1, q, d);
    } else if q' > q {
      MultiplyMonotone(q + 1, q', d);
    }
  }

  /** Step 6: the chip as interleaved RGB floats, row-major; every entry in [0, 1]. */
  function Packed(chip: Image, size: int): (buffer: seq<real>)
    requires size >= 0 && IsSquare(chip, size)
    ensures |buffer| == size * size * 3
    ensures forall y, x, k :: 0 <= y < size && 0 <= x < size && 0 <= k < 3 ==>
      buffer[ChipIndex(size, y, x, k)] == ChannelValue(chip[y][x], k)
    ensures forall i :: 0 <= i < |buffer| ==> 0.0 <= buffer[i] <= 1.0
  {
    var buffer := seq(size * size * 3, i requires 0 <= i < size * size * 3 => PackedEntry(chip, size, i));
    PackedLayout(chip, size, buffer);
    buffer
  }

  /** Entry `i` of the packed buffer, found by taking `i` apart into pixel and channel. */
  function PackedEntry(chip: Image, size: int, i: int): real
    requires size >= 0 && IsSquare(chip, size) && 0 <= i < size * size * 3
  {
    ChipIndexOnto(size, i);
    ChannelValue(chip[(i / 3) / size][(i / 3) % size], i % 3)
  }

  lemma PackedLayout(chip: Image, size: int, buffer: seq<real>)
    requires size >= 0 && IsSquare(chip, size) && |buffer| == size * size * 3
    requires forall i :: 0 <= i < |buffer| ==> buffer[i] == PackedEntry(chip, size, i)
    ensures forall y, x, k :: 0 <= y < size && 0 <= x < size && 0 <= k < 3 ==>
      buffer[ChipIndex(size, y, x, k)] == ChannelValue(chip[y][x], k)
  {
    forall y, x, k | 0 <= y < size && 0 <= x < size && 0 <= k < 3
      ensures buffer[ChipIndex(size, y, x, k)] == ChannelValue(chip[y][x], k)
    {
      ChipIndexInjective(size, y, x, k);
    }
  }

  /** The packing loop: a running index `idx` steps through the buffer as the loops visit
      the pixels of the chip, writing red, green and blue in turn. */
  method PackChip(chip: Image, size: int) returns (buffer: seq<real>)
    requires size >= 0 && IsSquare(chip, size)
    ensures buffer == Packed(chip, size)
  {
    var buf := new real[size * size * 3];
    var idx := 0;
    for y := 0 to size
      invariant idx == y * size * 3
      invariant forall y', x', k :: 0 <= y' < y && 0 <= x' < size && 0 <= k < 3 ==>
        buf[ChipIndex(size, y', x', k)] == ChannelValue(chip[y'][x'], k)
    {
      for x := 0 to size
        invariant idx == (y * size + x) * 3
        invariant forall y', x', k :: 0 <= y' < size && 0 <= x' < size && 0 <= k < 3 && VisitedBefore(y', x', y, x) ==>
          buf[ChipIndex(size, y', x', k)] == ChannelValue(chip[y'][x'], k)
      {
        var p := chip[y][x];
        assert idx == ChipIndex(size, y, x, 0);
        FreshSlots(size, y, x);
        buf[idx] := p.red as int as real / 255.0;
        buf[idx + 1] := p.green as int as real / 255.0;
        buf[idx + 2] := p.blue as int as real / 255.0;
        idx := idx + 3;
      }
    }
    buffer := buf[..];
    forall i | 0 <= i < size * size * 3
      ensures buffer[i] == Packed(chip, size)[i]
    {
      ChipIndexOnto(size, i);
    }
  }

  /** Row-major visiting order: pixel `(y', x')` comes before pixel `(y, x)`. */
  predicate VisitedBefore(y': int, x': int, y: int, x: int) {
    y' < y || (y' == y && x' < x)
  }

  /** The three slots of pixel `(y, x)` lie after every slot of an earlier pixel. */
  lemma FreshSlots(size: int, y: int, x: int)
    requires 0 <= y < size && 0 <= x < size
    ensures forall y', x', k :: 0 <= y' < size && 0 <= x' < size && 0 <= k < 3 && VisitedBefore(y', x', y, x) ==>
      ChipIndex(size, y', x', k) < ChipIndex(size, y, x, 0)
  {
    forall y', x', k | 0 <= y' < size && 0 <= x' < size && 0 <= k < 3 && VisitedBefore(y', x', y, x)
      ensures ChipIndex(size, y', x', k) < ChipIndex(size, y, x, 0)
    {
      var p', p := y' * size + x', y * size + x;
      if x' < size - 1 {
        SlotBefore(size, y', x' + 1, y, x);
      } else {
        SlotBefore(size, y' + 1, 0, y, x);
        assert (y' + 1) * size == p' + 1;
      }
      assert p' + 1 <= p;
      assert ChipIndex(size, y', x', k) == p' * 3 + k && ChipIndex(size, y, x, 0) == p * 3;
    }
  }

  // ---------------------------------------------------------------------------
  // PixelsLock

  /** The RAII guard around `AndroidBitmap_lockPixels`: `unlock()` releases the pixels only
      while they are locked, so the destructor after an explicit unlock does nothing. */
  class PixelsLock {
    var locked: bool
    /** How many times `AndroidBitmap_unlockPixels` has been called through this guard. */
    var unlockCalls: nat

    constructor ()
      ensures !locked && unlockCalls == 0
    {
      locked := false;
      unlockCalls := 0;
    }

    /** `lock.locked = true`, right after a successful `AndroidBitmap_lockPixels`. */
    method MarkLocked()
      modifies this
      ensures locked && unlockCalls == old(unlockCalls)
    {
      locked := true;
    }

    /** `unlock()`, also what `~PixelsLock()` runs. */
    method Unlock()
      modifies this
      ensures !locked
      ensures unlockCalls == old(unlockCalls) + (if old(locked) then 1 else 0)
    {
      if locked {
        unlockCalls := unlockCalls + 1;
        locked := false;
      }
    }
  }

  // ---------------------------------------------------------------------------
  // createAlignedFace

  /** `ANDROID_BITMAP_FORMAT_*`, of which only RGBA_8888 is accepted. */
  datatype BitmapFormat = Rgba8888 | OtherFormat(code: int)

  /** `AndroidBitmapInfo`. */
  datatype BitmapInfo = BitmapInfo(width: int, height: int, stride: int, format: BitmapFormat)

  /** A bitmap as the native side sees it: `info` is what `AndroidBitmap_getInfo` reports
      (`None` when it fails), `pixels` what `AndroidBitmap_lockPixels` hands out (`None` when
      it fails). */
  datatype AndroidBitmap = AndroidBitmap(info: Option<BitmapInfo>, pixels: Option<seq<Byte>>)

  datatype Point = Point(x: int, y: int)

  /** `full_object_detection`: the landmark points found. */
  datatype Shape = Shape(parts: seq<Point>)

  /** What the shape predictor does: return a shape, or throw with a message. */
  datatype Prediction = Predicted(shape: Shape) | PredictorThrew(what: string)

  /** `(*predictor_)(img, rectangle(L, T, R, B))`; dlib's predictor is not part of this
      model. */
  type Predictor = (Image, Bounds) -> Prediction

  /** `extract_image_chip(img, get_face_chip_details(shape, size, padding), chip)`; dlib's
      alignment is not part of this model. */
  type ChipExtractor = (Image, Shape, int, real) -> Image

  /** What the platform guarantees of a locked RGBA_8888 bitmap: its memory holds the rows
      its info describes. */
  ghost predicate PlatformBitmap(bitmap: Option<AndroidBitmap>) {
    bitmap.Some? && bitmap.value.info.Some? && bitmap.value.info.value.format == Rgba8888 && bitmap.value.pixels.Some? ==>
      var info := bitmap.value.info.value;
      Covers(bitmap.value.pixels.value, info.width, info.height, info.stride)
  }

  /** What dlib guarantees of `extract_image_chip`: the chip is `size` by `size`. A negative
      size asks nothing of the extractor, which is never reached with one. */
  ghost predicate SquareChips(extract: ChipExtractor, size: int, padding: real) {
    size >= 0 ==> forall img: Image, shape: Shape :: IsSquare(extract(img, shape, size, padding), size)
  }

  /** The checks made before any pixel is read all pass, so the pixels get locked. */
  predicate ReachesLock(predictorLoaded: bool, bitmap: Option<AndroidBitmap>, size: int) {
    && predictorLoaded && bitmap.Some? && size > 1
    && bitmap.value.info.Some? && bitmap.value.info.value.format == Rgba8888
    && bitmap.value.pixels.Some?
  }

  /** `createAlignedFace`: the packed chip, or the first error on the way, in the order
      predictor, bitmap and size, bitmap info, format, lock, rectangle, landmarks. */
  function AlignedFaceSpec(
    predictorLoaded: bool, bitmap: Option<AndroidBitmap>,
    left: int, top: int, right: int, bottom: int, size: int, padding: real,
    predict: Predictor, extract: ChipExtractor): (r: Result<seq<real>>)
    requires PlatformBitmap(bitmap) && SquareChips(extract, size, padding)
    ensures r.Success? ==> ReachesLock(predictorLoaded, bitmap, size) && |r.value| == size * size * 3
  {
    if !predictorLoaded then Failure(RuntimeError("Predictor not loaded"))
    else if bitmap.None? || size <= 1 then Failure(RuntimeError("Invalid bitmap or size"))
    else if bitmap.value.info.None? then Failure(RuntimeError("AndroidBitmap_getInfo failed"))
    else if bitmap.value.info.value.format != Rgba8888 then Failure(RuntimeError("Bitmap must be RGBA_8888"))
    else if bitmap.value.pixels.None? then Failure(RuntimeError("AndroidBitmap_lockPixels failed"))
    else
      var info := bitmap.value.info.value;
      AlignLocked(bitmap.value.pixels.value, info.width, info.height, info.stride,
        left, top, right, bottom, size, padding, predict, extract)
  }

  /** Steps 2 to 6, once the pixels are locked: the copied image, the clamped rectangle, the
      five landmarks and the packed chip, or the first error among them. */
  function AlignLocked(
    mem: seq<Byte>, width: int, height: int, stride: int,
    left: int, top: int, right: int, bottom: int, size: int, padding: real,
    predict: Predictor, extract: ChipExtractor): (r: Result<seq<real>>)
    requires Covers(mem, width, height, stride) && size >= 0 && SquareChips(extract, size, padding)
    ensures r.Success? ==> FaceBounds(left, top, right, bottom, width, height).Success? && |r.value| == size * size * 3
  {
    var img := ImageOf(mem, width, height, stride);
    var bounds :- FaceBounds(left, top, right, bottom, width, height);
    match predict(img, bounds)
    case PredictorThrew(what) => Failure(RuntimeError("Predictor failed: " + what))
    case Predicted(shape) =>
      if |shape.parts| != 5 then Failure(RuntimeError("Predictor did not return 5 points"))
      else Success(Packed(extract(img, shape, size, padding), size))
  }

  /** The native `DlibLandmarks::createAlignedFace` step by step. `unlockCalls` counts the
      calls of `AndroidBitmap_unlockPixels`; pixels are read only between lock and unlock. */
  method CreateAlignedFace(
    predictorLoaded: bool, bitmap: Option<AndroidBitmap>,
    left: int, top: int, right: int, bottom: int, size: int, padding: real,
    predict: Predictor, extract: ChipExtractor)
    returns (r: Result<seq<real>>, unlockCalls: nat)
    requires PlatformBitmap(bitmap) && SquareChips(extract, size, padding)
    ensures r == AlignedFaceSpec(predictorLoaded, bitmap, left, top, right, bottom, size, padding, predict, extract)
    ensures unlockCalls == if ReachesLock(predictorLoaded, bitmap, size) then 1 else 0
  {
    unlockCalls := 0;
    if !predictorLoaded {
      return Failure(RuntimeError("Predictor not loaded")), unlockCalls;
    }
    if bitmap.None? || size <= 1 {
      return Failure(RuntimeError("Invalid bitmap or size")), unlockCalls;
    }
    if bitmap.value.info.None? {
      return Failure(RuntimeError("AndroidBitmap_getInfo failed")), unlockCalls;
    }
    var info := bitmap.value.info.value;
    if info.format != Rgba8888 {
      return Failure(RuntimeError("Bitmap must be RGBA_8888")), unlockCalls;
    }
    if bitmap.value.pixels.None? {
      return Failure(RuntimeError("AndroidBitmap_lockPixels failed")), unlockCalls;
    }
    var lock := new PixelsLock();
    lock.MarkLocked();
    r := CopyAndAlign(bitmap.value.pixels.value, info.width, info.height, info.stride,
      left, top, right, bottom, size, padding, predict, extract);
    lock.Unlock();
    unlockCalls := lock.unlockCalls;
  }

  /** The body of `createAlignedFace` between locking the pixels and leaving the scope. */
  method CopyAndAlign(
    mem: seq<Byte>, width: int, height: int, stride: int,
    left: int, top: int, right: int, bottom: int, size: int, padding: real,
    predict: Predictor, extract: ChipExtractor)
    returns (r: Result<seq<real>>)
    requires Covers(mem, width, height, stride) && size >= 0 && SquareChips(extract, size, padding)
    ensures r == AlignLocked(mem, width, height, stride, left, top, right, bottom, size, padding, predict, extract)
  {
    var img := CopyPixels(mem, width, height, stride);

    var L := ClampLong(left as real, 0, width - 1);
    var T := ClampLong(top as real, 0, height - 1);
    var R := ClampLong(right as real, 0, width - 1);
    var B := ClampLong(bottom as real, 0, height - 1);
    if R <= L || B <= T {
      return Failure(RuntimeError(RectangleOutOfBounds));
    }

    match predict(img, Bounds(L, T, R, B))
    case PredictorThrew(what) =>
      r := Failure(RuntimeError("Predictor failed: " + what));
    case Predicted(shape) =>
      if |shape.parts| != 5 {
        r := Failure(RuntimeError("Predictor did not return 5 points"));
      } else {
        var chip := extract(img, shape, size, padding);
        var buffer := PackChip(chip, size);
        r := Success(buffer);
      }
  }

  /** A size below 2, negative ones included, is rejected before the bitmap is looked at. */
  lemma SmallSizeRejected(
    bitmap: Option<AndroidBitmap>,
    left: int, top: int, right: int, bottom: int, size: int, padding: real,
    predict: Predictor, extract: ChipExtractor)
    requires PlatformBitmap(bitmap) && SquareChips(extract, size, padding) && size <= 1
    ensures AlignedFaceSpec(true, bitmap, left, top, right, bottom, size, padding, predict, extract)
      == Failure(RuntimeError("Invalid bitmap or size"))
  {
  }

  /** A chip comes back only when every check passed: it has `size * size * 3` entries, all
      in [0, 1]. A rectangle that clamps to nothing fails once the pixels are locked,
      whatever the predictor would do. Past the rectangle, a throwing predictor fails with
      its message wrapped, a shape without exactly five landmarks is rejected, and five
      landmarks give the packed chip. */
  lemma AlignedFaceOutcome(
    predictorLoaded: bool, bitmap: Option<AndroidBitmap>,
    left: int, top: int, right: int, bottom: int, size: int, padding: real,
    predict: Predictor, extract: ChipExtractor)
    requires PlatformBitmap(bitmap) && SquareChips(extract, size, padding)
    ensures var r := AlignedFaceSpec(predictorLoaded, bitmap, left, top, right, bottom, size, padding, predict, extract);
      r.Success? ==>
        && ReachesLock(predictorLoaded, bitmap, size)
        && FaceBounds(left, top, right, bottom, bitmap.value.info.value.width, bitmap.value.info.value.height).Success?
        && |r.value| == size * size * 3
        && forall i :: 0 <= i < |r.value| ==> 0.0 <= r.value[i] <= 1.0
    ensures var r := AlignedFaceSpec(predictorLoaded, bitmap, left, top, right, bottom, size, padding, predict, extract);
      ReachesLock(predictorLoaded, bitmap, size) &&
      FaceBounds(left, top, right, bottom, bitmap.value.info.value.width, bitmap.value.info.value.height).Failure? ==>
        r == Failure(RuntimeError(RectangleOutOfBounds))
    ensures var r := AlignedFaceSpec(predictorLoaded, bitmap, left, top, right, bottom, size, padding, predict, extract);
      ReachesLock(predictorLoaded, bitmap, size) ==>
        var info := bitmap.value.info.value;
        var img := ImageOf(bitmap.value.pixels.value, info.width, info.height, info.stride);
        var bounds := FaceBounds(left, top, right, bottom, info.width, info.height);
        bounds.Success? ==>
          match predict(img, bounds.value)
          case PredictorThrew(what) => r == Failure(RuntimeError("Predictor failed: " + what))
          case Predicted(shape) =>
            && (|shape.parts| != 5 ==> r == Failure(RuntimeError("Predictor did not return 5 points")))
            && (|shape.parts| == 5 ==> r == Success(Packed(extract(img, shape, size, padding), size)))
  {
  }
}
