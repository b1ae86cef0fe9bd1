/**
 * Pixel transcoding for the remote side (main.c:57-58, 311-315, 334-336,
 * 428) and the rotation map of the 16-bit branch (main.c:518-576).
 *
 * The remote pixel format is the one the server is created with: 5 bits per
 * sample, 2 samples per pixel, red at shift 0, green at 5, blue at 10
 * (RFC 6143, section 7.4). The framebuffer side is whatever the panel reports.
 */
module Pixels {

  const BITS_PER_SAMPLE: int := 5
  const SAMPLES_PER_PIXEL: int := 2

  /** COLOR_MASK = ((1 << BITS_PER_SAMPLE) << 1) - 1: six bits, not five. */
  const COLOR_MASK: bv32 := ((1 << 5) << 1) - 1

  /**
   * The right-shift that brings the top BITS_PER_SAMPLE bits of a channel to
   * bit 0: channel offset + channel length - BITS_PER_SAMPLE (main.c:311-313).
   */
  function ChannelShift(offset: int, length: int): int
  {
    offset + length - BITS_PER_SAMPLE
  }

  /** A shift amount the C shift operator accepts on a 32-bit operand. */
  predicate ShiftOk(s: int)
  {
    0 <= s < 32
  }

  /** fb_bitfield: where a colour channel sits in a framebuffer pixel. */
  datatype Channel = Channel(offset: int, length: int)

  /** A channel that fits in a 32-bit pixel and is at least BITS_PER_SAMPLE bits wide. */
  predicate ChannelOk(c: Channel)
  {
    BITS_PER_SAMPLE <= c.length && 0 <= c.offset && c.offset + c.length <= 32
  }

  /**
   * The top BITS_PER_SAMPLE bits of channel c of pixel p, read the long way:
   * isolate the channel's field, then drop its low bits.
   */
  function TopBits(p: bv32, c: Channel): bv32
    requires ChannelOk(c)
  {
    FieldTop(p, c.offset, c.length)
  }

  /** TopBits on the offset and length of a channel. */
  function FieldTop(p: bv32, offset: int, length: int): bv32
    requires 5 <= length && 0 <= offset && offset + length <= 32
  {
    ((p >> offset) & ((1 << length) - 1)) >> (length - 5)
  }

  // The top five bits of each channel of the common panel layouts: RGB565
  // (red 11/5, green 5/6, blue 0/5) and XRGB8888 (red 16/8, green 8/8,
  // blue 0/8), each reached by one right shift. Each fact is proved on its
  // own: bit-vector facts are cheap one at a time and costly together.
  lemma Rgb565Red(p: bv32) ensures (p >> 11) & 31 == FieldTop(p, 11, 5) {}
  lemma Rgb565Green(p: bv32) ensures (p >> 6) & 31 == FieldTop(p, 5, 6) {}
  lemma Rgb565Blue(p: bv32) ensures (p >> 0) & 31 == FieldTop(p, 0, 5) {}
  lemma Xrgb8888Red(p: bv32) ensures (p >> 19) & 31 == FieldTop(p, 16, 8) {}
  lemma Xrgb8888Green(p: bv32) ensures (p >> 11) & 31 == FieldTop(p, 8, 8) {}
  lemma Xrgb8888Blue(p: bv32) ensures (p >> 3) & 31 == FieldTop(p, 0, 8) {}

  /** PIXEL_FB_TO_RFB(p, r, g, b): three 6-bit fields packed at shifts 0, 5, 10. */
  function Transcode(p: bv32, r: int, g: int, b: int): (v: bv32)
    requires ShiftOk(r) && ShiftOk(g) && ShiftOk(b)
    ensures v < 0x1_0000
  {
    ((p >> r) & COLOR_MASK)
    | (((p >> g) & COLOR_MASK) << 5)
    | (((p >> b) & COLOR_MASK) << 10)
  }

  lemma {:induction false} TranscodeZero(r: int, g: int, b: int)
    requires ShiftOk(r) && ShiftOk(g) && ShiftOk(b)
    ensures Transcode(0, r, g, b) == 0
  {
  }

  /**
   * What a viewer decoding the remote word with 5-bit samples sees. Red is the
   * top five bits of the red channel; green and blue each also receive, in
   * their lowest bit, the sixth bit of the field packed just below them, since
   * the 6-bit fields overlap by one bit. Bit 15 holds the sixth blue bit.
   */
  lemma {:induction false} DecodedChannels(p: bv32, r: int, g: int, b: int)
    requires ShiftOk(r) && ShiftOk(g) && ShiftOk(b)
    ensures (Transcode(p, r, g, b) & 31) == ((p >> r) & 31)
    ensures ((Transcode(p, r, g, b) >> 5) & 31) == ((p >> g) & 31) | (((p >> r) >> 5) & 1)
    ensures ((Transcode(p, r, g, b) >> 10) & 31) == ((p >> b) & 31) | (((p >> g) >> 5) & 1)
    ensures (Transcode(p, r, g, b) >> 15) == (((p >> b) >> 5) & 1)
  {
  }

  /**
   * With RGB565 channels (red 11/5, green 5/6, blue 0/5) the lowest red bit
   * shows up as the lowest remote blue bit: no channel round-trip.
   */
  lemma Rgb565RedLeaksIntoBlue()
    ensures ChannelShift(11, 5) == 11 && ChannelShift(5, 6) == 6 && ChannelShift(0, 5) == 0
    ensures Transcode(0x0800, 11, 6, 0) == 0x0401
    ensures ((Transcode(0x0800, 11, 6, 0) >> 10) & 31) != (0x0800 & 31)
  {
  }

  /**
   * The 1-bit branch expands one framebuffer byte to eight remote bytes, most
   * significant bit first; a set bit becomes 0x00, a clear bit 0xFF.
   */
  function MonoPixel(pixels: bv8, bit: nat): (v: bv8)
    requires bit < 8
    ensures v == 0x00 || v == 0xFF
  {
    if ((pixels >> (7 - bit)) & 1) != 0 then 0x00 else 0xFF
  }

  lemma {:induction false} MonoPixelBit(pixels: bv8, bit: nat)
    requires bit < 8
    ensures MonoPixel(pixels, bit) == 0x00 <==> (pixels & (0x80 >> bit)) != 0
  {
  }

  /**
   * The generic branch's remote word for one framebuffer word holding
   * 4 / bytespp pixels (main.c:472-489).
   */
  function PackedWord(bytespp: nat, p: bv32, r: int, g: int, b: int): (v: bv32)
    requires bytespp == 1 || bytespp == 2 || bytespp == 4
    requires bytespp != 1 ==> ShiftOk(r) && ShiftOk(g) && ShiftOk(b)
  {
    if bytespp == 4 then Transcode(p, r, g, b)
    else if bytespp == 2 then
      var high_pixel := (0xffff0000 & p) >> 16;
      var high_r := Transcode(high_pixel, r, g, b);
      Transcode(p, r, g, b) | ((0xffff & high_r) << 16)
    else p
  }

  /**
   * The two halves of a 16-bit-per-pixel word: the high pixel transcodes on
   * its own, the low one is transcoded from the whole word.
   */
  lemma {:induction false} PackedWordHalves(p: bv32, r: int, g: int, b: int)
    requires ShiftOk(r) && ShiftOk(g) && ShiftOk(b)
    ensures (PackedWord(2, p, r, g, b) >> 16) == Transcode(p >> 16, r, g, b)
    ensures (PackedWord(2, p, r, g, b) & 0xffff) == Transcode(p, r, g, b)
  {
  }

  lemma {:induction false} PackedWordZero(bytespp: nat, r: int, g: int, b: int)
    requires bytespp == 1 || bytespp == 2 || bytespp == 4
    requires bytespp != 1 ==> ShiftOk(r) && ShiftOk(g) && ShiftOk(b)
    ensures PackedWord(bytespp, 0, r, g, b) == 0
  {
  }

  // ---------------------------------------------------------------------
  // Rotation (16-bit branch)

  predicate ValidAngle(angle: int)
  {
    angle == 0 || angle == 90 || angle == 180 || angle == 270
  }

  /** server->width as set before the walk (main.c:518-533). */
  function RotatedWidth(angle: int, xres: nat, yres: nat): nat
  {
    if angle == 90 || angle == 270 then yres else xres
  }

  /** The remote height matching RotatedWidth. */
  function RotatedHeight(angle: int, xres: nat, yres: nat): nat
  {
    if angle == 90 || angle == 270 then xres else yres
  }

  datatype Point = Point(x: int, y: int)

  /** Destination of source pixel (x, y) (main.c:550-570). */
  function Rotate(angle: int, xres: nat, yres: nat, x: int, y: int): Point
    requires ValidAngle(angle)
  {
    if angle == 0 then Point(x, y)
    else if angle == 90 then Point(yres - 1 - y, x)
    else if angle == 180 then Point(xres - 1 - x, yres - 1 - y)
    else Point(y, xres - 1 - x)
  }

  /** Source pixel of destination (x2, y2): the inverse of Rotate. */
  function Unrotate(angle: int, xres: nat, yres: nat, x2: int, y2: int): Point
    requires ValidAngle(angle)
  {
    if angle == 0 then Point(x2, y2)
    else if angle == 90 then Point(y2, yres - 1 - x2)
    else if angle == 180 then Point(xres - 1 - x2, yres - 1 - y2)
    else Point(xres - 1 - y2, x2)
  }

  /** Row-major index of (x, y) in a grid w columns wide. */
  function Index(w: int, x: int, y: int): int
  {
    y * w + x
  }

  lemma {:induction false} MulMonotone(a: int, b: int, w: nat)
    requires a <= b
    ensures a * w <= b * w
  {
    assert b * w - a * w == (b - a) * w;
  }

  lemma {:induction false} MulSucc(a: int, b: int)
    ensures a * (b + 1) == a * b + a
  {
  }

  /** Counting in steps of a positive width: i steps stay below w steps exactly when i < w. */
  lemma {:induction false} MulStep(step: nat, i: int, w: int)
    requires step > 0
    ensures step * i < step * w <==> i < w
    ensures step * (i + 1) == step * i + step
  {
    MulSucc(step, i);
    if i < w {
      MulMonotone(i + 1, w, step);
    } else {
      MulMonotone(w, i, step);
    }
  }

  /** A cell of a w-by-h grid has a row-major index below w * h. */
  lemma {:induction false} IndexBelow(w: nat, h: nat, x: int, y: int)
    requires 0 <= x < w && 0 <= y < h
    ensures 0 <= Index(w, x, y) < w * h
  {
    MulMonotone(0, y, w);
    MulMonotone(y + 1, h, w);
    assert Index(w, x, y) < (y + 1) * w;
    assert h * w == w * h;
  }

  /** The cell of a w-by-h grid at row-major index k: column k % w, row k / w. */
  lemma {:induction false} CellOf(w: nat, h: nat, k: int)
    requires 0 <= k < w * h
    ensures w > 0 && 0 <= k % w < w && 0 <= k / w < h
    ensures Index(w, k % w, k / w) == k
  {
    if k / w >= h {
      MulMonotone(h, k / w, w);
      assert false;
    }
  }

  /** Row-major index and cell are inverse: (x, y) is the cell of its index. */
  lemma {:induction false} IndexCell(w: nat, x: int, y: int)
    requires 0 <= x < w && 0 <= y
    ensures Index(w, x, y) % w == x && Index(w, x, y) / w == y
  {
    var k := Index(w, x, y);
    var q, m := k / w, k % w;
    assert k == q * w + m;
    if q > y {
      MulMonotone(y + 1, q, w);
      assert false;
    } else if q < y {
      MulMonotone(q + 1, y, w);
      assert false;
    }
  }

  /** Row-major indexing is one-to-one on the cells of a grid. */
  lemma {:induction false} IndexInjective(w: nat, x1: int, y1: int, x2: int, y2: int)
    requires 0 <= x1 < w && 0 <= x2 < w
    requires Index(w, x1, y1) == Index(w, x2, y2)
    ensures x1 == x2 && y1 == y2
  {
    if y1 < y2 {
      MulMonotone(y1 + 1, y2, w);
      assert false;
    } else if y2 < y1 {
      MulMonotone(y2 + 1, y1, w);
      assert false;
    }
  }

  /**
   * For a source pixel inside the xres-by-yres frame, the rotated destination
   * lies inside the rotated grid and its index y2 * width + x2 is below
   * xres * yres, so the store into the remote buffer is in bounds.
   */
  lemma {:induction false} RotateInBounds(angle: int, xres: nat, yres: nat, x: int, y: int)
    requires ValidAngle(angle)
    requires 0 <= x < xres && 0 <= y < yres
    ensures var d := Rotate(angle, xres, yres, x, y);
      && 0 <= d.x < RotatedWidth(angle, xres, yres)
      && 0 <= d.y < RotatedHeight(angle, xres, yres)
      && 0 <= Index(RotatedWidth(angle, xres, yres), d.x, d.y) < xres * yres
  {
    var d := Rotate(angle, xres, yres, x, y);
    var w, h := RotatedWidth(angle, xres, yres), RotatedHeight(angle, xres, yres);
    IndexBelow(w, h, d.x, d.y);
    assert w * h == xres * yres;
  }

  /**
   * Each rotation maps the source grid one-to-one onto the rotated grid:
   * Unrotate undoes it, and every rotated cell has a source cell.
   */
  lemma {:induction false} RotateBijective(angle: int, xres: nat, yres: nat, x: int, y: int, x2: int, y2: int)
    requires ValidAngle(angle)
    ensures Unrotate(angle, xres, yres, Rotate(angle, xres, yres, x, y).x, Rotate(angle, xres, yres, x, y).y) == Point(x, y)
    ensures Rotate(angle, xres, yres, Unrotate(angle, xres, yres, x2, y2).x, Unrotate(angle, xres, yres, x2, y2).y) == Point(x2, y2)
    ensures 0 <= x2 < RotatedWidth(angle, xres, yres) && 0 <= y2 < RotatedHeight(angle, xres, yres)
      ==> var s := Unrotate(angle, xres, yres, x2, y2); 0 <= s.x < xres && 0 <= s.y < yres
  {
  }

  /**
   * Two distinct source pixels are stored at distinct remote indices: no
   * rotated store overwrites another pixel's value.
   */
  lemma {:induction false} RotatedIndexInjective(angle: int, xres: nat, yres: nat, x1: int, y1: int, x2: int, y2: int)
    requires ValidAngle(angle)
    requires 0 <= x1 < xres && 0 <= y1 < yres && 0 <= x2 < xres && 0 <= y2 < yres
    requires (x1, y1) != (x2, y2)
    ensures var w := RotatedWidth(angle, xres, yres);
      var d1 := Rotate(angle, xres, yres, x1, y1);
      var d2 := Rotate(angle, xres, yres, x2, y2);
      Index(w, d1.x, d1.y) != Index(w, d2.x, d2.y)
  {
    var w := RotatedWidth(angle, xres, yres);
    var d1 := Rotate(angle, xres, yres, x1, y1);
    var d2 := Rotate(angle, xres, yres, x2, y2);
    RotateInBounds(angle, xres, yres, x1, y1);
    RotateInBounds(angle, xres, yres, x2, y2);
    if Index(w, d1.x, d1.y) == Index(w, d2.x, d2.y) {
      IndexInjective(w, d1.x, d1.y, d2.x, d2.y);
      RotateBijective(angle, xres, yres, x1, y1, 0, 0);
      RotateBijective(angle, xres, yres, x2, y2, 0, 0);
    }
  }
}
