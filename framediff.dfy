/**
 * update_screen (main.c:338-612) with the buffers it works on: the live
 * framebuffer (fbmmap, read-only), the shadow copy (fbbuf) and the buffer the
 * RFB server sends from (vncbuf), and the varblock fields it updates.
 *
 * All three buffers are byte arrays. Each branch of update_screen walks the
 * frame row by row in units: 3-byte pixels (24 bpp), bytes of 8 pixels
 * (1 bpp), 32-bit words of 1, 2 or 4 pixels (8, 16, 32 bpp) or 16-bit pixels
 * (16 bpp rotated). Units are numbered in scan order; multi-byte units are read
 * and written little-endian, as on the ARM panels the program targets, and the
 * 24-bit branch uses the three low bytes of the word it loads.
 */
module FrameDiff {
  import opened Pixels
  import opened Dirty

  /** Which branch of update_screen a configuration takes. */
  datatype Layout = Rgb24 | Mono | Packed(bytespp: nat) | Rotated16(angle: int) | Unsupported

  /** The branch selection of main.c:359, 405, 450, 513 and 597. */
  function LayoutOf(bpp: nat, rotate: int): Layout
  {
    if rotate == 0 && bpp == 24 then Rgb24
    else if rotate == 0 && bpp == 1 then Mono
    else if rotate == 0 then Packed(bpp / 8)
    else if bpp == 16 then Rotated16(rotate)
    else Unsupported
  }

  /**
   * What update_screen depends on: the screen geometry and depth, the rotation
   * (vnc_rotate) and the three channel shifts of varblock.
   */
  datatype Format = Format(xres: nat, yres: nat, bpp: nat, rotate: int, rShift: int, gShift: int, bShift: int)
  {
    function Kind(): Layout
    {
      LayoutOf(bpp, rotate)
    }
  }

  /**
   * The varblock shifts computed from the panel's channels (main.c:311-313).
   * For a channel that fits in the pixel and is at least BITS_PER_SAMPLE bits
   * wide, the shift is a shift C defines and falls inside the channel, so
   * the walk's shift condition holds.
   */
  function MakeFormat(xres: nat, yres: nat, bpp: nat, rotate: int, red: Channel, green: Channel, blue: Channel): (f: Format)
    ensures f.xres == xres && f.yres == yres && f.Kind() == LayoutOf(bpp, rotate)
    ensures ChannelOk(red) ==> ShiftOk(f.rShift) && red.offset <= f.rShift
    ensures ChannelOk(green) ==> ShiftOk(f.gShift) && green.offset <= f.gShift
    ensures ChannelOk(blue) ==> ShiftOk(f.bShift) && blue.offset <= f.bShift
  {
    Format(xres, yres, bpp, rotate,
           ChannelShift(red.offset, red.length),
           ChannelShift(green.offset, green.length),
           ChannelShift(blue.offset, blue.length))
  }

  /** The channels of an RGB565 panel: red 11/5, green 5/6, blue 0/5. */
  const Rgb565: (Channel, Channel, Channel) := (Channel(11, 5), Channel(5, 6), Channel(0, 5))
  /** The channels of an XRGB8888 (or RGB888) panel: red 16/8, green 8/8, blue 0/8. */
  const Xrgb8888: (Channel, Channel, Channel) := (Channel(16, 8), Channel(8, 8), Channel(0, 8))

  /**
   * The varblock shifts do what they are for: on an RGB565 panel the shifts
   * are 11, 6 and 0, and shifting a pixel right by each puts that channel's
   * top five bits at bit 0.
   */
  lemma {:induction false} Rgb565ShiftsTakeTopBits(p: bv32, xres: nat, yres: nat, bpp: nat, rotate: int)
    ensures var f := MakeFormat(xres, yres, bpp, rotate, Rgb565.0, Rgb565.1, Rgb565.2);
      f.rShift == 11 && f.gShift == 6 && f.bShift == 0
    ensures ChannelOk(Rgb565.0) && (p >> 11) & 31 == TopBits(p, Rgb565.0)
    ensures ChannelOk(Rgb565.1) && (p >> 6) & 31 == TopBits(p, Rgb565.1)
    ensures ChannelOk(Rgb565.2) && (p >> 0) & 31 == TopBits(p, Rgb565.2)
  {
    Rgb565Red(p);
    Rgb565Green(p);
    Rgb565Blue(p);
  }

  /** The same on an XRGB8888 (or RGB888) panel, where the shifts are 19, 11 and 3. */
  lemma {:induction false} Xrgb8888ShiftsTakeTopBits(p: bv32, xres: nat, yres: nat, bpp: nat, rotate: int)
    ensures var f := MakeFormat(xres, yres, bpp, rotate, Xrgb8888.0, Xrgb8888.1, Xrgb8888.2);
      f.rShift == 19 && f.gShift == 11 && f.bShift == 3
    ensures ChannelOk(Xrgb8888.0) && (p >> 19) & 31 == TopBits(p, Xrgb8888.0)
    ensures ChannelOk(Xrgb8888.1) && (p >> 11) & 31 == TopBits(p, Xrgb8888.1)
    ensures ChannelOk(Xrgb8888.2) && (p >> 3) & 31 == TopBits(p, Xrgb8888.2)
  {
    Xrgb8888Red(p);
    Xrgb8888Green(p);
    Xrgb8888Blue(p);
  }

  /** Framebuffer bytes compared per step. */
  function UnitBytes(l: Layout): nat
  {
    match l
    case Rgb24 => 3
    case Mono => 1
    case Packed(_) => 4
    case Rotated16(_) => 2
    case Unsupported => 0
  }

  /** Pixels per step: xstep of the 1-bit and generic branches. */
  function PixelsPerUnit(l: Layout): nat
  {
    match l
    case Mono => 8
    case Packed(bytespp) => if bytespp == 0 then 0 else 4 / bytespp
    case _ => 1
  }

  /** Remote bytes written per changed unit. */
  function RemoteUnitBytes(l: Layout): nat
  {
    match l
    case Rgb24 => 3
    case Mono => 8
    case Packed(_) => 4
    case Rotated16(_) => 2
    case Unsupported => 0
  }

  predicate UsesTranscode(l: Layout)
  {
    l.Rgb24? || l.Rotated16? || (l.Packed? && l.bytespp != 1)
  }

  /** The dirty-bound rule of a branch. */
  function RuleOf(l: Layout): Rule
  {
    if l.Rotated16? then Rotated else Straight
  }

  /**
   * The configurations modelled: the common panel depths, a width that is a
   * whole number of units, and shifts the C shift operator accepts wherever
   * PIXEL_FB_TO_RFB is applied.
   */
  predicate Supported(fmt: Format)
  {
    && (fmt.bpp == 1 || fmt.bpp == 8 || fmt.bpp == 16 || fmt.bpp == 24 || fmt.bpp == 32)
    && fmt.xres % PixelsPerUnit(fmt.Kind()) == 0
    && (UsesTranscode(fmt.Kind()) ==> ShiftOk(fmt.rShift) && ShiftOk(fmt.gShift) && ShiftOk(fmt.bShift))
  }

  /** Whether the walk transcodes: a branch exists and, rotated, the angle is one of the four. */
  predicate Walks(fmt: Format)
  {
    fmt.Kind() != Unsupported && (fmt.Kind().Rotated16? ==> ValidAngle(fmt.rotate))
  }

  lemma {:induction false} SupportedSteps(fmt: Format)
    requires Supported(fmt)
    ensures PixelsPerUnit(fmt.Kind()) > 0
    ensures fmt.Kind().Packed? ==> fmt.Kind().bytespp in {1, 2, 4}
    ensures fmt.Kind() != Unsupported ==> UnitBytes(fmt.Kind()) > 0 && RemoteUnitBytes(fmt.Kind()) > 0
  {
  }

  function UnitsPerRow(fmt: Format): nat
    requires Supported(fmt)
  {
    SupportedSteps(fmt);
    fmt.xres / PixelsPerUnit(fmt.Kind())
  }

  function Units(fmt: Format): nat
    requires Supported(fmt)
  {
    UnitsPerRow(fmt) * fmt.yres
  }

  /** frame_size (main.c:112-115). */
  function FrameSize(fmt: Format): nat
  {
    fmt.xres * fmt.yres * fmt.bpp / 8
  }

  /** rframe_size: one remote byte per pixel at 1 bpp (main.c:275). */
  function RemoteSize(fmt: Format): nat
  {
    if fmt.bpp == 1 then FrameSize(fmt) * 8 else FrameSize(fmt)
  }

  /** The units of a walk tile the framebuffer and the remote buffer exactly. */
  lemma {:induction false} Geometry(fmt: Format)
    requires Supported(fmt) && fmt.Kind() != Unsupported
    ensures FrameSize(fmt) == UnitBytes(fmt.Kind()) * Units(fmt)
    ensures RemoteSize(fmt) == RemoteUnitBytes(fmt.Kind()) * Units(fmt)
    ensures fmt.xres == PixelsPerUnit(fmt.Kind()) * UnitsPerRow(fmt)
    ensures fmt.Kind().Rotated16? ==> UnitsPerRow(fmt) == fmt.xres && Units(fmt) == fmt.xres * fmt.yres
  {
    var n := fmt.xres * fmt.yres;
    var w := UnitsPerRow(fmt);
    match fmt.Kind()
    case Rgb24 =>
      assert n * 24 / 8 == 3 * n;
    case Mono =>
      assert fmt.xres == 8 * w;
      assert n == 8 * (w * fmt.yres);
    case Packed(bytespp) =>
      if bytespp == 1 {
        assert fmt.xres == 4 * w;
        assert n * 8 / 8 == n;
        assert n == 4 * (w * fmt.yres);
      } else if bytespp == 2 {
        assert fmt.xres == 2 * w;
        assert n * 16 / 8 == 2 * n;
        assert 2 * n == 4 * (w * fmt.yres);
      } else {
        assert fmt.xres == w;
        assert n * 32 / 8 == 4 * n;
      }
    case Rotated16(_) =>
      assert n * 16 / 8 == 2 * n;
  }

  // ---------------------------------------------------------------------
  // Reading and encoding units

  /** Byte j of b, or 0 past its end. */
  function ByteAt(b: seq<bv8>, j: nat): bv8
  {
    if j < |b| then b[j] else 0
  }

  function Word(b0: bv8, b1: bv8, b2: bv8, b3: bv8): bv32
  {
    (b0 as bv32) | ((b1 as bv32) << 8) | ((b2 as bv32) << 16) | ((b3 as bv32) << 24)
  }

  lemma {:induction false} WordBytes(b0: bv8, b1: bv8, b2: bv8, b3: bv8)
    ensures var w := Word(b0, b1, b2, b3);
      && (w & 0xFF) as bv8 == b0 && ((w >> 8) & 0xFF) as bv8 == b1
      && ((w >> 16) & 0xFF) as bv8 == b2 && (w >> 24) as bv8 == b3
  {
  }

  /**
   * The little-endian value of up to four bytes: a 32-bit load, or for three
   * bytes a 32-bit load masked with 0x00FFFFFF.
   */
  function Le(b: seq<bv8>): bv32
  {
    Word(ByteAt(b, 0), ByteAt(b, 1), ByteAt(b, 2), ByteAt(b, 3))
  }

  /** Two units of 1 to 4 bytes compare equal as integers exactly when their bytes do. */
  lemma {:induction false} LeInjective(a: seq<bv8>, b: seq<bv8>)
    requires 1 <= |a| == |b| <= 4
    ensures Le(a) == Le(b) <==> a == b
  {
    if Le(a) == Le(b) {
      WordBytes(ByteAt(a, 0), ByteAt(a, 1), ByteAt(a, 2), ByteAt(a, 3));
      WordBytes(ByteAt(b, 0), ByteAt(b, 1), ByteAt(b, 2), ByteAt(b, 3));
      forall j | 0 <= j < |a|
        ensures a[j] == b[j]
      {
        assert ByteAt(a, j) == ByteAt(b, j);
      }
    }
  }

  /** The bytes at off .. off + len (empty outside the buffer). */
  function Slot(r: seq<bv8>, off: int, len: nat): (e: seq<bv8>)
    ensures 0 <= off && off + len <= |r| ==> |e| == len
  {
    if 0 <= off && off + len <= |r| then seq(len, j requires 0 <= j < len => r[off + j]) else []
  }

  lemma {:induction false} SlotEqual(a: seq<bv8>, b: seq<bv8>, off: int, len: nat)
    requires 0 <= off && off + len <= |a| && off + len <= |b|
    requires forall j :: off <= j < off + len ==> a[j] == b[j]
    ensures Slot(a, off, len) == Slot(b, off, len)
  {
    assert forall j :: 0 <= j < len ==> Slot(a, off, len)[j] == Slot(b, off, len)[j];
  }

  lemma {:induction false} SlotsAgree(a: seq<bv8>, b: seq<bv8>, off: int, len: nat)
    requires 0 <= off && off + len <= |a| && off + len <= |b|
    ensures Slot(a, off, len) == Slot(b, off, len) <==> forall j :: off <= j < off + len ==> a[j] == b[j]
  {
    if Slot(a, off, len) == Slot(b, off, len) {
      assert forall j :: off <= j < off + len ==> a[j] == Slot(a, off, len)[j - off];
      assert forall j :: off <= j < off + len ==> b[j] == Slot(b, off, len)[j - off];
    } else if forall j :: off <= j < off + len ==> a[j] == b[j] {
      SlotEqual(a, b, off, len);
    }
  }

  /** The eight remote bytes of one framebuffer byte at 1 bpp. */
  function MonoBytes(pixels: bv8): (e: seq<bv8>)
    ensures |e| == 8
  {
    [MonoPixel(pixels, 0), MonoPixel(pixels, 1), MonoPixel(pixels, 2), MonoPixel(pixels, 3),
     MonoPixel(pixels, 4), MonoPixel(pixels, 5), MonoPixel(pixels, 6), MonoPixel(pixels, 7)]
  }

  /** Eight bytes that are the 1-bit expansion of pixels, one by one, are MonoBytes(pixels). */
  lemma {:induction false} MonoSlot(s: seq<bv8>, r: int, pixels: bv8)
    requires 0 <= r && r + 8 <= |s|
    requires forall b :: 0 <= b < 8 ==> s[r + b] == MonoPixel(pixels, b)
    ensures Slot(s, r, 8) == MonoBytes(pixels)
  {
    var e := Slot(s, r, 8);
    assert e[0] == s[r + 0] && e[1] == s[r + 1] && e[2] == s[r + 2] && e[3] == s[r + 3];
    assert e[4] == s[r + 4] && e[5] == s[r + 5] && e[6] == s[r + 6] && e[7] == s[r + 7];
  }

  function Le2(v: bv32): seq<bv8>
  {
    [(v & 0xFF) as bv8, ((v >> 8) & 0xFF) as bv8]
  }

  function Le3(v: bv32): seq<bv8>
  {
    [(v & 0xFF) as bv8, ((v >> 8) & 0xFF) as bv8, ((v >> 16) & 0xFF) as bv8]
  }

  function Le4(v: bv32): seq<bv8>
  {
    [(v & 0xFF) as bv8, ((v >> 8) & 0xFF) as bv8, ((v >> 16) & 0xFF) as bv8, ((v >> 24) & 0xFF) as bv8]
  }

  /** The remote bytes for one unit of framebuffer value v. */
  function Encode(fmt: Format, v: bv32): (e: seq<bv8>)
    requires Supported(fmt)
    ensures |e| == RemoteUnitBytes(fmt.Kind())
  {
    match fmt.Kind()
    case Rgb24 =>
      Le3(Transcode(v, fmt.rShift, fmt.gShift, fmt.bShift))
    case Mono =>
      MonoBytes((v & 0xFF) as bv8)
    case Packed(bytespp) =>
      SupportedSteps(fmt);
      Le4(PackedWord(bytespp, v, fmt.rShift, fmt.gShift, fmt.bShift))
    case Rotated16(_) =>
      Le2(Transcode(v, fmt.rShift, fmt.gShift, fmt.bShift))
    case Unsupported => []
  }

  /** In the 24-bit branch the third remote byte is always zero. */
  lemma {:induction false} Rgb24HighByteZero(fmt: Format, v: bv32)
    requires Supported(fmt) && fmt.Kind() == Rgb24
    ensures Encode(fmt, v)[2] == 0
  {
  }

  /**
   * The remote buffer's initial fill is the encoding of an all-zero unit:
   * 0x00 everywhere, except 0xFF at 1 bpp where a clear bit is white
   * (main.c:279-281).
   */
  lemma {:induction false} EncodeZero(fmt: Format)
    requires Supported(fmt) && fmt.Kind() != Unsupported
    ensures forall j :: 0 <= j < RemoteUnitBytes(fmt.Kind()) ==>
      Encode(fmt, 0)[j] == if fmt.bpp == 1 then 0xFF else 0x00
  {
    match fmt.Kind()
    case Rgb24 =>
      TranscodeZero(fmt.rShift, fmt.gShift, fmt.bShift);
    case Mono =>
    case Packed(bytespp) =>
      SupportedSteps(fmt);
      PackedWordZero(bytespp, fmt.rShift, fmt.gShift, fmt.bShift);
    case Rotated16(_) =>
      TranscodeZero(fmt.rShift, fmt.gShift, fmt.bShift);
  }

  // ---------------------------------------------------------------------
  // Where unit k lives

  /** First framebuffer (and shadow) byte of unit k. */
  function FrameOffset(fmt: Format, k: int): int
    requires Supported(fmt)
  {
    UnitBytes(fmt.Kind()) * k
  }

  /** r[y2 * width + x2]: the remote pixel that source pixel (x, y) goes to. */
  function RemoteIndex(fmt: Format, x: int, y: int): int
    requires ValidAngle(fmt.rotate)
  {
    var d := Rotate(fmt.rotate, fmt.xres, fmt.yres, x, y);
    Index(RotatedWidth(fmt.rotate, fmt.xres, fmt.yres), d.x, d.y)
  }

  /** First remote byte of unit k: in scan order, or rotated in the 16-bit branch. */
  function RemoteOffset(fmt: Format, k: int): int
    requires Supported(fmt)
  {
    var w := UnitsPerRow(fmt);
    if fmt.Kind().Rotated16? && ValidAngle(fmt.rotate) && w > 0 then 2 * RemoteIndex(fmt, k % w, k / w)
    else RemoteUnitBytes(fmt.Kind()) * k
  }

  /** The framebuffer slots of the units are inside the buffer and apart. */
  lemma {:induction false} FrameSlots(fmt: Format, k: int, k': int)
    requires Supported(fmt) && fmt.Kind() != Unsupported
    requires 0 <= k < Units(fmt) && 0 <= k' < Units(fmt)
    ensures 0 <= FrameOffset(fmt, k) && FrameOffset(fmt, k) + UnitBytes(fmt.Kind()) <= FrameSize(fmt)
    ensures k != k' ==>
      (FrameOffset(fmt, k) + UnitBytes(fmt.Kind()) <= FrameOffset(fmt, k')
       || FrameOffset(fmt, k') + UnitBytes(fmt.Kind()) <= FrameOffset(fmt, k))
  {
    var nb := UnitBytes(fmt.Kind());
    Geometry(fmt);
    MulMonotone(0, k, nb);
    MulMonotone(k + 1, Units(fmt), nb);
    if k < k' {
      MulMonotone(k + 1, k', nb);
    } else if k' < k {
      MulMonotone(k' + 1, k, nb);
    }
  }

  /** The remote slots of the units are inside the buffer and apart. */
  lemma {:induction false} RemoteSlots(fmt: Format, k: int, k': int)
    requires Supported(fmt) && Walks(fmt)
    requires 0 <= k < Units(fmt) && 0 <= k' < Units(fmt)
    ensures 0 <= RemoteOffset(fmt, k) && RemoteOffset(fmt, k) + RemoteUnitBytes(fmt.Kind()) <= RemoteSize(fmt)
    ensures k != k' ==>
      (RemoteOffset(fmt, k) + RemoteUnitBytes(fmt.Kind()) <= RemoteOffset(fmt, k')
       || RemoteOffset(fmt, k') + RemoteUnitBytes(fmt.Kind()) <= RemoteOffset(fmt, k))
  {
    var rb := RemoteUnitBytes(fmt.Kind());
    Geometry(fmt);
    if fmt.Kind().Rotated16? {
      var w := fmt.xres;
      CellOf(w, fmt.yres, k);
      CellOf(w, fmt.yres, k');
      RotateInBounds(fmt.rotate, fmt.xres, fmt.yres, k % w, k / w);
      RotateInBounds(fmt.rotate, fmt.xres, fmt.yres, k' % w, k' / w);
      if k != k' {
        RotatedIndexInjective(fmt.rotate, fmt.xres, fmt.yres, k % w, k / w, k' % w, k' / w);
      }
    } else {
      MulMonotone(0, k, rb);
      MulMonotone(k + 1, Units(fmt), rb);
      if k < k' {
        MulMonotone(k + 1, k', rb);
      } else if k' < k {
        MulMonotone(k' + 1, k, rb);
      }
    }
  }

  // ---------------------------------------------------------------------
  // The shadow/remote correspondence

  /** The value of unit k of buffer s. */
  function UnitValue(fmt: Format, s: seq<bv8>, k: int): bv32
    requires Supported(fmt)
  {
    Le(Slot(s, FrameOffset(fmt, k), UnitBytes(fmt.Kind())))
  }

  /** Remote slot k holds the transcoding of shadow unit k. */
  ghost predicate UnitOk(fmt: Format, s: seq<bv8>, r: seq<bv8>, k: int)
    requires Supported(fmt)
  {
    Slot(r, RemoteOffset(fmt, k), RemoteUnitBytes(fmt.Kind())) == Encode(fmt, UnitValue(fmt, s, k))
  }

  /**
   * The remote buffer is the per-unit transcoding of the shadow. Without a
   * branch, or with an invalid angle, nothing is ever transcoded (the first
   * change exits).
   */
  ghost predicate Transcodes(fmt: Format, s: seq<bv8>, r: seq<bv8>)
    requires Supported(fmt)
  {
    Walks(fmt) ==> forall k :: 0 <= k < Units(fmt) ==> UnitOk(fmt, s, r, k)
  }

  /** An all-zero shadow and the initial remote fill correspond. */
  lemma {:induction false} TranscodesInitial(fmt: Format, s: seq<bv8>, r: seq<bv8>)
    requires Supported(fmt)
    requires |s| == FrameSize(fmt) && |r| == RemoteSize(fmt)
    requires forall j :: 0 <= j < |s| ==> s[j] == 0
    requires forall j :: 0 <= j < |r| ==> r[j] == if fmt.bpp == 1 then 0xFF else 0x00
    ensures Transcodes(fmt, s, r)
  {
    if Walks(fmt) {
      EncodeZero(fmt);
      var nb, rb := UnitBytes(fmt.Kind()), RemoteUnitBytes(fmt.Kind());
      forall k | 0 <= k < Units(fmt)
        ensures UnitOk(fmt, s, r, k)
      {
        FrameSlots(fmt, k, k);
        RemoteSlots(fmt, k, k);
        var u := Slot(s, FrameOffset(fmt, k), nb);
        assert forall j :: 0 <= j < nb ==> u[j] == 0;
        assert UnitValue(fmt, s, k) == 0;
        var e := Encode(fmt, 0);
        assert forall j :: 0 <= j < rb ==> Slot(r, RemoteOffset(fmt, k), rb)[j] == e[j];
      }
    }
  }

  /**
   * Rewriting one unit of the shadow and its remote slot, and nothing else,
   * keeps the correspondence of every other unit.
   */
  lemma {:induction false} TranscodesAfterUnit(fmt: Format, s: seq<bv8>, r: seq<bv8>, s': seq<bv8>, r': seq<bv8>, k: int)
    requires Supported(fmt) && Walks(fmt)
    requires |s| == |s'| == FrameSize(fmt) && |r| == |r'| == RemoteSize(fmt)
    requires 0 <= k < Units(fmt)
    requires Transcodes(fmt, s, r)
    requires forall j :: 0 <= j < |s| && !(FrameOffset(fmt, k) <= j < FrameOffset(fmt, k) + UnitBytes(fmt.Kind())) ==>
      s'[j] == s[j]
    requires forall j :: 0 <= j < |r| && !(RemoteOffset(fmt, k) <= j < RemoteOffset(fmt, k) + RemoteUnitBytes(fmt.Kind())) ==>
      r'[j] == r[j]
    requires UnitOk(fmt, s', r', k)
    ensures Transcodes(fmt, s', r')
  {
    var nb, rb := UnitBytes(fmt.Kind()), RemoteUnitBytes(fmt.Kind());
    forall k' | 0 <= k' < Units(fmt) && k' != k
      ensures UnitOk(fmt, s', r', k')
    {
      assert UnitOk(fmt, s, r, k');
      FrameSlots(fmt, k', k);
      RemoteSlots(fmt, k', k);
      SlotEqual(s', s, FrameOffset(fmt, k'), nb);
      SlotEqual(r', r, RemoteOffset(fmt, k'), rb);
    }
  }

  // ---------------------------------------------------------------------
  // Which units changed, in scan order

  /**
   * Whether unit k differs between shadow s0 and frame f0. The source compares
   * the units as words (pixel != comp); LeInjective shows that is the same as
   * comparing their bytes.
   */
  function Changed(fmt: Format, s0: seq<bv8>, f0: seq<bv8>, k: int): bool
    requires Supported(fmt)
  {
    var off, nb := FrameOffset(fmt, k), UnitBytes(fmt.Kind());
    Slot(s0, off, nb) != Slot(f0, off, nb)
  }

  /** The dirty-bound contribution of unit k. */
  function HitAt(fmt: Format, k: int): Hit
    requires Supported(fmt)
  {
    var w := UnitsPerRow(fmt);
    if w == 0 then Hit(0, 0, 0)
    else
      var i, y := k % w, k / w;
      match fmt.Kind()
      case Rotated16(angle) =>
        if ValidAngle(angle) then
          var d := Rotate(angle, fmt.xres, fmt.yres, i, y);
          Hit(d.x, d.x, d.y)
        else Hit(i, i, y)
      case _ =>
        var step := PixelsPerUnit(fmt.Kind());
        Hit(step * i, step * i + step - 1, y)
  }

  /** The changed units among the first n, as dirty-bound hits in scan order. */
  ghost function ChangedHits(fmt: Format, s0: seq<bv8>, f0: seq<bv8>, n: nat): seq<Hit>
    requires Supported(fmt)
  {
    if n == 0 then []
    else
      var prev := ChangedHits(fmt, s0, f0, n - 1);
      if Changed(fmt, s0, f0, n - 1) then prev + [HitAt(fmt, n - 1)] else prev
  }

  /** All changed units of the frame. */
  ghost function FrameHits(fmt: Format, s0: seq<bv8>, f0: seq<bv8>): seq<Hit>
    requires Supported(fmt)
  {
    ChangedHits(fmt, s0, f0, Units(fmt))
  }

  /**
   * None of the first n units changed exactly when the bytes they cover are
   * equal: the unit comparisons agree with memcmp.
   */
  lemma {:induction false} ChangedHitsNone(fmt: Format, s0: seq<bv8>, f0: seq<bv8>, n: nat)
    requires Supported(fmt) && fmt.Kind() != Unsupported
    requires |s0| == |f0| == FrameSize(fmt) && n <= Units(fmt)
    ensures ChangedHits(fmt, s0, f0, n) == [] <==>
      forall j :: 0 <= j < |s0| && j < FrameOffset(fmt, n) ==> s0[j] == f0[j]
  {
    if n > 0 {
      ChangedHitsNone(fmt, s0, f0, n - 1);
      UnitSame(fmt, s0, f0, n - 1);
      assert ChangedHits(fmt, s0, f0, n) == [] <==>
        ChangedHits(fmt, s0, f0, n - 1) == [] && !Changed(fmt, s0, f0, n - 1);
    }
  }

  /** One unit compares equal exactly when its bytes do. */
  lemma {:induction false} UnitSame(fmt: Format, s0: seq<bv8>, f0: seq<bv8>, k: int)
    requires Supported(fmt) && fmt.Kind() != Unsupported
    requires |s0| == |f0| == FrameSize(fmt) && 0 <= k < Units(fmt)
    ensures FrameOffset(fmt, k + 1) == FrameOffset(fmt, k) + UnitBytes(fmt.Kind())
    ensures FrameOffset(fmt, k + 1) <= |s0|
    ensures !Changed(fmt, s0, f0, k) <==>
      forall j :: FrameOffset(fmt, k) <= j < FrameOffset(fmt, k + 1) ==> s0[j] == f0[j]
  {
    var nb := UnitBytes(fmt.Kind());
    var off := FrameOffset(fmt, k);
    FrameSlots(fmt, k, k);
    MulSucc(nb, k);
    SlotsAgree(s0, f0, off, nb);
  }

  /** A hit lies on the remote screen: the rotated one on a rotated panel, the panel itself otherwise. */
  predicate OnScreen(fmt: Format, h: Hit)
  {
    && WellFormed(h)
    && if fmt.Kind().Rotated16? then
         h.xHi < RotatedWidth(fmt.rotate, fmt.xres, fmt.yres) && h.y < RotatedHeight(fmt.rotate, fmt.xres, fmt.yres)
       else h.xHi < fmt.xres && h.y < fmt.yres
  }

  /** The hit of one unit lies inside the frame, or the rotated frame. */
  lemma {:induction false} HitAtInFrame(fmt: Format, k: int)
    requires Supported(fmt) && Walks(fmt) && 0 <= k < Units(fmt)
    ensures OnScreen(fmt, HitAt(fmt, k))
    ensures var h := HitAt(fmt, k);
      h.x < fmt.xres + fmt.yres && h.y < fmt.xres + fmt.yres
  {
    var w := UnitsPerRow(fmt);
    Geometry(fmt);
    CellOf(w, fmt.yres, k);
    var i, y := k % w, k / w;
    if fmt.Kind().Rotated16? {
      RotateInBounds(fmt.rotate, fmt.xres, fmt.yres, i, y);
    } else {
      MulMonotone(i + 1, w, PixelsPerUnit(fmt.Kind()));
      MulSucc(PixelsPerUnit(fmt.Kind()), i);
    }
  }

  /** Every hit lies inside the frame, or the rotated frame. */
  lemma {:induction false} ChangedHitsInFrame(fmt: Format, s0: seq<bv8>, f0: seq<bv8>, n: nat)
    requires Supported(fmt) && Walks(fmt) && n <= Units(fmt)
    ensures forall h :: h in ChangedHits(fmt, s0, f0, n) ==> OnScreen(fmt, h)
    ensures forall h :: h in ChangedHits(fmt, s0, f0, n) ==>
      WellFormed(h) && h.x < fmt.xres + fmt.yres && h.y < fmt.xres + fmt.yres
  {
    if n > 0 {
      ChangedHitsInFrame(fmt, s0, f0, n - 1);
      HitAtInFrame(fmt, n - 1);
    }
  }

  /**
   * For a screen whose extents sum to at most 9999 pixels, update_screen
   * marks a rectangle exactly when the frame differs from the shadow.
   */
  lemma {:induction false} MarkIffFrameChanged(fmt: Format, s0: seq<bv8>, f0: seq<bv8>)
    requires Supported(fmt) && Walks(fmt)
    requires |s0| == |f0| == FrameSize(fmt)
    requires fmt.xres + fmt.yres <= 9999
    ensures MarkOf(Settle(Scan(RuleOf(fmt.Kind()), FrameHits(fmt, s0, f0)))).Some? <==> s0 != f0
  {
    var hits := FrameHits(fmt, s0, f0);
    Geometry(fmt);
    ChangedHitsNone(fmt, s0, f0, Units(fmt));
    ChangedHitsInFrame(fmt, s0, f0, Units(fmt));
    assert forall k :: 0 <= k < |hits| ==> hits[k] in hits;
    MarkedIffChanged(RuleOf(fmt.Kind()), hits);
    if s0 != f0 {
      assert exists j :: 0 <= j < |s0| && s0[j] != f0[j];
    }
  }

  /**
   * Unit (i, y) of the walk: its flat number k = w * y + i is a unit of the
   * frame, in row y at column i, and its bytes lie inside the buffers.
   */
  lemma {:induction false} UnitInFrame(fmt: Format, i: int, y: int)
    requires Supported(fmt) && fmt.Kind() != Unsupported
    requires 0 <= i < UnitsPerRow(fmt) && 0 <= y < fmt.yres
    ensures var w, k := UnitsPerRow(fmt), UnitsPerRow(fmt) * y + i;
      && 0 <= k < Units(fmt)
      && k % w == i && k / w == y
      && 0 <= FrameOffset(fmt, k) && FrameOffset(fmt, k) + UnitBytes(fmt.Kind()) <= FrameSize(fmt)
      && FrameOffset(fmt, k + 1) == FrameOffset(fmt, k) + UnitBytes(fmt.Kind())
      && FrameSize(fmt) == UnitBytes(fmt.Kind()) * Units(fmt)
      && RemoteSize(fmt) == RemoteUnitBytes(fmt.Kind()) * Units(fmt)
      && (fmt.Kind().Rotated16? ==> w == fmt.xres && RemoteSize(fmt) == 2 * (fmt.xres * fmt.yres))
  {
    var w := UnitsPerRow(fmt);
    var k := w * y + i;
    Geometry(fmt);
    assert k == Index(w, i, y);
    IndexBelow(w, fmt.yres, i, y);
    IndexCell(w, i, y);
    FrameSlots(fmt, k, k);
    MulSucc(UnitBytes(fmt.Kind()), k);
  }

  /**
   * Before unit k is visited the shadow holds the frame below unit k and the
   * starting shadow s0 from there on: unit k compares the same against
   * either.
   */
  lemma {:induction false} AdvanceUnit(fmt: Format, s0: seq<bv8>, f0: seq<bv8>, sh: seq<bv8>, k: int)
    requires Supported(fmt) && fmt.Kind() != Unsupported
    requires |s0| == |f0| == |sh| == FrameSize(fmt) && 0 <= k < Units(fmt)
    requires forall j :: 0 <= j < |sh| ==> sh[j] == if j < FrameOffset(fmt, k) then f0[j] else s0[j]
    ensures Changed(fmt, sh, f0, k) == Changed(fmt, s0, f0, k)
    ensures Changed(fmt, s0, f0, k) ==> s0 != f0
  {
    FrameSlots(fmt, k, k);
    SlotEqual(sh, s0, FrameOffset(fmt, k), UnitBytes(fmt.Kind()));
  }

  /** After unit k is copied the frame reaches one unit further into the shadow. */
  lemma {:induction false} AdvancedUnit(fmt: Format, s0: seq<bv8>, f0: seq<bv8>, sh: seq<bv8>, sh': seq<bv8>, k: int, next: int)
    requires Supported(fmt) && fmt.Kind() != Unsupported
    requires |s0| == |f0| == |sh| == |sh'| == FrameSize(fmt) && 0 <= k < Units(fmt) && next == k + 1
    requires FrameOffset(fmt, k + 1) == FrameOffset(fmt, k) + UnitBytes(fmt.Kind())
    requires forall j :: 0 <= j < |sh| ==> sh[j] == if j < FrameOffset(fmt, k) then f0[j] else s0[j]
    requires forall j :: 0 <= j < |sh'| ==>
      sh'[j] == if FrameOffset(fmt, k) <= j < FrameOffset(fmt, k) + UnitBytes(fmt.Kind()) then f0[j] else sh[j]
    ensures forall j :: 0 <= j < |sh'| ==> sh'[j] == if j < FrameOffset(fmt, next) then f0[j] else s0[j]
  {
  }

  /** Visiting unit k extends the changed units, and the bounds, by unit k if it changed. */
  lemma {:induction false} HitsAdvance(fmt: Format, s0: seq<bv8>, f0: seq<bv8>, k: nat, next: nat)
    requires Supported(fmt) && next == k + 1
    ensures ChangedHits(fmt, s0, f0, next) ==
      if Changed(fmt, s0, f0, k) then ChangedHits(fmt, s0, f0, k) + [HitAt(fmt, k)] else ChangedHits(fmt, s0, f0, k)
    ensures Scan(RuleOf(fmt.Kind()), ChangedHits(fmt, s0, f0, next)) ==
      if Changed(fmt, s0, f0, k) then Grow(RuleOf(fmt.Kind()), Scan(RuleOf(fmt.Kind()), ChangedHits(fmt, s0, f0, k)), HitAt(fmt, k))
      else Scan(RuleOf(fmt.Kind()), ChangedHits(fmt, s0, f0, k))
  {
    var prev := ChangedHits(fmt, s0, f0, k);
    if Changed(fmt, s0, f0, k) {
      assert ChangedHits(fmt, s0, f0, next) == prev + [HitAt(fmt, k)];
      ScanAppend(RuleOf(fmt.Kind()), prev, HitAt(fmt, k));
    } else {
      assert ChangedHits(fmt, s0, f0, next) == prev;
    }
  }

  // ---------------------------------------------------------------------
  // The differ

  class FrameMirror {
    const fmt: Format
    /** fbmmap: the live frame, refreshed by the hardware between calls. */
    const fb: array<bv8>
    /** fbbuf: the shadow copy. */
    const shadow: array<bv8>
    /** vncbuf: the buffer the RFB server sends from. */
    const remote: array<bv8>
    /** varblock.min_i, min_j, max_i, max_j. */
    var minI: int
    var minJ: int
    var maxI: int
    var maxJ: int
    /** server->width. */
    var width: int
    /** Rectangles passed to rfbMarkRectAsModified, oldest first. */
    ghost var marked: seq<Rect>

    ghost predicate Valid()
      reads this, shadow, remote
    {
      && Supported(fmt)
      && fb != shadow && fb != remote && shadow != remote
      && fb.Length == FrameSize(fmt) && shadow.Length == FrameSize(fmt)
      && remote.Length == RemoteSize(fmt)
      && Transcodes(fmt, shadow[..], remote[..])
    }

    function Tracked(): Bounds
      reads this
    {
      Bounds(minI, minJ, maxI, maxJ)
    }

    /**
     * Buffer set-up of init_fb_server (main.c:274-284, 309-313): a zeroed
     * shadow, a remote buffer filled with 0xFF at 1 bpp and 0x00 otherwise,
     * the whole screen marked, and the channel shifts.
     */
    constructor (frame: array<bv8>, xres: nat, yres: nat, bpp: nat, rotate: int,
                 red: Channel, green: Channel, blue: Channel)
      requires Supported(MakeFormat(xres, yres, bpp, rotate, red, green, blue))
      requires frame.Length == FrameSize(MakeFormat(xres, yres, bpp, rotate, red, green, blue))
      ensures Valid() && fresh(shadow) && fresh(remote)
      ensures fb == frame && fmt == MakeFormat(xres, yres, bpp, rotate, red, green, blue)
      ensures forall j :: 0 <= j < shadow.Length ==> shadow[j] == 0
      ensures forall j :: 0 <= j < remote.Length ==> remote[j] == if bpp == 1 then 0xFF else 0x00
      ensures width == xres && marked == [Rect(0, 0, xres, yres)]
    {
      var f := MakeFormat(xres, yres, bpp, rotate, red, green, blue);
      var fill: bv8 := if bpp == 1 then 0xFF else 0x00;
      fmt := f;
      fb := frame;
      remote := new bv8[RemoteSize(f)](_ => fill);
      shadow := new bv8[FrameSize(f)](_ => 0);
      minI, minJ, maxI, maxJ := 0, 0, 0, 0;
      width := xres;
      marked := [Rect(0, 0, xres, yres)];
      new;
      TranscodesInitial(fmt, shadow[..], remote[..]);
    }

    /**
     * update_screen. The frame is compared with the shadow as a whole first;
     * if it differs, every unit that changed is copied into the shadow, its
     * transcoding is written to the remote buffer and the dirty bounds grow.
     * A rectangle is marked when min_i left 9999. Returns true where the
     * process exits: a depth/rotation pair no branch handles, or an invalid
     * angle once a pixel changed.
     */
    method UpdateScreen() returns (exited: bool)
      requires Valid()
      modifies this, shadow, remote
      ensures exited <==>
        (fmt.Kind() == Unsupported || (fmt.Kind().Rotated16? && !ValidAngle(fmt.rotate) && old(shadow[..]) != fb[..]))
      ensures !exited ==> Valid() && shadow[..] == fb[..]
      ensures !exited ==> Tracked() == Settle(Scan(RuleOf(fmt.Kind()), FrameHits(fmt, old(shadow[..]), fb[..])))
      ensures !exited ==> marked == old(marked) + match MarkOf(Tracked()) case Some(r) => [r] case None => []
      ensures old(shadow[..]) == fb[..] ==>
        shadow[..] == old(shadow[..]) && remote[..] == old(remote[..]) && marked == old(marked)
      ensures fmt.Kind().Rotated16? && ValidAngle(fmt.rotate) ==> width == RotatedWidth(fmt.rotate, fmt.xres, fmt.yres)
    {
      minI, minJ := 9999, 9999;
      maxI, maxJ := -1, -1;
      var kind := fmt.Kind();
      if kind == Unsupported {
        return true;
      }
      if kind.Rotated16? {
        if kind.angle == 0 || kind.angle == 180 {
          width := fmt.xres;
        } else if kind.angle == 90 || kind.angle == 270 {
          width := fmt.yres;
        }
      }
      exited := false;
      if fb[..] != shadow[..] {
        exited := Walk();
        if exited {
          return;
        }
      } else {
        Geometry(fmt);
        ChangedHitsNone(fmt, shadow[..], fb[..], Units(fmt));
      }
      MarkDirty();
    }

    /**
     * The end of update_screen (main.c:601-608): once min_i moved, a missing
     * maximum takes the minimum's value and the rectangle is marked.
     */
    method MarkDirty()
      modifies this`maxI, this`maxJ, this`marked
      ensures Tracked() == Settle(old(Tracked()))
      ensures marked == old(marked) + match MarkOf(Tracked()) case Some(r) => [r] case None => []
    {
      if minI < 9999 {
        if maxI < 0 {
          maxI := minI;
        }
        if maxJ < 0 {
          maxJ := minJ;
        }
        marked := marked + [Rect(minI, minJ, maxI + 2, maxJ + 1)];
      }
    }

    /** The row-by-row walk shared by the four branches. */
    method Walk() returns (exited: bool)
      requires Valid() && fmt.Kind() != Unsupported
      requires Tracked() == Cleared
      requires fmt.Kind().Rotated16? && ValidAngle(fmt.rotate) ==> width == RotatedWidth(fmt.rotate, fmt.xres, fmt.yres)
      modifies shadow, remote, this`minI, this`minJ, this`maxI, this`maxJ
      ensures exited <==> !Walks(fmt) && old(shadow[..]) != fb[..]
      ensures !exited ==> Valid() && shadow[..] == fb[..]
      ensures !exited ==> Tracked() == Scan(RuleOf(fmt.Kind()), FrameHits(fmt, old(shadow[..]), fb[..]))
    {
      ghost var s0 := shadow[..];
      Geometry(fmt);
      var w := UnitsPerRow(fmt);
      var y := 0;
      var k := 0;
      while y < fmt.yres
        invariant 0 <= y <= fmt.yres && k == w * y
        invariant Scanned(s0, k)
      {
        MulSucc(w, y);
        exited, k := WalkRow(y, k, s0);
        if exited {
          return;
        }
        y := y + 1;
      }
      exited := false;
      assert shadow[..] == fb[..];
      if !Walks(fmt) {
        ChangedHitsNone(fmt, s0, fb[..], Units(fmt));
        assert s0 == fb[..];
      }
    }

    /**
     * The state after the first k units of a walk that started from shadow
     * s0: those units are copied, the rest untouched, the bounds are those of
     * the changes met so far, and without a usable angle nothing changed yet.
     */
    ghost predicate Scanned(s0: seq<bv8>, k: int)
      reads this, fb, shadow, remote
    {
      && Valid() && fmt.Kind() != Unsupported
      && |s0| == shadow.Length && 0 <= k <= Units(fmt)
      && (fmt.Kind().Rotated16? && ValidAngle(fmt.rotate) ==> width == RotatedWidth(fmt.rotate, fmt.xres, fmt.yres))
      && (forall j :: 0 <= j < shadow.Length ==> shadow[j] == if j < FrameOffset(fmt, k) then fb[j] else s0[j])
      && Tracked() == Scan(RuleOf(fmt.Kind()), ChangedHits(fmt, s0, fb[..], k))
      && (!Walks(fmt) ==> ChangedHits(fmt, s0, fb[..], k) == [])
    }

    /** One row: the inner loop over x, xstep pixels at a time. */
    method WalkRow(y: nat, k0: nat, ghost s0: seq<bv8>) returns (exited: bool, k: nat)
      requires y < fmt.yres && Scanned(s0, k0)
      requires k0 == UnitsPerRow(fmt) * y
      modifies shadow, remote, this`minI, this`minJ, this`maxI, this`maxJ
      ensures exited ==> !Walks(fmt) && s0 != fb[..]
      ensures !exited ==> k == k0 + UnitsPerRow(fmt) && Scanned(s0, k)
    {
      var kind := fmt.Kind();
      SupportedSteps(fmt);
      var w := UnitsPerRow(fmt);
      var step := PixelsPerUnit(kind);
      assert fmt.xres == step * w by {
        Geometry(fmt);
      }
      var x := 0;
      ghost var i := 0;
      k := k0;
      while x < fmt.xres
        invariant 0 <= i <= w && x == step * i && k == k0 + i
        invariant Scanned(s0, k)
      {
        MulStep(step, i, w);
        exited, k := StepInWalk(x, y, i, k, s0);
        if exited {
          return;
        }
        x := x + step;
        i := i + 1;
      }
      MulStep(step, i, w);
      assert k == k0 + w;
      exited := false;
    }

    /** Step with the walk's bookkeeping: the state advances by one unit. */
    method StepInWalk(x: nat, y: nat, ghost i: nat, k: nat, ghost s0: seq<bv8>) returns (exited: bool, next: nat)
      requires Scanned(s0, k) && i < UnitsPerRow(fmt) && y < fmt.yres
      requires x == PixelsPerUnit(fmt.Kind()) * i && k == UnitsPerRow(fmt) * y + i
      modifies shadow, remote, this`minI, this`minJ, this`maxI, this`maxJ
      ensures next == k + 1
      ensures exited ==> !Walks(fmt) && s0 != fb[..]
      ensures !exited ==> Scanned(s0, next)
    {
      ghost var sh := shadow[..];
      UnitInFrame(fmt, i, y);
      AdvanceUnit(fmt, s0, fb[..], sh, k);
      next := k + 1;
      exited := Step(x, y, i, k);
      if exited {
        return;
      }
      AdvancedUnit(fmt, s0, fb[..], sh, shadow[..], k, next);
      HitsAdvance(fmt, s0, fb[..], k, next);
    }

    /**
     * One unit: compare, and if it changed copy it into the shadow, write its
     * transcoding and grow the dirty bounds.
     */
    method Step(x: nat, y: nat, ghost i: nat, k: nat) returns (exit: bool)
      requires Valid() && fmt.Kind() != Unsupported
      requires i < UnitsPerRow(fmt) && y < fmt.yres
      requires x == PixelsPerUnit(fmt.Kind()) * i && k == UnitsPerRow(fmt) * y + i
      requires fmt.Kind().Rotated16? && ValidAngle(fmt.rotate) ==> width == RotatedWidth(fmt.rotate, fmt.xres, fmt.yres)
      modifies shadow, remote, this`minI, this`minJ, this`maxI, this`maxJ
      ensures var changed := Changed(fmt, old(shadow[..]), fb[..], k);
        && (exit <==> changed && !Walks(fmt))
        && (!exit ==> Valid())
        && (!exit ==> forall j :: 0 <= j < shadow.Length ==>
              shadow[j] == if FrameOffset(fmt, k) <= j < FrameOffset(fmt, k) + UnitBytes(fmt.Kind()) then fb[j] else old(shadow[j]))
        && (!exit ==> Tracked() == if changed then Grow(RuleOf(fmt.Kind()), old(Tracked()), HitAt(fmt, k)) else old(Tracked()))
        && (!changed ==> shadow[..] == old(shadow[..]) && remote[..] == old(remote[..]))
    {
      var nb := UnitBytes(fmt.Kind());
      UnitInFrame(fmt, i, y);
      var f := FrameOffset(fmt, k);
      ghost var s := shadow[..];
      var pixel := Load(fb, f, nb);
      var comp := Load(shadow, f, nb);
      exit := false;
      if pixel != comp {
        CopyUnit(f, nb);
        SlotEqual(shadow[..], fb[..], f, nb);
        if !Walks(fmt) {
          return true;
        }
        Emit(x, y, i, k, pixel, s);
      } else {
        LeInjective(Slot(s, f, nb), Slot(fb[..], f, nb));
      }
    }

    /**
     * The branch-specific part of a changed unit: the remote write and the
     * bounds rule. Afterwards the remote buffer again transcodes the shadow.
     */
    method Emit(x: nat, y: nat, ghost i: nat, k: nat, pixel: bv32, ghost s: seq<bv8>)
      requires Supported(fmt) && Walks(fmt)
      requires fb != shadow && fb != remote && shadow != remote
      requires fb.Length == FrameSize(fmt) && shadow.Length == FrameSize(fmt) && remote.Length == RemoteSize(fmt)
      requires i < UnitsPerRow(fmt) && y < fmt.yres
      requires x == PixelsPerUnit(fmt.Kind()) * i && k == UnitsPerRow(fmt) * y + i
      requires fmt.Kind().Rotated16? ==> width == RotatedWidth(fmt.rotate, fmt.xres, fmt.yres)
      requires |s| == shadow.Length && Transcodes(fmt, s, remote[..])
      requires forall j :: 0 <= j < |s| && !(FrameOffset(fmt, k) <= j < FrameOffset(fmt, k) + UnitBytes(fmt.Kind())) ==>
        shadow[j] == s[j]
      requires UnitValue(fmt, shadow[..], k) == pixel
      modifies remote, this`minI, this`minJ, this`maxI, this`maxJ
      ensures Valid()
      ensures Tracked() == Grow(RuleOf(fmt.Kind()), old(Tracked()), HitAt(fmt, k))
    {
      UnitInFrame(fmt, i, y);
      GrowAt(x, y, i, k);
      Transcribe(x, y, k, pixel, s);
    }

    /** The remote write of a changed unit, after which the remote buffer transcodes the shadow again. */
    method Transcribe(x: nat, y: nat, k: nat, pixel: bv32, ghost s: seq<bv8>)
      requires Supported(fmt) && Walks(fmt)
      requires fb != shadow && fb != remote && shadow != remote
      requires fb.Length == FrameSize(fmt) && shadow.Length == FrameSize(fmt) && remote.Length == RemoteSize(fmt)
      requires 0 <= k < Units(fmt) && RemoteSize(fmt) == RemoteUnitBytes(fmt.Kind()) * Units(fmt)
      requires fmt.Kind().Rotated16? ==>
        && x < fmt.xres && y < fmt.yres && k % fmt.xres == x && k / fmt.xres == y && UnitsPerRow(fmt) == fmt.xres
        && remote.Length == 2 * (fmt.xres * fmt.yres) && width == RotatedWidth(fmt.rotate, fmt.xres, fmt.yres)
      requires |s| == shadow.Length && Transcodes(fmt, s, remote[..])
      requires forall j :: 0 <= j < |s| && !(FrameOffset(fmt, k) <= j < FrameOffset(fmt, k) + UnitBytes(fmt.Kind())) ==>
        shadow[j] == s[j]
      requires UnitValue(fmt, shadow[..], k) == pixel
      modifies remote
      ensures Valid()
    {
      ghost var rm := remote[..];
      RemoteSlots(fmt, k, k);
      WriteRemote(x, y, k, pixel);
      TranscodesAfterUnit(fmt, s, rm, shadow[..], remote[..], k);
    }

    /** The remote store of a changed unit, in each branch's own form. */
    method WriteRemote(x: nat, y: nat, k: nat, pixel: bv32)
      requires Supported(fmt) && Walks(fmt)
      requires 0 <= k < Units(fmt) && remote.Length == RemoteSize(fmt)
      requires RemoteSize(fmt) == RemoteUnitBytes(fmt.Kind()) * Units(fmt)
      requires 0 <= RemoteOffset(fmt, k) && RemoteOffset(fmt, k) + RemoteUnitBytes(fmt.Kind()) <= remote.Length
      requires fmt.Kind().Rotated16? ==>
        && x < fmt.xres && y < fmt.yres && k % fmt.xres == x && k / fmt.xres == y && UnitsPerRow(fmt) == fmt.xres
        && remote.Length == 2 * (fmt.xres * fmt.yres) && width == RotatedWidth(fmt.rotate, fmt.xres, fmt.yres)
      modifies remote
      ensures WroteSlot(old(remote[..]), RemoteOffset(fmt, k), Encode(fmt, pixel))
    {
      match fmt.Kind() {
        case Rgb24 =>
          EmitRgb24(3 * k, pixel);
        case Mono =>
          EmitMono(8 * k, (pixel & 0xFF) as bv8);
        case Packed(_) =>
          EmitPacked(4 * k, pixel);
        case Rotated16(_) =>
          EmitRotated(x, y, pixel);
      }
    }

    /** The dirty-bound update of a changed unit: the rotated rule or the straight one. */
    method GrowAt(x: nat, y: nat, ghost i: nat, k: nat)
      requires Supported(fmt) && Walks(fmt)
      requires i < UnitsPerRow(fmt) && y < fmt.yres
      requires x == PixelsPerUnit(fmt.Kind()) * i
      requires k % UnitsPerRow(fmt) == i && k / UnitsPerRow(fmt) == y
      modifies this`minI, this`minJ, this`maxI, this`maxJ
      ensures Tracked() == Grow(RuleOf(fmt.Kind()), old(Tracked()), HitAt(fmt, k))
    {
      var kind := fmt.Kind();
      if kind.Rotated16? {
        var d := Rotate(kind.angle, fmt.xres, fmt.yres, x, y);
        GrowRotated(d.x, d.y);
      } else {
        var step := PixelsPerUnit(kind);
        GrowStraight(x, x + step - 1, y);
      }
    }

    /** A unit-sized little-endian load from byte f of a. */
    static method Load(a: array<bv8>, f: nat, nb: nat) returns (v: bv32)
      requires 1 <= nb <= 4 && f + nb <= a.Length
      ensures v == Le(Slot(a[..], f, nb))
    {
      var b1: bv8 := if nb > 1 then a[f + 1] else 0;
      var b2: bv8 := if nb > 2 then a[f + 2] else 0;
      var b3: bv8 := if nb > 3 then a[f + 3] else 0;
      v := Word(a[f], b1, b2, b3);
    }

    /** *c = pixel: the unit's bytes go into the shadow. */
    method CopyUnit(f: nat, nb: nat)
      requires fb != shadow && f + nb <= fb.Length && f + nb <= shadow.Length
      modifies shadow
      ensures forall j :: 0 <= j < shadow.Length ==>
        shadow[j] == if f <= j < f + nb then fb[j] else old(shadow[j])
    {
      var j := 0;
      while j < nb
        invariant 0 <= j <= nb
        invariant forall t :: 0 <= t < shadow.Length ==>
          shadow[t] == if f <= t < f + j then fb[t] else old(shadow[t])
      {
        shadow[f + j] := fb[f + j];
        j := j + 1;
      }
    }

    /** The remote buffer changed from r0 only at o .. o + |e|, which now holds e. */
    ghost predicate WroteSlot(r0: seq<bv8>, o: int, e: seq<bv8>)
      reads remote
    {
      && remote.Length == |r0| && 0 <= o && o + |e| <= |r0|
      && (forall j :: 0 <= j < |r0| && !(o <= j < o + |e|) ==> remote[j] == r0[j])
      && Slot(remote[..], o, |e|) == e
    }

    /** 24-bit branch: three remote bytes of PIXEL_FB_TO_RFB at r (main.c:381-385). */
    method EmitRgb24(r: nat, pixel: bv32)
      requires Supported(fmt) && fmt.Kind() == Rgb24
      requires r + 3 <= remote.Length
      modifies remote
      ensures WroteSlot(old(remote[..]), r, Le3(Transcode(pixel, fmt.rShift, fmt.gShift, fmt.bShift)))
    {
      var rem := Transcode(pixel, fmt.rShift, fmt.gShift, fmt.bShift);
      Store24(r, rem);
    }

    /** 1-bit branch: eight remote bytes at r, most significant bit first (main.c:426-429). */
    method EmitMono(r: nat, pixels: bv8)
      requires r + 8 <= remote.Length
      modifies remote
      ensures WroteSlot(old(remote[..]), r, MonoBytes(pixels))
    {
      var bit := 0;
      while bit < 8
        invariant 0 <= bit <= 8
        invariant forall j :: 0 <= j < remote.Length && !(r <= j < r + bit) ==> remote[j] == old(remote[j])
        invariant forall b :: 0 <= b < bit ==> remote[r + b] == MonoPixel(pixels, b)
      {
        remote[r + bit] := MonoPixel(pixels, bit);
        bit := bit + 1;
      }
      MonoSlot(remote[..], r, pixels);
    }

    /** Generic branch: one remote word at r per framebuffer word (main.c:472-489). */
    method EmitPacked(r: nat, pixel: bv32)
      requires Supported(fmt) && fmt.Kind().Packed?
      requires r + 4 <= remote.Length
      modifies remote
      ensures (SupportedSteps(fmt);
        WroteSlot(old(remote[..]), r, Le4(PackedWord(fmt.Kind().bytespp, pixel, fmt.rShift, fmt.gShift, fmt.bShift))))
    {
      SupportedSteps(fmt);
      var word := PackedWord(fmt.Kind().bytespp, pixel, fmt.rShift, fmt.gShift, fmt.bShift);
      Store32(r, word);
    }

    /** Rotated branch: r[y2 * server->width + x2] = PIXEL_FB_TO_RFB(pixel) (main.c:544-576). */
    method EmitRotated(x: nat, y: nat, pixel: bv32)
      requires Supported(fmt) && fmt.Kind().Rotated16? && ValidAngle(fmt.rotate)
      requires x < fmt.xres && y < fmt.yres
      requires width == RotatedWidth(fmt.rotate, fmt.xres, fmt.yres)
      requires remote.Length == 2 * (fmt.xres * fmt.yres)
      modifies remote
      ensures WroteSlot(old(remote[..]), 2 * RemoteIndex(fmt, x, y), Le2(Transcode(pixel, fmt.rShift, fmt.gShift, fmt.bShift)))
    {
      RotateInBounds(fmt.rotate, fmt.xres, fmt.yres, x, y);
      var x2, y2: int;
      if fmt.rotate == 0 {
        x2, y2 := x, y;
      } else if fmt.rotate == 90 {
        x2, y2 := fmt.yres - 1 - y, x;
      } else if fmt.rotate == 180 {
        x2, y2 := fmt.xres - 1 - x, fmt.yres - 1 - y;
      } else {
        x2, y2 := y, fmt.xres - 1 - x;
      }
      var idx := y2 * width + x2;
      assert idx == RemoteIndex(fmt, x, y);
      Store16(2 * idx, Transcode(pixel, fmt.rShift, fmt.gShift, fmt.bShift));
    }

    /** The low three bytes of rem, little-endian, at byte r. */
    method Store24(r: nat, rem: bv32)
      requires r + 3 <= remote.Length
      modifies remote
      ensures WroteSlot(old(remote[..]), r, Le3(rem))
    {
      remote[r + 0] := ((rem >> 0) & 0xFF) as bv8;
      remote[r + 1] := ((rem >> 8) & 0xFF) as bv8;
      remote[r + 2] := ((rem >> 16) & 0xFF) as bv8;
      assert Slot(remote[..], r, 3) == [remote[r], remote[r + 1], remote[r + 2]];
    }

    /** A 32-bit little-endian store at byte r. */
    method Store32(r: nat, word: bv32)
      requires r + 4 <= remote.Length
      modifies remote
      ensures WroteSlot(old(remote[..]), r, Le4(word))
    {
      remote[r + 0] := (word & 0xFF) as bv8;
      remote[r + 1] := ((word >> 8) & 0xFF) as bv8;
      remote[r + 2] := ((word >> 16) & 0xFF) as bv8;
      remote[r + 3] := ((word >> 24) & 0xFF) as bv8;
      assert Slot(remote[..], r, 4) == [remote[r], remote[r + 1], remote[r + 2], remote[r + 3]];
    }

    /** A 16-bit little-endian store at byte r. */
    method Store16(r: nat, v: bv32)
      requires r + 2 <= remote.Length
      modifies remote
      ensures WroteSlot(old(remote[..]), r, Le2(v))
    {
      remote[r] := (v & 0xFF) as bv8;
      remote[r + 1] := ((v >> 8) & 0xFF) as bv8;
      assert Slot(remote[..], r, 2) == [remote[r], remote[r + 1]];
    }

    /** Bounds rule of the unrotated branches (main.c:387-395, 431-440, 495-504). */
    method GrowStraight(x: int, x2: int, y: int)
      modifies this`minI, this`minJ, this`maxI, this`maxJ
      ensures Tracked() == Grow(Straight, old(Tracked()), Hit(x, x2, y))
    {
      if x < minI {
        minI := x;
      } else if x2 > maxI {
        maxI := x2;
      }
      if y > maxJ {
        maxJ := y;
      } else if y < minJ {
        minJ := y;
      }
    }

    /** Bounds rule of the rotated branch (main.c:578-589). */
    method GrowRotated(x2: int, y2: int)
      modifies this`minI, this`minJ, this`maxI, this`maxJ
      ensures Tracked() == Grow(Rotated, old(Tracked()), Hit(x2, x2, y2))
    {
      if x2 < minI {
        minI := x2;
      } else {
        if x2 > maxI {
          maxI := x2;
        }
        if y2 > maxJ {
          maxJ := y2;
        } else if y2 < minJ {
          minJ := y2;
        }
      }
    }
  }
}
