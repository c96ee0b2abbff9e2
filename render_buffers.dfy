/** Sizing and allocation of LVGL's rendering buffers
    (lvgl_allocate_rendering_buffers and the BUFFER_SIZE /
    NBR_PIXELS_IN_BUFFER macros), in the static and the dynamic build. */
module RenderBuffers {
  import opened Errors
  import opened Display
  import opened Memory

  /** Build configuration of the static mode (CONFIG_LV_Z_BUFFER_ALLOC_STATIC). */
  datatype StaticConfig = StaticConfig(
    bitsPerPixel: nat,  // CONFIG_LV_Z_BITS_PER_PIXEL
    vdbSize: nat,       // CONFIG_LV_Z_VDB_SIZE, percent of the frame
    horResMax: nat,     // CONFIG_LV_Z_HOR_RES_MAX
    verResMax: nat,     // CONFIG_LV_Z_VER_RES_MAX
    doubleVdb: bool)    // CONFIG_LV_Z_DOUBLE_VDB

  /** Build configuration of the dynamic mode. */
  datatype DynamicConfig = DynamicConfig(
    vdbSize: nat,       // CONFIG_LV_Z_VDB_SIZE
    doubleVdb: bool,    // CONFIG_LV_Z_DOUBLE_VDB
    descSize: nat)      // sizeof(lv_disp_draw_buf_t)

  /** disp_drv->draw_buf: NULL, or a descriptor at `at` initialised by
      lv_disp_draw_buf_init with the glue's buf0 and buf1 (NULL when single
      buffered) and a size in pixels. */
  datatype DrawBuf = NoDrawBuf | DrawBuf(at: Ptr, buf0: Ptr, buf1: Ptr, sizeInPx: nat)

  /** The fields of lv_disp_drv_t that the allocator writes. */
  class DispDrv {
    var horRes: int
    var verRes: int
    var drawBuf: DrawBuf

    /** The file-scope `disp_drv`, zero-initialised. */
    constructor ()
      ensures horRes == 0 && verRes == 0 && drawBuf == NoDrawBuf
    {
      horRes, verRes, drawBuf := 0, 0, NoDrawBuf;
    }

    /** lv_disp_drv_init as far as the glue depends on it: draw_buf is NULL.
        The resolution defaults LVGL writes are not promised. */
    method Init()
      modifies this
      ensures drawBuf == NoDrawBuf
    {
      drawBuf := NoDrawBuf;
    }
  }

  // ---------------------------------------------------------------------
  // Static mode

  /** Pixels of the configured maximum frame that one buffer should hold. */
  function StaticRequested(c: StaticConfig): nat
  {
    c.vdbSize * c.horResMax * c.verResMax / 100
  }

  /** BUFFER_SIZE: bytes reserved for each of buf0 and buf1, the whole
      bytes the requested share needs at the configured depth, rounded down. */
  function BufferSize(c: StaticConfig): (bytes: nat)
    ensures 8 * bytes <= c.bitsPerPixel * StaticRequested(c) < 8 * bytes + 8
  {
    c.bitsPerPixel * StaticRequested(c) / 8
  }

  /** NBR_PIXELS_IN_BUFFER: the pixel count handed to lv_disp_draw_buf_init.
      It fits the reserved array, is the largest count that does, and is no
      more than the requested share of the maximum frame. */
  function NbrPixelsInBuffer(c: StaticConfig): (n: nat)
    requires c.bitsPerPixel > 0
    ensures n * c.bitsPerPixel <= 8 * BufferSize(c) < (n + 1) * c.bitsPerPixel
    ensures n <= StaticRequested(c)
  {
    var n := BufferSize(c) * 8 / c.bitsPerPixel;
    DivBounds(8 * BufferSize(c), c.bitsPerPixel);
    MulMonotone(n, StaticRequested(c), c.bitsPerPixel);
    n
  }

  lemma DivBounds(a: nat, b: nat)
    requires b > 0
    ensures (a / b) * b <= a < (a / b + 1) * b
  {
    assert a == (a / b) * b + a % b;
  }

  lemma MulMonotone(n: nat, p: nat, b: nat)
    requires b > 0 && n * b <= p * b
    ensures n <= p
  {
    assert n * b - p * b == (n - p) * b;
  }

  /** What the static allocator guarantees whatever the driver held
      before: a dimension within its maximum is written back, either one over
      its maximum gives -ENOTSUP, and the static descriptor is installed. */
  ghost predicate AllocatedStatic(c: StaticConfig, cap: Capabilities, err: Status,
                                  horRes: int, verRes: int, drawBuf: DrawBuf)
    requires c.bitsPerPixel > 0
  {
    (cap.xRes <= c.horResMax ==> horRes == cap.xRes) &&
    (cap.yRes <= c.verResMax ==> verRes == cap.yRes) &&
    err == (if cap.xRes <= c.horResMax && cap.yRes <= c.verResMax then Ok else Fail(ENOTSUP)) &&
    drawBuf == DrawBuf(Static(DispBuf), Static(Buf0),
                       if c.doubleVdb then Static(Buf1) else Null, NbrPixelsInBuffer(c))
  }

  /** lvgl_allocate_rendering_buffers, static build: a live dimension is
      written back only when it fits its ceiling, a dimension that does not
      fit makes the result -ENOTSUP, and the static descriptor is installed
      and initialised in every case. */
  method AllocateStatic(drv: DispDrv, c: StaticConfig, cap: Capabilities) returns (err: Status)
    requires c.bitsPerPixel > 0
    modifies drv
    ensures drv.horRes == if cap.xRes <= c.horResMax then cap.xRes else old(drv.horRes)
    ensures drv.verRes == if cap.yRes <= c.verResMax then cap.yRes else old(drv.verRes)
    ensures err == if cap.xRes <= c.horResMax && cap.yRes <= c.verResMax then Ok else Fail(ENOTSUP)
    ensures drv.drawBuf == DrawBuf(Static(DispBuf), Static(Buf0),
                                   if c.doubleVdb then Static(Buf1) else Null,
                                   NbrPixelsInBuffer(c))
  {
    err := Ok;
    if cap.xRes <= c.horResMax {
      drv.horRes := cap.xRes;
    } else {
      err := Fail(ENOTSUP);
    }
    if cap.yRes <= c.verResMax {
      drv.verRes := cap.yRes;
    } else {
      err := Fail(ENOTSUP);
    }
    var buf1 := if c.doubleVdb then Static(Buf1) else Null;
    drv.drawBuf := DrawBuf(Static(DispBuf), Static(Buf0), buf1, NbrPixelsInBuffer(c));
  }

  // ---------------------------------------------------------------------
  // Dynamic mode

  /** The share of the live frame asked for, before narrowing to 16 bits. */
  function FramePercent(vdbSize: nat, horRes: u16, verRes: u16): nat
  {
    vdbSize * horRes * verRes / 100
  }

  /** buf_nbr_pixels: the requested share stored in a uint16_t, then raised
      to one full row if it is shorter. */
  function DynamicPixelCount(vdbSize: nat, horRes: u16, verRes: u16): (n: u16)
    ensures horRes <= n
    ensures FramePercent(vdbSize, horRes, verRes) % 0x1_0000 <= n
    ensures n != horRes ==> n == FramePercent(vdbSize, horRes, verRes) % 0x1_0000
  {
    var wrapped := FramePercent(vdbSize, horRes, verRes) % 0x1_0000;
    if wrapped < horRes then horRes else wrapped
  }

  /** Outcome of the pixel-format switch. */
  datatype SizeResult = Unsupported | Bytes(count: nat)

  predicate Supported(f: PixelFormat)
  {
    f != Unlisted
  }

  /** Colour depth of each format the switch accepts. */
  function BitsPerPixel(f: PixelFormat): nat
    requires Supported(f)
  {
    match f
    case ARGB8888 => 32
    case RGB888 => 24
    case RGB565 => 16
    case Mono01 => 1
    case Mono10 => 1
  }

  /** buf_size: the fewest whole bytes that hold n pixels of format f;
      -ENOTSUP for a format the switch does not list. */
  function BufSize(f: PixelFormat, n: nat): (r: SizeResult)
    ensures r.Unsupported? <==> !Supported(f)
    ensures r.Bytes? ==> n * BitsPerPixel(f) <= 8 * r.count < n * BitsPerPixel(f) + 8
  {
    match f
    case ARGB8888 => Bytes(4 * n)
    case RGB888 => Bytes(3 * n)
    case RGB565 => Bytes(2 * n)
    case Mono01 | Mono10 => Bytes(n / 8 + if n % 8 == 0 then 0 else 1)
    case Unlisted => Unsupported
  }

  /** When the requested share fits 16 bits and covers a row, it is used as is. */
  lemma PixelCountExact(vdbSize: nat, horRes: u16, verRes: u16)
    requires horRes <= FramePercent(vdbSize, horRes, verRes) < 0x1_0000
    ensures DynamicPixelCount(vdbSize, horRes, verRes) == FramePercent(vdbSize, horRes, verRes)
  {
  }

  /** The uint16_t narrowing as written: a 320x240 frame at 100% asks for
      76800 pixels and gets 76800 mod 65536; a 256x256 frame wraps to 0 and
      is raised to one row. */
  lemma PixelCountWrapExamples()
    ensures DynamicPixelCount(100, 320, 240) == 11264
    ensures DynamicPixelCount(100, 256, 256) == 256
  {
  }

  /** The static build has no one-row minimum: a 1% share of a 320x64
      maximum frame is 204 pixels, less than one 320-pixel row. */
  lemma StaticBufferBelowRow()
    ensures NbrPixelsInBuffer(StaticConfig(16, 1, 320, 64, false)) == 204 < 320
  {
  }

  /** A monochrome buffer rounds up to whole bytes. */
  lemma MonoByteExamples()
    ensures BufSize(Mono01, 15) == Bytes(2)
    ensures BufSize(Mono10, 16) == Bytes(2)
    ensures BufSize(Mono01, 17) == Bytes(3)
  {
  }

  /** No smaller byte count holds n pixels of the format. */
  lemma BufSizeIsLeast(f: PixelFormat, n: nat, m: nat)
    requires Supported(f) && n * BitsPerPixel(f) <= 8 * m
    ensures BufSize(f, n).count <= m
  {
  }

  /** The dynamically sized buffer always holds at least one full row of
      the display in its pixel format. */
  lemma DynamicBufferHoldsRow(vdbSize: nat, cap: Capabilities)
    requires Supported(cap.format)
    ensures var n := DynamicPixelCount(vdbSize, cap.xRes, cap.yRes);
            8 * BufSize(cap.format, n).count >= cap.xRes * BitsPerPixel(cap.format)
  {
  }

  /** The heap after a successful allocation: exactly buf0, buf1 (NULL
      unless double-buffered) and the descriptor were added, all fresh and
      distinct, and the descriptor records n pixels. */
  ghost predicate Installed(d: DrawBuf, c: DynamicConfig, n: nat, size: nat,
                            before: map<nat, nat>, after: map<nat, nat>)
  {
    d.DrawBuf? && d.at.Block? && d.buf0.Block? && d.sizeInPx == n &&
    (if c.doubleVdb then d.buf1.Block? else d.buf1 == Null) &&
    d.buf0.id !in before && d.at.id !in before && d.buf0.id != d.at.id &&
    (c.doubleVdb ==> d.buf1.id !in before && d.buf1.id != d.buf0.id && d.buf1.id != d.at.id) &&
    after == (if c.doubleVdb then before[d.buf0.id := size][d.buf1.id := size]
              else before[d.buf0.id := size])[d.at.id := c.descSize]
  }

  /** What the dynamic allocator leaves behind, from the descriptor and the
      live blocks before the call: the live resolution is written back; an
      unlisted format fails with -ENOTSUP before any allocation; a failed
      allocation returns -ENOMEM with every block it took released; success
      installs exactly the new blocks. */
  ghost predicate AllocatedDynamic(c: DynamicConfig, cap: Capabilities, err: Status,
                                   drawBuf0: DrawBuf, live0: map<nat, nat>,
                                   horRes: int, verRes: int, drawBuf: DrawBuf, live: map<nat, nat>)
  {
    horRes == cap.xRes && verRes == cap.yRes &&
    (!Supported(cap.format) ==> err == Fail(ENOTSUP) && live == live0 && drawBuf == drawBuf0) &&
    (Supported(cap.format) ==> err == Ok || err == Fail(ENOMEM)) &&
    (err == Fail(ENOMEM) ==> live == live0 && (drawBuf == drawBuf0 || drawBuf == NoDrawBuf)) &&
    (err == Ok ==>
       var n := DynamicPixelCount(c.vdbSize, cap.xRes, cap.yRes);
       Installed(drawBuf, c, n, BufSize(cap.format, n).count, live0, live))
  }

  /** lvgl_allocate_rendering_buffers, dynamic build. */
  method AllocateDynamic(drv: DispDrv, heap: Heap, c: DynamicConfig, cap: Capabilities)
    returns (err: Status)
    requires heap.Valid()
    modifies drv, heap
    ensures heap.Valid()
    ensures AllocatedDynamic(c, cap, err, old(drv.drawBuf), old(heap.live),
                             drv.horRes, drv.verRes, drv.drawBuf, heap.live)
  {
    var buf0: Ptr := Null;
    var buf1: Ptr := Null;
    drv.horRes := cap.xRes;
    drv.verRes := cap.yRes;
    var n := DynamicPixelCount(c.vdbSize, cap.xRes, cap.yRes);
    var size := BufSize(cap.format, n);
    if size.Unsupported? {
      return Fail(ENOTSUP);
    }
    ghost var before := heap.live;

    buf0 := heap.Alloc(size.count);
    if buf0 == Null {
      return Fail(ENOMEM);
    }
    if c.doubleVdb {
      buf1 := heap.Alloc(size.count);
      if buf1 == Null {
        heap.Free(buf0);
        assert heap.live == before;
        return Fail(ENOMEM);
      }
    }
    var at := heap.Alloc(c.descSize);
    if at == Null {
      drv.drawBuf := NoDrawBuf;
      heap.Free(buf0);
      heap.Free(buf1);
      assert heap.live == before;
      return Fail(ENOMEM);
    }
    drv.drawBuf := DrawBuf(at, buf0, buf1, n);
    return Ok;
  }
}
