/** The kscan pointer input path: the bounded message queue kscan_msgq, the
    kscan callback that fills it, and the LVGL read callback that drains it
    and maps scan coordinates to display coordinates. */
module PointerInput {
  import opened Errors
  import opened Display

  /** uint32_t, the width of the row and column the kscan driver reports. */
  type u32 = x: int | 0 <= x < 0x1_0000_0000

  datatype IndevState = Released | Pressed  // LV_INDEV_STATE_REL / _PR

  /** The parts of lv_indev_data_t the glue fills; coordinates are lv_coord_t. */
  datatype IndevData = IndevData(x: int, y: int, state: IndevState)

  /** CONFIG_LV_Z_POINTER_KSCAN_SWAP_XY, _INVERT_X and _INVERT_Y. */
  datatype PointerConfig = PointerConfig(swapXY: bool, invertX: bool, invertY: bool)

  // ---------------------------------------------------------------------
  // The queue and its producer

  /** The state of a queue of `capacity` slots after offering `d` without
      waiting: appended when a slot is free, otherwise dropped. Nothing
      queued is lost or reordered, at most `d` is added, and a queue within
      its capacity stays within it. */
  function Offer(msgs: seq<IndevData>, capacity: nat, d: IndevData): (r: seq<IndevData>)
    ensures msgs <= r && |r| <= |msgs| + 1
    ensures |r| > |msgs| ==> r[|msgs|] == d
    ensures |msgs| < capacity ==> |r| > |msgs|
    ensures |msgs| <= capacity ==> |r| <= capacity
  {
    if |msgs| < capacity then msgs + [d] else msgs
  }

  /** The queue after a burst of callbacks with no reader in between. */
  function OfferAll(msgs: seq<IndevData>, capacity: nat, ds: seq<IndevData>): seq<IndevData>
    decreases |ds|
  {
    if ds == [] then msgs else OfferAll(Offer(msgs, capacity, ds[0]), capacity, ds[1..])
  }

  /** A burst keeps every queued sample and then as many of the new samples,
      oldest first, as there are free slots: the newest are the ones dropped. */
  lemma {:induction false} OfferAllKeepsOldest(msgs: seq<IndevData>, capacity: nat, ds: seq<IndevData>)
    requires |msgs| <= capacity
    ensures var kept := if |ds| <= capacity - |msgs| then |ds| else capacity - |msgs|;
            OfferAll(msgs, capacity, ds) == msgs + ds[..kept]
    decreases |ds|
  {
    if ds != [] {
      var next := Offer(msgs, capacity, ds[0]);
      OfferAllKeepsOldest(next, capacity, ds[1..]);
      if |msgs| < capacity {
        var kept := if |ds| <= capacity - |msgs| then |ds| else capacity - |msgs|;
        assert next + ds[1..][..kept - 1] == msgs + ds[..kept];
      } else {
        assert ds[..0] == [];
      }
    }
  }

  /** kscan_msgq: a K_MSGQ of CONFIG_LV_Z_POINTER_KSCAN_MSGQ_COUNT slots; put
      and get are atomic and never wait. */
  class Msgq {
    var msgs: seq<IndevData>
    const capacity: nat

    ghost predicate Valid()
      reads this
    {
      |msgs| <= capacity
    }

    constructor (capacity: nat)
      ensures Valid() && msgs == [] && this.capacity == capacity
    {
      msgs := [];
      this.capacity := capacity;
    }

    /** k_msgq_put(..., K_NO_WAIT). */
    method Put(d: IndevData) returns (rc: Status)
      requires Valid()
      modifies this
      ensures Valid()
      ensures rc == if |old(msgs)| < capacity then Ok else Fail(ENOMSG)
      ensures msgs == Offer(old(msgs), capacity, d)
    {
      if |msgs| < capacity {
        msgs := msgs + [d];
        rc := Ok;
      } else {
        rc := Fail(ENOMSG);
      }
    }

    /** k_msgq_get(..., K_NO_WAIT); on an empty queue `d` is not written by
        the source and carries no meaning here. */
    method Get() returns (rc: Status, d: IndevData)
      requires Valid()
      modifies this
      ensures Valid()
      ensures old(msgs) == [] ==> rc == Fail(ENOMSG) && msgs == old(msgs)
      ensures old(msgs) != [] ==> rc == Ok && d == old(msgs)[0] && msgs == old(msgs)[1..]
    {
      if msgs == [] {
        rc, d := Fail(ENOMSG), IndevData(0, 0, Released);
      } else {
        rc, d := Ok, msgs[0];
        msgs := msgs[1..];
      }
    }
  }

  /** The sample the callback builds: x from the column, y from the row,
      pressed when the key is down. */
  function Sample(row: u32, col: u32, pressed: bool): IndevData
  {
    IndevData(col, row, if pressed then Pressed else Released)
  }

  /** lvgl_pointer_kscan_callback: enqueue without waiting; a full queue
      drops the sample and keeps its contents. */
  method KscanCallback(q: Msgq, row: u32, col: u32, pressed: bool)
    requires q.Valid()
    modifies q
    ensures q.Valid()
    ensures |old(q.msgs)| < q.capacity ==> q.msgs == old(q.msgs) + [Sample(row, col, pressed)]
    ensures |old(q.msgs)| >= q.capacity ==> q.msgs == old(q.msgs)
  {
    var data := IndevData(col, row, if pressed then Pressed else Released);
    var rc := q.Put(data);
    // a failed put is only logged
  }

  // ---------------------------------------------------------------------
  // The coordinate transform

  predicate Upright(o: Orientation)
  {
    o == Normal || o == Rotated180
  }

  /** The limit X is inverted against: the display width when the display
      is upright or upside down, its height when it is turned by 90 or 270. */
  function InvertXLimit(cap: Capabilities): int
  {
    if Upright(cap.orientation) then cap.xRes else cap.yRes
  }

  function InvertYLimit(cap: Capabilities): int
  {
    if Upright(cap.orientation) then cap.yRes else cap.xRes
  }

  function Swapped(d: IndevData): IndevData
  {
    d.(x := d.y, y := d.x)
  }

  /** Steps 1-3: swap, invert X, invert Y, each when configured. */
  function Adjusted(cfg: PointerConfig, cap: Capabilities, d: IndevData): IndevData
  {
    var s := if cfg.swapXY then Swapped(d) else d;
    var ix := if cfg.invertX then s.(x := InvertXLimit(cap) - s.x) else s;
    if cfg.invertY then ix.(y := InvertYLimit(cap) - ix.y) else ix
  }

  /** Step 4: rotate to the display's current orientation. */
  function Rotated(cap: Capabilities, d: IndevData): IndevData
  {
    match cap.orientation
    case Normal => d
    case Rotated90 => d.(x := d.y, y := cap.yRes - d.x)
    case Rotated180 => d.(x := cap.xRes - d.x, y := cap.yRes - d.y)
    case Rotated270 => d.(x := cap.xRes - d.y, y := d.x)
  }

  /** The display-space sample for a raw scan sample. */
  function ToDisplay(cfg: PointerConfig, cap: Capabilities, d: IndevData): (r: IndevData)
    ensures r.state == d.state
  {
    Rotated(cap, Adjusted(cfg, cap, d))
  }

  /** The inverse of Rotated, defined on its own. */
  function Unrotated(cap: Capabilities, d: IndevData): IndevData
  {
    match cap.orientation
    case Normal => d
    case Rotated90 => d.(x := cap.yRes - d.y, y := d.x)
    case Rotated180 => d.(x := cap.xRes - d.x, y := cap.yRes - d.y)
    case Rotated270 => d.(x := d.y, y := cap.xRes - d.x)
  }

  /** The inverse of ToDisplay: undo rotation, then invert Y, invert X, swap. */
  function FromDisplay(cfg: PointerConfig, cap: Capabilities, d: IndevData): IndevData
  {
    var u := Unrotated(cap, d);
    var iy := if cfg.invertY then u.(y := InvertYLimit(cap) - u.y) else u;
    var ix := if cfg.invertX then iy.(x := InvertXLimit(cap) - iy.x) else iy;
    if cfg.swapXY then Swapped(ix) else ix
  }

  lemma RotatedRoundTrip(cap: Capabilities, d: IndevData)
    ensures Unrotated(cap, Rotated(cap, d)) == d
    ensures Rotated(cap, Unrotated(cap, d)) == d
  {
  }

  /** No information is lost: the raw sample can be recovered. */
  lemma ToDisplayRoundTrip(cfg: PointerConfig, cap: Capabilities, d: IndevData)
    ensures FromDisplay(cfg, cap, ToDisplay(cfg, cap, d)) == d
  {
  }

  /** Two different raw samples never map to the same display sample. */
  lemma ToDisplayInjective(cfg: PointerConfig, cap: Capabilities, a: IndevData, b: IndevData)
    requires ToDisplay(cfg, cap, a) == ToDisplay(cfg, cap, b)
    ensures a == b
  {
  }

  /** Width and height of the scan frame: the frame the invert limits
      assume, transposed when X and Y are swapped first. */
  function ScanWidth(cfg: PointerConfig, cap: Capabilities): int
  {
    if cfg.swapXY then InvertYLimit(cap) else InvertXLimit(cap)
  }

  function ScanHeight(cfg: PointerConfig, cap: Capabilities): int
  {
    if cfg.swapXY then InvertXLimit(cap) else InvertYLimit(cap)
  }

  predicate Within(d: IndevData, w: int, h: int)
  {
    0 <= d.x <= w && 0 <= d.y <= h
  }

  /** A sample inside the closed scan frame lands inside the closed frame
      [0, xRes] x [0, yRes], for every orientation and every combination of
      swap and inversions. The bounds are inclusive (see ToDisplayReachesRes). */
  lemma ToDisplayOnScreen(cfg: PointerConfig, cap: Capabilities, d: IndevData)
    requires Within(d, ScanWidth(cfg, cap), ScanHeight(cfg, cap))
    ensures Within(ToDisplay(cfg, cap, d), cap.xRes, cap.yRes)
  {
  }

  /** The frame's far edge is reached: a raw 0 is mapped to the resolution
      itself, not to resolution - 1, when X is inverted on an upright display
      and when the display is turned by 90 degrees. */
  lemma ToDisplayReachesRes(cap: Capabilities, d: IndevData)
    requires d.x == 0
    ensures cap.orientation == Normal ==>
              ToDisplay(PointerConfig(false, true, false), cap, d).x == cap.xRes
    ensures cap.orientation == Rotated90 ==>
              ToDisplay(PointerConfig(false, false, false), cap, d).y == cap.yRes
  {
  }

  /** With every flag off and the display upright the sample passes through. */
  lemma ToDisplayIdentity(cap: Capabilities, d: IndevData)
    requires cap.orientation == Normal
    ensures ToDisplay(PointerConfig(false, false, false), cap, d) == d
  {
  }

  /** A 100x200 display turned by 90 degrees: the touch at column 5, row 7
      is reported at (7, 200 - 5). */
  lemma Rotated90Example()
    ensures ToDisplay(PointerConfig(false, false, false),
                      Capabilities(100, 200, RGB565, Rotated90),
                      Sample(7, 5, true)) == IndevData(7, 195, Pressed)
  {
  }

  // ---------------------------------------------------------------------
  // The read callback

  /** One poll: an empty queue repeats the last sample; otherwise the head
      is dequeued, transformed and becomes the new last sample. Yields the
      new last sample and the rest of the queue. */
  function Poll(prev: IndevData, msgs: seq<IndevData>, cfg: PointerConfig, cap: Capabilities)
    : (r: (IndevData, seq<IndevData>))
    ensures |r.1| == if msgs == [] then 0 else |msgs| - 1
    ensures r.1 == msgs[|msgs| - |r.1|..]
    ensures r.0.state == (if msgs == [] then prev else msgs[0]).state
  {
    if msgs == [] then (prev, msgs) else (ToDisplay(cfg, cap, msgs[0]), msgs[1..])
  }

  /** k polls in a row with no new samples and a fixed display. */
  function PollTimes(prev: IndevData, msgs: seq<IndevData>, cfg: PointerConfig, cap: Capabilities, k: nat)
    : (IndevData, seq<IndevData>)
    decreases k
  {
    if k == 0 then (prev, msgs)
    else var (p, m) := Poll(prev, msgs, cfg, cap); PollTimes(p, m, cfg, cap, k - 1)
  }

  /** Draining the queue leaves the newest sample as the pointer state, and
      every further poll repeats it: the pointer is level-triggered. */
  lemma {:induction false} PollDrains(prev: IndevData, msgs: seq<IndevData>, cfg: PointerConfig,
                                      cap: Capabilities, extra: nat)
    requires msgs != []
    ensures PollTimes(prev, msgs, cfg, cap, |msgs| + extra) == (ToDisplay(cfg, cap, msgs[|msgs| - 1]), [])
    decreases |msgs| + extra
  {
    var (p, m) := Poll(prev, msgs, cfg, cap);
    if |msgs| > 1 {
      PollDrains(p, m, cfg, cap, extra);
    } else if extra > 0 {
      PollIdle(p, cfg, cap, extra);
    }
  }

  /** Polling an empty queue any number of times repeats the last sample. */
  lemma {:induction false} PollIdle(prev: IndevData, cfg: PointerConfig, cap: Capabilities, k: nat)
    ensures PollTimes(prev, [], cfg, cap, k) == (prev, [])
    decreases k
  {
    if k > 0 {
      PollIdle(prev, cfg, cap, k - 1);
    }
  }

  /** The static `prev` of lvgl_pointer_kscan_read. */
  class PointerReader {
    var prev: IndevData

    constructor ()
      ensures prev == IndevData(0, 0, Released)
    {
      prev := IndevData(0, 0, Released);
    }

    /** lvgl_pointer_kscan_read: `cap` is what display_get_capabilities
        reports for the default display at the time of the call. */
    method Read(q: Msgq, cfg: PointerConfig, cap: Capabilities) returns (data: IndevData)
      requires q.Valid()
      modifies this, q
      ensures q.Valid()
      ensures (prev, q.msgs) == Poll(old(prev), old(q.msgs), cfg, cap)
      ensures data == prev
    {
      var rc, curr := q.Get();
      if rc.Fail? {
        data := prev;
        return;
      }
      prev := curr;

      if cfg.swapXY {
        var x := prev.x;
        prev := prev.(x := prev.y);
        prev := prev.(y := x);
      }
      if cfg.invertX {
        if cap.orientation == Normal || cap.orientation == Rotated180 {
          prev := prev.(x := cap.xRes - prev.x);
        } else {
          prev := prev.(x := cap.yRes - prev.x);
        }
      }
      if cfg.invertY {
        if cap.orientation == Normal || cap.orientation == Rotated180 {
          prev := prev.(y := cap.yRes - prev.y);
        } else {
          prev := prev.(y := cap.xRes - prev.y);
        }
      }

      if cap.orientation == Rotated90 {
        var x := prev.x;
        prev := prev.(x := prev.y);
        prev := prev.(y := cap.yRes - x);
      } else if cap.orientation == Rotated180 {
        prev := prev.(x := cap.xRes - prev.x);
        prev := prev.(y := cap.yRes - prev.y);
      } else if cap.orientation == Rotated270 {
        var x := prev.x;
        prev := prev.(x := cap.xRes - prev.y);
        prev := prev.(y := x);
      }

      data := prev;
    }
  }
}
