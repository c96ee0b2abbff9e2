/** Initialisation of the glue: lvgl_init and lvgl_pointer_kscan_init, as
    fail-fast step sequences over the outcomes of the Zephyr and LVGL calls
    they make. The calls made are recorded, in order, as a trace. */
module Sequencer {
  import opened Errors
  import opened Display
  import opened Memory
  import opened RenderBuffers
  import opened PointerInput

  datatype AllocMode = StaticAlloc(staticConfig: StaticConfig) | DynamicAlloc(dynamicConfig: DynamicConfig)

  /** Build flags: CONFIG_LV_LOG_LEVEL != 0, CONFIG_LV_Z_USE_FILESYSTEM,
      CONFIG_LV_Z_POINTER_KSCAN and the allocation mode. */
  datatype BuildConfig = BuildConfig(logEnabled: bool, useFilesystem: bool,
                                     pointerKscan: bool, alloc: AllocMode)

  /** What the collaborators answer: device_get_binding for the display and
      the kscan device, display_get_capabilities, set_lvgl_rendering_cb,
      lv_disp_drv_register, kscan_config and lv_indev_drv_register. */
  datatype Env = Env(
    displayFound: bool,
    cap: Capabilities,
    renderingCbOk: bool,
    dispRegisterOk: bool,
    kscanFound: bool,
    kscanConfigOk: bool,
    indevRegisterOk: bool)

  /** A call to a collaborator, with the outcome the glue observed. */
  datatype Call =
    | GetDisplayBinding(found: bool)
    | RegisterLogCb
    | LvInit
    | FsInit
    | DispDrvInit
    | AllocateBuffers(result: Status)
    | SetRenderingCb(ok: bool)
    | DispDrvRegister(ok: bool)
    | GetKscanBinding(found: bool)
    | KscanConfig(ok: bool)
    | IndevDrvInit
    | IndevDrvRegister(ok: bool)
    | KscanEnableCallback

  /** A call whose outcome makes the caller return an error. */
  predicate Failed(c: Call)
  {
    match c
    case GetDisplayBinding(found) => !found
    case AllocateBuffers(result) => result.Fail?
    case SetRenderingCb(ok) => !ok
    case DispDrvRegister(ok) => !ok
    case GetKscanBinding(found) => !found
    case KscanConfig(ok) => !ok
    case IndevDrvRegister(ok) => !ok
    case _ => false
  }

  // ---------------------------------------------------------------------
  // lvgl_pointer_kscan_init

  function KscanInitCalls(env: Env): seq<Call>
  {
    if !env.kscanFound then [GetKscanBinding(false)]
    else if !env.kscanConfigOk then [GetKscanBinding(true), KscanConfig(false)]
    else [GetKscanBinding(true), KscanConfig(true), IndevDrvInit, IndevDrvRegister(env.indevRegisterOk)]
         + (if env.indevRegisterOk then [KscanEnableCallback] else [])
  }

  function KscanInitResult(env: Env): Status
  {
    if !env.kscanFound || !env.kscanConfigOk then Fail(ENODEV)
    else if !env.indevRegisterOk then Fail(EPERM)
    else Ok
  }

  /** The kscan callback is enabled exactly when pointer init succeeds, and
      only right after the input device was registered. */
  lemma KscanEnableOnlyAfterRegistration(env: Env)
    ensures KscanInitResult(env) == Ok <==> KscanEnableCallback in KscanInitCalls(env)
    ensures forall i :: 0 <= i < |KscanInitCalls(env)| && KscanInitCalls(env)[i] == KscanEnableCallback ==>
              0 < i && KscanInitCalls(env)[i - 1] == IndevDrvRegister(true)
  {
  }

  // ---------------------------------------------------------------------
  // lvgl_init

  /** What lvgl_allocate_rendering_buffers leaves in the driver and the heap
      for a build and a display, from the descriptor and the live blocks
      before the call; the static build never touches the heap. */
  ghost predicate Allocated(mode: AllocMode, cap: Capabilities, a: Status,
                            drawBuf0: DrawBuf, live0: map<nat, nat>,
                            horRes: int, verRes: int, drawBuf: DrawBuf, live: map<nat, nat>)
  {
    match mode
    case StaticAlloc(c) =>
      c.bitsPerPixel > 0 && AllocatedStatic(c, cap, a, horRes, verRes, drawBuf) && live == live0
    case DynamicAlloc(c) =>
      AllocatedDynamic(c, cap, a, drawBuf0, live0, horRes, verRes, drawBuf, live)
  }

  /** An allocator that fails leaves no block behind, in either build. */
  lemma AllocationFailureFreesAll(mode: AllocMode, cap: Capabilities, a: Status,
                                  drawBuf0: DrawBuf, live0: map<nat, nat>,
                                  horRes: int, verRes: int, drawBuf: DrawBuf, live: map<nat, nat>)
    requires Allocated(mode, cap, a, drawBuf0, live0, horRes, verRes, drawBuf, live)
    requires a.Fail?
    ensures live == live0
  {
  }

  /** When the dynamic allocator succeeds but lvgl_init then fails (-ENOTSUP
      from the rendering callback, -EPERM from registration), buf0 and the
      descriptor stay allocated, and so does buf1 in a double-buffered
      build: the glue frees nothing on those paths. */
  lemma LateFailureKeepsBuffers(bc: BuildConfig, env: Env, a: Status, live0: map<nat, nat>,
                                horRes: int, verRes: int, drawBuf: DrawBuf, live: map<nat, nat>)
    requires bc.alloc.DynamicAlloc? && env.displayFound
    requires Allocated(bc.alloc, env.cap, a, NoDrawBuf, live0, horRes, verRes, drawBuf, live)
    requires a == Ok && InitResult(bc, env, a).Fail?
    ensures InitResult(bc, env, a) == Fail(ENOTSUP) || InitResult(bc, env, a) == Fail(EPERM)
    ensures drawBuf.DrawBuf? && drawBuf.buf0.Block? && drawBuf.at.Block?
    ensures drawBuf.buf0.id in live && drawBuf.buf0.id !in live0
    ensures drawBuf.at.id in live && drawBuf.at.id !in live0
    ensures bc.alloc.dynamicConfig.doubleVdb ==>
              drawBuf.buf1.Block? && drawBuf.buf1.id in live && drawBuf.buf1.id !in live0
  {
  }

  function SetupCalls(bc: BuildConfig): seq<Call>
  {
    (if bc.logEnabled then [RegisterLogCb] else []) + [LvInit]
    + (if bc.useFilesystem then [FsInit] else []) + [DispDrvInit]
  }

  function RegistrationCalls(bc: BuildConfig, env: Env, a: Status): seq<Call>
  {
    if a.Fail? then []
    else if !env.renderingCbOk then [SetRenderingCb(false)]
    else if !env.dispRegisterOk then [SetRenderingCb(true), DispDrvRegister(false)]
    else [SetRenderingCb(true), DispDrvRegister(true)]
         + (if bc.pointerKscan then KscanInitCalls(env) else [])
  }

  /** The calls lvgl_init makes when the allocator returns `a`. */
  function InitCalls(bc: BuildConfig, env: Env, a: Status): seq<Call>
  {
    if !env.displayFound then [GetDisplayBinding(false)]
    else [GetDisplayBinding(true)] + SetupCalls(bc) + [AllocateBuffers(a)] + RegistrationCalls(bc, env, a)
  }

  function InitResult(bc: BuildConfig, env: Env, a: Status): Status
  {
    if !env.displayFound then Fail(ENODEV)
    else if a.Fail? then a
    else if !env.renderingCbOk then Fail(ENOTSUP)
    else if !env.dispRegisterOk then Fail(EPERM)
    else Ok
  }

  /** The error lvgl_init returns after a failed display-side call. */
  function ErrorOf(c: Call): Status
  {
    match c
    case GetDisplayBinding(_) => Fail(ENODEV)
    case AllocateBuffers(result) => result
    case SetRenderingCb(_) => Fail(ENOTSUP)
    case DispDrvRegister(_) => Fail(EPERM)
    case _ => Ok
  }

  /** A missing display returns -ENODEV before LVGL is initialised, and
      nothing is registered. */
  lemma InitWithoutDisplay(bc: BuildConfig, env: Env, a: Status)
    requires !env.displayFound
    ensures InitResult(bc, env, a) == Fail(ENODEV)
    ensures InitCalls(bc, env, a) == [GetDisplayBinding(false)]
  {
  }

  /** Every failing step is the last call made, and lvgl_init returns that
      step's own error: -ENODEV, the allocator's error as it is, -ENOTSUP
      or -EPERM. */
  lemma InitFailsFast(bc: BuildConfig, env: Env, a: Status)
    ensures var calls := InitCalls(bc, env, a);
            forall i :: 0 <= i < |calls| && Failed(calls[i]) ==> i == |calls| - 1
    ensures var calls := InitCalls(bc, env, a);
            InitResult(bc, env, a).Fail? ==>
              Failed(calls[|calls| - 1]) && InitResult(bc, env, a) == ErrorOf(calls[|calls| - 1])
  {
  }

  /** lvgl_init succeeds exactly when the display driver is registered, and
      the outcome of pointer init never changes its result. */
  lemma InitOkIffDisplayRegistered(bc: BuildConfig, env: Env, a: Status)
    ensures InitResult(bc, env, a) == Ok <==> DispDrvRegister(true) in InitCalls(bc, env, a)
    ensures forall found, config, reg ::
              InitResult(bc, env.(kscanFound := found, kscanConfigOk := config, indevRegisterOk := reg), a)
              == InitResult(bc, env, a)
  {
  }

  /** The kscan callback is only ever enabled right after a successful input
      device registration, and only once the display is registered. */
  lemma {:induction false} InitEnablesKscanAfterRegistration(bc: BuildConfig, env: Env, a: Status)
    ensures var calls := InitCalls(bc, env, a);
            forall i :: 0 <= i < |calls| && calls[i] == KscanEnableCallback ==>
              0 < i && calls[i - 1] == IndevDrvRegister(true) && InitResult(bc, env, a) == Ok
  {
    var calls := InitCalls(bc, env, a);
    if env.displayFound && a.Ok? && env.renderingCbOk && env.dispRegisterOk && bc.pointerKscan {
      var prefix := [GetDisplayBinding(true)] + SetupCalls(bc) + [AllocateBuffers(a)]
                    + [SetRenderingCb(true), DispDrvRegister(true)];
      var k := KscanInitCalls(env);
      assert calls == prefix + k;
      KscanEnableOnlyAfterRegistration(env);
      forall i | 0 <= i < |calls| && calls[i] == KscanEnableCallback
        ensures 0 < i && calls[i - 1] == IndevDrvRegister(true)
      {
        assert i >= |prefix|;
        assert calls[i] == k[i - |prefix|];
        assert i - |prefix| > 0;
        assert calls[i - 1] == k[i - |prefix| - 1];
      }
    } else {
      assert KscanEnableCallback !in calls;
    }
  }

  // ---------------------------------------------------------------------
  // The imperative procedures

  /** The file-scope state the glue works on, and the trace of its calls. */
  class System {
    const drv: DispDrv
    const heap: Heap
    var calls: seq<Call>

    constructor ()
      ensures fresh(drv) && fresh(heap)
      ensures heap.Valid() && heap.live == map[] && calls == []
      ensures drv.horRes == 0 && drv.verRes == 0 && drv.drawBuf == NoDrawBuf
    {
      drv := new DispDrv();
      heap := new Heap();
      calls := [];
    }
  }

  method KscanInit(sys: System, env: Env) returns (err: Status)
    modifies sys
    ensures sys.calls == old(sys.calls) + KscanInitCalls(env)
    ensures err == KscanInitResult(env)
  {
    sys.calls := sys.calls + [GetKscanBinding(env.kscanFound)];
    if !env.kscanFound {
      return Fail(ENODEV);
    }
    sys.calls := sys.calls + [KscanConfig(env.kscanConfigOk)];
    if !env.kscanConfigOk {
      return Fail(ENODEV);
    }
    sys.calls := sys.calls + [IndevDrvInit];
    sys.calls := sys.calls + [IndevDrvRegister(env.indevRegisterOk)];
    if !env.indevRegisterOk {
      return Fail(EPERM);
    }
    sys.calls := sys.calls + [KscanEnableCallback];
    return Ok;
  }

  /** lvgl_allocate_rendering_buffers in the build's allocation mode. */
  method AllocateRenderingBuffers(drv: DispDrv, heap: Heap, mode: AllocMode, cap: Capabilities)
    returns (a: Status)
    requires heap.Valid()
    requires mode.StaticAlloc? ==> mode.staticConfig.bitsPerPixel > 0
    modifies drv, heap
    ensures heap.Valid()
    ensures Allocated(mode, cap, a, old(drv.drawBuf), old(heap.live),
                      drv.horRes, drv.verRes, drv.drawBuf, heap.live)
  {
    match mode {
      case StaticAlloc(c) =>
        a := AllocateStatic(drv, c, cap);
      case DynamicAlloc(c) =>
        a := AllocateDynamic(drv, heap, c, cap);
    }
  }

  /** The calls lvgl_init makes between finding the display and
      allocating the buffers. */
  method Setup(sys: System, bc: BuildConfig)
    modifies sys, sys.drv
    ensures sys.calls == old(sys.calls) + SetupCalls(bc)
    ensures sys.drv.drawBuf == NoDrawBuf
  {
    if bc.logEnabled {
      sys.calls := sys.calls + [RegisterLogCb];
    }
    sys.calls := sys.calls + [LvInit];
    if bc.useFilesystem {
      sys.calls := sys.calls + [FsInit];
    }
    sys.drv.Init();
    sys.calls := sys.calls + [DispDrvInit];
  }

  /** The steps of lvgl_init from the allocator's result on. */
  method RegisterDisplay(sys: System, bc: BuildConfig, env: Env, a: Status) returns (err: Status)
    requires env.displayFound
    modifies sys
    ensures sys.calls == old(sys.calls) + RegistrationCalls(bc, env, a)
    ensures err == InitResult(bc, env, a)
  {
    if a.Fail? {
      return a;
    }
    sys.calls := sys.calls + [SetRenderingCb(env.renderingCbOk)];
    if !env.renderingCbOk {
      return Fail(ENOTSUP);
    }
    sys.calls := sys.calls + [DispDrvRegister(env.dispRegisterOk)];
    if !env.dispRegisterOk {
      return Fail(EPERM);
    }
    if bc.pointerKscan {
      var _ := KscanInit(sys, env);
    }
    return Ok;
  }

  method LvglInit(sys: System, bc: BuildConfig, env: Env) returns (err: Status)
    requires sys.heap.Valid()
    requires bc.alloc.StaticAlloc? ==> bc.alloc.staticConfig.bitsPerPixel > 0
    modifies sys, sys.drv, sys.heap
    ensures sys.heap.Valid()
    ensures !env.displayFound ==> unchanged(sys.drv, sys.heap)
    ensures exists a :: sys.calls == old(sys.calls) + InitCalls(bc, env, a)
                        && err == InitResult(bc, env, a)
                        && (env.displayFound ==>
                              Allocated(bc.alloc, env.cap, a, NoDrawBuf, old(sys.heap.live),
                                        sys.drv.horRes, sys.drv.verRes, sys.drv.drawBuf, sys.heap.live))
  {
    ghost var start := sys.calls;
    sys.calls := sys.calls + [GetDisplayBinding(env.displayFound)];
    if !env.displayFound {
      err := Fail(ENODEV);
      assert sys.calls == start + InitCalls(bc, env, Ok);
      return;
    }
    Setup(sys, bc);
    var a := AllocateRenderingBuffers(sys.drv, sys.heap, bc.alloc, env.cap);
    sys.calls := sys.calls + [AllocateBuffers(a)];
    ghost var allocatedAt := sys.calls;
    err := RegisterDisplay(sys, bc, env, a);
    assert allocatedAt == start + ([GetDisplayBinding(true)] + SetupCalls(bc) + [AllocateBuffers(a)]);
    assert sys.calls == start + InitCalls(bc, env, a);
  }

  /** SYS_INIT(lvgl_init, ...): lvgl_init runs once at boot, on the zeroed
      file-scope state with an empty heap. */
  method Boot(bc: BuildConfig, env: Env) returns (sys: System, err: Status)
    requires bc.alloc.StaticAlloc? ==> bc.alloc.staticConfig.bitsPerPixel > 0
    ensures fresh(sys) && fresh(sys.drv) && fresh(sys.heap) && sys.heap.Valid()
    ensures !env.displayFound ==> sys.heap.live == map[] && sys.drv.drawBuf == NoDrawBuf
    ensures exists a :: sys.calls == InitCalls(bc, env, a)
                        && err == InitResult(bc, env, a)
                        && (env.displayFound ==>
                              Allocated(bc.alloc, env.cap, a, NoDrawBuf, map[],
                                        sys.drv.horRes, sys.drv.verRes, sys.drv.drawBuf, sys.heap.live))
  {
    sys := new System();
    err := LvglInit(sys, bc, env);
  }
}
