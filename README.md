# LVGL glue for Zephyr, modelled in Dafny

This project models the core of `zephyr/lvgl.c`, the module that connects
Zephyr's display and keyboard-scan (kscan) drivers to the LVGL graphics
library, and proves properties of that model. It covers three pieces.

- **Rendering buffers** (`render_buffers.dfy`, module `RenderBuffers`).
  `lvgl_allocate_rendering_buffers` comes in two builds, and the build
  flags are parameters (`StaticConfig`, `DynamicConfig`).
  - Static build: the `BUFFER_SIZE` and `NBR_PIXELS_IN_BUFFER` macros, the
    per-dimension resolution check, and the descriptor that is installed
    even on error. This build has no one-row minimum: a small share of a
    wide frame can give fewer pixels than one row (`StaticBufferBelowRow`).
  - Dynamic build: the pixel count stored in a `uint16_t`, the one-row
    minimum, the byte size per pixel format, and three allocations that
    unwind on failure.
  - The heap is an abstract map of live blocks (`memory.dfy`, module
    `Memory`). Whether an allocation succeeds is left open. Every error
    path of the allocator itself is proved to release what it took, for
    every outcome.
  - `lvgl_init` frees nothing. When the allocator succeeds and a later step
    fails (-ENOTSUP or -EPERM), the buffers and the descriptor stay
    allocated (`LateFailureKeepsBuffers`).
- **Pointer input** (`pointer_input.dfy`, module `PointerInput`).
  - `kscan_msgq` is a bounded queue that never blocks.
  - The kscan callback fills the queue and drops the newest sample when the
    queue is full.
  - The read callback keeps the last sample `prev`. When a sample is
    dequeued it applies, in this order: swap X/Y, invert X, invert Y,
    rotation by the display orientation.
  - The transform has an independent inverse (`FromDisplay`), so it is
    proved injective. A sample inside the scan frame lands within
    [0, x_res] × [0, y_res]. Both bounds are inclusive, and a raw 0 can map
    to the resolution itself.
- **Initialisation** (`sequencer.dfy`, module `Sequencer`). `lvgl_init` and
  `lvgl_pointer_kscan_init` are fail-fast step sequences.
  - Each Zephyr or LVGL collaborator call is recorded in a trace, together
    with the outcome the glue observed.
  - The collaborators' answers are an input record (`Env`).
  - `SYS_INIT` runs `lvgl_init` once at boot on the zeroed state (`Boot`).
- `errors.dfy` and `display.dfy` hold the errno values and the display
  capabilities.

Error returns follow the source's convention: 0 is `Ok`, `-E` is
`Fail(E)`. The numeric errno values are not part of the model.

On a 100×200 display turned by 90°, the code's formula `(y, y_res − x)`
maps column 5, row 7 to (7, 195) (`Rotated90Example`). In the
dynamic build the live resolution is also written back when the pixel
format is unsupported, because the code assigns `hor_res`/`ver_res` before
the format switch.

## Model

| member | source | states |
|---|---|---|
| `RenderBuffers.BufferSize` | zephyr/lvgl.c:32-33 | BUFFER_SIZE bytes never hold more than bits-per-pixel bits for each pixel of the requested share of the maximum frame, and at most 7 bits less: the macro's value rounded down to whole bytes |
| `RenderBuffers.NbrPixelsInBuffer` | zephyr/lvgl.c:32-35 | NBR_PIXELS_IN_BUFFER × bits-per-pixel ≤ 8 × BUFFER_SIZE, so the count fits the reserved array; it is the largest count that fits; it never exceeds the requested share |
| `RenderBuffers.StaticBufferBelowRow` | zephyr/lvgl.c:32-35 | the static pixel count has no one-row minimum: 16 bpp, 1% of a 320×64 frame gives 204 pixels, below one 320-pixel row |
| `RenderBuffers.AllocateStatic` | zephyr/lvgl.c:84-114 | each live dimension is written back only when it is within its maximum; either dimension over its maximum gives -ENOTSUP; `draw_buf` is always `&disp_buf`, initialised with buf0, buf1 or NULL (per double buffering) and NBR_PIXELS_IN_BUFFER |
| `RenderBuffers.DispDrv.constructor` | zephyr/lvgl.c:23 | the file-scope driver starts zeroed, with a NULL draw buffer |
| `RenderBuffers.DispDrv.Init` | zephyr/lvgl.c:333 | after lv_disp_drv_init, draw_buf is NULL; the resolution fields are not promised |
| `RenderBuffers.DynamicPixelCount` | zephyr/lvgl.c:122-137 | the pixel count is at least one row (hor_res), at least the requested share truncated mod 65536, and equal to one of the two; it fits 16 bits |
| `RenderBuffers.PixelCountExact` | zephyr/lvgl.c:132-137 | a requested share that fits 16 bits and covers a row is used unchanged |
| `RenderBuffers.PixelCountWrapExamples` | zephyr/lvgl.c:122-137 | the uint16_t narrowing as written: 320×240 at 100% gives 11264; 256×256 wraps to 0 and is raised to 256 |
| `RenderBuffers.BufSize` | zephyr/lvgl.c:139-156 | every listed format gets the fewest whole bytes that hold n pixels at its depth (4n, 3n, 2n, ceil(n/8)); any other format is unsupported |
| `RenderBuffers.MonoByteExamples` | zephyr/lvgl.c:149-153 | monochrome sizes round up: 15 pixels → 2 bytes, 16 → 2, 17 → 3 |
| `RenderBuffers.BufSizeIsLeast` | zephyr/lvgl.c:139-153 | no smaller byte count holds the pixels |
| `RenderBuffers.DynamicBufferHoldsRow` | zephyr/lvgl.c:134-153 | the dynamic buffer always holds at least one full display row in the display's pixel format |
| `RenderBuffers.AllocateDynamic` | zephyr/lvgl.c:118-183 | the resolution is always written back; an unsupported format returns -ENOTSUP before any allocation; any failed allocation returns -ENOMEM with the heap as before (no leak); success adds exactly buf0, buf1 (NULL unless double-buffered) and the descriptor, all fresh and distinct, and the descriptor records the pixel count |
| `Memory.Heap.Alloc` | zephyr/lvgl.c:158-173 | an allocation returns NULL and leaves the heap as it was, or returns a fresh block and adds exactly that block |
| `Memory.Heap.Free` | zephyr/lvgl.c:167-176 | freeing removes exactly that block; freeing NULL does nothing |
| `PointerInput.OfferAllKeepsOldest` | zephyr/lvgl.c:187-203 | a burst of callbacks keeps every queued sample, then as many new samples, oldest first, as there are free slots: the newest samples are dropped |
| `PointerInput.Msgq.constructor` | zephyr/lvgl.c:187-188 | K_MSGQ_DEFINE gives an empty queue of MSGQ_COUNT slots |
| `PointerInput.Msgq.Put` | zephyr/lvgl.c:200 | a non-blocking put returns -ENOMSG exactly when the queue is full, and the queue becomes Offer of its old contents |
| `PointerInput.Offer` | zephyr/lvgl.c:200 | a put without waiting never loses or reorders what is queued, adds at most the offered sample, always accepts it when there is room, and keeps the queue within its capacity |
| `PointerInput.Msgq.Get` | zephyr/lvgl.c:218 | a non-blocking get fails on an empty queue and leaves it unchanged; otherwise it returns and removes the head |
| `PointerInput.KscanCallback` | zephyr/lvgl.c:190-203 | the sample is appended when the queue has room; a full queue is left unchanged |
| `PointerInput.ToDisplay` | zephyr/lvgl.c:229-272 | the transform never changes the pressed/released state |
| `PointerInput.RotatedRoundTrip` | zephyr/lvgl.c:256-272 | each orientation's rotation is undone by its independently written inverse, in both directions |
| `PointerInput.ToDisplayRoundTrip` | zephyr/lvgl.c:229-272 | the inverse chain (undo the rotation, invert Y, invert X, swap) recovers the raw sample |
| `PointerInput.ToDisplayInjective` | zephyr/lvgl.c:229-272 | two different raw samples never map to the same display sample |
| `PointerInput.ToDisplayOnScreen` | zephyr/lvgl.c:238-272 | under every orientation and every flag setting, a sample inside the closed scan frame (the frame the orientation-dependent invert limits assume) lands within the closed frame [0, x_res] × [0, y_res] |
| `PointerInput.ToDisplayReachesRes` | zephyr/lvgl.c:238-262 | the bound is reached: a raw 0 is mapped to x_res under invert-X on an upright display, and to y_res under a 90° rotation |
| `PointerInput.ToDisplayIdentity` | zephyr/lvgl.c:229-272 | with every flag off and the orientation NORMAL, the output equals the raw (col, row) |
| `PointerInput.Rotated90Example` | zephyr/lvgl.c:257-262 | on a 100×200 display turned by 90°, the touch at column 5, row 7 is reported at (7, 195) |
| `PointerInput.PollIdle` | zephyr/lvgl.c:218-220 | any number of polls of an empty queue return the same sample |
| `PointerInput.Poll` | zephyr/lvgl.c:218-275 | one poll consumes exactly the head of a non-empty queue, keeps the rest in order, and carries the pressed/released state of the dequeued sample (or of prev) through |
| `PointerInput.PollDrains` | zephyr/lvgl.c:212-278 | polling until the queue is empty, and any number of times after that, leaves the newest sample's transform as the pointer state, with the display's capabilities unchanged across the polls |
| `PointerInput.PointerReader.constructor` | zephyr/lvgl.c:212-216 | the initial sample is (0, 0, REL) |
| `PointerInput.PointerReader.Read` | zephyr/lvgl.c:205-278 | the field-by-field updates of `prev` compute Poll: the new `prev` and queue are Poll of the old ones, and the returned data is the new `prev` |
| `Sequencer.KscanEnableOnlyAfterRegistration` | zephyr/lvgl.c:280-307 | pointer init succeeds exactly when it enables the kscan callback, and it enables it only right after a successful input-device registration |
| `Sequencer.KscanInit` | zephyr/lvgl.c:280-307 | a missing or unconfigurable kscan device gives -ENODEV; a failed registration gives -EPERM; each failure stops the later calls |
| `Sequencer.InitWithoutDisplay` | zephyr/lvgl.c:314-321 | a missing display gives -ENODEV, and the binding lookup is the only call made: no lv_init, no registration |
| `Sequencer.InitFailsFast` | zephyr/lvgl.c:310-356 | a failing call is always the last call made, and lvgl_init returns that step's own error: -ENODEV, the allocator's error as is, -ENOTSUP or -EPERM |
| `Sequencer.InitOkIffDisplayRegistered` | zephyr/lvgl.c:336-356 | lvgl_init returns 0 exactly when the display driver was registered, and no outcome of pointer init changes its result |
| `Sequencer.InitEnablesKscanAfterRegistration` | zephyr/lvgl.c:346-353 | the kscan callback is enabled only right after a successful input registration, and only in a run that returns 0 |
| `Sequencer.AllocateRenderingBuffers` | zephyr/lvgl.c:336 | the chosen build's allocator leaves the driver and the heap as that allocator's contract states; the static build never touches the heap |
| `Sequencer.Setup` | zephyr/lvgl.c:323-334 | registers the log callback (when logging is built in), calls lv_init, initialises the filesystem (when built in), then calls lv_disp_drv_init, which leaves draw_buf NULL |
| `Sequencer.RegisterDisplay` | zephyr/lvgl.c:336-355 | an allocator error is returned as is; a rendering-callback mismatch gives -ENOTSUP; a failed registration gives -EPERM; pointer init runs only after a successful registration, and its result is ignored |
| `Sequencer.LvglInit` | zephyr/lvgl.c:310-356 | a missing display changes neither the driver nor the heap; otherwise the calls made and the result are InitCalls and InitResult for the allocator's actual result, and the driver and heap are as the allocator left them (registration steps touch neither) |
| `Sequencer.System.constructor` | zephyr/lvgl.c:23-26 | the file-scope driver and heap are new objects; the driver is zeroed with a NULL draw buffer, the heap is empty and nothing has been called |
| `Sequencer.Boot` | zephyr/lvgl.c:358 | lvgl_init run once at boot from the zeroed state: the trace and the result agree on one allocator outcome, whose effect on the driver and the empty heap is the chosen build's |
| `Sequencer.AllocationFailureFreesAll` | zephyr/lvgl.c:336-339 | when the allocator fails, in either build, the heap is as it was before lvgl_init |
| `Sequencer.LateFailureKeepsBuffers` | zephyr/lvgl.c:336-349 | in the dynamic build, when allocation succeeded but lvgl_init fails (-ENOTSUP or -EPERM), buf0 and the descriptor, and buf1 in a double-buffered build, are new blocks that stay live |

## Left out

- `lvgl_log` (zephyr/lvgl.c:48-80) is not modelled. It only formats text for Zephyr's logging backend. All `LOG_ERR` messages are left out too.
- zephyr/lv_conf.h is not part of this model. It only picks the allocator, the tick source and `snprintf`.
- Foreign calls are inputs (`Env`, `Capabilities`) or trace entries, not models. These are `device_get_binding`, `display_get_capabilities`, `kscan_config`, `kscan_enable_callback`, `lv_init`, `lvgl_fs_init`, `lv_log_register_print_cb`, `lv_disp_drv_register`, `lv_indev_drv_init`, `lv_indev_drv_register`, `set_lvgl_rendering_cb` and `lv_disp_draw_buf_init`. The last is modelled only by what it records: the two buffers and the pixel count.
- The concurrency between the kscan interrupt and the LVGL thread is not modelled. Put and get on `kscan_msgq` are atomic.
- `k_msgq_num_used_get` (zephyr/lvgl.c:277) is left out because it has no effect.
- The width of `lv_coord_t` is not modelled. It is 16 or 32 bits depending on LVGL's build. Coordinates, `hor_res` and `ver_res` are mathematical integers, so these are not captured: narrowing a `uint32_t` row or column, narrowing a `uint16_t` resolution to `lv_coord_t`, and wrap-around of `res - x`.
- In the dynamic build, `VDB_SIZE × hor_res × ver_res` is computed in `int`. Overflow of that product (undefined behaviour in C) is not modelled. Only the narrowing to `uint16_t` is.
- The C preprocessor's integer limits on the static macros are not modelled.
- `RenderBuffers.DispDrv.Init`: only the NULL `draw_buf` of `lv_disp_drv_init` is modelled. The resolution defaults it writes belong to LVGL, so the contract leaves `hor_res`/`ver_res` unconstrained. The static build's contract therefore says nothing about a dimension over its maximum after `lvgl_init`. The `user_data` device handle and the `indev_drv` type and read callback fields are not modelled either.
- Memory alignment (`__aligned(4)`), the pixel contents of the buffers, the `SYS_INIT` level and priority (`APPLICATION`, `CONFIG_APPLICATION_INIT_PRIORITY`) and teardown are left out. The code has no teardown path, so buffers are never freed after success.
- `RenderBuffers.AllocateDynamic`: on -ENOMEM the contract does not say which allocation failed. That outcome depends on the heap and is left open. The contract only says that the heap is back to its previous state, and that `draw_buf` is unchanged or NULL (NULL when the descriptor allocation failed).
- `PointerInput.Msgq.Get`: on an empty queue the returned sample is unspecified. The source leaves `curr` unwritten then.
