/** Zephyr error numbers returned (negated) by the LVGL glue, and the
    0-or-negative-errno status convention of its functions. */
module Errors {

  /** The errno values the glue returns or receives; their numeric values
      come from Zephyr's errno header and play no role in the model. */
  datatype Errno =
    | ENODEV   // a device binding was not found or could not be configured
    | ENOMEM   // the heap could not satisfy an allocation
    | ENOTSUP  // resolution, pixel format or display not supported
    | EPERM    // LVGL refused a driver registration
    | ENOMSG   // k_msgq_put/k_msgq_get with K_NO_WAIT on a full/empty queue

  /** `return 0` is Ok, `return -E` is Fail(E). */
  datatype Status = Ok | Fail(errno: Errno)
}
