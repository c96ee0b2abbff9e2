/** The display capabilities the glue queries with display_get_capabilities. */
module Display {

  /** uint16_t, the width of the resolution fields of display_capabilities. */
  type u16 = x: int | 0 <= x < 0x1_0000

  /** The pixel formats the buffer sizing switch distinguishes; Unlisted stands
      for every other value of Zephyr's pixel-format enumeration. */
  datatype PixelFormat = ARGB8888 | RGB888 | RGB565 | Mono01 | Mono10 | Unlisted

  datatype Orientation = Normal | Rotated90 | Rotated180 | Rotated270

  /** The fields of struct display_capabilities the glue reads. */
  datatype Capabilities = Capabilities(
    xRes: u16,
    yRes: u16,
    format: PixelFormat,
    orientation: Orientation)
}
