/** The port-I/O contract every device implements (io_device.h): a write or a
    read names a port, carries a 32-bit value and a transfer size. All three
    devices accept only single-byte transfers and select a register by the
    port's offset from their base port. */
module IoDevice {
  import opened Machine

  /** The only transfer size the devices accept. */
  const SINGLE_BYTE: uint8 := 1

  /** Offset of `port` from a device's base port, computed as
      `port - BASE` in 32-bit unsigned arithmetic (ports below the base
      wrap to large offsets that no device maps). */
  function PortOffset(port: uint32, base: uint32): uint32
  {
    port - base
  }

  /** The byte a device receives from a write: the value is read through a
      `uint8_t *`, which on the little-endian host is the low byte. With
      the upper three bytes it rebuilds the written word. */
  function DataByte(value: uint32): (r: uint8)
    ensures value == (value & 0xffff_ff00) | r as uint32
  {
    (value & 0xff) as uint8
  }

  /** A read that stores through a `uint8_t *` replaces the low byte of the
      caller's 32-bit value and keeps the other three. */
  function WithDataByte(value: uint32, b: uint8): (r: uint32)
    ensures DataByte(r) == b
    ensures r & 0xffff_ff00 == value & 0xffff_ff00
  {
    (value & 0xffff_ff00) | (b as uint32)
  }
}
