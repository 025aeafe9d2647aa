/** Fixed-width C integer types used by the firmware. */
module MachineTypes {
  /** uint8_t */
  newtype u8 = x: int | 0 <= x < 0x100
  /** uint16_t */
  newtype u16 = x: int | 0 <= x < 0x1_0000
  /** uint32_t */
  newtype u32 = x: int | 0 <= x < 0x1_0000_0000
  /** int8_t */
  newtype i8 = x: int | -0x80 <= x < 0x80
}
