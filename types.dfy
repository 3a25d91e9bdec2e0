/** Machine types shared by the bus transport and the FIFO pipeline. */
module Types {
  /** uint8_t: one byte on the serial bus. */
  type Byte = bv8

  /** uint16_t: the byte counts the sensor driver passes to the bus functions. */
  type UInt16 = x: int | 0 <= x < 0x1_0000

  /** int16_t: one raw accelerometer count. */
  type Int16 = x: int | -0x8000 <= x < 0x8000

  datatype Option<T> = None | Some(value: T)
}
