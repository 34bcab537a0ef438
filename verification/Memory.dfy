/** Bytes of memory. */
module Memory {
  type byte = x: int | 0 <= x < 256
}
