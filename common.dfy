/** Small shared vocabulary: an optional value and the fixed-width integer
    ranges that the pool configuration stores. */
module Common {

  /** A value that may be absent. */
  datatype Option<+T> = None | Some(value: T)

  /** C++ `int` (32 bits, two's complement). */
  type int32 = x: int | -0x8000_0000 <= x < 0x8000_0000

  /** C++ `uint16_t`, the port number of an endpoint. */
  type uint16 = x: int | 0 <= x < 0x1_0000

  /** C++ `uint64_t`, the daemon poll interval. */
  type uint64 = x: int | 0 <= x < 0x1_0000_0000_0000_0000
}
