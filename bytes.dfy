/** Raw network payloads. */
module Bytes {

  newtype byte = x: int | 0 <= x < 256

  type Bytes = seq<byte>

  /** Go's `string(b)`: the same bytes read as text, one character per byte. */
  function Str(b: Bytes): string {
    seq(|b|, i requires 0 <= i < |b| => (b[i] as int) as char)
  }
}
