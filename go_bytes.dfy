/** Go strings are immutable byte sequences; this module gives them a Dafny type. */
module GoBytes {

  newtype byte = x: int | 0 <= x < 256

  /** A Go `string`, seen as the bytes it holds (Go does not require them to be UTF-8). */
  type GoString = seq<byte>

  /** The bytes of a Go string literal written in ASCII. */
  function Ascii(s: string): (r: GoString)
    ensures |r| == |s|
  {
    seq(|s|, i requires 0 <= i < |s| => (s[i] as int % 256) as byte)
  }

  /** The byte of an ASCII character. */
  function Byte(c: char): byte
  {
    (c as int % 256) as byte
  }
}
