/** Bytes and stretches of bytes. */
module Bytes {
  newtype byte = b: int | 0 <= b < 0x100

  function Prefix<T>(s: seq<T>, n: nat): seq<T> { if n <= |s| then s[..n] else s }
}
