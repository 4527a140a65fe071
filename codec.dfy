/**
 * The byte transforms the key-value store delegates to: `zlib.compress`,
 * `zlib.decompress` and `str.encode`. Their algorithms are not modelled; a
 * codec is any triple of functions (a `Transforms` value), and the one property of zlib the store
 * relies on is stated as the predicate `Lossless`.
 */
module Codec {

  newtype byte = x: int | 0 <= x < 256

  type Bytes = seq<byte>

  /**
   * `compress(data, level)` stands for `zlib.compress(data, level=level)`,
   * `decompress(data)` for `zlib.decompress(data)` and `encode(text, encoding)`
   * for `text.encode(encoding)`.
   */
  datatype Transforms = Transforms(
    compress: (Bytes, int) -> Bytes,
    decompress: Bytes -> Bytes,
    encode: (string, string) -> Bytes)

  /** zlib's promise: decompressing what was compressed, at any level, gives the input back. */
  ghost predicate Lossless(c: Transforms) {
    forall data: Bytes, level: int :: c.decompress(c.compress(data, level)) == data
  }
}
