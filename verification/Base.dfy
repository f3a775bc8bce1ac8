/** Vocabulary shared by every module: bytes, machine word widths, optional values. */
module Base {

  /** One byte of a file or of a message. */
  newtype byte = x: int | 0 <= x < 256

  /** The number of values of a uint64_t. */
  const U64: int := 0x1_0000_0000_0000_0000

  type uint64 = n: nat | n < U64
  type int64 = n: int | -0x8000_0000_0000_0000 <= n < 0x8000_0000_0000_0000
  type int32 = n: int | -0x8000_0000 <= n < 0x8000_0000

  datatype Option<+T> = None | Some(value: T)

  /** Whether no value occurs twice in `s`. */
  ghost predicate Distinct<T>(s: seq<T>) {
    forall i, j :: 0 <= i < j < |s| ==> s[i] != s[j]
  }
}
