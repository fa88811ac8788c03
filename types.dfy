/** Shared value types of the uFR add-credit demo: bytes, the reader's 32-bit
    signed balance, the reader library's status word and an Option. */
module Types {

  /** uint8_t */
  type byte = x: int | 0 <= x < 0x100

  /** int32_t, the balance value that the card stores */
  type Int32 = x: int | -0x8000_0000 <= x < 0x8000_0000

  /** The reader library reports every result as a status word; zero is success. */
  type Status = nat

  const StatusOk: Status := 0

  datatype Option<+T> = None | Some(value: T)

  /** n copies of x: a run of identical observations */
  function Repeat<T>(x: T, n: nat): (s: seq<T>)
    ensures |s| == n
    ensures forall i :: 0 <= i < n ==> s[i] == x
  {
    if n == 0 then [] else [x] + Repeat(x, n - 1)
  }
}
