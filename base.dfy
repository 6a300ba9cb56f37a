/** Primitive types shared by the ticket-sale model: bytes, the Rust `u64`
    width, and the Option / Result / Outcome wrappers used for storage
    emptiness and for `require!` failures. */
module Base {

  /** One byte of a `ManagedBuffer`. */
  newtype byte = x: int | 0 <= x < 256

  /** Rust's `u64`: the width of `total_tickets`, `sold_tickets` and token nonces. */
  type u64 = x: int | 0 <= x < 0x1_0000_0000_0000_0000

  /** A storage singleton: `None` is an empty (`is_empty`) mapper. */
  datatype Option<T> = None | Some(value: T)

  /** The value-carrying result of a pure transition. */
  datatype Result<T, E> = Success(value: T) | Failure(error: E)

  /** What an endpoint reports to its caller: it ran, or it failed a check. */
  datatype Outcome<E> = Pass | Fail(error: E)

  /** The bytes of an ASCII literal such as `b" Ticket #"`. */
  function Ascii(s: string): (r: seq<byte>)
    ensures |r| == |s|
    ensures forall i :: 0 <= i < |s| ==> r[i] as int == s[i] as int % 256
  {
    seq(|s|, i requires 0 <= i < |s| => (s[i] as int % 256) as byte)
  }
}
