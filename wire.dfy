/**
 * Values that cross the module/host boundary: the outcome of decoding an
 * inbound request, unsigned 64-bit integers, and the JSON-shaped payloads the
 * agents hand to the graph capability.
 */
module Wire {

  datatype Option<+T> = None | Some(value: T) {
    /** Returns the wrapped value, or `default` when there is none. */
    function GetOr(default: T): T {
      match this
      case Some(v) => v
      case None => default
    }
  }

  /**
   * The result of decoding the inbound buffer into an agent's input record.
   * `Malformed` stands for every way the decoder can refuse the text: it is
   * not JSON, it is not the expected shape, or a field that the input record
   * declares as non-optional is absent or has the wrong type.
   */
  datatype Decoded<+T> = Malformed | Decoded(input: T)

  /** Rust's `u64`. */
  newtype u64 = x: int | 0 <= x < 0x1_0000_0000_0000_0000

  /** A JSON value as built by the agents' payload literals. */
  datatype Json =
    | JString(text: string)
    | JNumber(number: real)
    | JUnsigned(unsigned: u64)

  /** A JSON object: a graph query or mutation. */
  type Payload = map<string, Json>
}
