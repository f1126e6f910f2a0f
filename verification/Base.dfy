/** The vocabulary every component shares: optional values, bytes, keys, stored values
    and node identities. */
module Base {
  datatype Option<+T> = None | Some(value: T)

  /** A C uint8_t / Rust u8. */
  type byte = b: int | 0 <= b < 256

  const SSN_LENGTH: nat := 12

  /** A key: twelve bytes, none of them NUL, so that strncmp over twelve bytes is equality. */
  type Ssn = s: seq<byte> | |s| == SSN_LENGTH && 0 !in s
    witness [1, 1, 1, 1, 1, 1, 1, 1, 1, 1, 1, 1]

  /** What a key maps to: the name and e-mail byte strings of a value_pair. */
  datatype Value = Value(name: seq<byte>, email: seq<byte>)

  /** The listening address (IP, port) of a node, kept opaque; 0 is the all-zero address of a fresh token. */
  type Id = nat
}
