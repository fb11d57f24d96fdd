/**
 * The family-tagged endpoint that a `sockaddr_storage` holds, as a value.
 * The raw storage layout and the pointer casts of the source become the
 * three constructors of `Sockaddr`; the port is kept, as in the storage,
 * in network byte order.
 */
module Endpoint {

  import opened Wrappers

  /** An octet of an address. */
  type Byte = b: int | 0 <= b < 0x100

  /** A `uint16_t`: ports, in either byte order. */
  type Port = p: int | 0 <= p < 0x1_0000

  /** The 4 bytes of an `in_addr`. */
  type Addr4 = s: seq<Byte> | |s| == 4 witness [0, 0, 0, 0]

  /** The 16 bytes of an `in6_addr`. */
  type Addr6 = s: seq<Byte> | |s| == 16 witness [0, 0, 0, 0, 0, 0, 0, 0, 0, 0, 0, 0, 0, 0, 0, 0]

  const ZERO_ADDR4: Addr4 := [0, 0, 0, 0]
  const ZERO_ADDR6: Addr6 := [0, 0, 0, 0, 0, 0, 0, 0, 0, 0, 0, 0, 0, 0, 0, 0]

  /** Address family tags (the values of a Linux host). */
  const AF_UNSPEC: int := 0
  const AF_INET: int := 2
  const AF_INET6: int := 10

  /** `sizeof(sockaddr_storage)`: the length a default `SocketAddress` declares. */
  const SOCKADDR_STORAGE_SIZE: int := 128

  /**
   * What the family tag selects in a socket address: an IPv4 or IPv6
   * address with its port (network byte order), or any other family.
   */
  datatype Sockaddr =
    | V4(addr4: Addr4, netPort: Port)
    | V6(addr6: Addr6, netPort: Port)
    | Unknown

  /** Swaps the two bytes of a 16-bit value. */
  function ByteSwap(p: Port): (r: Port)
    ensures r % 0x100 == p / 0x100 && r / 0x100 == p % 0x100
  {
    (p % 0x100) * 0x100 + p / 0x100
  }

  /** `htons` on a little-endian host: host to network byte order. */
  function Htons(p: Port): Port {
    ByteSwap(p)
  }

  /** `ntohs` on a little-endian host: network to host byte order. */
  function Ntohs(p: Port): Port {
    ByteSwap(p)
  }

  /** A port stored with `htons` is read back unchanged with `ntohs`. */
  lemma PortRoundTrip(p: Port)
    ensures Ntohs(Htons(p)) == p
  {
  }

  /**
   * The platform's `inet_pton`/`inet_ntop` conversions between address
   * bytes and their textual form, each of which may fail. They are
   * parameters of the model, not re-implemented in it.
   */
  datatype TextCodec = TextCodec(
    pton4: string -> Option<Addr4>,
    pton6: string -> Option<Addr6>,
    ntop4: Addr4 -> Option<string>,
    ntop6: Addr6 -> Option<string>)
}
