/**
 * `SocketAddress`: an owned socket address that can be built from text.
 * The storage is kept as the parts its family tag selects between, and
 * `setAddressPort` overwrites them in place.
 */
module Address {

  import opened Wrappers
  import opened Text
  import opened Endpoint
  import opened SocketErrors
  import AddressView

  /**
   * What `setAddressPort` stores for a host text and a port: the IPv4
   * reading when there is one, otherwise the IPv6 reading, otherwise
   * nothing. The port is stored in network byte order.
   */
  function ParseAddressPort(address: string, port: Port, codec: TextCodec): (r: Option<Sockaddr>)
    ensures r.None? <==> codec.pton4(address).None? && codec.pton6(address).None?
    ensures codec.pton4(address).Some? ==> r == Some(V4(codec.pton4(address).value, Htons(port)))
    ensures codec.pton4(address).None? && codec.pton6(address).Some? ==>
              r == Some(V6(codec.pton6(address).value, Htons(port)))
    ensures r.Some? && r.value.V6? ==> codec.pton4(address).None? && codec.pton6(address) == Some(r.value.addr6)
    ensures r.Some? ==> !r.value.Unknown? && Ntohs(r.value.netPort) == port
  {
    PortRoundTrip(port);
    match codec.pton4(address)
    case Some(a4) => Some(V4(a4, Htons(port)))
    case None =>
      match codec.pton6(address)
      case Some(a6) => Some(V6(a6, Htons(port)))
      case None => None
  }

  /** The exception the `(address, port)` constructor throws when neither reading succeeds. */
  function ConstructError(address: string, port: Port): (e: SocketException)
    ensures e.what == "Construct SocketAddress error: the address is [" + address
                      + "], and port is [" + DecimalText(port) + "]"
  {
    var prefix := CONSTRUCT_ADDRESS_FAILED + ": ";
    assert prefix + "the address is [" == "Construct SocketAddress error: the address is [";
    var e := WithDetail(CONSTRUCT_ADDRESS_FAILED,
                        "the address is [" + address + "], and port is [" + DecimalText(port) + "]");
    assert e.what == prefix + "the address is [" + address + "], and port is [" + DecimalText(port) + "]";
    e
  }

  /**
   * `inet_ntop` gives `host` back for the reading `setAddressPort` takes
   * of it: `host` is the canonical text of its address.
   */
  ghost predicate Canonical(host: string, codec: TextCodec) {
    match codec.pton4(host)
    case Some(a4) => codec.ntop4(a4) == Some(host)
    case None =>
      match codec.pton6(host)
      case Some(a6) => codec.ntop6(a6) == Some(host)
      case None => true
  }

  /**
   * Port round trip: after a successful parse (and a successful
   * `inet_ntop`), `getAddressPort` returns the port that was given.
   */
  lemma ParsedPortReadBack(address: string, port: Port, codec: TextCodec)
    requires ParseAddressPort(address, port, codec).Some?
    requires AddressView.HostText(ParseAddressPort(address, port, codec).value, codec).Some?
    ensures AddressView.GetAddressPort(ParseAddressPort(address, port, codec).value, codec).1 == port
  {
  }

  /**
   * Text round trip: a canonical IPv4 literal with a non-zero port renders
   * as `host:port`, a canonical IPv6 literal as `[host]:port`.
   */
  lemma TextRoundTrip(host: string, port: Port, codec: TextCodec)
    requires port != 0
    requires ParseAddressPort(host, port, codec).Some?
    requires Canonical(host, codec)
    ensures codec.pton4(host).Some? ==>
              AddressView.ToString(ParseAddressPort(host, port, codec).value, codec)
              == host + ":" + DecimalText(port)
    ensures codec.pton4(host).None? ==>
              AddressView.ToString(ParseAddressPort(host, port, codec).value, codec)
              == "[" + host + "]:" + DecimalText(port)
  {
  }

  class SocketAddress {
    /** `sa_family`. */
    var family: int
    /** `sin_port` / `sin6_port` (they share their offset), network byte order. */
    var netPort: Port
    /** `sin_addr`. */
    var addr4: Addr4
    /** `sin6_addr`. */
    var addr6: Addr6
    /** The declared length of the storage. */
    var addrLen: int

    /** The endpoint the family tag selects from the storage. */
    function Sockaddr(): (sa: Sockaddr)
      reads this
      ensures sa.V4? <==> family == AF_INET
      ensures sa.V6? <==> family == AF_INET6
      ensures !sa.Unknown? ==> sa.netPort == netPort
      ensures sa.V4? ==> sa.addr4 == addr4
      ensures sa.V6? ==> sa.addr6 == addr6
    {
      if family == AF_INET then V4(addr4, netPort)
      else if family == AF_INET6 then V6(addr6, netPort)
      else Unknown
    }

    /** The default constructor: zeroed storage of family `AF_UNSPEC`, declared at full size. */
    constructor ()
      ensures Sockaddr() == Unknown && family == AF_UNSPEC
      ensures netPort == 0 && addr4 == ZERO_ADDR4 && addr6 == ZERO_ADDR6
      ensures addrLen == SOCKADDR_STORAGE_SIZE
    {
      family, netPort, addr4, addr6 := AF_UNSPEC, 0, ZERO_ADDR4, ZERO_ADDR6;
      addrLen := SOCKADDR_STORAGE_SIZE;
    }

    /** The copying constructor: a copy of a descriptor produced elsewhere, with its length. */
    constructor FromSockaddr(sa: Sockaddr, len: int)
      ensures Sockaddr() == sa && addrLen == len
    {
      addrLen := len;
      match sa
      case V4(a, np) => family, netPort, addr4, addr6 := AF_INET, np, a, ZERO_ADDR6;
      case V6(a, np) => family, netPort, addr4, addr6 := AF_INET6, np, ZERO_ADDR4, a;
      case Unknown => family, netPort, addr4, addr6 := AF_UNSPEC, 0, ZERO_ADDR4, ZERO_ADDR6;
    }

    /**
     * The `(address, port)` constructor: a fresh address holding the
     * parsed endpoint, or the exception naming the offending host and port.
     */
    static method FromText(address: string, port: Port, codec: TextCodec)
      returns (r: Result<SocketAddress, SocketException>)
      ensures r.Success? <==> ParseAddressPort(address, port, codec).Some?
      ensures r.Success? ==> fresh(r.value)
      ensures r.Success? ==> r.value.Sockaddr() == ParseAddressPort(address, port, codec).value
      ensures r.Success? ==> r.value.addrLen == SOCKADDR_STORAGE_SIZE
      ensures r.Success? && r.value.Sockaddr().V4? ==> r.value.addr6 == ZERO_ADDR6
      ensures r.Success? && r.value.Sockaddr().V6? ==> r.value.addr4 == ZERO_ADDR4
      ensures r.Failure? ==> r.error == ConstructError(address, port)
    {
      var a := new SocketAddress();
      var ok := a.SetAddressPort(address, port, codec);
      if ok {
        r := Success(a);
      } else {
        r := Failure(ConstructError(address, port));
      }
    }

    /**
     * Writes the family tag as `AF_INET` and tries the IPv4 reading; if
     * that fails, rewrites the tag as `AF_INET6` and tries the IPv6
     * reading. When both fail the tag is left as `AF_INET6` over the
     * previous port and IPv6 bytes. The declared length is never changed.
     */
    method SetAddressPort(address: string, port: Port, codec: TextCodec) returns (ok: bool)
      modifies this
      ensures ok <==> ParseAddressPort(address, port, codec).Some?
      ensures ok ==> Sockaddr() == ParseAddressPort(address, port, codec).value
      ensures !ok ==> family == AF_INET6 && Sockaddr() == V6(old(addr6), old(netPort))
      ensures Sockaddr().V6? ==> addr4 == old(addr4)
      ensures Sockaddr().V4? ==> addr6 == old(addr6)
      ensures addrLen == old(addrLen)
    {
      family := AF_INET;
      var a4 := codec.pton4(address);
      if a4.Some? {
        addr4, netPort := a4.value, Htons(port);
        return true;
      }

      family := AF_INET6;
      var a6 := codec.pton6(address);
      if a6.Some? {
        addr6, netPort := a6.value, Htons(port);
        return true;
      }

      return false;
    }

    /**
     * `toString`: the view's rendering of the held endpoint (described by
     * `AddressView.ToStringSplits` and `TextRoundTrip`), empty exactly when
     * the port read back is 0.
     */
    function ToString(codec: TextCodec): (r: string)
      reads this
      ensures r == AddressView.ToString(Sockaddr(), codec)
      ensures r == "" <==> GetAddressPort(codec).1 == 0
    {
      AddressView.ToString(Sockaddr(), codec)
    }

    /**
     * `getAddressPort`: the `inet_ntop` text and the port in host order when
     * formatting succeeds; the default pair otherwise, in particular for a
     * family other than IPv4 or IPv6.
     */
    function GetAddressPort(codec: TextCodec): (r: (string, Port))
      reads this
      ensures AddressView.HostText(Sockaddr(), codec).Some? ==>
                r == (AddressView.HostText(Sockaddr(), codec).value, Ntohs(netPort))
      ensures AddressView.HostText(Sockaddr(), codec).None? ==> r == AddressView.NULL_PAIR
      ensures family != AF_INET && family != AF_INET6 ==> r == AddressView.NULL_PAIR
      ensures r != AddressView.NULL_PAIR ==> r.1 == Ntohs(netPort)
    {
      AddressView.GetAddressPort(Sockaddr(), codec)
    }
  }
}
