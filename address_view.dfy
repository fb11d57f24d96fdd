/**
 * The static members of `SocketAddressView`: the (text, port) pair of an
 * endpoint and its `host:port` / `[host]:port` rendering. A view borrows a
 * descriptor owned elsewhere and never changes it, so in the model a view
 * is the `Sockaddr` value it looks at and these are functions of it. The
 * declared length argument is not consulted by the source and is left out.
 */
module AddressView {

  import opened Wrappers
  import opened Text
  import opened Endpoint

  /** The default pair returned when the endpoint cannot be rendered. */
  const NULL_PAIR: (string, Port) := ("", 0)

  /** `inet_ntop` chosen by the family tag; `None` for an unknown family. */
  function HostText(sa: Sockaddr, codec: TextCodec): Option<string> {
    match sa
    case V4(a, _) => codec.ntop4(a)
    case V6(a, _) => codec.ntop6(a)
    case Unknown => None
  }

  /**
   * `SocketAddressView::getAddressPort`: the address text and the port in
   * host byte order, or `NULL_PAIR`.
   */
  function GetAddressPort(sa: Sockaddr, codec: TextCodec): (r: (string, Port))
    ensures r != NULL_PAIR ==> !sa.Unknown? && HostText(sa, codec) == Some(r.0)
    ensures r != NULL_PAIR ==> r.1 == Ntohs(sa.netPort)
  {
    match sa
    case V4(a, np) =>
      (match codec.ntop4(a)
       case None => NULL_PAIR
       case Some(text) => (text, Ntohs(np)))
    case V6(a, np) =>
      (match codec.ntop6(a)
       case None => NULL_PAIR
       case Some(text) => (text, Ntohs(np)))
    case Unknown => NULL_PAIR
  }

  /** An unrecognised family or a failed `inet_ntop` gives the default pair. */
  lemma DefaultPairOnFailure(sa: Sockaddr, codec: TextCodec)
    requires sa.Unknown? || HostText(sa, codec).None?
    ensures GetAddressPort(sa, codec) == NULL_PAIR
  {
  }

  /** When formatting succeeds, the pair carries its text and the stored port in host order. */
  lemma PairOnSuccess(sa: Sockaddr, codec: TextCodec)
    requires HostText(sa, codec).Some?
    ensures GetAddressPort(sa, codec) == (HostText(sa, codec).value, Ntohs(sa.netPort))
  {
  }

  /** The host part of the rendering: brackets around an IPv6 address keep its colons apart from the port separator. */
  function BracketedHost(sa: Sockaddr, address: string): string {
    if sa.V6? then "[" + address + "]" else address
  }

  /**
   * `SocketAddressView::toString`: `host:port`, or `[host]:port` for IPv6,
   * and the empty string whenever the port of `GetAddressPort` is 0.
   */
  function ToString(sa: Sockaddr, codec: TextCodec): (r: string)
    ensures r == "" <==> GetAddressPort(sa, codec).1 == 0
    ensures r != "" ==> ':' in r
  {
    var (address, port) := GetAddressPort(sa, codec);
    if port == 0 then ""
    else
      var host := BracketedHost(sa, address);
      var r := host + ":" + DecimalText(port);
      assert r[|host|] == ':';
      r
  }

  /**
   * A non-empty rendering is undone by splitting at its last colon: the
   * part before it is the address (bracketed exactly for IPv6) and the
   * part after it reads back as the port.
   */
  lemma {:induction false} ToStringSplits(sa: Sockaddr, codec: TextCodec)
    requires GetAddressPort(sa, codec).1 != 0
    ensures
      var (address, port) := GetAddressPort(sa, codec);
      SplitHostPort(ToString(sa, codec)) == Some((BracketedHost(sa, address), port as nat))
  {
    var (address, port) := GetAddressPort(sa, codec);
    assert ToString(sa, codec) == BracketedHost(sa, address) + ":" + DecimalText(port);
    SplitRendered(BracketedHost(sa, address), port);
  }
}
