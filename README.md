# MiniSocket core in Dafny

A model of the socket/address object model of the MiniSocket library
(`src/mini_socket.cpp`), in three parts.

- **Endpoints.** A socket address is a family-tagged endpoint: an IPv4 or
  IPv6 address with a port kept in network byte order, or a family the
  library does not recognise (`Endpoint.Sockaddr`). `SocketAddressView`'s
  static members become two functions of that value: `AddressView.GetAddressPort`
  gives the `(text, port)` pair, or `("", 0)` for an unknown family or a failed
  `inet_ntop`. `AddressView.ToString` gives `host:port`, or `[host]:port` for
  IPv6, and the empty string whenever that port is 0. A view only borrows a
  descriptor and never changes it, so in the model a view is the `Sockaddr`
  value it looks at. `SocketAddress` is a class whose storage parts are
  fields: the family tag, the port, the IPv4 bytes, the IPv6 bytes and the
  declared length. `SetAddressPort` overwrites them in place, IPv4 reading
  first and IPv6 second. The `(address, port)` constructor becomes
  `SocketAddress.FromText`, which returns the exception instead of throwing.
  `inet_pton`/`inet_ntop` are the four function fields of `Endpoint.TextCodec`;
  they are parameters of the model, not re-implemented. The port's decimal
  text, as written by `std::ostream`, is `Text.DecimalText`. The inverse split
  at the last colon is `Text.SplitHostPort`. Together they show that the
  `host:port` format can always be read back.
- **Handle lifecycle.** `Sockets.Socket` owns one handle, `desc`. A ghost
  history of `Acquired`/`Released` events records what happened to the
  handles it held. The class invariant `WellOwned` says a handle is acquired
  only when none is owned. It also says every release closes exactly the
  handle owned at that moment. From it follow the balance of acquisitions
  and releases and the absence of double closes.
- **Syscall result mapping.** `CountResult` (for `send`/`recv`) returns a
  non-negative count unchanged and turns a negative one into the exception.
  `StatusResult` (for `bind` and `connect`) throws on any non-zero code;
  `GetLocalAddress`/`GetForeignAddress` apply the same test to
  `getsockname`/`getpeername`. Exceptions carry `message + ": " + detail`
  (`SocketErrors.WithDetail`). The platform calls are methods of module `Os`
  that return arbitrary values, so every success and failure is covered. Each
  syscall-checking method (`Bind`, `Connect`, `Send`, `Recv`,
  `GetLocalAddress`, `GetForeignAddress`) returns, as ghost out-parameters,
  the raw result and the error text it saw, and its contract ties its answer
  to the mapping of those. `CreateSocket` returns the error text the same way.

C++ exceptions are `Result`/`Outcome` values. `CommunicatingSocket`'s members
are members of `Socket`, because a Dafny class cannot extend a class. The
destructor is `Socket.Dispose`.

Behaviours of the code worth knowing:
- A failed `setAddressPort` is not atomic. It leaves the family tag as
  `AF_INET6` over the previous port and IPv6 bytes (`SetAddressPort`'s last
  clause). Only the constructor discards such an object, by throwing.
- `toString` is empty for any port 0, including a well-formed endpoint with
  port 0, not only when the family is unknown or formatting fails.
- `closeSocket` does not test validity. On an invalid socket it closes the
  invalid handle. This releases nothing (`LiveReleases` does not count it).
- The declared length is `sizeof(sockaddr_storage)` for a default or
  text-built address. It is not the natural size of the family, and
  `setAddressPort` never updates it.

## Model

| member | source | states |
|---|---|---|
| SocketErrors.WithDetail | src/mini_socket.cpp:100-103 | the exception text is the message, then ": ", then the detail, and both parts can be read back from it |
| SocketErrors.DetailDistinguishes | src/mini_socket.cpp:100-103 | for one message, equal exceptions have equal details |
| Endpoint.ByteSwap | src/mini_socket.cpp:209-216 | htons/ntohs on a little-endian host exchange the low and high byte of the port |
| Endpoint.PortRoundTrip | src/mini_socket.cpp:106-128 | a port stored with htons is read back unchanged with ntohs |
| Text.DecimalText | src/mini_socket.cpp:152 | the port's text is a non-empty run of decimal digits without a leading zero |
| Text.DecimalRoundTrip | src/mini_socket.cpp:152 | the port's decimal text reads back as the port |
| Text.SplitRendered | src/mini_socket.cpp:146-153 | splitting `host + ":" + port text` at its last colon gives back the host text and the port, whatever the host text is |
| AddressView.GetAddressPort | src/mini_socket.cpp:106-134 | a pair other than ("", 0) comes from a recognised family, carries the inet_ntop text of its address and the stored port in host byte order |
| AddressView.DefaultPairOnFailure | src/mini_socket.cpp:106-134 | an unrecognised family or a failed inet_ntop yields the default pair ("", 0) |
| AddressView.PairOnSuccess | src/mini_socket.cpp:112-128 | when inet_ntop succeeds, the pair is its text with the stored port converted by ntohs, for both families |
| AddressView.ToString | src/mini_socket.cpp:136-154 | the rendering is empty exactly when getAddressPort's port is 0 (unknown family, failed formatting or a real port 0), and otherwise contains the port separator |
| AddressView.ToStringSplits | src/mini_socket.cpp:146-153 | a non-empty rendering splits at its last colon into the address (in brackets exactly for IPv6) and the port |
| Address.ParseAddressPort | src/mini_socket.cpp:202-221 | the IPv4 reading wins whenever it succeeds; otherwise the IPv6 reading is the result when it succeeds, and an IPv6 result only arises when the IPv4 reading failed; failure exactly when both fail; a stored port reads back as the given port |
| Address.ConstructError | src/mini_socket.cpp:186-194 | the exception text is "Construct SocketAddress error: the address is [<address>], and port is [<port>]" |
| Address.ParsedPortReadBack | src/mini_socket.cpp:106-128 | after a successful parse and inet_ntop, getAddressPort returns the port that was given, for both families |
| Address.TextRoundTrip | src/mini_socket.cpp:146-153 | a canonical IPv4 literal renders back as `host:port`, a canonical IPv6 literal as `[host]:port` |
| Address.SocketAddress.Sockaddr | src/mini_socket.cpp:233-236 | the endpoint the storage holds: IPv4 exactly when the tag is AF_INET, IPv6 exactly when it is AF_INET6, with the stored port and the address bytes of that family |
| Address.SocketAddress.constructor | src/mini_socket.cpp:180-183 | a default address is zeroed, of no recognised family, declared at the full storage size |
| Address.SocketAddress.FromSockaddr | src/mini_socket.cpp:196-200 | a copied address holds exactly the given endpoint and length |
| Address.SocketAddress.FromText | src/mini_socket.cpp:186-194 | succeeds exactly when the parse succeeds, with a fresh full-length address holding the parsed endpoint, the bytes of the other family zero; otherwise yields the construction error naming address and port |
| Address.SocketAddress.SetAddressPort | src/mini_socket.cpp:202-221 | returns true exactly when a reading succeeds and then holds that endpoint; on failure the family tag is left AF_INET6 over the old port and IPv6 bytes; an IPv4 success keeps the IPv6 bytes and an IPv6 success the IPv4 bytes; the length never changes |
| Address.SocketAddress.ToString | src/mini_socket.cpp:223-226 | it is the view's rendering of the held endpoint (host:port, or [host]:port for IPv6, as ToStringSplits and TextRoundTrip state), empty exactly when its port reads as 0 |
| Address.SocketAddress.GetAddressPort | src/mini_socket.cpp:228-231 | when inet_ntop formats the held address, the pair is its text with the stored port in host order; otherwise (including a family tag other than AF_INET/AF_INET6) the default pair |
| Sockets.CountResult | src/mini_socket.cpp:312-332 | a count n >= 0 (0 included) is returned unchanged; n < 0 becomes the exception message + ": " + detail |
| Sockets.StatusResult | src/mini_socket.cpp:296-310 | a status code passes exactly when it is 0; any other code becomes the exception message + ": " + detail |
| Sockets.ReleasesMatchAcquisitions | src/mini_socket.cpp:244-293 | under single ownership, every acquired handle has been released once, except the one still held |
| Sockets.NoDoubleRelease | src/mini_socket.cpp:250-259 | a live handle is never released twice without being acquired again in between |
| Sockets.Socket.constructor | src/mini_socket.cpp:279-281 | a new socket holds no handle and has an empty history |
| Sockets.Socket.IsValid | src/mini_socket.cpp:261-264 | true exactly when the history says a handle is owned |
| Sockets.Socket.CloseSocket | src/mini_socket.cpp:250-259 | always leaves the socket invalid, recording the release of the handle it held |
| Sockets.Socket.Dispose | src/mini_socket.cpp:244-248 | closes only a valid handle; afterwards every handle the object acquired has been released |
| Sockets.Socket.CreateSocket | src/mini_socket.cpp:283-293 | releases a held handle before acquiring; succeeds exactly when the new handle is valid, else yields "Can't create socket: " + the platform text |
| Sockets.Socket.GetLocalAddress | src/mini_socket.cpp:266-277 | succeeds exactly when getsockname returns 0, with a fresh copy of the reported endpoint and length; otherwise the getsockname exception |
| Sockets.Socket.Bind | src/mini_socket.cpp:296-302 | the outcome is the status check of the bind result with "bind error" |
| Sockets.Socket.Connect | src/mini_socket.cpp:304-310 | the outcome is the status check of the single connect attempt with "connect error" |
| Sockets.Socket.Send | src/mini_socket.cpp:312-321 | the result is the count check of the single send call with "Send failed (send())" |
| Sockets.Socket.Recv | src/mini_socket.cpp:323-332 | the result is the count check of the single recv call with "Receive failed (recv())"; 0 is returned, not thrown |
| Sockets.Socket.GetForeignAddress | src/mini_socket.cpp:334-345 | succeeds exactly when getpeername returns 0, with a fresh copy of the reported endpoint; otherwise the getpeername exception |

## Left out

- The Windows start-up holder (`_WSAStartupHolder_`, `makeSharedWSAStartupHolder`, `_WSAStartupSharedHolder_`): process-wide platform initialisation, outside the object model.
- `getLastSystemErrorStr`: platform error text (`strerror`/`FormatMessage`); `Os.LastSystemErrorText` returns an arbitrary string.
- The meaning of the syscalls (`socket`, `shutdown`, `close`, `bind`, `connect`, `send`, `recv`, `getsockname`, `getpeername`): each returns an arbitrary value of its type.
- `inet_pton`/`inet_ntop`: supplied as the functions of `Endpoint.TextCodec`, not implemented; the round-trip lemmas state as a requirement that `inet_ntop` returns the literal that was parsed.
- The byte layout of `sockaddr_storage`: the model keeps the port, the IPv4 bytes and the IPv6 bytes as separate fields, so the overlap of `sin_addr` with `sin6_flowinfo`, and the flow information and scope id of IPv6, are not represented.
- The length argument of the static `getAddressPort`/`toString`: the source does not read it.
- `SocketAddressView`'s constructor and accessors (lines 156-178) are not separate members: a view is the `Sockaddr` value it borrows.
- `SocketAddress::getSockaddrLen` (lines 238-241) is not a separate member: it is the `addrLen` field of `Address.SocketAddress`, read directly.
- The one-argument `SocketException` constructor: used only by the start-up holder; `SocketException(what)` is that form.
- `Endpoint.Htons` / `Endpoint.Ntohs`: model a little-endian host; on a big-endian host both are the identity, for which the port round trip holds as well.
- Family tag values are those of Linux (`AF_INET6` is 10); other platforms use other numbers with the same roles.
- `Sockets.Socket.Recv`: does not model the bytes written into the buffer, only the count; `Sockets.Socket.Send` does not model the narrowing of the buffer length to `int`.
- Debug output under `NDEBUG`.
- TCP client/server sockets, `accept`, full-buffer sending, UDP sockets, the non-throwing `connect` variant, DNS resolution and the buffered stream adapter: they are not part of `src/mini_socket.cpp`, so they are not part of this model.
