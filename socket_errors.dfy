/** `SocketException`: a `std::runtime_error` whose only observable part is its `what()` text. */
module SocketErrors {

  datatype SocketException = SocketException(what: string)

  /**
   * The two-argument constructor: the message, a colon and a space, then
   * the detail (usually the platform's text for the last error). Both
   * parts can be read back from the composed text.
   */
  function WithDetail(message: string, detail: string): (e: SocketException)
    ensures |e.what| == |message| + 2 + |detail|
    ensures e.what[..|message|] == message
    ensures e.what[|message|..|message| + 2] == ": "
    ensures e.what[|message| + 2..] == detail
  {
    SocketException(message + ": " + detail)
  }

  /** For a fixed message, different details give different exceptions. */
  lemma DetailDistinguishes(message: string, d1: string, d2: string)
    requires WithDetail(message, d1) == WithDetail(message, d2)
    ensures d1 == d2
  {
  }

  /** The messages the operations of the socket layer throw with. */
  const CONSTRUCT_ADDRESS_FAILED := "Construct SocketAddress error"
  const CREATE_FAILED := "Can't create socket"
  const LOCAL_ADDRESS_FAILED := "Fetch of local address failed (getsockname())"
  const BIND_FAILED := "bind error"
  const CONNECT_FAILED := "connect error"
  const SEND_FAILED := "Send failed (send())"
  const RECV_FAILED := "Receive failed (recv())"
  const FOREIGN_ADDRESS_FAILED := "Fetch of foreign address failed (getpeername())"
}
