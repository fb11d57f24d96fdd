/**
 * `Socket` and `CommunicatingSocket`: one OS handle owned by one object,
 * and the single-call operations on it. Dafny classes do not inherit from
 * classes, so the members of both C++ classes are members of `Socket`.
 */
module Sockets {

  import opened Wrappers
  import opened Endpoint
  import opened SocketErrors
  import opened Os
  import Address

  /**
   * The result check of `send`/`recv`: a non-negative count is returned
   * unchanged (0 included); a negative one becomes the exception.
   */
  function CountResult(n: int, message: string, detail: string): (r: Result<nat, SocketException>)
    ensures r.Success? <==> n >= 0
    ensures r.Success? ==> r.value == n
    ensures r.Failure? ==> r.error == WithDetail(message, detail)
  {
    if n < 0 then Failure(WithDetail(message, detail)) else Success(n)
  }

  /**
   * The result check of `bind` and `connect`: any non-zero code throws.
   * `GetLocalAddress`/`GetForeignAddress` apply the same test to
   * `getsockname`/`getpeername`.
   */
  function StatusResult(rc: int, message: string, detail: string): (r: Outcome<SocketException>)
    ensures r.Pass? <==> rc == 0
    ensures r.Fail? ==> r.error == WithDetail(message, detail)
  {
    if rc != 0 then Fail(WithDetail(message, detail)) else Pass
  }

  /** What happened to the handles a socket object owned, in order. */
  datatype HandleEvent =
    | Acquired(fd: int)  // `socket()` returned a valid handle, now owned
    | Released(fd: int)  // the owned handle (or the invalid one) was shut down and closed

  /** The handle owned after a history: the last one acquired, unless released since. */
  function Held(t: seq<HandleEvent>): int {
    if t == [] then INVALID_SOCKET
    else match t[|t| - 1]
      case Acquired(fd) => fd
      case Released(_) => INVALID_SOCKET
  }

  /**
   * Single ownership: a handle is acquired only when none is owned, and
   * every release closes exactly the handle owned at that moment.
   */
  ghost predicate WellOwned(t: seq<HandleEvent>)
    decreases |t|
  {
    t == [] ||
    (WellOwned(t[..|t| - 1]) &&
     match t[|t| - 1]
     case Acquired(fd) => fd != INVALID_SOCKET && Held(t[..|t| - 1]) == INVALID_SOCKET
     case Released(fd) => fd == Held(t[..|t| - 1]))
  }

  function Acquisitions(t: seq<HandleEvent>): nat {
    if t == [] then 0
    else Acquisitions(t[..|t| - 1]) + (if t[|t| - 1].Acquired? then 1 else 0)
  }

  /** Releases of a live handle (closing the invalid handle releases nothing). */
  function LiveReleases(t: seq<HandleEvent>): nat {
    if t == [] then 0
    else LiveReleases(t[..|t| - 1])
         + (if t[|t| - 1].Released? && t[|t| - 1].fd != INVALID_SOCKET then 1 else 0)
  }

  /** Every acquired handle is released once, except the one still owned. */
  lemma {:induction false} ReleasesMatchAcquisitions(t: seq<HandleEvent>)
    requires WellOwned(t)
    ensures Acquisitions(t) == LiveReleases(t) + (if Held(t) != INVALID_SOCKET then 1 else 0)
    decreases |t|
  {
    if t != [] {
      ReleasesMatchAcquisitions(t[..|t| - 1]);
    }
  }

  lemma {:induction false} WellOwnedPrefix(t: seq<HandleEvent>, k: nat)
    requires WellOwned(t) && k <= |t|
    ensures WellOwned(t[..k])
    decreases |t|
  {
    if k < |t| {
      assert t[..|t| - 1][..k] == t[..k];
      WellOwnedPrefix(t[..|t| - 1], k);
    } else {
      assert t[..k] == t;
    }
  }

  /**
   * No double close: between two releases of the same live handle the
   * handle was acquired again.
   */
  lemma {:induction false} NoDoubleRelease(t: seq<HandleEvent>, i: nat, j: nat)
    requires WellOwned(t) && i < j < |t|
    requires t[i].Released? && t[j] == t[i] && t[i].fd != INVALID_SOCKET
    ensures exists k :: i < k < j && t[k] == Acquired(t[i].fd)
  {
    WellOwnedPrefix(t, j + 1);
    var u := t[..j + 1];
    assert u[..|u| - 1] == t[..j];
    assert Held(t[..j]) == t[i].fd;
    assert t[j - 1] == Acquired(t[i].fd);
  }

  class Socket {
    /** `sockDesc_`: the owned handle, or `INVALID_SOCKET`. */
    var desc: int
    /** The history of this object's handles. */
    ghost var events: seq<HandleEvent>

    ghost predicate Valid()
      reads this
    {
      WellOwned(events) && Held(events) == desc
    }

    /** A new socket owns no handle. */
    constructor ()
      ensures Valid() && events == [] && !IsValid()
    {
      desc := INVALID_SOCKET;
      events := [];
    }

    /** `isValid`: true exactly when a handle is owned. */
    function IsValid(): (valid: bool)
      reads this
      ensures Valid() ==> (valid <==> Held(events) != INVALID_SOCKET)
    {
      desc != INVALID_SOCKET
    }

    /**
     * `closeSocket`: shuts down the read side and closes the handle, then
     * marks the socket invalid. It does not test validity first: on an
     * invalid socket it closes the invalid handle, which releases nothing.
     */
    method CloseSocket()
      requires Valid()
      modifies this
      ensures Valid() && !IsValid()
      ensures events == old(events) + [Released(old(desc))]
    {
      SysShutdownRead(desc);
      SysClose(desc);
      events := events + [Released(desc)];
      desc := INVALID_SOCKET;
    }

    /**
     * The destructor: closes only a valid handle. Afterwards every handle
     * this object ever acquired has been released.
     */
    method Dispose()
      requires Valid()
      modifies this
      ensures Valid() && !IsValid()
      ensures events == if old(IsValid()) then old(events) + [Released(old(desc))] else old(events)
      ensures Acquisitions(events) == LiveReleases(events)
    {
      if IsValid() {
        CloseSocket();
      }
      ReleasesMatchAcquisitions(events);
    }

    /**
     * `createSocket`: releases the handle held, if any, then asks for a
     * new one; fails, leaving the socket invalid, when none is granted.
     */
    method CreateSocket(domain: int, kind: int, protocol: int)
      returns (r: Outcome<SocketException>, ghost detail: string)
      requires Valid()
      modifies this
      ensures Valid()
      ensures r.Pass? <==> IsValid()
      ensures r.Fail? ==> r.error == WithDetail(CREATE_FAILED, detail)
      ensures events == old(events)
                        + (if old(IsValid()) then [Released(old(desc))] else [])
                        + (if IsValid() then [Acquired(desc)] else [])
    {
      if IsValid() {
        CloseSocket();
      }
      var fd := SysSocket(domain, kind, protocol);
      desc := fd;
      if IsValid() {
        events := events + [Acquired(fd)];
        r, detail := Pass, "";
      } else {
        var text := LastSystemErrorText();
        r, detail := Fail(WithDetail(CREATE_FAILED, text)), text;
      }
    }

    /** `getLocalAddress`: the endpoint `getsockname` reports, copied into a new address. */
    method GetLocalAddress()
      returns (r: Result<Address.SocketAddress, SocketException>,
               ghost rc: int, ghost sa: Sockaddr, ghost len: int, ghost detail: string)
      ensures r.Success? <==> rc == 0
      ensures r.Success? ==> fresh(r.value) && r.value.Sockaddr() == sa && r.value.addrLen == len
      ensures r.Failure? ==> r.error == WithDetail(LOCAL_ADDRESS_FAILED, detail)
    {
      var code, addr, addrLen := SysGetSockName(desc);
      rc, sa, len := code, addr, addrLen;
      if code != 0 {
        var text := LastSystemErrorText();
        r, detail := Failure(WithDetail(LOCAL_ADDRESS_FAILED, text)), text;
      } else {
        var copy := new Address.SocketAddress.FromSockaddr(addr, addrLen);
        r, detail := Success(copy), "";
      }
    }

    /** `bind`: one `bind()` call on the handle; a non-zero result throws. */
    method Bind(localAddress: Address.SocketAddress)
      returns (r: Outcome<SocketException>, ghost rc: int, ghost detail: string)
      ensures r == StatusResult(rc, BIND_FAILED, detail)
    {
      var code := SysBind(desc, localAddress.Sockaddr(), localAddress.addrLen);
      var text := "";
      if code != 0 {
        text := LastSystemErrorText();
      }
      r := StatusResult(code, BIND_FAILED, text);
      rc, detail := code, text;
    }

    /** `connect`: one connection attempt, no retry; a non-zero result throws. */
    method Connect(foreignAddress: Address.SocketAddress)
      returns (r: Outcome<SocketException>, ghost rc: int, ghost detail: string)
      ensures r == StatusResult(rc, CONNECT_FAILED, detail)
    {
      var code := SysConnect(desc, foreignAddress.Sockaddr(), foreignAddress.addrLen);
      var text := "";
      if code != 0 {
        text := LastSystemErrorText();
      }
      r := StatusResult(code, CONNECT_FAILED, text);
      rc, detail := code, text;
    }

    /** `send`: one `send()` call; the count accepted, possibly short, or the exception. */
    method Send(buffer: seq<Byte>)
      returns (r: Result<nat, SocketException>, ghost n: int, ghost detail: string)
      ensures r == CountResult(n, SEND_FAILED, detail)
    {
      var sent := SysSend(desc, buffer);
      var text := "";
      if sent < 0 {
        text := LastSystemErrorText();
      }
      r := CountResult(sent, SEND_FAILED, text);
      n, detail := sent, text;
    }

    /** `recv`: one `recv()` call; 0 (peer shut down) is a count like any other. */
    method Recv(capacity: int)
      returns (r: Result<nat, SocketException>, ghost n: int, ghost detail: string)
      ensures r == CountResult(n, RECV_FAILED, detail)
    {
      var received := SysRecv(desc, capacity);
      var text := "";
      if received < 0 {
        text := LastSystemErrorText();
      }
      r := CountResult(received, RECV_FAILED, text);
      n, detail := received, text;
    }

    /** `getForeignAddress`: the endpoint `getpeername` reports, copied into a new address. */
    method GetForeignAddress()
      returns (r: Result<Address.SocketAddress, SocketException>,
               ghost rc: int, ghost sa: Sockaddr, ghost len: int, ghost detail: string)
      ensures r.Success? <==> rc == 0
      ensures r.Success? ==> fresh(r.value) && r.value.Sockaddr() == sa && r.value.addrLen == len
      ensures r.Failure? ==> r.error == WithDetail(FOREIGN_ADDRESS_FAILED, detail)
    {
      var code, addr, addrLen := SysGetPeerName(desc);
      rc, sa, len := code, addr, addrLen;
      if code != 0 {
        var text := LastSystemErrorText();
        r, detail := Failure(WithDetail(FOREIGN_ADDRESS_FAILED, text)), text;
      } else {
        var copy := new Address.SocketAddress.FromSockaddr(addr, addrLen);
        r, detail := Success(copy), "";
      }
    }
  }
}
