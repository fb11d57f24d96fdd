/**
 * The platform calls the socket layer makes. Their semantics are not part
 * of the model: each returns an arbitrary value of its type, so every
 * success and every failure the platform could report is considered.
 */
module Os {

  import opened Endpoint

  /** The handle value that stands for "no socket". */
  const INVALID_SOCKET: int := -1

  /** `socket()`: a new handle, or `INVALID_SOCKET` on failure. */
  method SysSocket(domain: int, kind: int, protocol: int) returns (fd: int) {
    fd :| true;
  }

  /** `shutdown(fd, SHUT_RD)`; its result is ignored by the caller. */
  method SysShutdownRead(fd: int) {
  }

  /** `close()`; its result is ignored by the caller. */
  method SysClose(fd: int) {
  }

  /** `bind()`: 0 on success. */
  method SysBind(fd: int, sa: Sockaddr, len: int) returns (rc: int) {
    rc :| true;
  }

  /** `connect()`: 0 on success. */
  method SysConnect(fd: int, sa: Sockaddr, len: int) returns (rc: int) {
    rc :| true;
  }

  /** `send()`: the number of bytes accepted, or a negative value on failure. */
  method SysSend(fd: int, buffer: seq<Byte>) returns (n: int) {
    n :| true;
  }

  /** `recv()`: the number of bytes received (0 at orderly shutdown), or a negative value on failure. */
  method SysRecv(fd: int, capacity: int) returns (n: int) {
    n :| true;
  }

  /** `getsockname()`: 0 and the local endpoint with its length on success. */
  method SysGetSockName(fd: int) returns (rc: int, sa: Sockaddr, len: int) {
    rc, sa, len :| true;
  }

  /** `getpeername()`: 0 and the peer endpoint with its length on success. */
  method SysGetPeerName(fd: int) returns (rc: int, sa: Sockaddr, len: int) {
    rc, sa, len :| true;
  }

  /** `getLastSystemErrorStr`: the platform's text for the last error. */
  method LastSystemErrorText() returns (text: string) {
    text :| true;
  }
}
