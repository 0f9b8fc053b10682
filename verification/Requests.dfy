/** Request types, the parameters of a request, the response packs and the error
    codes that travel between the event loop and the coroutines. Pointers and
    buffers are opaque values. */
module Requests {
  import opened Option

  type Pointer = int
  type Byte = b: int | 0 <= b < 256

  datatype RequestType =
    | Read | Write | Close | Shutdown | Readv | Writev
    | Accept | Connect | Openat | Statx | Unlinkat | Renameat

  /** An array of iovecs: null, or the base address of its first element. */
  datatype IoVecs = NoVecs | Vecs(firstBase: Pointer)

  /** One alternative per member of the request's parameter union. */
  datatype Params =
    | ReadParams(fd: int, buffer: Pointer, length: nat)
    | WriteParams(fd: int, buffer: Pointer, length: nat)
    | CloseParams(fd: int)
    | ShutdownParams(fd: int, how: int)
    | ReadvParams(fd: int, iovs: IoVecs, num: nat)
    | WritevParams(fd: int, iovs: IoVecs, num: nat)
    | AcceptParams(sockfd: int, addr: Pointer, addrlen: Pointer)
    | ConnectParams(sockfd: int, addr: Pointer, len: nat)
    | OpenatParams(dirfd: int, pathname: Pointer, flags: int, mode: nat)
    | StatxParams(dirfd: int, pathname: Pointer, flags: int, mask: nat, statxbuf: Pointer)
    | UnlinkatParams(dirfd: int, pathname: Pointer, flags: int)
    | RenameatParams(olddirfd: int, oldpathname: Pointer, newdirfd: int, newpathname: Pointer, flags: int)

  /** The response variant; Monostate is its empty alternative, at index 12. */
  datatype ResponseVariant =
    | ReadPack(errorNum: int, reqFd: int, bytesRead: nat, buff: Pointer)
    | WritePack(errorNum: int, reqFd: int, bytesWrote: nat)
    | ClosePack(errorNum: int, reqFd: int)
    | ShutdownPack(errorNum: int, reqFd: int)
    | ReadvPack(errorNum: int, reqFd: int, bytesRead: nat, buff: Pointer)
    | WritevPack(errorNum: int, reqFd: int, bytesWrote: nat)
    | AcceptPack(errorNum: int, reqFd: int, fd: int)
    | ConnectPack(errorNum: int, reqFd: int)
    | OpenatPack(errorNum: int, reqFd: int)
    | StatxPack(errorNum: int, reqFd: int, pathname: Pointer)
    | UnlinkatPack(errorNum: int, reqFd: int, pathname: Pointer)
    | RenameatPack(errorNum: int, reqFd: int, oldpathname: Pointer, newpathname: Pointer)
    | Monostate

  datatype ManagerError = UnknownError | SubmissionQueueFull | ChannelFailure

  datatype ErrorCodes =
    | NoErr
    | ManagerErr(error: ManagerError)
    | SubmissionErr(errno: Byte)
    | OperationErr(errno: Byte)

  /** The enumerator's integer value, used as a variant index everywhere. */
  function Index(t: RequestType): nat {
    match t
    case Read => 0
    case Write => 1
    case Close => 2
    case Shutdown => 3
    case Readv => 4
    case Writev => 5
    case Accept => 6
    case Connect => 7
    case Openat => 8
    case Statx => 9
    case Unlinkat => 10
    case Renameat => 11
  }

  /** The index of the alternative that a parameter variant holds, as a request type. */
  function Tag(p: Params): RequestType {
    match p
    case ReadParams(_, _, _) => Read
    case WriteParams(_, _, _) => Write
    case CloseParams(_) => Close
    case ShutdownParams(_, _) => Shutdown
    case ReadvParams(_, _, _) => Readv
    case WritevParams(_, _, _) => Writev
    case AcceptParams(_, _, _) => Accept
    case ConnectParams(_, _, _) => Connect
    case OpenatParams(_, _, _, _) => Openat
    case StatxParams(_, _, _, _, _) => Statx
    case UnlinkatParams(_, _, _) => Unlinkat
    case RenameatParams(_, _, _, _, _) => Renameat
  }

  function VariantIndex(v: ResponseVariant): nat {
    match v
    case ReadPack(_, _, _, _) => 0
    case WritePack(_, _, _) => 1
    case ClosePack(_, _) => 2
    case ShutdownPack(_, _) => 3
    case ReadvPack(_, _, _, _) => 4
    case WritevPack(_, _, _) => 5
    case AcceptPack(_, _, _) => 6
    case ConnectPack(_, _) => 7
    case OpenatPack(_, _) => 8
    case StatxPack(_, _, _) => 9
    case UnlinkatPack(_, _, _) => 10
    case RenameatPack(_, _, _, _) => 11
    case Monostate => 12
  }

  /** What the event handler publishes for a completed request: the switch on the
      request type, which reads the union member of that type. */
  function Published(t: RequestType, p: Params, res: int): (v: ResponseVariant)
    requires Tag(p) == t
    ensures VariantIndex(v) == Index(t) && !v.Monostate?
    ensures v.errorNum == if res < 0 then -res else 0
  {
    var e := if res < 0 then -res else 0;
    match t
    case Read => if res >= 0 then ReadPack(e, p.fd, res, p.buffer) else ReadPack(e, p.fd, 0, 0)
    case Write => WritePack(e, p.fd, if res >= 0 then res else 0)
    case Close => ClosePack(e, p.fd)
    case Shutdown => ShutdownPack(e, p.fd)
    case Readv =>
      var base := if p.iovs.Vecs? && p.num > 0 then p.iovs.firstBase else 0;
      if res >= 0 then ReadvPack(e, p.fd, res, base) else ReadvPack(e, p.fd, 0, 0)
    case Writev => WritevPack(e, p.fd, if res >= 0 then res else 0)
    case Accept => AcceptPack(e, p.sockfd, if res >= 0 then res else 0)
    case Connect => ConnectPack(e, p.sockfd)
    case Openat => OpenatPack(e, res)
    case Statx => StatxPack(e, -1, p.pathname)
    case Unlinkat => UnlinkatPack(e, -1, p.pathname)
    case Renameat => RenameatPack(e, -1, p.oldpathname, p.newpathname)
  }

  /** A RequestData: `handle` is null for a non-awaitable operation, `coroIdx` is the
      slot to free when the coroutine has finished, `dynamic` marks a heap allocation.
      `res` is the result the kernel gives to its completion. */
  datatype RequestRecord = RequestRecord(
    handle: Option<nat>, coroIdx: nat, reqType: RequestType, dynamic: bool, specific: Params, res: int)

  /** The union member that is filled is the one the request type names. */
  type RequestData = r: RequestRecord | Tag(r.specific) == r.reqType
    witness RequestRecord(None, 0, Close, false, CloseParams(0), 0)

  /** What the event handler publishes for the request when it has completed. */
  function Response(r: RequestData): ResponseVariant {
    Published(r.reqType, r.specific, r.res)
  }

  /** `static_cast<Errnos>` of an int: the enumeration is one unsigned byte wide. */
  function ToByte(n: int): Byte { n % 256 }
}
