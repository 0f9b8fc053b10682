/** The communication channel of a coroutine, and the awaitable operation that takes its
    result out of it. */
module Channel {
  import opened Option
  import opened Requests

  class CommunicationChannel {
    var store: ResponseVariant

    constructor ()
      ensures store == Monostate
    {
      store := Monostate;
    }

    /** `publish_resp_data<Rt>`: whatever was held is replaced. */
    method Publish(rt: RequestType, data: ResponseVariant)
      requires VariantIndex(data) == Index(rt)
      modifies this
      ensures store == data
    {
      store := data;
    }

    /** `consume_resp_data<Rt>`: gives the value, once, if it is of that type; a value of
        another type stays. */
    method Consume(rt: RequestType) returns (r: Option<ResponseVariant>)
      modifies this
      ensures r == Consumed(rt, old(store))
      ensures store == if r.Some? then Monostate else old(store)
    {
      if VariantIndex(store) == Index(rt) {
        r := Some(store);
        store := Monostate;
      } else {
        r := None;
      }
    }

    /** `response_store_current_type`: an index, which for an empty channel names no type. */
    function CurrentType(): (i: nat)
      reads this
      ensures i <= 12 && (i == 12 <==> store == Monostate)
    {
      VariantIndex(store)
    }
  }

  function Consumed(rt: RequestType, v: ResponseVariant): Option<ResponseVariant> {
    if VariantIndex(v) == Index(rt) then Some(v) else None
  }

  /** `IOResponse`: the data are default-initialised when an error is returned alone. */
  datatype IOResponse = IOResponse(error: ErrorCodes, data: Option<ResponseVariant>)

  /** `IOAwaitable::await_resume`. */
  function AwaitResult(rt: RequestType, error: ErrorCodes, store: ResponseVariant): IOResponse {
    if !error.NoErr? then IOResponse(error, None)
    else
      match Consumed(rt, store)
      case None => IOResponse(ManagerErr(ChannelFailure), None)
      case Some(data) =>
        if !data.Monostate? && data.errorNum != 0 then
          IOResponse(OperationErr(ToByte(-data.errorNum)), Some(data))
        else IOResponse(NoErr, Some(data))
  }

  /** One awaitable operation, from its construction to its result. */
  class IOAwaitable {
    const rt: RequestType
    const hasSqe: bool
    var request: RequestData
    var channel: CommunicationChannel?
    var error: ErrorCodes

    /** The derived constructor fills the union member of its own type. */
    constructor (specific: Params, sqeAvailable: bool)
      ensures rt == Tag(specific) && hasSqe == sqeAvailable && channel == null
      ensures error == if sqeAvailable then NoErr else ManagerErr(SubmissionQueueFull)
      ensures request == RequestRecord(None, 0, rt, false, specific, 0)
    {
      rt := Tag(specific);
      hasSqe := sqeAvailable;
      error := if sqeAvailable then NoErr else ManagerErr(SubmissionQueueFull);
      request := RequestRecord(None, 0, Tag(specific), false, specific, 0);
      channel := null;
    }

    /** No suspension exactly when there was no entry. */
    predicate AwaitReady()
      reads this
    {
      !error.NoErr?
    }

    /** `ret` is what the submission returned; true when the coroutine is resumed at once. */
    method AwaitSuspend(handle: nat, metadata: nat, chan: CommunicationChannel, ret: int) returns (resumed: bool)
      requires !AwaitReady()
      modifies this
      ensures channel == chan
      ensures request == old(request).(handle := Some(handle), coroIdx := metadata)
      ensures resumed <==> ret < 1
      ensures error == if resumed then SubmissionErr(ToByte(-ret)) else NoErr
    {
      channel := chan;
      request := request.(handle := Some(handle), coroIdx := metadata);
      resumed := ret < 1;
      if resumed { error := SubmissionErr(ToByte(-ret)); }
    }

    method AwaitResume() returns (r: IOResponse)
      requires error == NoErr ==> channel != null
      modifies channel
      ensures error != NoErr ==> r == IOResponse(error, None)
      ensures r == AwaitResult(rt, error, if channel == null then Monostate else old(channel.store))
      ensures channel != null ==>
        channel.store == if error == NoErr && old(VariantIndex(channel.store)) == Index(rt) then Monostate
                         else old(channel.store)
    {
      if error != NoErr { return IOResponse(error, None); }
      var val := channel.Consume(rt);
      if val.None? { return IOResponse(ManagerErr(ChannelFailure), None); }
      var data := val.value;
      if !data.Monostate? && data.errorNum != 0 {
        return IOResponse(OperationErr(ToByte(-data.errorNum)), Some(data));
      }
      return IOResponse(NoErr, Some(data));
    }
  }

  /** The tag set at construction, the union member, the index published and the index
      consumed agree, for every request and every result. */
  lemma ResultOfOwnRequest(p: Params, res: int)
    ensures var r := AwaitResult(Tag(p), NoErr, Published(Tag(p), p, res));
      && r.data == Some(Published(Tag(p), p, res))
      && !r.error.ManagerErr?
      && (r.error.OperationErr? <==> res < 0)
      && (r.error.NoErr? <==> res >= 0)
      && (res < 0 ==> r.data.value.errorNum == -res)
  {
    assert VariantIndex(Published(Tag(p), p, res)) == Index(Tag(p));
  }

  /** The pack is the one of the request's type. Apart from the error number, zero or the
      negated result, it carries the descriptor of the request, the result of an `openat` in
      place of one, or -1; how many bytes were moved, or the descriptor accepted, or zero on
      failure; the buffer read into, for an array of iovecs the first one's; and the names. */
  lemma PackCarriesRequest(p: Params, res: int)
    ensures var v := Published(Tag(p), p, res);
      var done := if res < 0 then 0 else res;
      && (!v.Monostate? && v.errorNum == if res < 0 then -res else 0)
      && (p.ReadParams? ==> v.ReadPack? && v.reqFd == p.fd && v.bytesRead == done
                            && v.buff == (if res < 0 then 0 else p.buffer))
      && (p.WriteParams? ==> v.WritePack? && v.reqFd == p.fd && v.bytesWrote == done)
      && (p.CloseParams? ==> v.ClosePack? && v.reqFd == p.fd)
      && (p.ShutdownParams? ==> v.ShutdownPack? && v.reqFd == p.fd)
      && (p.ReadvParams? ==> v.ReadvPack? && v.reqFd == p.fd && v.bytesRead == done
                             && (res >= 0 && p.iovs.Vecs? && p.num > 0 ==> v.buff == p.iovs.firstBase)
                             && (res < 0 || p.iovs.NoVecs? || p.num == 0 ==> v.buff == 0))
      && (p.WritevParams? ==> v.WritevPack? && v.reqFd == p.fd && v.bytesWrote == done)
      && (p.AcceptParams? ==> v.AcceptPack? && v.reqFd == p.sockfd && v.fd == done)
      && (p.ConnectParams? ==> v.ConnectPack? && v.reqFd == p.sockfd)
      && (p.OpenatParams? ==> v.OpenatPack? && v.reqFd == res)
      && (p.StatxParams? ==> v.StatxPack? && v.reqFd == -1 && v.pathname == p.pathname)
      && (p.UnlinkatParams? ==> v.UnlinkatPack? && v.reqFd == -1 && v.pathname == p.pathname)
      && (p.RenameatParams? ==> v.RenameatPack? && v.reqFd == -1
                                && v.oldpathname == p.oldpathname && v.newpathname == p.newpathname)
  {
  }

  /** Responses of different types never answer each other's consumption. */
  lemma WrongTypeIsAFailure(p: Params, res: int, rt: RequestType)
    ensures AwaitResult(rt, NoErr, Published(Tag(p), p, res)).error == ManagerErr(ChannelFailure) <==> rt != Tag(p)
  {
    IndexInjective(rt, Tag(p));
  }

  lemma IndexInjective(t: RequestType, u: RequestType)
    ensures Index(t) == Index(u) <==> t == u
  {
  }

  /** The error byte stored is not the errno: the number is negated a second time before it
      is cut to a byte. For errno values of one byte they agree on 128 alone. */
  lemma StoredErrnoIs128Only(p: Params, errno: int)
    requires 0 < errno < 256
    ensures var r := AwaitResult(Tag(p), NoErr, Published(Tag(p), p, -errno));
      && r.error == OperationErr(256 - errno)
      && (r.error == OperationErr(errno) <==> errno == 128)
  {
    ResultOfOwnRequest(p, -errno);
  }
}
