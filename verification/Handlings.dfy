/** How often the completion of a request is taken up, counted over whole runs. */
module Handlings {
  import opened Option
  import opened Requests
  import opened Machine
  import opened Accounting
  import opened Placement
  import opened Invariant

  /** The request whose completion the step takes up, to deliver it or to store it as ready. */
  function TakesUp(s: State, m: Move): Option<nat>
    requires Enabled(s, m)
  {
    match m
    case Loop(WaitCqe) => if s.cq[0].Data? then Some(s.cq[0].id) else None
    case _ => None
  }

  /** From s to t the request was made, or its completion taken up, or neither. */
  predicate Accounts(s: State, t: State, id: nat, takenUp: bool) {
    && |s.pool| <= |t.pool|
    && Pending(t)[Data(id)] + One(takenUp) == Pending(s)[Data(id)] + One(|s.pool| <= id < |t.pool|)
  }

  lemma SameRingAccounts(s: State, t: State, id: nat)
    requires SameRing(s, t)
    ensures Accounts(s, t, id, false)
  {
    assert Pending(t) == Pending(s);
  }

  lemma LoopAccounts(s: State, l: LoopMove, id: nat)
    requires PlaceInv(s) && CanLoop(s, l)
    ensures Accounts(s, DoLoop(s, l), id, TakesUp(s, Loop(l)) == Some(id))
  {
    match l
    case Start => assert Pending(DoStart(s)) == Pending(s);
    case LoopTop => LoopTopAccounts(s, id);
    case PolledDone(done) => PolledDonePlaces(s, done);
    case WaitCqe => WaitAccounts(s, id);
    case Seen(done) => SeenAccounts(s, done, id);
    case KillRoundDone => assert Pending(s.(pc := Top)) == Pending(s);
  }

  lemma LoopTopAccounts(s: State, id: nat)
    requires PlaceInv(s) && CanLoopTop(s)
    ensures Accounts(s, DoLoopTop(s), id, false)
  {
    LoopTopPlaces(s);
    assert |DoLoopTop(s).pool| == |s.pool|;
  }

  lemma WaitAccounts(s: State, id: nat)
    requires CanWaitCqe(s)
    ensures Accounts(s, DoWaitCqe(s), id, s.cq[0] == Data(id))
  {
    WaitPending(s);
    WaitIsTakenUp(s);
  }

  lemma SeenAccounts(s: State, done: bool, id: nat)
    requires PlaceInv(s) && CanSeen(s, done)
    ensures Accounts(s, DoSeen(s, done), id, false)
  {
    SeenPlaces(s, done);
    assert |DoSeen(s, done).pool| == |s.pool|;
  }

  lemma QueueAccounts(s: State, r: RequestData, id: nat)
    requires InRange(s)
    ensures Accounts(s, SubmitAll(Queue(s, r)), id, false)
  {
    QueuePending(s, r);
  }

  lemma CallAccounts(s: State, u: CallMove, id: nat)
    requires PlaceInv(s) && CanCall(s, u)
    ensures Accounts(s, DoCall(s, u), id, false)
  {
    match u
    case AwaitIo(c, params) => AwaitIoAccounts(s, c, params, id);
    case SubmitNa(params) =>
      if SqeAvailable(s) { QueueAccounts(s, RequestRecord(None, 0, Tag(params), true, params, 0), id); }
    case _ => CallRing(s, u); SameRingAccounts(s, DoCall(s, u), id);
  }

  lemma AwaitIoAccounts(s: State, c: nat, params: Params, id: nat)
    requires PlaceInv(s) && CanAwaitIo(s, c)
    ensures Accounts(s, DoAwaitIo(s, c, params), id, false)
  {
    if SqeAvailable(s) {
      var s1 := SubmitAll(Queue(s, RequestRecord(Some(c), s.coros[c].metadata, Tag(params), false, params, 0)));
      QueueAccounts(s, RequestRecord(Some(c), s.coros[c].metadata, Tag(params), false, params, 0), id);
      SameRingAccounts(s1, DoAwaitIo(s, c, params), id);
    }
  }

  lemma BatchAccounts(s: State, c: nat, id: nat)
    requires CanBatchBegin(s, c)
    ensures Accounts(s, DoBatchBegin(s, c), id, false)
  {
    var reqs := s.coros[c].body.reqs;
    var k := Admitted(s, |reqs|);
    BatchPendingAt(s, c, reqs, k, id);
    BatchBeginRing(s, c);
    SameRingAccounts(SubmitAll(QueueBatch(s, c, reqs, k)), DoBatchBegin(s, c), id);
  }

  lemma KillLoopAccounts(s: State, id: nat)
    requires PlaceInv(s) && CanReturn(s, KILL)
    ensures Accounts(s, KillLoop(s), id, false)
  {
    KillLoopPlaces(s);
    assert |KillLoop(s).pool| == |s.pool|;
  }

  lemma KillBeginAccounts(s: State, id: nat)
    requires PlaceInv(s) && CanKillBegin(s)
    ensures Accounts(s, DoKillBegin(s), id, false)
  {
    var s1 := Set(s, KILL, s.coros[KILL].(begun := true));
    PlaceFrame(s, s1);
    SameRingAccounts(s, s1, id);
    if Restricted(s) { SameRingAccounts(s1, DoKillBegin(s), id); }
    else {
      CancelPlaces(s1);
      KillLoopAccounts(KillSubmitted(s1), id);
    }
  }

  lemma LibraryAccounts(s: State, b: BodyMove, id: nat)
    requires PlaceInv(s) && CanLibrary(s, b)
    ensures Accounts(s, DoLibrary(s, b), id, false)
  {
    match b
    case BatchBegin(c) => BatchAccounts(s, c, id);
    case BatchHandled(c) => PauseRing(s, b); SameRingAccounts(s, DoBatchHandled(s, c), id);
    case PollBegin(c) => PauseRing(s, b); SameRingAccounts(s, DoPollBegin(s, c), id);
    case PollHandled(c, again) => PauseRing(s, b); SameRingAccounts(s, DoPollHandled(s, c, again), id);
    case KillBegin => KillBeginAccounts(s, id);
    case KillCheck => KillLoopAccounts(s, id);
  }

  lemma StepAccounts(s: State, m: Move, id: nat)
    requires Inv(s) && Enabled(s, m)
    ensures Accounts(s, Apply(s, m), id, TakesUp(s, m) == Some(id))
  {
    match m
    case Kernel(e, res) => CompletePending(s, e, res);
    case Loop(l) => LoopAccounts(s, l, id);
    case Call(u) => CallAccounts(s, u, id);
    case Unwind(f) => UnwindRing(s, f); SameRingAccounts(s, DoUnwind(s, f), id);
    case Library(b) => LibraryAccounts(s, b, id);
  }

  /** How many moves of the run take up a completion of the request. */
  function TakeUpCount(s: State, ms: seq<Move>, id: nat): nat
    requires Possible(s, ms)
    decreases |ms|
  {
    if ms == [] then 0 else One(TakesUp(s, ms[0]) == Some(id)) + TakeUpCount(Apply(s, ms[0]), ms[1..], id)
  }

  lemma {:induction false} TakenUpOnceFrom(s: State, ms: seq<Move>, id: nat)
    requires Inv(s) && Legal(s, ms)
    ensures |s.pool| <= |Exec(s, ms).pool|
    ensures TakeUpCount(s, ms, id) + Pending(Exec(s, ms))[Data(id)] ==
      Pending(s)[Data(id)] + One(|s.pool| <= id < |Exec(s, ms).pool|)
    decreases |ms|
  {
    if ms != [] {
      StepAccounts(s, ms[0], id);
      InvStep(s, ms[0]);
      TakenUpOnceFrom(Apply(s, ms[0]), ms[1..], id);
    }
  }

  /** In any run a request that is made stays in the ring, once, until its completion is taken
      up, once: it is delivered then if it carries a handle, and stored as ready if not. */
  lemma TakenUpOnce(capacity: nat, ringUp: bool, ms: seq<Move>, id: nat)
    requires capacity > 0 && Legal(Init(capacity, ringUp), ms)
    ensures var t := Exec(Init(capacity, ringUp), ms);
      TakeUpCount(Init(capacity, ringUp), ms, id) + Pending(t)[Data(id)] == One(id < |t.pool|)
  {
    InitInv(capacity, ringUp);
    TakenUpOnceFrom(Init(capacity, ringUp), ms, id);
  }
}
