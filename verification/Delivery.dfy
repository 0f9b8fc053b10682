/** Results about every reachable state and step: who waits for what, what is resumed, the
    in-flight count, and the life of request data. */
module Delivery {
  import opened Requests
  import opened Machine
  import opened Scheduling
  import opened Accounting
  import opened Placement
  import opened Waiting
  import opened Slots
  import opened Invariant
  import opened Ledger
  import opened Channel

  /** A coroutine parked on an awaitable operation has one request outstanding, one parked
      in `submit_and_wait` has those submitted and not yet answered, and nobody else who is
      not inside a batch has any. */
  lemma OutstandingRequests(s: State, c: nat)
    requires Reachable(s) && c < |s.coros|
    ensures match s.coros[c].status
            case Parked(OnIo(params)) =>
              |Outstanding(s, c)| == 1 && forall id | id in Outstanding(s, c) :: s.pool[id].specific == params
            case Parked(OnBatch) =>
              s.coros[c].body.Batch?
              && |Outstanding(s, c)| == s.coros[c].body.submitted - s.coros[c].body.i > 0
            case Running =>
              |Outstanding(s, c)| == (if s.coros[c].body.Batch? && s.coros[c].begun
                                     then s.coros[c].body.submitted - s.coros[c].body.i - 1 else 0)
            case _ => Outstanding(s, c) == {}
  {
    ReachableInv(s);
    assert WaitOk(s, c) && ParkFits(s.coros[c]);
  }

  /** Handling a completion that carries a handle resumes a coroutine suspended for it,
      takes exactly that request off its account, and touches nobody else. */
  lemma ResumesTheWaiter(s: State, id: nat)
    requires Reachable(s) && CanWaitCqe(s) && s.cq[0] == Data(id) && s.pool[id].handle.Some?
    ensures var c := s.pool[id].handle.value;
      && Receives(s.coros, c) && id in Outstanding(s, c)
      && var t := DoWaitCqe(s);
         && |t.coros| == |s.coros| && t.coros[c].status.Running? && t.stack == [Run(c)]
         && t.coros[c].channel == Response(s.pool[id])
         && Outstanding(t, c) == Outstanding(s, c) - {id}
         && forall d | 0 <= d < |s.coros| && d != c ::
              t.coros[d] == s.coros[d] && Outstanding(t, d) == Outstanding(s, d)
  {
    ReachableInv(s);
    HeadIsAwaited(s, id);
    assert PlaceOk(s, id);
    WaitPending(s);
    TakeOne(s, DoWaitCqe(s), Data(id));
    DeliveredTo(s, id);
  }

  lemma DeliveredTo(s: State, id: nat)
    requires CanWaitCqe(s) && s.cq[0] == Data(id) && s.pool[id].handle.Some?
    ensures var c := s.pool[id].handle.value;
      var t := DoWaitCqe(s);
      && |t.coros| == |s.coros| && t.coros[c].status.Running? && t.stack == [Run(c)]
      && t.coros[c].channel == Response(s.pool[id])
      && forall d | 0 <= d < |s.coros| && d != c :: t.coros[d] == s.coros[d]
  {
  }

  /** The result an awaitable operation comes back with is that of its own request, in the
      alternative it consumes: never a channel failure. */
  lemma AwaitableGetsItsResult(s: State, id: nat, params: Params)
    requires Reachable(s) && CanWaitCqe(s) && s.cq[0] == Data(id) && s.pool[id].handle.Some?
    requires s.pool[id].handle.value < |s.coros|
    requires s.coros[s.pool[id].handle.value].status == Parked(OnIo(params))
    ensures var c := s.pool[id].handle.value;
      && c < |DoWaitCqe(s).coros|
      && DoWaitCqe(s).coros[c].channel == Published(Tag(params), params, s.pool[id].res)
      && var r := AwaitResult(Tag(params), NoErr, DoWaitCqe(s).coros[c].channel);
         && !r.error.ManagerErr? && (r.error.OperationErr? <==> s.pool[id].res < 0)
  {
    HeadWasAsked(s, id, params);
    DeliveredTo(s, id);
    ResultOfOwnRequest(params, s.pool[id].res);
  }

  /** The completion is of the operation that its coroutine is parked on. */
  lemma HeadWasAsked(s: State, id: nat, params: Params)
    requires Reachable(s) && CanWaitCqe(s) && s.cq[0] == Data(id) && s.pool[id].handle.Some?
    requires s.coros[s.pool[id].handle.value].status == Parked(OnIo(params))
    ensures s.pool[id].specific == params && s.pool[id].reqType == Tag(params)
  {
    ReachableInv(s);
    HeadIsAwaited(s, id);
    assert WaitOk(s, s.pool[id].handle.value);
  }

  /** A batch goes on until its last response: it then returns 0, with none outstanding. */
  lemma BatchEndsAnswered(s: State, c: nat)
    requires Reachable(s) && CanBatchHandled(s, c)
    ensures var t := DoBatchHandled(s, c);
      && c < |t.coros| && |t.pool| == |s.pool| && Outstanding(t, c) == Outstanding(s, c)
      && if Outstanding(s, c) == {} then Over(t.coros[c]) && t.coros[c].ret == 0
         else t.coros[c].status == Parked(OnBatch)
  {
    ReachableInv(s);
    TopIsOk(s);
    BatchLeft(s, c);
    BatchHandledRing(s, c);
    BatchHandledEnds(s, c);
  }

  /** A running batch has none outstanding exactly if this was its last response. */
  lemma BatchLeft(s: State, c: nat)
    requires WaitInv(s) && c < |s.coros| && s.coros[c].body.Batch? && s.coros[c].begun && s.coros[c].status.Running?
    ensures Outstanding(s, c) == {} <==> s.coros[c].body.i + 1 >= s.coros[c].body.submitted
  {
    assert WaitOk(s, c);
  }

  lemma BatchHandledRing(s: State, c: nat)
    requires CanBatchHandled(s, c)
    ensures |DoBatchHandled(s, c).pool| == |s.pool| && Outstanding(DoBatchHandled(s, c), c) == Outstanding(s, c)
  {
    assert SameRing(s, DoBatchHandled(s, c));
  }

  lemma BatchHandledEnds(s: State, c: nat)
    requires TopOk(s) && CanBatchHandled(s, c)
    ensures var t := DoBatchHandled(s, c);
      && c < |t.coros|
      && if s.coros[c].body.i + 1 < s.coros[c].body.submitted then t.coros[c].status == Parked(OnBatch)
         else Over(t.coros[c]) && t.coros[c].ret == 0
  {
  }

  /** The loop is never held up by a completion it cannot handle. */
  lemma CompletionsAreHandled(s: State)
    requires Reachable(s) && s.stack == []
    ensures s.pc.Wait? && s.cq != [] ==> CanWaitCqe(s)
    ensures s.pc.Top? ==> CanLoopTop(s)
    ensures s.pc.Handled? ==> CanSeen(s, false)
    ensures s.pc.Polled? ==> CanPolledDone(s, false)
  {
    ReachableInv(s);
    if s.pc.Wait? && s.cq != [] { assert s.cq[0] in Pending(s); }
    if s.ready != [] { assert s.ready[|s.ready| - 1] in s.ready; }
  }

  /** `_in_flight_requests` counts what the kernel holds and what is completed but not
      seen, so that its decrement never wraps. */
  lemma InFlightConserved(s: State)
    requires Reachable(s)
    ensures s.inFlight == |s.kernel| + |s.cq|
    ensures forall done :: CanSeen(s, done) ==> DoSeen(s, done).inFlight == s.inFlight - 1 >= 0
  {
    ReachableInv(s);
  }

  /** How many entries the step has the kernel take: those of the requests that it makes, and
      the cancel request. */
  function Submits(s: State, m: Move): nat
    requires Enabled(s, m)
  {
    |Made(s, m)| + One(m == Library(KillBegin) && !s.life.Dying? && !s.life.Dead?)
  }

  /** A step changes the counter by what it submits, less one if it marks a completion seen;
      and the callers of a dying or dead manager submit nothing. */
  lemma InFlightChange(s: State, m: Move)
    requires Reachable(s) && Sparing(s, m)
    ensures var t := Apply(s, m);
      && t.inFlight == |t.kernel| + |t.cq| == s.inFlight + Submits(s, m) - One(m.Loop? && m.l.Seen?)
      && (s.life.Dying? || s.life.Dead? ==> Submits(s, m) == 0)
  {
    ReachableInv(s);
    InvStep(s, m);
    InFlightStep(s, m);
  }

  lemma InFlightStep(s: State, m: Move)
    requires Inv(s) && Sparing(s, m)
    ensures Apply(s, m).inFlight == s.inFlight + Submits(s, m) - One(m.Loop? && m.l.Seen?)
  {
    match m
    case Kernel(e, res) =>
    case Loop(l) => LoopInFlight(s, l);
    case Call(u) => CallInFlight(s, u);
    case Unwind(f) => UnwindRing(s, f);
    case Library(b) => LibraryInFlight(s, b);
  }

  lemma CallInFlight(s: State, u: CallMove)
    requires AccountInv(s) && CanCall(s, u)
    ensures DoCall(s, u).inFlight == s.inFlight + Submits(s, Call(u))
  {
    if !u.SubmitNa? && !u.AwaitIo? { CallRing(s, u); }
  }

  lemma LibraryInFlight(s: State, b: BodyMove)
    requires AccountInv(s) && CanLibrary(s, b)
    ensures DoLibrary(s, b).inFlight == s.inFlight + Submits(s, Library(b))
  {
    match b
    case BatchBegin(c) => BatchBeginRing(s, c); BatchMakes(s, c);
    case BatchHandled(_) => PauseRing(s, b);
    case PollBegin(_) => PauseRing(s, b);
    case PollHandled(_, _) => PauseRing(s, b);
    case KillBegin => KillBeginInFlight(s);
    case KillCheck =>
  }

  lemma KillBeginInFlight(s: State)
    requires s.sq == [] && CanKillBegin(s)
    ensures DoKillBegin(s).inFlight == s.inFlight + One(!Restricted(s))
  {
    if !Restricted(s) { assert KillSubmitted(s).inFlight == s.inFlight + 1; }
  }

  lemma LoopInFlight(s: State, l: LoopMove)
    requires AccountInv(s) && CanLoop(s, l)
    ensures DoLoop(s, l).inFlight == if l.Seen? then s.inFlight - 1 else s.inFlight
  {
  }

  /** Every path to a submission entry is refused to the callers of a dying manager. */
  lemma RestrictedCall(s: State, u: CallMove)
    requires CanCall(s, u) && Restricted(s)
    ensures SameRing(s, DoCall(s, u))
  {
    if !u.SubmitNa? && !u.AwaitIo? { CallRing(s, u); }
  }

  /** Dynamic request data are in the ring, in the ready store, with the poller or freed:
      in exactly one of these. */
  lemma OnePlaceOnly(s: State, id: nat)
    requires Reachable(s) && id < |s.pool| && s.pool[id].dynamic
    ensures Pending(s)[Data(id)] + multiset(s.ready)[id] + One(s.pc == Polled(id)) + One(id in s.freed) == 1
    ensures multiset(s.polled)[id] == One(s.pc == Polled(id) || id in s.freed)
  {
    ReachableInv(s);
    assert PlaceOk(s, id);
  }

  /** Freeing follows the one delivery to the poller, and happens once. */
  lemma FreedOnce(s: State, m: Move)
    requires Reachable(s) && Sparing(s, m)
    ensures s.freed <= Apply(s, m).freed
    ensures forall id | id in Apply(s, m).freed - s.freed ::
      m.Loop? && m.l.PolledDone? && s.pc == Polled(id) && multiset(s.polled)[id] == 1 && s.pool[id].dynamic
  {
    ReachableInv(s);
    match m
    case Kernel(e, res) =>
    case Loop(l) => LoopFrees(s, l);
    case Call(u) => if !u.AwaitIo? && !u.SubmitNa? { CallRing(s, u); }
    case Unwind(f) => UnwindRing(s, f);
    case Library(b) => LibraryFrees(s, b);
  }

  lemma LoopFrees(s: State, l: LoopMove)
    requires PlaceInv(s) && CanLoop(s, l)
    ensures s.freed <= DoLoop(s, l).freed
    ensures forall id | id in DoLoop(s, l).freed - s.freed ::
      l.PolledDone? && s.pc == Polled(id) && multiset(s.polled)[id] == 1 && s.pool[id].dynamic
  {
    match l
    case PolledDone(done) => PolledDoneFrees(s, done);
    case Seen(done) => SeenFreesNothing(s, done);
    case Start =>
    case LoopTop => assert DoLoopTop(s).freed == s.freed;
    case WaitCqe => WaitIsTakenUp(s);
    case KillRoundDone =>
  }

  lemma PolledDoneFrees(s: State, done: bool)
    requires PlaceInv(s) && CanPolledDone(s, done)
    ensures s.freed <= DoPolledDone(s, done).freed
    ensures forall id | id in DoPolledDone(s, done).freed - s.freed ::
      s.pc == Polled(id) && multiset(s.polled)[id] == 1 && s.pool[id].dynamic
  {
    PolledDonePlaces(s, done);
    assert PlaceOk(s, s.pc.id);
  }

  lemma SeenFreesNothing(s: State, done: bool)
    requires PlaceInv(s) && CanSeen(s, done)
    ensures DoSeen(s, done).freed == s.freed
  {
    SeenPlaces(s, done);
  }

  lemma LibraryFrees(s: State, b: BodyMove)
    requires CanLibrary(s, b)
    ensures DoLibrary(s, b).freed == s.freed
  {
    match b
    case BatchBegin(c) => BatchBeginRing(s, c);
    case BatchHandled(_) => PauseRing(s, b);
    case PollBegin(_) => PauseRing(s, b);
    case PollHandled(_, _) => PauseRing(s, b);
    case KillBegin => KillRing(s, b);
    case KillCheck => KillRing(s, b);
  }

  /** Once a manager is dead, the request data never freed are those left in the ready store. */
  lemma LeftAtDeath(s: State, id: nat)
    requires Reachable(s) && s.life.Dead? && id < |s.pool| && s.pool[id].dynamic
    ensures id !in s.freed <==> id in s.ready
  {
    ReachableInv(s);
    assert PlaceOk(s, id);
    assert s.kernel == multiset{} && s.cq == [];
    assert Pending(s) == multiset{};
  }

  /** The index freed at the end of `event_handler` lies within the store, so that no slot
      out of range is ever reused. */
  lemma ErasedSlotInRange(s: State)
    requires Reachable(s)
    ensures CanPolledDone(s, true) ==> s.pool[s.pc.id].coroIdx < s.slots
    ensures CanSeen(s, true) ==> s.pool[s.cq[0].id].coroIdx < s.slots
    ensures forall i | i in s.freeSlots :: i < s.slots
  {
    ReachableInv(s);
    if CanPolledDone(s, true) { SettleInRange(s, s.pc.id, true); }
    if CanSeen(s, true) { SettleInRange(s, s.cq[0].id, true); }
  }
}
