/** The in-flight counter, the life state and the kill task. */
module Accounting {
  import opened Option
  import opened Machine
  import opened Requests
  import opened Scheduling

  /** The counter is the number of requests the kernel holds plus the completions not
      yet marked seen, the one being handled included. */
  predicate Counted(s: State) {
    && s.sq == []
    && s.capacity > 0
    && s.inFlight == |s.kernel| + |s.cq|
    && (s.pc.Handled? ==> s.cq != [])
    && (s.life.Dead? ==> s.inFlight == 0)
  }

  /** The kill task and the life state. A dying manager with nothing in flight is one
      whose kill task is just being resumed to notice it. */
  predicate KillOk(s: State) {
    KILL < |s.coros| &&
    var k := s.coros[KILL];
    && (s.life.NotStarted? || s.life.Living? ==> !k.begun && !Over(k))
    && (s.life.Dying? ==> k.begun && (k.status.Running? || k.status == Parked(OnKill)))
    && (s.life.Dying? && s.inFlight == 0 ==> s.pc.Killing? && k.status.Running?)
    && (k.begun && k.status.Running? ==> s.pc.Killing? && s.life.Dying?)
    && (k.status.Created? ==> !k.begun)
    && (Over(k) ==> s.life.Dead?)
    && (k.status.Parked? ==> k.begun && s.life.Dying?)
    && (s.pc.Outside? ==> !s.life.Living?)
    && (!s.pc.Outside? ==> !s.life.NotStarted?)
    && (s.life.Dead? ==> s.pc.Outside? || s.pc.Killing? || s.pc.Top?)
  }

  predicate AccountInv(s: State) { Counted(s) && KillOk(s) }

  // The counter.

  lemma CountedWait(s: State)
    requires AccountInv(s) && CanWaitCqe(s)
    ensures Counted(DoWaitCqe(s))
  {
  }

  lemma CountedSeen(s: State, done: bool)
    requires AccountInv(s) && CanSeen(s, done)
    ensures Counted(DoSeen(s, done))
  {
  }

  lemma CountedLoopTop(s: State)
    requires AccountInv(s) && CanLoopTop(s)
    ensures Counted(DoLoopTop(s))
  {
  }

  lemma CountedLoopStep(s: State, l: LoopMove)
    requires AccountInv(s) && CanLoop(s, l)
    ensures Counted(DoLoop(s, l))
  {
    match l
    case Start =>
    case LoopTop => CountedLoopTop(s);
    case PolledDone(done) =>
    case WaitCqe => CountedWait(s);
    case Seen(done) => CountedSeen(s, done);
    case KillRoundDone =>
  }

  lemma CountedCallStep(s: State, u: CallMove)
    requires AccountInv(s) && CanCall(s, u)
    ensures Counted(DoCall(s, u))
  {
    match u
    case Create(body) => assert Counted(DoCreate(s, body));
    case Register(c) => assert Counted(DoRegister(s, c));
    case AwaitIo(c, params) => assert Counted(DoAwaitIo(s, c, params));
    case SubmitNa(params) => assert Counted(DoSubmitNa(s, params));
    case AwaitTask(c, child) => assert Counted(DoAwaitTask(s, c, child));
    case CoReturn(c, v) =>
  }

  lemma CountedLibraryStep(s: State, b: BodyMove)
    requires AccountInv(s) && CanLibrary(s, b)
    ensures Counted(DoLibrary(s, b))
  {
    match b
    case BatchBegin(c) => BatchBeginRing(s, c);
    case BatchHandled(c) => assert Counted(DoBatchHandled(s, c));
    case PollBegin(c) => assert Counted(DoPollBegin(s, c));
    case PollHandled(c, again) => assert Counted(DoPollHandled(s, c, again));
    case KillBegin => assert Counted(DoKillBegin(s));
    case KillCheck => assert Counted(KillLoop(s));
  }

  lemma BatchBeginRing(s: State, c: nat)
    requires CanBatchBegin(s, c)
    ensures SameRing(BatchSubmitted(s, c), DoBatchBegin(s, c))
    ensures SameRing(SubmitAll(QueueBatch(s, c, s.coros[c].body.reqs, Admitted(s, |s.coros[c].body.reqs|))),
                     BatchSubmitted(s, c))
  {
  }

  /** The other library coroutines leave the ring alone, */
  lemma PauseRing(s: State, b: BodyMove)
    requires CanLibrary(s, b) && (b.BatchHandled? || b.PollBegin? || b.PollHandled?)
    ensures SameRing(s, DoLibrary(s, b))
  {
  }

  /** and the kill task everything but its queues. */
  predicate SameRequestsAndLoop(s: State, t: State) {
    && t.pool == s.pool && t.freed == s.freed && t.ready == s.ready && t.arrived == s.arrived && t.polled == s.polled
    && t.pc == s.pc && t.cq == s.cq && t.capacity == s.capacity
  }

  lemma KillRing(s: State, b: BodyMove)
    requires CanLibrary(s, b) && (b.KillBegin? || b.KillCheck?)
    ensures SameRequestsAndLoop(s, DoLibrary(s, b))
  {
  }

  // The kill task.

  /** What the kill task's protocol needs to know of scheduling. */
  predicate KillPlace(s: State) {
    && KILL < |s.coros| && s.coros[KILL].body.Kill?
    && (s.coros[KILL].status.Parked? ==> s.coros[KILL].status.on.OnKill?)
    && (s.stack == [] ==> !s.coros[KILL].status.Running?)
    && TopOk(s)
  }

  lemma KillPlaced(s: State)
    requires SchedInv(s)
    ensures KillPlace(s)
  {
    assert ParkFits(s.coros[KILL]);
    TopIsOk(s);
  }

  predicate Ready(s: State) { AccountInv(s) && KillPlace(s) }

  lemma SeenKeepsKill(s: State, done: bool)
    requires Ready(s) && CanSeen(s, done) && DeliversToWaiter(s, Seen(done))
    ensures KillOk(DoSeen(s, done))
  {
  }

  lemma WaitKeepsKill(s: State)
    requires Ready(s) && CanWaitCqe(s) && DeliversToWaiter(s, WaitCqe)
    ensures KillOk(DoWaitCqe(s))
  {
  }

  lemma LoopTopKeepsKill(s: State)
    requires Ready(s) && CanLoopTop(s) && DeliversToWaiter(s, LoopTop)
    ensures KillOk(DoLoopTop(s))
  {
  }

  lemma KillLoopStep(s: State, l: LoopMove)
    requires Ready(s) && CanLoop(s, l) && DeliversToWaiter(s, l)
    ensures KillOk(DoLoop(s, l))
  {
    match l
    case Start =>
    case LoopTop => LoopTopKeepsKill(s);
    case PolledDone(done) =>
    case WaitCqe => WaitKeepsKill(s);
    case Seen(done) => SeenKeepsKill(s, done);
    case KillRoundDone =>
  }

  lemma ReturnKeepsKill(s: State, c: nat, v: int)
    requires KillOk(s) && KillPlace(s) && CanReturn(s, c) && c != KILL
    ensures KillOk(Return(s, c, v))
  {
  }

  lemma SuspendKeepsKill(s: State, c: nat, park: Park)
    requires KillOk(s) && KillPlace(s) && c < |s.coros| && OnTop(s, Run(c)) && c != KILL
    ensures KillOk(Suspend(s, c, park))
  {
  }

  lemma AwaitTaskKeepsKill(s: State, c: nat, child: nat)
    requires Ready(s) && CanAwaitTask(s, c, child)
    ensures KillOk(DoAwaitTask(s, c, child))
  {
  }

  lemma RegisterKeepsKill(s: State, c: nat)
    requires Ready(s) && CanRegister(s, c)
    ensures KillOk(DoRegister(s, c))
  {
  }

  lemma AwaitIoKeepsKill(s: State, c: nat, params: Params)
    requires Ready(s) && CanAwaitIo(s, c)
    ensures KillOk(DoAwaitIo(s, c, params))
  {
  }

  lemma KillCallStep(s: State, u: CallMove)
    requires Ready(s) && CanCall(s, u)
    ensures KillOk(DoCall(s, u))
  {
    match u
    case Create(body) =>
    case Register(c) => RegisterKeepsKill(s, c);
    case AwaitIo(c, params) => AwaitIoKeepsKill(s, c, params);
    case SubmitNa(params) =>
    case AwaitTask(c, child) => AwaitTaskKeepsKill(s, c, child);
    case CoReturn(c, v) => ReturnKeepsKill(s, c, v);
  }

  lemma StoreInsertKeepsKill(s: State, c: nat, slot: nat)
    requires Ready(s) && CanStoreInsert(s, c, slot) && SparesFrames(s, StoreInsert(c, slot))
    ensures KillOk(DoStoreInsert(s, c, slot))
  {
    SparingInsert(s, c, slot);
  }

  lemma AwaitSuspendReturnKeepsKill(s: State, c: nat, child: nat)
    requires Ready(s) && CanAwaitSuspendReturn(s, c, child)
    ensures KillOk(DoAwaitSuspendReturn(s, c, child))
  {
    assert c != KILL;
    if s.coros[child].status.Finished? { ResumeKeepsKill(s, c, child); }
  }

  lemma ResumeKeepsKill(s: State, c: nat, child: nat)
    requires KillOk(s) && CanAwaitSuspendReturn(s, c, child) && c != KILL && s.coros[child].status.Finished?
    ensures KillOk(Resume(Set(Pop(s), c, s.coros[c].(got := Some(s.coros[child].ret))), c))
  {
  }

  lemma FinalSuspendReturnKeepsKill(s: State, c: nat)
    requires Ready(s) && CanFinalSuspendReturn(s, c)
    ensures KillOk(DoFinalSuspendReturn(s, c))
  {
  }

  lemma KillUnwindStep(s: State, f: FrameMove)
    requires Ready(s) && CanUnwind(s, f) && SparesFrames(s, f)
    ensures KillOk(DoUnwind(s, f))
  {
    match f
    case StoreInsert(c, slot) => StoreInsertKeepsKill(s, c, slot);
    case AwaitSuspendReturns(c, child) => AwaitSuspendReturnKeepsKill(s, c, child);
    case FinalSuspendReturns(c) => FinalSuspendReturnKeepsKill(s, c);
  }

  lemma UnwindRing(s: State, f: FrameMove)
    requires CanUnwind(s, f)
    ensures SameRing(s, DoUnwind(s, f))
  {
  }

  /** The kill task's own loop; its awaiter, which it may resume, is another coroutine. */
  lemma KillLoopKeepsKill(s: State)
    requires KillPlace(s) && CanReturn(s, KILL) && s.coros[KILL].begun && s.life.Dying?
    requires s.inFlight == 0 ==> s.pc.Killing?
    ensures KillOk(KillLoop(s))
  {
  }

  lemma KillBeginKeepsKill(s: State)
    requires Ready(s) && CanKillBegin(s)
    ensures KillOk(DoKillBegin(s))
  {
    if !Restricted(s) {
      var s1 := Set(s, KILL, s.coros[KILL].(begun := true));
      assert KillSubmitted(s1).inFlight == s.inFlight + 1;
    }
  }

  lemma BatchSubmitsKeepsKill(s: State, c: nat)
    requires Ready(s) && CanBatchBegin(s, c)
    ensures c != KILL && KillOk(BatchSubmitted(s, c)) && KillPlace(BatchSubmitted(s, c))
  {
  }

  lemma BatchBeginKeepsKill(s: State, c: nat)
    requires Ready(s) && CanBatchBegin(s, c)
    ensures KillOk(DoBatchBegin(s, c))
  {
    BatchSubmitsKeepsKill(s, c);
    var t := BatchSubmitted(s, c);
    if t.coros[c].body.submitted == 0 { ReturnKeepsKill(t, c, 0); } else { SuspendKeepsKill(t, c, OnBatch); }
  }

  lemma BatchHandledKeepsKill(s: State, c: nat)
    requires Ready(s) && CanBatchHandled(s, c)
    ensures KillOk(DoBatchHandled(s, c))
  {
    var t := BatchAdvanced(s, c);
    assert c != KILL && KillOk(t) && KillPlace(t);
    if t.coros[c].body.i < t.coros[c].body.submitted { SuspendKeepsKill(t, c, OnBatch); }
    else { ReturnKeepsKill(t, c, 0); }
  }

  lemma PollBeginKeepsKill(s: State, c: nat)
    requires Ready(s) && CanPollBegin(s, c)
    ensures KillOk(DoPollBegin(s, c))
  {
    if s.polling { ReturnKeepsKill(s, c, -1); }
  }

  lemma PollHandledKeepsKill(s: State, c: nat, again: bool)
    requires Ready(s) && CanPollHandled(s, c)
    ensures KillOk(DoPollHandled(s, c, again))
  {
    if !again { ReturnKeepsKill(s.(polling := false), c, 0); }
  }

  lemma KillLibraryStep(s: State, b: BodyMove)
    requires Ready(s) && CanLibrary(s, b)
    ensures KillOk(DoLibrary(s, b))
  {
    match b
    case BatchBegin(c) => BatchBeginKeepsKill(s, c);
    case BatchHandled(c) => BatchHandledKeepsKill(s, c);
    case PollBegin(c) => PollBeginKeepsKill(s, c);
    case PollHandled(c, again) => PollHandledKeepsKill(s, c, again);
    case KillBegin => KillBeginKeepsKill(s);
    case KillCheck => KillLoopKeepsKill(s);
  }

  lemma AccountStep(s: State, m: Move)
    requires AccountInv(s) && SchedInv(s) && Sparing(s, m)
    requires m.Loop? ==> DeliversToWaiter(s, m.l)
    ensures AccountInv(Apply(s, m))
  {
    KillPlaced(s);
    match m
    case Kernel(e, res) =>
    case Loop(l) => CountedLoopStep(s, l); KillLoopStep(s, l);
    case Call(u) => CountedCallStep(s, u); KillCallStep(s, u);
    case Unwind(f) => UnwindRing(s, f); KillUnwindStep(s, f);
    case Library(b) => CountedLibraryStep(s, b); KillLibraryStep(s, b);
  }
}
