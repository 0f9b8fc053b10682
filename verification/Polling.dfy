/** The poller: at most one poll is going on, and its handle is set exactly while it is parked. */
module Polling {
  import opened Option
  import opened Requests
  import opened Machine
  import opened Scheduling

  /** A `poll` past its prologue and not over. */
  predicate Active(r: Coro) { r.body.Poll? && r.begun && (r.status.Running? || r.status.Parked?) }

  ghost predicate PollInv(s: State) {
    && (s.pollHandle.Some? ==> PollerParked(s.coros, s.pollHandle.value))
    && (forall c | 0 <= c < |s.coros| ::
          && (s.coros[c].status == Parked(OnPoll) ==> s.pollHandle == Some(c) && Active(s.coros[c]))
          && (Active(s.coros[c]) ==> s.polling)
          && (s.coros[c].body.Poll? && s.coros[c].begun ==> !s.coros[c].status.Created?))
    && (forall c, d | 0 <= c < |s.coros| && 0 <= d < |s.coros| && Active(s.coros[c]) && Active(s.coros[d]) :: c == d)
    && (s.polling ==> exists c :: 0 <= c < |s.coros| && Active(s.coros[c]))
  }

  predicate SamePoll(x: Coro, y: Coro) {
    && Active(y) == Active(x)
    && (y.status == Parked(OnPoll)) == (x.status == Parked(OnPoll))
    && (x.body.Poll? && x.begun && !x.status.Created?) == (y.body.Poll? && y.begun && !y.status.Created?)
    && (x.body.Poll? && x.begun) == (y.body.Poll? && y.begun)
  }

  predicate NoPoll(s: State, t: State) {
    && t.pollHandle == s.pollHandle && t.polling == s.polling && |s.coros| <= |t.coros|
    && (forall c | 0 <= c < |s.coros| :: SamePoll(s.coros[c], t.coros[c]))
    && (forall c | |s.coros| <= c < |t.coros| :: t.coros[c].status.Created? && !t.coros[c].begun)
  }

  lemma NoPollKeeps(s: State, t: State)
    requires PollInv(s) && NoPoll(s, t)
    ensures PollInv(t)
  {
    if s.polling {
      var c :| 0 <= c < |s.coros| && Active(s.coros[c]);
      assert Active(t.coros[c]);
    }
  }

  lemma ReturnNoPoll(s: State, c: nat, v: int)
    requires CanReturn(s, c) && AwaiterIdle(s, c) && s.coros[c].status.Running? && !Active(s.coros[c])
    ensures NoPoll(s, Return(s, c, v))
  {
  }

  lemma DeliverNoPoll(s: State, id: nat)
    requires id < |s.pool| && s.pool[id].handle.Some? && Receives(s.coros, s.pool[id].handle.value)
    requires ParkFits(s.coros[s.pool[id].handle.value])
    ensures NoPoll(s, Deliver(s, id))
  {
  }

  lemma DispatchPolls(s: State)
    requires PollInv(s) && CanLoopTop(s)
    ensures PollInv(DoLoopTop(s))
  {
    if !s.life.Dead? && s.ready != [] && s.pollHandle.Some? {
      var p := s.pollHandle.value;
      var t := DoLoopTop(s);
      assert Active(s.coros[p]) && Active(t.coros[p]);
      assert t.pollHandle == None;
      assert forall d | 0 <= d < |s.coros| && d != p :: t.coros[d] == s.coros[d];
    }
  }

  lemma PollBeginPolls(s: State, c: nat)
    requires PollInv(s) && CanPollBegin(s, c) && s.coros[c].status.Running? && AwaiterIdle(s, c)
    ensures PollInv(DoPollBegin(s, c))
  {
    if s.polling {
      ReturnNoPoll(s, c, -1);
      NoPollKeeps(s, DoPollBegin(s, c));
    } else {
      var t := DoPollBegin(s, c);
      assert Active(t.coros[c]);
      assert forall d | 0 <= d < |s.coros| && d != c :: t.coros[d] == s.coros[d] && !Active(t.coros[d]);
    }
  }

  lemma PollHandledPolls(s: State, c: nat, again: bool)
    requires PollInv(s) && CanPollHandled(s, c) && s.coros[c].status.Running? && AwaiterIdle(s, c)
    ensures PollInv(DoPollHandled(s, c, again))
  {
    var t := DoPollHandled(s, c, again);
    assert Active(s.coros[c]);
    if again {
      assert Active(t.coros[c]);
      assert forall d | 0 <= d < |s.coros| && d != c :: t.coros[d] == s.coros[d] && !Active(t.coros[d]);
    } else {
      assert forall d | 0 <= d < |s.coros| :: !Active(t.coros[d]);
    }
  }

  // Every step.

  lemma RegisterNoPoll(s: State, c: nat)
    requires CanRegister(s, c) && (s.coros[c].body.Poll? && s.coros[c].begun ==> !s.coros[c].status.Created?)
    ensures NoPoll(s, DoRegister(s, c))
  {
  }

  lemma AwaitIoNoPoll(s: State, c: nat, params: Params)
    requires CanAwaitIo(s, c) && s.coros[c].status.Running?
    ensures NoPoll(s, DoAwaitIo(s, c, params))
  {
    if SqeAvailable(s) {
      var t := DoAwaitIo(s, c, params);
      assert t.coros == s.coros[c := s.coros[c].(status := Parked(OnIo(params)))];
    }
  }

  lemma RegisterPolls(s: State, c: nat)
    requires PollInv(s) && CanRegister(s, c)
    ensures PollInv(DoRegister(s, c))
  {
    RegisterNoPoll(s, c);
    NoPollKeeps(s, DoRegister(s, c));
  }

  lemma AwaitTaskPolls(s: State, c: nat, child: nat)
    requires PollInv(s) && TopOk(s) && CanAwaitTask(s, c, child)
    ensures PollInv(DoAwaitTask(s, c, child))
  {
    AwaitTaskNoPoll(s, c, child);
    NoPollKeeps(s, DoAwaitTask(s, c, child));
  }

  lemma AwaitIoPolls(s: State, c: nat, params: Params)
    requires PollInv(s) && TopOk(s) && CanAwaitIo(s, c)
    ensures PollInv(DoAwaitIo(s, c, params))
  {
    AwaitIoNoPoll(s, c, params);
    NoPollKeeps(s, DoAwaitIo(s, c, params));
  }

  lemma ReturnPolls(s: State, c: nat, v: int)
    requires PollInv(s) && TopOk(s) && CanCoReturn(s, c)
    ensures PollInv(Return(s, c, v))
  {
    ReturnNoPoll(s, c, v);
    NoPollKeeps(s, Return(s, c, v));
  }

  lemma PollCallStep(s: State, u: CallMove)
    requires PollInv(s) && TopOk(s) && CanCall(s, u)
    ensures PollInv(DoCall(s, u))
  {
    match u
    case Create(body) => NoPollKeeps(s, DoCreate(s, body));
    case Register(c) => RegisterPolls(s, c);
    case AwaitIo(c, params) => AwaitIoPolls(s, c, params);
    case SubmitNa(params) => NoPollKeeps(s, DoSubmitNa(s, params));
    case AwaitTask(c, child) => AwaitTaskPolls(s, c, child);
    case CoReturn(c, v) => ReturnPolls(s, c, v);
  }

  lemma AwaitTaskNoPoll(s: State, c: nat, child: nat)
    requires TopOk(s) && CanAwaitTask(s, c, child)
    requires s.coros[child].body.Poll? && s.coros[child].begun ==> !s.coros[child].status.Created?
    ensures NoPoll(s, DoAwaitTask(s, c, child))
  {
  }

  lemma UnwindNoPoll(s: State, f: FrameMove)
    requires TopOk(s) && CanUnwind(s, f) && SparesFrames(s, f)
    ensures NoPoll(s, DoUnwind(s, f))
  {
    match f
    case StoreInsert(c, slot) =>
      SparingInsert(s, c, slot);
      assert NoPoll(s, Stored(s, c, slot));
    case AwaitSuspendReturns(c, child) => AwaitSuspendReturnNoPoll(s, c, child);
    case FinalSuspendReturns(c) => assert NoPoll(s, DoFinalSuspendReturn(s, c));
  }

  lemma AwaitSuspendReturnNoPoll(s: State, c: nat, child: nat)
    requires TopOk(s) && CanAwaitSuspendReturn(s, c, child)
    ensures NoPoll(s, DoAwaitSuspendReturn(s, c, child))
  {
  }

  /** A batch coroutine suspends or returns. */
  lemma BatchPauseNoPoll(s: State, c: nat)
    requires CanReturn(s, c) && s.coros[c].status.Running? && AwaiterIdle(s, c) && s.coros[c].body.Batch?
    ensures NoPoll(s, Return(s, c, 0)) && NoPoll(s, Suspend(s, c, OnBatch))
  {
    ReturnNoPoll(s, c, 0);
  }

  lemma BatchPausePolls(s: State, c: nat)
    requires PollInv(s) && CanReturn(s, c) && s.coros[c].status.Running? && AwaiterIdle(s, c) && s.coros[c].body.Batch?
    ensures PollInv(Return(s, c, 0)) && PollInv(Suspend(s, c, OnBatch))
  {
    BatchPauseNoPoll(s, c);
    NoPollKeeps(s, Return(s, c, 0));
    NoPollKeeps(s, Suspend(s, c, OnBatch));
  }

  lemma BatchBeginPolls(s: State, c: nat)
    requires PollInv(s) && TopOk(s) && CanBatchBegin(s, c)
    ensures PollInv(DoBatchBegin(s, c))
  {
    NoPollKeeps(s, BatchSubmitted(s, c));
    BatchPausePolls(BatchSubmitted(s, c), c);
  }

  lemma BatchHandledPolls(s: State, c: nat)
    requires PollInv(s) && TopOk(s) && CanBatchHandled(s, c)
    ensures PollInv(DoBatchHandled(s, c))
  {
    NoPollKeeps(s, BatchAdvanced(s, c));
    BatchPausePolls(BatchAdvanced(s, c), c);
  }

  lemma KillLoopNoPoll(s: State)
    requires TopOk(s) && CanReturn(s, KILL) && s.coros[KILL].body.Kill?
    ensures NoPoll(s, KillLoop(s))
  {
    if s.inFlight == 0 { ReturnNoPoll(s.(life := Dead), KILL, 0); }
  }

  lemma KillFirstNoPoll(s: State)
    requires TopOk(s) && CanReturn(s, KILL) && s.coros[KILL].body.Kill?
    ensures NoPoll(s, KillLoop(KillSubmitted(s)))
  {
    KillLoopNoPoll(KillSubmitted(s));
  }

  lemma KillBeginNoPoll(s: State)
    requires TopOk(s) && CanKillBegin(s)
    ensures NoPoll(s, DoKillBegin(s))
  {
    var s1 := Set(s, KILL, s.coros[KILL].(begun := true));
    if Restricted(s) { ReturnNoPoll(s1, KILL, -1); } else { KillFirstNoPoll(s1); }
  }

  lemma PollLibraryStep(s: State, b: BodyMove)
    requires PollInv(s) && TopOk(s) && CanLibrary(s, b)
    ensures PollInv(DoLibrary(s, b))
  {
    match b
    case BatchBegin(c) => BatchBeginPolls(s, c);
    case BatchHandled(c) => BatchHandledPolls(s, c);
    case PollBegin(c) => PollBeginPolls(s, c);
    case PollHandled(c, again) => PollHandledPolls(s, c, again);
    case KillBegin => KillBeginNoPoll(s); NoPollKeeps(s, DoKillBegin(s));
    case KillCheck => KillLoopNoPoll(s); NoPollKeeps(s, KillLoop(s));
  }

  lemma SeenNoPoll(s: State, done: bool)
    requires CanSeen(s, done) && s.coros[KILL].body.Kill? && DeliversToWaiter(s, Seen(done))
    ensures NoPoll(s, DoSeen(s, done))
  {
  }

  lemma WaitNoPoll(s: State)
    requires CanWaitCqe(s) && DeliversToWaiter(s, WaitCqe)
    requires s.cq[0].Data? && s.pool[s.cq[0].id].handle.Some? ==> ParkFits(s.coros[s.pool[s.cq[0].id].handle.value])
    ensures NoPoll(s, DoWaitCqe(s))
  {
    if s.cq[0].Data? && s.pool[s.cq[0].id].handle.Some? { DeliverNoPoll(s.(pc := Handled), s.cq[0].id); }
  }

  lemma PollLoopStep(s: State, l: LoopMove)
    requires PollInv(s) && CanLoop(s, l) && DeliversToWaiter(s, l)
    requires KILL < |s.coros| && s.coros[KILL].body.Kill?
    requires l.WaitCqe? && s.cq[0].Data? && s.pool[s.cq[0].id].handle.Some? ==>
      ParkFits(s.coros[s.pool[s.cq[0].id].handle.value])
    ensures PollInv(DoLoop(s, l))
  {
    match l
    case Start => NoPollKeeps(s, DoStart(s));
    case LoopTop => DispatchPolls(s);
    case PolledDone(done) => NoPollKeeps(s, DoPolledDone(s, done));
    case WaitCqe => WaitNoPoll(s); NoPollKeeps(s, DoWaitCqe(s));
    case Seen(done) => SeenNoPoll(s, done); NoPollKeeps(s, DoSeen(s, done));
    case KillRoundDone => NoPollKeeps(s, s.(pc := Top));
  }

  lemma PollStep(s: State, m: Move)
    requires PollInv(s) && SchedInv(s) && Sparing(s, m)
    requires m.Loop? ==> DeliversToWaiter(s, m.l)
    ensures PollInv(Apply(s, m))
  {
    TopIsOk(s);
    match m
    case Kernel(e, res) => NoPollKeeps(s, DoComplete(s, e, res));
    case Loop(l) => PollLoopStep(s, l);
    case Call(u) => PollCallStep(s, u);
    case Unwind(f) => UnwindNoPoll(s, f); NoPollKeeps(s, DoUnwind(s, f));
    case Library(b) => PollLibraryStep(s, b);
  }
}
