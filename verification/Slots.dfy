/** Slot indices: those recorded in tasks and requests, and those freed, lie within the store. */
module Slots {
  import opened Option
  import opened Requests
  import opened Machine
  import opened Scheduling

  function AtLeastOne(n: nat): nat { if n == 0 then 1 else n }

  predicate CoroSlotOk(s: State, r: Coro) {
    match r.slot
    case None => r.metadata == 0
    case Some(i) => i < s.slots && r.metadata == i
  }

  /** While the store is empty, no coroutine has left the `register_coro` call that is to
      store the first task. */
  predicate EmptyStoreOk(s: State) {
    s.slots == 0 ==>
      if s.stack == [] then forall c | 0 <= c < |s.coros| :: s.coros[c].status.Created?
      else s.stack[0].Registering? && s.pc.Outside?
  }

  ghost predicate SlotInv(s: State) {
    && (forall i | i in s.freeSlots :: i < s.slots)
    && (forall c | 0 <= c < |s.coros| :: CoroSlotOk(s, s.coros[c]))
    && (forall id | 0 <= id < |s.pool| :: s.pool[id].coroIdx < AtLeastOne(s.slots))
    && EmptyStoreOk(s)
  }

  predicate SameSlots(x: Coro, y: Coro) { y.slot == x.slot && y.metadata == x.metadata }

  /** t differs from s in nothing that concerns slots, the stack apart. */
  predicate SlotQuiet(s: State, t: State) {
    && t.slots == s.slots && t.freeSlots == s.freeSlots && |s.coros| <= |t.coros| && |t.pool| == |s.pool|
    && (forall c | 0 <= c < |s.coros| :: SameSlots(s.coros[c], t.coros[c]))
    && (forall c | |s.coros| <= c < |t.coros| :: t.coros[c].slot.None? && t.coros[c].metadata == 0)
    && (forall id | 0 <= id < |s.pool| :: t.pool[id].coroIdx == s.pool[id].coroIdx)
  }

  lemma SlotQuietKeeps(s: State, t: State)
    requires SlotInv(s) && SlotQuiet(s, t) && EmptyStoreOk(t)
    ensures SlotInv(t)
  {
    forall c | 0 <= c < |t.coros| ensures CoroSlotOk(t, t.coros[c]) {
      if c < |s.coros| { assert CoroSlotOk(s, s.coros[c]); }
    }
  }

  /** The slot freed at the end of `event_handler` is one of the store's. */
  lemma SettleInRange(s: State, id: nat, done: bool)
    requires SlotInv(s) && s.stack == [] && id < |s.pool| && DoneObserved(s, id, done)
    ensures done ==> s.pool[id].coroIdx < s.slots
    ensures SlotInv(Settle(s, id, done))
  {
    var t := Settle(s, id, done);
    forall c | 0 <= c < |t.coros| ensures CoroSlotOk(t, t.coros[c]) { assert CoroSlotOk(s, s.coros[c]); }
  }

  lemma StoreInsertSlots(s: State, c: nat, slot: nat)
    requires SlotInv(s) && CanStoreInsert(s, c, slot) && SparesFrames(s, StoreInsert(c, slot))
    ensures SlotInv(DoStoreInsert(s, c, slot))
  {
    SparingInsert(s, c, slot);
    var t := Stored(s, c, slot);
    forall d | 0 <= d < |t.coros| ensures CoroSlotOk(t, t.coros[d]) {
      if d != c { assert CoroSlotOk(s, s.coros[d]); }
    }
  }

  /** A request queued by c carries c's metadata. */
  lemma QueueSlots(s: State, r: RequestData)
    requires SlotInv(s) && r.coroIdx < AtLeastOne(s.slots)
    ensures SlotInv(SubmitAll(Queue(s, r)))
  {
    var t := SubmitAll(Queue(s, r));
    forall d | 0 <= d < |t.coros| ensures CoroSlotOk(t, t.coros[d]) { assert CoroSlotOk(s, s.coros[d]); }
  }

  lemma BatchSlots(s: State, c: nat)
    requires SlotInv(s) && CanBatchBegin(s, c)
    ensures SlotInv(BatchSubmitted(s, c))
  {
    var t := BatchSubmitted(s, c);
    forall d | 0 <= d < |t.coros| ensures CoroSlotOk(t, t.coros[d]) { assert CoroSlotOk(s, s.coros[d]); }
  }

  // Every step.

  /** The outermost call on the stack goes on. */
  lemma StackBottom(s: State, t: State)
    requires EmptyStoreOk(s) && s.stack != [] && t.slots == s.slots && t.pc == s.pc
    requires !s.stack[|s.stack| - 1].Registering?
    requires |t.stack| >= |s.stack| - 1 && t.stack[..|s.stack| - 1] == s.stack[..|s.stack| - 1]
    ensures EmptyStoreOk(t)
  {
    if s.slots == 0 { assert t.stack[0] == t.stack[..|s.stack| - 1][0] == s.stack[0]; }
  }

  lemma ReturnSlots(s: State, c: nat, v: int)
    requires SlotInv(s) && CanReturn(s, c)
    ensures SlotInv(Return(s, c, v))
  {
    var t := Return(s, c, v);
    assert t.stack[..|s.stack| - 1] == s.stack[..|s.stack| - 1];
    StackBottom(s, t);
    SlotQuietKeeps(s, t);
  }

  lemma SuspendSlots(s: State, c: nat, park: Park)
    requires SlotInv(s) && c < |s.coros| && OnTop(s, Run(c))
    ensures SlotInv(Suspend(s, c, park))
  {
    StackBottom(s, Suspend(s, c, park));
    SlotQuietKeeps(s, Suspend(s, c, park));
  }

  lemma AwaitTaskSlots(s: State, c: nat, child: nat)
    requires SlotInv(s) && CanAwaitTask(s, c, child)
    ensures SlotInv(DoAwaitTask(s, c, child))
  {
    StackBottom(s, DoAwaitTask(s, c, child));
    SlotQuietKeeps(s, DoAwaitTask(s, c, child));
  }

  lemma RegisterSlots(s: State, c: nat)
    requires SlotInv(s) && CanRegister(s, c)
    ensures SlotInv(DoRegister(s, c))
  {
    SlotQuietKeeps(s, DoRegister(s, c));
  }

  lemma AwaitIoSlots(s: State, c: nat, params: Params)
    requires SlotInv(s) && CanAwaitIo(s, c)
    ensures SlotInv(DoAwaitIo(s, c, params))
  {
    if SqeAvailable(s) {
      var r := RequestRecord(Some(c), s.coros[c].metadata, Tag(params), false, params, 0);
      assert CoroSlotOk(s, s.coros[c]);
      QueueSlots(s, r);
      SuspendSlots(SubmitAll(Queue(s, r)), c, OnIo(params));
    }
  }

  lemma SlotCallStep(s: State, u: CallMove)
    requires SlotInv(s) && CanCall(s, u)
    ensures SlotInv(DoCall(s, u))
  {
    match u
    case Create(body) => SlotQuietKeeps(s, DoCreate(s, body));
    case Register(c) => RegisterSlots(s, c);
    case AwaitIo(c, params) => AwaitIoSlots(s, c, params);
    case SubmitNa(params) =>
      if SqeAvailable(s) { QueueSlots(s, RequestRecord(None, 0, Tag(params), true, params, 0)); }
    case AwaitTask(c, child) => AwaitTaskSlots(s, c, child);
    case CoReturn(c, v) => ReturnSlots(s, c, v);
  }

  lemma SlotUnwindStep(s: State, f: FrameMove)
    requires SlotInv(s) && CanUnwind(s, f) && SparesFrames(s, f)
    ensures SlotInv(DoUnwind(s, f))
  {
    match f
    case StoreInsert(c, slot) => StoreInsertSlots(s, c, slot);
    case AwaitSuspendReturns(c, child) =>
      StackBottom(s, DoAwaitSuspendReturn(s, c, child));
      SlotQuietKeeps(s, DoAwaitSuspendReturn(s, c, child));
    case FinalSuspendReturns(c) =>
      StackBottom(s, DoFinalSuspendReturn(s, c));
      SlotQuietKeeps(s, DoFinalSuspendReturn(s, c));
  }

  lemma KillLoopSlots(s: State)
    requires SlotInv(s) && CanReturn(s, KILL)
    ensures SlotInv(KillLoop(s))
  {
    if s.inFlight != 0 { SuspendSlots(s, KILL, OnKill); }
    else {
      SlotQuietKeeps(s, s.(life := Dead));
      ReturnSlots(s.(life := Dead), KILL, 0);
    }
  }

  lemma KillBeginSlots(s: State)
    requires SlotInv(s) && CanKillBegin(s)
    ensures SlotInv(DoKillBegin(s))
  {
    var s1 := Set(s, KILL, s.coros[KILL].(begun := true));
    SlotQuietKeeps(s, s1);
    if Restricted(s) { ReturnSlots(s1, KILL, -1); }
    else {
      SlotQuietKeeps(s1, KillSubmitted(s1));
      KillLoopSlots(KillSubmitted(s1));
    }
  }

  lemma BatchBeginSlots(s: State, c: nat)
    requires SlotInv(s) && CanBatchBegin(s, c)
    ensures SlotInv(DoBatchBegin(s, c))
  {
    BatchSlots(s, c);
    var t := BatchSubmitted(s, c);
    if t.coros[c].body.submitted == 0 { ReturnSlots(t, c, 0); } else { SuspendSlots(t, c, OnBatch); }
  }

  lemma BatchHandledSlots(s: State, c: nat)
    requires SlotInv(s) && CanBatchHandled(s, c)
    ensures SlotInv(DoBatchHandled(s, c))
  {
    var t := BatchAdvanced(s, c);
    SlotQuietKeeps(s, t);
    if t.coros[c].body.i < t.coros[c].body.submitted { SuspendSlots(t, c, OnBatch); } else { ReturnSlots(t, c, 0); }
  }

  lemma PollBeginSlots(s: State, c: nat)
    requires SlotInv(s) && CanPollBegin(s, c)
    ensures SlotInv(DoPollBegin(s, c))
  {
    if s.polling { ReturnSlots(s, c, -1); }
    else {
      var s1 := Set(s, c, s.coros[c].(begun := true)).(polling := true, pollHandle := Some(c));
      SlotQuietKeeps(s, s1);
      SuspendSlots(s1, c, OnPoll);
    }
  }

  lemma PollHandledSlots(s: State, c: nat, again: bool)
    requires SlotInv(s) && CanPollHandled(s, c)
    ensures SlotInv(DoPollHandled(s, c, again))
  {
    if again {
      SlotQuietKeeps(s, s.(pollHandle := Some(c)));
      SuspendSlots(s.(pollHandle := Some(c)), c, OnPoll);
    } else {
      SlotQuietKeeps(s, s.(polling := false));
      ReturnSlots(s.(polling := false), c, 0);
    }
  }

  lemma SlotLibraryStep(s: State, b: BodyMove)
    requires SlotInv(s) && CanLibrary(s, b)
    ensures SlotInv(DoLibrary(s, b))
  {
    match b
    case BatchBegin(c) => BatchBeginSlots(s, c);
    case BatchHandled(c) => BatchHandledSlots(s, c);
    case PollBegin(c) => PollBeginSlots(s, c);
    case PollHandled(c, again) => PollHandledSlots(s, c, again);
    case KillBegin => KillBeginSlots(s);
    case KillCheck => KillLoopSlots(s);
  }

  lemma LoopTopSlots(s: State)
    requires SlotInv(s) && CanLoopTop(s) && DeliversToWaiter(s, LoopTop)
    ensures SlotInv(DoLoopTop(s))
  {
    SlotQuietKeeps(s, DoLoopTop(s));
  }

  lemma WaitSlots(s: State)
    requires SlotInv(s) && CanWaitCqe(s) && DeliversToWaiter(s, WaitCqe)
    ensures SlotInv(DoWaitCqe(s))
  {
    SlotQuietKeeps(s, DoWaitCqe(s));
  }

  lemma SeenSlots(s: State, done: bool)
    requires SlotInv(s) && CanSeen(s, done) && DeliversToWaiter(s, Seen(done))
    ensures SlotInv(DoSeen(s, done))
  {
    if s.cq[0].Data? { SettleInRange(s, s.cq[0].id, done); }
    var s1 := if s.cq[0].Data? && s.pool[s.cq[0].id].handle.Some? then Settle(s, s.cq[0].id, done) else s;
    SlotQuietKeeps(s1, DoSeen(s, done));
  }

  lemma PolledDoneSlots(s: State, done: bool)
    requires SlotInv(s) && CanPolledDone(s, done)
    ensures SlotInv(DoPolledDone(s, done))
  {
    SettleInRange(s, s.pc.id, done);
    SlotQuietKeeps(Settle(s, s.pc.id, done), DoPolledDone(s, done));
  }

  lemma SlotLoopStep(s: State, l: LoopMove)
    requires SlotInv(s) && CanLoop(s, l) && DeliversToWaiter(s, l)
    ensures SlotInv(DoLoop(s, l))
  {
    match l
    case Start => SlotQuietKeeps(s, DoStart(s));
    case LoopTop => LoopTopSlots(s);
    case PolledDone(done) => PolledDoneSlots(s, done);
    case WaitCqe => WaitSlots(s);
    case Seen(done) => SeenSlots(s, done);
    case KillRoundDone => SlotQuietKeeps(s, s.(pc := Top));
  }

  lemma SlotStep(s: State, m: Move)
    requires SlotInv(s) && Sparing(s, m)
    requires m.Loop? ==> DeliversToWaiter(s, m.l)
    ensures SlotInv(Apply(s, m))
  {
    match m
    case Kernel(e, res) => SlotQuietKeeps(s, DoComplete(s, e, res));
    case Loop(l) => SlotLoopStep(s, l);
    case Call(u) => SlotCallStep(s, u);
    case Unwind(f) => SlotUnwindStep(s, f);
    case Library(b) => SlotLibraryStep(s, b);
  }
}
