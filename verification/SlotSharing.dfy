/** Which tasks share a slot of the store, who is the only live one there, and what a step
    does to the slots and to the frames of the tasks in them. */
module SlotSharing {
  import opened Option
  import opened Requests
  import opened Machine
  import opened Scheduling
  import opened Accounting
  import opened Placement
  import opened Slots
  import opened Invariant
  import opened Awaiting

  /** Of two tasks recorded in the same slot one has no frame. */
  predicate DistinctSlots(s: State) {
    forall c, d | 0 <= c < d < |s.coros| && s.coros[c].slot.Some? && s.coros[c].slot == s.coros[d].slot ::
      Gone(s.coros[c]) || Gone(s.coros[d])
  }

  /** No freed slot holds a task that has not finished. */
  predicate FreedAreFinished(s: State) { forall i | i in s.freeSlots :: Overwritable(s, i) }

  /** The request whose handling the step ends, if the task it resumed is seen to be done. */
  function DoneRequest(s: State, m: Move): (id: Option<nat>)
    requires Enabled(s, m)
    ensures id.Some? ==> id.value < |s.pool| && DoneObserved(s, id.value, true)
  {
    match m
    case Loop(PolledDone(done)) => if done then Some(s.pc.id) else None
    case Loop(Seen(done)) => if done then Some(s.cq[0].id) else None
    case _ => None
  }

  /** The slot that the step frees. */
  function Frees(s: State, m: Move): Option<nat>
    requires Enabled(s, m)
  {
    match DoneRequest(s, m)
    case None => None
    case Some(id) => Some(s.pool[id].coroIdx)
  }

  // Steps that store and free nothing.

  /** Coroutine d keeps its slot; if it has returned, or lost its frame, that stays so. */
  predicate SlotsKept(s: State, t: State, d: nat) {
    && |s.coros| <= |t.coros| && t.slots == s.slots && t.freeSlots == s.freeSlots
    && (d < |s.coros| ==>
          && t.coros[d].slot == s.coros[d].slot
          && (Gone(s.coros[d]) ==> Gone(t.coros[d])) && (Over(s.coros[d]) ==> Over(t.coros[d])))
    && (|s.coros| <= d < |t.coros| ==> t.coros[d].slot.None?)
  }

  ghost predicate AllSlotsKept(s: State, t: State) { forall d: nat :: SlotsKept(s, t, d) }

  /** And it keeps its frame if it has one. */
  predicate Kept(s: State, t: State, d: nat) {
    SlotsKept(s, t, d) && (d < |t.coros| && Gone(t.coros[d]) ==> d < |s.coros| && Gone(s.coros[d]))
  }

  lemma ReturnKept(s: State, c: nat, v: int, d: nat)
    requires CanReturn(s, c) && AwaiterIdle(s, c) && s.coros[c].status.Running?
    ensures Kept(s, Return(s, c, v), d)
  {
  }

  lemma SuspendKept(s: State, c: nat, park: Park, d: nat)
    requires c < |s.coros| && s.stack != [] && s.coros[c].status.Running?
    ensures Kept(s, Suspend(s, c, park), d)
  {
  }

  lemma AwaitIoKept(s: State, c: nat, params: Params, d: nat)
    requires TopOk(s) && CanAwaitIo(s, c)
    ensures Kept(s, DoAwaitIo(s, c, params), d)
  {
  }

  lemma AwaitTaskKept(s: State, c: nat, child: nat, d: nat)
    requires TopOk(s) && CanAwaitTask(s, c, child)
    ensures Kept(s, DoAwaitTask(s, c, child), d)
  {
  }

  lemma CallKept(s: State, u: CallMove, d: nat)
    requires TopOk(s) && CanCall(s, u)
    ensures Kept(s, DoCall(s, u), d)
  {
    match u
    case Create(body) =>
    case Register(c) => assert Kept(s, DoRegister(s, c), d);
    case AwaitIo(c, params) => AwaitIoKept(s, c, params, d);
    case SubmitNa(params) =>
    case AwaitTask(c, child) => AwaitTaskKept(s, c, child, d);
    case CoReturn(c, v) => ReturnKept(s, c, v, d);
  }

  lemma UnwindKept(s: State, f: FrameMove, d: nat)
    requires TopOk(s) && CanUnwind(s, f) && !f.StoreInsert?
    ensures SlotsKept(s, DoUnwind(s, f), d) && (f != FinalSuspendReturns(d) ==> Kept(s, DoUnwind(s, f), d))
  {
  }

  lemma BatchBeginKept(s: State, c: nat, d: nat)
    requires TopOk(s) && CanBatchBegin(s, c)
    ensures Kept(s, DoBatchBegin(s, c), d)
  {
    var t := BatchSubmitted(s, c);
    assert Kept(s, t, d);
    if t.coros[c].body.submitted == 0 { ReturnKept(t, c, 0, d); } else { SuspendKept(t, c, OnBatch, d); }
  }

  lemma BatchHandledKept(s: State, c: nat, d: nat)
    requires TopOk(s) && CanBatchHandled(s, c)
    ensures Kept(s, DoBatchHandled(s, c), d)
  {
    var t := BatchAdvanced(s, c);
    assert Kept(s, t, d);
    if t.coros[c].body.i < t.coros[c].body.submitted { SuspendKept(t, c, OnBatch, d); } else { ReturnKept(t, c, 0, d); }
  }

  lemma KillBeginKept(s: State, d: nat)
    requires TopOk(s) && CanKillBegin(s)
    ensures Kept(s, DoKillBegin(s), d)
  {
    var s1 := Set(s, KILL, s.coros[KILL].(begun := true));
    if Restricted(s) { ReturnKept(s1, KILL, -1, d); }
    else {
      var s2 := KillSubmitted(s1);
      assert s2.inFlight != 0 && s2.coros == s1.coros && s2.stack == s.stack;
      SuspendKept(s2, KILL, OnKill, d);
    }
  }

  lemma PollBeginKept(s: State, c: nat, d: nat)
    requires TopOk(s) && CanPollBegin(s, c)
    ensures Kept(s, DoPollBegin(s, c), d)
  {
    if s.polling { ReturnKept(s, c, -1, d); }
  }

  lemma PollHandledKept(s: State, c: nat, again: bool, d: nat)
    requires TopOk(s) && CanPollHandled(s, c)
    ensures Kept(s, DoPollHandled(s, c, again), d)
  {
    if !again { ReturnKept(s.(polling := false), c, 0, d); }
  }

  lemma LibraryKept(s: State, b: BodyMove, d: nat)
    requires TopOk(s) && CanLibrary(s, b)
    ensures Kept(s, DoLibrary(s, b), d)
  {
    match b
    case BatchBegin(c) => BatchBeginKept(s, c, d);
    case BatchHandled(c) => BatchHandledKept(s, c, d);
    case PollBegin(c) => PollBeginKept(s, c, d);
    case PollHandled(c, again) => PollHandledKept(s, c, again, d);
    case KillBegin => KillBeginKept(s, d);
    case KillCheck => ReturnKept(s.(life := Dead), KILL, 0, d);
  }

  lemma LoopTopKept(s: State, d: nat)
    requires CanLoopTop(s) && DeliversToWaiter(s, LoopTop)
    ensures Kept(s, DoLoopTop(s), d)
  {
  }

  lemma WaitKept(s: State, d: nat)
    requires CanWaitCqe(s) && DeliversToWaiter(s, WaitCqe)
    ensures Kept(s, DoWaitCqe(s), d)
  {
  }

  lemma SeenKept(s: State, done: bool, d: nat)
    requires CanSeen(s, done) && DeliversToWaiter(s, Seen(done))
    ensures Kept(if done then Settle(s, s.cq[0].id, true) else s, DoSeen(s, done), d)
  {
  }

  /** The state in which a step's own slot is already free. */
  function Freed(s: State, i: Option<nat>): State {
    if i.None? then s else s.(freeSlots := s.freeSlots + {i.value})
  }

  predicate Inserts(m: Move) { m.Unwind? && m.f.StoreInsert? }

  /** What the step frees has been freed, nothing else happened to the slots, and only a
      return from `final_suspend` ends a frame. */
  lemma StepKept(s: State, m: Move, d: nat)
    requires Inv(s) && Enabled(s, m) && !Inserts(m)
    ensures SlotsKept(Freed(s, Frees(s, m)), Apply(s, m), d)
    ensures m != Unwind(FinalSuspendReturns(d)) ==> Kept(Freed(s, Frees(s, m)), Apply(s, m), d)
  {
    TopIsOk(s);
    DeliveryIfLoop(s, m);
    match m
    case Kernel(e, res) =>
    case Loop(l) => LoopKept(s, l, d);
    case Call(u) => CallKept(s, u, d);
    case Unwind(f) => UnwindKept(s, f, d);
    case Library(b) => LibraryKept(s, b, d);
  }

  lemma PolledDoneKept(s: State, done: bool, d: nat)
    requires CanPolledDone(s, done)
    ensures Kept(Freed(s, Frees(s, Loop(PolledDone(done)))), DoPolledDone(s, done), d)
  {
  }

  lemma SeenFreesKept(s: State, done: bool, d: nat)
    requires CanSeen(s, done) && DeliversToWaiter(s, Seen(done))
    ensures Kept(Freed(s, Frees(s, Loop(Seen(done)))), DoSeen(s, done), d)
  {
    SeenKept(s, done, d);
  }

  lemma LoopKept(s: State, l: LoopMove, d: nat)
    requires CanLoop(s, l) && DeliversToWaiter(s, l)
    ensures Kept(Freed(s, Frees(s, Loop(l))), DoLoop(s, l), d)
  {
    match l
    case Start =>
    case LoopTop => LoopTopKept(s, d);
    case PolledDone(done) => PolledDoneKept(s, done, d);
    case WaitCqe => WaitKept(s, d);
    case Seen(done) => SeenFreesKept(s, done, d);
    case KillRoundDone =>
  }

  // All steps.

  lemma KeptSlots(s: State, t: State)
    requires AllSlotsKept(s, t)
    ensures DistinctSlots(s) ==> DistinctSlots(t)
    ensures forall i: nat :: Overwritable(s, i) ==> Overwritable(t, i)
  {
    if DistinctSlots(s) {
      forall c: nat, d: nat | c < d < |t.coros| && t.coros[c].slot.Some? && t.coros[c].slot == t.coros[d].slot
        ensures Gone(t.coros[c]) || Gone(t.coros[d])
      {
        assert SlotsKept(s, t, c) && SlotsKept(s, t, d);
      }
    }
    forall i: nat | Overwritable(s, i) ensures Overwritable(t, i) {
      forall d: nat | d < |t.coros| && t.coros[d].slot == Some(i) ensures Gone(t.coros[d]) {
        assert SlotsKept(s, t, d);
      }
    }
  }

  lemma StoreInsertDistinct(s: State, c: nat, slot: nat)
    requires SlotInv(s) && CanStoreInsert(s, c, slot) && SparesFrames(s, StoreInsert(c, slot)) && DistinctSlots(s)
    ensures DistinctSlots(DoStoreInsert(s, c, slot))
    ensures FreedAreFinished(s) ==> FreedAreFinished(DoStoreInsert(s, c, slot))
  {
    SparingInsert(s, c, slot);
    var t := Stored(s, c, slot);
    forall d | 0 <= d < |s.coros| && d != c && s.coros[d].slot == Some(slot) ensures Gone(s.coros[d]) {
      assert CoroSlotOk(s, s.coros[d]);
    }
    assert DistinctSlots(t);
  }

  lemma StepKeptAll(s: State, m: Move)
    requires Inv(s) && Enabled(s, m) && !Inserts(m)
    ensures AllSlotsKept(Freed(s, Frees(s, m)), Apply(s, m))
  {
    forall d: nat ensures SlotsKept(Freed(s, Frees(s, m)), Apply(s, m), d) { StepKept(s, m, d); }
  }

  lemma QuietKeptAll(s: State, m: Move)
    requires Inv(s) && Enabled(s, m) && !Inserts(m) && Frees(s, m).None?
    ensures AllSlotsKept(s, Apply(s, m))
  {
    StepKeptAll(s, m);
    assert Freed(s, Frees(s, m)) == s;
  }

  lemma DistinctStep(s: State, m: Move)
    requires Inv(s) && Sparing(s, m) && DistinctSlots(s)
    ensures DistinctSlots(Apply(s, m))
  {
    if Inserts(m) { StoreInsertDistinct(s, m.f.c, m.f.slot); }
    else {
      StepKeptAll(s, m);
      KeptSlots(Freed(s, Frees(s, m)), Apply(s, m));
    }
  }

  lemma {:induction false} DistinctRun(s: State, ms: seq<Move>)
    requires Inv(s) && Legal(s, ms) && DistinctSlots(s)
    ensures DistinctSlots(Exec(s, ms))
    decreases |ms|
  {
    if ms != [] {
      DistinctStep(s, ms[0]);
      InvStep(s, ms[0]);
      DistinctRun(Apply(s, ms[0]), ms[1..]);
    }
  }

  lemma ReachableDistinct(s: State)
    requires Reachable(s)
    ensures DistinctSlots(s)
  {
    var capacity: nat, ringUp: bool, ms: seq<Move> :| Reaches(capacity, ringUp, ms, s);
    InitInv(capacity, ringUp);
    DistinctRun(Init(capacity, ringUp), ms);
  }

  lemma FreedOneMore(s: State, i: Option<nat>)
    requires FreedAreFinished(s) && (i.Some? ==> Overwritable(s, i.value))
    ensures FreedAreFinished(Freed(s, i))
  {
  }

  lemma KeptFreed(s: State, t: State)
    requires FreedAreFinished(s) && AllSlotsKept(s, t)
    ensures FreedAreFinished(t)
  {
    KeptSlots(s, t);
    assert SlotsKept(s, t, 0);
  }

  lemma FreedStep(s: State, m: Move)
    requires Inv(s) && DistinctSlots(s) && Enabled(s, m) && FreedAreFinished(s)
    requires Frees(s, m).Some? ==> Overwritable(s, Frees(s, m).value)
    ensures Sparing(s, m) && FreedAreFinished(Apply(s, m))
  {
    if Inserts(m) { StoreInsertDistinct(s, m.f.c, m.f.slot); }
    else {
      FreedOneMore(s, Frees(s, m));
      StepKeptAll(s, m);
      KeptFreed(Freed(s, Frees(s, m)), Apply(s, m));
    }
  }

  lemma FreeingChangesNobody(s: State, m: Move, i: nat)
    requires Inv(s) && Enabled(s, m) && Frees(s, m) == Some(i)
    ensures i in Apply(s, m).freeSlots
    ensures Overwritable(Apply(s, m), i) ==> Overwritable(s, i)
  {
    if Overwritable(Apply(s, m), i) {
      forall d: nat | d < |s.coros| && s.coros[d].slot == Some(i) ensures Gone(s.coros[d]) { StepKept(s, m, d); }
    }
    StepKept(s, m, 0);
  }

  // Who else is in the slot of the coroutine whose completion is handled.

  /** The request whose completion is being handled. */
  function HandledRequest(s: State): Option<nat> {
    match s.pc
    case Polled(id) => Some(id)
    case Handled => if s.cq != [] && s.cq[0].Data? then Some(s.cq[0].id) else None
    case _ => None
  }

  /** The coroutine that the completion being handled belongs to. */
  function HandledFor(s: State): Option<nat> {
    match HandledRequest(s)
    case Some(id) => if id < |s.pool| then s.pool[id].handle else None
    case None => None
  }

  /** Nobody else that is live is in the slot of c, and it is not free. */
  predicate SoleOwner(s: State, c: nat) {
    c < |s.coros| && s.coros[c].slot.Some? ==>
      s.coros[c].slot.value !in s.freeSlots
      && forall d | 0 <= d < |s.coros| && d != c :: s.coros[d].slot == s.coros[c].slot ==> Gone(s.coros[d])
  }

  predicate HandledOwns(s: State) { HandledFor(s).Some? ==> SoleOwner(s, HandledFor(s).value) }

  lemma LiveIsSoleOwner(s: State, t: State, c: nat)
    requires DistinctSlots(s) && FreedAreFinished(s) && c < |s.coros| && !Gone(s.coros[c])
    requires AllSlotsKept(s, t)
    ensures SoleOwner(t, c)
  {
    assert SlotsKept(s, t, c);
    forall d: nat | d < |t.coros| && d != c && t.coros[d].slot == t.coros[c].slot && t.coros[c].slot.Some?
      ensures Gone(t.coros[d])
    {
      assert SlotsKept(s, t, d);
    }
  }

  lemma SoleOwnerKept(s: State, t: State, c: nat)
    requires c < |s.coros| && SoleOwner(s, c) && AllSlotsKept(s, t)
    ensures SoleOwner(t, c)
  {
    assert SlotsKept(s, t, c);
    forall d: nat | d < |t.coros| && d != c && t.coros[d].slot == t.coros[c].slot && t.coros[c].slot.Some?
      ensures Gone(t.coros[d])
    {
      assert SlotsKept(s, t, d);
    }
  }

  lemma StoreInsertSoleOwner(s: State, c: nat, slot: nat, h: nat)
    requires SlotInv(s) && CanStoreInsert(s, c, slot) && SparesFrames(s, StoreInsert(c, slot)) && SoleOwner(s, h)
    ensures SoleOwner(DoStoreInsert(s, c, slot), h)
  {
    SparingInsert(s, c, slot);
    var t := Stored(s, c, slot);
    if h < |t.coros| && h != c && t.coros[h].slot.Some? { assert CoroSlotOk(s, s.coros[h]); }
    if h == c {
      forall d: nat | d < |s.coros| && d != c && s.coros[d].slot == Some(slot) ensures Gone(s.coros[d]) {
        assert CoroSlotOk(s, s.coros[d]);
      }
    }
  }

  /** The completion being handled stays the same but for the steps of the loop itself. */
  predicate SameHandled(s: State, t: State) {
    && t.pc == s.pc && s.cq <= t.cq && |s.pool| <= |t.pool|
    && forall id | 0 <= id < |s.pool| :: SameOwner(s.pool[id], t.pool[id])
  }

  predicate SameOwner(x: RequestData, y: RequestData) {
    y.handle == x.handle && y.dynamic == x.dynamic && y.coroIdx == x.coroIdx
  }

  lemma HandledIsKept(s: State, m: Move)
    requires Enabled(s, m) && !m.Loop?
    ensures SameHandled(s, Apply(s, m))
  {
    match m
    case Kernel(e, res) =>
    case Call(u) => CallHandled(s, u);
    case Unwind(f) => UnwindRing(s, f);
    case Library(b) => LibraryHandled(s, b);
  }

  lemma CallHandled(s: State, u: CallMove)
    requires CanCall(s, u)
    ensures SameHandled(s, DoCall(s, u))
  {
    if !u.AwaitIo? && !u.SubmitNa? { CallRing(s, u); }
  }

  lemma LibraryHandled(s: State, b: BodyMove)
    requires CanLibrary(s, b)
    ensures SameHandled(s, DoLibrary(s, b))
  {
    match b
    case BatchBegin(c) => BatchBeginRing(s, c);
    case BatchHandled(_) => PauseRing(s, b);
    case PollBegin(_) => PauseRing(s, b);
    case PollHandled(_, _) => PauseRing(s, b);
    case KillBegin => KillRing(s, b);
    case KillCheck => KillRing(s, b);
  }

  lemma HandledForKept(s: State, t: State)
    requires SameHandled(s, t)
    requires s.pc.Polled? ==> s.pc.id < |s.pool|
    requires s.pc.Handled? ==> s.cq != [] && (s.cq[0].Data? ==> s.cq[0].id < |s.pool|)
    ensures HandledFor(t) == HandledFor(s)
  {
  }

  /** The loop takes up only completions of coroutines that have not finished. */
  lemma LoopTakesUpLive(s: State, l: LoopMove)
    requires CanLoop(s, l) && DeliversToWaiter(s, l)
    ensures var h := HandledFor(DoLoop(s, l));
      h.Some? ==> (l.LoopTop? || l.WaitCqe?) && h.value < |s.coros| && !Gone(s.coros[h.value])
  {
  }

  lemma LoopFreesBefore(s: State, l: LoopMove)
    requires CanLoop(s, l)
    ensures l.LoopTop? || l.WaitCqe? ==> Frees(s, Loop(l)).None?
  {
  }

  lemma TakenUpOwns(s: State, t: State)
    requires DistinctSlots(s) && FreedAreFinished(s) && AllSlotsKept(s, t)
    requires HandledFor(t).Some? && HandledFor(t).value < |s.coros| && !Gone(s.coros[HandledFor(t).value])
    ensures HandledOwns(t)
  {
    LiveIsSoleOwner(s, t, HandledFor(t).value);
  }

  lemma HandledOwnsLoop(s: State, l: LoopMove)
    requires Inv(s) && DistinctSlots(s) && FreedAreFinished(s) && CanLoop(s, l)
    ensures HandledOwns(DoLoop(s, l))
  {
    DeliverySafe(s, l);
    LoopTakesUpLive(s, l);
    LoopFreesBefore(s, l);
    if HandledFor(DoLoop(s, l)).Some? {
      QuietKeptAll(s, Loop(l));
      TakenUpOwns(s, DoLoop(s, l));
    }
  }

  lemma HandledOwnsStep(s: State, m: Move)
    requires Inv(s) && DistinctSlots(s) && FreedAreFinished(s) && HandledOwns(s) && Sparing(s, m)
    ensures HandledOwns(Apply(s, m))
  {
    if m.Loop? { HandledOwnsLoop(s, m.l); }
    else {
      HandledInRange(s);
      HandledIsKept(s, m);
      HandledForKept(s, Apply(s, m));
      if HandledFor(s).Some? { SoleOwnerStep(s, m, HandledFor(s).value); }
    }
  }

  lemma HandledInRange(s: State)
    requires Inv(s)
    ensures s.pc.Polled? ==> s.pc.id < |s.pool|
    ensures s.pc.Handled? ==> s.cq != [] && (s.cq[0].Data? ==> s.cq[0].id < |s.pool|)
    ensures HandledFor(s).Some? ==> HandledFor(s).value < |s.coros|
  {
  }

  lemma SoleOwnerStep(s: State, m: Move, c: nat)
    requires Inv(s) && SoleOwner(s, c) && Sparing(s, m) && !m.Loop? && c < |s.coros|
    ensures SoleOwner(Apply(s, m), c)
  {
    if Inserts(m) { StoreInsertSoleOwner(s, m.f.c, m.f.slot, c); }
    else {
      QuietKeptAll(s, m);
      SoleOwnerKept(s, Apply(s, m), c);
    }
  }

  /** A coroutine that is done when its completion has been handled leaves its own slot empty. */
  lemma OwnSlotOverwritable(s: State, m: Move)
    requires Inv(s) && Enabled(s, m) && HandledOwns(s) && DoneRequest(s, m).Some?
    ensures var c := s.pool[DoneRequest(s, m).value].handle.value;
      s.coros[c].slot.Some? ==> Overwritable(s, s.coros[c].slot.value)
  {
  }
}
