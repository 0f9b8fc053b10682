/** When the slots that are freed are free of live tasks, told by who had made the request
    whose completion finished a coroutine; and so when no live task is assigned over. */
module SlotRecords {
  import opened Option
  import opened Requests
  import opened Machine
  import opened Scheduling
  import opened Accounting
  import opened Placement
  import opened Slots
  import opened Invariant
  import opened SlotSharing

  /** A request made through an awaitable records the slot of its coroutine if that has one
      yet, and 0 if not: `register_coro` starts a task before it stores it. */
  lemma RecordedSlot(s: State, c: nat, params: Params)
    requires Reachable(s) && CanAwaitIo(s, c) && SqeAvailable(s)
    ensures |DoAwaitIo(s, c, params).pool| == |s.pool| + 1
    ensures DoAwaitIo(s, c, params).pool[|s.pool|].handle == Some(c)
    ensures DoAwaitIo(s, c, params).pool[|s.pool|].coroIdx ==
      match s.coros[c].slot case None => 0 case Some(i) => i
  {
    ReachableInv(s);
    assert CoroSlotOk(s, s.coros[c]);
  }

  /** The request that the step makes for a coroutine that has been stored. */
  function RequestOfStored(s: State, m: Move): set<nat>
    requires Enabled(s, m)
  {
    match m
    case Call(AwaitIo(c, _)) => if SqeAvailable(s) && s.coros[c].slot.Some? then {|s.pool|} else {}
    case _ => {}
  }

  /** The requests of a run that were made through an awaitable by a coroutine already stored. */
  function MadeWhenStored(s: State, ms: seq<Move>): set<nat>
    requires Possible(s, ms)
    decreases |ms|
  {
    if ms == [] then {} else RequestOfStored(s, ms[0]) + MadeWhenStored(Apply(s, ms[0]), ms[1..])
  }

  predicate RecordsOwn(s: State, id: nat)
    requires id < |s.pool|
  {
    var r := s.pool[id];
    !r.dynamic && r.handle.Some? && r.handle.value < |s.coros| && s.coros[r.handle.value].slot == Some(r.coroIdx)
  }

  /** Such a request has its coroutine's slot, and any other one has 0. */
  predicate Recorded(s: State, own: set<nat>) {
    && (forall id | id in own :: id < |s.pool|)
    && forall id | 0 <= id < |s.pool| :: if id in own then RecordsOwn(s, id) else s.pool[id].coroIdx == 0
  }

  // What a step does to the records.

  /** Requests made before keep what they recorded; one that is not dynamic keeps its handle. */
  predicate RecordsKept(s: State, t: State) {
    && |s.pool| <= |t.pool|
    && forall id | 0 <= id < |s.pool| ::
      && t.pool[id].coroIdx == s.pool[id].coroIdx && t.pool[id].dynamic == s.pool[id].dynamic
      && (!s.pool[id].dynamic ==> t.pool[id].handle == s.pool[id].handle)
  }

  lemma LoopTopRecords(s: State)
    requires PlaceInv(s) && CanLoopTop(s)
    ensures RecordsKept(s, DoLoopTop(s)) && |DoLoopTop(s).pool| == |s.pool|
  {
    if !s.life.Dead? && s.ready != [] && s.pollHandle.Some? {
      var id := s.ready[|s.ready| - 1];
      assert id in s.ready && PlaceOk(s, id);
      assert DoLoopTop(s).pool == Dispatched(s).pool;
    }
  }

  lemma LoopRecords(s: State, l: LoopMove)
    requires PlaceInv(s) && CanLoop(s, l)
    ensures RecordsKept(s, DoLoop(s, l)) && |DoLoop(s, l).pool| == |s.pool|
  {
    match l
    case LoopTop => LoopTopRecords(s);
    case Start =>
    case PolledDone(done) =>
    case WaitCqe => WaitPool(s);
    case Seen(done) => SeenPool(s, done);
    case KillRoundDone =>
  }

  lemma WaitPool(s: State)
    requires CanWaitCqe(s)
    ensures DoWaitCqe(s).pool == s.pool
  {
  }

  lemma SeenPool(s: State, done: bool)
    requires CanSeen(s, done)
    ensures DoSeen(s, done).pool == s.pool
  {
  }

  lemma StepRecords(s: State, m: Move)
    requires PlaceInv(s) && Enabled(s, m)
    ensures RecordsKept(s, Apply(s, m))
  {
    if m.Loop? { LoopRecords(s, m.l); }
    else {
      HandledIsKept(s, m);
      var t := Apply(s, m);
      forall id | 0 <= id < |s.pool| ensures SameOwner(s.pool[id], t.pool[id]) {}
    }
  }

  /** A request that the step makes. */
  lemma NewRecords(s: State, m: Move, id: nat)
    requires Inv(s) && Enabled(s, m) && |s.pool| <= id < |Apply(s, m).pool|
    ensures if id in RequestOfStored(s, m) then RecordsOwn(Apply(s, m), id) else Apply(s, m).pool[id].coroIdx == 0
  {
    match m
    case Kernel(e, res) =>
    case Loop(l) => LoopRecords(s, l);
    case Call(u) => CallRecords(s, u, id);
    case Unwind(f) => UnwindRing(s, f);
    case Library(b) => LibraryRecords(s, b, id);
  }

  lemma CallRecords(s: State, u: CallMove, id: nat)
    requires SlotInv(s) && CanCall(s, u) && |s.pool| <= id < |DoCall(s, u).pool|
    ensures if id in RequestOfStored(s, Call(u)) then RecordsOwn(DoCall(s, u), id)
            else DoCall(s, u).pool[id].coroIdx == 0
  {
    match u
    case AwaitIo(c, params) =>
      assert CoroSlotOk(s, s.coros[c]);
      AwaitIoRecords(s, c, params);
    case SubmitNa(params) =>
    case _ => CallRing(s, u);
  }

  lemma AwaitIoRecords(s: State, c: nat, params: Params)
    requires CanAwaitIo(s, c) && CoroSlotOk(s, s.coros[c]) && SqeAvailable(s)
    ensures var t := DoAwaitIo(s, c, params);
      && |t.pool| == |s.pool| + 1
      && if s.coros[c].slot.Some? then RecordsOwn(t, |s.pool|) else t.pool[|s.pool|].coroIdx == 0
  {
  }

  lemma LibraryRecords(s: State, b: BodyMove, id: nat)
    requires CanLibrary(s, b)
    ensures |s.pool| <= id < |DoLibrary(s, b).pool| ==> DoLibrary(s, b).pool[id].coroIdx == 0
  {
    match b
    case BatchBegin(c) => BatchBeginRing(s, c);
    case BatchHandled(_) => PauseRing(s, b);
    case PollBegin(_) => PauseRing(s, b);
    case PollHandled(_, _) => PauseRing(s, b);
    case KillBegin => KillRing(s, b);
    case KillCheck => KillRing(s, b);
  }

  /** A stored task keeps its slot. */
  lemma SlotStays(s: State, m: Move, c: nat)
    requires Inv(s) && Enabled(s, m) && c < |s.coros| && s.coros[c].slot.Some?
    ensures c < |Apply(s, m).coros| && Apply(s, m).coros[c].slot == s.coros[c].slot
  {
    if Inserts(m) { InsertStays(s, m.f.c, m.f.slot, c); } else { StepKept(s, m, c); }
  }

  lemma InsertStays(s: State, c: nat, slot: nat, d: nat)
    requires SchedInv(s) && CanStoreInsert(s, c, slot) && d < |s.coros| && s.coros[d].slot.Some?
    ensures d < |DoStoreInsert(s, c, slot).coros| && DoStoreInsert(s, c, slot).coros[d].slot == s.coros[d].slot
  {
    assert FrameOk(s.coros, Registering(c));
    assert c != d;
  }

  lemma RecordedStep(s: State, m: Move, own: set<nat>)
    requires Inv(s) && Enabled(s, m) && Recorded(s, own)
    ensures Recorded(Apply(s, m), own + RequestOfStored(s, m))
  {
    var t := Apply(s, m);
    StepRecords(s, m);
    forall id: nat | id < |t.pool|
      ensures if id in own + RequestOfStored(s, m) then RecordsOwn(t, id) else t.pool[id].coroIdx == 0
    {
      if id < |s.pool| { OldRecord(s, m, own, id); } else { NewRecords(s, m, id); }
    }
    NewInRange(s, m);
  }

  lemma NewInRange(s: State, m: Move)
    requires Enabled(s, m)
    ensures forall id | id in RequestOfStored(s, m) :: |s.pool| <= id < |Apply(s, m).pool|
  {
  }

  lemma OldRecord(s: State, m: Move, own: set<nat>, id: nat)
    requires Inv(s) && Enabled(s, m) && Recorded(s, own) && id < |s.pool|
    requires RecordsKept(s, Apply(s, m))
    ensures id !in RequestOfStored(s, m)
    ensures if id in own then RecordsOwn(Apply(s, m), id) else Apply(s, m).pool[id].coroIdx == 0
  {
    if id in own { SlotStays(s, m, s.pool[id].handle.value); }
  }

  // The slot that is freed.

  /** The completion whose handling ends is of a request that its coroutine, stored by then,
      made through an awaitable; or else no live task is in slot 0. */
  predicate FreesHarmlessly(s: State, m: Move, own: set<nat>)
    requires Enabled(s, m)
  {
    DoneRequest(s, m).Some? ==> DoneRequest(s, m).value in own || Overwritable(s, 0)
  }

  /** The store and what the requests have recorded of it. */
  ghost predicate InOrder(s: State, own: set<nat>) {
    Inv(s) && DistinctSlots(s) && FreedAreFinished(s) && HandledOwns(s) && Recorded(s, own)
  }

  lemma FreesIff(s: State, m: Move, own: set<nat>)
    requires InOrder(s, own) && Enabled(s, m)
    ensures Frees(s, m).Some? ==> (Overwritable(s, Frees(s, m).value) <==> FreesHarmlessly(s, m, own))
  {
    if Frees(s, m).Some? {
      var id := DoneRequest(s, m).value;
      if id in own {
        assert RecordsOwn(s, id);
        OwnSlotOverwritable(s, m);
      } else {
        assert s.pool[id].coroIdx == 0;
      }
    }
  }

  lemma FreedIff(s: State, m: Move, own: set<nat>)
    requires InOrder(s, own) && Enabled(s, m)
    ensures FreedAreFinished(Apply(s, m)) <==> FreesHarmlessly(s, m, own)
  {
    FreesIff(s, m, own);
    if FreesHarmlessly(s, m, own) { FreedStep(s, m); }
    else { FreeingChangesNobody(s, m, Frees(s, m).value); }
  }

  lemma InOrderStep(s: State, m: Move, own: set<nat>)
    requires InOrder(s, own) && Enabled(s, m) && FreesHarmlessly(s, m, own)
    ensures Sparing(s, m) && InOrder(Apply(s, m), own + RequestOfStored(s, m))
  {
    FreesIff(s, m, own);
    FreedStep(s, m);
    DistinctStep(s, m);
    HandledOwnsStep(s, m);
    RecordedStep(s, m, own);
    InvStep(s, m);
  }

  // Whole runs.

  /** Every step of the run frees harmlessly. */
  predicate Harmless(s: State, ms: seq<Move>, own: set<nat>)
    requires Possible(s, ms)
    decreases |ms|
  {
    ms == [] ||
    (FreesHarmlessly(s, ms[0], own) && Harmless(Apply(s, ms[0]), ms[1..], own + RequestOfStored(s, ms[0])))
  }

  /** No state of the run has a live task in a freed slot. */
  predicate FreedAlong(s: State, ms: seq<Move>)
    requires Possible(s, ms)
    decreases |ms|
  {
    FreedAreFinished(s) && (ms == [] || FreedAlong(Apply(s, ms[0]), ms[1..]))
  }

  lemma {:induction false} HarmlessIff(s: State, ms: seq<Move>, own: set<nat>)
    requires InOrder(s, own) && Possible(s, ms)
    ensures Harmless(s, ms, own) <==> FreedAlong(s, ms)
    decreases |ms|
  {
    if ms != [] {
      FreedIff(s, ms[0], own);
      if FreesHarmlessly(s, ms[0], own) {
        InOrderStep(s, ms[0], own);
        HarmlessIff(Apply(s, ms[0]), ms[1..], own + RequestOfStored(s, ms[0]));
      } else {
        FreedAlongHead(Apply(s, ms[0]), ms[1..]);
      }
    }
  }

  lemma FreedAlongHead(s: State, ms: seq<Move>)
    requires Possible(s, ms)
    ensures FreedAlong(s, ms) ==> FreedAreFinished(s)
  {
  }

  lemma {:induction false} HarmlessIsLegal(s: State, ms: seq<Move>, own: set<nat>)
    requires InOrder(s, own) && Possible(s, ms) && Harmless(s, ms, own)
    ensures Legal(s, ms)
    decreases |ms|
  {
    if ms != [] {
      InOrderStep(s, ms[0], own);
      HarmlessIsLegal(Apply(s, ms[0]), ms[1..], own + RequestOfStored(s, ms[0]));
    }
  }

  lemma MadeFirst(s: State, ms: seq<Move>, own: set<nat>)
    requires Possible(s, ms) && ms != []
    ensures own + MadeWhenStored(s, ms) == own + RequestOfStored(s, ms[0]) + MadeWhenStored(Apply(s, ms[0]), ms[1..])
  {
  }

  lemma {:induction false} HarmlessInOrder(s: State, ms: seq<Move>, own: set<nat>)
    requires InOrder(s, own) && Possible(s, ms) && Harmless(s, ms, own)
    ensures InOrder(Exec(s, ms), own + MadeWhenStored(s, ms))
    decreases |ms|
  {
    if ms == [] {
      assert own + MadeWhenStored(s, ms) == own;
    } else {
      InOrderStep(s, ms[0], own);
      MadeFirst(s, ms, own);
      HarmlessInOrder(Apply(s, ms[0]), ms[1..], own + RequestOfStored(s, ms[0]));
    }
  }

  lemma HarmlessRun(s: State, ms: seq<Move>, own: set<nat>)
    requires InOrder(s, own) && Possible(s, ms) && Harmless(s, ms, own)
    ensures Legal(s, ms) && InOrder(Exec(s, ms), own + MadeWhenStored(s, ms))
  {
    HarmlessIsLegal(s, ms, own);
    HarmlessInOrder(s, ms, own);
  }

  lemma InitInOrder(capacity: nat, ringUp: bool)
    requires capacity > 0
    ensures InOrder(Init(capacity, ringUp), {})
  {
    InitInv(capacity, ringUp);
  }

  /** Over any run of the code, no live task is ever in a freed slot exactly if each step that
      frees one ends the handling of an awaitable's request, made by a coroutine stored by
      then, or finds no live task in slot 0. No live task is then assigned over. */
  lemma FreedSlotsAreEmptyIff(capacity: nat, ringUp: bool, ms: seq<Move>)
    requires capacity > 0 && Possible(Init(capacity, ringUp), ms)
    ensures FreedAlong(Init(capacity, ringUp), ms) <==> Harmless(Init(capacity, ringUp), ms, {})
    ensures Harmless(Init(capacity, ringUp), ms, {}) ==> Legal(Init(capacity, ringUp), ms)
  {
    InitInOrder(capacity, ringUp);
    HarmlessIff(Init(capacity, ringUp), ms, {});
    if Harmless(Init(capacity, ringUp), ms, {}) { HarmlessRun(Init(capacity, ringUp), ms, {}); }
  }

  /** The step after such a run keeps live tasks out of the freed slots exactly if the request
      was made through an awaitable when its coroutine was stored, or slot 0 has no live task;
      whatever kind of request it is, and whoever made it. */
  lemma StepFreesEmptySlotIff(capacity: nat, ringUp: bool, ms: seq<Move>, m: Move)
    requires capacity > 0 && Possible(Init(capacity, ringUp), ms) && Harmless(Init(capacity, ringUp), ms, {})
    requires Enabled(Exec(Init(capacity, ringUp), ms), m) && DoneRequest(Exec(Init(capacity, ringUp), ms), m).Some?
    ensures var s := Exec(Init(capacity, ringUp), ms);
      FreedAreFinished(Apply(s, m)) <==>
        DoneRequest(s, m).value in MadeWhenStored(Init(capacity, ringUp), ms) || Overwritable(s, 0)
  {
    var s := Init(capacity, ringUp);
    InitInOrder(capacity, ringUp);
    HarmlessRun(s, ms, {});
    var own := MadeWhenStored(s, ms);
    assert {} + own == own;
    FreedIff(Exec(s, ms), m, own);
  }

  // Who finishes when.

  /** If the step ends the coroutine whose completion is being handled, the request is one that
      it had made through an awaitable when it was stored. */
  predicate EndsByOwn(s: State, m: Move, own: set<nat>)
    requires Enabled(s, m)
  {
    m.Unwind? && m.f.FinalSuspendReturns? && HandledFor(s) == Some(m.f.c) ==> HandledRequest(s).value in own
  }

  /** No coroutine finishes in the handling of a request of its own that it did not make so.
      First requests, children, batches and polls are free to be used otherwise. */
  predicate FinishersAsked(s: State, ms: seq<Move>, own: set<nat>)
    requires Possible(s, ms)
    decreases |ms|
  {
    ms == [] ||
    (EndsByOwn(s, ms[0], own) && FinishersAsked(Apply(s, ms[0]), ms[1..], own + RequestOfStored(s, ms[0])))
  }

  /** If the coroutine whose completion is being handled is gone, it made the request so. */
  predicate GoneByOwn(s: State, own: set<nat>) {
    HandledFor(s).Some? && HandledFor(s).value < |s.coros| && Gone(s.coros[HandledFor(s).value]) ==>
      HandledRequest(s).value in own
  }

  lemma GoneByOwnLoop(s: State, l: LoopMove, own: set<nat>)
    requires Inv(s) && CanLoop(s, l)
    ensures GoneByOwn(DoLoop(s, l), own)
  {
    DeliverySafe(s, l);
    LoopTakesUpLive(s, l);
    LoopFreesBefore(s, l);
    var h := HandledFor(DoLoop(s, l));
    if h.Some? { StepKept(s, Loop(l), h.value); }
  }

  lemma SameHandledRequest(s: State, t: State)
    requires Inv(s) && SameHandled(s, t)
    ensures HandledRequest(t) == HandledRequest(s) && HandledFor(t) == HandledFor(s)
  {
    HandledInRange(s);
    HandledForKept(s, t);
  }

  /** No insertion ends a coroutine, if it assigns over none. */
  lemma InsertEndsNobody(s: State, c: nat, slot: nat, d: nat)
    requires CanStoreInsert(s, c, slot) && SparesFrames(s, StoreInsert(c, slot)) && d < |s.coros|
    ensures d < |DoStoreInsert(s, c, slot).coros| && DoStoreInsert(s, c, slot).coros[d].status == s.coros[d].status
  {
    SparingInsert(s, c, slot);
  }

  lemma GoneByOwnStep(s: State, m: Move, own: set<nat>)
    requires Inv(s) && Sparing(s, m) && GoneByOwn(s, own) && EndsByOwn(s, m, own)
    ensures GoneByOwn(Apply(s, m), own + RequestOfStored(s, m))
  {
    if m.Loop? { GoneByOwnLoop(s, m.l, own + RequestOfStored(s, m)); }
    else {
      HandledIsKept(s, m);
      SameHandledRequest(s, Apply(s, m));
      HandledInRange(s);
      if HandledFor(s).Some? {
        var h := HandledFor(s).value;
        if Inserts(m) { InsertEndsNobody(s, m.f.c, m.f.slot, h); } else { StepKept(s, m, h); }
      }
    }
  }

  lemma DoneIsHandled(s: State, m: Move)
    requires Inv(s) && Enabled(s, m) && DoneRequest(s, m).Some?
    ensures HandledRequest(s) == DoneRequest(s, m) && HandledFor(s).Some?
    ensures HandledFor(s).value < |s.coros| && Gone(s.coros[HandledFor(s).value])
  {
  }

  lemma FinishersFreeHarmlessly(s: State, m: Move, own: set<nat>)
    requires Inv(s) && Enabled(s, m) && GoneByOwn(s, own)
    ensures FreesHarmlessly(s, m, own)
  {
    if DoneRequest(s, m).Some? { DoneIsHandled(s, m); }
  }

  lemma {:induction false} FinishersRun(s: State, ms: seq<Move>, own: set<nat>)
    requires InOrder(s, own) && GoneByOwn(s, own) && Possible(s, ms) && FinishersAsked(s, ms, own)
    ensures Harmless(s, ms, own)
    decreases |ms|
  {
    if ms != [] {
      FinishersFreeHarmlessly(s, ms[0], own);
      InOrderStep(s, ms[0], own);
      GoneByOwnStep(s, ms[0], own);
      FinishersRun(Apply(s, ms[0]), ms[1..], own + RequestOfStored(s, ms[0]));
    }
  }

  /** With such callers no run of the code destroys a live task, so that every state it goes
      through satisfies the invariant. */
  lemma CarefulCallersLoseNoTask(capacity: nat, ringUp: bool, ms: seq<Move>)
    requires capacity > 0 && Possible(Init(capacity, ringUp), ms) && FinishersAsked(Init(capacity, ringUp), ms, {})
    ensures Legal(Init(capacity, ringUp), ms) && Reachable(Exec(Init(capacity, ringUp), ms))
  {
    var s := Init(capacity, ringUp);
    InitInOrder(capacity, ringUp);
    FinishersRun(s, ms, {});
    HarmlessRun(s, ms, {});
    assert Reaches(capacity, ringUp, ms, Exec(s, ms));
  }
}
