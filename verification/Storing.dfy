/** What `ItemStore` does to the tasks in it: which tasks an insertion moves and assigns over,
    which finished ones it can still come across, and when those are freed. */
module Storing {
  import opened Option
  import opened Machine
  import opened Scheduling
  import opened Slots
  import opened Invariant
  import opened SlotSharing
  import opened SlotRecords

  // Finished tasks in the store.

  /** The slots whose task has finished and that are not free. */
  function Unfreed(s: State): set<nat> { set i | 0 <= i < s.slots && i !in s.freeSlots && Overwritable(s, i) }

  /** The slot in which the step leaves a finished task. */
  function Leaves(s: State, m: Move): set<nat>
    requires Enabled(s, m)
  {
    match m
    case Unwind(FinalSuspendReturns(c)) =>
      if s.coros[c].slot.Some? && s.coros[c].slot.value !in s.freeSlots then {s.coros[c].slot.value} else {}
    case Unwind(StoreInsert(c, slot)) => if Gone(s.coros[c]) then {slot} else {}
    case _ => {}
  }

  function FreesSet(s: State, m: Move): set<nat>
    requires Enabled(s, m)
  {
    if Frees(s, m).Some? then {Frees(s, m).value} else {}
  }

  /** A step leaves a finished task in the store only when one finishes there or one that has
      finished is inserted, and takes none away but from the slot it frees. */
  lemma UnfreedChange(s: State, m: Move)
    requires Reachable(s) && Sparing(s, m)
    ensures Unfreed(Apply(s, m)) == Unfreed(s) + Leaves(s, m) - FreesSet(s, m)
  {
    ReachableInv(s);
    ReachableDistinct(s);
    if Inserts(m) { InsertUnfreed(s, m.f.c, m.f.slot); }
    else if m.Unwind? && m.f.FinalSuspendReturns? { EndUnfreed(s, m.f.c); }
    else { QuietUnfreed(s, m); }
  }

  lemma InsertUnfreed(s: State, c: nat, slot: nat)
    requires Inv(s) && CanStoreInsert(s, c, slot) && SparesFrames(s, StoreInsert(c, slot))
    ensures Unfreed(DoStoreInsert(s, c, slot)) == Unfreed(s) + if Gone(s.coros[c]) then {slot} else {}
  {
    SparingInsert(s, c, slot);
    assert FrameOk(s.coros, Registering(c));
    var t := Stored(s, c, slot);
    forall d | 0 <= d < |s.coros| ensures CoroSlotOk(s, s.coros[d]) {}
    forall i: nat | i != slot ensures Overwritable(t, i) <==> Overwritable(s, i) {
      forall d | 0 <= d < |s.coros| && d != c ensures t.coros[d] == s.coros[d] {}
      OneMore(s, t, c, i);
    }
    InsertedOver(s, c, slot);
  }

  lemma OneMore(s: State, t: State, c: nat, i: nat)
    requires c < |s.coros| == |t.coros| && s.coros[c].slot != Some(i) && t.coros[c].slot != Some(i)
    requires forall d | 0 <= d < |s.coros| && d != c :: t.coros[d] == s.coros[d]
    ensures Overwritable(t, i) <==> Overwritable(s, i)
  {
    if Overwritable(t, i) {
      forall d: nat | d < |s.coros| && s.coros[d].slot == Some(i) ensures Gone(s.coros[d]) {
        assert t.coros[d] == s.coros[d];
      }
    }
  }

  lemma InsertedOver(s: State, c: nat, slot: nat)
    requires SlotInv(s) && CanStoreInsert(s, c, slot) && SparesFrames(s, StoreInsert(c, slot))
    ensures Overwritable(Stored(s, c, slot), slot) <==> Gone(s.coros[c])
  {
    var t := Stored(s, c, slot);
    forall d | 0 <= d < |s.coros| && d != c && s.coros[d].slot == Some(slot) ensures Gone(s.coros[d]) {
      assert CoroSlotOk(s, s.coros[d]);
    }
    assert t.coros[c].slot == Some(slot) && t.coros[c].status == s.coros[c].status;
  }

  lemma EndUnfreed(s: State, c: nat)
    requires Inv(s) && DistinctSlots(s) && CanFinalSuspendReturn(s, c)
    ensures Unfreed(DoFinalSuspendReturn(s, c)) == Unfreed(s) + Leaves(s, Unwind(FinalSuspendReturns(c)))
  {
    assert FrameOk(s.coros, FinalSuspend(c));
    assert CoroSlotOk(s, s.coros[c]);
    var t := DoFinalSuspendReturn(s, c);
    forall i: nat ensures Overwritable(t, i) <==> Overwritable(s, i) || s.coros[c].slot == Some(i) {
      if s.coros[c].slot != Some(i) { OneMore(s, t, c, i); }
    }
  }

  ghost predicate AllKept(s: State, t: State) { forall d: nat :: Kept(s, t, d) }

  lemma QuietAllKept(s: State, m: Move)
    requires Inv(s) && Enabled(s, m) && !Inserts(m) && !(m.Unwind? && m.f.FinalSuspendReturns?)
    ensures AllKept(Freed(s, Frees(s, m)), Apply(s, m))
  {
    forall d: nat ensures Kept(Freed(s, Frees(s, m)), Apply(s, m), d) { StepKept(s, m, d); }
  }

  lemma QuietUnfreed(s: State, m: Move)
    requires Inv(s) && Enabled(s, m) && !Inserts(m) && !(m.Unwind? && m.f.FinalSuspendReturns?)
    ensures Unfreed(Apply(s, m)) == Unfreed(s) + Leaves(s, m) - FreesSet(s, m)
  {
    QuietLeaves(s, m);
    QuietAllKept(s, m);
    FreedThenKept(s, Frees(s, m), Apply(s, m));
  }

  lemma QuietLeaves(s: State, m: Move)
    requires Enabled(s, m) && !Inserts(m) && !(m.Unwind? && m.f.FinalSuspendReturns?)
    ensures Leaves(s, m) == {}
  {
  }

  lemma FreedThenKept(s: State, i: Option<nat>, t: State)
    requires AllKept(Freed(s, i), t)
    ensures Unfreed(t) == Unfreed(s) - if i.Some? then {i.value} else {}
  {
    KeptUnfreed(Freed(s, i), t);
    FreedUnfreed(s, i);
  }

  lemma KeptUnfreed(s: State, t: State)
    requires AllKept(s, t)
    ensures Unfreed(t) == Unfreed(s)
  {
    assert Kept(s, t, 0);
    forall i: nat ensures Overwritable(t, i) <==> Overwritable(s, i) { SameOverwritable(s, t, i); }
  }

  lemma FreedUnfreed(s: State, i: Option<nat>)
    ensures Unfreed(Freed(s, i)) == Unfreed(s) - if i.Some? then {i.value} else {}
  {
    forall j: nat ensures Overwritable(Freed(s, i), j) <==> Overwritable(s, j) {}
  }

  lemma SameOverwritable(s: State, t: State, i: nat)
    requires AllKept(s, t)
    ensures Overwritable(t, i) <==> Overwritable(s, i)
  {
    forall d: nat | d < |t.coros| && t.coros[d].slot == Some(i)
      ensures d < |s.coros| && s.coros[d].slot == Some(i) && (Gone(t.coros[d]) <==> Gone(s.coros[d]))
    {
      assert Kept(s, t, d);
    }
    forall d: nat | d < |s.coros| && s.coros[d].slot == Some(i) ensures d < |t.coros| && t.coros[d].slot == Some(i) {
      assert Kept(s, t, d);
    }
  }

  // What an insertion needs of the tasks it moves.

  /** The insertion meets what the task's move operations need: the task inserted has not
      finished, nor has any that `push_back` relocates, the vector being full, and it assigns
      over no live one. */
  predicate InsertDefined(s: State, c: nat, slot: nat, full: bool)
    requires CanStoreInsert(s, c, slot)
  {
    && !Gone(s.coros[c])
    && (s.freeSlots == {} && full ==> forall i | 0 <= i < s.slots :: !Overwritable(s, i))
    && SparesFrames(s, StoreInsert(c, slot))
  }

  /** Every insertion that may follow does so exactly if the new task has not finished and,
      where it appends to a full vector, all finished ones in the store are freed, or, where
      it reuses a slot, only they. */
  lemma InsertDefinedIff(s: State, c: nat, full: bool)
    requires c < |s.coros| && OnTop(s, Registering(c)) && (forall i | i in s.freeSlots :: i < s.slots)
    ensures (forall slot: nat | CanStoreInsert(s, c, slot) :: InsertDefined(s, c, slot, full)) <==>
      !Gone(s.coros[c]) && if s.freeSlots == {} then full ==> Unfreed(s) == {} else FreedAreFinished(s)
  {
    if forall slot: nat | CanStoreInsert(s, c, slot) :: InsertDefined(s, c, slot, full) {
      if s.freeSlots == {} {
        assert CanStoreInsert(s, c, s.slots) && InsertDefined(s, c, s.slots, full);
      } else {
        forall i | i in s.freeSlots ensures Overwritable(s, i) && !Gone(s.coros[c]) {
          assert CanStoreInsert(s, c, i) && InsertDefined(s, c, i, full);
        }
        var i :| i in s.freeSlots;
      }
    } else {
      var slot: nat :| CanStoreInsert(s, c, slot) && !InsertDefined(s, c, slot, full);
      if s.freeSlots == {} && full && !Gone(s.coros[c]) {
        var i: nat :| i < s.slots && Overwritable(s, i);
        assert i in Unfreed(s);
      }
    }
  }

  /** The slots in which the run has left a finished task and that it has not freed since. */
  function LeftUnfreed(s: State, ms: seq<Move>, left: set<nat>): set<nat>
    requires Possible(s, ms)
    decreases |ms|
  {
    if ms == [] then left
    else LeftUnfreed(Apply(s, ms[0]), ms[1..], left + Leaves(s, ms[0]) - FreesSet(s, ms[0]))
  }

  lemma {:induction false} UnfreedRun(s: State, ms: seq<Move>)
    requires Reachable(s) && Legal(s, ms)
    ensures Unfreed(Exec(s, ms)) == LeftUnfreed(s, ms, Unfreed(s))
    decreases |ms|
  {
    if ms != [] {
      UnfreedChange(s, ms[0]);
      ReachableStep(s, ms[0]);
      UnfreedRun(Apply(s, ms[0]), ms[1..]);
    }
  }

  /** After a run that has freed harmlessly, an insertion meets what the tasks' move operations
      need, whatever slot it takes, exactly if the task inserted has not finished and, should it
      append to a full vector, every task that finished there, or was inserted finished, has
      been freed. */
  lemma InsertionAfterRunIff(capacity: nat, ringUp: bool, ms: seq<Move>, c: nat, full: bool)
    requires capacity > 0 && Possible(Init(capacity, ringUp), ms) && Harmless(Init(capacity, ringUp), ms, {})
    requires c < |Exec(Init(capacity, ringUp), ms).coros| && OnTop(Exec(Init(capacity, ringUp), ms), Registering(c))
    ensures var s := Exec(Init(capacity, ringUp), ms);
      (forall slot: nat | CanStoreInsert(s, c, slot) :: InsertDefined(s, c, slot, full)) <==>
        !Gone(s.coros[c]) && (s.freeSlots == {} && full ==> LeftUnfreed(Init(capacity, ringUp), ms, {}) == {})
  {
    var s := Init(capacity, ringUp);
    InitInOrder(capacity, ringUp);
    HarmlessRun(s, ms, {});
    ReachableInit(capacity, ringUp);
    UnfreedRun(s, ms);
    assert Unfreed(s) == {};
    InsertDefinedIff(Exec(s, ms), c, full);
  }

  // When a finished task is freed.

  predicate NoLoop(ms: seq<Move>) { forall i | 0 <= i < |ms| :: !ms[i].Loop? }

  /** What the steps before the handling ends leave as it was. */
  predicate SameRound(s: State, t: State) {
    && HandledRequest(t) == HandledRequest(s) && t.freeSlots <= s.freeSlots && |s.pool| <= |t.pool|
    && forall id | 0 <= id < |s.pool| :: SameOwner(s.pool[id], t.pool[id])
  }

  lemma RoundStep(s: State, m: Move)
    requires Inv(s) && Sparing(s, m) && !m.Loop?
    ensures SameRound(s, Apply(s, m))
  {
    HandledIsKept(s, m);
    HandledInRange(s);
    if Inserts(m) { SparingInsert(s, m.f.c, m.f.slot); }
    else {
      QuietKeptAll(s, m);
      assert SlotsKept(s, Apply(s, m), 0);
    }
  }

  lemma {:induction false} RoundRun(s: State, ms: seq<Move>)
    requires Inv(s) && Legal(s, ms) && NoLoop(ms)
    ensures SameRound(s, Exec(s, ms))
    decreases |ms|
  {
    if ms != [] {
      assert !ms[0].Loop? && NoLoop(ms[1..]);
      RoundStep(s, ms[0]);
      InvStep(s, ms[0]);
      RoundRun(Apply(s, ms[0]), ms[1..]);
      RoundsJoin(s, Apply(s, ms[0]), Exec(Apply(s, ms[0]), ms[1..]));
    }
  }

  lemma RoundsJoin(s: State, t: State, u: State)
    requires SameRound(s, t) && SameRound(t, u)
    ensures SameRound(s, u)
  {
  }

  /** A stored task c returns while the completion of request id is being handled. When that
      handling ends, c's slot is freed exactly if the resumed coroutine is seen to be done and
      is c itself, which made the request when stored, or the request was not made so and
      the slot is 0. */
  lemma FinishedIsFreedIff(s: State, own: set<nat>, c: nat, id: nat, ms: seq<Move>, m: Move)
    requires InOrder(s, own) && CanFinalSuspendReturn(s, c) && s.coros[c].slot.Some?
    requires s.coros[c].slot.value !in s.freeSlots && HandledRequest(s) == Some(id) && id < |s.pool|
    requires Legal(DoFinalSuspendReturn(s, c), ms) && NoLoop(ms)
    requires Enabled(Exec(DoFinalSuspendReturn(s, c), ms), m) && m.Loop? && (m.l.Seen? || m.l.PolledDone?)
    ensures var t := Exec(DoFinalSuspendReturn(s, c), ms);
      s.coros[c].slot.value in Apply(t, m).freeSlots <==>
        DoneRequest(t, m).Some? && if id in own then s.pool[id].handle == Some(c) else s.coros[c].slot == Some(0)
  {
    ReturnRound(s, c, ms);
    EndFrees(Exec(DoFinalSuspendReturn(s, c), ms), m);
    RoundOwner(s, own, c, id);
  }

  lemma ReturnRound(s: State, c: nat, ms: seq<Move>)
    requires Inv(s) && CanFinalSuspendReturn(s, c) && Legal(DoFinalSuspendReturn(s, c), ms) && NoLoop(ms)
    ensures var t := Exec(DoFinalSuspendReturn(s, c), ms); Inv(t) && SameRound(s, t)
  {
    var s1 := DoFinalSuspendReturn(s, c);
    InvStep(s, Unwind(FinalSuspendReturns(c)));
    RoundRun(s1, ms);
    InvRun(s1, ms);
    assert SameRing(s, s1) && s1.freeSlots == s.freeSlots;
  }

  lemma EndFrees(t: State, m: Move)
    requires Inv(t) && Enabled(t, m) && m.Loop? && (m.l.Seen? || m.l.PolledDone?)
    ensures Apply(t, m).freeSlots == t.freeSlots + FreesSet(t, m)
    ensures DoneRequest(t, m).Some? ==> DoneRequest(t, m) == HandledRequest(t)
  {
    StepKept(t, m, 0);
    HandledByPc(t, m.l);
  }

  lemma HandledByPc(t: State, l: LoopMove)
    requires CanLoop(t, l) && (l.Seen? || l.PolledDone?)
    ensures DoneRequest(t, Loop(l)).Some? ==> DoneRequest(t, Loop(l)) == HandledRequest(t)
  {
  }

  lemma RoundOwner(s: State, own: set<nat>, c: nat, id: nat)
    requires InOrder(s, own) && CanFinalSuspendReturn(s, c) && s.coros[c].slot.Some?
    requires HandledRequest(s) == Some(id) && id < |s.pool|
    ensures s.pool[id].coroIdx == s.coros[c].slot.value <==>
      if id in own then s.pool[id].handle == Some(c) else s.coros[c].slot == Some(0)
  {
    assert FrameOk(s.coros, FinalSuspend(c));
    if id in own {
      assert RecordsOwn(s, id);
      assert SoleOwner(s, s.pool[id].handle.value);
    }
  }
}
