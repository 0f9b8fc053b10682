/** Runs in which the store destroys the task in its first slot, whatever that is, and the
    library goes on in the frame. */
module EvictionFindings {
  import opened Option
  import opened Machine
  import opened Invariant
  import opened Eviction
  import SlotSharing
  import opened Findings

  /** Before `start`, the unfinished task d is in slot 0. */
  predicate Holds(s: State, d: nat) {
    && s.life.NotStarted? && s.pc.Outside? && s.stack == [] && s.capacity > 0
    && s.sq == [] && s.cq == [] && s.ready == [] && s.freeSlots == {} && s.slots > 0
    && 0 < d < |s.coros| && s.coros[d].slot == Some(0) && !Gone(s.coros[d])
    && (s.pollHandle.Some? ==> s.pollHandle.value < |s.coros|)
  }

  function Done(slot: nat): Coro { Again(slot).(status := Finished) }

  /** Two more tasks are stored, suspended on an operation each, and the manager is started. */
  function TwoMore(s: State): State { WithTask(WithTask(s)).(life := Living, pc := Wait) }

  lemma TwoMoreReachable(s: State, d: nat)
    requires Reachable(s) && Holds(s, d)
    ensures Reachable(TwoMore(s))
  {
    var s1 := Registered(s);
    var s2 := Registered(s1);
    var s3 := Starts(s2);
  }

  /** The first of the two has been resumed. */
  function FirstRuns(s: State): State { Delivered(TwoMore(s), |s.pool|, |s.coros|) }

  lemma FirstRunsReachable(s: State, d: nat)
    requires Reachable(s) && Holds(s, d)
    ensures Reachable(FirstRuns(s))
  {
    TwoMoreReachable(s, d);
    var t := Completed(TwoMore(s), |s.pool|, |s.coros|);
  }

  function FirstEnded(s: State): State { Ended(FirstRuns(s), [], |s.coros|) }

  lemma FirstEndedReachable(s: State, d: nat)
    requires Reachable(s) && Holds(s, d)
    ensures Reachable(FirstEnded(s))
  {
    FirstRunsReachable(s, d);
    assert FirstRuns(s).stack == [] + [Run(|s.coros|)];
    var t := Finishes(FirstRuns(s), [], |s.coros|);
  }

  /** What there was before `start`: its requests are still there, and so is its poll. */
  predicate Kept(s: State, t: State) {
    && t.life.Living? && t.capacity == s.capacity && t.sq == [] && t.ready == []
    && t.polling == s.polling && t.pollHandle == s.pollHandle && s.kernel <= t.kernel && s.pool <= t.pool
  }

  /** The first has returned, and the second waits on. */
  predicate OneLeft(s: State, t: State) {
    && t.coros == s.coros + [Done(s.slots), Suspended(s.slots + 1)]
    && t.pool == s.pool + [Asked(|s.coros|, 0), Asked(|s.coros| + 1, 0)] && Data(|s.pool| + 1) in t.kernel
    && s.kernel <= t.kernel - multiset{Data(|s.pool| + 1)}
    && t.stack == [] && t.cq == [] && Kept(s, t)
  }

  /** The first task's request was made before it was stored and carries index 0: the slot that
      is freed is that of task d, which has not finished. */
  lemma LiveSlotIsFreed(s: State, d: nat) returns (t: State)
    requires Reachable(s) && Holds(s, d)
    ensures Reachable(t) && LiveInFreed(t, 0, d) && t.coros[d] == s.coros[d]
    ensures OneLeft(s, t) && t.pc.Top? && t.freeSlots == {0}
  {
    FirstEndedReachable(s, d);
    t := Handles(FirstEnded(s), |s.pool|, true);
    OneIsLeft(s, d);
  }

  lemma OneIsLeft(s: State, d: nat)
    requires Holds(s, d)
    ensures var t := HandlingEnded(FirstEnded(s), |s.pool|, true); OneLeft(s, t) && t.pc.Top? && t.freeSlots == {0}
  {
    var t := HandlingEnded(FirstEnded(s), |s.pool|, true);
    assert t.coros == s.coros + [Done(s.slots), Suspended(s.slots + 1)];
    assert t.pool == s.pool + [Asked(|s.coros|, 0), Asked(|s.coros| + 1, 0)];
  }

  /** The completion of the second task's request is being handled. */
  predicate Handling(s: State, t: State) {
    && t.pc.Handled? && t.cq == [Data(|s.pool| + 1)] && Kept(s, t)
    && |s.pool| + 1 < |t.pool| && t.pool[|s.pool| + 1] == Asked(|s.coros| + 1, 0)
  }

  /** The second has been resumed. */
  lemma SecondRuns(s: State, d: nat) returns (t: State)
    requires Reachable(s) && Holds(s, d)
    ensures Reachable(t) && Handling(s, t) && t.freeSlots == {0} && t.stack == [Run(|s.coros| + 1)]
    ensures t.coros == s.coros + [Done(s.slots), Again(s.slots + 1)]
  {
    var u := LoopIsLeft(s, d);
    t := SecondCompletes(s, u);
  }

  lemma SecondCompletes(s: State, u: State) returns (t: State)
    requires Reachable(u) && OneLeft(s, u) && u.pc.Wait?
    ensures Reachable(t) && Handling(s, t) && t.freeSlots == u.freeSlots && t.stack == [Run(|s.coros| + 1)]
    ensures t.coros == s.coros + [Done(s.slots), Again(s.slots + 1)]
  {
    SecondIsResumed(s, u);
    t := Completed(u, |s.pool| + 1, |s.coros| + 1);
  }

  lemma LoopIsLeft(s: State, d: nat) returns (t: State)
    requires Reachable(s) && Holds(s, d)
    ensures Reachable(t) && OneLeft(s, t) && t.pc.Wait? && t.freeSlots == {0}
  {
    var s1 := LiveSlotIsFreed(s, d);
    t := LoopsOn(s1);
  }

  lemma SecondIsResumed(s: State, u: State)
    requires OneLeft(s, u)
    ensures var c := |s.coros| + 1;
      && c < |u.coros| && u.coros[c].body.User?
      && |s.pool| + 1 < |u.pool| && u.pool[|s.pool| + 1] == Asked(c, 0)
      && Delivered(u, |s.pool| + 1, c).coros == s.coros + [Done(s.slots), Again(s.slots + 1)]
      && Handling(s, Delivered(u, |s.pool| + 1, c))
  {
  }

  /** It has started another task, which it is about to store. */
  predicate AboutToStore(s: State, t: State) {
    && |t.coros| == |s.coros| + 3 && t.coros[..|s.coros|] == s.coros
    && t.stack == [Run(|s.coros| + 1), Registering(|s.coros| + 2)] && t.freeSlots == {0}
    && t.coros[|s.coros| + 1] == Again(s.slots + 1)
    && t.coros[|s.coros|].awaiter.None? && t.coros[|s.coros| + 2].awaiter.None?
    && Handling(s, t)
  }

  lemma NewIsStarted(s: State, d: nat) returns (t: State)
    requires Reachable(s) && Holds(s, d)
    ensures Reachable(t) && AboutToStore(s, t)
  {
    var s1 := SecondRuns(s, d);
    Begins(s1);
    t := Asking(s1);
    NewAboutToStore(s, s1);
  }

  lemma NewAboutToStore(s: State, u: State)
    requires Handling(s, u) && u.freeSlots == {0} && u.stack == [Run(|s.coros| + 1)]
    requires u.coros == s.coros + [Done(s.slots), Again(s.slots + 1)]
    ensures AboutToStore(s, Asking(u))
  {
    var t := Asking(u);
    assert t.coros[..|s.coros|] == s.coros;
    assert s.kernel <= t.kernel;
  }

  /** It has been stored in slot 0, and whoever was there destroyed. */
  predicate Evicted(s: State, t: State) {
    && |t.coros| == |s.coros| + 3 && t.coros[..|s.coros|] == AssignedOver(s, 0).coros
    && t.stack == [Run(|s.coros| + 1)] && t.coros[|s.coros| + 1] == Again(s.slots + 1)
    && Handling(s, t)
  }

  /** The insertion destroys task d. If it was waited for, the library keeps its handle. */
  lemma LiveTaskIsDestroyed(s: State, d: nat) returns (t: State)
    requires Reachable(s) && Holds(s, d)
    ensures Arises(t) && Evicted(s, t) && IsDestroyed(t, d)
    ensures HandleHeld(t, d) <==> WaitedFor(s, d)
  {
    var u := NewIsStarted(s, d);
    assert u.coros[d] == u.coros[..|s.coros|][d];
    t := InsertionDestroys(u, |s.coros| + 2, d);
    InsertionEvicts(s, u);
    SameWaitedFor(s, u, d);
  }

  lemma InsertionDestroys(s: State, c: nat, d: nat) returns (t: State)
    requires Reachable(s) && CanStoreInsert(s, c, 0) && LiveInFreed(s, 0, d)
    ensures t == DoStoreInsert(s, c, 0) && Arises(t) && IsDestroyed(t, d)
    ensures HandleHeld(t, d) <==> WaitedFor(s, d)
  {
    t := DoStoreInsert(s, c, 0);
    ReachableArises(s);
    AnyStep(s, Unwind(StoreInsert(c, 0)), t);
    ReachableInv(s);
    SlotSharing.ReachableDistinct(s);
    SameHandles(s, c, 0, d);
    HandleHeldIff(s, d);
    DestroyedIff(s, c, 0, d);
  }

  lemma InsertionEvicts(s: State, u: State)
    requires AboutToStore(s, u)
    ensures CanStoreInsert(u, |s.coros| + 2, 0) && Evicted(s, DoStoreInsert(u, |s.coros| + 2, 0))
  {
    var t := DoStoreInsert(u, |s.coros| + 2, 0);
    forall i: nat | i < |s.coros| ensures t.coros[i] == AssignedOver(s, 0).coros[i] {
      assert u.coros[i] == u.coros[..|s.coros|][i];
    }
    assert t.stack == [Run(|s.coros| + 1)];
  }

  lemma SameWaitedFor(s: State, u: State, d: nat)
    requires Holds(s, d) && AboutToStore(s, u) && Reachable(u)
    ensures WaitedFor(u, d) <==> WaitedFor(s, d)
  {
    assert u.coros[d] == u.coros[..|s.coros|][d];
    if s.coros[d].status.Parked? && s.coros[d].status.on.OnTask? {
      var child := s.coros[d].status.on.child;
      if child < |s.coros| { assert u.coros[child] == u.coros[..|s.coros|][child]; }
    }
  }

  // The loop goes on.

  /** The second task has returned too, and the loop waits: at the place of its coroutines are
      those of s but for the destroyed ones. */
  predicate LoopWaits(s: State, t: State) {
    && |s.coros| <= |t.coros| && t.coros[..|s.coros|] == AssignedOver(s, 0).coros
    && t.stack == [] && t.pc.Wait? && t.cq == [] && Kept(s, t)
  }

  lemma EndArises(s: State, base: seq<Frame>, c: nat)
    requires Arises(s) && c < |s.coros| && s.stack == base + [Run(c)]
    requires s.coros[c].body.User? && s.coros[c].awaiter.None?
    ensures Arises(Ended(s, base, c))
  {
    EndsHere(s, base, c);
    AnyStep(s, Call(CoReturn(c, 0)), Ending(s, base, c));
    AnyStep(Ending(s, base, c), Unwind(FinalSuspendReturns(c)), Ended(s, base, c));
  }

  lemma HandlingArises(s: State, id: nat)
    requires Arises(s) && s.stack == [] && s.pc.Handled? && s.cq == [Data(id)] && s.life.Living? && |s.coros| > 0
    requires id < |s.pool| && !s.pool[id].dynamic
    ensures Arises(HandlingEnded(s, id, false))
  {
    AnyStep(s, Loop(Seen(false)), HandlingEnded(s, id, false));
  }

  lemma LoopWaitsArises(s: State, d: nat) returns (t: State)
    requires Reachable(s) && Holds(s, d)
    ensures Arises(t) && LoopWaits(s, t) && IsDestroyed(t, d)
  {
    var u := SecondHandled(s, d);
    t := u.(pc := Wait);
    AnyStep(u, Loop(LoopTop), t);
  }

  lemma SecondEnds(s: State, d: nat) returns (t: State)
    requires Reachable(s) && Holds(s, d)
    ensures Arises(t) && Handling(s, t) && IsDestroyed(t, d) && t.stack == [] && |s.coros| <= |t.coros|
    ensures t.coros[..|s.coros|] == AssignedOver(s, 0).coros
  {
    var u := LiveTaskIsDestroyed(s, d);
    t := EvictedEnds(s, u, d);
  }

  lemma EvictedEnds(s: State, u: State, d: nat) returns (t: State)
    requires Arises(u) && Evicted(s, u) && IsDestroyed(u, d) && d < |s.coros|
    ensures Arises(t) && Handling(s, t) && IsDestroyed(t, d) && t.stack == []
    ensures |t.coros| == |u.coros| && t.coros[..|s.coros|] == u.coros[..|s.coros|]
  {
    var c := |s.coros| + 1;
    assert u.stack == [] + [Run(c)];
    EndArises(u, [], c);
    t := Ended(u, [], c);
  }

  lemma SecondHandled(s: State, d: nat) returns (t: State)
    requires Reachable(s) && Holds(s, d)
    ensures Arises(t) && IsDestroyed(t, d) && t.pc.Top? && LoopWaits(s, t.(pc := Wait))
    ensures t.pollHandle.Some? ==> t.pollHandle.value < |t.coros|
  {
    var u := SecondEnds(s, d);
    HandlingArises(u, |s.pool| + 1);
    t := HandlingEnded(u, |s.pool| + 1, false);
  }

  lemma ArisesCompletes(s: State, id: nat) returns (t: State)
    requires Arises(s) && s.cq == [] && Data(id) in s.kernel && id < |s.pool| && s.pool[id].res == 0
    ensures Arises(t) && t == s.(kernel := s.kernel - multiset{Data(id)}, cq := [Data(id)])
  {
    t := s.(kernel := s.kernel - multiset{Data(id)}, cq := [Data(id)]);
    assert s.pool[id := s.pool[id].(res := 0)] == s.pool;
    AnyStep(s, Kernel(Data(id), 0), t);
  }

  /** The task's request completes, and the loop resumes the coroutine, which has been destroyed. */
  lemma DestroyedIsResumed() returns (t: State)
    ensures Arises(t) && CanWaitCqe(t) && IsDestroyed(t, 1) && OnTop(DoWaitCqe(t), Run(1))
  {
    OneStoredReachable();
    var s1 := LoopWaitsArises(OneStored(), 1);
    assert s1.pool[0] == Asked(1, 0);
    t := ArisesCompletes(s1, 0);
  }

  // The task is a poll.

  /** A poll is stored, and a non-awaitable request submitted. */
  function PollStored(): State {
    Init(4, true).(coros := [NewCoro(Kill), Poller(0)], polling := true, pollHandle := Some(1), slots := 1,
                   pool := [AskedNa()], kernel := multiset{Data(0)}, inFlight := 1)
  }

  function PollStarts(): State {
    Init(4, true).(coros := [NewCoro(Kill), NewCoro(Poll).(status := Running)], stack := [Registering(1), Run(1)])
  }

  lemma PollStartsReachable()
    ensures Reachable(PollStarts())
  {
    ReachableInit(4, true);
    var s1 := Init(4, true).(coros := [NewCoro(Kill), NewCoro(Poll)]);
    Step(Init(4, true), Call(Create(Poll)), s1);
    Step(s1, Call(Register(1)), PollStarts());
  }

  function PollParks(): State {
    Init(4, true).(coros := [NewCoro(Kill), Poller(0).(slot := None)], polling := true, pollHandle := Some(1),
                   stack := [Registering(1)])
  }

  lemma PollParksReachable()
    ensures Reachable(PollParks())
  {
    PollStartsReachable();
    assert DoPollBegin(PollStarts(), 1).coros == PollParks().coros;
    Step(PollStarts(), Library(PollBegin(1)), PollParks());
  }

  lemma PollStoredReachable()
    ensures Reachable(PollStored())
  {
    PollParksReachable();
    var s1 := DoStoreInsert(PollParks(), 1, 0);
    Step(PollParks(), Unwind(StoreInsert(1, 0)), s1);
    assert s1.coros == PollStored().coros;
    var s2 := Submits1(s1);
    assert s2 == PollStored();
  }

  /** The request completes and is stored as ready. */
  lemma ReadyArises(s: State) returns (t: State)
    requires Arises(s) && s.stack == [] && s.pc.Wait? && s.life.Living? && s.cq == [] && s.ready == []
    requires Data(0) in s.kernel && |s.pool| > 0 && s.pool[0] == AskedNa() && |s.coros| > 0
    ensures Arises(t)
    ensures t == s.(kernel := s.kernel - multiset{Data(0)}, ready := [0], arrived := s.arrived + [0],
                    inFlight := Decrement(s.inFlight), pc := Top)
  {
    var s1 := ArisesCompletes(s, 0);
    var s2 := s1.(ready := [0], arrived := s.arrived + [0], pc := Handled);
    AnyStep(s1, Loop(WaitCqe), s2);
    t := s2.(cq := [], inFlight := Decrement(s.inFlight), pc := Top);
    AnyStep(s2, Loop(Seen(false)), t);
  }

  /** The loop hands the request to the poller, which has been destroyed. */
  lemma DestroyedPollerIsResumed() returns (t: State)
    ensures Arises(t) && CanLoopTop(t) && IsDestroyed(t, 1) && OnTop(DoLoopTop(t), Run(1))
  {
    PollStoredReachable();
    var s1 := LoopWaitsArises(PollStored(), 1);
    assert s1.pool[0] == AskedNa();
    t := ReadyArises(s1);
  }

  // The task awaits a child.

  lemma ChildSurvives(t: State)
    requires LoopWaits(ParentFirst(), t)
    ensures |t.coros| > 2 && t.coros[2] == Child(1) && |t.pool| > 0 && t.pool[0] == Asked(2, 0) && Data(0) in t.kernel
  {
    assert t.coros[2] == t.coros[..3][2];
    assert AssignedOver(ParentFirst(), 0).coros[2] == Child(1);
    assert ParentFirst().pool[0] == t.pool[0];
  }

  /** The child has been resumed and returns, and resumes its awaiter, which has been destroyed. */
  lemma DestroyedParentIsResumed() returns (t: State)
    ensures Arises(t) && CanCoReturn(t, 2) && IsDestroyed(t, 1) && OnTop(Return(t, 2, 0), Run(1))
  {
    ParentFirstReachable();
    var s1 := LoopWaitsArises(ParentFirst(), 1);
    ChildSurvives(s1);
    t := ChildRuns(s1);
  }

  lemma ChildRuns(s: State) returns (t: State)
    requires Arises(s) && s.stack == [] && s.pc.Wait? && s.cq == [] && |s.coros| > 2 && s.coros[2] == Child(1)
    requires |s.pool| > 0 && s.pool[0] == Asked(2, 0) && Data(0) in s.kernel
    ensures Arises(t) && t == Delivered(s, 0, 2)
  {
    var s1 := ArisesCompletes(s, 0);
    t := Delivered(s, 0, 2);
    AnyStep(s1, Loop(WaitCqe), t);
  }
}
