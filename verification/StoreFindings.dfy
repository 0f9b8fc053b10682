/** Runs in which the store comes across tasks that have finished. */
module StoreFindings {
  import opened Option
  import opened Requests
  import opened Machine
  import opened Invariant
  import opened Storing
  import opened Findings

  // A task that returns while it is being registered.

  function ReturnedAtOnce(): State {
    Init(4, true).(coros := [NewCoro(Kill), NewCoro(User).(status := Finished)], stack := [Registering(1)])
  }

  /** It is inserted although it has finished, and its promise is gone. */
  lemma FinishedTaskIsInserted(full: bool)
    ensures Reachable(ReturnedAtOnce()) && CanStoreInsert(ReturnedAtOnce(), 1, 0)
    ensures !InsertDefined(ReturnedAtOnce(), 1, 0, full)
  {
    ReachableInit(4, true);
    var s1 := Began(Init(4, true));
    assert s1.stack == [Registering(1)] + [Run(1)];
    var s2 := Finishes(s1, [Registering(1)], 1);
    assert s2 == ReturnedAtOnce();
  }

  function FinishedStored(): State {
    Init(4, true).(coros := [NewCoro(Kill), NewCoro(User).(status := Finished, slot := Some(0))], slots := 1)
  }

  lemma FinishedStoredReachable()
    ensures Reachable(FinishedStored())
  {
    FinishedTaskIsInserted(false);
    var t := DoStoreInsert(ReturnedAtOnce(), 1, 0);
    Step(ReturnedAtOnce(), Unwind(StoreInsert(1, 0)), t);
    assert t.coros == FinishedStored().coros;
    assert t == FinishedStored();
  }

  /** The next task has been started, and is to be inserted. */
  function NextStarted(): State {
    FinishedStored().(coros := FinishedStored().coros + [NewCoro(User).(status := Parked(OnIo(Io())))],
                      pool := [Asked(2, 0)], kernel := multiset{Data(0)}, inFlight := 1, stack := [Registering(2)])
  }

  /** The vector grows when it is full, and so moves the task that finished. */
  lemma FinishedTaskIsRelocated()
    ensures Reachable(NextStarted()) && CanStoreInsert(NextStarted(), 2, 1)
    ensures 0 in Unfreed(NextStarted()) && !InsertDefined(NextStarted(), 2, 1, true)
  {
    FinishedStoredReachable();
    Begins(FinishedStored());
    assert Asking(FinishedStored()) == NextStarted();
    FinishedInTheWay();
  }

  lemma FinishedInTheWay()
    ensures CanStoreInsert(NextStarted(), 2, 1)
    ensures 0 in Unfreed(NextStarted()) && !InsertDefined(NextStarted(), 2, 1, true)
  {
    assert Overwritable(NextStarted(), 0);
  }

  // A stored task that finishes inside its child's `final_suspend`.

  /** The second stored task awaits a child that it has made itself. */
  function ChildWaits(): State {
    OneStored().(coros := [NewCoro(Kill), Suspended(0), Parent(3, 1), Child(2)], pool := [Asked(1, 0), Asked(3, 0)],
                 kernel := multiset{Data(0), Data(1)}, inFlight := 2, slots := 2, life := Living, pc := Wait)
  }

  lemma ChildWaitsReachable()
    ensures Reachable(ChildWaits())
  {
    OneStoredReachable();
    var s2 := ParentStored(OneStored());
    var s3 := Starts(s2);
    assert s3 == ChildWaits();
  }

  function ChildRuns(): State {
    ChildWaits().(coros := [NewCoro(Kill), Suspended(0), Parent(3, 1),
                            Child(2).(status := Running, channel := ClosePack(0, 3))],
                  kernel := multiset{Data(0)}, cq := [Data(1)], stack := [Run(3)], pc := Handled)
  }

  lemma ChildRunsReachable()
    ensures Reachable(ChildRuns())
  {
    ChildWaitsReachable();
    var s1 := Completed(ChildWaits(), 1, 3);
    assert s1 == ChildRuns();
  }

  /** It has returned, and its `final_suspend` has resumed the parent. */
  function ParentRuns(): State {
    ChildRuns().(coros := [NewCoro(Kill), Suspended(0), Parent(3, 1).(status := Running, got := Some(0)),
                           Child(2).(status := Returning, channel := ClosePack(0, 3))],
                 stack := [FinalSuspend(3)] + [Run(2)])
  }

  lemma ParentRunsReachable()
    ensures Reachable(ParentRuns())
  {
    ChildRunsReachable();
    ParentResumed();
    Step(ChildRuns(), Call(CoReturn(3, 0)), ParentRuns());
  }

  lemma ParentResumed()
    ensures CanCoReturn(ChildRuns(), 3) && Return(ChildRuns(), 3, 0) == ParentRuns()
  {
    var t := Return(ChildRuns(), 3, 0);
    assert ChildRuns().coros[3].awaiter == Some(2);
    assert t.stack == [FinalSuspend(3)] + [Run(2)];
    assert t.coros == ParentRuns().coros;
  }

  /** The parent returns, and with its frame goes the child's task: the handling ends without
      the child being seen to be done, and nobody will ever free the parent's slot. */
  function ParentFinished(): State {
    ChildRuns().(coros := [NewCoro(Kill), Suspended(0), Parent(3, 1).(status := Finished, got := Some(0)),
                           Child(2).(status := Finished, channel := ClosePack(0, 3))],
                 stack := [], cq := [], inFlight := 1, pc := Top)
  }

  lemma ParentReturned() returns (t: State)
    ensures Reachable(t) && t == ParentFinished().(cq := [Data(1)], inFlight := 2, pc := Handled)
  {
    ParentRunsReachable();
    var s1 := Finishes(ParentRuns(), [FinalSuspend(3)], 2);
    t := ParentFinished().(cq := [Data(1)], inFlight := 2, pc := Handled);
    Step(s1, Unwind(FinalSuspendReturns(3)), t);
  }

  lemma ParentFinishedReachable()
    ensures Reachable(ParentFinished()) && 1 in Unfreed(ParentFinished())
  {
    var s1 := ParentReturned();
    var s2 := Handles(s1, 1, false);
    assert s2 == ParentFinished();
    assert Overwritable(ParentFinished(), 1);
  }

  /** The first task runs again. */
  function FirstRuns(): State {
    ParentFinished().(coros := ParentFinished().coros[1 := Again(0)], kernel := multiset{},
                      cq := [Data(0)], stack := [Run(1)], pc := Handled)
  }

  lemma FirstRunsReachable()
    ensures Reachable(FirstRuns())
  {
    ParentFinishedReachable();
    var s1 := LoopsOn(ParentFinished());
    var s2 := Completed(s1, 0, 1);
    assert s2 == FirstRuns();
  }

  /** It has started another task, which is to be inserted. */
  function AnotherStarted(): State {
    FirstRuns().(coros := FirstRuns().coros + [NewCoro(User).(status := Parked(OnIo(Io())))],
                 pool := [Asked(1, 0), Asked(3, 0), Asked(4, 0)], kernel := multiset{Data(2)}, inFlight := 2,
                 stack := [Run(1), Registering(4)])
  }

  /** The vector grows when it is full, and so moves the parent, long finished. */
  lemma ParentIsRelocated()
    ensures Reachable(AnotherStarted()) && CanStoreInsert(AnotherStarted(), 4, 2)
    ensures 1 in Unfreed(AnotherStarted()) && !InsertDefined(AnotherStarted(), 4, 2, true)
  {
    FirstRunsReachable();
    Begins(FirstRuns());
    assert Asking(FirstRuns()) == AnotherStarted();
    ParentInTheWay();
  }

  lemma ParentInTheWay()
    ensures CanStoreInsert(AnotherStarted(), 4, 2)
    ensures 1 in Unfreed(AnotherStarted()) && !InsertDefined(AnotherStarted(), 4, 2, true)
  {
    assert Overwritable(AnotherStarted(), 1);
  }
}
