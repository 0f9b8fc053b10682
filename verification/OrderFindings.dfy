/** Runs in which an awaiter, a poller or the main program waits in vain. */
module OrderFindings {
  import opened Option
  import opened Requests
  import opened Machine
  import opened Scheduling
  import opened Invariant
  import opened Awaiting
  import opened KillProtocol
  import opened Findings

  // A second await.

  /** A second coroutine is about to be recorded as awaiting the child of the first. */
  function SecondAwaits(): State {
    Init(4, true).(coros := [NewCoro(Kill), Parent(2, 0), Child(1), NewCoro(User).(status := Parked(OnTask(2)))],
                   pool := [Asked(2, 0)], kernel := multiset{Data(0)}, inFlight := 1, slots := 1,
                   stack := [Registering(3), AwaitSuspend(3, 2)])
  }

  lemma SecondAwaitsReachable()
    ensures Reachable(SecondAwaits())
  {
    ParentFirstReachable();
    var s1 := Began(ParentFirst());
    Step(s1, Call(AwaitTask(3, 2)), SecondAwaits());
  }

  /** It has been recorded, in place of the first. */
  function SecondRecorded(): State {
    SecondAwaits().(coros := [NewCoro(Kill), Parent(2, 0), Child(3), NewCoro(User).(status := Parked(OnTask(2)))],
                    stack := [Registering(3)])
  }

  lemma SecondIsRecorded()
    ensures CanAwaitSuspendReturn(SecondAwaits(), 3, 2)
    ensures DoAwaitSuspendReturn(SecondAwaits(), 3, 2) == SecondRecorded()
  {
    assert DoAwaitSuspendReturn(SecondAwaits(), 3, 2).coros == SecondRecorded().coros;
  }

  /** The first awaiter is attached to the child, the step detaches it, and it then waits in
      every continuation. */
  lemma AwaiterIsDisplaced(ms: seq<Move>)
    requires Legal(SecondRecorded(), ms)
    ensures Reachable(SecondAwaits()) && Waits(SecondAwaits().coros, 1, 2) && Attached(SecondAwaits(), 1, 2)
    ensures Sparing(SecondAwaits(), Unwind(AwaitSuspendReturns(3, 2)))
    ensures Apply(SecondAwaits(), Unwind(AwaitSuspendReturns(3, 2))) == SecondRecorded()
    ensures Detaches(SecondAwaits(), Unwind(AwaitSuspendReturns(3, 2)), 1, 2) && !Attached(SecondRecorded(), 1, 2)
    ensures StillWaits(Exec(SecondRecorded(), ms), 1, 2)
  {
    SecondAwaitsReachable();
    SecondIsRecorded();
    Step(SecondAwaits(), Unwind(AwaitSuspendReturns(3, 2)), SecondRecorded());
    ReachableInv(SecondRecorded());
    DisplacedAwaiterIsLost(SecondRecorded(), ms, 1, 2);
  }

  // The ready store.

  /** A non-awaitable request completes while nobody polls, and the loop waits on. */
  lemma Arrives(s: State, id: nat) returns (t: State)
    requires Reachable(s) && s.stack == [] && s.pc.Wait? && s.life.Living? && s.cq == [] && Data(id) in s.kernel
    requires id < |s.pool| && s.pool[id] == AskedNa() && s.pollHandle.None? && |s.coros| > 0
    ensures Reachable(t)
    ensures t == s.(kernel := s.kernel - multiset{Data(id)}, ready := s.ready + [id], arrived := s.arrived + [id],
                    inFlight := Decrement(s.inFlight))
  {
    var s1 := Completes(s, id);
    var s2 := s1.(ready := s.ready + [id], arrived := s.arrived + [id], pc := Handled);
    Step(s1, Loop(WaitCqe), s2);
    t := Waits1(s2, id);
  }

  lemma Waits1(s: State, id: nat) returns (t: State)
    requires Reachable(s) && s.stack == [] && s.pc.Handled? && s.life.Living? && s.cq == [Data(id)] && |s.coros| > 0
    requires id < |s.pool| && s.pool[id].handle.None? && s.pollHandle.None?
    requires s.ready != [] && s.ready[|s.ready| - 1] == id
    ensures Reachable(t) && t == s.(cq := [], inFlight := Decrement(s.inFlight), pc := Wait)
  {
    var s1 := s.(cq := [], inFlight := Decrement(s.inFlight), pc := Top);
    Step(s, Loop(Seen(false)), s1);
    t := LoopsOn(s1);
  }

  /** Two such requests and a task's are in flight. */
  function Asking(): State {
    Init(4, true).(coros := [NewCoro(Kill), Suspended(0)], pool := [AskedNa(), AskedNa(), Asked(1, 0)],
                   kernel := multiset{Data(0), Data(1), Data(2)}, inFlight := 3, slots := 1, life := Living, pc := Wait)
  }

  function BothAsked(): State {
    Init(4, true).(pool := [AskedNa(), AskedNa()], kernel := multiset{Data(0), Data(1)}, inFlight := 2)
  }

  lemma BothAskedReachable()
    ensures Reachable(BothAsked())
  {
    ReachableInit(4, true);
    var s1 := Submits1(Init(4, true));
    var s2 := Submits1(s1);
    assert s2 == BothAsked();
  }

  lemma AskingReachable()
    ensures Reachable(Asking())
  {
    BothAskedReachable();
    var s1 := Registered(BothAsked());
    var s2 := Starts(s1);
    assert s2 == Asking();
  }

  function OneReady(): State {
    Asking().(kernel := multiset{Data(1), Data(2)}, inFlight := 2, ready := [0], arrived := [0])
  }

  lemma OneReadyReachable()
    ensures Reachable(OneReady())
  {
    AskingReachable();
    var s1 := Arrives(Asking(), 0);
    assert s1 == OneReady();
  }

  /** Both have completed, and the task runs. */
  function BothReady(): State {
    Asking().(coros := [NewCoro(Kill), Again(0)], kernel := multiset{}, cq := [Data(2)], inFlight := 1,
              ready := [0, 1], arrived := [0, 1], stack := [Run(1)], pc := Handled)
  }

  function BothArrived(): State {
    Asking().(kernel := multiset{Data(2)}, inFlight := 1, ready := [0, 1], arrived := [0, 1])
  }

  lemma BothArrivedReachable()
    ensures Reachable(BothArrived())
  {
    OneReadyReachable();
    var s1 := Arrives(OneReady(), 1);
    assert s1 == BothArrived();
  }

  lemma BothReadyReachable()
    ensures Reachable(BothReady())
  {
    BothArrivedReachable();
    var s2 := Completed(BothArrived(), 2, 1);
    assert s2 == BothReady();
  }

  /** The task starts a poll, */
  function PollStarted(): State {
    BothReady().(coros := [NewCoro(Kill), Again(0), NewCoro(Poll).(status := Running)],
                 stack := [Run(1), Registering(2), Run(2)])
  }

  function PollMade(): State { BothReady().(coros := [NewCoro(Kill), Again(0), NewCoro(Poll)]) }

  lemma PollMadeReachable()
    ensures Reachable(PollMade())
  {
    BothReadyReachable();
    Step(BothReady(), Call(Create(Poll)), PollMade());
  }

  lemma PollStartedReachable()
    ensures Reachable(PollStarted())
  {
    PollMadeReachable();
    Step(PollMade(), Call(Register(2)), PollStarted());
  }

  /** which parks, and is stored. */
  function PollParked(): State {
    BothReady().(coros := [NewCoro(Kill), Again(0), Poller(1)], polling := true, pollHandle := Some(2), slots := 2,
                 stack := [] + [Run(1)])
  }

  lemma PollParkedReachable()
    ensures Reachable(PollParked())
  {
    PollBegunReachable();
    var t := DoStoreInsert(PollBegun(), 2, 1);
    assert t.coros == PollParked().coros;
    assert t.stack == [Run(1)];
    assert t == PollParked();
    Step(PollBegun(), Unwind(StoreInsert(2, 1)), PollParked());
  }

  function PollBegun(): State {
    PollParked().(coros := [NewCoro(Kill), Again(0), Poller(1).(metadata := 0, slot := None)], slots := 1,
                  stack := [Run(1), Registering(2)])
  }

  lemma PollBegunReachable()
    ensures Reachable(PollBegun())
  {
    PollStartedReachable();
    PollBegins();
    Step(PollStarted(), Library(PollBegin(2)), PollBegun());
  }

  lemma PollBegins()
    ensures CanPollBegin(PollStarted(), 2) && DoPollBegin(PollStarted(), 2) == PollBegun()
  {
    assert DoPollBegin(PollStarted(), 2).coros == PollBegun().coros;
  }

  /** The task has returned; the poller is parked with two requests ready at a loop head. */
  function TwoReady(): State {
    PollParked().(coros := [NewCoro(Kill), Again(0).(status := Finished), Poller(1)], cq := [], inFlight := 0,
                  freeSlots := {0}, stack := [], pc := Top)
  }

  lemma TwoReadyReachable()
    ensures Reachable(TwoReady())
  {
    PollParkedReachable();
    var s1 := Finishes(PollParked(), [], 1);
    var s2 := Handles(s1, 2, true);
    assert s2 == TwoReady();
  }

  /** It is handed the one that came last. */
  lemma NewestIsPolledFirst()
    ensures Reachable(TwoReady()) && CanLoopTop(TwoReady()) && |TwoReady().ready| == 2
    ensures TwoReady().arrived == [0, 1] && DoLoopTop(TwoReady()).polled == [1]
  {
    TwoReadyReachable();
  }

  /** The poller has handled it, parked again, and the loop waits. */
  function StuckPolling(): State {
    TwoReady().(coros := [NewCoro(Kill), Again(0).(status := Finished), Poller(1).(channel := ClosePack(0, 3))],
                pool := [AskedNa(), AskedNa().(handle := Some(2)), Asked(1, 0)],
                ready := [0], polled := [1], freed := {1}, pc := Wait)
  }

  function PollHands(): State {
    TwoReady().(coros := [NewCoro(Kill), Again(0).(status := Finished),
                          Poller(1).(status := Running, channel := ClosePack(0, 3))],
                pool := [AskedNa(), AskedNa().(handle := Some(2)), Asked(1, 0)],
                ready := [0], polled := [1], pollHandle := None, stack := [Run(2)], pc := Polled(1))
  }

  lemma PollHandsReachable()
    ensures Reachable(PollHands())
  {
    TwoReadyReachable();
    HandsOver();
    Step(TwoReady(), Loop(LoopTop), PollHands());
  }

  lemma HandsOver()
    ensures CanLoopTop(TwoReady()) && DoLoopTop(TwoReady()) == PollHands()
  {
    assert Dispatched(TwoReady()).pool == PollHands().pool;
    assert DoLoopTop(TwoReady()).coros == PollHands().coros;
  }

  lemma PollParksAgain()
    ensures Reachable(StuckPolling().(freed := {}, pc := Polled(1)))
  {
    PollHandsReachable();
    Step(PollHands(), Library(PollHandled(2, true)), StuckPolling().(freed := {}, pc := Polled(1)));
  }

  lemma StuckPollingReachable()
    ensures Reachable(StuckPolling())
  {
    PollParksAgain();
    Step(StuckPolling().(freed := {}, pc := Polled(1)), Loop(PolledDone(false)), StuckPolling());
  }

  /** The poller is parked, a request is ready for it, and nothing can happen any more. */
  lemma PollingBlocks()
    ensures Reachable(StuckPolling()) && StuckPolling().ready == [0]
    ensures PollerParked(StuckPolling().coros, 2) && StuckPolling().pollHandle == Some(2)
    ensures forall m :: !Enabled(StuckPolling(), m)
  {
    StuckPollingReachable();
    BlockedExactlyWhenIdle(StuckPolling());
  }

  // A kill before `start`.

  /** A coroutine registered before `start` has just begun to await the kill task. */
  function AwaitsKill(): State {
    Init(4, true).(coros := [NewCoro(Kill).(status := Running), NewCoro(User).(status := Parked(OnTask(KILL)))],
                   stack := [Registering(1), AwaitSuspend(1, KILL), Run(KILL)])
  }

  lemma AwaitsKillReachable()
    ensures Reachable(AwaitsKill())
  {
    ReachableInit(4, true);
    var s1 := Began(Init(4, true));
    Step(s1, Call(AwaitTask(1, KILL)), AwaitsKill());
  }

  /** The kill has begun: its cancel request is in flight. */
  function KillBegun(): State {
    AwaitsKill().(coros := [NewCoro(Kill).(begun := true, status := Parked(OnKill)),
                            NewCoro(User).(status := Parked(OnTask(KILL)))],
                  life := Dying, kernel := multiset{Cancel}, inFlight := 1,
                  stack := [Registering(1), AwaitSuspend(1, KILL)])
  }

  lemma KillBegins()
    ensures CanKillBegin(AwaitsKill()) && DoKillBegin(AwaitsKill()) == KillBegun()
  {
    var t := DoKillBegin(AwaitsKill());
    assert t.coros == KillBegun().coros;
    assert t.stack == KillBegun().stack;
    assert KillSubmitted(AwaitsKill()).kernel == multiset{} + multiset([]) + multiset([] + [Cancel]);
    assert [] + [Cancel] == [Cancel];
  }

  /** The manager is then dying outside its loop: nobody will see the cancel request complete,
      and it stays so in every continuation. */
  lemma KilledBeforeStart(ms: seq<Move>)
    requires Legal(KillBegun(), ms)
    ensures Reachable(KillBegun()) && KillBegun().life.Dying? && KillBegun().pc.Outside?
    ensures Exec(KillBegun(), ms).life.Dying? && Exec(KillBegun(), ms).pc.Outside?
  {
    AwaitsKillReachable();
    KillBegins();
    Step(AwaitsKill(), Library(KillBegin), KillBegun());
    KilledOutsideNeverDies(KillBegun(), ms);
  }
}
