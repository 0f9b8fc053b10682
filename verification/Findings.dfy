/** Stretches of runs that the modules of findings are put together from. */
module Findings {
  import opened Option
  import opened Requests
  import opened Machine
  import opened Invariant

  function Io(): Params { CloseParams(3) }

  function Asked(c: nat, index: nat): RequestData { RequestRecord(Some(c), index, Close, false, Io(), 0) }

  /** A task stored in a slot, suspended on an operation. */
  function Suspended(slot: nat): Coro {
    NewCoro(User).(status := Parked(OnIo(Io())), metadata := slot, slot := Some(slot))
  }

  /** Such a task resumed. */
  function Again(slot: nat): Coro { Suspended(slot).(status := Running, channel := ClosePack(0, 3)) }

  // One step at a time.

  lemma Step(s: State, m: Move, t: State)
    requires Reachable(s) && Sparing(s, m) && Apply(s, m) == t
    ensures Reachable(t)
  {
    ReachableStep(s, m);
  }

  lemma AnyStep(s: State, m: Move, t: State)
    requires Arises(s) && Enabled(s, m) && Apply(s, m) == t
    ensures Arises(t)
  {
    ArisesStep(s, m);
  }

  /** A task has been made and its registration begun, which starts it. */
  function Begun(s: State): State {
    s.(coros := s.coros + [NewCoro(User).(status := Running)],
       stack := s.stack + [Registering(|s.coros|), Run(|s.coros|)])
  }

  lemma Began(s: State) returns (t: State)
    requires Reachable(s) && CallerRuns(s) && |s.coros| > 0 && Registering(|s.coros|) !in s.stack
    ensures Reachable(t) && t == Begun(s)
  {
    var c := |s.coros|;
    var s1 := s.(coros := s.coros + [NewCoro(User)]);
    Step(s, Call(Create(User)), s1);
    t := Begun(s);
    assert t.stack == (s.stack + [Registering(c)]) + [Run(c)];
    Step(s1, Call(Register(c)), t);
  }

  /** It asks for an operation while it is being started. */
  lemma AsksFirst(s: State, base: seq<Frame>, c: nat) returns (t: State)
    requires Reachable(s) && SqeAvailable(s) && s.sq == [] && c < |s.coros|
    requires s.stack == base + [Run(c)] && s.coros[c].body.User?
    ensures Reachable(t)
    ensures t == s.(coros := s.coros[c := s.coros[c].(status := Parked(OnIo(Io())))], stack := base,
                    pool := s.pool + [Asked(c, s.coros[c].metadata)], kernel := s.kernel + multiset{Data(|s.pool|)},
                    inFlight := s.inFlight + 1)
  {
    t := DoAwaitIo(s, c, Io());
    Step(s, Call(AwaitIo(c, Io())), t);
  }

  /** A new task has been started by its registration, and has asked for an operation. */
  function Asking(s: State): State {
    s.(coros := s.coros + [NewCoro(User).(status := Parked(OnIo(Io())))], pool := s.pool + [Asked(|s.coros|, 0)],
       kernel := s.kernel + multiset{Data(|s.pool|)}, inFlight := s.inFlight + 1,
       stack := s.stack + [Registering(|s.coros|)])
  }

  lemma Begins(s: State)
    requires Reachable(s) && CallerRuns(s) && SqeAvailable(s) && s.sq == []
    requires |s.coros| > 0 && Registering(|s.coros|) !in s.stack
    ensures Reachable(Asking(s))
  {
    var s1 := Began(s);
    BegunAsks(s);
    Step(s1, Call(AwaitIo(|s.coros|, Io())), Asking(s));
  }

  lemma BegunAsks(s: State)
    requires SqeAvailable(s) && s.sq == []
    ensures CanAwaitIo(Begun(s), |s.coros|) && DoAwaitIo(Begun(s), |s.coros|, Io()) == Asking(s)
  {
    var t := DoAwaitIo(Begun(s), |s.coros|, Io());
    assert t.stack == Asking(s).stack;
    assert t.coros == Asking(s).coros;
    assert t.pool == Asking(s).pool;
    assert t.kernel == Asking(s).kernel;
  }

  /** A new task is in the next slot, suspended on an operation. */
  function WithTask(s: State): State {
    s.(coros := s.coros + [Suspended(s.slots)], pool := s.pool + [Asked(|s.coros|, 0)],
       kernel := s.kernel + multiset{Data(|s.pool|)}, inFlight := s.inFlight + 1, slots := s.slots + 1)
  }

  lemma Registered(s: State) returns (t: State)
    requires Reachable(s) && s.stack == [] && s.pc.Outside? && s.life.NotStarted? && s.sq == [] && s.capacity > 0
    requires s.freeSlots == {} && |s.coros| > 0
    ensures Reachable(t) && t == WithTask(s)
  {
    var c := |s.coros|;
    Begins(s);
    t := DoStoreInsert(Asking(s), c, s.slots);
    Step(Asking(s), Unwind(StoreInsert(c, s.slots)), t);
    assert t.coros == s.coros + [Suspended(s.slots)];
  }

  /** A request has completed, and its coroutine has been resumed with the response. */
  function Delivered(s: State, id: nat, c: nat): State
    requires c < |s.coros|
  {
    s.(kernel := s.kernel - multiset{Data(id)}, cq := [Data(id)], stack := [Run(c)], pc := Handled,
       coros := s.coros[c := s.coros[c].(status := Running, channel := ClosePack(0, 3))])
  }

  lemma Completed(s: State, id: nat, c: nat) returns (t: State)
    requires Reachable(s) && s.stack == [] && s.pc.Wait? && s.cq == [] && Data(id) in s.kernel
    requires id < |s.pool| && s.pool[id] == Asked(c, s.pool[id].coroIdx) && c < |s.coros| && s.coros[c].body.User?
    ensures Reachable(t) && t == Delivered(s, id, c)
  {
    var s1 := Completes(s, id);
    t := Delivered(s, id, c);
    Step(s1, Loop(WaitCqe), t);
  }

  lemma Completes(s: State, id: nat) returns (t: State)
    requires Reachable(s) && s.cq == [] && Data(id) in s.kernel && id < |s.pool| && s.pool[id].res == 0
    ensures Reachable(t) && t == s.(kernel := s.kernel - multiset{Data(id)}, cq := [Data(id)])
  {
    t := s.(kernel := s.kernel - multiset{Data(id)}, cq := [Data(id)]);
    assert s.pool[id := s.pool[id].(res := 0)] == s.pool;
    Step(s, Kernel(Data(id), 0), t);
  }

  /** A coroutine that nobody awaits has returned. */
  function Ended(s: State, base: seq<Frame>, c: nat): State
    requires c < |s.coros|
  {
    s.(coros := s.coros[c := s.coros[c].(status := Finished, ret := 0)], stack := base)
  }

  function Ending(s: State, base: seq<Frame>, c: nat): State
    requires c < |s.coros|
  {
    s.(coros := s.coros[c := s.coros[c].(status := Returning, ret := 0)], stack := base + [FinalSuspend(c)])
  }

  lemma EndsHere(s: State, base: seq<Frame>, c: nat)
    requires c < |s.coros| && s.stack == base + [Run(c)] && s.coros[c].body.User? && s.coros[c].awaiter.None?
    ensures CanCoReturn(s, c) && Return(s, c, 0) == Ending(s, base, c)
    ensures CanFinalSuspendReturn(Ending(s, base, c), c)
    ensures DoFinalSuspendReturn(Ending(s, base, c), c) == Ended(s, base, c)
  {
  }

  lemma Finishes(s: State, base: seq<Frame>, c: nat) returns (t: State)
    requires Reachable(s) && c < |s.coros| && s.stack == base + [Run(c)]
    requires s.coros[c].body.User? && s.coros[c].awaiter.None?
    ensures Reachable(t) && t == Ended(s, base, c)
  {
    EndsHere(s, base, c);
    Step(s, Call(CoReturn(c, 0)), Ending(s, base, c));
    t := Ended(s, base, c);
    Step(Ending(s, base, c), Unwind(FinalSuspendReturns(c)), t);
  }

  /** The handling of a completion has ended, and the loop is at its head. */
  function HandlingEnded(s: State, id: nat, done: bool): State
    requires id < |s.pool|
  {
    s.(cq := [], inFlight := Decrement(s.inFlight), pc := Top,
       freeSlots := if done then s.freeSlots + {s.pool[id].coroIdx} else s.freeSlots)
  }

  lemma Handles(s: State, id: nat, done: bool) returns (t: State)
    requires Reachable(s) && s.stack == [] && s.pc.Handled? && s.cq == [Data(id)] && s.life.Living? && |s.coros| > 0
    requires id < |s.pool| && s.pool[id].handle.Some? && !s.pool[id].dynamic && DoneObserved(s, id, done)
    ensures Reachable(t) && t == HandlingEnded(s, id, done)
  {
    t := DoSeen(s, done);
    Step(s, Loop(Seen(done)), t);
  }

  lemma LoopsOn(s: State) returns (t: State)
    requires Reachable(s) && s.stack == [] && s.pc.Top? && s.life.Living?
    requires CanLoopTop(s) && (s.ready == [] || s.pollHandle.None?)
    ensures Reachable(t) && t == s.(pc := Wait)
  {
    t := s.(pc := Wait);
    Step(s, Loop(LoopTop), t);
  }

  lemma Starts(s: State) returns (t: State)
    requires Reachable(s) && s.stack == [] && s.pc.Outside? && s.life.NotStarted? && s.ready == []
    requires s.pollHandle.Some? ==> s.pollHandle.value < |s.coros|
    ensures Reachable(t) && t == s.(life := Living, pc := Wait)
  {
    Step(s, Loop(Start), s.(life := Living, pc := Top));
    t := LoopsOn(s.(life := Living, pc := Top));
  }

  /** A task p in the slot that comes next awaits its child c, which is suspended on an operation. */
  function Parent(c: nat, slot: nat): Coro {
    NewCoro(User).(status := Parked(OnTask(c)), metadata := slot, slot := Some(slot))
  }

  function Child(p: nat): Coro { NewCoro(User).(status := Parked(OnIo(Io())), awaiter := Some(p)) }

  lemma ChildMade(s: State) returns (t: State)
    requires Reachable(s) && s.stack == [] && s.pc.Outside? && |s.coros| > 0
    ensures Reachable(t)
    ensures t == s.(coros := s.coros + [NewCoro(User).(status := Running), NewCoro(User)],
                    stack := [Registering(|s.coros|), Run(|s.coros|)])
  {
    var s1 := Began(s);
    t := s1.(coros := s1.coros + [NewCoro(User)]);
    Step(s1, Call(Create(User)), t);
    assert t.coros == s.coros + [NewCoro(User).(status := Running), NewCoro(User)];
  }

  /** The parent has been started by its registration, and starts its child. */
  lemma ChildBegan(s: State) returns (t: State)
    requires Reachable(s) && s.stack == [] && s.pc.Outside? && |s.coros| > 0
    ensures Reachable(t)
    ensures var p, c := |s.coros|, |s.coros| + 1;
      t == s.(coros := s.coros + [NewCoro(User).(status := Parked(OnTask(c))), NewCoro(User).(status := Running)],
              stack := [Registering(p), AwaitSuspend(p, c), Run(c)])
  {
    var p, c := |s.coros|, |s.coros| + 1;
    var s1 := ChildMade(s);
    ChildStarts(s1, p, c);
    t := DoAwaitTask(s1, p, c);
    assert t.coros == s.coros + [NewCoro(User).(status := Parked(OnTask(c))), NewCoro(User).(status := Running)];
    Step(s1, Call(AwaitTask(p, c)), t);
  }

  lemma ChildStarts(s: State, p: nat, c: nat)
    requires p < c < |s.coros| && s.stack == [Registering(p), Run(p)]
    requires s.coros[p].body.User? && s.coros[c] == NewCoro(User)
    ensures CanAwaitTask(s, p, c)
    ensures DoAwaitTask(s, p, c) ==
      s.(coros := s.coros[p := s.coros[p].(status := Parked(OnTask(c)))][c := NewCoro(User).(status := Running)],
         stack := [Registering(p), AwaitSuspend(p, c), Run(c)])
  {
  }

  /** The child has asked, the parent is recorded as its awaiter, and stored. */
  lemma ParentStored(s: State) returns (t: State)
    requires Reachable(s) && s.stack == [] && s.pc.Outside? && s.life.NotStarted? && s.sq == [] && s.capacity > 0
    requires s.freeSlots == {} && |s.coros| > 0
    ensures Reachable(t)
    ensures var p, c := |s.coros|, |s.coros| + 1;
      t == s.(coros := s.coros + [Parent(c, s.slots), Child(p)], pool := s.pool + [Asked(c, 0)],
              kernel := s.kernel + multiset{Data(|s.pool|)}, inFlight := s.inFlight + 1, slots := s.slots + 1)
  {
    var p, c := |s.coros|, |s.coros| + 1;
    var s1 := ChildBegan(s);
    assert s1.stack == [Registering(p), AwaitSuspend(p, c)] + [Run(c)];
    var s2 := AsksFirst(s1, [Registering(p), AwaitSuspend(p, c)], c);
    t := ChildAwaited(s, s2);
  }

  lemma ChildAwaited(s: State, s2: State) returns (t: State)
    requires Reachable(s2) && s.freeSlots == {} && s2.freeSlots == {} && s.stack == []
    requires var p, c := |s.coros|, |s.coros| + 1;
      s2 == s.(coros := s.coros + [NewCoro(User).(status := Parked(OnTask(c))),
                                   NewCoro(User).(status := Parked(OnIo(Io())))],
               pool := s.pool + [Asked(c, 0)], kernel := s.kernel + multiset{Data(|s.pool|)},
               inFlight := s.inFlight + 1, stack := [Registering(p), AwaitSuspend(p, c)])
    ensures Reachable(t)
    ensures var p, c := |s.coros|, |s.coros| + 1;
      t == s.(coros := s.coros + [Parent(c, s.slots), Child(p)], pool := s.pool + [Asked(c, 0)],
              kernel := s.kernel + multiset{Data(|s.pool|)}, inFlight := s.inFlight + 1, slots := s.slots + 1)
  {
    var p, c := |s.coros|, |s.coros| + 1;
    var s3 := s2.(coros := s2.coros[c := Child(p)], stack := [Registering(p)]);
    Step(s2, Unwind(AwaitSuspendReturns(p, c)), s3);
    t := DoStoreInsert(s3, p, s.slots);
    Step(s3, Unwind(StoreInsert(p, s.slots)), t);
    assert t.coros == s.coros + [Parent(c, s.slots), Child(p)];
  }

  // Non-awaitable requests.

  function AskedNa(): RequestData { RequestRecord(None, 0, Close, true, Io(), 0) }

  lemma Submits1(s: State) returns (t: State)
    requires Reachable(s) && CallerRuns(s) && SqeAvailable(s) && s.sq == []
    ensures Reachable(t)
    ensures t == s.(pool := s.pool + [AskedNa()], kernel := s.kernel + multiset{Data(|s.pool|)},
                    inFlight := s.inFlight + 1)
  {
    t := DoSubmitNa(s, Io());
    Step(s, Call(SubmitNa(Io())), t);
  }

  /** One task is stored, suspended on an operation. */
  function OneStored(): State {
    Init(4, true).(coros := [NewCoro(Kill), Suspended(0)], pool := [Asked(1, 0)], kernel := multiset{Data(0)},
                   inFlight := 1, slots := 1)
  }

  lemma OneStoredReachable()
    ensures Reachable(OneStored())
  {
    ReachableInit(4, true);
    var s1 := Registered(Init(4, true));
    assert s1 == OneStored();
  }

  /** A task is stored that awaits its child, which is suspended on an operation. */
  function ParentFirst(): State {
    Init(4, true).(coros := [NewCoro(Kill), Parent(2, 0), Child(1)], pool := [Asked(2, 0)],
                   kernel := multiset{Data(0)}, inFlight := 1, slots := 1)
  }

  lemma ParentFirstReachable()
    ensures Reachable(ParentFirst())
  {
    ReachableInit(4, true);
    var s1 := ParentStored(Init(4, true));
    assert s1 == ParentFirst();
  }

  /** A poll that is parked. */
  function Poller(slot: nat): Coro {
    NewCoro(Poll).(begun := true, status := Parked(OnPoll), metadata := slot, slot := Some(slot))
  }
}
