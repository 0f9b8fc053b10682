/** A kill whose flushes fail: the manager is left dying with its kill task over, and the loop
    resumes that task all the same. */
module KillFailure {
  import opened Option
  import opened Requests
  import opened Machine
  import opened Scheduling
  import opened Invariant
  import opened EventLoop

  /** Nobody holds the kill task's handle but the manager: no request, no poll, no child. */
  predicate KillUnnamed(s: State) {
    && KILL < |s.coros| && s.coros[KILL].slot.None? && Registering(KILL) !in s.stack
    && (forall c | 0 <= c < |s.coros| :: s.coros[c].body.Kill? <==> c == KILL)
    && (forall c | 0 <= c < |s.coros| :: s.coros[c].awaiter != Some(KILL))
    && (forall f | f in s.stack && f.AwaitSuspend? :: f.c != KILL)
    && s.pollHandle != Some(KILL) && forall id | 0 <= id < |s.pool| :: s.pool[id].handle != Some(KILL)
  }

  /** It has returned, is not on the stack, and the manager is still dying. */
  predicate KillIsOver(s: State) {
    KillUnnamed(s) && Over(s.coros[KILL]) && Run(KILL) !in s.stack && s.life.Dying?
  }

  lemma SubStack(stack: seq<Frame>)
    requires stack != []
    ensures forall f :: f in stack[..|stack| - 1] ==> f in stack
    ensures stack[|stack| - 1] in stack
  {
  }

  // Nothing gives the handle away.

  lemma ResumeUnnamed(s: State, c: nat)
    requires KillUnnamed(s) && c < |s.coros|
    ensures KillUnnamed(Machine.Resume(s, c))
  {
  }

  lemma SuspendUnnamed(s: State, c: nat, park: Park)
    requires KillUnnamed(s) && CanReturn(s, c)
    ensures KillUnnamed(Suspend(s, c, park))
  {
    SubStack(s.stack);
  }

  lemma ReturningUnnamed(s: State, c: nat, v: int)
    requires KillUnnamed(s) && CanReturn(s, c)
    ensures KillUnnamed(Push(Pop(Set(s, c, s.coros[c].(status := Returning, ret := v))), FinalSuspend(c)))
  {
    SubStack(s.stack);
  }

  lemma ReturnUnnamed(s: State, c: nat, v: int)
    requires KillUnnamed(s) && CanReturn(s, c)
    ensures KillUnnamed(Return(s, c, v))
  {
    ReturningUnnamed(s, c, v);
    var s1 := Push(Pop(Set(s, c, s.coros[c].(status := Returning, ret := v))), FinalSuspend(c));
    if s.coros[c].awaiter.Some? {
      var a := s.coros[c].awaiter.value;
      ResumeUnnamed(Set(s1, a, s1.coros[a].(got := Some(v))), a);
    }
  }

  lemma PauseUnnamed(s: State, c: nat, v: int, park: Park)
    requires KillUnnamed(s) && CanReturn(s, c)
    ensures KillUnnamed(Return(s, c, v)) && KillUnnamed(Suspend(s, c, park))
  {
    ReturnUnnamed(s, c, v);
    SuspendUnnamed(s, c, park);
  }

  lemma DeliverUnnamed(s: State, id: nat)
    requires KillUnnamed(s) && id < |s.pool| && s.pool[id].handle.Some? && s.pool[id].handle.value < |s.coros|
    ensures KillUnnamed(Deliver(s, id))
  {
    var c := s.pool[id].handle.value;
    ResumeUnnamed(Set(s, c, s.coros[c].(channel := Response(s.pool[id]))), c);
  }

  lemma LoopTopUnnamed(s: State)
    requires KillUnnamed(s) && CanLoopTop(s)
    ensures KillUnnamed(DoLoopTop(s))
  {
    if s.ready != [] && s.pollHandle.Some? { DeliverUnnamed(Dispatched(s), s.ready[|s.ready| - 1]); }
  }

  lemma WaitUnnamed(s: State)
    requires KillUnnamed(s) && CanWaitCqe(s)
    ensures KillUnnamed(DoWaitCqe(s))
  {
    if s.cq[0].Data? && s.pool[s.cq[0].id].handle.Some? { DeliverUnnamed(s.(pc := Handled), s.cq[0].id); }
  }

  lemma SeenUnnamed(s: State, done: bool)
    requires KillUnnamed(s) && CanSeen(s, done)
    ensures KillUnnamed(DoSeen(s, done))
  {
    if s.life.Dying? {
      var s1 := if s.cq[0].Data? && s.pool[s.cq[0].id].handle.Some? then Settle(s, s.cq[0].id, done) else s;
      ResumeUnnamed(s1.(cq := s.cq[1..], inFlight := Decrement(s.inFlight), pc := Killing), KILL);
    }
  }

  lemma LoopUnnamed(s: State, l: LoopMove)
    requires KillUnnamed(s) && CanLoop(s, l)
    ensures KillUnnamed(DoLoop(s, l))
  {
    match l
    case Start =>
    case LoopTop => LoopTopUnnamed(s);
    case PolledDone(done) =>
    case WaitCqe => WaitUnnamed(s);
    case Seen(done) => SeenUnnamed(s, done);
    case KillRoundDone =>
  }

  lemma AwaitIoUnnamed(s: State, c: nat, params: Params)
    requires KillUnnamed(s) && CanAwaitIo(s, c)
    ensures KillUnnamed(DoAwaitIo(s, c, params))
  {
    SubStack(s.stack);
  }

  lemma AwaitTaskUnnamed(s: State, c: nat, child: nat)
    requires KillUnnamed(s) && CanAwaitTask(s, c, child)
    ensures KillUnnamed(DoAwaitTask(s, c, child))
  {
    SubStack(s.stack);
  }

  lemma RegisterUnnamed(s: State, c: nat)
    requires KillUnnamed(s) && CanRegister(s, c)
    ensures KillUnnamed(DoRegister(s, c))
  {
  }

  lemma CallUnnamed(s: State, u: CallMove)
    requires KillUnnamed(s) && CanCall(s, u)
    ensures KillUnnamed(DoCall(s, u))
  {
    match u
    case Create(body) =>
    case Register(c) => RegisterUnnamed(s, c);
    case AwaitIo(c, params) => AwaitIoUnnamed(s, c, params);
    case SubmitNa(params) =>
    case AwaitTask(c, child) => AwaitTaskUnnamed(s, c, child);
    case CoReturn(c, v) => ReturnUnnamed(s, c, v);
  }

  lemma StoreInsertUnnamed(s: State, c: nat, slot: nat)
    requires KillUnnamed(s) && CanStoreInsert(s, c, slot)
    ensures KillUnnamed(DoStoreInsert(s, c, slot))
    ensures DoStoreInsert(s, c, slot).coros[KILL] == s.coros[KILL]
  {
    SubStack(s.stack);
  }

  lemma AwaitSuspendReturnUnnamed(s: State, c: nat, child: nat)
    requires KillUnnamed(s) && CanAwaitSuspendReturn(s, c, child)
    ensures c != KILL && KillUnnamed(DoAwaitSuspendReturn(s, c, child))
  {
    SubStack(s.stack);
    assert KillUnnamed(Pop(s));
    if s.coros[child].status.Finished? {
      ResumeUnnamed(Set(Pop(s), c, s.coros[c].(got := Some(s.coros[child].ret))), c);
    }
  }

  lemma UnwindUnnamed(s: State, f: FrameMove)
    requires KillUnnamed(s) && CanUnwind(s, f)
    ensures KillUnnamed(DoUnwind(s, f))
  {
    match f
    case StoreInsert(c, slot) => StoreInsertUnnamed(s, c, slot);
    case AwaitSuspendReturns(c, child) => AwaitSuspendReturnUnnamed(s, c, child);
    case FinalSuspendReturns(c) => SubStack(s.stack);
  }

  lemma BatchBeginUnnamed(s: State, c: nat)
    requires KillUnnamed(s) && CanBatchBegin(s, c)
    ensures KillUnnamed(DoBatchBegin(s, c))
  {
    assert KillUnnamed(BatchSubmitted(s, c));
    PauseUnnamed(BatchSubmitted(s, c), c, 0, OnBatch);
  }

  lemma PollBeginUnnamed(s: State, c: nat)
    requires KillUnnamed(s) && CanPollBegin(s, c)
    ensures KillUnnamed(DoPollBegin(s, c))
  {
    if s.polling { ReturnUnnamed(s, c, -1); }
    else {
      var s1 := Set(s, c, s.coros[c].(begun := true)).(polling := true, pollHandle := Some(c));
      assert KillUnnamed(s1);
      SuspendUnnamed(s1, c, OnPoll);
    }
  }

  lemma PollHandledUnnamed(s: State, c: nat, again: bool)
    requires KillUnnamed(s) && CanPollHandled(s, c)
    ensures KillUnnamed(DoPollHandled(s, c, again))
  {
    if again { SuspendUnnamed(s.(pollHandle := Some(c)), c, OnPoll); }
    else { ReturnUnnamed(s.(polling := false), c, 0); }
  }

  lemma KillLoopUnnamed(s: State)
    requires KillUnnamed(s) && CanReturn(s, KILL)
    ensures KillUnnamed(KillLoop(s))
  {
    if s.inFlight != 0 { SuspendUnnamed(s, KILL, OnKill); } else { ReturnUnnamed(s.(life := Dead), KILL, 0); }
  }

  lemma KillBeginUnnamed(s: State)
    requires KillUnnamed(s) && CanKillBegin(s)
    ensures KillUnnamed(DoKillBegin(s))
  {
    var s1 := Set(s, KILL, s.coros[KILL].(begun := true));
    assert KillUnnamed(s1);
    if Restricted(s) { ReturnUnnamed(s1, KILL, -1); }
    else { KillLoopUnnamed(KillSubmitted(s1)); }
  }

  lemma LibraryUnnamed(s: State, b: BodyMove)
    requires KillUnnamed(s) && CanLibrary(s, b)
    ensures KillUnnamed(DoLibrary(s, b))
  {
    match b
    case BatchBegin(c) => BatchBeginUnnamed(s, c);
    case BatchHandled(c) => PauseUnnamed(BatchAdvanced(s, c), c, 0, OnBatch);
    case PollBegin(c) => PollBeginUnnamed(s, c);
    case PollHandled(c, again) => PollHandledUnnamed(s, c, again);
    case KillBegin => KillBeginUnnamed(s);
    case KillCheck => KillLoopUnnamed(s);
  }

  lemma UnnamedStep(s: State, m: Move)
    requires KillUnnamed(s) && Enabled(s, m)
    ensures KillUnnamed(Apply(s, m))
  {
    match m
    case Kernel(e, res) =>
    case Loop(l) => LoopUnnamed(s, l);
    case Call(u) => CallUnnamed(s, u);
    case Unwind(f) => UnwindUnnamed(s, f);
    case Library(b) => LibraryUnnamed(s, b);
  }

  lemma {:induction false} UnnamedRun(s: State, ms: seq<Move>)
    requires KillUnnamed(s) && Possible(s, ms)
    ensures KillUnnamed(Exec(s, ms))
    decreases |ms|
  {
    if ms != [] {
      UnnamedStep(s, ms[0]);
      UnnamedRun(Apply(s, ms[0]), ms[1..]);
    }
  }

  lemma ReachableUnnamed(s: State)
    requires Reachable(s)
    ensures KillUnnamed(s)
  {
    var capacity: nat, ringUp: bool, ms: seq<Move> :| Reaches(capacity, ringUp, ms, s);
    UnnamedRun(Init(capacity, ringUp), ms);
  }

  // Nobody but the loop resumes it.

  /** The kill task stays over and off the stack. */
  predicate StillOver(s: State, t: State) {
    KILL < |t.coros| && Over(t.coros[KILL]) && Run(KILL) !in t.stack && t.life == s.life
  }

  lemma PauseOver(s: State, c: nat, v: int, park: Park)
    requires KillIsOver(s) && CanReturn(s, c)
    ensures c != KILL && StillOver(s, Return(s, c, v)) && StillOver(s, Suspend(s, c, park))
  {
    SubStack(s.stack);
  }

  lemma LoopTopOver(s: State)
    requires KillIsOver(s) && CanLoopTop(s)
    ensures StillOver(s, DoLoopTop(s))
  {
  }

  lemma WaitOver(s: State)
    requires KillIsOver(s) && CanWaitCqe(s)
    ensures StillOver(s, DoWaitCqe(s))
  {
  }

  lemma LoopOver(s: State, l: LoopMove)
    requires KillIsOver(s) && CanLoop(s, l) && !l.Seen?
    ensures StillOver(s, DoLoop(s, l))
  {
    match l
    case Start =>
    case LoopTop => LoopTopOver(s);
    case PolledDone(done) =>
    case WaitCqe => WaitOver(s);
    case KillRoundDone =>
  }

  lemma AwaitTaskOver(s: State, c: nat, child: nat)
    requires KillIsOver(s) && CanAwaitTask(s, c, child)
    ensures StillOver(s, DoAwaitTask(s, c, child))
  {
    SubStack(s.stack);
  }

  lemma CallOver(s: State, u: CallMove)
    requires KillIsOver(s) && CanCall(s, u)
    ensures StillOver(s, DoCall(s, u))
  {
    match u
    case Create(body) =>
    case Register(c) =>
    case AwaitIo(c, params) =>
    case SubmitNa(params) =>
    case AwaitTask(c, child) => AwaitTaskOver(s, c, child);
    case CoReturn(c, v) => PauseOver(s, c, v, OnKill);
  }

  lemma UnwindOver(s: State, f: FrameMove)
    requires KillIsOver(s) && CanUnwind(s, f)
    ensures StillOver(s, DoUnwind(s, f))
  {
    SubStack(s.stack);
    match f
    case StoreInsert(c, slot) => StoreInsertUnnamed(s, c, slot);
    case AwaitSuspendReturns(c, child) => AwaitSuspendReturnUnnamed(s, c, child);
    case FinalSuspendReturns(c) =>
  }

  lemma BatchBeginOver(s: State, c: nat)
    requires KillIsOver(s) && CanBatchBegin(s, c)
    ensures StillOver(s, DoBatchBegin(s, c))
  {
    SubStack(s.stack);
    assert KillIsOver(BatchSubmitted(s, c));
    PauseOver(BatchSubmitted(s, c), c, 0, OnBatch);
  }

  lemma PollBeginOver(s: State, c: nat)
    requires KillIsOver(s) && CanPollBegin(s, c)
    ensures StillOver(s, DoPollBegin(s, c))
  {
    PauseOver(s, c, -1, OnPoll);
    if !s.polling {
      var s1 := Set(s, c, s.coros[c].(begun := true)).(polling := true, pollHandle := Some(c));
      assert KillIsOver(s1);
      PauseOver(s1, c, -1, OnPoll);
    }
  }

  lemma LibraryOver(s: State, b: BodyMove)
    requires KillIsOver(s) && CanLibrary(s, b)
    ensures StillOver(s, DoLibrary(s, b))
  {
    match b
    case BatchBegin(c) => BatchBeginOver(s, c);
    case BatchHandled(c) =>
      SubStack(s.stack);
      PauseOver(BatchAdvanced(s, c), c, 0, OnBatch);
    case PollBegin(c) => PollBeginOver(s, c);
    case PollHandled(c, again) => PollHandledOver(s, c, again);
    case KillBegin => SubStack(s.stack);
    case KillCheck => SubStack(s.stack);
  }

  lemma PollHandledOver(s: State, c: nat, again: bool)
    requires KillIsOver(s) && CanPollHandled(s, c)
    ensures StillOver(s, DoPollHandled(s, c, again))
  {
    SubStack(s.stack);
    if again { PauseOver(s.(pollHandle := Some(c)), c, 0, OnPoll); }
    else { PauseOver(s.(polling := false), c, 0, OnPoll); }
  }

  lemma KillOverStep(s: State, m: Move)
    requires KillIsOver(s) && Enabled(s, m) && !(m.Loop? && m.l.Seen?)
    ensures KillIsOver(Apply(s, m))
  {
    UnnamedStep(s, m);
    match m
    case Kernel(e, res) =>
    case Loop(l) => LoopOver(s, l);
    case Call(u) => CallOver(s, u);
    case Unwind(f) => UnwindOver(s, f);
    case Library(b) => LibraryOver(s, b);
  }

  predicate NothingSeen(ms: seq<Move>) { forall i | 0 <= i < |ms| :: !(ms[i].Loop? && ms[i].l.Seen?) }

  lemma {:induction false} KillOverRun(s: State, ms: seq<Move>)
    requires KillIsOver(s) && Possible(s, ms) && NothingSeen(ms)
    ensures KillIsOver(Exec(s, ms))
    decreases |ms|
  {
    if ms != [] {
      assert NothingSeen(ms[1..]);
      KillOverStep(s, ms[0]);
      KillOverRun(Apply(s, ms[0]), ms[1..]);
    }
  }

  lemma StuckIsOver(s: State, entries: seq<Entry>, k: nat)
    requires SchedInv(s) && KillUnnamed(s) && CanKillBegin(s) && k <= |entries|
    ensures KillIsOver(KillStuck(s, entries, k))
  {
    var s1 := Handed(Set(s, KILL, s.coros[KILL].(begun := true)).(life := Dying), entries, k);
    assert KillUnnamed(s1);
    ReturnUnnamed(s1, KILL, -1);
    ReturnedIsOver(s1);
  }

  lemma ReturnedIsOver(s: State)
    requires KillUnnamed(s) && Distinct(s.stack) && CanReturn(s, KILL)
    ensures var t := Return(s, KILL, -1); KILL < |t.coros| && Over(t.coros[KILL]) && Run(KILL) !in t.stack
  {
    PopFrame(s.stack);
    assert Return(s, KILL, -1).stack[|s.stack| - 1] == FinalSuspend(KILL);
  }

  /** Whatever coroutines and kernel do after a kill whose flushes failed, the next completion
      that the loop marks seen makes it resume the kill task, which has returned. */
  lemma StuckKillIsResumed(s: State, entries: seq<Entry>, k: nat, ms: seq<Move>, done: bool)
    requires Reachable(s) && CanKillBegin(s) && k <= |entries|
    requires Possible(KillStuck(s, entries, k), ms) && NothingSeen(ms)
    requires CanSeen(Exec(KillStuck(s, entries, k), ms), done)
    ensures var t := Exec(KillStuck(s, entries, k), ms);
      && t.life.Dying? && Over(t.coros[KILL])
      && OnTop(DoSeen(t, done), Run(KILL))
  {
    ReachableStuckIsOver(s, entries, k);
    KillOverRun(KillStuck(s, entries, k), ms);
    SeenResumesKill(Exec(KillStuck(s, entries, k), ms), done);
  }

  lemma ReachableStuckIsOver(s: State, entries: seq<Entry>, k: nat)
    requires Reachable(s) && CanKillBegin(s) && k <= |entries|
    ensures KillIsOver(KillStuck(s, entries, k))
  {
    ReachableInv(s);
    ReachableUnnamed(s);
    StuckIsOver(s, entries, k);
  }

  lemma SeenResumesKill(s: State, done: bool)
    requires CanSeen(s, done) && s.life.Dying?
    ensures OnTop(DoSeen(s, done), Run(KILL))
  {
  }
}
