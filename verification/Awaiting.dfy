/** `co_await` of a task: the awaiter is resumed by its child's return and by nothing else,
    gets the child's value, and is lost only if the task is awaited again. */
module Awaiting {
  import opened Option
  import opened Requests
  import opened Machine
  import opened Scheduling
  import opened Invariant
  import opened Ledger

  /** c has come back from awaiting the child: the child is past its `co_return`, and its
      return code is what `await_resume` gives. */
  predicate Resumed(t: State, c: nat, child: nat) {
    c < |t.coros| && child < |t.coros|
    && t.coros[c].status.Running? && Over(t.coros[child]) && t.coros[c].got == Some(t.coros[child].ret)
  }

  predicate StillWaits(t: State, c: nat, child: nat) {
    c < |t.coros| && child < |t.coros| && t.coros[c].status == Parked(OnTask(child))
  }

  predicate InRangePair(s: State, c: nat, child: nat) { c < |s.coros| && child < |s.coros| }

  /** Nothing that links the two has changed. */
  predicate Untouched(s: State, t: State, c: nat, child: nat)
    requires InRangePair(s, c, child)
  {
    InRangePair(t, c, child) && t.coros[c].status == s.coros[c].status
    && t.coros[child].awaiter == s.coros[child].awaiter && Over(t.coros[child]) == Over(s.coros[child])
  }

  // What each kind of step does to a waiting pair.

  lemma LoopSpares(s: State, l: LoopMove, c: nat, child: nat)
    requires CanLoop(s, l) && DeliversToWaiter(s, l) && InRangePair(s, c, child) && Waits(s.coros, c, child)
    ensures Untouched(s, DoLoop(s, l), c, child)
  {
    match l
    case Start =>
    case LoopTop => LoopTopSpares(s, c, child);
    case PolledDone(done) =>
    case WaitCqe => WaitSpares(s, c, child);
    case Seen(done) => SeenSpares(s, done, c, child);
    case KillRoundDone =>
  }

  lemma LoopTopSpares(s: State, c: nat, child: nat)
    requires CanLoopTop(s) && DeliversToWaiter(s, LoopTop) && InRangePair(s, c, child) && Waits(s.coros, c, child)
    ensures Untouched(s, DoLoopTop(s), c, child)
  {
  }

  lemma WaitSpares(s: State, c: nat, child: nat)
    requires CanWaitCqe(s) && DeliversToWaiter(s, WaitCqe) && InRangePair(s, c, child) && Waits(s.coros, c, child)
    ensures Untouched(s, DoWaitCqe(s), c, child)
  {
  }

  lemma SeenSpares(s: State, done: bool, c: nat, child: nat)
    requires CanSeen(s, done) && DeliversToWaiter(s, Seen(done))
    requires InRangePair(s, c, child) && Waits(s.coros, c, child)
    ensures Untouched(s, DoSeen(s, done), c, child)
  {
  }

  /** `co_return` of d: its awaiter is resumed in the same step with the value, and nobody
      else is. */
  lemma ReturnResumes(s: State, d: nat, v: int, c: nat, child: nat)
    requires CanReturn(s, d) && AwaiterIdle(s, d) && s.coros[d].status.Running?
    requires InRangePair(s, c, child) && Waits(s.coros, c, child)
    ensures s.coros[d].awaiter == Some(c) ==> d == child && Resumed(Return(s, d, v), c, child)
    ensures s.coros[d].awaiter == Some(c) ==> Return(s, d, v).coros[c].got == Some(v)
    ensures s.coros[d].awaiter != Some(c) ==> SameLink(s, Return(s, d, v), c, child)
    ensures InRangePair(Return(s, d, v), c, child)
    ensures Return(s, d, v).coros[child].awaiter == s.coros[child].awaiter
    ensures Over(Return(s, d, v).coros[child]) == (Over(s.coros[child]) || d == child)
  {
  }

  predicate SameLink(s: State, t: State, c: nat, child: nat)
    requires InRangePair(s, c, child)
  {
    InRangePair(t, c, child) && t.coros[c].status == s.coros[c].status
    && t.coros[child].awaiter == s.coros[child].awaiter
  }

  lemma SuspendSpares(s: State, d: nat, park: Park, c: nat, child: nat)
    requires d < |s.coros| && s.stack != [] && s.coros[d].status.Running?
    requires InRangePair(s, c, child) && Waits(s.coros, c, child)
    ensures Untouched(s, Suspend(s, d, park), c, child)
  {
  }

  lemma AwaitTaskSpares(s: State, d: nat, ch: nat, c: nat, child: nat)
    requires TopOk(s) && CanAwaitTask(s, d, ch) && InRangePair(s, c, child) && Waits(s.coros, c, child)
    ensures Untouched(s, DoAwaitTask(s, d, ch), c, child)
  {
  }

  lemma RegisterSpares(s: State, d: nat, c: nat, child: nat)
    requires CanRegister(s, d) && InRangePair(s, c, child) && Waits(s.coros, c, child)
    ensures Untouched(s, DoRegister(s, d), c, child)
  {
  }

  lemma AwaitIoSpares(s: State, d: nat, params: Params, c: nat, child: nat)
    requires TopOk(s) && CanAwaitIo(s, d) && InRangePair(s, c, child) && Waits(s.coros, c, child)
    ensures Untouched(s, DoAwaitIo(s, d, params), c, child)
  {
  }

  /** The task, if any, that this step returns from. */
  function ReturnedBy(s: State, m: Move): Option<nat>
    requires Enabled(s, m)
  {
    match m
    case Call(CoReturn(d, _)) => Some(d)
    case Library(BatchBegin(d)) => if Made(s, m) == [] then Some(d) else None
    case Library(BatchHandled(d)) => if s.coros[d].body.i + 1 < s.coros[d].body.submitted then None else Some(d)
    case Library(PollBegin(d)) => if s.polling then Some(d) else None
    case Library(PollHandled(d, again)) => if again then None else Some(d)
    case Library(KillBegin) => if Restricted(s) then Some(KILL) else None
    case Library(KillCheck) => if s.inFlight == 0 then Some(KILL) else None
    case _ => None
  }

  /** Nothing changes between the two but by d's return, if this is d's return. */
  predicate ChangedByReturn(s: State, t: State, d: Option<nat>, c: nat, child: nat)
    requires InRangePair(s, c, child)
  {
    && InRangePair(t, c, child)
    && t.coros[child].awaiter == s.coros[child].awaiter
    && Over(t.coros[child]) == (Over(s.coros[child]) || d == Some(child))
    && if d == Some(child) && s.coros[child].awaiter == Some(c) then Resumed(t, c, child)
       else t.coros[c].status == s.coros[c].status
  }

  lemma CallChanges(s: State, u: CallMove, c: nat, child: nat)
    requires TopOk(s) && CanCall(s, u) && InRangePair(s, c, child) && Waits(s.coros, c, child)
    ensures ChangedByReturn(s, DoCall(s, u), ReturnedBy(s, Call(u)), c, child)
  {
    match u
    case Create(body) =>
    case Register(d) => RegisterSpares(s, d, c, child);
    case AwaitIo(d, params) => AwaitIoSpares(s, d, params, c, child);
    case SubmitNa(params) =>
    case AwaitTask(d, ch) => AwaitTaskSpares(s, d, ch, c, child);
    case CoReturn(d, v) => ReturnResumes(s, d, v, c, child);
  }

  lemma BatchBeginChanges(s: State, d: nat, c: nat, child: nat)
    requires TopOk(s) && CanBatchBegin(s, d) && InRangePair(s, c, child) && Waits(s.coros, c, child)
    ensures ChangedByReturn(s, DoBatchBegin(s, d), ReturnedBy(s, Library(BatchBegin(d))), c, child)
  {
    var t := BatchSubmitted(s, d);
    BatchMakes(s, d);
    BatchCarriesOver(s, d, c, child);
    if t.coros[d].body.submitted == 0 { ReturnResumes(t, d, 0, c, child); }
    else { SuspendSpares(t, d, OnBatch, c, child); }
  }

  lemma BatchCarriesOver(s: State, d: nat, c: nat, child: nat)
    requires TopOk(s) && CanBatchBegin(s, d) && InRangePair(s, c, child) && Waits(s.coros, c, child)
    ensures Untouched(s, BatchSubmitted(s, d), c, child)
    ensures BatchSubmitted(s, d).coros[d].body.submitted == Admitted(s, |s.coros[d].body.reqs|)
    ensures BatchSubmitted(s, d).coros[d].awaiter == s.coros[d].awaiter
    ensures CanReturn(BatchSubmitted(s, d), d) && AwaiterIdle(BatchSubmitted(s, d), d)
    ensures BatchSubmitted(s, d).coros[d].status.Running?
  {
  }

  lemma BatchHandledChanges(s: State, d: nat, c: nat, child: nat)
    requires TopOk(s) && CanBatchHandled(s, d) && InRangePair(s, c, child) && Waits(s.coros, c, child)
    ensures ChangedByReturn(s, DoBatchHandled(s, d), ReturnedBy(s, Library(BatchHandled(d))), c, child)
  {
    ReturnResumes(BatchAdvanced(s, d), d, 0, c, child);
  }

  lemma PollBeginChanges(s: State, d: nat, c: nat, child: nat)
    requires TopOk(s) && CanPollBegin(s, d) && InRangePair(s, c, child) && Waits(s.coros, c, child)
    ensures ChangedByReturn(s, DoPollBegin(s, d), ReturnedBy(s, Library(PollBegin(d))), c, child)
  {
    ReturnResumes(s, d, -1, c, child);
  }

  lemma PollHandledChanges(s: State, d: nat, again: bool, c: nat, child: nat)
    requires TopOk(s) && CanPollHandled(s, d) && InRangePair(s, c, child) && Waits(s.coros, c, child)
    ensures ChangedByReturn(s, DoPollHandled(s, d, again), ReturnedBy(s, Library(PollHandled(d, again))), c, child)
  {
    ReturnResumes(s.(polling := false), d, 0, c, child);
  }

  lemma KillCheckChanges(s: State, c: nat, child: nat)
    requires TopOk(s) && CanKillCheck(s) && InRangePair(s, c, child) && Waits(s.coros, c, child)
    ensures ChangedByReturn(s, KillLoop(s), ReturnedBy(s, Library(KillCheck)), c, child)
  {
    if s.inFlight == 0 { ReturnResumes(s.(life := Dead), KILL, 0, c, child); }
    else { SuspendSpares(s, KILL, OnKill, c, child); }
  }

  lemma KillBeginChanges(s: State, c: nat, child: nat)
    requires TopOk(s) && CanKillBegin(s) && InRangePair(s, c, child) && Waits(s.coros, c, child)
    ensures ChangedByReturn(s, DoKillBegin(s), ReturnedBy(s, Library(KillBegin)), c, child)
  {
    var s1 := Set(s, KILL, s.coros[KILL].(begun := true));
    if Restricted(s) { ReturnResumes(s1, KILL, -1, c, child); }
    else {
      var s2 := KillSubmitted(s1);
      assert s2.inFlight != 0 && s2.coros == s1.coros && s2.stack == s.stack;
      SuspendSpares(s2, KILL, OnKill, c, child);
    }
  }

  lemma LibraryChanges(s: State, b: BodyMove, c: nat, child: nat)
    requires TopOk(s) && CanLibrary(s, b) && InRangePair(s, c, child) && Waits(s.coros, c, child)
    ensures ChangedByReturn(s, DoLibrary(s, b), ReturnedBy(s, Library(b)), c, child)
  {
    match b
    case BatchBegin(d) => BatchBeginChanges(s, d, c, child);
    case BatchHandled(d) => BatchHandledChanges(s, d, c, child);
    case PollBegin(d) => PollBeginChanges(s, d, c, child);
    case PollHandled(d, again) => PollHandledChanges(s, d, again, c, child);
    case KillBegin => KillBeginChanges(s, c, child);
    case KillCheck => KillCheckChanges(s, c, child);
  }

  lemma DeliveryIfLoop(s: State, m: Move)
    requires Inv(s) && Sparing(s, m)
    ensures m.Loop? ==> DeliversToWaiter(s, m.l)
  {
    if m.Loop? { DeliverySafe(s, m.l); }
  }

  /** A waiting awaiter goes on waiting, or has been resumed with its child's value. */
  lemma AwaiterStep(s: State, m: Move, c: nat, child: nat)
    requires Inv(s) && Sparing(s, m) && InRangePair(s, c, child) && Waits(s.coros, c, child)
    ensures StillWaits(Apply(s, m), c, child) || Resumed(Apply(s, m), c, child)
  {
    TopIsOk(s);
    DeliveryIfLoop(s, m);
    match m
    case Kernel(e, res) =>
    case Loop(l) => LoopSpares(s, l, c, child);
    case Call(u) => CallChanges(s, u, c, child);
    case Unwind(f) => UnwindChanges(s, f, c, child);
    case Library(b) => LibraryChanges(s, b, c, child);
  }

  lemma UnwindChanges(s: State, f: FrameMove, c: nat, child: nat)
    requires TopOk(s) && CanUnwind(s, f) && SparesFrames(s, f) && InRangePair(s, c, child) && Waits(s.coros, c, child)
    ensures f == AwaitSuspendReturns(c, child) && s.coros[child].status.Finished? ==>
      Resumed(DoUnwind(s, f), c, child)
    ensures !(f == AwaitSuspendReturns(c, child) && s.coros[child].status.Finished?) ==>
      StillWaits(DoUnwind(s, f), c, child)
  {
  }

  // Exactly once.

  /** Somebody still has it in hand to resume c: the `await_suspend` call, or the child. */
  predicate Attached(s: State, c: nat, child: nat)
    requires child < |s.coros|
  {
    AwaitSuspend(c, child) in s.stack || (s.coros[child].awaiter == Some(c) && !Over(s.coros[child]))
  }

  /** The two ways to lose hold of c: another await of the unfinished child is recorded over
      c's, or c's own is recorded in a child whose `final_suspend` has looked for it already. */
  predicate Detaches(s: State, m: Move, c: nat, child: nat)
    requires child < |s.coros|
  {
    m.Unwind? && m.f.AwaitSuspendReturns? && m.f.child == child
    && if m.f.c == c then s.coros[child].status.Returning?
       else !Over(s.coros[child]) && AwaitSuspend(c, child) !in s.stack
  }

  // The await_suspend frames on the stack.

  predicate SameFrame(before: seq<Frame>, after: seq<Frame>, f: Frame) { f in before <==> f in after }

  lemma DropTop(stack: seq<Frame>, f: Frame)
    requires stack != [] && stack[|stack| - 1] != f
    ensures SameFrame(stack, stack[..|stack| - 1], f)
  {
    assert stack == stack[..|stack| - 1] + [stack[|stack| - 1]];
  }

  lemma PauseFrames(s: State, d: nat, v: int, park: Park, f: Frame)
    requires CanReturn(s, d) && f.AwaitSuspend?
    ensures SameFrame(s.stack, Return(s, d, v).stack, f)
    ensures SameFrame(s.stack, Suspend(s, d, park).stack, f)
  {
    DropTop(s.stack, f);
    var rest := s.stack[..|s.stack| - 1];
    assert Suspend(s, d, park).stack == rest;
    assert Return(s, d, v).stack == rest + [FinalSuspend(d)]
        || Return(s, d, v).stack == rest + [FinalSuspend(d)] + [Run(s.coros[d].awaiter.value)];
  }

  lemma LibraryFrames(s: State, b: BodyMove, f: Frame)
    requires CanLibrary(s, b) && f.AwaitSuspend?
    ensures SameFrame(s.stack, DoLibrary(s, b).stack, f)
  {
    match b
    case BatchBegin(d) => PauseFrames(BatchSubmitted(s, d), d, 0, OnBatch, f);
    case BatchHandled(d) => PauseFrames(BatchAdvanced(s, d), d, 0, OnBatch, f);
    case PollBegin(d) => PollBeginFrames(s, d, f);
    case PollHandled(d, again) => PollHandledFrames(s, d, again, f);
    case KillBegin => KillBeginFrames(s, f);
    case KillCheck => PauseFrames(s, KILL, 0, OnKill, f);
  }

  lemma PollBeginFrames(s: State, d: nat, f: Frame)
    requires CanPollBegin(s, d) && f.AwaitSuspend?
    ensures SameFrame(s.stack, DoPollBegin(s, d).stack, f)
  {
    PauseFrames(s, d, -1, OnPoll, f);
  }

  lemma PollHandledFrames(s: State, d: nat, again: bool, f: Frame)
    requires CanPollHandled(s, d) && f.AwaitSuspend?
    ensures SameFrame(s.stack, DoPollHandled(s, d, again).stack, f)
  {
    PauseFrames(s, d, 0, OnPoll, f);
  }

  lemma KillBeginFrames(s: State, f: Frame)
    requires CanKillBegin(s) && f.AwaitSuspend?
    ensures SameFrame(s.stack, DoKillBegin(s).stack, f)
  {
    var s1 := Set(s, KILL, s.coros[KILL].(begun := true));
    PauseFrames(s1, KILL, -1, OnKill, f);
    if !Restricted(s) { PauseFrames(KillSubmitted(s1), KILL, 0, OnKill, f); }
  }

  lemma AwaitTaskFrames(s: State, d: nat, ch: nat, f: Frame)
    requires CanAwaitTask(s, d, ch) && f.AwaitSuspend? && f != AwaitSuspend(d, ch)
    ensures SameFrame(s.stack, DoAwaitTask(s, d, ch).stack, f)
  {
    DropTop(s.stack, f);
  }

  lemma CallFrames(s: State, u: CallMove, f: Frame)
    requires TopOk(s) && CanCall(s, u) && f.AwaitSuspend?
    requires f.c < |s.coros| && s.coros[f.c].status.Parked?
    ensures SameFrame(s.stack, DoCall(s, u).stack, f)
  {
    match u
    case Create(body) =>
    case Register(d) =>
    case AwaitIo(d, params) => if SqeAvailable(s) { DropTop(s.stack, f); }
    case SubmitNa(params) =>
    case AwaitTask(d, ch) => AwaitTaskFrames(s, d, ch, f);
    case CoReturn(d, v) => PauseFrames(s, d, v, OnKill, f);
  }

  lemma UnwindFrames(s: State, g: FrameMove, f: Frame)
    requires CanUnwind(s, g) && Distinct(s.stack) && f.AwaitSuspend?
    ensures if g == AwaitSuspendReturns(f.c, f.child) then f in s.stack && f !in DoUnwind(s, g).stack
            else SameFrame(s.stack, DoUnwind(s, g).stack, f)
  {
    match g
    case StoreInsert(c, slot) => InsertFrames(s, c, slot, f);
    case AwaitSuspendReturns(c, child) => PopFrame(s.stack);
    case FinalSuspendReturns(c) => DropTop(s.stack, f);
  }

  lemma InsertFrames(s: State, c: nat, slot: nat, f: Frame)
    requires CanStoreInsert(s, c, slot) && f.AwaitSuspend?
    ensures SameFrame(s.stack, DoStoreInsert(s, c, slot).stack, f)
  {
    DropTop(s.stack, f);
  }

  // The child's record of its awaiter.

  /** What a step may do to the pair, apart from another `co_await` of the child. */
  predicate LinkKept(s: State, t: State, c: nat, child: nat)
    requires InRangePair(s, c, child)
  {
    InRangePair(t, c, child)
    && t.coros[child].awaiter == s.coros[child].awaiter
    && (Over(s.coros[child]) ==> Over(t.coros[child]))
    && (t.coros[c].status == s.coros[c].status ||
        (s.coros[child].awaiter == Some(c) && !Over(s.coros[child]) && Resumed(t, c, child)))
    && (s.coros[child].awaiter == Some(c) && !Over(s.coros[child]) && Over(t.coros[child]) ==> Resumed(t, c, child))
  }

  lemma LinkStep(s: State, m: Move, c: nat, child: nat)
    requires TopOk(s) && Sparing(s, m) && (m.Loop? ==> DeliversToWaiter(s, m.l)) && !m.Unwind?
    requires InRangePair(s, c, child) && Waits(s.coros, c, child)
    ensures LinkKept(s, Apply(s, m), c, child)
  {
    match m
    case Kernel(e, res) =>
    case Loop(l) => LoopSpares(s, l, c, child);
    case Call(u) => CallChanges(s, u, c, child);
    case Library(b) => LibraryChanges(s, b, c, child);
  }

  lemma FrameStep(s: State, m: Move, c: nat, child: nat)
    requires TopOk(s) && Sparing(s, m) && !m.Unwind?
    requires InRangePair(s, c, child) && Waits(s.coros, c, child)
    ensures SameFrame(s.stack, Apply(s, m).stack, AwaitSuspend(c, child))
  {
    match m
    case Kernel(e, res) =>
    case Loop(l) => LoopFrames(s, l, AwaitSuspend(c, child));
    case Call(u) => CallFrames(s, u, AwaitSuspend(c, child));
    case Library(b) => LibraryFrames(s, b, AwaitSuspend(c, child));
  }

  lemma LoopFrames(s: State, l: LoopMove, f: Frame)
    requires CanLoop(s, l) && f.AwaitSuspend?
    ensures SameFrame(s.stack, DoLoop(s, l).stack, f)
  {
    match l
    case Start =>
    case LoopTop => assert SameFrame(s.stack, DoLoopTop(s).stack, f);
    case PolledDone(done) =>
    case WaitCqe => assert SameFrame(s.stack, DoWaitCqe(s).stack, f);
    case Seen(done) => SeenFrames(s, done, f);
    case KillRoundDone =>
  }

  lemma SeenFrames(s: State, done: bool, f: Frame)
    requires CanSeen(s, done) && f.AwaitSuspend?
    ensures SameFrame(s.stack, DoSeen(s, done).stack, f)
  {
  }

  /** The end of an `await_suspend` or `final_suspend` call, or of a registration. */
  lemma UnwindAttached(s: State, g: FrameMove, c: nat, child: nat)
    requires TopOk(s) && CanUnwind(s, g) && SparesFrames(s, g) && Distinct(s.stack)
    requires InRangePair(s, c, child) && Waits(s.coros, c, child)
    ensures AttachmentKept(s, DoUnwind(s, g), Detaches(s, Unwind(g), c, child), c, child)
  {
    UnwindFrames(s, g, AwaitSuspend(c, child));
    UnwindChanges(s, g, c, child);
    UnwindLink(s, g, child);
  }

  lemma UnwindLink(s: State, g: FrameMove, child: nat)
    requires TopOk(s) && CanUnwind(s, g) && SparesFrames(s, g) && child < |s.coros|
    ensures child < |DoUnwind(s, g).coros|
    ensures Over(DoUnwind(s, g).coros[child]) == Over(s.coros[child])
    ensures DoUnwind(s, g).coros[child].awaiter ==
      if g.AwaitSuspendReturns? && g.child == child && !s.coros[child].status.Finished? then Some(g.c)
      else s.coros[child].awaiter
  {
  }

  /** An attached awaiter is resumed, or waits on and is detached or attached still; one that
      is not attached just waits on. */
  predicate AttachmentKept(s: State, t: State, detached: bool, c: nat, child: nat)
    requires InRangePair(s, c, child)
  {
    if Attached(s, c, child) then
      if StillWaits(t, c, child) then Attached(t, c, child) <==> !detached
      else Resumed(t, c, child) && !detached
    else StillWaits(t, c, child) && !Attached(t, c, child)
  }

  lemma OtherAttached(s: State, t: State, c: nat, child: nat)
    requires InRangePair(s, c, child) && Waits(s.coros, c, child)
    requires LinkKept(s, t, c, child) && SameFrame(s.stack, t.stack, AwaitSuspend(c, child))
    ensures AttachmentKept(s, t, false, c, child)
  {
  }

  lemma NonUnwindAttached(s: State, m: Move, c: nat, child: nat)
    requires TopOk(s) && Sparing(s, m) && (m.Loop? ==> DeliversToWaiter(s, m.l)) && !m.Unwind?
    requires InRangePair(s, c, child) && Waits(s.coros, c, child)
    ensures AttachmentKept(s, Apply(s, m), false, c, child)
  {
    LinkStep(s, m, c, child);
    FrameStep(s, m, c, child);
    OtherAttached(s, Apply(s, m), c, child);
  }

  /** A step detaches an awaiter that it does not resume exactly in the two cases; one that
      is not attached is not resumed. */
  lemma AttachedStep(s: State, m: Move, c: nat, child: nat)
    requires Inv(s) && Sparing(s, m) && InRangePair(s, c, child) && Waits(s.coros, c, child)
    ensures AttachmentKept(s, Apply(s, m), Detaches(s, m, c, child), c, child)
  {
    TopIsOk(s);
    DeliveryIfLoop(s, m);
    if m.Unwind? {
      UnwindAttached(s, m.f, c, child);
    } else {
      NonUnwindAttached(s, m, c, child);
    }
  }

  /** A `co_await` leaves the awaiter waiting and attached. */
  lemma AwaitAttaches(s: State, c: nat, child: nat)
    requires CanAwaitTask(s, c, child) && s.coros[c].status.Running?
    ensures StillWaits(DoAwaitTask(s, c, child), c, child) && Attached(DoAwaitTask(s, c, child), c, child)
  {
    var t := DoAwaitTask(s, c, child);
    assert t.stack[|s.stack| - 1] == AwaitSuspend(c, child);
  }

  /** The awaiter's part of a run: while it waits it stays attached, and the step at which it
      stops waiting is the one that gives it its child's value. */
  predicate AwaitedOnce(s: State, ms: seq<Move>, c: nat, child: nat)
    requires Legal(s, ms)
    decreases |ms|
  {
    child < |s.coros| && StillWaits(s, c, child) && Attached(s, c, child)
    && (ms != [] ==>
          Resumed(Apply(s, ms[0]), c, child) || AwaitedOnce(Apply(s, ms[0]), ms[1..], c, child))
  }

  /** No move of the run detaches c before it is resumed. */
  predicate NeverDetached(s: State, ms: seq<Move>, c: nat, child: nat)
    requires Possible(s, ms) && child < |s.coros|
    decreases |ms|
  {
    ms == [] ||
    (!Detaches(s, ms[0], c, child)
     && (StillWaits(Apply(s, ms[0]), c, child) ==> NeverDetached(Apply(s, ms[0]), ms[1..], c, child)))
  }

  /** For any nesting of awaits and any interleaving, an awaiter keeps waiting attached to its
      child until that resumes it with its value, exactly if no move detaches it before. */
  lemma {:induction false} AwaiterResumedOnce(s: State, ms: seq<Move>, c: nat, child: nat)
    requires Inv(s) && Legal(s, ms) && InRangePair(s, c, child) && Waits(s.coros, c, child) && Attached(s, c, child)
    ensures AwaitedOnce(s, ms, c, child) <==> NeverDetached(s, ms, c, child)
    decreases |ms|
  {
    if ms != [] {
      var t := Apply(s, ms[0]);
      AttachedStep(s, ms[0], c, child);
      if StillWaits(t, c, child) && Attached(t, c, child) {
        InvStep(s, ms[0]);
        AwaiterResumedOnce(t, ms[1..], c, child);
      }
    }
  }

  /** An awaiter that another await of the same task has displaced waits for ever. */
  lemma {:induction false} DisplacedAwaiterIsLost(s: State, ms: seq<Move>, c: nat, child: nat)
    requires Inv(s) && Legal(s, ms) && InRangePair(s, c, child) && Waits(s.coros, c, child)
    requires !Attached(s, c, child)
    ensures StillWaits(Exec(s, ms), c, child)
    decreases |ms|
  {
    if ms != [] {
      AttachedStep(s, ms[0], c, child);
      InvStep(s, ms[0]);
      DisplacedAwaiterIsLost(Apply(s, ms[0]), ms[1..], c, child);
    }
  }

  /** A second await of a task that is not over does displace the first awaiter. */
  lemma SecondAwaitDisplaces(s: State, d: nat, c: nat, child: nat)
    requires SchedInv(s) && CanAwaitSuspendReturn(s, d, child) && InRangePair(s, c, child) && c != d
    requires s.coros[child].awaiter == Some(c) && !Over(s.coros[child])
    ensures Attached(s, c, child)
    ensures StillWaits(DoAwaitSuspendReturn(s, d, child), c, child)
    ensures !Attached(DoAwaitSuspendReturn(s, d, child), c, child)
  {
    assert LinkOk(s.coros, s.stack, child);
    TopIsOk(s);
    UnwindFrames(s, AwaitSuspendReturns(d, child), AwaitSuspend(c, child));
    UnwindChanges(s, AwaitSuspendReturns(d, child), c, child);
    UnwindLink(s, AwaitSuspendReturns(d, child), child);
  }

  /** An await of a task that is just resuming its awaiter is lost. */
  lemma AwaitOfReturningIsLost(s: State, c: nat, child: nat)
    requires SchedInv(s) && CanAwaitSuspendReturn(s, c, child) && s.coros[child].status.Returning?
    ensures StillWaits(DoAwaitSuspendReturn(s, c, child), c, child)
    ensures !Attached(DoAwaitSuspendReturn(s, c, child), c, child)
  {
    TopIsOk(s);
    UnwindFrames(s, AwaitSuspendReturns(c, child), AwaitSuspend(c, child));
    UnwindChanges(s, AwaitSuspendReturns(c, child), c, child);
    UnwindLink(s, AwaitSuspendReturns(c, child), child);
  }
}
