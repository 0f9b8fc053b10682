/** How often a task returns and an awaiter is resumed, counted over whole runs. */
module Returns {
  import opened Option
  import opened Requests
  import opened Machine
  import opened Scheduling
  import opened Placement
  import opened Invariant
  import opened Ledger
  import opened Awaiting

  /** Coroutine d exists and has returned. */
  predicate HasReturned(s: State, d: nat) { d < |s.coros| && Over(s.coros[d]) }

  /** The task that the step has coroutine d await. */
  function Awaits(m: Move, d: nat): Option<nat> {
    match m
    case Call(AwaitTask(c, child)) => if c == d then Some(child) else None
    case _ => None
  }

  /** The same coroutine function with the same arguments; a batch that has begun has as many
      requests submitted as it had. */
  predicate SameCode(x: Coro, y: Coro) {
    && (x.begun ==> y.begun)
    && match x.body
       case Batch(reqs, k, _) => y.body.Batch? && y.body.reqs == reqs && (x.begun ==> y.body.submitted == k)
       case _ => y.body == x.body
  }

  /** From s to t coroutine d came to be over exactly if it returned a code, which it has then,
      and to wait for a task only by awaiting it. */
  predicate Turn(s: State, t: State, d: nat, code: Option<int>, child: Option<nat>) {
    && |s.coros| <= |t.coros|
    && (d < |s.coros| ==>
          SameCode(s.coros[d], t.coros[d]) && t.coros[d].ret == if code.Some? then code.value else s.coros[d].ret)
    && (HasReturned(t, d) <==> HasReturned(s, d) || code.Some?)
    && (code.Some? ==> d < |s.coros| && !HasReturned(s, d))
    && (d < |t.coros| && t.coros[d].status.Parked? && t.coros[d].status.on.OnTask? ==>
          (d < |s.coros| && t.coros[d].status == s.coros[d].status) || child == Some(t.coros[d].status.on.child))
  }

  /** The code that the step has d return. */
  function CodeOf(s: State, m: Move, d: nat): Option<int>
    requires Enabled(s, m)
  {
    if ReturnedBy(s, m) != Some(d) then None
    else
      match m
      case Call(CoReturn(_, v)) => Some(v)
      case Library(PollBegin(_)) => Some(-1)
      case Library(KillBegin) => Some(-1)
      case _ => Some(0)
  }

  lemma ReturnTurn(s: State, c: nat, v: int, d: nat)
    requires CanReturn(s, c) && AwaiterIdle(s, c) && s.coros[c].status.Running?
    ensures Turn(s, Return(s, c, v), d, if c == d then Some(v) else None, None)
  {
  }

  lemma SuspendTurn(s: State, c: nat, park: Park, d: nat)
    requires c < |s.coros| && s.stack != [] && s.coros[c].status.Running?
    ensures Turn(s, Suspend(s, c, park), d, None, if park.OnTask? && c == d then Some(park.child) else None)
  {
  }

  lemma LoopTurn(s: State, l: LoopMove, d: nat)
    requires CanLoop(s, l) && DeliversToWaiter(s, l)
    ensures Turn(s, DoLoop(s, l), d, None, None)
  {
    match l
    case Start =>
    case LoopTop => LoopTopTurn(s, d);
    case PolledDone(done) =>
    case WaitCqe => WaitTurn(s, d);
    case Seen(done) => SeenTurn(s, done, d);
    case KillRoundDone =>
  }

  lemma LoopTopTurn(s: State, d: nat)
    requires CanLoopTop(s) && DeliversToWaiter(s, LoopTop)
    ensures Turn(s, DoLoopTop(s), d, None, None)
  {
  }

  lemma WaitTurn(s: State, d: nat)
    requires CanWaitCqe(s) && DeliversToWaiter(s, WaitCqe)
    ensures Turn(s, DoWaitCqe(s), d, None, None)
  {
  }

  lemma SeenTurn(s: State, done: bool, d: nat)
    requires CanSeen(s, done) && DeliversToWaiter(s, Seen(done))
    ensures Turn(s, DoSeen(s, done), d, None, None)
  {
  }

  lemma RegisterTurn(s: State, c: nat, d: nat)
    requires CanRegister(s, c)
    ensures Turn(s, DoRegister(s, c), d, None, None)
  {
  }

  lemma AwaitIoTurn(s: State, c: nat, params: Params, d: nat)
    requires TopOk(s) && CanAwaitIo(s, c)
    ensures Turn(s, DoAwaitIo(s, c, params), d, None, None)
  {
  }

  lemma AwaitTaskTurn(s: State, c: nat, child: nat, d: nat)
    requires TopOk(s) && CanAwaitTask(s, c, child)
    ensures Turn(s, DoAwaitTask(s, c, child), d, None, if c == d then Some(child) else None)
  {
  }

  lemma CallTurn(s: State, u: CallMove, d: nat)
    requires TopOk(s) && CanCall(s, u)
    ensures Turn(s, DoCall(s, u), d, CodeOf(s, Call(u), d), Awaits(Call(u), d))
  {
    match u
    case Create(body) =>
    case Register(c) => RegisterTurn(s, c, d);
    case AwaitIo(c, params) => AwaitIoTurn(s, c, params, d);
    case SubmitNa(params) =>
    case AwaitTask(c, child) => AwaitTaskTurn(s, c, child, d);
    case CoReturn(c, v) => ReturnTurn(s, c, v, d);
  }

  lemma UnwindTurn(s: State, f: FrameMove, d: nat)
    requires TopOk(s) && CanUnwind(s, f) && SparesFrames(s, f)
    ensures Turn(s, DoUnwind(s, f), d, None, None)
  {
    match f
    case StoreInsert(c, slot) =>
      SparingInsert(s, c, slot);
      assert Turn(s, Stored(s, c, slot), d, None, None);
    case AwaitSuspendReturns(c, child) => AwaitSuspendReturnTurn(s, c, child, d);
    case FinalSuspendReturns(c) =>
  }

  lemma AwaitSuspendReturnTurn(s: State, c: nat, child: nat, d: nat)
    requires TopOk(s) && CanAwaitSuspendReturn(s, c, child)
    ensures Turn(s, DoAwaitSuspendReturn(s, c, child), d, None, None)
  {
  }

  lemma BatchTurn(s: State, c: nat, d: nat)
    requires TopOk(s) && CanBatchBegin(s, c)
    ensures Turn(s, BatchSubmitted(s, c), d, None, None)
  {
  }

  lemma BatchBeginTurn(s: State, c: nat, d: nat)
    requires TopOk(s) && CanBatchBegin(s, c)
    ensures Turn(s, DoBatchBegin(s, c), d, CodeOf(s, Library(BatchBegin(c)), d), None)
  {
    var t := BatchSubmitted(s, c);
    BatchMakes(s, c);
    BatchTurn(s, c, d);
    if t.coros[c].body.submitted == 0 { ReturnTurn(t, c, 0, d); } else { SuspendTurn(t, c, OnBatch, d); }
  }

  lemma BatchHandledTurn(s: State, c: nat, d: nat)
    requires TopOk(s) && CanBatchHandled(s, c)
    ensures Turn(s, DoBatchHandled(s, c), d, CodeOf(s, Library(BatchHandled(c)), d), None)
  {
    var t := BatchAdvanced(s, c);
    assert Turn(s, t, d, None, None);
    if t.coros[c].body.i < t.coros[c].body.submitted { SuspendTurn(t, c, OnBatch, d); } else { ReturnTurn(t, c, 0, d); }
  }

  lemma PollBeginTurn(s: State, c: nat, d: nat)
    requires TopOk(s) && CanPollBegin(s, c)
    ensures Turn(s, DoPollBegin(s, c), d, CodeOf(s, Library(PollBegin(c)), d), None)
  {
    if s.polling { ReturnTurn(s, c, -1, d); }
  }

  lemma PollHandledTurn(s: State, c: nat, again: bool, d: nat)
    requires TopOk(s) && CanPollHandled(s, c)
    ensures Turn(s, DoPollHandled(s, c, again), d, CodeOf(s, Library(PollHandled(c, again)), d), None)
  {
    if again { SuspendTurn(s.(pollHandle := Some(c)), c, OnPoll, d); }
    else { ReturnTurn(s.(polling := false), c, 0, d); }
  }

  lemma KillBeginTurn(s: State, d: nat)
    requires TopOk(s) && CanKillBegin(s)
    ensures Turn(s, DoKillBegin(s), d, CodeOf(s, Library(KillBegin), d), None)
  {
    var s1 := Set(s, KILL, s.coros[KILL].(begun := true));
    if Restricted(s) { ReturnTurn(s1, KILL, -1, d); }
    else {
      var s2 := KillSubmitted(s1);
      assert s2.inFlight != 0 && s2.coros == s1.coros && s2.stack == s.stack;
      SuspendTurn(s2, KILL, OnKill, d);
    }
  }

  lemma KillCheckTurn(s: State, d: nat)
    requires TopOk(s) && CanKillCheck(s)
    ensures Turn(s, KillLoop(s), d, CodeOf(s, Library(KillCheck), d), None)
  {
    if s.inFlight != 0 { SuspendTurn(s, KILL, OnKill, d); } else { ReturnTurn(s.(life := Dead), KILL, 0, d); }
  }

  lemma LibraryTurn(s: State, b: BodyMove, d: nat)
    requires TopOk(s) && CanLibrary(s, b)
    ensures Turn(s, DoLibrary(s, b), d, CodeOf(s, Library(b), d), None)
  {
    match b
    case BatchBegin(c) => BatchBeginTurn(s, c, d);
    case BatchHandled(c) => BatchHandledTurn(s, c, d);
    case PollBegin(c) => PollBeginTurn(s, c, d);
    case PollHandled(c, again) => PollHandledTurn(s, c, again, d);
    case KillBegin => KillBeginTurn(s, d);
    case KillCheck => KillCheckTurn(s, d);
  }

  lemma StepTurn(s: State, m: Move, d: nat)
    requires Inv(s) && Sparing(s, m)
    ensures Turn(s, Apply(s, m), d, CodeOf(s, m, d), Awaits(m, d))
  {
    TopIsOk(s);
    DeliveryIfLoop(s, m);
    MoveTurn(s, m, d);
  }

  lemma MoveTurn(s: State, m: Move, d: nat)
    requires TopOk(s) && Sparing(s, m) && (m.Loop? ==> DeliversToWaiter(s, m.l))
    ensures Turn(s, Apply(s, m), d, CodeOf(s, m, d), Awaits(m, d))
  {
    match m
    case Kernel(e, res) =>
    case Loop(l) => LoopTurn(s, l, d);
    case Call(u) => CallTurn(s, u, d);
    case Unwind(f) => UnwindTurn(s, f, d);
    case Library(b) => LibraryTurn(s, b, d);
  }

  // Over runs.

  /** How many moves of the run are returns of d. */
  function ReturnCount(s: State, ms: seq<Move>, d: nat): nat
    requires Possible(s, ms)
    decreases |ms|
  {
    if ms == [] then 0 else One(ReturnedBy(s, ms[0]) == Some(d)) + ReturnCount(Apply(s, ms[0]), ms[1..], d)
  }

  /** In any run a task returns at most once: exactly if it had not before and has at the end. */
  lemma {:induction false} ReturnsOnce(s: State, ms: seq<Move>, d: nat)
    requires Inv(s) && Legal(s, ms)
    ensures ReturnCount(s, ms, d) + One(HasReturned(s, d)) == One(HasReturned(Exec(s, ms), d))
    decreases |ms|
  {
    if ms != [] {
      StepTurn(s, ms[0], d);
      InvStep(s, ms[0]);
      ReturnsOnce(Apply(s, ms[0]), ms[1..], d);
    }
  }

  /** The code that the run's return of d gives, or the one there was. */
  function CodeIn(s: State, ms: seq<Move>, d: nat, before: int): int
    requires Possible(s, ms)
    decreases |ms|
  {
    if ms == [] then before
    else
      var code := CodeOf(s, ms[0], d);
      CodeIn(Apply(s, ms[0]), ms[1..], d, if code.Some? then code.value else before)
  }

  /** A task's code is the one with which it returns, in every run and for ever after; and its
      coroutine stays the one that was called. */
  lemma {:induction false} CodeIsKept(s: State, ms: seq<Move>, d: nat)
    requires Inv(s) && Legal(s, ms) && d < |s.coros|
    ensures d < |Exec(s, ms).coros|
    ensures Exec(s, ms).coros[d].ret == CodeIn(s, ms, d, s.coros[d].ret)
    ensures SameCode(s.coros[d], Exec(s, ms).coros[d])
    decreases |ms|
  {
    if ms != [] {
      StepTurn(s, ms[0], d);
      InvStep(s, ms[0]);
      CodeIsKept(Apply(s, ms[0]), ms[1..], d);
    }
  }

  /** How many moves of the run have c await the child. */
  function AwaitCount(ms: seq<Move>, c: nat, child: nat): nat {
    if ms == [] then 0 else One(Awaits(ms[0], c) == Some(child)) + AwaitCount(ms[1..], c, child)
  }

  /** How many moves of the run resume c, waiting for the child, with the child's value. */
  function ResumeCount(s: State, ms: seq<Move>, c: nat, child: nat): nat
    requires Possible(s, ms)
    decreases |ms|
  {
    if ms == [] then 0
    else
      One(Waits(s.coros, c, child) && child < |s.coros| && Resumed(Apply(s, ms[0]), c, child))
      + ResumeCount(Apply(s, ms[0]), ms[1..], c, child)
  }

  lemma AwaitStep(s: State, m: Move, c: nat, child: nat)
    requires Inv(s) && Sparing(s, m) && child < |s.coros|
    ensures One(Waits(Apply(s, m).coros, c, child)) + One(Waits(s.coros, c, child) && Resumed(Apply(s, m), c, child)) ==
      One(Waits(s.coros, c, child)) + One(Awaits(m, c) == Some(child))
  {
    TopIsOk(s);
    StepTurn(s, m, c);
    if Waits(s.coros, c, child) { AwaiterStep(s, m, c, child); }
    if Awaits(m, c) == Some(child) { AwaitAttaches(s, c, child); }
  }

  /** Awaits of the child by c and resumptions by the child balance: each await is answered at
      most once, and each answer is to an await. */
  lemma {:induction false} EachAwaitAnsweredOnce(s: State, ms: seq<Move>, c: nat, child: nat)
    requires Inv(s) && Legal(s, ms) && child < |s.coros|
    ensures ResumeCount(s, ms, c, child) + One(Waits(Exec(s, ms).coros, c, child)) ==
      AwaitCount(ms, c, child) + One(Waits(s.coros, c, child))
    decreases |ms|
  {
    if ms != [] {
      AwaitStep(s, ms[0], c, child);
      StepTurn(s, ms[0], child);
      InvStep(s, ms[0]);
      EachAwaitAnsweredOnce(Apply(s, ms[0]), ms[1..], c, child);
    }
  }
}
