/** The call stack: calls nest, whoever resumes whom, and each call of `register_coro` ends by
    storing its task. */
module Calls {
  import opened Option
  import opened Requests
  import opened Machine
  import opened Scheduling
  import opened Accounting
  import opened Placement
  import opened Invariant
  import opened Ledger
  import opened Awaiting
  import opened SlotSharing

  /** The step ends the innermost call: the running coroutine suspends or returns, or a library
      call that had resumed one comes to its end. */
  predicate Ends(s: State, m: Move)
    requires Enabled(s, m)
  {
    match m
    case Call(CoReturn(_, _)) => true
    case Call(AwaitTask(_, _)) => true
    case Call(AwaitIo(_, _)) => Made(s, m) != []
    case Library(_) => true
    case Unwind(_) => true
    case _ => false
  }

  function RunOf(c: Option<nat>): seq<Frame> { if c.Some? then [Run(c.value)] else [] }

  /** The task, if it has not been started. */
  function Unstarted(s: State, c: nat): Option<nat>
    requires c < |s.coros|
  {
    if s.coros[c].status.Created? then Some(c) else None
  }

  /** The coroutine that the loop resumes. */
  function ResumedBy(s: State, l: LoopMove): Option<nat>
    requires CanLoop(s, l)
  {
    match l
    case LoopTop => if s.life.Dead? || s.ready == [] then None else s.pollHandle
    case WaitCqe => if s.cq[0].Data? then s.pool[s.cq[0].id].handle else None
    case Seen(_) => if s.life.Dying? then Some(KILL) else None
    case _ => None
  }

  /** The calls that it begins, the innermost last. */
  function Begins(s: State, m: Move): seq<Frame>
    requires Enabled(s, m)
  {
    var d := ReturnedBy(s, m);
    if d.Some? then [FinalSuspend(d.value)] + (if d.value < |s.coros| then RunOf(s.coros[d.value].awaiter) else [])
    else
      match m
      case Loop(l) => RunOf(ResumedBy(s, l))
      case Call(Register(c)) => [Registering(c)] + RunOf(Unstarted(s, c))
      case Call(AwaitTask(c, child)) => [AwaitSuspend(c, child)] + RunOf(Unstarted(s, child))
      case Unwind(AwaitSuspendReturns(c, child)) => if s.coros[child].status.Finished? then [Run(c)] else []
      case _ => []
  }

  /** The stack without the innermost call, if that ends. */
  function Outer(s: State, m: Move): seq<Frame>
    requires Enabled(s, m)
  {
    if Ends(s, m) && s.stack != [] then s.stack[..|s.stack| - 1] else s.stack
  }

  lemma ReturnNests(s: State, c: nat, v: int)
    requires CanReturn(s, c)
    ensures Return(s, c, v).stack == s.stack[..|s.stack| - 1] + [FinalSuspend(c)] + RunOf(s.coros[c].awaiter)
  {
  }

  lemma LoopNests(s: State, l: LoopMove)
    requires CanLoop(s, l)
    ensures DoLoop(s, l).stack == s.stack + RunOf(ResumedBy(s, l))
  {
    match l
    case LoopTop => LoopTopNests(s);
    case WaitCqe => WaitNests(s);
    case Seen(done) => SeenNests(s, done);
    case _ =>
  }

  lemma LoopTopNests(s: State)
    requires CanLoopTop(s)
    ensures DoLoopTop(s).stack == s.stack + RunOf(ResumedBy(s, LoopTop))
  {
  }

  lemma WaitNests(s: State)
    requires CanWaitCqe(s)
    ensures DoWaitCqe(s).stack == s.stack + RunOf(ResumedBy(s, WaitCqe))
  {
  }

  lemma SeenNests(s: State, done: bool)
    requires CanSeen(s, done)
    ensures DoSeen(s, done).stack == s.stack + RunOf(ResumedBy(s, Seen(done)))
  {
  }

  lemma CallNests(s: State, u: CallMove)
    requires TopOk(s) && CanCall(s, u)
    ensures DoCall(s, u).stack == Outer(s, Call(u)) + Begins(s, Call(u))
  {
    match u
    case Create(_) =>
    case Register(c) => RegisterNests(s, c);
    case AwaitIo(c, p) => AwaitIoNests(s, c, p);
    case SubmitNa(_) =>
    case AwaitTask(c, child) => AwaitTaskNests(s, c, child);
    case CoReturn(c, v) => CoReturnNests(s, c, v);
  }

  lemma RegisterNests(s: State, c: nat)
    requires CanRegister(s, c)
    ensures DoRegister(s, c).stack == Outer(s, Call(Register(c))) + Begins(s, Call(Register(c)))
  {
  }

  lemma AwaitIoNests(s: State, c: nat, p: Params)
    requires CanAwaitIo(s, c)
    ensures DoAwaitIo(s, c, p).stack == Outer(s, Call(AwaitIo(c, p))) + Begins(s, Call(AwaitIo(c, p)))
  {
  }

  lemma AwaitTaskNests(s: State, c: nat, child: nat)
    requires TopOk(s) && CanAwaitTask(s, c, child)
    ensures DoAwaitTask(s, c, child).stack ==
      Outer(s, Call(AwaitTask(c, child))) + Begins(s, Call(AwaitTask(c, child)))
  {
  }

  lemma CoReturnNests(s: State, c: nat, v: int)
    requires CanCoReturn(s, c)
    ensures Return(s, c, v).stack == Outer(s, Call(CoReturn(c, v))) + Begins(s, Call(CoReturn(c, v)))
  {
    ReturnNests(s, c, v);
  }

  lemma UnwindNests(s: State, f: FrameMove)
    requires CanUnwind(s, f)
    ensures DoUnwind(s, f).stack == Outer(s, Unwind(f)) + Begins(s, Unwind(f))
  {
  }

  lemma LibraryNests(s: State, b: BodyMove)
    requires CanLibrary(s, b)
    ensures DoLibrary(s, b).stack == Outer(s, Library(b)) + Begins(s, Library(b))
  {
    match b
    case BatchBegin(c) => BatchBeginNests(s, c);
    case BatchHandled(c) => BatchHandledNests(s, c);
    case PollBegin(c) => PollBeginNests(s, c);
    case PollHandled(c, again) => PollHandledNests(s, c, again);
    case KillBegin => KillBeginNests(s);
    case KillCheck => KillCheckNests(s);
  }

  lemma BatchBeginNests(s: State, c: nat)
    requires CanBatchBegin(s, c)
    ensures DoBatchBegin(s, c).stack == Outer(s, Library(BatchBegin(c))) + Begins(s, Library(BatchBegin(c)))
  {
    BatchMakes(s, c);
    if BatchSubmitted(s, c).coros[c].body.submitted == 0 { ReturnNests(BatchSubmitted(s, c), c, 0); }
  }

  lemma BatchHandledNests(s: State, c: nat)
    requires CanBatchHandled(s, c)
    ensures DoBatchHandled(s, c).stack == Outer(s, Library(BatchHandled(c))) + Begins(s, Library(BatchHandled(c)))
  {
    ReturnNests(BatchAdvanced(s, c), c, 0);
  }

  lemma PollBeginNests(s: State, c: nat)
    requires CanPollBegin(s, c)
    ensures DoPollBegin(s, c).stack == Outer(s, Library(PollBegin(c))) + Begins(s, Library(PollBegin(c)))
  {
    if s.polling { ReturnNests(s, c, -1); }
  }

  lemma PollHandledNests(s: State, c: nat, again: bool)
    requires CanPollHandled(s, c)
    ensures DoPollHandled(s, c, again).stack ==
      Outer(s, Library(PollHandled(c, again))) + Begins(s, Library(PollHandled(c, again)))
  {
    if !again { ReturnNests(s.(polling := false), c, 0); }
  }

  lemma KillLoopNests(s: State)
    requires CanReturn(s, KILL)
    ensures KillLoop(s).stack == s.stack[..|s.stack| - 1]
      + if s.inFlight == 0 then [FinalSuspend(KILL)] + RunOf(s.coros[KILL].awaiter) else []
  {
    if s.inFlight == 0 { ReturnNests(s.(life := Dead), KILL, 0); }
  }

  lemma KillBeginNests(s: State)
    requires CanKillBegin(s)
    ensures DoKillBegin(s).stack == Outer(s, Library(KillBegin)) + Begins(s, Library(KillBegin))
  {
    var s1 := Set(s, KILL, s.coros[KILL].(begun := true));
    if Restricted(s) { ReturnNests(s1, KILL, -1); }
    else {
      CancelInFlight(s1);
      KillLoopNests(KillSubmitted(s1));
    }
  }

  lemma CancelInFlight(s: State)
    ensures KillSubmitted(s).inFlight > 0
  {
  }

  lemma KillCheckNests(s: State)
    requires CanKillCheck(s)
    ensures KillLoop(s).stack == Outer(s, Library(KillCheck)) + Begins(s, Library(KillCheck))
  {
    KillLoopNests(s);
  }

  /** Calls nest: a step ends no call but the innermost, and begins just those of the coroutines
      that it starts, or that wait for what it brings. */
  lemma CallsNest(s: State, m: Move)
    requires Inv(s) && Enabled(s, m)
    ensures Apply(s, m).stack == Outer(s, m) + Begins(s, m)
    ensures Ends(s, m) ==> s.stack != []
  {
    TopIsOk(s);
    match m
    case Kernel(e, res) =>
    case Loop(l) => LoopNests(s, l);
    case Call(u) => CallNests(s, u);
    case Unwind(f) => UnwindNests(s, f);
    case Library(b) => LibraryNests(s, b);
  }

  // Registrations.

  predicate Registers(m: Move, c: nat) { m == Call(Register(c)) }

  /** The insertion of c into the store. */
  predicate InsertsTask(m: Move, c: nat) { Inserts(m) && m.f.c == c }

  lemma EndsRegistering(s: State, m: Move, c: nat)
    requires Enabled(s, m) && Ends(s, m) && s.stack != []
    ensures s.stack[|s.stack| - 1] == Registering(c) <==> InsertsTask(m, c)
  {
    match m
    case Call(u) =>
    case Unwind(f) =>
    case Library(b) =>
  }

  lemma BeginsRegistering(s: State, m: Move, c: nat)
    requires Enabled(s, m)
    ensures Registering(c) in Begins(s, m) <==> Registers(m, c)
  {
  }

  lemma RegisteringStep(s: State, m: Move, c: nat)
    requires Inv(s) && Enabled(s, m)
    ensures Registering(c) in Apply(s, m).stack <==>
      Registers(m, c) || (Registering(c) in s.stack && !InsertsTask(m, c))
    ensures Registers(m, c) ==> Registering(c) !in s.stack && !HasSlot(s, c)
    ensures InsertsTask(m, c) ==> Registering(c) in s.stack && !HasSlot(s, c)
  {
    CallsNest(s, m);
    BeginsRegistering(s, m, c);
    if Ends(s, m) {
      EndsRegistering(s, m, c);
      PopFrame(s.stack);
    }
    if InsertsTask(m, c) { assert FrameOk(s.coros, Registering(c)); }
  }

  predicate HasSlot(s: State, c: nat) { c < |s.coros| && s.coros[c].slot.Some? }

  /** The slot of c: where it was last inserted, or the one that it had. */
  function SlotIn(ms: seq<Move>, c: nat, before: Option<nat>): Option<nat> {
    if ms == [] then before
    else SlotIn(ms[1..], c, if InsertsTask(ms[0], c) then Some(ms[0].f.slot) else before)
  }

  function SlotOf(s: State, c: nat): Option<nat> { if c < |s.coros| then s.coros[c].slot else None }

  lemma SlotStep(s: State, m: Move, c: nat)
    requires Inv(s) && Sparing(s, m)
    ensures SlotOf(Apply(s, m), c) == if InsertsTask(m, c) then Some(m.f.slot) else SlotOf(s, c)
  {
    if Inserts(m) { SparingInsert(s, m.f.c, m.f.slot); } else { StepKept(s, m, c); }
  }

  /** How often the run registers c. */
  function Registrations(ms: seq<Move>, c: nat): nat {
    if ms == [] then 0 else One(Registers(ms[0], c)) + Registrations(ms[1..], c)
  }

  /** And inserts it. */
  function Insertions(ms: seq<Move>, c: nat): nat {
    if ms == [] then 0 else One(InsertsTask(ms[0], c)) + Insertions(ms[1..], c)
  }

  /** Over any run each registration of a task inserts it once, unless it is still going on. */
  lemma {:induction false} RegistrationsBalance(s: State, ms: seq<Move>, c: nat)
    requires Inv(s) && Legal(s, ms)
    ensures var t := Exec(s, ms);
      && One(Registering(c) in s.stack) + Registrations(ms, c) == Insertions(ms, c) + One(Registering(c) in t.stack)
      && One(HasSlot(s, c)) + Insertions(ms, c) == One(HasSlot(t, c))
      && SlotOf(t, c) == SlotIn(ms, c, SlotOf(s, c))
    decreases |ms|
  {
    if ms != [] {
      RegisteringStep(s, ms[0], c);
      SlotStep(s, ms[0], c);
      InvStep(s, ms[0]);
      RegistrationsBalance(Apply(s, ms[0]), ms[1..], c);
    }
  }

  /** A task is registered at most once, and is in the store exactly if it was and that call has
      come to its end, in the slot that it was given then. */
  lemma StoredExactlyIfRegistered(capacity: nat, ringUp: bool, ms: seq<Move>, c: nat)
    requires capacity > 0 && Legal(Init(capacity, ringUp), ms)
    ensures var t := Exec(Init(capacity, ringUp), ms);
      && Registrations(ms, c) <= 1
      && (HasSlot(t, c) <==> Registrations(ms, c) == 1 && Registering(c) !in t.stack)
      && SlotOf(t, c) == SlotIn(ms, c, None)
  {
    InitInv(capacity, ringUp);
    RegistrationsBalance(Init(capacity, ringUp), ms, c);
    StoredOrRegistering(capacity, ringUp, ms, c);
  }

  lemma StoredOrRegistering(capacity: nat, ringUp: bool, ms: seq<Move>, c: nat)
    requires capacity > 0 && Legal(Init(capacity, ringUp), ms)
    ensures var t := Exec(Init(capacity, ringUp), ms); !(HasSlot(t, c) && Registering(c) in t.stack)
  {
    InitInv(capacity, ringUp);
    InvRun(Init(capacity, ringUp), ms);
    var t := Exec(Init(capacity, ringUp), ms);
    if Registering(c) in t.stack { assert FrameOk(t.coros, Registering(c)); }
  }
}
