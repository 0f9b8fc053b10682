/** What can always happen next, and what a turn of the loop does: nobody is stuck but a loop that
    waits for a completion. */
module Progress {
  import opened Option
  import opened Requests
  import opened Machine
  import opened Scheduling
  import opened Accounting
  import opened Placement
  import opened Slots
  import opened Waiting
  import opened Invariant
  import opened Ledger
  import opened Delivery
  import opened Awaiting
  import opened PollOrder
  import opened KillProtocol
  import opened SlotSharing

  /** The kernel may complete whatever it holds, in any order and with any result. */
  lemma KernelIsFree(s: State, e: Entry, res: int)
    requires Reachable(s) && e in s.kernel
    ensures Enabled(s, Kernel(e, res))
  {
    ReachableInv(s);
    assert e in Pending(s);
  }

  /** A coroutine of the caller's that runs may return any code, await any task and, unless the
      manager is dying or dead, ask for any operation. */
  lemma CoroutineIsFree(s: State, c: nat)
    requires Reachable(s) && OnTop(s, Run(c)) && c < |s.coros| && s.coros[c].body.User?
    ensures forall v :: Enabled(s, Call(CoReturn(c, v)))
    ensures forall child: nat :: Enabled(s, Call(AwaitTask(c, child))) <==> child < |s.coros|
    ensures forall p :: Enabled(s, Call(AwaitIo(c, p))) <==> !s.life.Dying? && !s.life.Dead?
  {
    ReachableInv(s);
    TopIsOk(s);
  }

  /** The main program, a coroutine of the caller's, or the handler of a batch or a poll is running. */
  predicate CallersCode(s: State) {
    if s.stack == [] then s.pc.Outside?
    else
      match s.stack[|s.stack| - 1]
      case Run(c) =>
        c < |s.coros| && var r := s.coros[c]; r.body.User? || (r.begun && (r.body.Batch? || r.body.Poll?))
      case _ => false
  }

  /** Whoever it is may call coroutine functions, register the tasks and submit operations. */
  lemma CallersAreFree(s: State)
    requires Reachable(s) && CallersCode(s)
    ensures forall p :: Enabled(s, Call(SubmitNa(p)))
    ensures Enabled(s, Call(Create(User))) && Enabled(s, Call(Create(Poll)))
    ensures forall reqs: seq<Params> :: Enabled(s, Call(Create(Batch(reqs, 0, 0))))
    ensures forall c: nat :: Enabled(s, Call(Register(c))) <==>
      0 < c < |s.coros| && s.coros[c].slot.None? && Registering(c) !in s.stack
  {
  }

  /** The library goes on wherever it is: in its own coroutines, whatever the handlers say, but
      for a batch that begins on a dead manager; and in its calls that have resumed a coroutine,
      with any slot that is freed, or else the next one, for a task that is registered. */
  lemma LibraryGoesOn(s: State)
    requires Reachable(s) && s.stack != []
    ensures match s.stack[|s.stack| - 1]
            case Run(c) => c < |s.coros| &&
              (match s.coros[c].body
               case User => true
               case Batch(_, _, _) =>
                 if s.coros[c].begun then Enabled(s, Library(BatchHandled(c)))
                 else !s.life.Dead? ==> Enabled(s, Library(BatchBegin(c)))
               case Poll =>
                 if s.coros[c].begun then forall again :: Enabled(s, Library(PollHandled(c, again)))
                 else Enabled(s, Library(PollBegin(c)))
               case Kill => Enabled(s, Library(if s.coros[c].begun then KillCheck else KillBegin)))
            case AwaitSuspend(c, child) => Enabled(s, Unwind(AwaitSuspendReturns(c, child)))
            case FinalSuspend(c) => Enabled(s, Unwind(FinalSuspendReturns(c)))
            case Registering(c) =>
              forall slot: nat :: Enabled(s, Unwind(StoreInsert(c, slot))) <==>
                slot in s.freeSlots || (s.freeSlots == {} && slot == s.slots)
  {
    ReachableInv(s);
    TopIsOk(s);
    var f := s.stack[|s.stack| - 1];
    if f.Run? { assert s.coros[f.c].body.Kill? <==> f.c == KILL; }
  }

  /** And so does the loop, but where it waits for a completion that has not come. */
  lemma LoopGoesOn(s: State)
    requires Reachable(s) && s.stack == []
    ensures match s.pc
            case Outside => Enabled(s, Loop(Start))
            case Top => Enabled(s, Loop(LoopTop))
            case Polled(_) => Enabled(s, Loop(PolledDone(false)))
            case Wait => Enabled(s, Loop(WaitCqe)) <==> s.cq != []
            case Handled => Enabled(s, Loop(Seen(false)))
            case Killing => Enabled(s, Loop(KillRoundDone))
  {
    CompletionsAreHandled(s);
  }

  /** `register_coro` starts the task, if it was not: a task in the store has been started. */
  lemma StoredHaveStarted(s: State)
    requires Reachable(s)
    ensures forall c | 0 <= c < |s.coros| && s.coros[c].slot.Some? :: !s.coros[c].status.Created?
  {
    ReachableInv(s);
  }

  // The turns of the loop.

  /** How many turns of the loop the run begins. */
  function TurnsIn(s: State, ms: seq<Move>): nat
    requires Possible(s, ms)
    decreases |ms|
  {
    if ms == [] then 0
    else One(ms[0] == Loop(LoopTop) && !s.life.Dead?) + TurnsIn(Apply(s, ms[0]), ms[1..])
  }

  /** The loop is in the middle of a turn: its completion has not been seen. */
  predicate InTurn(s: State) { s.pc.Polled? || s.pc.Wait? || s.pc.Handled? }

  lemma TurnStep(s: State, m: Move)
    requires Sparing(s, m)
    ensures One(m == Loop(LoopTop) && !s.life.Dead?) + One(InTurn(s)) ==
      One(m.Loop? && m.l.Seen?) + One(InTurn(Apply(s, m)))
    ensures |TakenUpIn(s, [m])| + One(s.pc.Handled?) == One(m.Loop? && m.l.Seen?) + One(Apply(s, m).pc.Handled?)
  {
    assert [m][1..] == [];
    ReadyChange(s, m);
    if m.Loop? { LoopTurns(s, m.l); }
  }

  lemma LoopTurns(s: State, l: LoopMove)
    requires CanLoop(s, l)
    ensures One(l.LoopTop? && !s.life.Dead?) + One(InTurn(s)) == One(l.Seen?) + One(InTurn(DoLoop(s, l)))
    ensures One(l.WaitCqe?) + One(s.pc.Handled?) == One(l.Seen?) + One(DoLoop(s, l).pc.Handled?)
  {
  }

  /** Each turn takes up one completion and marks one seen. */
  lemma {:induction false} TurnsSeeOne(s: State, ms: seq<Move>)
    requires Legal(s, ms)
    ensures TurnsIn(s, ms) + One(InTurn(s)) == SeenCount(ms) + One(InTurn(Exec(s, ms)))
    ensures |TakenUpIn(s, ms)| + One(s.pc.Handled?) == SeenCount(ms) + One(Exec(s, ms).pc.Handled?)
    decreases |ms|
  {
    if ms != [] {
      TurnStep(s, ms[0]);
      TurnsSeeOne(Apply(s, ms[0]), ms[1..]);
      assert [ms[0]][1..] == [];
      assert |TakenUpIn(s, ms)| == |TakenUpIn(s, [ms[0]])| + |TakenUpIn(Apply(s, ms[0]), ms[1..])|;
    }
  }

  /** A dying manager resumes its kill task at the end of each turn, and no other one does. */
  lemma TurnEndsWithKill(s: State, done: bool)
    requires Reachable(s) && CanSeen(s, done)
    ensures var t := DoSeen(s, done);
      if s.life.Dying? then
        s.coros[KILL].status == Parked(OnKill) && t.stack == [Run(KILL)]
        && KILL < |t.coros| && t.coros[KILL].status.Running?
      else t.stack == [] && t.coros == s.coros && t.pc.Top?
  {
    ReachableInv(s);
    DeliverySafe(s, Seen(done));
    SeenResumes(s, done);
  }

  lemma SeenResumes(s: State, done: bool)
    requires CanSeen(s, done)
    ensures var t := DoSeen(s, done);
      if s.life.Dying? then t.stack == [Run(KILL)] && KILL < |t.coros| && t.coros[KILL].status.Running?
      else t.stack == [] && t.coros == s.coros && t.pc.Top?
  {
  }

  /** `start` enters its loop exactly if the manager has not been started, killed or failed. */
  lemma StartEntersLoop(s: State)
    requires CanStart(s)
    ensures DoStart(s).pc.Top? && DoStart(s).life.Living? <==> s.life.NotStarted?
    ensures !s.life.NotStarted? ==> DoStart(s) == s
  {
  }

  // A manager whose ring was not set up.

  /** Dead, outside its loop, with nothing in its ring, and never any request made. */
  predicate Lifeless(s: State) {
    && s.life.Dead? && s.pc.Outside? && s.sq == [] && s.kernel == multiset{} && s.cq == []
    && s.inFlight == 0 && s.pool == []
  }

  lemma LifelessStep(s: State, m: Move)
    requires Inv(s) && Lifeless(s) && s.freeSlots == {} && Enabled(s, m)
    ensures Sparing(s, m) && Lifeless(Apply(s, m)) && Apply(s, m).freeSlots == {}
  {
    StepMakes(s, m);
    DrainStep(s, m);
    LifelessRing(s, m);
    if Inserts(m) { assert DoStoreInsert(s, m.f.c, m.f.slot).freeSlots == {}; }
    else { StepKept(s, m, 0); }
  }

  lemma LifelessRing(s: State, m: Move)
    requires AccountInv(s) && Lifeless(s) && Enabled(s, m) && MovesEntries(s, m, Apply(s, m))
    ensures Apply(s, m).pc.Outside? && Apply(s, m).kernel == multiset{} && Apply(s, m).cq == []
  {
    assert !m.Kernel? && (m.Loop? ==> m.l.Start?);
    match m
    case Kernel(_, _) =>
    case Loop(l) =>
    case Call(u) => RestrictedCall(s, u);
    case Unwind(f) => UnwindRing(s, f);
    case Library(b) => LibraryLife(s, b);
  }

  lemma {:induction false} LifelessRun(s: State, ms: seq<Move>)
    requires Inv(s) && Lifeless(s) && s.freeSlots == {} && Possible(s, ms)
    ensures Legal(s, ms) && Lifeless(Exec(s, ms)) && MadeIn(s, ms) == []
    decreases |ms|
  {
    if ms != [] {
      LifelessStep(s, ms[0]);
      InvStep(s, ms[0]);
      NothingMade(s, ms[0]);
      LifelessRun(Apply(s, ms[0]), ms[1..]);
    }
  }

  lemma NothingMade(s: State, m: Move)
    requires Enabled(s, m) && s.life.Dead?
    ensures Made(s, m) == []
  {
  }

  /** A manager whose ring could not be set up stays dead and outside its loop, whatever is done
      with it, and makes no request. */
  lemma FailedRingStaysDead(capacity: nat, ms: seq<Move>)
    requires capacity > 0 && Possible(Init(capacity, false), ms)
    ensures Lifeless(Exec(Init(capacity, false), ms)) && MadeIn(Init(capacity, false), ms) == []
  {
    InitInv(capacity, false);
    LifelessRun(Init(capacity, false), ms);
  }

  /** One whose ring was can be started, with as many entries as it was constructed with. */
  lemma NewManagerStarts(capacity: nat)
    ensures var s := Init(capacity, true);
      Enabled(s, Loop(Start)) && Room(s) == capacity && DoStart(s).life.Living? && DoStart(s).pc.Top?
  {
  }
}
