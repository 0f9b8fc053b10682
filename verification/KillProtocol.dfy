/** The kill and drain protocol: what a dying manager still does, when it is dead, and who
    is told. */
module KillProtocol {
  import opened Machine
  import opened Scheduling
  import opened Accounting
  import opened Placement
  import opened Waiting
  import opened Invariant
  import opened Delivery
  import opened Awaiting
  import opened PollOrder
  import opened Returns

  /** How many completions a sequence of moves marks seen. */
  function SeenCount(ms: seq<Move>): nat {
    if ms == [] then 0 else One(ms[0].Loop? && ms[0].l.Seen?) + SeenCount(ms[1..])
  }

  /** How many moves of the loop itself it has; calling `start` again is not one. */
  function LoopCount(ms: seq<Move>): nat {
    if ms == [] then 0 else One(ms[0].Loop? && !ms[0].l.Start?) + LoopCount(ms[1..])
  }

  /** The kill task's first run ends suspended, with its own cancel request counted: it
      cannot finish in the call that starts it. */
  lemma KillCannotFinishAtOnce(s: State)
    requires Reachable(s) && CanKillBegin(s) && !Restricted(s)
    ensures var t := DoKillBegin(s);
      && t.life.Dying? && |t.coros| == |s.coros| && t.coros[KILL].status == Parked(OnKill)
      && t.inFlight == s.inFlight + 1 && t.sq == [] && Cancel in t.kernel
  {
    ReachableInv(s);
  }

  /** A step of a dying or dead manager: it does not come back to life, and the counter
      falls by one for each completion seen and never rises. */
  lemma DrainStep(s: State, m: Move)
    requires Inv(s) && Restricted(s) && Sparing(s, m)
    ensures var t := Apply(s, m);
      && Restricted(t) && (s.life.Dead? ==> t.life.Dead?)
      && t.inFlight == s.inFlight - One(m.Loop? && m.l.Seen?)
      && (s.pc.Outside? && s.life.Dying? ==> t.pc.Outside? && t.life.Dying?)
  {
    InFlightStep(s, m);
    match m
    case Kernel(e, res) =>
    case Loop(l) => LoopLife(s, l);
    case Call(u) => RestrictedCall(s, u);
    case Unwind(f) => UnwindRing(s, f);
    case Library(b) => LibraryLife(s, b);
  }

  lemma LoopLife(s: State, l: LoopMove)
    requires CanLoop(s, l) && Restricted(s)
    ensures DoLoop(s, l).life == s.life
    ensures s.pc.Outside? ==> DoLoop(s, l).pc.Outside?
  {
  }

  lemma LibraryLife(s: State, b: BodyMove)
    requires AccountInv(s) && CanLibrary(s, b) && Restricted(s)
    ensures DoLibrary(s, b).pc == s.pc
    ensures DoLibrary(s, b).life == s.life || (DoLibrary(s, b).life.Dead? && s.pc.Killing?)
  {
    match b
    case BatchBegin(c) => BatchBeginRing(s, c);
    case BatchHandled(_) => PauseRing(s, b);
    case PollBegin(_) => PauseRing(s, b);
    case PollHandled(_, _) => PauseRing(s, b);
    case KillBegin => assert SameRing(s, DoKillBegin(s));
    case KillCheck =>
  }

  /** Over any run of a dying manager, what was in flight is what has been seen since and
      what still is in flight. */
  lemma {:induction false} DrainRun(s: State, ms: seq<Move>)
    requires Inv(s) && Restricted(s) && Legal(s, ms)
    ensures Restricted(Exec(s, ms)) && Exec(s, ms).inFlight + SeenCount(ms) == s.inFlight
    ensures s.life.Dead? ==> Exec(s, ms).life.Dead?
    ensures s.life.Dying? && s.pc.Outside? ==> Exec(s, ms).life.Dying? && Exec(s, ms).pc.Outside?
    decreases |ms|
  {
    if ms != [] {
      DrainStep(s, ms[0]);
      InvStep(s, ms[0]);
      DrainRun(Apply(s, ms[0]), ms[1..]);
    }
  }

  /** A manager whose kill began inside the loop is dead, whenever no coroutine is running,
      exactly if as many completions have been seen since as were in flight. */
  lemma DeadExactlyWhenDrained(s: State, ms: seq<Move>)
    requires Reachable(s) && s.life.Dying? && !s.pc.Outside? && Legal(s, ms)
    ensures SeenCount(ms) <= s.inFlight
    ensures Exec(s, ms).life.Dead? ==> SeenCount(ms) == s.inFlight
    ensures Exec(s, ms).stack == [] ==> (Exec(s, ms).life.Dead? <==> SeenCount(ms) == s.inFlight)
  {
    ReachableInv(s);
    DrainRun(s, ms);
    InvRun(s, ms);
    assert Exec(s, ms).coros[KILL].status.Running? ==> Run(KILL) in Exec(s, ms).stack;
  }

  /** A kill begun before `start` leaves the manager dying for ever: `start` refuses to run. */
  lemma KilledOutsideNeverDies(s: State, ms: seq<Move>)
    requires Reachable(s) && s.life.Dying? && s.pc.Outside? && Legal(s, ms)
    ensures Exec(s, ms).life.Dying? && Exec(s, ms).pc.Outside? && SeenCount(ms) == 0
  {
    ReachableInv(s);
    DrainRun(s, ms);
    NothingSeenOutside(s, ms);
  }

  lemma {:induction false} NothingSeenOutside(s: State, ms: seq<Move>)
    requires Inv(s) && s.life.Dying? && s.pc.Outside? && Legal(s, ms)
    ensures SeenCount(ms) == 0
    decreases |ms|
  {
    if ms != [] {
      DrainStep(s, ms[0]);
      InvStep(s, ms[0]);
      NothingSeenOutside(Apply(s, ms[0]), ms[1..]);
    }
  }

  /** The loop waiting for a completion is stuck, with nothing at all able to happen,
      exactly when nothing is in flight, whatever the ready store holds. */
  lemma BlockedExactlyWhenIdle(s: State)
    requires Reachable(s) && s.stack == [] && s.pc.Wait?
    ensures (forall m :: !Enabled(s, m)) <==> s.inFlight == 0
  {
    ReachableInv(s);
    if s.cq != [] {
      CompletionsAreHandled(s);
      assert Enabled(s, Loop(WaitCqe));
    } else if s.inFlight != 0 {
      assert |s.kernel| > 0;
      var e :| e in s.kernel;
      assert e in Pending(s);
      assert Enabled(s, Kernel(e, 0));
    }
  }

  /** So the loop of a dying manager never is. */
  lemma DrainNeverBlocks(s: State)
    requires Reachable(s) && s.life.Dying? && s.stack == [] && s.pc.Wait?
    ensures exists m :: Enabled(s, m)
  {
    ReachableInv(s);
    BlockedExactlyWhenIdle(s);
  }

  // Termination.

  /** The moves the loop can still make, once the manager is dying. */
  function Rank(s: State): nat {
    6 * s.inFlight +
    match s.pc
    case Outside => 0
    case Top => 5
    case Polled(_) => 4
    case Wait => 3
    case Handled => 2
    case Killing => 6
  }

  lemma RankStep(s: State, m: Move)
    requires Inv(s) && Restricted(s) && Sparing(s, m)
    ensures Rank(Apply(s, m)) + One(m.Loop? && !m.l.Start?) <= Rank(s)
  {
    DrainStep(s, m);
    match m
    case Kernel(e, res) =>
    case Loop(l) => LoopRank(s, l);
    case Call(u) => RestrictedCall(s, u);
    case Unwind(f) => UnwindRing(s, f);
    case Library(b) => LibraryLife(s, b);
  }

  lemma LoopRank(s: State, l: LoopMove)
    requires AccountInv(s) && CanLoop(s, l) && Restricted(s)
    ensures Rank(DoLoop(s, l)) + One(!l.Start?) <= Rank(s)
  {
    LoopInFlight(s, l);
  }

  /** Whatever coroutines and kernel do in between, a dying manager's loop makes at most
      six moves for each request in flight, and then six. */
  lemma {:induction false} DrainTerminates(s: State, ms: seq<Move>)
    requires Inv(s) && Restricted(s) && Legal(s, ms)
    ensures LoopCount(ms) <= Rank(s) <= 6 * s.inFlight + 6
    decreases |ms|
  {
    if ms != [] {
      RankStep(s, ms[0]);
      InvStep(s, ms[0]);
      DrainStep(s, ms[0]);
      DrainTerminates(Apply(s, ms[0]), ms[1..]);
    }
  }

  // Death.

  /** A dead manager's ring is empty and nobody is parked on it. */
  lemma DeadMeansDrained(s: State)
    requires Reachable(s) && s.life.Dead?
    ensures s.sq == [] && s.kernel == multiset{} && s.cq == [] && s.inFlight == 0
    ensures forall c | 0 <= c < |s.coros| && s.coros[c].status.Parked? ::
      !s.coros[c].status.on.OnIo? && !s.coros[c].status.on.OnBatch?
  {
    ReachableInv(s);
    forall c | 0 <= c < |s.coros| && s.coros[c].status.Parked?
      ensures !s.coros[c].status.on.OnIo? && !s.coros[c].status.on.OnBatch?
    {
      OutstandingRequests(s, c);
      assert Pending(s) == multiset{};
      assert Outstanding(s, c) == {};
    }
  }

  /** `start` returns, having run its loop, only when the manager is dead, and then at the
      loop's next turn. */
  lemma StartEndsDead(s: State, m: Move)
    requires Reachable(s) && Sparing(s, m) && !s.pc.Outside?
    ensures Apply(s, m).pc.Outside? <==> s.life.Dead? && m == Loop(LoopTop)
  {
    ReadyChange(s, m);
    if m.Loop? { LoopEnds(s, m.l); }
  }

  lemma LoopEnds(s: State, l: LoopMove)
    requires CanLoop(s, l) && !s.pc.Outside?
    ensures DoLoop(s, l).pc.Outside? <==> s.life.Dead? && l == LoopTop
  {
  }

  /** A move of the kernel or of the loop, other than another call of `start`. */
  predicate OnItsOwn(m: Move) { m.Kernel? || (m.Loop? && !m.l.Start?) }

  /** When no coroutine runs, the loop or the kernel has a move, or the loop has been left. */
  lemma LoopProgress(s: State)
    requires Reachable(s) && Restricted(s) && s.stack == [] && !s.pc.Outside?
    ensures exists m :: Enabled(s, m) && OnItsOwn(m)
  {
    ReachableInv(s);
    CompletionsAreHandled(s);
    match s.pc
    case Top => assert Enabled(s, Loop(LoopTop)) && OnItsOwn(Loop(LoopTop));
    case Polled(_) => assert Enabled(s, Loop(PolledDone(false))) && OnItsOwn(Loop(PolledDone(false)));
    case Handled => assert Enabled(s, Loop(Seen(false))) && OnItsOwn(Loop(Seen(false)));
    case Killing => assert Enabled(s, Loop(KillRoundDone)) && OnItsOwn(Loop(KillRoundDone));
    case Wait => WaitProgress(s);
  }

  lemma WaitProgress(s: State)
    requires Reachable(s) && Restricted(s) && s.stack == [] && s.pc.Wait?
    ensures exists m :: Enabled(s, m) && OnItsOwn(m)
  {
    ReachableInv(s);
    BlockedExactlyWhenIdle(s);
    var m :| Enabled(s, m);
    assert OnItsOwn(m);
  }

  /** A run of a manager killed inside its loop makes a bounded number of moves of the loop;
      and if it leads to where no coroutine runs and neither kernel nor loop can move, then the
      loop has been left, and the manager is dead with nothing in flight. */
  lemma DrainEndsDead(s: State, ms: seq<Move>)
    requires Reachable(s) && s.life.Dying? && !s.pc.Outside? && Legal(s, ms)
    ensures LoopCount(ms) <= 6 * s.inFlight + 6
    ensures var t := Exec(s, ms);
      && (t.pc.Outside? ==> t.life.Dead? && t.inFlight == 0)
      && (t.stack == [] && (forall m | Enabled(t, m) :: !OnItsOwn(m)) ==> t.pc.Outside?)
  {
    ReachableInv(s);
    DrainTerminates(s, ms);
    LeavesDead(s, ms);
    var t := Exec(s, ms);
    ReachableRun(s, ms);
    ReachableInv(t);
    DrainRun(s, ms);
    if t.stack == [] && !t.pc.Outside? { LoopProgress(t); }
  }

  lemma {:induction false} LeavesDead(s: State, ms: seq<Move>)
    requires Reachable(s) && Restricted(s) && (s.pc.Outside? ==> s.life.Dead?) && Legal(s, ms)
    ensures Exec(s, ms).pc.Outside? ==> Exec(s, ms).life.Dead?
    decreases |ms|
  {
    if ms != [] {
      var t := Apply(s, ms[0]);
      ReachableInv(s);
      DrainStep(s, ms[0]);
      if !s.pc.Outside? { StartEndsDead(s, ms[0]); }
      ReachableStep(s, ms[0]);
      LeavesDead(t, ms[1..]);
    }
  }

  /** The step that ends a dying manager is the kill task's, which returns 0. */
  lemma KillReturnsZero(s: State, m: Move)
    requires Reachable(s) && Sparing(s, m) && s.life.Dying?
    ensures Apply(s, m).life.Dead? <==> m == Library(KillCheck) && s.inFlight == 0
    ensures Apply(s, m).life.Dead? ==> KILL < |Apply(s, m).coros| && Apply(s, m).coros[KILL].ret == 0
  {
    ReachableInv(s);
    match m
    case Kernel(e, res) =>
    case Loop(l) => LoopLife(s, l);
    case Call(u) => RestrictedCall(s, u);
    case Unwind(f) => UnwindRing(s, f);
    case Library(b) => LibraryKills(s, b);
  }

  lemma LibraryKills(s: State, b: BodyMove)
    requires AccountInv(s) && CanLibrary(s, b) && s.life.Dying?
    ensures DoLibrary(s, b).life.Dead? <==> b == KillCheck && s.inFlight == 0
    ensures DoLibrary(s, b).life.Dead? ==> KILL < |DoLibrary(s, b).coros| && DoLibrary(s, b).coros[KILL].ret == 0
  {
    match b
    case BatchBegin(c) => BatchBeginRing(s, c);
    case BatchHandled(_) => PauseRing(s, b);
    case PollBegin(_) => PauseRing(s, b);
    case PollHandled(_, _) => PauseRing(s, b);
    case KillBegin => KillRing(s, b);
    case KillCheck => KillRing(s, b);
  }

  /** Whoever waits for the kill task continues only when the manager is dead, and gets the
      kill task's return code. */
  lemma KillCallerContinuesDead(s: State, m: Move, c: nat)
    requires Reachable(s) && Sparing(s, m) && c < |s.coros|
    requires s.coros[c].status == Parked(OnTask(KILL)) && !StillWaits(Apply(s, m), c, KILL)
    ensures Apply(s, m).life.Dead? && Resumed(Apply(s, m), c, KILL)
  {
    ReachableInv(s);
    KillAwaiterStep(s, m, c);
  }

  lemma KillAwaiterStep(s: State, m: Move, c: nat)
    requires Inv(s) && Sparing(s, m) && c < |s.coros| && Waits(s.coros, c, KILL)
    ensures StillWaits(Apply(s, m), c, KILL) || (Apply(s, m).life.Dead? && Resumed(Apply(s, m), c, KILL))
  {
    AwaiterStep(s, m, c, KILL);
    DeliveryIfLoop(s, m);
    AccountStep(s, m);
  }

  /** A coroutine k that is in `kill()`, awaiting the kill task, and a caller c that awaits k:
      c continues only when the manager is dead. */
  lemma {:induction false} KillReturnsToCallerDead(s: State, ms: seq<Move>, k: nat, c: nat)
    requires Inv(s) && Legal(s, ms) && k < |s.coros| && c < |s.coros|
    requires !s.life.Dead? ==> Waits(s.coros, k, KILL) && Waits(s.coros, c, k)
    ensures Exec(s, ms).life.Dead? || StillWaits(Exec(s, ms), c, k)
    decreases |ms|
  {
    if ms != [] {
      var t := Apply(s, ms[0]);
      if s.life.Dead? { DrainStep(s, ms[0]); }
      else {
        KillAwaiterStep(s, ms[0], k);
        AwaiterStep(s, ms[0], c, k);
      }
      StepTurn(s, ms[0], k);
      InvStep(s, ms[0]);
      KillReturnsToCallerDead(t, ms[1..], k, c);
    }
  }
}
