/** Every reachable state satisfies the invariants of all the parts together. */
module Invariant {
  import opened Machine
  import opened Scheduling
  import opened Accounting
  import opened Placement
  import opened Waiting
  import opened Polling
  import opened Slots

  ghost predicate Inv(s: State) {
    SchedInv(s) && AccountInv(s) && PlaceInv(s) && WaitInv(s) && PollInv(s) && SlotInv(s)
  }

  lemma InitInv(capacity: nat, ringUp: bool)
    requires capacity > 0
    ensures Inv(Init(capacity, ringUp))
  {
    var s := Init(capacity, ringUp);
    assert Outstanding(s, KILL) == {};
    assert WaitOk(s, KILL);
  }

  /** `event_handler` resumes only a coroutine that is suspended and waits for exactly
      this: the owner of the completed request, the parked poller, the parked kill task. */
  lemma DeliverySafe(s: State, l: LoopMove)
    requires Inv(s) && CanLoop(s, l)
    ensures DeliversToWaiter(s, l)
  {
    if l.WaitCqe? && s.cq[0].Data? && s.pool[s.cq[0].id].handle.Some? {
      HeadIsAwaited(s, s.cq[0].id);
    }
  }

  lemma SchedStep(s: State, m: Move)
    requires SchedInv(s) && Sparing(s, m) && (m.Loop? ==> DeliversToWaiter(s, m.l))
    ensures SchedInv(Apply(s, m))
  {
    match m
    case Kernel(e, res) =>
    case Loop(l) => SchedLoopStep(s, l);
    case Call(u) => SchedCallStep(s, u);
    case Unwind(f) => SchedUnwindStep(s, f);
    case Library(b) => SchedLibraryStep(s, b);
  }

  /** Whatever the kernel, the callers' code and the library do next, unless it assigns over a
      task that has not finished. */
  lemma InvStep(s: State, m: Move)
    requires Inv(s) && Sparing(s, m)
    ensures Inv(Apply(s, m))
  {
    if m.Loop? { DeliverySafe(s, m.l); }
    SchedStep(s, m);
    AccountStep(s, m);
    PlaceStep(s, m);
    WaitStep(s, m);
    PollStep(s, m);
    SlotStep(s, m);
  }

  lemma {:induction false} InvRun(s: State, ms: seq<Move>)
    requires Inv(s) && Legal(s, ms)
    ensures Inv(Exec(s, ms))
    decreases |ms|
  {
    if ms != [] {
      InvStep(s, ms[0]);
      InvRun(Apply(s, ms[0]), ms[1..]);
    }
  }

  /** A state that some run of some manager reaches without destroying an unfinished task. */
  ghost predicate Reachable(s: State) {
    exists capacity: nat, ringUp: bool, ms: seq<Move> :: Reaches(capacity, ringUp, ms, s)
  }

  predicate Reaches(capacity: nat, ringUp: bool, ms: seq<Move>, s: State) {
    capacity > 0 && Legal(Init(capacity, ringUp), ms) && s == Exec(Init(capacity, ringUp), ms)
  }

  lemma ReachableInv(s: State)
    requires Reachable(s)
    ensures Inv(s)
  {
    var capacity: nat, ringUp: bool, ms: seq<Move> :| Reaches(capacity, ringUp, ms, s);
    InitInv(capacity, ringUp);
    InvRun(Init(capacity, ringUp), ms);
  }

  lemma RunCons(s: State, m: Move, ms: seq<Move>)
    requires Sparing(s, m) && Legal(Apply(s, m), ms)
    ensures Legal(s, [m] + ms) && Exec(s, [m] + ms) == Exec(Apply(s, m), ms)
  {
    assert ([m] + ms)[1..] == ms;
  }

  lemma {:induction false} RunExtends(s: State, ms: seq<Move>, m: Move)
    requires Legal(s, ms) && Sparing(Exec(s, ms), m)
    ensures Legal(s, ms + [m]) && Exec(s, ms + [m]) == Apply(Exec(s, ms), m)
    decreases |ms|
  {
    if ms == [] {
      RunCons(s, m, []);
      assert ms + [m] == [m] + [];
    } else {
      var t, rest := Apply(s, ms[0]), ms[1..];
      RunExtends(t, rest, m);
      RunCons(s, ms[0], rest + [m]);
      assert ms + [m] == [ms[0]] + (rest + [m]);
    }
  }

  lemma ReachableStep(s: State, m: Move)
    requires Reachable(s) && Sparing(s, m)
    ensures Reachable(Apply(s, m))
  {
    var capacity: nat, ringUp: bool, ms: seq<Move> :| Reaches(capacity, ringUp, ms, s);
    RunExtends(Init(capacity, ringUp), ms, m);
    assert Reaches(capacity, ringUp, ms + [m], Apply(s, m));
  }

  lemma {:induction false} ReachableRun(s: State, ms: seq<Move>)
    requires Reachable(s) && Legal(s, ms)
    ensures Reachable(Exec(s, ms))
    decreases |ms|
  {
    if ms != [] {
      ReachableStep(s, ms[0]);
      ReachableRun(Apply(s, ms[0]), ms[1..]);
    }
  }

  lemma ReachableInit(capacity: nat, ringUp: bool)
    requires capacity > 0
    ensures Reachable(Init(capacity, ringUp))
  {
    assert Legal(Init(capacity, ringUp), []);
    assert Reaches(capacity, ringUp, [], Init(capacity, ringUp));
  }

  // Runs that may destroy unfinished tasks.

  /** A state that some run of the code leads to. */
  ghost predicate Arises(s: State) {
    exists capacity: nat, ringUp: bool, ms: seq<Move> :: LeadsTo(capacity, ringUp, ms, s)
  }

  predicate LeadsTo(capacity: nat, ringUp: bool, ms: seq<Move>, s: State) {
    capacity > 0 && Possible(Init(capacity, ringUp), ms) && s == Exec(Init(capacity, ringUp), ms)
  }

  lemma ReachableArises(s: State)
    requires Reachable(s)
    ensures Arises(s)
  {
    var capacity: nat, ringUp: bool, ms: seq<Move> :| Reaches(capacity, ringUp, ms, s);
    assert LeadsTo(capacity, ringUp, ms, s);
  }

  lemma PossibleCons(s: State, m: Move, ms: seq<Move>)
    requires Enabled(s, m) && Possible(Apply(s, m), ms)
    ensures Possible(s, [m] + ms) && Exec(s, [m] + ms) == Exec(Apply(s, m), ms)
  {
    assert ([m] + ms)[1..] == ms;
  }

  lemma {:induction false} PossibleExtends(s: State, ms: seq<Move>, m: Move)
    requires Possible(s, ms) && Enabled(Exec(s, ms), m)
    ensures Possible(s, ms + [m]) && Exec(s, ms + [m]) == Apply(Exec(s, ms), m)
    decreases |ms|
  {
    if ms == [] {
      PossibleCons(s, m, []);
      assert ms + [m] == [m] + [];
    } else {
      var t, rest := Apply(s, ms[0]), ms[1..];
      PossibleExtends(t, rest, m);
      PossibleCons(s, ms[0], rest + [m]);
      assert ms + [m] == [ms[0]] + (rest + [m]);
    }
  }

  lemma ArisesStep(s: State, m: Move)
    requires Arises(s) && Enabled(s, m)
    ensures Arises(Apply(s, m))
  {
    var capacity: nat, ringUp: bool, ms: seq<Move> :| LeadsTo(capacity, ringUp, ms, s);
    PossibleExtends(Init(capacity, ringUp), ms, m);
    assert LeadsTo(capacity, ringUp, ms + [m], Apply(s, m));
  }
}
