/** Non-awaitable completions on their way to the poller: how many wait, and in which order
    they are handed over. */
module PollOrder {
  import opened Option
  import opened Requests
  import opened Machine
  import opened Scheduling
  import opened Accounting
  import opened Placement
  import opened Polling
  import opened Invariant

  /** While somebody is polling, the poller is parked whenever no coroutine runs. */
  lemma PollerIsParked(s: State)
    requires Reachable(s) && s.polling && s.stack == []
    ensures s.pollHandle.Some? && PollerParked(s.coros, s.pollHandle.value)
  {
    ReachableInv(s);
    PollerParkedInv(s);
  }

  lemma PollerParkedInv(s: State)
    requires Inv(s) && s.polling && s.stack == []
    ensures s.pollHandle.Some?
  {
    var c: nat :| c < |s.coros| && Active(s.coros[c]);
    assert ParkFits(s.coros[c]);
    assert s.coros[c].status.Running? ==> Run(c) in s.stack;
  }

  /** A poll is refused exactly while another one goes on, and otherwise parks. */
  lemma OnlyOnePolls(s: State, c: nat)
    requires Reachable(s) && CanPollBegin(s, c)
    ensures var t := DoPollBegin(s, c);
      && c < |t.coros|
      && if exists d :: 0 <= d < |s.coros| && Active(s.coros[d]) then Over(t.coros[c]) && t.coros[c].ret == -1
         else t.coros[c].status == Parked(OnPoll) && t.pollHandle == Some(c) && t.polling
  {
    ReachableInv(s);
    TopIsOk(s);
    PollBeginEnds(s, c);
  }

  lemma PollBeginEnds(s: State, c: nat)
    requires TopOk(s) && CanPollBegin(s, c)
    ensures var t := DoPollBegin(s, c);
      && c < |t.coros|
      && if s.polling then Over(t.coros[c]) && t.coros[c].ret == -1
         else t.coros[c].status == Parked(OnPoll) && t.pollHandle == Some(c) && t.polling
  {
  }

  /** A dispatch resumes the parked poller with the response to the last ready request, and
      takes its handle away until it parks again. */
  lemma DispatchResumesPoller(s: State)
    requires Reachable(s) && CanLoopTop(s) && !s.life.Dead? && s.ready != [] && s.pollHandle.Some?
    ensures var id := s.ready[|s.ready| - 1];
      var p := s.pollHandle.value;
      var t := DoLoopTop(s);
      && PollerParked(s.coros, p) && |t.coros| == |s.coros| && t.stack == [Run(p)] && t.pollHandle == None
      && t.coros[p].status.Running? && t.coros[p].channel == Response(s.pool[id])
      && s.pool[id].dynamic && t.pc == Polled(id) && t.ready + [id] == s.ready && t.polled == s.polled + [id]
  {
    ReachableInv(s);
    var id := s.ready[|s.ready| - 1];
    assert id in s.ready && PlaceOk(s, id);
    assert Active(s.coros[s.pollHandle.value]);
    DispatchesTo(s);
  }

  lemma DispatchesTo(s: State)
    requires CanLoopTop(s) && !s.life.Dead? && s.ready != [] && s.pollHandle.Some?
    requires Active(s.coros[s.pollHandle.value])
    ensures var id := s.ready[|s.ready| - 1];
      var p := s.pollHandle.value;
      var t := DoLoopTop(s);
      && |t.coros| == |s.coros| && t.stack == [Run(p)] && t.pollHandle == None
      && t.coros[p].status.Running? && t.coros[p].channel == Response(s.pool[id])
      && t.pc == Polled(id) && t.ready + [id] == s.ready && t.polled == s.polled + [id]
  {
  }

  /** Every state of the run has a poll going on. */
  predicate PollsOn(s: State, ms: seq<Move>)
    requires Legal(s, ms)
    decreases |ms|
  {
    s.polling && (ms == [] || PollsOn(Apply(s, ms[0]), ms[1..]))
  }

  /** At most b requests are ready at the loop head, one fewer once it has dispatched. */
  predicate Bounded(s: State, b: nat) {
    |s.ready| <= if s.pc.Polled? || s.pc.Wait? then b - 1 else b
  }

  /** The moves that touch the ready store. */
  lemma ReadyChange(s: State, m: Move)
    requires Sparing(s, m)
    ensures !(m.Loop? && (m.l.LoopTop? || m.l.WaitCqe?)) ==>
      var t := Apply(s, m); t.ready == s.ready && t.arrived == s.arrived && t.polled == s.polled
    ensures !m.Loop? ==> Apply(s, m).pc == s.pc
  {
    match m
    case Kernel(e, res) =>
    case Loop(l) => LoopReady(s, l);
    case Call(u) => if !u.AwaitIo? && !u.SubmitNa? { CallRing(s, u); }
    case Unwind(f) => UnwindRing(s, f);
    case Library(b) => LibraryReady(s, b);
  }

  lemma LoopReady(s: State, l: LoopMove)
    requires CanLoop(s, l)
    ensures !l.LoopTop? && !l.WaitCqe? ==>
      var t := DoLoop(s, l); t.ready == s.ready && t.arrived == s.arrived && t.polled == s.polled
  {
  }

  lemma LibraryReady(s: State, b: BodyMove)
    requires CanLibrary(s, b)
    ensures var t := DoLibrary(s, b);
      t.ready == s.ready && t.arrived == s.arrived && t.polled == s.polled && t.pc == s.pc
  {
    match b
    case BatchBegin(c) => BatchBeginRing(s, c);
    case BatchHandled(_) => PauseRing(s, b);
    case PollBegin(_) => PauseRing(s, b);
    case PollHandled(_, _) => PauseRing(s, b);
    case KillBegin => KillRing(s, b);
    case KillCheck => KillRing(s, b);
  }

  lemma BoundedStep(s: State, m: Move, b: nat)
    requires Inv(s) && Sparing(s, m) && s.polling && b >= 1 && Bounded(s, b)
    ensures Bounded(Apply(s, m), b)
  {
    ReadyChange(s, m);
    if m.Loop? { BoundedLoop(s, m.l, b); }
  }

  lemma BoundedLoop(s: State, l: LoopMove, b: nat)
    requires Inv(s) && CanLoop(s, l) && s.polling && b >= 1 && Bounded(s, b)
    ensures Bounded(DoLoop(s, l), b)
  {
    PollerParkedInv(s);
    LoopBounds(s, l, b);
  }

  lemma LoopBounds(s: State, l: LoopMove, b: nat)
    requires CanLoop(s, l) && s.pollHandle.Some? && b >= 1 && Bounded(s, b)
    ensures Bounded(DoLoop(s, l), b)
  {
  }

  /** While polling goes on from a loop head with k requests ready, there are never more
      than max(k, 1) at a loop head. */
  lemma {:induction false} ReadyStoreBounded(s: State, ms: seq<Move>, b: nat)
    requires Inv(s) && Legal(s, ms) && PollsOn(s, ms) && b >= 1 && Bounded(s, b)
    ensures Bounded(Exec(s, ms), b)
    decreases |ms|
  {
    if ms != [] {
      BoundedStep(s, ms[0], b);
      InvStep(s, ms[0]);
      ReadyStoreBounded(Apply(s, ms[0]), ms[1..], b);
    }
  }

  /** Since the store held `first` and the histories had lengths a and p, `first` and then
      what has arrived have been handed over in this order, but for what is still ready. */
  predicate HandedInOrder(s: State, first: seq<nat>, a: nat, p: nat) {
    a <= |s.arrived| && p <= |s.polled| && first + s.arrived[a..] == s.polled[p..] + s.ready
  }

  lemma HandedStep(s: State, m: Move, first: seq<nat>, a: nat, p: nat)
    requires Sparing(s, m) && Bounded(s, 1) && HandedInOrder(s, first, a, p)
    ensures HandedInOrder(Apply(s, m), first, a, p)
  {
    ReadyChange(s, m);
    if m == Loop(LoopTop) { DispatchInOrder(s, first, a, p); }
    if m == Loop(WaitCqe) { ArrivalInOrder(s, first, a, p); }
  }

  lemma DispatchInOrder(s: State, first: seq<nat>, a: nat, p: nat)
    requires CanLoopTop(s) && Bounded(s, 1) && HandedInOrder(s, first, a, p)
    ensures HandedInOrder(DoLoopTop(s), first, a, p)
  {
    var t := DoLoopTop(s);
    if !s.life.Dead? && s.ready != [] && s.pollHandle.Some? {
      assert s.ready == [s.ready[0]] && t.ready == [];
      assert t.polled[p..] == s.polled[p..] + [s.ready[0]];
    }
  }

  lemma ArrivalInOrder(s: State, first: seq<nat>, a: nat, p: nat)
    requires CanWaitCqe(s) && HandedInOrder(s, first, a, p)
    ensures HandedInOrder(DoWaitCqe(s), first, a, p)
  {
    var t := DoWaitCqe(s);
    if t.arrived != s.arrived {
      assert t.arrived[a..] == s.arrived[a..] + [s.cq[0].id];
      assert first + t.arrived[a..] == (first + s.arrived[a..]) + [s.cq[0].id];
    }
  }

  lemma {:induction false} HandedRun(s: State, ms: seq<Move>, first: seq<nat>, a: nat, p: nat)
    requires Inv(s) && Legal(s, ms) && PollsOn(s, ms) && Bounded(s, 1) && HandedInOrder(s, first, a, p)
    ensures HandedInOrder(Exec(s, ms), first, a, p)
    decreases |ms|
  {
    if ms != [] {
      HandedStep(s, ms[0], first, a, p);
      BoundedStep(s, ms[0], 1);
      InvStep(s, ms[0]);
      HandedRun(Apply(s, ms[0]), ms[1..], first, a, p);
    }
  }

  /** A poller that finds at most one request ready at a loop head is handed that and then the
      completions that arrive while it polls in the order in which they complete, each once,
      although the store is popped from the back. */
  lemma PolledInCompletionOrder(s: State, ms: seq<Move>)
    requires Reachable(s) && Bounded(s, 1) && Legal(s, ms) && PollsOn(s, ms)
    ensures var t := Exec(s, ms);
      && |s.arrived| <= |t.arrived| && |s.polled| <= |t.polled|
      && s.ready + t.arrived[|s.arrived|..] == t.polled[|s.polled|..] + t.ready
      && |t.ready| <= 1
  {
    ReachableInv(s);
    HandedRun(s, ms, s.ready, |s.arrived|, |s.polled|);
    ReadyStoreBounded(s, ms, 1);
  }

  // The order of the ready store.

  /** The elements of r are among those of a, in the same order. */
  predicate Subsequence(r: seq<nat>, a: seq<nat>) {
    r == [] ||
    (a != [] &&
     if r[|r| - 1] == a[|a| - 1] then Subsequence(r[..|r| - 1], a[..|a| - 1]) else Subsequence(r, a[..|a| - 1]))
  }

  lemma {:induction false} SubsequenceShrinks(r: seq<nat>, a: seq<nat>)
    requires Subsequence(r, a) && r != []
    ensures Subsequence(r[..|r| - 1], a)
    decreases |a|
  {
    var front := a[..|a| - 1];
    if r[|r| - 1] == a[|a| - 1] {
      if |r| > 1 && r[|r| - 2] == a[|a| - 1] { SubsequenceShrinks(r[..|r| - 1], front); }
    } else {
      SubsequenceShrinks(r, front);
      if |r| > 1 && r[|r| - 2] == a[|a| - 1] { SubsequenceShrinks(r[..|r| - 1], front); }
    }
  }

  lemma ArrivalLast(r: seq<nat>, a: seq<nat>, id: nat)
    requires Subsequence(r, a)
    ensures Subsequence(r + [id], a + [id])
  {
    assert (r + [id])[..|r|] == r && (a + [id])[..|a|] == a;
  }

  lemma ReadyOrderStep(s: State, m: Move)
    requires Sparing(s, m) && Subsequence(s.ready, s.arrived)
    ensures Subsequence(Apply(s, m).ready, Apply(s, m).arrived)
  {
    ReadyChange(s, m);
    if m == Loop(LoopTop) && s.ready != [] { SubsequenceShrinks(s.ready, s.arrived); TopTakesLast(s); }
    if m == Loop(WaitCqe) { WaitAddsLast(s); }
  }

  lemma TopTakesLast(s: State)
    requires CanLoopTop(s) && s.ready != []
    ensures DoLoopTop(s).arrived == s.arrived
    ensures DoLoopTop(s).ready == s.ready || DoLoopTop(s).ready == s.ready[..|s.ready| - 1]
  {
  }

  lemma WaitAddsLast(s: State)
    requires CanWaitCqe(s) && Subsequence(s.ready, s.arrived)
    ensures Subsequence(DoWaitCqe(s).ready, DoWaitCqe(s).arrived)
  {
    if s.cq[0].Data? { ArrivalLast(s.ready, s.arrived, s.cq[0].id); }
  }

  lemma {:induction false} ReadyOrderRun(s: State, ms: seq<Move>)
    requires Legal(s, ms) && Subsequence(s.ready, s.arrived)
    ensures Subsequence(Exec(s, ms).ready, Exec(s, ms).arrived)
    decreases |ms|
  {
    if ms != [] {
      ReadyOrderStep(s, ms[0]);
      ReadyOrderRun(Apply(s, ms[0]), ms[1..]);
    }
  }

  /** What is ready is in the order in which it arrived, so that the last one, which a dispatch
      takes, is the one that arrived last. */
  lemma ReadyInArrivalOrder(s: State)
    requires Reachable(s)
    ensures Subsequence(s.ready, s.arrived)
  {
    var capacity: nat, ringUp: bool, ms: seq<Move> :| Reaches(capacity, ringUp, ms, s);
    ReadyOrderRun(Init(capacity, ringUp), ms);
  }

  /** The dispatch takes the oldest ready request exactly when it is the only one. */
  lemma DispatchTakesOldest(s: State)
    requires Reachable(s) && CanLoopTop(s) && !s.life.Dead? && s.ready != [] && s.pollHandle.Some?
    ensures |DoLoopTop(s).polled| == |s.polled| + 1
    ensures DoLoopTop(s).polled[|s.polled|] == s.ready[0] <==> |s.ready| == 1
  {
    ReachableInv(s);
    ReadyIsDistinct(s);
  }

  lemma ReadyIsDistinct(s: State)
    requires PlaceInv(s) && s.ready != []
    ensures s.ready[0] == s.ready[|s.ready| - 1] <==> |s.ready| == 1
  {
    var last := s.ready[|s.ready| - 1];
    assert last in s.ready;
    assert PlaceOk(s, last);
    var front := s.ready[..|s.ready| - 1];
    assert s.ready == front + [last];
    assert |s.ready| > 1 ==> s.ready[0] == front[0] && front[0] in multiset(front);
  }
}
