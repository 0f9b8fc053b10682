/** Which requests a run makes, what the kernel answers to each, and in which order its answers
    are taken up: told by the moves of the run alone. */
module Ledger {
  import opened Option
  import opened Requests
  import opened Machine
  import opened Accounting
  import opened Placement
  import opened Invariant

  /** Somebody asked for an operation: a coroutine, to be resumed with the response, or nobody
      in particular, to have it polled. */
  datatype Asked = Asked(who: Option<nat>, params: Params)

  /** How many requests the manager lets its callers make at once. */
  function Room(s: State): nat {
    if s.life.Dying? || s.life.Dead? || |s.sq| >= s.capacity then 0 else s.capacity - |s.sq|
  }

  function Wanted(s: State, m: Move): seq<Asked>
    requires Enabled(s, m)
  {
    match m
    case Call(AwaitIo(c, p)) => [Asked(Some(c), p)]
    case Call(SubmitNa(p)) => [Asked(None, p)]
    case Library(BatchBegin(c)) =>
      var reqs := s.coros[c].body.reqs;
      seq(|reqs|, j requires 0 <= j < |reqs| => Asked(Some(c), reqs[j]))
    case _ => []
  }

  /** The requests that the step makes: of those wanted the first, as many as there is room for. */
  function Made(s: State, m: Move): seq<Asked>
    requires Enabled(s, m)
  {
    var wanted := Wanted(s, m);
    if |wanted| <= Room(s) then wanted else wanted[..Room(s)]
  }

  lemma BatchMakes(s: State, c: nat)
    requires CanBatchBegin(s, c)
    ensures |Made(s, Library(BatchBegin(c)))| == Admitted(s, |s.coros[c].body.reqs|)
  {
  }

  /** The result that the kernel gives to the request in this step, or the one it had before. */
  function Given(m: Move, id: nat, before: int): int {
    match m
    case Kernel(e, res) => if e == Data(id) then res else before
    case _ => before
  }

  /** The data of a request are of what was asked, and name who asked. */
  predicate IsRecord(r: RequestData, q: Asked) {
    r.specific == q.params && r.reqType == Tag(q.params) && r.dynamic == q.who.None?
    && (q.who.Some? ==> r.handle == q.who)
  }

  /** These requests have been added. */
  predicate Adds(s: State, t: State, made: seq<Asked>) {
    && |t.pool| == |s.pool| + |made|
    && forall j | 0 <= j < |made| ::
         var r := t.pool[|s.pool| + j]; IsRecord(r, made[j]) && r.handle == made[j].who && r.res == 0
  }

  /** The others are as they were, but for the result of one that the kernel completes. */
  predicate KeepsOthers(s: State, m: Move, t: State) {
    && |s.pool| <= |t.pool|
    && forall id | 0 <= id < |s.pool| ::
         && t.pool[id].specific == s.pool[id].specific && t.pool[id].dynamic == s.pool[id].dynamic
         && (!s.pool[id].dynamic ==> t.pool[id].handle == s.pool[id].handle)
         && t.pool[id].res == Given(m, id, s.pool[id].res)
  }

  /** The entries that the step hands to the kernel. */
  function Submitted(s: State, m: Move): multiset<Entry>
    requires Enabled(s, m)
  {
    multiset(Fresh(|s.pool|, |Made(s, m)|))
    + if m == Library(KillBegin) && !s.life.Dying? && !s.life.Dead? then multiset{Cancel} else multiset{}
  }

  /** The kernel gains those and loses what it completes; completions queue up in order, and the
      one marked seen leaves the queue. */
  predicate MovesEntries(s: State, m: Move, t: State)
    requires Enabled(s, m)
  {
    && t.capacity == s.capacity && t.sq == []
    && t.kernel == s.kernel + Submitted(s, m) - (if m.Kernel? then multiset{m.e} else multiset{})
    && t.cq == if m.Kernel? then s.cq + [m.e] else if m.Loop? && m.l.Seen? then s.cq[1..] else s.cq
  }

  // Steps that make no request.

  lemma SameRingMakesNothing(s: State, m: Move, t: State)
    requires Enabled(s, m) && SameRing(s, t) && s.sq == [] && !m.Kernel? && !(m.Loop? && m.l.Seen?)
    requires Made(s, m) == [] && !(m == Library(KillBegin) && !s.life.Dying? && !s.life.Dead?)
    ensures Adds(s, t, []) && KeepsOthers(s, m, t) && MovesEntries(s, m, t)
  {
  }

  lemma LoopTopMoves(s: State)
    requires PlaceInv(s) && CanLoopTop(s)
    ensures |DoLoopTop(s).pool| == |s.pool| && KeepsOthers(s, Loop(LoopTop), DoLoopTop(s))
    ensures DoLoopTop(s).sq == s.sq && DoLoopTop(s).kernel == s.kernel && DoLoopTop(s).cq == s.cq
    ensures DoLoopTop(s).capacity == s.capacity
  {
    if !s.life.Dead? && s.ready != [] && s.pollHandle.Some? {
      var last := s.ready[|s.ready| - 1];
      assert last in s.ready && PlaceOk(s, last);
      assert SameRing(Dispatched(s), DoLoopTop(s));
    }
  }

  lemma LoopMakesNothing(s: State, l: LoopMove)
    requires PlaceInv(s) && s.sq == [] && CanLoop(s, l)
    ensures Adds(s, DoLoop(s, l), []) && KeepsOthers(s, Loop(l), DoLoop(s, l)) && MovesEntries(s, Loop(l), DoLoop(s, l))
  {
    LoopMakesNone(s, l);
    match l
    case LoopTop => LoopTopMoves(s);
    case Seen(done) => SeenMoves(s, done);
    case _ => OtherLoopMoves(s, l);
  }

  lemma LoopMakesNone(s: State, l: LoopMove)
    requires CanLoop(s, l)
    ensures Submitted(s, Loop(l)) == multiset{} && Made(s, Loop(l)) == []
  {
  }

  lemma OtherLoopMoves(s: State, l: LoopMove)
    requires CanLoop(s, l) && !l.LoopTop? && !l.Seen?
    ensures DoLoop(s, l).pool == s.pool && DoLoop(s, l).sq == s.sq && DoLoop(s, l).kernel == s.kernel
    ensures DoLoop(s, l).cq == s.cq && DoLoop(s, l).capacity == s.capacity
  {
    if l.WaitCqe? { WaitIsTakenUp(s); }
  }

  lemma SeenMoves(s: State, done: bool)
    requires CanSeen(s, done)
    ensures DoSeen(s, done).pool == s.pool && DoSeen(s, done).sq == s.sq && DoSeen(s, done).kernel == s.kernel
    ensures DoSeen(s, done).cq == s.cq[1..] && DoSeen(s, done).capacity == s.capacity
  {
  }

  // Steps that make some.

  /** One more request, queued and submitted. */
  predicate AddsOne(s: State, t: State, r: RequestData) {
    && t.pool == s.pool + [r] && t.capacity == s.capacity && t.sq == [] && t.cq == s.cq
    && t.kernel == s.kernel + multiset(Fresh(|s.pool|, 1))
  }

  lemma QueueAddsOne(s: State, r: RequestData)
    requires s.sq == []
    ensures AddsOne(s, SubmitAll(Queue(s, r)), r)
  {
    assert [] + [Data(|s.pool|)] == Fresh(|s.pool|, 1);
  }

  lemma OneIsMade(s: State, m: Move, t: State, q: Asked, r: RequestData)
    requires Enabled(s, m) && m.Call? && Made(s, m) == [q] && AddsOne(s, t, r) && s.sq == []
    requires IsRecord(r, q) && r.handle == q.who && r.res == 0
    ensures Adds(s, t, Made(s, m)) && KeepsOthers(s, m, t) && MovesEntries(s, m, t)
  {
  }

  lemma AwaitIoMakes(s: State, c: nat, p: Params)
    requires s.sq == [] && CanAwaitIo(s, c)
    ensures var m, t := Call(AwaitIo(c, p)), DoAwaitIo(s, c, p);
      Adds(s, t, Made(s, m)) && KeepsOthers(s, m, t) && MovesEntries(s, m, t)
  {
    if SqeAvailable(s) {
      var r := RequestRecord(Some(c), s.coros[c].metadata, Tag(p), false, p, 0);
      QueueAddsOne(s, r);
      assert SameRing(SubmitAll(Queue(s, r)), DoAwaitIo(s, c, p));
      OneIsMade(s, Call(AwaitIo(c, p)), DoAwaitIo(s, c, p), Asked(Some(c), p), r);
    } else {
      SameRingMakesNothing(s, Call(AwaitIo(c, p)), DoAwaitIo(s, c, p));
    }
  }

  lemma SubmitNaMakes(s: State, p: Params)
    requires s.sq == [] && CanSubmitNa(s)
    ensures var m, t := Call(SubmitNa(p)), DoSubmitNa(s, p);
      Adds(s, t, Made(s, m)) && KeepsOthers(s, m, t) && MovesEntries(s, m, t)
  {
    if SqeAvailable(s) {
      var r := RequestRecord(None, 0, Tag(p), true, p, 0);
      QueueAddsOne(s, r);
      OneIsMade(s, Call(SubmitNa(p)), DoSubmitNa(s, p), Asked(None, p), r);
    }
  }

  lemma BatchBeginMakes(s: State, c: nat)
    requires CanBatchBegin(s, c)
    ensures var m, t := Library(BatchBegin(c)), DoBatchBegin(s, c);
      Adds(s, t, Made(s, m)) && KeepsOthers(s, m, t) && MovesEntries(s, m, t)
  {
    var reqs := s.coros[c].body.reqs;
    var k := Admitted(s, |reqs|);
    var q := QueueBatch(s, c, reqs, k);
    BatchBeginRing(s, c);
    BatchMakes(s, c);
    assert q.sq == Fresh(|s.pool|, k);
    assert SubmitAll(q).pool == q.pool;
  }

  lemma KillBeginMakes(s: State)
    requires s.sq == [] && CanKillBegin(s)
    ensures var m, t := Library(KillBegin), DoKillBegin(s);
      Adds(s, t, []) && KeepsOthers(s, m, t) && MovesEntries(s, m, t)
  {
    KillRing(s, KillBegin);
    var s1 := Set(s, KILL, s.coros[KILL].(begun := true));
    if Restricted(s) { assert SameRing(s1, DoKillBegin(s)); }
    else {
      CancelTaken(s1);
      assert SameRing(KillSubmitted(s1), DoKillBegin(s));
    }
  }

  lemma CancelTaken(s: State)
    requires s.sq == []
    ensures KillSubmitted(s).sq == [] && KillSubmitted(s).kernel == s.kernel + multiset{Cancel}
    ensures KillSubmitted(s).inFlight != 0
  {
    assert [] + [Cancel] == [Cancel];
    assert KillSubmitted(s).kernel == s.kernel + multiset([]) + multiset([] + [Cancel]);
  }

  lemma KillCheckMakes(s: State)
    requires s.sq == [] && CanKillCheck(s)
    ensures var m, t := Library(KillCheck), KillLoop(s);
      Adds(s, t, []) && KeepsOthers(s, m, t) && MovesEntries(s, m, t)
  {
    KillRing(s, KillCheck);
    assert KillLoop(s).kernel == s.kernel && KillLoop(s).sq == s.sq;
  }

  lemma CallMakes(s: State, u: CallMove)
    requires s.sq == [] && CanCall(s, u)
    ensures var m, t := Call(u), DoCall(s, u);
      Adds(s, t, Made(s, m)) && KeepsOthers(s, m, t) && MovesEntries(s, m, t)
  {
    match u
    case AwaitIo(c, p) => AwaitIoMakes(s, c, p);
    case SubmitNa(p) => SubmitNaMakes(s, p);
    case _ => CallRing(s, u); SameRingMakesNothing(s, Call(u), DoCall(s, u));
  }

  lemma LibraryMakes(s: State, b: BodyMove)
    requires s.sq == [] && CanLibrary(s, b)
    ensures var m, t := Library(b), DoLibrary(s, b);
      Adds(s, t, Made(s, m)) && KeepsOthers(s, m, t) && MovesEntries(s, m, t)
  {
    match b
    case BatchBegin(c) => BatchBeginMakes(s, c);
    case KillBegin => KillBeginMakes(s);
    case KillCheck => KillCheckMakes(s);
    case _ => PauseRing(s, b); SameRingMakesNothing(s, Library(b), DoLibrary(s, b));
  }

  lemma KernelMakesNothing(s: State, e: Entry, res: int)
    requires s.sq == [] && CanComplete(s, e)
    ensures var m, t := Kernel(e, res), DoComplete(s, e, res);
      Adds(s, t, []) && KeepsOthers(s, m, t) && MovesEntries(s, m, t)
  {
  }

  /** Every step adds to the ring just the requests that are asked for and that there is room
      for, each with its own parameters, type and asker, and changes no other one but by the
      result that the kernel gives it. */
  lemma StepMakes(s: State, m: Move)
    requires PlaceInv(s) && s.sq == [] && Enabled(s, m)
    ensures Adds(s, Apply(s, m), Made(s, m)) && KeepsOthers(s, m, Apply(s, m)) && MovesEntries(s, m, Apply(s, m))
  {
    match m
    case Kernel(e, res) => KernelMakesNothing(s, e, res);
    case Loop(l) => LoopMakesNothing(s, l);
    case Call(u) => CallMakes(s, u);
    case Unwind(f) => UnwindRing(s, f); SameRingMakesNothing(s, m, DoUnwind(s, f));
    case Library(b) => LibraryMakes(s, b);
  }

  // Over runs.

  /** The requests that a run makes, in order. */
  function MadeIn(s: State, ms: seq<Move>): seq<Asked>
    requires Possible(s, ms)
    decreases |ms|
  {
    if ms == [] then [] else Made(s, ms[0]) + MadeIn(Apply(s, ms[0]), ms[1..])
  }

  /** The result that the run's kernel moves leave the request with. */
  function ResultIn(ms: seq<Move>, id: nat, before: int): int {
    if ms == [] then before else ResultIn(ms[1..], id, Given(ms[0], id, before))
  }

  /** The entries that the run's kernel moves complete, in order. */
  function CompletedIn(ms: seq<Move>): seq<Entry> {
    if ms == [] then []
    else (if ms[0].Kernel? then [ms[0].e] else []) + CompletedIn(ms[1..])
  }

  lemma {:induction false} ResultWasGiven(ms: seq<Move>, id: nat, before: int)
    requires Data(id) in CompletedIn(ms)
    ensures Kernel(Data(id), ResultIn(ms, id, before)) in ms
  {
    var rest := ms[1..];
    var now := Given(ms[0], id, before);
    if Data(id) in CompletedIn(rest) { ResultWasGiven(rest, id, now); }
    else { NoneGiven(rest, id, now); }
  }

  lemma {:induction false} NoneGiven(ms: seq<Move>, id: nat, before: int)
    requires Data(id) !in CompletedIn(ms)
    ensures ResultIn(ms, id, before) == before
  {
    if ms != [] { NoneGiven(ms[1..], id, before); }
  }

  /** The request data of t are those of s and then those made, as they were asked for, with
      these results. */
  predicate PoolHolds(s: State, t: State, made: seq<Asked>, ms: seq<Move>) {
    && |t.pool| == |s.pool| + |made|
    && (forall id | 0 <= id < |s.pool| :: SameRequest(s.pool[id], t.pool[id]))
    && (forall j | 0 <= j < |made| :: IsRecord(t.pool[|s.pool| + j], made[j]))
    && (forall id | 0 <= id < |t.pool| :: t.pool[id].res == ResultIn(ms, id, OldResult(s, id)))
  }

  predicate SameRequest(x: RequestData, y: RequestData) {
    y.specific == x.specific && y.dynamic == x.dynamic && (!x.dynamic ==> y.handle == x.handle)
  }

  function OldResult(s: State, id: nat): int { if id < |s.pool| then s.pool[id].res else 0 }

  /** Over any run. */
  lemma {:induction false} PoolRun(s: State, ms: seq<Move>)
    requires Inv(s) && Legal(s, ms)
    ensures PoolHolds(s, Exec(s, ms), MadeIn(s, ms), ms)
    decreases |ms|
  {
    if ms != [] {
      StepMakes(s, ms[0]);
      InvStep(s, ms[0]);
      PoolRun(Apply(s, ms[0]), ms[1..]);
      HoldsFirst(s, Apply(s, ms[0]), Exec(s, ms), ms, MadeIn(Apply(s, ms[0]), ms[1..]));
    }
  }

  lemma HoldsFirst(s: State, u: State, t: State, ms: seq<Move>, made: seq<Asked>)
    requires ms != [] && Enabled(s, ms[0]) && Adds(s, u, Made(s, ms[0])) && KeepsOthers(s, ms[0], u)
    requires PoolHolds(u, t, made, ms[1..])
    ensures PoolHolds(s, t, Made(s, ms[0]) + made, ms)
  {
    var first := Made(s, ms[0]);
    forall j | 0 <= j < |first + made| ensures IsRecord(t.pool[|s.pool| + j], (first + made)[j]) {
      if j < |first| { assert IsRecord(u.pool[|s.pool| + j], first[j]); }
      else { assert IsRecord(t.pool[|u.pool| + (j - |first|)], made[j - |first|]); }
    }
    forall id: nat | id < |t.pool| ensures t.pool[id].res == ResultIn(ms, id, OldResult(s, id)) {
      ResultFirst(s, u, ms[0], id);
    }
  }

  lemma ResultFirst(s: State, u: State, m: Move, id: nat)
    requires Enabled(s, m) && Adds(s, u, Made(s, m)) && KeepsOthers(s, m, u)
    ensures OldResult(u, id) == Given(m, id, OldResult(s, id))
  {
    if |s.pool| <= id < |u.pool| { assert IsRecord(u.pool[|s.pool| + (id - |s.pool|)], Made(s, m)[id - |s.pool|]); }
  }

  /** A request in the ring is completed at most once: what a run has made is with the kernel
      still or has been completed. */
  lemma {:induction false} CompletedOnceFrom(s: State, ms: seq<Move>, id: nat)
    requires Inv(s) && Legal(s, ms)
    ensures multiset(CompletedIn(ms))[Data(id)] + Exec(s, ms).kernel[Data(id)] ==
      s.kernel[Data(id)] + One(|s.pool| <= id < |Exec(s, ms).pool|)
    ensures |s.pool| <= |Exec(s, ms).pool|
    decreases |ms|
  {
    if ms != [] {
      var u := Apply(s, ms[0]);
      StepMakes(s, ms[0]);
      InvStep(s, ms[0]);
      CompletedOnceFrom(u, ms[1..], id);
      FreshCounts(|s.pool|, |Made(s, ms[0])|, Data(id));
      KernelCount(s, ms[0], id);
      var first := if ms[0].Kernel? then [ms[0].e] else [];
      assert CompletedIn(ms) == first + CompletedIn(ms[1..]);
      assert multiset(CompletedIn(ms)) == multiset(first) + multiset(CompletedIn(ms[1..]));
    }
  }

  lemma KernelCount(s: State, m: Move, id: nat)
    requires Enabled(s, m) && MovesEntries(s, m, Apply(s, m))
    ensures Apply(s, m).kernel[Data(id)] + One(m.Kernel? && m.e == Data(id)) ==
      s.kernel[Data(id)] + multiset(Fresh(|s.pool|, |Made(s, m)|))[Data(id)]
  {
  }

  /** The entries whose completions the run takes up, in order. */
  function TakenUpIn(s: State, ms: seq<Move>): seq<Entry>
    requires Possible(s, ms)
    decreases |ms|
  {
    if ms == [] then []
    else (if ms[0] == Loop(WaitCqe) then [s.cq[0]] else []) + TakenUpIn(Apply(s, ms[0]), ms[1..])
  }

  /** The request to be polled whose completion the step takes up. */
  function Arrival(s: State, m: Move): seq<nat>
    requires Enabled(s, m)
  {
    if m == Loop(WaitCqe) && s.cq[0].Data? && s.pool[s.cq[0].id].dynamic then [s.cq[0].id] else []
  }

  /** Those of a run. */
  function ToBePolled(s: State, ms: seq<Move>): seq<nat>
    requires Possible(s, ms)
    decreases |ms|
  {
    if ms == [] then [] else Arrival(s, ms[0]) + ToBePolled(Apply(s, ms[0]), ms[1..])
  }

  lemma QueueStep(s: State, m: Move)
    requires Counted(s) && Enabled(s, m) && MovesEntries(s, m, Apply(s, m))
    ensures Unhandled(s) + (if m.Kernel? then [m.e] else []) ==
      (if m == Loop(WaitCqe) then [s.cq[0]] else []) + Unhandled(Apply(s, m))
  {
    if m.Loop? { LoopQueue(s, m.l); }
    else {
      PcKept(s, m);
      QueueKept(s, Apply(s, m), if m.Kernel? then [m.e] else []);
    }
  }

  lemma QueueKept(s: State, t: State, done: seq<Entry>)
    requires t.pc == s.pc && t.cq == s.cq + done && (s.pc.Handled? ==> s.cq != [])
    ensures Unhandled(t) == Unhandled(s) + done
  {
  }

  lemma PcKept(s: State, m: Move)
    requires Enabled(s, m) && !m.Loop?
    ensures Apply(s, m).pc == s.pc && Apply(s, m).arrived == s.arrived
  {
    match m
    case Kernel(e, res) =>
    case Call(u) => if !u.AwaitIo? && !u.SubmitNa? { CallRing(s, u); }
    case Unwind(f) => UnwindRing(s, f);
    case Library(b) => LibraryPc(s, b);
  }

  lemma LibraryPc(s: State, b: BodyMove)
    requires CanLibrary(s, b)
    ensures DoLibrary(s, b).pc == s.pc && DoLibrary(s, b).arrived == s.arrived
  {
    match b
    case BatchBegin(c) => BatchBeginRing(s, c);
    case KillBegin => KillRing(s, b);
    case KillCheck => KillRing(s, b);
    case _ => PauseRing(s, b);
  }

  lemma LoopQueue(s: State, l: LoopMove)
    requires Counted(s) && CanLoop(s, l)
    ensures Unhandled(s) == (if l.WaitCqe? then [s.cq[0]] else []) + Unhandled(DoLoop(s, l))
  {
    if l.WaitCqe? { assert s.cq == [s.cq[0]] + s.cq[1..]; }
  }

  lemma ArrivalStep(s: State, m: Move)
    requires Inv(s) && Enabled(s, m)
    ensures Apply(s, m).arrived == s.arrived + Arrival(s, m)
  {
    if m.Loop? { LoopArrivals(s, m.l); } else { PcKept(s, m); }
  }

  lemma LoopArrivals(s: State, l: LoopMove)
    requires PlaceInv(s) && CanLoop(s, l)
    ensures DoLoop(s, l).arrived == s.arrived + Arrival(s, Loop(l))
  {
    if l.WaitCqe? { HeadArrives(s); }
  }

  lemma HeadArrives(s: State)
    requires PlaceInv(s) && CanWaitCqe(s)
    ensures DoWaitCqe(s).arrived == s.arrived + Arrival(s, Loop(WaitCqe))
  {
    WaitIsTakenUp(s);
    if s.cq[0].Data? {
      assert PlaceOk(s, s.cq[0].id);
      assert s.cq[0] in Unhandled(s);
    }
  }

  /** The loop takes up the completions in the order in which the kernel makes them, */
  lemma {:induction false} TakenUpInOrder(s: State, ms: seq<Move>)
    requires Inv(s) && Legal(s, ms)
    ensures Unhandled(s) + CompletedIn(ms) == TakenUpIn(s, ms) + Unhandled(Exec(s, ms))
    decreases |ms|
  {
    if ms != [] {
      StepMakes(s, ms[0]);
      QueueStep(s, ms[0]);
      InvStep(s, ms[0]);
      TakenUpInOrder(Apply(s, ms[0]), ms[1..]);
      QueueJoins(Unhandled(s), if ms[0].Kernel? then [ms[0].e] else [], CompletedIn(ms[1..]),
                 if ms[0] == Loop(WaitCqe) then [s.cq[0]] else [], Unhandled(Apply(s, ms[0])),
                 TakenUpIn(Apply(s, ms[0]), ms[1..]), Unhandled(Exec(s, ms)));
    }
  }

  lemma QueueJoins<T>(a: seq<T>, done: seq<T>, later: seq<T>, head: seq<T>, b: seq<T>, taken: seq<T>, c: seq<T>)
    requires a + done == head + b && b + later == taken + c
    ensures a + (done + later) == (head + taken) + c
  {
    assert a + (done + later) == (a + done) + later;
    assert (head + b) + later == head + (b + later);
    assert head + (taken + c) == (head + taken) + c;
  }

  lemma ArrivalsJoin<T>(a: seq<T>, b: seq<T>, c: seq<T>)
    ensures (a + b) + c == a + (b + c)
  {
  }

  /** and those to be polled arrive in that order. */
  lemma {:induction false} ArriveInOrder(s: State, ms: seq<Move>)
    requires Inv(s) && Legal(s, ms)
    ensures Exec(s, ms).arrived == s.arrived + ToBePolled(s, ms)
    decreases |ms|
  {
    if ms != [] {
      ArrivalStep(s, ms[0]);
      InvStep(s, ms[0]);
      ArriveInOrder(Apply(s, ms[0]), ms[1..]);
      ArrivalsJoin(s.arrived, Arrival(s, ms[0]), ToBePolled(Apply(s, ms[0]), ms[1..]));
    }
  }
}
