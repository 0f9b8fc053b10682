/** From the call that asks for an operation, through the kernel, to the coroutine that gets its
    result: over whole runs. */
module Results {
  import opened Option
  import opened Requests
  import opened Machine
  import opened Scheduling
  import opened Accounting
  import opened Placement
  import opened Waiting
  import opened Invariant
  import opened Channel
  import opened Ledger
  import opened Delivery
  import opened Handlings
  import opened PollOrder
  import opened Returns
  import opened SlotSharing

  /** A request that has left the kernel was asked for in the run with the parameters it has, and
      was completed once, with the result it has. */
  lemma AnsweredOnce(capacity: nat, ringUp: bool, ms: seq<Move>, id: nat)
    requires capacity > 0 && Legal(Init(capacity, ringUp), ms)
    requires id < |Exec(Init(capacity, ringUp), ms).pool| && Exec(Init(capacity, ringUp), ms).kernel[Data(id)] == 0
    ensures var s, t := Init(capacity, ringUp), Exec(Init(capacity, ringUp), ms);
      && |MadeIn(s, ms)| == |t.pool| && IsRecord(t.pool[id], MadeIn(s, ms)[id])
      && multiset(CompletedIn(ms))[Data(id)] == 1
      && Kernel(Data(id), t.pool[id].res) in ms && t.pool[id].res == ResultIn(ms, id, 0)
  {
    var s := Init(capacity, ringUp);
    InitInv(capacity, ringUp);
    PoolRun(s, ms);
    CompletedOnceFrom(s, ms, id);
    ResultWasGiven(ms, id, 0);
    HeldRecord(s, Exec(s, ms), MadeIn(s, ms), ms, id);
  }

  lemma HeldRecord(s: State, t: State, made: seq<Asked>, ms: seq<Move>, id: nat)
    requires PoolHolds(s, t, made, ms) && s.pool == [] && id < |t.pool|
    ensures |made| == |t.pool| && IsRecord(t.pool[id], made[id]) && t.pool[id].res == ResultIn(ms, id, 0)
  {
    assert IsRecord(t.pool[|s.pool| + id], made[id]);
  }

  /** The completion at the head of the queue is no longer with the kernel. */
  lemma HeadLeftKernel(s: State, id: nat)
    requires Inv(s) && CanWaitCqe(s) && s.cq[0] == Data(id)
    ensures s.kernel[Data(id)] == 0
  {
    assert PlaceOk(s, id);
    assert s.cq[0] in multiset(Unhandled(s));
  }

  /** A completion is that of an operation asked for in the run. It gives its own result, the one
      that the kernel gave it, to the coroutine that asked, which is suspended for it and goes on;
      if none did, the request is ready to be polled, behind those that are. */
  lemma ResultReachesAsker(capacity: nat, ringUp: bool, ms: seq<Move>, id: nat)
    requires capacity > 0 && Legal(Init(capacity, ringUp), ms)
    requires CanWaitCqe(Exec(Init(capacity, ringUp), ms)) && Exec(Init(capacity, ringUp), ms).cq[0] == Data(id)
    ensures var s, made := Exec(Init(capacity, ringUp), ms), MadeIn(Init(capacity, ringUp), ms);
      var res, t := ResultIn(ms, id, 0), DoWaitCqe(s);
      && id < |made| && multiset(CompletedIn(ms))[Data(id)] == 1 && Kernel(Data(id), res) in ms
      && |t.coros| == |s.coros|
      && match made[id].who
         case Some(c) =>
           && c < |s.coros|
           && (s.coros[c].status == Parked(OnIo(made[id].params)) || s.coros[c].status == Parked(OnBatch))
           && t.coros[c].channel == Published(Tag(made[id].params), made[id].params, res)
           && t.coros[c].status.Running? && t.stack == [Run(c)] && t.ready == s.ready
         case None => t.coros == s.coros && t.stack == [] && t.ready == s.ready + [id]
  {
    var s := Exec(Init(capacity, ringUp), ms);
    InitInv(capacity, ringUp);
    InvRun(Init(capacity, ringUp), ms);
    HeadLeftKernel(s, id);
    AnsweredOnce(capacity, ringUp, ms, id);
    assert Reaches(capacity, ringUp, ms, s);
    assert PlaceOk(s, id) && s.cq[0] in multiset(Unhandled(s));
    if s.pool[id].handle.Some? {
      HeadIsAwaited(s, id);
      DeliveredTo(s, id);
      HeadAsked(s, id);
    }
    HeadTaken(s, id);
  }

  lemma HeadAsked(s: State, id: nat)
    requires Reachable(s) && CanWaitCqe(s) && s.cq[0] == Data(id) && s.pool[id].handle.Some?
    requires Receives(s.coros, s.pool[id].handle.value)
    ensures var r := s.coros[s.pool[id].handle.value];
      r.status == Parked(OnIo(s.pool[id].specific)) || r.status == Parked(OnBatch)
  {
    var r := s.coros[s.pool[id].handle.value];
    if r.status.on.OnIo? { HeadWasAsked(s, id, r.status.on.params); }
  }

  lemma HeadTaken(s: State, id: nat)
    requires CanWaitCqe(s) && s.cq[0] == Data(id)
    ensures var t := DoWaitCqe(s);
      && t.ready == (if s.pool[id].handle.Some? then s.ready else s.ready + [id])
      && (s.pool[id].handle.None? ==> t.coros == s.coros && t.stack == [])
  {
  }

  /** A request handed to the poller is one that nobody waited for, handed over once, with the
      result that the kernel gave it. */
  lemma ResultReachesPoller(capacity: nat, ringUp: bool, ms: seq<Move>)
    requires capacity > 0 && Legal(Init(capacity, ringUp), ms)
    requires var s := Exec(Init(capacity, ringUp), ms);
      CanLoopTop(s) && !s.life.Dead? && s.ready != [] && s.pollHandle.Some?
    ensures var s, made := Exec(Init(capacity, ringUp), ms), MadeIn(Init(capacity, ringUp), ms);
      var id := s.ready[|s.ready| - 1];
      var p, res, t := s.pollHandle.value, ResultIn(ms, id, 0), DoLoopTop(s);
      && id < |made| && made[id].who.None? && multiset(CompletedIn(ms))[Data(id)] == 1
      && Kernel(Data(id), res) in ms && id !in s.polled && t.polled == s.polled + [id]
      && p < |t.coros| && t.stack == [Run(p)] && t.coros[p].status.Running?
      && t.coros[p].channel == Published(Tag(made[id].params), made[id].params, res)
  {
    var s := Exec(Init(capacity, ringUp), ms);
    InitInv(capacity, ringUp);
    InvRun(Init(capacity, ringUp), ms);
    assert Reaches(capacity, ringUp, ms, s);
    ReadyLeftKernel(s);
    AnsweredOnce(capacity, ringUp, ms, s.ready[|s.ready| - 1]);
    DispatchResumesPoller(s);
  }

  /** A request that is ready is no longer with the kernel, and has not been handed over. */
  lemma ReadyLeftKernel(s: State)
    requires PlaceInv(s) && s.ready != []
    ensures var id := s.ready[|s.ready| - 1];
      id < |s.pool| && s.pool[id].dynamic && s.kernel[Data(id)] == 0 && id !in s.polled
  {
    var id := s.ready[|s.ready| - 1];
    assert id in s.ready && id in multiset(s.ready) && PlaceOk(s, id);
    assert id in s.polled <==> multiset(s.polled)[id] > 0;
  }

  // How many responses a coroutine gets.

  /** The coroutine that the step makes requests for. */
  function Asker(m: Move): Option<nat> {
    match m
    case Call(AwaitIo(c, _)) => Some(c)
    case Library(BatchBegin(c)) => Some(c)
    case _ => None
  }

  function MadeFor(s: State, m: Move, c: nat): nat
    requires Enabled(s, m)
  {
    if Asker(m) == Some(c) then |Made(s, m)| else 0
  }

  /** The step resumes c with a response to a request of its. */
  predicate Answers(s: State, m: Move, c: nat)
    requires Enabled(s, m)
  {
    m == Loop(WaitCqe) && s.cq[0].Data? && s.pool[s.cq[0].id].handle == Some(c)
  }

  lemma MadeAreAskers(s: State, m: Move)
    requires Enabled(s, m)
    ensures forall j | 0 <= j < |Made(s, m)| :: Made(s, m)[j].who == Asker(m)
  {
  }

  /** Which requests are outstanding for c after a step. */
  lemma OutstandingStep(s: State, m: Move, c: nat)
    requires Inv(s) && Enabled(s, m)
    ensures |Outstanding(Apply(s, m), c)| + One(Answers(s, m, c)) == |Outstanding(s, c)| + MadeFor(s, m, c)
  {
    OutstandingAfter(s, m, c);
    RangeSize(|s.pool|, MadeFor(s, m, c));
    SizeChanges(Outstanding(s, c), Range(|s.pool|, MadeFor(s, m, c)), Answered(s, m, c), Outstanding(Apply(s, m), c));
  }

  lemma OutstandingAfter(s: State, m: Move, c: nat)
    requires Inv(s) && Enabled(s, m)
    ensures forall id: nat :: id in Outstanding(Apply(s, m), c) <==>
      (id in Outstanding(s, c) || id in Range(|s.pool|, MadeFor(s, m, c))) && id !in Answered(s, m, c)
    ensures Answered(s, m, c) <= Outstanding(s, c)
  {
    StepMakes(s, m);
    MadeAreAskers(s, m);
    AnsweredIsOutstanding(s, m, c);
    NoneBeyond(s, m, c);
    forall id: nat | id < |Apply(s, m).pool|
      ensures id in Outstanding(Apply(s, m), c) <==>
        (id in Outstanding(s, c) || id in Range(|s.pool|, MadeFor(s, m, c))) && id !in Answered(s, m, c)
    {
      OneOutstanding(s, m, c, id);
    }
  }

  lemma AnsweredIsOutstanding(s: State, m: Move, c: nat)
    requires Enabled(s, m)
    ensures Answered(s, m, c) <= Outstanding(s, c)
  {
    if Answers(s, m, c) { assert s.cq[0] in multiset(Unhandled(s)); }
  }

  lemma NoneBeyond(s: State, m: Move, c: nat)
    requires Enabled(s, m) && |Apply(s, m).pool| == |s.pool| + |Made(s, m)|
    ensures forall id: nat :: id >= |Apply(s, m).pool| ==>
      id !in Outstanding(Apply(s, m), c) && id !in Outstanding(s, c) && id !in Range(|s.pool|, MadeFor(s, m, c))
  {
  }

  /** The request that c is answered. */
  function Answered(s: State, m: Move, c: nat): set<nat>
    requires Enabled(s, m)
  {
    if Answers(s, m, c) then {s.cq[0].id} else {}
  }

  lemma SizeChanges(a: set<nat>, added: set<nat>, gone: set<nat>, b: set<nat>)
    requires a * added == {} && gone <= a
    requires forall x: nat :: x in b <==> (x in a || x in added) && x !in gone
    ensures |b| + |gone| == |a| + |added|
  {
    assert b == a + added - gone;
    assert |a + added| == |a| + |added|;
    assert |a + added - gone| == |a + added| - |gone| by { assert (a + added) * gone == gone; }
  }

  lemma OneOutstanding(s: State, m: Move, c: nat, id: nat)
    requires Inv(s) && Enabled(s, m) && id < |Apply(s, m).pool|
    requires Adds(s, Apply(s, m), Made(s, m))
    requires forall j | 0 <= j < |Made(s, m)| :: Made(s, m)[j].who == Asker(m)
    ensures id in Outstanding(Apply(s, m), c) <==>
      (id in Outstanding(s, c) || id in Range(|s.pool|, MadeFor(s, m, c))) && id !in Answered(s, m, c)
  {
    StepAccounts(s, m, id);
    if id < |s.pool| { OldOutstanding(s, m, c, id); } else { NewOutstanding(s, m, c, id); }
  }

  lemma OldOutstanding(s: State, m: Move, c: nat, id: nat)
    requires PlaceInv(s) && Enabled(s, m) && id < |s.pool|
    requires Accounts(s, Apply(s, m), id, TakesUp(s, m) == Some(id))
    ensures id in Outstanding(Apply(s, m), c) <==> id in Outstanding(s, c) && id !in Answered(s, m, c)
    ensures id !in Range(|s.pool|, MadeFor(s, m, c))
  {
    if Data(id) in Pending(s) { KeepsHandle(s, m, id); }
    PendingOnce(s, id);
    StaysOutstanding(s, Apply(s, m), c, id, TakesUp(s, m) == Some(id));
    TakenIsAnswered(s, m, c, id);
  }

  lemma PendingOnce(s: State, id: nat)
    requires PlaceInv(s) && id < |s.pool|
    ensures Pending(s)[Data(id)] <= 1
  {
    assert PlaceOk(s, id);
  }

  lemma TakenIsAnswered(s: State, m: Move, c: nat, id: nat)
    requires Enabled(s, m) && id < |s.pool|
    ensures id in Outstanding(s, c) ==> (id in Answered(s, m, c) <==> TakesUp(s, m) == Some(id))
    ensures id !in Range(|s.pool|, MadeFor(s, m, c))
  {
  }

  lemma StaysOutstanding(s: State, t: State, c: nat, id: nat, takenUp: bool)
    requires id < |s.pool| && Accounts(s, t, id, takenUp) && Pending(s)[Data(id)] <= 1
    requires Data(id) in Pending(s) ==> t.pool[id].handle == s.pool[id].handle
    ensures id in Outstanding(t, c) <==> id in Outstanding(s, c) && !takenUp
  {
  }

  lemma NewOutstanding(s: State, m: Move, c: nat, id: nat)
    requires InRange(s) && Enabled(s, m) && |s.pool| <= id < |Apply(s, m).pool|
    requires Accounts(s, Apply(s, m), id, TakesUp(s, m) == Some(id)) && Adds(s, Apply(s, m), Made(s, m))
    requires forall j | 0 <= j < |Made(s, m)| :: Made(s, m)[j].who == Asker(m)
    ensures id in Outstanding(Apply(s, m), c) <==> id in Range(|s.pool|, MadeFor(s, m, c))
    ensures id !in Answered(s, m, c)
  {
    assert IsRecord(Apply(s, m).pool[|s.pool| + (id - |s.pool|)], Made(s, m)[id - |s.pool|]);
    NowherePlaces(s, id);
    assert Pending(Apply(s, m))[Data(id)] > 0;
  }

  /** A request in the ring keeps its handle, or the lack of one. */
  lemma KeepsHandle(s: State, m: Move, id: nat)
    requires PlaceInv(s) && Enabled(s, m) && id < |s.pool| && Data(id) in Pending(s)
    ensures id < |Apply(s, m).pool| && Apply(s, m).pool[id].handle == s.pool[id].handle
  {
    if m.Loop? { LoopKeepsHandle(s, m.l, id); }
    else {
      HandledIsKept(s, m);
      assert SameOwner(s.pool[id], Apply(s, m).pool[id]);
    }
  }

  lemma LoopKeepsHandle(s: State, l: LoopMove, id: nat)
    requires PlaceInv(s) && CanLoop(s, l) && id < |s.pool| && Data(id) in Pending(s)
    ensures id < |DoLoop(s, l).pool| && DoLoop(s, l).pool[id].handle == s.pool[id].handle
  {
    match l
    case LoopTop =>
      assert PlaceOk(s, id);
      assert s.ready != [] ==> s.ready[|s.ready| - 1] in multiset(s.ready);
      LoopTopPool(s);
    case WaitCqe => WaitIsTakenUp(s);
    case Seen(done) => SeenMoves(s, done);
    case _ =>
  }

  /** How many requests the run makes for c. */
  function MadeForIn(s: State, ms: seq<Move>, c: nat): nat
    requires Possible(s, ms)
    decreases |ms|
  {
    if ms == [] then 0 else MadeFor(s, ms[0], c) + MadeForIn(Apply(s, ms[0]), ms[1..], c)
  }

  /** How many responses to its requests it gives c. */
  function AnswersIn(s: State, ms: seq<Move>, c: nat): nat
    requires Possible(s, ms)
    decreases |ms|
  {
    if ms == [] then 0 else One(Answers(s, ms[0], c)) + AnswersIn(Apply(s, ms[0]), ms[1..], c)
  }

  /** Over any run a coroutine is given as many responses as it has had requests made, but for
      those outstanding. */
  lemma {:induction false} RequestsBalance(s: State, ms: seq<Move>, c: nat)
    requires Inv(s) && Legal(s, ms)
    ensures |Outstanding(Exec(s, ms), c)| + AnswersIn(s, ms, c) == |Outstanding(s, c)| + MadeForIn(s, ms, c)
    decreases |ms|
  {
    if ms != [] {
      OutstandingStep(s, ms[0], c);
      InvStep(s, ms[0]);
      RequestsBalance(Apply(s, ms[0]), ms[1..], c);
    }
  }

  // One operation.

  /** The data of a request with these parameters, whose response goes to c. */
  predicate IsRequestOf(r: RequestData, c: nat, p: Params) {
    r.specific == p && r.reqType == Tag(p) && r.handle == Some(c) && !r.dynamic
  }

  /** The kernel has got what was queued and one new request, and nobody else has changed. */
  predicate OneMore(s: State, t: State) {
    && |t.pool| == |s.pool| + 1 && t.pool[..|s.pool|] == s.pool && t.sq == [] && t.cq == s.cq
    && t.kernel == s.kernel + multiset(s.sq + [Data(|s.pool|)]) && t.inFlight == s.inFlight + |s.sq| + 1
    && t.life == s.life && t.ready == s.ready && t.freed == s.freed && t.pc == s.pc && t.slots == s.slots
    && t.freeSlots == s.freeSlots && t.polling == s.polling && t.pollHandle == s.pollHandle
  }

  /** An awaitable operation: if there is no room, nothing changes and its coroutine goes on; if
      there is, one request is made, of the operation asked for, and the coroutine is suspended
      for that. */
  lemma AwaitIoAsks(s: State, c: nat, p: Params)
    requires CanAwaitIo(s, c)
    ensures var t := DoAwaitIo(s, c, p);
      if Room(s) == 0 then t == s
      else
        && OneMore(s, t) && IsRequestOf(t.pool[|s.pool|], c, p)
        && t.coros == s.coros[c := s.coros[c].(status := Parked(OnIo(p)))] && t.stack + [Run(c)] == s.stack
  {
    if Room(s) != 0 {
      var r := RequestRecord(Some(c), s.coros[c].metadata, Tag(p), false, p, 0);
      AskedAndSubmitted(s, r);
      assert SameRing(SubmitAll(Queue(s, r)), DoAwaitIo(s, c, p));
    }
  }

  lemma AskedAndSubmitted(s: State, r: RequestData)
    ensures OneMore(s, SubmitAll(Queue(s, r))) && SubmitAll(Queue(s, r)).pool == s.pool + [r]
  {
  }

  /** A non-awaitable one: its request has no coroutine, and the caller goes on either way. */
  lemma SubmitNaAsks(s: State, p: Params)
    requires CanSubmitNa(s)
    ensures var t := DoSubmitNa(s, p);
      if Room(s) == 0 then t == s
      else
        && OneMore(s, t) && t.coros == s.coros && t.stack == s.stack
        && var r := t.pool[|s.pool|]; r.specific == p && r.reqType == Tag(p) && r.handle.None? && r.dynamic
  {
    if Room(s) != 0 { AskedAndSubmitted(s, RequestRecord(None, 0, Tag(p), true, p, 0)); }
  }

  // A batch.

  predicate BegunBatch(s: State, c: nat) { c < |s.coros| && s.coros[c].body.Batch? && s.coros[c].begun }

  /** A batch that has begun asks for nothing more; if it is over, it has returned 0. */
  lemma {:induction false} BatchGoesOn(s: State, ms: seq<Move>, c: nat)
    requires Inv(s) && Legal(s, ms) && BegunBatch(s, c) && (Over(s.coros[c]) ==> s.coros[c].ret == 0)
    ensures MadeForIn(s, ms, c) == 0 && BegunBatch(Exec(s, ms), c)
    ensures Over(Exec(s, ms).coros[c]) ==> Exec(s, ms).coros[c].ret == 0
    decreases |ms|
  {
    if ms != [] {
      BatchStep(s, ms[0], c);
      InvStep(s, ms[0]);
      BatchGoesOn(Apply(s, ms[0]), ms[1..], c);
    }
  }

  lemma BatchStep(s: State, m: Move, c: nat)
    requires Inv(s) && Sparing(s, m) && BegunBatch(s, c) && (Over(s.coros[c]) ==> s.coros[c].ret == 0)
    ensures Asker(m) != Some(c) && BegunBatch(Apply(s, m), c)
    ensures Over(Apply(s, m).coros[c]) ==> Apply(s, m).coros[c].ret == 0
  {
    StepTurn(s, m, c);
    BatchCode(s, m, c);
    assert HasReturned(Apply(s, m), c) <==> Over(Apply(s, m).coros[c]);
  }

  lemma BatchCode(s: State, m: Move, c: nat)
    requires Enabled(s, m) && BegunBatch(s, c)
    ensures Asker(m) != Some(c) && (CodeOf(s, m, c) == None || CodeOf(s, m, c) == Some(0))
  {
  }

  /** How many of its requests a batch makes: all of them, or as many as there is room for, or
      none if the manager is dying. */
  function BatchSize(s: State, c: nat): nat
    requires CanBatchBegin(s, c)
  {
    if s.life.Dying? || s.life.Dead? then 0
    else if |s.coros[c].body.reqs| <= s.capacity then |s.coros[c].body.reqs| else s.capacity
  }

  /** From s to t the first k requests of the batch have been made, in order and for itself. */
  predicate BatchMade(s: State, t: State, c: nat, reqs: seq<Params>, k: nat) {
    && k <= |reqs| && |t.pool| == |s.pool| + k
    && t.kernel == s.kernel + multiset(Fresh(|s.pool|, k)) && t.sq == [] && t.inFlight == s.inFlight + k
    && forall j | 0 <= j < k :: IsRequestOf(t.pool[|s.pool| + j], c, reqs[j])
  }

  /** A batch makes as many as its size. */
  lemma BatchMakesItsRequests(s: State, c: nat)
    requires CanBatchBegin(s, c)
    ensures BatchMade(s, DoBatchBegin(s, c), c, s.coros[c].body.reqs, BatchSize(s, c))
  {
    MadeByBatch(s, c);
    BatchAdds(s, c, Made(s, Library(BatchBegin(c))));
    BatchRecords(s, DoBatchBegin(s, c), Made(s, Library(BatchBegin(c))), c, s.coros[c].body.reqs);
  }

  lemma MadeByBatch(s: State, c: nat)
    requires CanBatchBegin(s, c)
    ensures var made := Made(s, Library(BatchBegin(c)));
      |made| == BatchSize(s, c) && forall j | 0 <= j < |made| :: made[j] == Asked(Some(c), s.coros[c].body.reqs[j])
  {
  }

  /** These requests have been made, and handed to the kernel. */
  predicate BatchAdded(s: State, t: State, made: seq<Asked>) {
    && Adds(s, t, made)
    && t.kernel == s.kernel + multiset(Fresh(|s.pool|, |made|)) && t.sq == [] && t.inFlight == s.inFlight + |made|
  }

  lemma BatchAdds(s: State, c: nat, made: seq<Asked>)
    requires CanBatchBegin(s, c) && made == Made(s, Library(BatchBegin(c)))
    ensures BatchAdded(s, DoBatchBegin(s, c), made)
  {
    BatchBeginMakes(s, c);
    BatchBeginRing(s, c);
    BatchMakes(s, c);
  }

  lemma BatchRecords(s: State, t: State, made: seq<Asked>, c: nat, reqs: seq<Params>)
    requires BatchAdded(s, t, made) && |made| <= |reqs|
    requires forall j | 0 <= j < |made| :: made[j] == Asked(Some(c), reqs[j])
    ensures BatchMade(s, t, c, reqs, |made|)
  {
    forall j | 0 <= j < |made| ensures IsRequestOf(t.pool[|s.pool| + j], c, reqs[j]) {
      assert made[j] == Asked(Some(c), reqs[j]);
    }
  }

  /** In any run after that the batch is given a response for each, and it has returned, with 0,
      exactly if it was given the last one and its handler is no longer running. */
  lemma BatchReturnsAnswered(s: State, c: nat, ms: seq<Move>)
    requires Reachable(s) && CanBatchBegin(s, c) && Legal(DoBatchBegin(s, c), ms)
    ensures var k, n := BatchSize(s, c), AnswersIn(DoBatchBegin(s, c), ms, c);
      var t := Exec(DoBatchBegin(s, c), ms);
      && n <= k && c < |t.coros|
      && (Over(t.coros[c]) <==> n == k && !t.coros[c].status.Running?)
      && (Over(t.coros[c]) ==> t.coros[c].ret == 0)
  {
    ReachableInv(s);
    var u := DoBatchBegin(s, c);
    BatchBegins(s, c);
    InvStep(s, Library(BatchBegin(c)));
    RequestsBalance(u, ms, c);
    BatchGoesOn(u, ms, c);
    InvRun(u, ms);
    BatchIsOverIff(Exec(u, ms), c);
  }

  lemma BatchIsOverIff(t: State, c: nat)
    requires WaitInv(t) && SchedInv(t) && BegunBatch(t, c)
    ensures Over(t.coros[c]) <==> Outstanding(t, c) == {} && !t.coros[c].status.Running?
  {
    assert WaitOk(t, c) && ParkFits(t.coros[c]);
  }

  lemma BatchBegins(s: State, c: nat)
    requires Inv(s) && CanBatchBegin(s, c)
    ensures var t := DoBatchBegin(s, c);
      && BegunBatch(t, c) && |Outstanding(t, c)| == BatchSize(s, c) && (Over(t.coros[c]) ==> t.coros[c].ret == 0)
  {
    TopIsOk(s);
    NoneBeforeBatch(s, c);
    OutstandingStep(s, Library(BatchBegin(c)), c);
    MadeByBatch(s, c);
    BatchHasBegun(s, c);
  }

  lemma NoneBeforeBatch(s: State, c: nat)
    requires WaitInv(s) && TopOk(s) && CanBatchBegin(s, c)
    ensures Outstanding(s, c) == {}
  {
    assert WaitOk(s, c);
  }

  lemma BatchHasBegun(s: State, c: nat)
    requires TopOk(s) && CanBatchBegin(s, c)
    ensures BegunBatch(DoBatchBegin(s, c), c)
    ensures Over(DoBatchBegin(s, c).coros[c]) ==> DoBatchBegin(s, c).coros[c].ret == 0
  {
  }

  // Which coroutines there are.

  /** The coroutine function that the step calls. */
  function CalledBy(m: Move): seq<Body> { if m.Call? && m.u.Create? then [m.u.body] else [] }

  /** Those called in the run. */
  function CalledIn(ms: seq<Move>): seq<Body> {
    if ms == [] then [] else CalledBy(ms[0]) + CalledIn(ms[1..])
  }

  /** A coroutine runs the function that was called, with its arguments. */
  predicate Runs(r: Coro, body: Body) {
    match body
    case Batch(reqs, _, _) => r.body.Batch? && r.body.reqs == reqs
    case _ => r.body == body
  }

  lemma CallStep(s: State, m: Move)
    requires Enabled(s, m)
    ensures |Apply(s, m).coros| == |s.coros| + |CalledBy(m)|
    ensures CalledBy(m) != [] ==>
      var r := Apply(s, m).coros[|s.coros|];
      Runs(r, CalledBy(m)[0]) && r.status.Created? && r.awaiter.None? && r.slot.None? && r.channel.Monostate?
  {
    match m
    case Kernel(e, res) =>
    case Loop(l) => LoopCallsNobody(s, l);
    case Call(u) => if !u.Create? { OtherCallCallsNobody(s, u); }
    case Unwind(f) => UnwindCallsNobody(s, f);
    case Library(b) => LibraryCallsNobody(s, b);
  }

  lemma LoopCallsNobody(s: State, l: LoopMove)
    requires CanLoop(s, l)
    ensures |DoLoop(s, l).coros| == |s.coros|
  {
    match l
    case LoopTop => assert |DoLoopTop(s).coros| == |s.coros|;
    case WaitCqe => assert |DoWaitCqe(s).coros| == |s.coros|;
    case Seen(done) => assert |DoSeen(s, done).coros| == |s.coros|;
    case _ =>
  }

  lemma OtherCallCallsNobody(s: State, u: CallMove)
    requires CanCall(s, u) && !u.Create?
    ensures |DoCall(s, u).coros| == |s.coros|
  {
    match u
    case Register(c) => assert |DoRegister(s, c).coros| == |s.coros|;
    case AwaitIo(c, p) => assert |DoAwaitIo(s, c, p).coros| == |s.coros|;
    case AwaitTask(c, child) => assert |DoAwaitTask(s, c, child).coros| == |s.coros|;
    case CoReturn(c, v) => assert |Return(s, c, v).coros| == |s.coros|;
    case _ =>
  }

  lemma UnwindCallsNobody(s: State, f: FrameMove)
    requires CanUnwind(s, f)
    ensures |DoUnwind(s, f).coros| == |s.coros|
  {
  }

  lemma LibraryCallsNobody(s: State, b: BodyMove)
    requires CanLibrary(s, b)
    ensures |DoLibrary(s, b).coros| == |s.coros|
  {
    match b
    case BatchBegin(c) => BatchCallsNobody(s, c);
    case BatchHandled(c) => BatchHandledCallsNobody(s, c);
    case PollBegin(c) => assert |DoPollBegin(s, c).coros| == |s.coros|;
    case PollHandled(c, again) => assert |DoPollHandled(s, c, again).coros| == |s.coros|;
    case KillBegin => KillCallsNobody(s);
    case KillCheck => assert |KillLoop(s).coros| == |s.coros|;
  }

  lemma BatchCallsNobody(s: State, c: nat)
    requires CanBatchBegin(s, c)
    ensures |DoBatchBegin(s, c).coros| == |s.coros|
  {
  }

  lemma BatchHandledCallsNobody(s: State, c: nat)
    requires CanBatchHandled(s, c)
    ensures |DoBatchHandled(s, c).coros| == |s.coros|
  {
  }

  lemma KillCallsNobody(s: State)
    requires CanKillBegin(s)
    ensures |DoKillBegin(s).coros| == |s.coros|
  {
  }

  /** The state after the run's first step, with the coroutine called in it, if any, at the end. */
  lemma FirstStep(s: State, ms: seq<Move>) returns (t: State)
    requires Inv(s) && Legal(s, ms) && ms != []
    ensures Inv(t) && Legal(t, ms[1..]) && Exec(t, ms[1..]) == Exec(s, ms)
    ensures |t.coros| == |s.coros| + |CalledBy(ms[0])|
    ensures CalledBy(ms[0]) != [] ==> Runs(t.coros[|s.coros|], CalledBy(ms[0])[0])
  {
    CallStep(s, ms[0]);
    InvStep(s, ms[0]);
    t := Apply(s, ms[0]);
  }

  /** The coroutines after a run are those there were and one for each call of a coroutine
      function in it, which it runs with the arguments of the call. */
  lemma {:induction false} CoroutinesAreThoseCalled(s: State, ms: seq<Move>)
    requires Inv(s) && Legal(s, ms)
    ensures AreCalled(s.coros, Exec(s, ms).coros, CalledIn(ms))
    decreases |ms|
  {
    if ms != [] {
      var t := FirstStep(s, ms);
      CoroutinesAreThoseCalled(t, ms[1..]);
      if CalledBy(ms[0]) != [] { CodeIsKept(t, ms[1..], |s.coros|); }
      CalledFirst(s.coros, t.coros, Exec(t, ms[1..]).coros, CalledBy(ms[0]), CalledIn(ms[1..]));
    }
  }

  /** To the coroutines these have been added, running the functions called. */
  predicate AreCalled(before: seq<Coro>, after: seq<Coro>, called: seq<Body>) {
    |after| == |before| + |called| && forall j | 0 <= j < |called| :: Runs(after[|before| + j], called[j])
  }

  lemma CalledFirst(a: seq<Coro>, b: seq<Coro>, c: seq<Coro>, first: seq<Body>, called: seq<Body>)
    requires |first| <= 1 && |b| == |a| + |first| && AreCalled(b, c, called)
    requires first != [] ==> Runs(b[|a|], first[0]) && SameCode(b[|a|], c[|a|])
    ensures AreCalled(a, c, first + called)
  {
    forall j | 0 <= j < |first + called| ensures Runs(c[|a| + j], (first + called)[j]) {
      if j >= |first| { assert Runs(c[|b| + (j - |first|)], called[j - |first|]); }
    }
  }
}
