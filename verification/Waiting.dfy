/** Which coroutine waits for how many completions: the requests in the ring that carry a
    coroutine's handle are exactly those the coroutine is suspended for. */
module Waiting {
  import opened Option
  import opened Requests
  import opened Machine
  import opened Scheduling
  import opened Accounting
  import opened Placement

  /** The requests with c's handle whose completion has not been handled. */
  ghost function Outstanding(s: State, c: nat): set<nat> {
    set id | 0 <= id < |s.pool| && Data(id) in Pending(s) && s.pool[id].handle == Some(c)
  }

  /** How many completions a coroutine has still to be given: one when parked on an
      awaitable operation, the rest of the submitted ones when inside `submit_and_wait`. */
  function Expected(r: Coro): int {
    if r.status.Parked? && r.status.on.OnIo? then 1
    else if r.body.Batch? && r.begun then r.body.submitted - r.body.i - One(r.status.Running?)
    else 0
  }

  /** Its frame has not been destroyed; and in a batch the count of responses fits the status. */
  predicate BatchOk(r: Coro) {
    !r.status.Destroyed? &&
    (r.body.Batch? ==>
      if r.begun then
        !r.status.Created? && if Over(r) then r.body.i == r.body.submitted else r.body.i < r.body.submitted
      else
        r.body.i == r.body.submitted == 0 && (r.status.Created? || r.status.Running?))
  }

  /** Each outstanding request was made with the parameters its coroutine asked for. */
  ghost predicate AskedFor(s: State, c: nat)
    requires c < |s.coros|
  {
    s.coros[c].status.Parked? && s.coros[c].status.on.OnIo? ==>
      forall id | id in Outstanding(s, c) :: s.pool[id].specific == s.coros[c].status.on.params
  }

  ghost predicate WaitOk(s: State, c: nat)
    requires c < |s.coros|
  {
    |Outstanding(s, c)| == Expected(s.coros[c]) && BatchOk(s.coros[c]) && AskedFor(s, c)
  }

  predicate HandlesInRange(s: State) {
    forall id | 0 <= id < |s.pool| :: s.pool[id].handle.Some? ==> s.pool[id].handle.value < |s.coros|
  }

  ghost predicate WaitInv(s: State) {
    HandlesInRange(s) && forall c | 0 <= c < |s.coros| :: WaitOk(s, c)
  }

  // Steps that leave the requests and everybody's expectation alone.

  predicate SameWait(x: Coro, y: Coro) {
    && Expected(x) == Expected(y)
    && (BatchOk(x) ==> BatchOk(y))
    && (y.status.Parked? && y.status.on.OnIo? ==> x.status == y.status)
  }

  predicate Idle(r: Coro) { Expected(r) == 0 && BatchOk(r) && !(r.status.Parked? && r.status.on.OnIo?) }

  predicate Quiet(s: State, t: State) {
    && |s.coros| <= |t.coros|
    && (forall c | 0 <= c < |s.coros| :: SameWait(s.coros[c], t.coros[c]))
    && (forall c | |s.coros| <= c < |t.coros| :: Idle(t.coros[c]))
  }

  predicate SameRequests(s: State, t: State) {
    && Pending(t) == Pending(s) && |t.pool| == |s.pool|
    && (forall id | 0 <= id < |s.pool| && Data(id) in Pending(s) ::
          t.pool[id].handle == s.pool[id].handle && t.pool[id].specific == s.pool[id].specific)
  }

  lemma QuietKeeps(s: State, t: State)
    requires WaitInv(s) && Quiet(s, t) && SameRequests(s, t) && HandlesInRange(t)
    ensures WaitInv(t)
  {
    forall c | 0 <= c < |t.coros| ensures WaitOk(t, c) {
      assert Outstanding(t, c) == Outstanding(s, c);
      if c < |s.coros| {
        assert WaitOk(s, c);
      } else {
        assert Outstanding(s, c) == {};
      }
    }
  }

  lemma QuietRing(s: State, t: State)
    requires WaitInv(s) && Quiet(s, t) && SameRing(s, t)
    ensures WaitInv(t)
  {
    assert Pending(t) == Pending(s);
    QuietKeeps(s, t);
  }

  lemma ReturnQuiet(s: State, c: nat, v: int)
    requires CanReturn(s, c) && AwaiterIdle(s, c) && s.coros[c].status.Running?
    requires s.coros[c].body.Batch? ==> s.coros[c].begun && s.coros[c].body.i == s.coros[c].body.submitted
    ensures |Return(s, c, v).coros| == |s.coros|
    ensures Idle(Return(s, c, v).coros[c])
    ensures forall d | 0 <= d < |s.coros| && d != c :: SameWait(s.coros[d], Return(s, c, v).coros[d])
  {
  }

  lemma AwaitTaskQuiet(s: State, c: nat, child: nat)
    requires CanAwaitTask(s, c, child) && s.coros[c].status.Running? && BatchOk(s.coros[child])
    ensures Quiet(s, DoAwaitTask(s, c, child))
  {
  }

  lemma AwaitSuspendReturnQuiet(s: State, c: nat, child: nat)
    requires CanAwaitSuspendReturn(s, c, child) && s.coros[c].body.User?
    requires s.coros[c].status == Parked(OnTask(child))
    ensures Quiet(s, DoAwaitSuspendReturn(s, c, child))
  {
  }

  lemma BatchHandledQuiet(s: State, c: nat)
    requires CanBatchHandled(s, c) && s.coros[c].status.Running? && AwaiterIdle(s, c) && BatchOk(s.coros[c])
    ensures Quiet(s, DoBatchHandled(s, c))
  {
    var b := s.coros[c].body;
    var s1 := BatchAdvanced(s, c);
    if b.i + 1 >= b.submitted {
      ReturnQuiet(s1, c, 0);
      var t := Return(s1, c, 0);
      assert Expected(s.coros[c]) == 0;
      forall d | 0 <= d < |s.coros| ensures SameWait(s.coros[d], t.coros[d]) {
        if d != c { assert s1.coros[d] == s.coros[d]; }
      }
    }
  }

  lemma PollBeginQuiet(s: State, c: nat)
    requires CanPollBegin(s, c) && s.coros[c].status.Running? && AwaiterIdle(s, c)
    ensures Quiet(s, DoPollBegin(s, c))
  {
    if s.polling { ReturnQuiet(s, c, -1); }
  }

  lemma PollHandledQuiet(s: State, c: nat, again: bool)
    requires CanPollHandled(s, c) && s.coros[c].status.Running? && AwaiterIdle(s, c)
    ensures Quiet(s, DoPollHandled(s, c, again))
  {
    if !again { ReturnQuiet(s.(polling := false), c, 0); }
  }

  lemma KillLoopQuiet(s: State)
    requires CanReturn(s, KILL) && s.coros[KILL].status.Running? && AwaiterIdle(s, KILL) && s.coros[KILL].body.Kill?
    ensures Quiet(s, KillLoop(s))
  {
    if s.inFlight == 0 { ReturnQuiet(s.(life := Dead), KILL, 0); }
  }

  // Steps that add or remove a request.

  lemma AddOne(s: State, t: State, r: RequestData)
    requires t.pool == s.pool + [r]
    requires Pending(t) == Pending(s) + multiset{Data(|s.pool|)} && Pending(s)[Data(|s.pool|)] == 0
    ensures forall d: nat :: Outstanding(t, d) == Outstanding(s, d) + (if r.handle == Some(d) then {|s.pool|} else {})
  {
  }

  /** One more request in the ring, with c's handle. */
  lemma AwaitIoWaits(s: State, c: nat, params: Params)
    requires WaitInv(s) && PlaceInv(s) && CanAwaitIo(s, c) && s.coros[c].status.Running?
    ensures WaitInv(DoAwaitIo(s, c, params))
  {
    if SqeAvailable(s) {
      var r := RequestRecord(Some(c), s.coros[c].metadata, Tag(params), false, params, 0);
      QueuePlaces(s, r);
      AddedIo(s, SubmitAll(Queue(s, r)), c, r);
    }
  }

  lemma AddedIo(s: State, s1: State, c: nat, r: RequestData)
    requires WaitInv(s) && c < |s.coros| && s.stack != [] && s.coros[c].status.Running? && s.coros[c].body.User?
    requires s1.pool == s.pool + [r] && s1.coros == s.coros && s1.stack == s.stack && r.handle == Some(c)
    requires Pending(s1) == Pending(s) + multiset{Data(|s.pool|)} && Pending(s)[Data(|s.pool|)] == 0
    ensures WaitInv(Suspend(s1, c, OnIo(r.specific)))
  {
    var t := Suspend(s1, c, OnIo(r.specific));
    assert t.coros == s.coros[c := s.coros[c].(status := Parked(OnIo(r.specific)))];
    assert Pending(t) == Pending(s1);
    AddedOutstanding(s, t, c, r);
    assert WaitOk(t, c);
    OthersKept(s, t, c);
  }

  lemma AddedOutstanding(s: State, t: State, c: nat, r: RequestData)
    requires WaitInv(s) && c < |s.coros| && s.coros[c].status.Running? && s.coros[c].body.User?
    requires t.pool == s.pool + [r] && r.handle == Some(c)
    requires Pending(t) == Pending(s) + multiset{Data(|s.pool|)} && Pending(s)[Data(|s.pool|)] == 0
    ensures Outstanding(t, c) == {|s.pool|} && forall d: nat :: d != c ==> Outstanding(t, d) == Outstanding(s, d)
  {
    AddOne(s, t, r);
    assert WaitOk(s, c);
    assert Outstanding(s, c) == {};
  }

  /** Only c's requests and c itself changed. */
  lemma OthersKept(s: State, t: State, c: nat)
    requires WaitInv(s) && |t.coros| == |s.coros| && c < |s.coros| && HandlesInRange(t)
    requires forall d | 0 <= d < |s.coros| && d != c ::
      SameWait(s.coros[d], t.coros[d]) && Outstanding(t, d) == Outstanding(s, d)
    requires |s.pool| <= |t.pool| && forall id | 0 <= id < |s.pool| :: t.pool[id].specific == s.pool[id].specific
    requires WaitOk(t, c)
    ensures WaitInv(t)
  {
    forall d | 0 <= d < |t.coros| ensures WaitOk(t, d) {
      if d != c { assert WaitOk(s, d); }
    }
  }

  lemma SubmitNaWaits(s: State, params: Params)
    requires WaitInv(s) && PlaceInv(s)
    ensures WaitInv(DoSubmitNa(s, params))
  {
    if SqeAvailable(s) {
      var r := RequestRecord(None, 0, Tag(params), true, params, 0);
      QueuePlaces(s, r);
      AddedNa(s, SubmitAll(Queue(s, r)), r);
    }
  }

  lemma AddedNa(s: State, t: State, r: RequestData)
    requires WaitInv(s) && t.pool == s.pool + [r] && t.coros == s.coros && r.handle.None?
    requires Pending(t) == Pending(s) + multiset{Data(|s.pool|)} && Pending(s)[Data(|s.pool|)] == 0
    ensures WaitInv(t)
  {
    AddOne(s, t, r);
    forall d | 0 <= d < |t.coros| ensures WaitOk(t, d) {
      assert WaitOk(s, d);
    }
  }

  lemma CancelWaits(s: State)
    requires WaitInv(s) && PlaceInv(s)
    ensures WaitInv(KillSubmitted(s))
  {
    CancelPlaces(s);
    var t := KillSubmitted(s);
    forall d | 0 <= d < |t.coros| ensures WaitOk(t, d) {
      assert WaitOk(s, d);
      assert Outstanding(t, d) == Outstanding(s, d);
    }
  }

  function Range(n: nat, k: nat): set<nat> { set id {:trigger Data(id)} | n <= id < n + k }

  lemma {:induction false} RangeSize(n: nat, k: nat)
    ensures |Range(n, k)| == k
  {
    if k > 0 {
      RangeSize(n, k - 1);
      assert Range(n, k) == Range(n, k - 1) + {n + k - 1};
    }
  }

  lemma BatchOutstanding(s: State, t: State, c: nat, reqs: seq<Params>, k: nat)
    requires HandlesInRange(s) && c < |s.coros| && k <= |reqs|
    requires t.pool == QueueBatch(s, c, reqs, k).pool
    requires Pending(t) == Pending(s) + multiset(Fresh(|s.pool|, k))
    ensures Outstanding(t, c) == Outstanding(s, c) + Range(|s.pool|, k)
    ensures forall d: nat :: d != c ==> Outstanding(t, d) == Outstanding(s, d)
  {
    forall id: nat ensures Data(id) in Pending(t) <==> Data(id) in Pending(s) || |s.pool| <= id < |s.pool| + k {
      FreshCounts(|s.pool|, k, Data(id));
    }
    MoreOutstanding(s, t, c, k);
  }

  lemma MoreOutstanding(s: State, t: State, c: nat, k: nat)
    requires |t.pool| == |s.pool| + k
    requires forall id | 0 <= id < |t.pool| ::
      t.pool[id].handle == if id < |s.pool| then s.pool[id].handle else Some(c)
    requires forall id: nat :: Data(id) in Pending(t) <==> Data(id) in Pending(s) || |s.pool| <= id < |s.pool| + k
    ensures Outstanding(t, c) == Outstanding(s, c) + Range(|s.pool|, k)
    ensures forall d: nat :: d != c ==> Outstanding(t, d) == Outstanding(s, d)
  {
  }

  /** A batch coroutine that has submitted k requests suspends, or returns if k is 0. */
  lemma BegunBatchExpects(s: State, c: nat, k: nat)
    requires CanReturn(s, c) && s.coros[c].status.Running? && AwaiterIdle(s, c)
    requires s.coros[c].body.Batch? && s.coros[c].begun
    requires s.coros[c].body.submitted == k && s.coros[c].body.i == 0
    ensures var t := if k == 0 then Return(s, c, 0) else Suspend(s, c, OnBatch);
      && |t.coros| == |s.coros|
      && Expected(t.coros[c]) == k && BatchOk(t.coros[c])
      && !(t.coros[c].status.Parked? && t.coros[c].status.on.OnIo?)
      && forall d | 0 <= d < |s.coros| && d != c :: SameWait(s.coros[d], t.coros[d])
  {
    if k == 0 { ReturnQuiet(s, c, 0); }
  }

  lemma BatchBeginExpects(s: State, c: nat, k: nat)
    requires CanBatchBegin(s, c) && s.coros[c].status.Running? && AwaiterIdle(s, c)
    requires k == Admitted(s, |s.coros[c].body.reqs|)
    ensures |DoBatchBegin(s, c).coros| == |s.coros|
    ensures Expected(DoBatchBegin(s, c).coros[c]) == k && BatchOk(DoBatchBegin(s, c).coros[c])
    ensures !(DoBatchBegin(s, c).coros[c].status.Parked? && DoBatchBegin(s, c).coros[c].status.on.OnIo?)
    ensures forall d | 0 <= d < |s.coros| && d != c :: SameWait(s.coros[d], DoBatchBegin(s, c).coros[d])
  {
    var b := BatchSubmitted(s, c);
    BegunBatchExpects(b, c, k);
    assert forall d | 0 <= d < |s.coros| && d != c :: b.coros[d] == s.coros[d];
  }

  lemma BatchBeginPending(s: State, c: nat, reqs: seq<Params>, k: nat)
    requires CanBatchBegin(s, c) && reqs == s.coros[c].body.reqs && k == Admitted(s, |reqs|)
    ensures Pending(DoBatchBegin(s, c)) == Pending(s) + multiset(Fresh(|s.pool|, k))
    ensures DoBatchBegin(s, c).pool == QueueBatch(s, c, reqs, k).pool
  {
    BatchBeginRing(s, c);
    BatchPending(s, c, reqs, k);
  }

  /** k more requests in the ring with c's handle, and c waiting for k responses. */
  lemma BatchBeginWaits(s: State, c: nat)
    requires WaitInv(s) && CanBatchBegin(s, c) && s.coros[c].status.Running? && AwaiterIdle(s, c)
    ensures WaitInv(DoBatchBegin(s, c))
  {
    var reqs := s.coros[c].body.reqs;
    var k := Admitted(s, |reqs|);
    BatchBeginExpects(s, c, k);
    BatchBeginPending(s, c, reqs, k);
    assert WaitOk(s, c);
    BatchAdded(s, DoBatchBegin(s, c), c, reqs, k);
  }

  lemma BatchAdded(s: State, t: State, c: nat, reqs: seq<Params>, k: nat)
    requires WaitInv(s) && c < |s.coros| && Expected(s.coros[c]) == 0 && k <= |reqs|
    requires t.pool == QueueBatch(s, c, reqs, k).pool
    requires Pending(t) == Pending(s) + multiset(Fresh(|s.pool|, k))
    requires |t.coros| == |s.coros| && Expected(t.coros[c]) == k && BatchOk(t.coros[c])
    requires !(t.coros[c].status.Parked? && t.coros[c].status.on.OnIo?)
    requires forall d | 0 <= d < |s.coros| && d != c :: SameWait(s.coros[d], t.coros[d])
    ensures WaitInv(t)
  {
    BatchOutstanding(s, t, c, reqs, k);
    RangeSize(|s.pool|, k);
    assert WaitOk(s, c);
    assert Outstanding(s, c) == {};
    assert Outstanding(t, c) == Range(|s.pool|, k);
    OthersKept(s, t, c);
  }

  /** The coroutine that the completion at the head names waits for it. */
  lemma HeadIsAwaited(s: State, id: nat)
    requires WaitInv(s) && PlaceInv(s) && SchedInv(s) && CanWaitCqe(s)
    requires s.cq[0] == Data(id) && s.pool[id].handle.Some?
    ensures Receives(s.coros, s.pool[id].handle.value)
    ensures id in Outstanding(s, s.pool[id].handle.value)
  {
    var c := s.pool[id].handle.value;
    assert s.cq[0] in Unhandled(s);
    assert id in Outstanding(s, c);
    assert WaitOk(s, c) && ParkFits(s.coros[c]);
    assert |Outstanding(s, c)| > 0;
  }

  lemma DeliverExpects(s: State, id: nat)
    requires id < |s.pool| && s.pool[id].handle.Some? && Receives(s.coros, s.pool[id].handle.value)
    requires ParkFits(s.coros[s.pool[id].handle.value]) && BatchOk(s.coros[s.pool[id].handle.value])
    ensures |Deliver(s, id).coros| == |s.coros|
    ensures var c := s.pool[id].handle.value;
      && Expected(Deliver(s, id).coros[c]) == Expected(s.coros[c]) - 1
      && BatchOk(Deliver(s, id).coros[c]) && Deliver(s, id).coros[c].status.Running?
    ensures forall d | 0 <= d < |s.coros| && d != s.pool[id].handle.value :: Deliver(s, id).coros[d] == s.coros[d]
  {
  }

  lemma TakeOne(s: State, t: State, e: Entry)
    requires t.pool == s.pool && Pending(t) == Pending(s) - multiset{e}
    requires e.Data? ==> e.id < |s.pool| && Pending(s)[e] == 1
    ensures forall d: nat ::
      Outstanding(t, d)
      == if e.Data? && s.pool[e.id].handle == Some(d) then Outstanding(s, d) - {e.id} else Outstanding(s, d)
  {
    forall id: nat ensures Data(id) in Pending(t) <==> Data(id) in Pending(s) && Data(id) != e {
      if Data(id) != e { assert Pending(t)[Data(id)] == Pending(s)[Data(id)]; }
    }
  }

  lemma WaitCqeWaits(s: State)
    requires WaitInv(s) && PlaceInv(s) && SchedInv(s) && CanWaitCqe(s)
    ensures WaitInv(DoWaitCqe(s))
  {
    WaitPending(s);
    var e := s.cq[0];
    if e.Data? { assert PlaceOk(s, e.id); }
    if e.Data? && s.pool[e.id].handle.Some? { HeadIsAwaited(s, e.id); }
    if e.Data? && s.pool[e.id].handle.Some? { HeadDelivered(s, e); } else { HeadStored(s, e); }
  }

  lemma HeadDelivered(s: State, e: Entry)
    requires WaitInv(s) && SchedInv(s) && CanWaitCqe(s) && e == s.cq[0]
    requires Pending(DoWaitCqe(s)) == Pending(s) - multiset{e}
    requires e.Data? && Pending(s)[e] == 1 && s.pool[e.id].handle.Some?
    requires Receives(s.coros, s.pool[e.id].handle.value) && e.id in Outstanding(s, s.pool[e.id].handle.value)
    ensures WaitInv(DoWaitCqe(s))
  {
    var t := DoWaitCqe(s);
    TakeOne(s, t, e);
    DeliveredKeeps(s, t, e.id);
  }

  lemma HeadStored(s: State, e: Entry)
    requires WaitInv(s) && CanWaitCqe(s) && e == s.cq[0]
    requires Pending(DoWaitCqe(s)) == Pending(s) - multiset{e}
    requires e.Data? ==> Pending(s)[e] == 1 && s.pool[e.id].handle.None?
    ensures WaitInv(DoWaitCqe(s))
  {
    var t := DoWaitCqe(s);
    TakeOne(s, t, e);
    NobodyResumed(s, t);
  }

  lemma NobodyResumed(s: State, t: State)
    requires WaitInv(s) && t.coros == s.coros && t.pool == s.pool
    requires forall d: nat :: Outstanding(t, d) == Outstanding(s, d)
    ensures WaitInv(t)
  {
    forall d | 0 <= d < |t.coros| ensures WaitOk(t, d) {
      assert WaitOk(s, d);
    }
  }

  lemma DeliveredKeeps(s: State, t: State, id: nat)
    requires WaitInv(s) && SchedInv(s) && id < |s.pool| && s.pool[id].handle.Some?
    requires Receives(s.coros, s.pool[id].handle.value) && id in Outstanding(s, s.pool[id].handle.value)
    requires Outstanding(t, s.pool[id].handle.value) == Outstanding(s, s.pool[id].handle.value) - {id}
    requires forall d: nat :: d != s.pool[id].handle.value ==> Outstanding(t, d) == Outstanding(s, d)
    requires t.pool == s.pool && t.coros == Deliver(s, id).coros
    ensures WaitInv(t)
  {
    var c := s.pool[id].handle.value;
    assert WaitOk(s, c) && ParkFits(s.coros[c]);
    DeliverExpects(s, id);
    OthersKept(s, t, c);
  }

  // Every step.

  lemma KernelWaits(s: State, e: Entry, res: int)
    requires WaitInv(s) && Counted(s) && CanComplete(s, e)
    ensures WaitInv(DoComplete(s, e, res))
  {
    CompletePending(s, e, res);
    QuietKeeps(s, DoComplete(s, e, res));
  }

  /** The poller gets the handle of a request that is no longer in the ring. */
  lemma LoopTopWaits(s: State)
    requires WaitInv(s) && PlaceInv(s) && CanLoopTop(s) && DeliversToWaiter(s, LoopTop)
    requires s.pollHandle.Some? ==> ParkFits(s.coros[s.pollHandle.value])
    ensures WaitInv(DoLoopTop(s))
  {
    LoopTopPlaces(s);
    if !s.life.Dead? && s.ready != [] && s.pollHandle.Some? {
      assert PlaceOk(s, s.ready[|s.ready| - 1]);
    }
    LoopTopRequests(s);
    QuietKeeps(s, DoLoopTop(s));
  }

  lemma LoopTopRequests(s: State)
    requires CanLoopTop(s) && DeliversToWaiter(s, LoopTop) && HandlesInRange(s)
    requires s.pollHandle.Some? ==> ParkFits(s.coros[s.pollHandle.value])
    requires Pending(DoLoopTop(s)) == Pending(s)
    requires s.ready != [] ==> Data(s.ready[|s.ready| - 1]) !in Pending(s) || s.pollHandle.None? || s.life.Dead?
    ensures SameRequests(s, DoLoopTop(s)) && Quiet(s, DoLoopTop(s)) && HandlesInRange(DoLoopTop(s))
  {
    LoopTopQuiet(s);
    LoopTopPool(s);
  }

  /** Only the request handed over changes, in its handle. */
  lemma LoopTopPool(s: State)
    requires CanLoopTop(s)
    ensures |DoLoopTop(s).pool| == |s.pool|
    ensures forall id | 0 <= id < |s.pool| ::
      && DoLoopTop(s).pool[id].specific == s.pool[id].specific
      && DoLoopTop(s).pool[id].handle
         == if !s.life.Dead? && s.pollHandle.Some? && s.ready != [] && id == s.ready[|s.ready| - 1] then s.pollHandle
            else s.pool[id].handle
  {
  }

  lemma LoopTopQuiet(s: State)
    requires CanLoopTop(s) && DeliversToWaiter(s, LoopTop)
    requires s.pollHandle.Some? ==> ParkFits(s.coros[s.pollHandle.value])
    ensures Quiet(s, DoLoopTop(s)) && |DoLoopTop(s).coros| == |s.coros|
  {
  }

  lemma SeenWaits(s: State, done: bool)
    requires WaitInv(s) && PlaceInv(s) && CanSeen(s, done) && s.coros[KILL].body.Kill?
    requires DeliversToWaiter(s, Seen(done))
    ensures WaitInv(DoSeen(s, done))
  {
    SeenPlaces(s, done);
    SeenQuiet(s, done);
    QuietKeeps(s, DoSeen(s, done));
  }

  lemma SeenQuiet(s: State, done: bool)
    requires CanSeen(s, done) && s.coros[KILL].body.Kill?
    requires !(s.coros[KILL].status.Parked? && s.coros[KILL].status.on.OnIo?) || !s.life.Dying?
    ensures Quiet(s, DoSeen(s, done)) && DoSeen(s, done).pool == s.pool
  {
  }

  lemma PolledDoneWaits(s: State, done: bool)
    requires WaitInv(s) && PlaceInv(s) && CanPolledDone(s, done)
    ensures WaitInv(DoPolledDone(s, done))
  {
    PolledDonePlaces(s, done);
    QuietKeeps(s, DoPolledDone(s, done));
  }

  /** The loop moves that handle no completion of the queue. */
  lemma WaitLoopStep(s: State, l: LoopMove)
    requires WaitInv(s) && PlaceInv(s) && CanLoop(s, l) && DeliversToWaiter(s, l) && !l.WaitCqe?
    requires s.pollHandle.Some? && l.LoopTop? ==> ParkFits(s.coros[s.pollHandle.value])
    requires KILL < |s.coros| && s.coros[KILL].body.Kill?
    ensures WaitInv(DoLoop(s, l))
  {
    match l
    case Start => QuietKeeps(s, DoStart(s));
    case LoopTop => LoopTopWaits(s);
    case PolledDone(done) => PolledDoneWaits(s, done);
    case Seen(done) => SeenWaits(s, done);
    case KillRoundDone => QuietKeeps(s, s.(pc := Top));
  }

  lemma RegisterQuiet(s: State, c: nat)
    requires CanRegister(s, c) && BatchOk(s.coros[c])
    ensures Quiet(s, DoRegister(s, c))
  {
  }

  lemma WaitCallStep(s: State, u: CallMove)
    requires WaitInv(s) && PlaceInv(s) && TopOk(s) && CanCall(s, u)
    ensures WaitInv(DoCall(s, u))
  {
    match u
    case Create(body) => QuietRing(s, DoCreate(s, body));
    case Register(c) => assert WaitOk(s, c); RegisterQuiet(s, c); QuietRing(s, DoRegister(s, c));
    case AwaitIo(c, params) => AwaitIoWaits(s, c, params);
    case SubmitNa(params) => SubmitNaWaits(s, params);
    case AwaitTask(c, child) =>
      assert WaitOk(s, child);
      AwaitTaskQuiet(s, c, child);
      QuietRing(s, DoAwaitTask(s, c, child));
    case CoReturn(c, v) => ReturnQuiet(s, c, v); QuietRing(s, Return(s, c, v));
  }

  lemma UnwindQuiet(s: State, f: FrameMove)
    requires TopOk(s) && CanUnwind(s, f) && SparesFrames(s, f)
    ensures Quiet(s, DoUnwind(s, f))
  {
    match f
    case StoreInsert(c, slot) =>
      SparingInsert(s, c, slot);
      assert Quiet(s, Stored(s, c, slot));
    case AwaitSuspendReturns(c, child) => AwaitSuspendReturnQuiet(s, c, child);
    case FinalSuspendReturns(c) =>
  }

  lemma WaitUnwindStep(s: State, f: FrameMove)
    requires WaitInv(s) && TopOk(s) && CanUnwind(s, f) && SparesFrames(s, f)
    ensures WaitInv(DoUnwind(s, f))
  {
    UnwindRing(s, f);
    UnwindQuiet(s, f);
    QuietRing(s, DoUnwind(s, f));
  }

  lemma KillLoopWaits(s: State)
    requires WaitInv(s) && PlaceInv(s) && TopOk(s) && CanReturn(s, KILL) && s.coros[KILL].body.Kill?
    ensures WaitInv(KillLoop(s))
  {
    KillLoopPlaces(s);
    KillLoopQuiet(s);
    QuietKeeps(s, KillLoop(s));
  }

  lemma KillAgainWaits(s: State)
    requires WaitInv(s) && TopOk(s) && CanReturn(s, KILL) && s.coros[KILL].body.Kill?
    ensures WaitInv(Return(s, KILL, -1))
  {
    ReturnQuiet(s, KILL, -1);
    QuietRing(s, Return(s, KILL, -1));
  }

  lemma KillFirstWaits(s: State)
    requires WaitInv(s) && PlaceInv(s) && TopOk(s) && CanReturn(s, KILL) && s.coros[KILL].body.Kill?
    ensures WaitInv(KillLoop(KillSubmitted(s)))
  {
    CancelPlaces(s);
    CancelWaits(s);
    KillLoopWaits(KillSubmitted(s));
  }

  lemma KillBeginWaits(s: State)
    requires WaitInv(s) && PlaceInv(s) && TopOk(s) && CanKillBegin(s)
    ensures WaitInv(DoKillBegin(s))
  {
    var s1 := Set(s, KILL, s.coros[KILL].(begun := true));
    PlaceFrame(s, s1);
    QuietRing(s, s1);
    if Restricted(s) { KillAgainWaits(s1); } else { KillFirstWaits(s1); }
  }

  lemma WaitLibraryStep(s: State, b: BodyMove)
    requires WaitInv(s) && PlaceInv(s) && TopOk(s) && CanLibrary(s, b)
    ensures WaitInv(DoLibrary(s, b))
  {
    match b
    case BatchBegin(c) => BatchBeginWaits(s, c);
    case BatchHandled(c) =>
      assert WaitOk(s, c);
      BatchHandledQuiet(s, c);
      QuietRing(s, DoBatchHandled(s, c));
    case PollBegin(c) => PollBeginQuiet(s, c); QuietRing(s, DoPollBegin(s, c));
    case PollHandled(c, again) => PollHandledQuiet(s, c, again); QuietRing(s, DoPollHandled(s, c, again));
    case KillBegin => KillBeginWaits(s);
    case KillCheck => KillLoopWaits(s);
  }

  lemma WaitStep(s: State, m: Move)
    requires WaitInv(s) && PlaceInv(s) && SchedInv(s) && Counted(s) && Sparing(s, m)
    requires m.Loop? ==> DeliversToWaiter(s, m.l)
    ensures WaitInv(Apply(s, m))
  {
    TopIsOk(s);
    match m
    case Kernel(e, res) => KernelWaits(s, e, res);
    case Loop(l) =>
      if l.WaitCqe? { WaitCqeWaits(s); }
      else {
        assert l.LoopTop? && s.pollHandle.Some? ==> ParkFits(s.coros[s.pollHandle.value]);
        WaitLoopStep(s, l);
      }
    case Call(u) => WaitCallStep(s, u);
    case Unwind(f) => WaitUnwindStep(s, f);
    case Library(b) => WaitLibraryStep(s, b);
  }
}
