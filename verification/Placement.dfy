/** Where every RequestData is: with the ring, in the ready store, with the poller, or freed. */
module Placement {
  import opened Option
  import opened Requests
  import opened Machine
  import opened Accounting

  /** The completions that `await_message` has not begun to handle. */
  function Unhandled(s: State): seq<Entry> {
    if s.pc.Handled? && s.cq != [] then s.cq[1..] else s.cq
  }

  /** The entries whose completion has not been handled, wherever they are in the ring. */
  function Pending(s: State): multiset<Entry> {
    multiset(s.sq) + s.kernel + multiset(Unhandled(s))
  }

  function One(b: bool): nat { if b then 1 else 0 }

  /** In how many of the four places the request data is. */
  function Places(s: State, id: nat): nat {
    Pending(s)[Data(id)] + multiset(s.ready)[id] + One(s.pc == Polled(id)) + One(id in s.freed)
  }

  /** The request has been handed to the poller. */
  predicate WasPolled(s: State, id: nat) { s.pc == Polled(id) || id in s.freed }

  /** A dynamic request is in exactly one place, was handed over at most once, and gets
      its handle only then. One that belongs to a coroutine is only ever in the ring. */
  predicate PlaceOk(s: State, id: nat)
    requires id < |s.pool|
  {
    if s.pool[id].dynamic then
      && Places(s, id) == 1
      && (s.pool[id].handle.Some? <==> WasPolled(s, id))
      && multiset(s.polled)[id] == One(WasPolled(s, id))
      && multiset(s.arrived)[id] + Pending(s)[Data(id)] == 1
    else
      && s.pool[id].handle.Some?
      && Places(s, id) == Pending(s)[Data(id)] <= 1
      && multiset(s.polled)[id] == multiset(s.arrived)[id] == 0
  }

  ghost predicate InRange(s: State) {
    && (forall e | e in Pending(s) :: e.Data? ==> e.id < |s.pool|)
    && (s.pc.Handled? && s.cq != [] && s.cq[0].Data? ==> s.cq[0].id < |s.pool| && s.cq[0].id !in s.freed)
    && (s.pc.Polled? ==> s.pc.id < |s.pool|)
    && (forall id | id in s.ready || id in s.polled || id in s.arrived || id in s.freed :: id < |s.pool|)
  }

  ghost predicate PlaceInv(s: State) {
    InRange(s) && forall id | 0 <= id < |s.pool| :: PlaceOk(s, id)
  }

  lemma PlaceFrame(s: State, t: State)
    requires PlaceInv(s) && SameRing(s, t)
    ensures PlaceInv(t)
  {
    assert Pending(s) == Pending(t);
    forall id | 0 <= id < |t.pool| ensures PlaceOk(t, id) { assert PlaceOk(s, id); }
  }

  /** Nothing about the place of a request below n changed from s to t. */
  lemma Unmoved(s: State, t: State)
    requires PlaceInv(s) && Pending(t) == Pending(s) && |t.pool| == |s.pool|
    requires t.freed == s.freed && t.ready == s.ready && t.polled == s.polled && t.arrived == s.arrived
    requires !s.pc.Polled? && !t.pc.Polled?
    requires forall id | 0 <= id < |s.pool| ::
      t.pool[id].dynamic == s.pool[id].dynamic && t.pool[id].handle == s.pool[id].handle
    requires t.pc.Handled? && t.cq != [] && t.cq[0].Data? ==> t.cq[0].id < |t.pool| && t.cq[0].id !in t.freed
    ensures PlaceInv(t)
  {
    forall id | 0 <= id < |t.pool| ensures PlaceOk(t, id) { assert PlaceOk(s, id); }
  }

  lemma CompletePending(s: State, e: Entry, res: int)
    requires Counted(s) && CanComplete(s, e)
    ensures Pending(DoComplete(s, e, res)) == Pending(s)
  {
    var t := DoComplete(s, e, res);
    var before, after := Unhandled(s), Unhandled(t);
    assert after == before + [e];
    assert multiset(after) == multiset(before) + multiset{e};
    assert s.kernel == t.kernel + multiset{e};
    assert t.sq == s.sq;
  }

  lemma CompletePlaces(s: State, e: Entry, res: int)
    requires PlaceInv(s) && Counted(s) && CanComplete(s, e)
    ensures PlaceInv(DoComplete(s, e, res)) && Pending(DoComplete(s, e, res)) == Pending(s)
  {
    CompletePending(s, e, res);
    var t := DoComplete(s, e, res);
    forall id | 0 <= id < |t.pool| ensures PlaceOk(t, id) { assert PlaceOk(s, id); }
  }

  lemma DispatchPlaces(s: State)
    requires PlaceInv(s) && CanLoopTop(s) && s.ready != [] && s.pollHandle.Some?
    ensures PlaceInv(Dispatched(s)) && Pending(Dispatched(s)) == Pending(s)
  {
    var t := Dispatched(s);
    var last := s.ready[|s.ready| - 1];
    assert Pending(t) == Pending(s);
    assert s.ready == t.ready + [last];
    assert PlaceOk(s, last);
    forall id | 0 <= id < |t.pool| ensures PlaceOk(t, id) { assert PlaceOk(s, id); }
  }

  lemma LoopTopPlaces(s: State)
    requires PlaceInv(s) && CanLoopTop(s)
    ensures PlaceInv(DoLoopTop(s)) && Pending(DoLoopTop(s)) == Pending(s)
  {
    var t := DoLoopTop(s);
    if !s.life.Dead? && s.ready != [] && s.pollHandle.Some? {
      DispatchPlaces(s);
      PlaceFrame(Dispatched(s), t);
    } else {
      Unmoved(s, t);
    }
  }

  /** The request being freed is a dynamic one, not freed before. */
  lemma PolledDonePlaces(s: State, done: bool)
    requires PlaceInv(s) && CanPolledDone(s, done)
    ensures s.pool[s.pc.id].dynamic && s.pc.id !in s.freed
    ensures PlaceInv(DoPolledDone(s, done)) && Pending(DoPolledDone(s, done)) == Pending(s)
  {
    var t := DoPolledDone(s, done);
    assert Pending(t) == Pending(s);
    assert PlaceOk(s, s.pc.id);
    forall id | 0 <= id < |t.pool| ensures PlaceOk(t, id) { assert PlaceOk(s, id); }
  }

  /** The completion at the head is taken up: put in the ready store, or about to be
      delivered. */
  function TakenUp(s: State): State
    requires CanWaitCqe(s)
  {
    if s.cq[0].Data? && s.pool[s.cq[0].id].handle.None? then
      s.(pc := Handled, ready := s.ready + [s.cq[0].id], arrived := s.arrived + [s.cq[0].id])
    else s.(pc := Handled)
  }

  lemma TakenUpPending(s: State)
    requires CanWaitCqe(s)
    ensures Pending(s) == Pending(TakenUp(s)) + multiset{s.cq[0]}
  {
    assert s.cq == [s.cq[0]] + s.cq[1..];
    assert multiset(s.cq) == multiset{s.cq[0]} + multiset(s.cq[1..]);
  }

  lemma ReadyTakenUpPlaces(s: State, n: nat)
    requires PlaceInv(s) && CanWaitCqe(s) && s.cq[0] == Data(n) && s.pool[n].handle.None?
    ensures PlaceInv(TakenUp(s))
  {
    var t := TakenUp(s);
    TakenUpPending(s);
    assert PlaceOk(s, n);
    forall id | 0 <= id < |t.pool| ensures PlaceOk(t, id) { assert PlaceOk(s, id); }
  }

  lemma TiedTakenUpPlaces(s: State)
    requires PlaceInv(s) && CanWaitCqe(s)
    requires s.cq[0].Data? ==> s.pool[s.cq[0].id].handle.Some?
    ensures PlaceInv(TakenUp(s))
  {
    var t := TakenUp(s);
    TakenUpPending(s);
    if s.cq[0].Data? {
      assert PlaceOk(s, s.cq[0].id);
      assert Pending(s)[s.cq[0]] > 0;
    }
    forall id | 0 <= id < |t.pool| ensures PlaceOk(t, id) { assert PlaceOk(s, id); }
  }

  lemma TakenUpPlaces(s: State)
    requires PlaceInv(s) && CanWaitCqe(s)
    ensures PlaceInv(TakenUp(s))
  {
    if s.cq[0].Data? && s.pool[s.cq[0].id].handle.None? {
      ReadyTakenUpPlaces(s, s.cq[0].id);
    } else {
      TiedTakenUpPlaces(s);
    }
  }

  lemma WaitIsTakenUp(s: State)
    requires CanWaitCqe(s)
    ensures SameRing(TakenUp(s), DoWaitCqe(s))
  {
  }

  lemma WaitPending(s: State)
    requires CanWaitCqe(s)
    ensures Pending(DoWaitCqe(s)) == Pending(s) - multiset{s.cq[0]} && s.cq[0] in Pending(s)
  {
    TakenUpPending(s);
    WaitIsTakenUp(s);
    assert Pending(DoWaitCqe(s)) == Pending(TakenUp(s));
  }

  lemma WaitPlaces(s: State)
    requires PlaceInv(s) && CanWaitCqe(s)
    ensures PlaceInv(DoWaitCqe(s))
  {
    TakenUpPlaces(s);
    WaitIsTakenUp(s);
    PlaceFrame(TakenUp(s), DoWaitCqe(s));
  }

  /** A completion marked seen was handled before, so no request moves. */
  lemma SeenPlaces(s: State, done: bool)
    requires PlaceInv(s) && CanSeen(s, done)
    ensures PlaceInv(DoSeen(s, done)) && Pending(DoSeen(s, done)) == Pending(s)
    ensures DoSeen(s, done).freed == s.freed
  {
    var t := DoSeen(s, done);
    if s.cq[0].Data? { assert PlaceOk(s, s.cq[0].id); }
    assert t.freed == s.freed && t.pool == s.pool;
    assert Unhandled(t) == s.cq[1..] == Unhandled(s);
    Unmoved(s, t);
  }

  /** A new request, queued and submitted. */
  lemma NowherePlaces(s: State, id: nat)
    requires InRange(s) && id >= |s.pool|
    ensures Places(s, id) == 0 && multiset(s.polled)[id] == 0 && multiset(s.arrived)[id] == 0
  {
    assert Data(id) !in Pending(s);
    assert id !in s.ready && id !in s.polled && id !in s.arrived && id !in s.freed && s.pc != Polled(id);
  }

  lemma QueuePending(s: State, r: RequestData)
    requires InRange(s)
    ensures Pending(SubmitAll(Queue(s, r))) == Pending(s) + multiset{Data(|s.pool|)}
    ensures Pending(s)[Data(|s.pool|)] == 0
  {
    NowherePlaces(s, |s.pool|);
  }

  lemma QueuePlaces(s: State, r: RequestData)
    requires PlaceInv(s) && r.dynamic == r.handle.None?
    ensures PlaceInv(SubmitAll(Queue(s, r)))
    ensures Pending(SubmitAll(Queue(s, r))) == Pending(s) + multiset{Data(|s.pool|)}
    ensures Pending(s)[Data(|s.pool|)] == 0
  {
    var n := |s.pool|;
    var t := SubmitAll(Queue(s, r));
    QueuePending(s, r);
    NowherePlaces(s, n);
    forall id | 0 <= id < |t.pool| ensures PlaceOk(t, id) {
      if id < n { assert PlaceOk(s, id); }
    }
  }

  /** The pool indices of k requests made one after the other. */
  function Fresh(n: nat, k: nat): seq<Entry> { seq(k, j requires 0 <= j < k => Data(n + j)) }

  lemma {:induction false} FreshCounts(n: nat, k: nat, e: Entry)
    ensures multiset(Fresh(n, k))[e] == One(e.Data? && n <= e.id < n + k)
  {
    if k > 0 {
      FreshCounts(n, k - 1, e);
      assert Fresh(n, k) == Fresh(n, k - 1) + [Data(n + k - 1)];
    }
  }

  lemma BatchPending(s: State, c: nat, reqs: seq<Params>, k: nat)
    requires k <= |reqs|
    ensures Pending(SubmitAll(QueueBatch(s, c, reqs, k))) == Pending(s) + multiset(Fresh(|s.pool|, k))
  {
    assert QueueBatch(s, c, reqs, k).sq == s.sq + Fresh(|s.pool|, k);
  }

  lemma BatchPlaces(s: State, c: nat, reqs: seq<Params>, k: nat)
    requires PlaceInv(s) && k <= |reqs|
    ensures PlaceInv(SubmitAll(QueueBatch(s, c, reqs, k)))
  {
    var n := |s.pool|;
    var t := SubmitAll(QueueBatch(s, c, reqs, k));
    BatchPending(s, c, reqs, k);
    forall e | e in Pending(t) ensures e.Data? ==> e.id < |t.pool| { FreshCounts(n, k, e); }
    forall id: nat | id < |t.pool| ensures PlaceOk(t, id) { BatchPlaceOk(s, c, reqs, k, id); }
  }

  lemma BatchPendingAt(s: State, c: nat, reqs: seq<Params>, k: nat, id: nat)
    requires k <= |reqs|
    ensures Pending(SubmitAll(QueueBatch(s, c, reqs, k)))[Data(id)] ==
      Pending(s)[Data(id)] + One(|s.pool| <= id < |s.pool| + k)
  {
    BatchPending(s, c, reqs, k);
    FreshCounts(|s.pool|, k, Data(id));
  }

  lemma BatchPlaceOk(s: State, c: nat, reqs: seq<Params>, k: nat, id: nat)
    requires PlaceInv(s) && k <= |reqs| && id < |s.pool| + k
    ensures PlaceOk(SubmitAll(QueueBatch(s, c, reqs, k)), id)
  {
    BatchPendingAt(s, c, reqs, k, id);
    if id < |s.pool| { assert PlaceOk(s, id); } else { NowherePlaces(s, id); }
  }

  lemma CancelPlaces(s: State)
    requires PlaceInv(s)
    ensures PlaceInv(KillSubmitted(s)) && Pending(KillSubmitted(s)) == Pending(s) + multiset{Cancel}
  {
    var t := KillSubmitted(s);
    assert Pending(t) == Pending(s) + multiset{Cancel};
    forall id | 0 <= id < |t.pool| ensures PlaceOk(t, id) { assert PlaceOk(s, id); }
  }

  // Every step.

  lemma PlaceLoopStep(s: State, l: LoopMove)
    requires PlaceInv(s) && CanLoop(s, l)
    ensures PlaceInv(DoLoop(s, l))
  {
    match l
    case Start => if s.life.NotStarted? { Unmoved(s, DoStart(s)); }
    case LoopTop => LoopTopPlaces(s);
    case PolledDone(done) => PolledDonePlaces(s, done);
    case WaitCqe => WaitPlaces(s);
    case Seen(done) => SeenPlaces(s, done);
    case KillRoundDone => Unmoved(s, s.(pc := Top));
  }

  lemma AwaitIoPlaces(s: State, c: nat, params: Params)
    requires PlaceInv(s) && CanAwaitIo(s, c)
    ensures PlaceInv(DoAwaitIo(s, c, params))
  {
    if SqeAvailable(s) {
      var r := RequestRecord(Some(c), s.coros[c].metadata, Tag(params), false, params, 0);
      QueuePlaces(s, r);
      PlaceFrame(SubmitAll(Queue(s, r)), DoAwaitIo(s, c, params));
    }
  }

  lemma CallRing(s: State, u: CallMove)
    requires CanCall(s, u) && !u.AwaitIo? && !u.SubmitNa?
    ensures SameRing(s, DoCall(s, u))
  {
  }

  lemma PlaceCallStep(s: State, u: CallMove)
    requires PlaceInv(s) && CanCall(s, u)
    ensures PlaceInv(DoCall(s, u))
  {
    match u
    case AwaitIo(c, params) => AwaitIoPlaces(s, c, params);
    case SubmitNa(params) =>
      if SqeAvailable(s) { QueuePlaces(s, RequestRecord(None, 0, Tag(params), true, params, 0)); }
    case _ => CallRing(s, u); PlaceFrame(s, DoCall(s, u));
  }

  lemma BatchBeginPlaces(s: State, c: nat)
    requires PlaceInv(s) && CanBatchBegin(s, c)
    ensures PlaceInv(DoBatchBegin(s, c))
  {
    var reqs := s.coros[c].body.reqs;
    var k := Admitted(s, |reqs|);
    BatchPlaces(s, c, reqs, k);
    BatchBeginRing(s, c);
    PlaceFrame(SubmitAll(QueueBatch(s, c, reqs, k)), DoBatchBegin(s, c));
  }

  /** The life state does not matter to where requests are. */
  lemma LifePlaces(s: State, life: Life)
    requires PlaceInv(s)
    ensures PlaceInv(s.(life := life)) && Pending(s.(life := life)) == Pending(s)
  {
    var t := s.(life := life);
    assert Pending(t) == Pending(s);
    forall id | 0 <= id < |t.pool| ensures PlaceOk(t, id) { assert PlaceOk(s, id); }
  }

  lemma KillLoopPlaces(s: State)
    requires PlaceInv(s) && CanReturn(s, KILL)
    ensures PlaceInv(KillLoop(s)) && Pending(KillLoop(s)) == Pending(s)
  {
    LifePlaces(s, Dead);
    if s.inFlight != 0 { PlaceFrame(s, KillLoop(s)); }
    else { PlaceFrame(s.(life := Dead), KillLoop(s)); }
  }

  lemma KillBeginPlaces(s: State)
    requires PlaceInv(s) && CanKillBegin(s)
    ensures PlaceInv(DoKillBegin(s))
  {
    var s1 := Set(s, KILL, s.coros[KILL].(begun := true));
    PlaceFrame(s, s1);
    if Restricted(s) { PlaceFrame(s1, DoKillBegin(s)); }
    else { CancelPlaces(s1); KillLoopPlaces(KillSubmitted(s1)); }
  }

  lemma PlaceLibraryStep(s: State, b: BodyMove)
    requires PlaceInv(s) && CanLibrary(s, b)
    ensures PlaceInv(DoLibrary(s, b))
  {
    match b
    case BatchBegin(c) => BatchBeginPlaces(s, c);
    case BatchHandled(c) => PlaceFrame(s, DoBatchHandled(s, c));
    case PollBegin(c) => PlaceFrame(s, DoPollBegin(s, c));
    case PollHandled(c, again) => PlaceFrame(s, DoPollHandled(s, c, again));
    case KillBegin => KillBeginPlaces(s);
    case KillCheck => KillLoopPlaces(s);
  }

  lemma PlaceStep(s: State, m: Move)
    requires PlaceInv(s) && Counted(s) && Sparing(s, m)
    ensures PlaceInv(Apply(s, m))
  {
    match m
    case Kernel(e, res) => CompletePlaces(s, e, res);
    case Loop(l) => PlaceLoopStep(s, l);
    case Call(u) => PlaceCallStep(s, u);
    case Unwind(f) => UnwindRing(s, f); PlaceFrame(s, DoUnwind(s, f));
    case Library(b) => PlaceLibraryStep(s, b);
  }
}
