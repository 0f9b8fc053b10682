/** The coroutines and the call stack: who runs, who waits for whom, and that a frame
    on the stack and the status of its coroutine always agree. */
module Scheduling {
  import opened Option
  import opened Machine
  import Requests

  /** The task is past `co_return`: its awaiter, if any, has been resumed. */
  predicate Over(r: Coro) { r.status.Returning? || r.status.Finished? }

  /** Where a coroutine may be parked, by what its code is. */
  predicate ParkFits(r: Coro) {
    r.status.Parked? ==>
      match r.body
      case User => r.status.on.OnIo? || r.status.on.OnTask?
      case Batch(_, _, _) => r.status.on.OnBatch? && r.begun
      case Poll => r.status.on.OnPoll? && r.begun
      case Kill => r.status.on.OnKill? && r.begun
  }

  predicate Waits(coros: seq<Coro>, c: nat, child: nat) {
    c < |coros| && coros[c].status == Parked(OnTask(child))
  }

  predicate FrameOk(coros: seq<Coro>, f: Frame) {
    f.c < |coros| &&
    match f
    case Run(c) => coros[c].status.Running?
    case AwaitSuspend(c, child) => Waits(coros, c, child) && child < |coros| && !coros[child].status.Created?
    case FinalSuspend(c) => coros[c].status.Returning?
    case Registering(c) => c != KILL && coros[c].slot.None? && !coros[c].status.Created?
  }

  /** The awaiter recorded in a child that is not over waits for that child, and no
      `await_suspend` call still has the decision to resume it. */
  predicate LinkOk(coros: seq<Coro>, stack: seq<Frame>, child: nat)
    requires child < |coros|
  {
    coros[child].awaiter.Some? ==>
      (coros[child].awaiter.value < |coros|
      && (!Over(coros[child]) ==>
           (Waits(coros, coros[child].awaiter.value, child)
            && AwaitSuspend(coros[child].awaiter.value, child) !in stack)))
  }

  predicate Distinct(stack: seq<Frame>) {
    forall i, j | 0 <= i < j < |stack| :: stack[i] != stack[j]
  }

  predicate KillBody(coros: seq<Coro>) {
    |coros| > 0 && forall c | 0 <= c < |coros| :: coros[c].body.Kill? <==> c == KILL
  }

  predicate Sched(coros: seq<Coro>, stack: seq<Frame>) {
    && KillBody(coros)
    && Distinct(stack)
    && (forall f | f in stack :: FrameOk(coros, f))
    && (forall c | 0 <= c < |coros| ::
          && (coros[c].status.Running? ==> Run(c) in stack)
          && (coros[c].slot.Some? ==> !coros[c].status.Created?)
          && (coros[c].status.Returning? ==> FinalSuspend(c) in stack))
    && (forall c | 0 <= c < |coros| :: LinkOk(coros, stack, c) && ParkFits(coros[c]))
  }

  predicate SchedInv(s: State) { Sched(s.coros, s.stack) }

  /** Resuming c is meaningful: it is suspended, and nobody else holds the right to resume it. */
  predicate Resumable(coros: seq<Coro>, stack: seq<Frame>, c: nat) {
    c < |coros|
    && (coros[c].status.Created? || coros[c].status.Parked?)
    && (coros[c].status.Parked? && coros[c].status.on.OnTask? ==>
          var child := coros[c].status.on.child;
          AwaitSuspend(c, child) !in stack
          && (child < |coros| && coros[child].awaiter == Some(c) ==> Over(coros[child])))
  }

  lemma PopFrame(stack: seq<Frame>)
    requires stack != [] && Distinct(stack)
    ensures Distinct(stack[..|stack| - 1])
    ensures forall f :: f in stack[..|stack| - 1] <==> f in stack && f != stack[|stack| - 1]
  {
    var rest := stack[..|stack| - 1];
    assert stack == rest + [stack[|stack| - 1]];
  }

  lemma PushFrame(stack: seq<Frame>, f: Frame)
    requires Distinct(stack) && f !in stack
    ensures Distinct(stack + [f])
    ensures forall g :: g in stack + [f] <==> g in stack || g == f
  {
  }

  lemma ResumeKeeps(s: State, c: nat)
    requires SchedInv(s) && Resumable(s.coros, s.stack, c)
    ensures SchedInv(Resume(s, c))
  {
    PushFrame(s.stack, Run(c));
    var t := Resume(s, c);
    forall ch: nat | ch < |t.coros| ensures LinkOk(t.coros, t.stack, ch) { ResumeKeepsLink(s, c, ch); }
    forall f | f in t.stack ensures FrameOk(t.coros, f) { ResumeKeepsFrame(s, c, f); }
  }

  lemma ResumeKeepsLink(s: State, c: nat, ch: nat)
    requires SchedInv(s) && Resumable(s.coros, s.stack, c) && ch < |s.coros|
    ensures LinkOk(Resume(s, c).coros, Resume(s, c).stack, ch)
  {
    assert LinkOk(s.coros, s.stack, ch);
  }

  lemma ResumeKeepsFrame(s: State, c: nat, f: Frame)
    requires SchedInv(s) && Resumable(s.coros, s.stack, c) && f in Resume(s, c).stack
    ensures FrameOk(Resume(s, c).coros, f)
  {
    if f != Run(c) { assert FrameOk(s.coros, f); }
  }

  lemma SuspendKeeps(s: State, c: nat, park: Park)
    requires SchedInv(s) && c < |s.coros| && OnTop(s, Run(c))
    requires ParkFits(s.coros[c].(status := Parked(park)))
    ensures SchedInv(Suspend(s, c, park))
    ensures Run(c) !in Suspend(s, c, park).stack
  {
    PopFrame(s.stack);
    var t := Suspend(s, c, park);
    assert FrameOk(s.coros, Run(c));
    forall ch | 0 <= ch < |t.coros| ensures LinkOk(t.coros, t.stack, ch) {
      assert LinkOk(s.coros, s.stack, ch);
    }
    forall f | f in t.stack ensures FrameOk(t.coros, f) {
      assert FrameOk(s.coros, f);
    }
  }

  /** Only these fields of a coroutine matter to scheduling. */
  predicate SameForSched(x: Coro, y: Coro) {
    x.body.Kill? == y.body.Kill? && x.status == y.status && x.awaiter == y.awaiter && x.slot == y.slot
    && (ParkFits(x) ==> ParkFits(y))
  }

  lemma UpdateKeeps(s: State, c: nat, r: Coro)
    requires SchedInv(s) && c < |s.coros| && SameForSched(s.coros[c], r)
    ensures SchedInv(Set(s, c, r))
  {
    var t := Set(s, c, r);
    forall ch | 0 <= ch < |t.coros| ensures LinkOk(t.coros, t.stack, ch) {
      assert LinkOk(s.coros, s.stack, ch);
    }
    forall f | f in t.stack ensures FrameOk(t.coros, f) {
      assert FrameOk(s.coros, f);
    }
  }

  /** The first half of `co_return`, before the awaiter is resumed. */
  function Returned(s: State, c: nat, v: int): State
    requires c < |s.coros| && s.stack != []
  {
    Push(Pop(Set(s, c, s.coros[c].(status := Returning, ret := v))), FinalSuspend(c))
  }

  lemma ReturnedKeeps(s: State, c: nat, v: int)
    requires SchedInv(s) && c < |s.coros| && OnTop(s, Run(c))
    ensures SchedInv(Returned(s, c, v))
  {
    PopFrame(s.stack);
    assert FrameOk(s.coros, Run(c));
    assert FinalSuspend(c) in s.stack ==> FrameOk(s.coros, FinalSuspend(c));
    PushFrame(s.stack[..|s.stack| - 1], FinalSuspend(c));
    var t := Returned(s, c, v);
    forall ch | 0 <= ch < |t.coros| ensures LinkOk(t.coros, t.stack, ch) {
      assert LinkOk(s.coros, s.stack, ch);
    }
    forall f | f in t.stack ensures FrameOk(t.coros, f) {
      if f != FinalSuspend(c) { assert FrameOk(s.coros, f); }
    }
  }

  /** `co_return` resumes exactly a coroutine that waits for this task. */
  lemma ReturnKeeps(s: State, c: nat, v: int)
    requires SchedInv(s) && CanReturn(s, c)
    ensures SchedInv(Return(s, c, v))
    ensures s.coros[c].awaiter.Some? ==> Waits(s.coros, s.coros[c].awaiter.value, c)
  {
    assert FrameOk(s.coros, Run(c));
    assert LinkOk(s.coros, s.stack, c);
    ReturnedKeeps(s, c, v);
    var t := Returned(s, c, v);
    if s.coros[c].awaiter.Some? {
      var a := s.coros[c].awaiter.value;
      assert LinkOk(t.coros, t.stack, c);
      UpdateKeeps(t, a, t.coros[a].(got := Some(v)));
      ResumeKeeps(Set(t, a, t.coros[a].(got := Some(v))), a);
    }
  }

  lemma CreateKeeps(s: State, body: Body)
    requires SchedInv(s) && CanCreate(s, body)
    ensures SchedInv(DoCreate(s, body))
  {
    var t := DoCreate(s, body);
    forall ch | 0 <= ch < |t.coros| ensures LinkOk(t.coros, t.stack, ch) {
      if ch < |s.coros| { assert LinkOk(s.coros, s.stack, ch); }
    }
    forall f | f in t.stack ensures FrameOk(t.coros, f) {
      assert FrameOk(s.coros, f);
    }
  }

  lemma RegisterKeeps(s: State, c: nat)
    requires SchedInv(s) && CanRegister(s, c)
    ensures SchedInv(DoRegister(s, c))
  {
    PushFrame(s.stack, Registering(c));
    if s.coros[c].status.Created? {
      ResumeKeeps(s, c);
      var w, v := Resume(s, c), Resume(Push(s, Registering(c)), c);
      assert v.coros == w.coros;
      PushFrame(s.stack + [Registering(c)], Run(c));
      RegisteringFrameKeeps(w.coros, w.stack, v.stack, c);
    } else {
      RegisteringFrameKeeps(s.coros, s.stack, s.stack + [Registering(c)], c);
    }
  }

  /** A fresh `register_coro` frame fits where its task has been started. */
  lemma RegisteringFrameKeeps(coros: seq<Coro>, before: seq<Frame>, after: seq<Frame>, c: nat)
    requires Sched(coros, before) && Distinct(after)
    requires forall f :: f in after <==> f in before || f == Registering(c)
    requires 0 < c < |coros| && coros[c].slot.None? && !coros[c].status.Created?
    ensures Sched(coros, after)
  {
    forall ch | 0 <= ch < |coros| ensures LinkOk(coros, after, ch) {
      assert LinkOk(coros, before, ch);
    }
    forall f | f in after ensures FrameOk(coros, f) {
      if f != Registering(c) { assert FrameOk(coros, f); }
    }
  }

  lemma StoreInsertKeeps(s: State, c: nat, slot: nat)
    requires SchedInv(s) && CanStoreInsert(s, c, slot) && SparesFrames(s, StoreInsert(c, slot))
    ensures SchedInv(DoStoreInsert(s, c, slot))
  {
    SparingInsert(s, c, slot);
    StoredKeeps(s, c, slot);
  }

  lemma StoredKeeps(s: State, c: nat, slot: nat)
    requires SchedInv(s) && c < |s.coros| && OnTop(s, Registering(c))
    ensures SchedInv(Stored(s, c, slot))
  {
    PopFrame(s.stack);
    assert FrameOk(s.coros, Registering(c));
    var t := Stored(s, c, slot);
    SlotChanges(s.coros, t.coros, c);
    forall ch: nat | ch < |t.coros| ensures LinkOk(t.coros, t.stack, ch) {
      InsertedLink(s.coros, t.coros, s.stack, t.stack, ch);
    }
    forall f | f in t.stack ensures FrameOk(t.coros, f) {
      if f.Registering? && f.c == c { assert false; }
      InsertedFrame(s.coros, t.coros, f, c);
    }
  }

  /** Scheduling looks at the slot only of a task that is being registered. */
  predicate SameButSlot(x: Coro, y: Coro) {
    x.body == y.body && x.status == y.status && x.awaiter == y.awaiter && x.begun == y.begun
  }

  predicate OnlySlot(before: seq<Coro>, after: seq<Coro>, c: nat) {
    |after| == |before| && forall d | 0 <= d < |before| ::
      SameButSlot(before[d], after[d]) && (d != c ==> after[d] == before[d])
  }

  lemma SlotChanges(before: seq<Coro>, after: seq<Coro>, c: nat)
    requires c < |before| && |after| == |before| && SameButSlot(before[c], after[c]) && after == before[c := after[c]]
    ensures OnlySlot(before, after, c)
  {
  }

  lemma InsertedLink(before: seq<Coro>, after: seq<Coro>, stack: seq<Frame>, rest: seq<Frame>, ch: nat)
    requires ch < |before| == |after| && LinkOk(before, stack, ch) && forall f | f in rest :: f in stack
    requires forall d | 0 <= d < |before| :: SameButSlot(before[d], after[d])
    ensures LinkOk(after, rest, ch)
  {
  }

  lemma InsertedFrame(before: seq<Coro>, after: seq<Coro>, f: Frame, c: nat)
    requires FrameOk(before, f) && OnlySlot(before, after, c) && f != Registering(c)
    ensures FrameOk(after, f)
  {
  }

  lemma AwaitTaskKeeps(s: State, c: nat, child: nat)
    requires SchedInv(s) && CanAwaitTask(s, c, child)
    ensures SchedInv(DoAwaitTask(s, c, child))
  {
    SuspendKeeps(s, c, OnTask(child));
    var t := Suspend(s, c, OnTask(child));
    assert AwaitSuspend(c, child) in t.stack ==> FrameOk(s.coros, AwaitSuspend(c, child));
    assert FrameOk(s.coros, Run(c));
    PushFrame(t.stack, AwaitSuspend(c, child));
    if t.coros[child].status.Created? {
      assert Resumable(t.coros, t.stack, child);
      StartedChildKeeps(t, c, child);
    } else {
      AwaitFrameKeeps(t.coros, t.stack, t.stack + [AwaitSuspend(c, child)], c, child);
    }
  }

  /** The child is started before the new frame is looked at. */
  lemma StartedChildKeeps(s: State, c: nat, child: nat)
    requires SchedInv(s) && child < |s.coros| && Resumable(s.coros, s.stack, child) && s.coros[child].status.Created?
    requires Waits(s.coros, c, child) && Distinct(Push(s, AwaitSuspend(c, child)).stack)
    requires s.coros[child].awaiter != Some(c)
    ensures SchedInv(Resume(Push(s, AwaitSuspend(c, child)), child))
  {
    ResumeKeeps(s, child);
    var w := Resume(s, child);
    var u := Push(s, AwaitSuspend(c, child));
    var v := Resume(u, child);
    assert v.coros == w.coros;
    PushFrame(u.stack, Run(child));
    AwaitFrameKeeps(w.coros, w.stack, v.stack, c, child);
  }

  /** A fresh `await_suspend` frame fits where the awaiter is not yet recorded anywhere. */
  lemma AwaitFrameKeeps(coros: seq<Coro>, before: seq<Frame>, after: seq<Frame>, c: nat, child: nat)
    requires Sched(coros, before) && Distinct(after)
    requires forall f :: f in after <==> f in before || f == AwaitSuspend(c, child)
    requires Waits(coros, c, child) && child < |coros| && !coros[child].status.Created?
    requires coros[child].awaiter == Some(c) ==> Over(coros[child])
    ensures Sched(coros, after)
  {
    forall ch | 0 <= ch < |coros| ensures LinkOk(coros, after, ch) {
      assert LinkOk(coros, before, ch);
    }
    forall f | f in after ensures FrameOk(coros, f) {
      if f != AwaitSuspend(c, child) { assert FrameOk(coros, f); }
    }
  }

  /** An `await_suspend` call returns. */
  lemma PopAwaitKeeps(s: State, c: nat, child: nat)
    requires SchedInv(s) && CanAwaitSuspendReturn(s, c, child)
    ensures SchedInv(Pop(s)) && AwaitSuspend(c, child) !in Pop(s).stack
    ensures Waits(s.coros, c, child)
    ensures s.coros[child].awaiter == Some(c) ==> Over(s.coros[child])
  {
    PopFrame(s.stack);
    assert FrameOk(s.coros, AwaitSuspend(c, child));
    assert LinkOk(s.coros, s.stack, child);
    var t := Pop(s);
    forall ch | 0 <= ch < |t.coros| ensures LinkOk(t.coros, t.stack, ch) {
      assert LinkOk(s.coros, s.stack, ch);
    }
    forall f | f in t.stack ensures FrameOk(t.coros, f) {
      assert FrameOk(s.coros, f);
    }
  }

  lemma RecordAwaiterKeeps(s: State, c: nat, child: nat)
    requires SchedInv(s) && child < |s.coros| && Waits(s.coros, c, child) && AwaitSuspend(c, child) !in s.stack
    ensures SchedInv(Set(s, child, s.coros[child].(awaiter := Some(c))))
  {
    var u := Set(s, child, s.coros[child].(awaiter := Some(c)));
    forall ch | 0 <= ch < |u.coros| ensures LinkOk(u.coros, u.stack, ch) {
      assert LinkOk(s.coros, s.stack, ch);
    }
    forall f | f in u.stack ensures FrameOk(u.coros, f) {
      assert FrameOk(s.coros, f);
    }
  }

  lemma AwaitSuspendReturnKeeps(s: State, c: nat, child: nat)
    requires SchedInv(s) && CanAwaitSuspendReturn(s, c, child)
    ensures SchedInv(DoAwaitSuspendReturn(s, c, child))
    ensures Waits(s.coros, c, child)
  {
    PopAwaitKeeps(s, c, child);
    var t := Pop(s);
    if s.coros[child].status.Finished? {
      var r := s.coros[c].(got := Some(s.coros[child].ret));
      UpdateKeeps(t, c, r);
      ResumeKeeps(Set(t, c, r), c);
    } else {
      RecordAwaiterKeeps(t, c, child);
    }
  }

  lemma FinalSuspendReturnKeeps(s: State, c: nat)
    requires SchedInv(s) && CanFinalSuspendReturn(s, c)
    ensures SchedInv(DoFinalSuspendReturn(s, c))
  {
    PopFrame(s.stack);
    assert FrameOk(s.coros, FinalSuspend(c));
    var t := DoFinalSuspendReturn(s, c);
    forall ch | 0 <= ch < |t.coros| ensures LinkOk(t.coros, t.stack, ch) {
      assert LinkOk(s.coros, s.stack, ch);
    }
    forall f | f in t.stack ensures FrameOk(t.coros, f) {
      assert FrameOk(s.coros, f);
    }
  }

  /** The coroutine is parked where `event_handler` may resume it. */
  predicate Receives(coros: seq<Coro>, c: nat) {
    c < |coros| && coros[c].status.Parked? && (coros[c].status.on.OnIo? || coros[c].status.on.OnBatch?)
  }

  predicate PollerParked(coros: seq<Coro>, c: nat) {
    c < |coros| && coros[c].status == Parked(OnPoll)
  }

  /** What `event_handler` resumes in this step, if anything, is parked for it, and so
      is the kill task when the loop resumes it. */
  predicate DeliversToWaiter(s: State, l: LoopMove)
    requires CanLoop(s, l)
  {
    && (l.WaitCqe? && s.cq[0].Data? && s.pool[s.cq[0].id].handle.Some? ==>
          Receives(s.coros, s.pool[s.cq[0].id].handle.value))
    && (l.LoopTop? && s.pollHandle.Some? ==> PollerParked(s.coros, s.pollHandle.value))
    && (l.Seen? && s.life.Dying? ==> s.coros[KILL].status == Parked(OnKill))
  }

  lemma DeliverKeeps(s: State, id: nat)
    requires SchedInv(s) && id < |s.pool| && s.pool[id].handle.Some?
    requires Receives(s.coros, s.pool[id].handle.value) || PollerParked(s.coros, s.pool[id].handle.value)
    ensures SchedInv(Deliver(s, id))
  {
    var c := s.pool[id].handle.value;
    var r := s.coros[c].(channel := Requests.Response(s.pool[id]));
    UpdateKeeps(s, c, r);
    ResumeKeeps(Set(s, c, r), c);
  }

  lemma BatchBeginKeeps(s: State, c: nat)
    requires SchedInv(s) && CanBatchBegin(s, c)
    ensures SchedInv(DoBatchBegin(s, c))
  {
    var t := BatchSubmitted(s, c);
    assert FrameOk(s.coros, Run(c));
    UpdateKeeps(s, c, t.coros[c]);
    assert t.coros == Set(s, c, t.coros[c]).coros;
    if t.coros[c].body.submitted == 0 { ReturnKeeps(t, c, 0); } else { SuspendKeeps(t, c, OnBatch); }
  }

  lemma BatchHandledKeeps(s: State, c: nat)
    requires SchedInv(s) && CanBatchHandled(s, c)
    ensures SchedInv(DoBatchHandled(s, c))
  {
    var t := BatchAdvanced(s, c);
    assert FrameOk(s.coros, Run(c)) && LinkOk(s.coros, s.stack, c);
    UpdateKeeps(s, c, t.coros[c]);
    if t.coros[c].body.i < t.coros[c].body.submitted { SuspendKeeps(t, c, OnBatch); } else { ReturnKeeps(t, c, 0); }
  }

  lemma PollBeginKeeps(s: State, c: nat)
    requires SchedInv(s) && CanPollBegin(s, c)
    ensures SchedInv(DoPollBegin(s, c))
  {
    if s.polling { ReturnKeeps(s, c, -1); }
    else {
      var r := s.coros[c].(begun := true);
      assert FrameOk(s.coros, Run(c));
      UpdateKeeps(s, c, r);
      SuspendKeeps(Set(s, c, r).(polling := true, pollHandle := Some(c)), c, OnPoll);
    }
  }

  lemma PollHandledKeeps(s: State, c: nat, again: bool)
    requires SchedInv(s) && CanPollHandled(s, c)
    ensures SchedInv(DoPollHandled(s, c, again))
  {
    if again { SuspendKeeps(s.(pollHandle := Some(c)), c, OnPoll); }
    else { ReturnKeeps(s.(polling := false), c, 0); }
  }

  lemma KillLoopKeeps(s: State)
    requires SchedInv(s) && CanReturn(s, KILL) && s.coros[KILL].begun
    ensures SchedInv(KillLoop(s))
  {
    if s.inFlight != 0 { SuspendKeeps(s, KILL, OnKill); } else { ReturnKeeps(s.(life := Dead), KILL, 0); }
  }

  lemma KillBeginKeeps(s: State)
    requires SchedInv(s) && CanKillBegin(s)
    ensures SchedInv(DoKillBegin(s))
  {
    var r := s.coros[KILL].(begun := true);
    assert FrameOk(s.coros, Run(KILL)) && LinkOk(s.coros, s.stack, KILL);
    UpdateKeeps(s, KILL, r);
    var s1 := Set(s, KILL, r);
    if Restricted(s) { ReturnKeeps(s1, KILL, -1); } else { KillLoopKeeps(KillSubmitted(s1)); }
  }

  lemma LoopTopKeeps(s: State)
    requires SchedInv(s) && CanLoopTop(s) && DeliversToWaiter(s, LoopTop)
    ensures SchedInv(DoLoopTop(s))
  {
    if !s.life.Dead? && s.ready != [] && s.pollHandle.Some? {
      DeliverKeeps(Dispatched(s), s.ready[|s.ready| - 1]);
    }
  }

  lemma SeenKeeps(s: State, done: bool)
    requires SchedInv(s) && CanSeen(s, done) && DeliversToWaiter(s, Seen(done))
    ensures SchedInv(DoSeen(s, done))
  {
    if s.life.Dying? {
      var s1 := if s.cq[0].Data? && s.pool[s.cq[0].id].handle.Some? then Settle(s, s.cq[0].id, done) else s;
      ResumeKeeps(s1.(cq := s.cq[1..], inFlight := Decrement(s.inFlight), pc := Killing), KILL);
    }
  }

  lemma SchedLoopStep(s: State, l: LoopMove)
    requires SchedInv(s) && CanLoop(s, l) && DeliversToWaiter(s, l)
    ensures SchedInv(DoLoop(s, l))
  {
    match l
    case Start =>
    case LoopTop => LoopTopKeeps(s);
    case PolledDone(done) =>
    case WaitCqe =>
      if s.cq[0].Data? && s.pool[s.cq[0].id].handle.Some? {
        DeliverKeeps(s.(pc := Handled), s.cq[0].id);
      }
    case Seen(done) => SeenKeeps(s, done);
    case KillRoundDone =>
  }

  lemma AwaitIoKeeps(s: State, c: nat, params: Requests.Params)
    requires SchedInv(s) && CanAwaitIo(s, c)
    ensures SchedInv(DoAwaitIo(s, c, params))
  {
    if SqeAvailable(s) {
      var r := Requests.RequestRecord(Some(c), s.coros[c].metadata, Requests.Tag(params), false, params, 0);
      SuspendKeeps(SubmitAll(Queue(s, r)), c, OnIo(params));
    }
  }

  lemma SchedCallStep(s: State, u: CallMove)
    requires SchedInv(s) && CanCall(s, u)
    ensures SchedInv(DoCall(s, u))
  {
    match u
    case Create(body) => CreateKeeps(s, body);
    case Register(c) => RegisterKeeps(s, c);
    case AwaitIo(c, params) => AwaitIoKeeps(s, c, params);
    case SubmitNa(params) =>
    case AwaitTask(c, child) => AwaitTaskKeeps(s, c, child);
    case CoReturn(c, v) => ReturnKeeps(s, c, v);
  }

  lemma SchedUnwindStep(s: State, f: FrameMove)
    requires SchedInv(s) && CanUnwind(s, f) && SparesFrames(s, f)
    ensures SchedInv(DoUnwind(s, f))
  {
    match f
    case StoreInsert(c, slot) => StoreInsertKeeps(s, c, slot);
    case AwaitSuspendReturns(c, child) => AwaitSuspendReturnKeeps(s, c, child);
    case FinalSuspendReturns(c) => FinalSuspendReturnKeeps(s, c);
  }

  lemma SchedLibraryStep(s: State, b: BodyMove)
    requires SchedInv(s) && CanLibrary(s, b)
    ensures SchedInv(DoLibrary(s, b))
  {
    match b
    case BatchBegin(c) => BatchBeginKeeps(s, c);
    case BatchHandled(c) => BatchHandledKeeps(s, c);
    case PollBegin(c) => PollBeginKeeps(s, c);
    case PollHandled(c, again) => PollHandledKeeps(s, c, again);
    case KillBegin => KillBeginKeeps(s);
    case KillCheck => KillLoopKeeps(s);
  }

  /** The coroutine that a return of c would resume is the caller's code, waiting for c. */
  predicate AwaiterIdle(s: State, c: nat)
    requires c < |s.coros|
  {
    s.coros[c].awaiter.Some? ==>
      s.coros[c].awaiter.value != c && s.coros[c].awaiter.value < |s.coros|
      && s.coros[s.coros[c].awaiter.value].body.User?
      && s.coros[s.coros[c].awaiter.value].status == Parked(OnTask(c))
  }

  /** The frame on top agrees with its coroutine. */
  predicate TopOk(s: State) {
    s.stack != [] ==>
      var f := s.stack[|s.stack| - 1];
      f.c < |s.coros| &&
      match f
      case Run(c) => s.coros[c].status.Running? && AwaiterIdle(s, c)
      case AwaitSuspend(c, child) =>
        s.coros[c].body.User? && s.coros[c].status == Parked(OnTask(child)) && child < |s.coros|
      case FinalSuspend(c) => s.coros[c].status.Returning?
      case Registering(c) => true
  }

  lemma TopIsOk(s: State)
    requires SchedInv(s)
    ensures TopOk(s)
  {
    if s.stack != [] {
      var f := s.stack[|s.stack| - 1];
      assert FrameOk(s.coros, f);
      match f
      case Run(c) =>
        assert LinkOk(s.coros, s.stack, c);
        if s.coros[c].awaiter.Some? { assert ParkFits(s.coros[s.coros[c].awaiter.value]); }
      case AwaitSuspend(c, child) => assert ParkFits(s.coros[c]);
      case _ =>
    }
  }
}
