/** The event loop as a state machine whose steps are the library's own stretches of
    code between two points where control passes to somebody else: the kernel, a
    coroutine, or the caller. The C++ call stack is explicit, so resumptions nested
    inside `await_suspend`, `final_suspend` and `register_coro` are steps like any other.

    Every submission takes all queued entries; coroutines interleave arbitrarily. */
module Machine {
  import opened Option
  import opened Requests

  datatype Life = NotStarted | Living | Dying | Dead

  /** A ring entry: the cancel-all request, which has no data, or a request's data. */
  datatype Entry = Cancel | Data(id: nat)

  /** What a coroutine's code is: the caller's, or one of the library's own three.
      A batch is waiting for its i-th response out of `submitted`. */
  datatype Body = User | Batch(reqs: seq<Params>, submitted: nat, i: nat) | Poll | Kill

  datatype Park = OnIo(params: Params) | OnBatch | OnTask(child: nat) | OnKill | OnPoll

  /** `Created`: at its initial suspension. `Returning`: inside `final_suspend`. `Destroyed`:
      the frame was destroyed before the coroutine had finished. */
  datatype Status = Created | Running | Parked(on: Park) | Returning | Finished | Destroyed

  /** `begun` says that a library body has run its prologue; `ret` is the task's
      return code, `got` what its last `co_await` of a task gave it; `metadata` and
      `slot` are set when the task is stored. */
  datatype Coro = Coro(body: Body, status: Status, begun: bool, awaiter: Option<nat>, ret: int, got: Option<int>,
                       channel: ResponseVariant, metadata: nat, slot: Option<nat>)

  datatype Frame = Run(c: nat) | AwaitSuspend(c: nat, child: nat) | FinalSuspend(c: nat) | Registering(c: nat)

  /** Where the thread is outside coroutine code: not in `start`, or at one of the
      points of its loop and of `await_message`. */
  datatype Pc = Outside | Top | Polled(id: nat) | Wait | Handled | Killing

  /** The manager. `pool` holds every RequestData ever made, `freed` those deleted.
      `arrived` and `polled` record the order in which non-awaitable completions were
      taken from the completion queue and handed to the poller. */
  datatype State = State(
    life: Life, capacity: nat, sq: seq<Entry>, kernel: multiset<Entry>, cq: seq<Entry>, inFlight: nat,
    pool: seq<RequestData>, freed: set<nat>, ready: seq<nat>, arrived: seq<nat>, polled: seq<nat>,
    polling: bool, pollHandle: Option<nat>,
    coros: seq<Coro>, stack: seq<Frame>, pc: Pc,
    slots: nat, freeSlots: set<nat>)

  const KILL: nat := 0
  const SIZE_MAX: nat := 0xFFFF_FFFF_FFFF_FFFF

  function NewCoro(body: Body): Coro {
    Coro(body, Created, false, None, 0, None, Monostate, 0, None)
  }

  /** The constructor: the kill task exists from the start, unstarted. */
  function Init(capacity: nat, ringUp: bool): State {
    State(if ringUp then NotStarted else Dead, capacity, [], multiset{}, [], 0,
          [], {}, [], [], [], false, None, [NewCoro(Kill)], [], Outside, 0, {})
  }

  predicate Restricted(s: State) { s.life.Dying? || s.life.Dead? }

  /** `get_uring_sqe` gives an entry. */
  predicate SqeAvailable(s: State) { !Restricted(s) && |s.sq| < s.capacity }

  predicate OnTop(s: State, f: Frame) { s.stack != [] && s.stack[|s.stack| - 1] == f }

  /** Coroutine c is executing caller-supplied code: its own, or a handler of its. */
  predicate Executing(s: State, c: nat) {
    c < |s.coros| && OnTop(s, Run(c)) && (s.coros[c].body.User? || (s.coros[c].begun && !s.coros[c].body.Kill?))
  }

  /** Caller-supplied code is executing: that of a coroutine, or the main program. */
  predicate CallerRuns(s: State) {
    (s.stack == [] && s.pc.Outside?) || (s.stack != [] && Executing(s, s.stack[|s.stack| - 1].c))
  }

  /** The steps from s to t left the ring, the requests, the ready store, the life state
      and the position of the loop alone. */
  predicate SameRing(s: State, t: State) {
    && t.life == s.life && t.capacity == s.capacity && t.sq == s.sq && t.kernel == s.kernel && t.cq == s.cq
    && t.inFlight == s.inFlight && t.pool == s.pool && t.freed == s.freed && t.ready == s.ready
    && t.arrived == s.arrived && t.polled == s.polled && t.pc == s.pc
  }

  // Primitive effects.

  function Pop(s: State): State
    requires s.stack != []
  {
    s.(stack := s.stack[..|s.stack| - 1])
  }

  function Push(s: State, f: Frame): State { s.(stack := s.stack + [f]) }

  function Set(s: State, c: nat, r: Coro): State
    requires c < |s.coros|
  {
    s.(coros := s.coros[c := r])
  }

  function SetStatus(s: State, c: nat, status: Status): State
    requires c < |s.coros|
  {
    Set(s, c, s.coros[c].(status := status))
  }

  /** `handle.resume()`: c continues on top of the stack. A poller clears its handle first. */
  function Resume(s: State, c: nat): (t: State)
    requires c < |s.coros|
    ensures SameRing(s, t)
  {
    var s1 := Push(SetStatus(s, c, Running), Run(c));
    if s.coros[c].body.Poll? && s.coros[c].begun then s1.(pollHandle := None) else s1
  }

  /** The running coroutine suspends; control returns to whoever resumed it. */
  function Suspend(s: State, c: nat, park: Park): (t: State)
    requires c < |s.coros| && s.stack != []
    ensures SameRing(s, t)
  {
    Pop(SetStatus(s, c, Parked(park)))
  }

  /** `submit_queued_entries`, taking everything that is queued. */
  function SubmitAll(s: State): State {
    s.(sq := [], kernel := s.kernel + multiset(s.sq), inFlight := s.inFlight + |s.sq|)
  }

  /** A filled submission entry pointing at new request data. */
  function Queue(s: State, r: RequestData): State {
    s.(pool := s.pool + [r], sq := s.sq + [Data(|s.pool|)])
  }

  function Decrement(n: nat): nat { if n == 0 then SIZE_MAX else n - 1 }

  /** `event_handler` up to and including the resumption of the request's coroutine. */
  function Deliver(s: State, id: nat): (t: State)
    requires id < |s.pool| && s.pool[id].handle.Some? && s.pool[id].handle.value < |s.coros|
    ensures SameRing(s, t)
  {
    var c := s.pool[id].handle.value;
    Resume(Set(s, c, s.coros[c].(channel := Response(s.pool[id]))), c)
  }

  /** The end of `event_handler`: free the slot if the coroutine was seen to be done,
      delete a dynamic request. */
  function Settle(s: State, id: nat, done: bool): State
    requires id < |s.pool|
  {
    s.(freeSlots := if done then s.freeSlots + {s.pool[id].coroIdx} else s.freeSlots,
       freed := if s.pool[id].dynamic then s.freed + {id} else s.freed)
  }

  /** `co_return v`: the result is stored and `final_suspend` resumes the awaiter, if any. */
  function Return(s: State, c: nat, v: int): (t: State)
    requires c < |s.coros| && s.stack != []
    requires s.coros[c].awaiter.Some? ==> s.coros[c].awaiter.value < |s.coros|
    ensures SameRing(s, t)
  {
    var s1 := Push(Pop(Set(s, c, s.coros[c].(status := Returning, ret := v))), FinalSuspend(c));
    match s.coros[c].awaiter
    case None => s1
    case Some(a) => Resume(Set(s1, a, s1.coros[a].(got := Some(v))), a)
  }

  // The steps.

  /** Steps of `start` and `await_message`. */
  datatype LoopMove = Start | LoopTop | PolledDone(done: bool) | WaitCqe | Seen(done: bool) | KillRoundDone

  /** Steps of caller-supplied code. */
  datatype CallMove =
    | Create(body: Body)
    | Register(c: nat)
    | AwaitIo(c: nat, params: Params)
    | SubmitNa(params: Params)
    | AwaitTask(c: nat, child: nat)
    | CoReturn(c: nat, v: int)

  /** A library call on the stack continues after the coroutine it resumed. */
  datatype FrameMove =
    | StoreInsert(c: nat, slot: nat)
    | AwaitSuspendReturns(c: nat, child: nat)
    | FinalSuspendReturns(c: nat)

  /** Steps of the library's own coroutines. */
  datatype BodyMove =
    | BatchBegin(c: nat)
    | BatchHandled(c: nat)
    | PollBegin(c: nat)
    | PollHandled(c: nat, again: bool)
    | KillBegin
    | KillCheck

  datatype Move =
    | Kernel(e: Entry, res: int)
    | Loop(l: LoopMove)
    | Call(u: CallMove)
    | Unwind(f: FrameMove)
    | Library(b: BodyMove)

  /** The kernel completes an entry it holds. */
  predicate CanComplete(s: State, e: Entry) { e in s.kernel && (e.Data? ==> e.id < |s.pool|) }

  function DoComplete(s: State, e: Entry, res: int): State
    requires CanComplete(s, e)
  {
    s.(kernel := s.kernel - multiset{e}, cq := s.cq + [e],
       pool := if e.Data? then s.pool[e.id := s.pool[e.id].(res := res)] else s.pool)
  }

  /** Calling a coroutine function makes a task at its initial suspension. */
  predicate CanCreate(s: State, body: Body) {
    CallerRuns(s) && !body.Kill? && (body.Batch? ==> body.submitted == body.i == 0)
  }

  function DoCreate(s: State, body: Body): State { s.(coros := s.coros + [NewCoro(body)]) }

  /** `register_coro` of a task not stored before: it is started, unless it was already. */
  predicate CanRegister(s: State, c: nat) {
    CallerRuns(s) && 0 < c < |s.coros| && s.coros[c].slot.None? && Registering(c) !in s.stack
  }

  function DoRegister(s: State, c: nat): State
    requires CanRegister(s, c)
  {
    var s1 := Push(s, Registering(c));
    if s.coros[c].status.Created? then Resume(s1, c) else s1
  }

  /** The coroutine's frame exists no more. */
  predicate Gone(r: Coro) { r.status.Finished? || r.status.Destroyed? }

  /** No task in the slot has a frame. */
  predicate Overwritable(s: State, slot: nat) {
    forall d | 0 <= d < |s.coros| :: s.coros[d].slot == Some(slot) ==> Gone(s.coros[d])
  }

  /** `ItemStore::insert` reuses any freed slot, else grows. */
  predicate CanStoreInsert(s: State, c: nat, slot: nat) {
    c < |s.coros| && OnTop(s, Registering(c)) && if s.freeSlots != {} then slot in s.freeSlots else slot == s.slots
  }

  /** The move assignment over the task in the slot: if that has not finished, its frame is
      destroyed. Its requests stay in the ring. */
  function AssignedOver(s: State, slot: nat): State {
    s.(coros := seq(|s.coros|, d requires 0 <= d < |s.coros| =>
      if s.coros[d].slot == Some(slot) && !Gone(s.coros[d]) then s.coros[d].(status := Destroyed) else s.coros[d]))
  }

  /** The task is in the slot. */
  function Stored(s: State, c: nat, slot: nat): State
    requires c < |s.coros| && s.stack != []
  {
    var s1 := Pop(Set(s, c, s.coros[c].(slot := Some(slot), metadata := slot)));
    if s.freeSlots != {} then s1.(freeSlots := s.freeSlots - {slot}) else s1.(slots := s.slots + 1)
  }

  function DoStoreInsert(s: State, c: nat, slot: nat): State
    requires CanStoreInsert(s, c, slot)
  {
    Stored(if s.freeSlots != {} then AssignedOver(s, slot) else s, c, slot)
  }

  predicate CanStart(s: State) { s.stack == [] && s.pc.Outside? }

  function DoStart(s: State): State
    requires CanStart(s)
  {
    if s.life.NotStarted? then s.(life := Living, pc := Top) else s
  }

  /** The loop head of `start`, then the ready-store part of `await_message`. */
  predicate CanLoopTop(s: State) {
    s.stack == [] && s.pc.Top?
    && (s.ready != [] ==> s.ready[|s.ready| - 1] < |s.pool|)
    && (s.pollHandle.Some? ==> s.pollHandle.value < |s.coros|)
  }

  /** The last ready request has been taken for the poller. */
  function Dispatched(s: State): State
    requires CanLoopTop(s) && s.ready != [] && s.pollHandle.Some?
  {
    var id := s.ready[|s.ready| - 1];
    s.(ready := s.ready[..|s.ready| - 1], polled := s.polled + [id], pc := Polled(id),
       pool := s.pool[id := s.pool[id].(handle := s.pollHandle)])
  }

  function DoLoopTop(s: State): State
    requires CanLoopTop(s)
  {
    if s.life.Dead? then s.(pc := Outside)
    else if s.ready != [] && s.pollHandle.Some? then
      Deliver(Dispatched(s), s.ready[|s.ready| - 1])
    else s.(pc := Wait)
  }

  /** `done` stands for the flag that `event_handler` reads after the resumption. */
  predicate DoneObserved(s: State, id: nat, done: bool) {
    done ==> id < |s.pool| && s.pool[id].handle.Some? && s.pool[id].handle.value < |s.coros|
             && s.coros[s.pool[id].handle.value].status.Finished?
  }

  predicate CanPolledDone(s: State, done: bool) {
    s.stack == [] && s.pc.Polled? && s.pc.id < |s.pool| && DoneObserved(s, s.pc.id, done)
  }

  function DoPolledDone(s: State, done: bool): State
    requires CanPolledDone(s, done)
  {
    Settle(s, s.pc.id, done).(pc := Wait)
  }

  /** `io_uring_wait_cqe` and `event_handler` up to the resumption, if there is one. */
  predicate CanWaitCqe(s: State) {
    s.stack == [] && s.pc.Wait? && s.cq != []
    && (s.cq[0].Data? ==>
          (s.cq[0].id < |s.pool|
          && (s.pool[s.cq[0].id].handle.Some? ==> s.pool[s.cq[0].id].handle.value < |s.coros|)))
  }

  function DoWaitCqe(s: State): State
    requires CanWaitCqe(s)
  {
    var s1 := s.(pc := Handled);
    match s.cq[0]
    case Cancel => s1
    case Data(id) =>
      if s.pool[id].handle.None? then s1.(ready := s.ready + [id], arrived := s.arrived + [id])
      else Deliver(s1, id)
  }

  /** The rest of `await_message`: the completion is seen, and a dying manager updates
      its kill task. */
  predicate CanSeen(s: State, done: bool) {
    s.stack == [] && s.pc.Handled? && s.cq != [] && KILL < |s.coros|
    && (s.cq[0].Data? ==> s.cq[0].id < |s.pool|)
    && (done ==> s.cq[0].Data?) && (s.cq[0].Data? ==> DoneObserved(s, s.cq[0].id, done))
  }

  function DoSeen(s: State, done: bool): State
    requires CanSeen(s, done)
  {
    var s1 := if s.cq[0].Data? && s.pool[s.cq[0].id].handle.Some? then Settle(s, s.cq[0].id, done) else s;
    var s2 := s1.(cq := s.cq[1..], inFlight := Decrement(s.inFlight));
    if s.life.Dying? then Resume(s2.(pc := Killing), KILL) else s2.(pc := Top)
  }

  predicate CanKillRoundDone(s: State) { s.stack == [] && s.pc.Killing? }

  /** An awaitable operation, from its construction to the end of `await_suspend`. The
      caller issues none to a dying manager; with no entry left it does not suspend. */
  predicate CanAwaitIo(s: State, c: nat) {
    c < |s.coros| && OnTop(s, Run(c)) && s.coros[c].body.User? && !Restricted(s)
  }

  function DoAwaitIo(s: State, c: nat, params: Params): State
    requires CanAwaitIo(s, c)
  {
    if !SqeAvailable(s) then s
    else
      var r := RequestRecord(Some(c), s.coros[c].metadata, Tag(params), false, params, 0);
      Suspend(SubmitAll(Queue(s, r)), c, OnIo(params))
  }

  /** A non-awaitable operation; refused when there is no entry to be had. */
  predicate CanSubmitNa(s: State) { CallerRuns(s) }

  function DoSubmitNa(s: State, params: Params): State {
    if !SqeAvailable(s) then s
    else SubmitAll(Queue(s, RequestRecord(None, 0, Tag(params), true, params, 0)))
  }

  /** `co_await` of a task: c is suspended, the child is started if it was not. */
  predicate CanAwaitTask(s: State, c: nat, child: nat) {
    c < |s.coros| && child < |s.coros| && OnTop(s, Run(c)) && s.coros[c].body.User?
  }

  function DoAwaitTask(s: State, c: nat, child: nat): State
    requires CanAwaitTask(s, c, child)
  {
    var s1 := Push(Suspend(s, c, OnTask(child)), AwaitSuspend(c, child));
    if s1.coros[child].status.Created? then Resume(s1, child) else s1
  }

  /** The rest of `EvTask::await_suspend`, once the child has been started. */
  predicate CanAwaitSuspendReturn(s: State, c: nat, child: nat) {
    c < |s.coros| && child < |s.coros| && OnTop(s, AwaitSuspend(c, child))
  }

  function DoAwaitSuspendReturn(s: State, c: nat, child: nat): State
    requires CanAwaitSuspendReturn(s, c, child)
  {
    if s.coros[child].status.Finished? then
      Resume(Set(Pop(s), c, s.coros[c].(got := Some(s.coros[child].ret))), c)
    else Pop(Set(s, child, s.coros[child].(awaiter := Some(c))))
  }

  predicate CanReturn(s: State, c: nat) {
    c < |s.coros| && OnTop(s, Run(c))
    && (s.coros[c].awaiter.Some? ==> s.coros[c].awaiter.value < |s.coros|)
  }

  predicate CanCoReturn(s: State, c: nat) { CanReturn(s, c) && s.coros[c].body.User? }

  predicate CanFinalSuspendReturn(s: State, c: nat) { c < |s.coros| && OnTop(s, FinalSuspend(c)) }

  function DoFinalSuspendReturn(s: State, c: nat): State
    requires CanFinalSuspendReturn(s, c)
  {
    Pop(SetStatus(s, c, Finished))
  }

  /** `submit_and_wait` up to its first suspension. The ring still exists and nothing is
      queued by others. */
  predicate CanBatchBegin(s: State, c: nat) {
    CanReturn(s, c) && s.coros[c].body.Batch? && !s.coros[c].begun && !s.life.Dead? && s.sq == []
  }

  /** How many of n batch requests get an entry. */
  function Admitted(s: State, n: nat): nat {
    if Restricted(s) then 0 else if n < s.capacity then n else s.capacity
  }

  function BatchRequest(c: nat, p: Params): RequestData { RequestRecord(Some(c), 0, Tag(p), false, p, 0) }

  /** The entries of the first k requests, filled and queued. */
  function QueueBatch(s: State, c: nat, reqs: seq<Params>, k: nat): State
    requires k <= |reqs|
  {
    s.(pool := s.pool + seq(k, j requires 0 <= j < k => BatchRequest(c, reqs[j])),
       sq := s.sq + seq(k, j requires 0 <= j < k => Data(|s.pool| + j)))
  }

  /** The requests have been filled and submitted. */
  function BatchSubmitted(s: State, c: nat): State
    requires CanBatchBegin(s, c)
  {
    var reqs := s.coros[c].body.reqs;
    var k := Admitted(s, |reqs|);
    Set(SubmitAll(QueueBatch(s, c, reqs, k)), c, s.coros[c].(begun := true, body := Batch(reqs, k, 0)))
  }

  function DoBatchBegin(s: State, c: nat): State
    requires CanBatchBegin(s, c)
  {
    var t := BatchSubmitted(s, c);
    if t.coros[c].body.submitted == 0 then Return(t, c, 0) else Suspend(t, c, OnBatch)
  }

  /** The response handler has returned: wait for the next response, or finish. */
  predicate CanBatchHandled(s: State, c: nat) {
    CanReturn(s, c) && s.coros[c].body.Batch? && s.coros[c].begun
  }

  function BatchAdvanced(s: State, c: nat): State
    requires CanBatchHandled(s, c)
  {
    Set(s, c, s.coros[c].(body := s.coros[c].body.(i := s.coros[c].body.i + 1)))
  }

  function DoBatchHandled(s: State, c: nat): State
    requires CanBatchHandled(s, c)
  {
    var t := BatchAdvanced(s, c);
    if t.coros[c].body.i < t.coros[c].body.submitted then Suspend(t, c, OnBatch) else Return(t, c, 0)
  }

  predicate CanPollBegin(s: State, c: nat) {
    CanReturn(s, c) && s.coros[c].body.Poll? && !s.coros[c].begun
  }

  function DoPollBegin(s: State, c: nat): State
    requires CanPollBegin(s, c)
  {
    if s.polling then Return(s, c, -1)
    else Suspend(Set(s, c, s.coros[c].(begun := true)).(polling := true, pollHandle := Some(c)), c, OnPoll)
  }

  /** The poll handler has returned, asking to continue or to stop. */
  predicate CanPollHandled(s: State, c: nat) {
    CanReturn(s, c) && s.coros[c].body.Poll? && s.coros[c].begun
  }

  function DoPollHandled(s: State, c: nat, again: bool): State
    requires CanPollHandled(s, c)
  {
    if again then Suspend(s.(pollHandle := Some(c)), c, OnPoll)
    else Return(s.(polling := false), c, 0)
  }

  /** `kill_internal` up to its first suspension, its flushes succeeding. */
  predicate CanKillBegin(s: State) {
    CanReturn(s, KILL) && s.coros[KILL].body.Kill? && !s.coros[KILL].begun
  }

  function KillSubmitted(s: State): State {
    var s1 := SubmitAll(s.(life := Dying));
    SubmitAll(s1.(sq := s1.sq + [Cancel]))
  }

  function DoKillBegin(s: State): State
    requires CanKillBegin(s)
  {
    var s1 := Set(s, KILL, s.coros[KILL].(begun := true));
    if Restricted(s) then Return(s1, KILL, -1)
    else KillLoop(KillSubmitted(s1))
  }

  /** The loop that waits until nothing is in flight, entered or resumed. */
  function KillLoop(s: State): State
    requires CanReturn(s, KILL)
  {
    if s.inFlight != 0 then Suspend(s, KILL, OnKill)
    else Return(s.(life := Dead), KILL, 0)
  }

  predicate CanKillCheck(s: State) {
    CanReturn(s, KILL) && s.coros[KILL].body.Kill? && s.coros[KILL].begun
  }

  predicate CanLoop(s: State, l: LoopMove) {
    match l
    case Start => CanStart(s)
    case LoopTop => CanLoopTop(s)
    case PolledDone(done) => CanPolledDone(s, done)
    case WaitCqe => CanWaitCqe(s)
    case Seen(done) => CanSeen(s, done)
    case KillRoundDone => CanKillRoundDone(s)
  }

  function DoLoop(s: State, l: LoopMove): State
    requires CanLoop(s, l)
  {
    match l
    case Start => DoStart(s)
    case LoopTop => DoLoopTop(s)
    case PolledDone(done) => DoPolledDone(s, done)
    case WaitCqe => DoWaitCqe(s)
    case Seen(done) => DoSeen(s, done)
    case KillRoundDone => s.(pc := Top)
  }

  predicate CanCall(s: State, u: CallMove) {
    match u
    case Create(body) => CanCreate(s, body)
    case Register(c) => CanRegister(s, c)
    case AwaitIo(c, _) => CanAwaitIo(s, c)
    case SubmitNa(_) => CanSubmitNa(s)
    case AwaitTask(c, child) => CanAwaitTask(s, c, child)
    case CoReturn(c, _) => CanCoReturn(s, c)
  }

  function DoCall(s: State, u: CallMove): State
    requires CanCall(s, u)
  {
    match u
    case Create(body) => DoCreate(s, body)
    case Register(c) => DoRegister(s, c)
    case AwaitIo(c, params) => DoAwaitIo(s, c, params)
    case SubmitNa(params) => DoSubmitNa(s, params)
    case AwaitTask(c, child) => DoAwaitTask(s, c, child)
    case CoReturn(c, v) => Return(s, c, v)
  }

  predicate CanUnwind(s: State, f: FrameMove) {
    match f
    case StoreInsert(c, slot) => CanStoreInsert(s, c, slot)
    case AwaitSuspendReturns(c, child) => CanAwaitSuspendReturn(s, c, child)
    case FinalSuspendReturns(c) => CanFinalSuspendReturn(s, c)
  }

  function DoUnwind(s: State, f: FrameMove): State
    requires CanUnwind(s, f)
  {
    match f
    case StoreInsert(c, slot) => DoStoreInsert(s, c, slot)
    case AwaitSuspendReturns(c, child) => DoAwaitSuspendReturn(s, c, child)
    case FinalSuspendReturns(c) => DoFinalSuspendReturn(s, c)
  }

  predicate CanLibrary(s: State, b: BodyMove) {
    match b
    case BatchBegin(c) => CanBatchBegin(s, c)
    case BatchHandled(c) => CanBatchHandled(s, c)
    case PollBegin(c) => CanPollBegin(s, c)
    case PollHandled(c, _) => CanPollHandled(s, c)
    case KillBegin => CanKillBegin(s)
    case KillCheck => CanKillCheck(s)
  }

  function DoLibrary(s: State, b: BodyMove): State
    requires CanLibrary(s, b)
  {
    match b
    case BatchBegin(c) => DoBatchBegin(s, c)
    case BatchHandled(c) => DoBatchHandled(s, c)
    case PollBegin(c) => DoPollBegin(s, c)
    case PollHandled(c, again) => DoPollHandled(s, c, again)
    case KillBegin => DoKillBegin(s)
    case KillCheck => KillLoop(s)
  }

  predicate Enabled(s: State, m: Move) {
    match m
    case Kernel(e, _) => CanComplete(s, e)
    case Loop(l) => CanLoop(s, l)
    case Call(u) => CanCall(s, u)
    case Unwind(f) => CanUnwind(s, f)
    case Library(b) => CanLibrary(s, b)
  }

  function Apply(s: State, m: Move): State
    requires Enabled(s, m)
  {
    match m
    case Kernel(e, res) => DoComplete(s, e, res)
    case Loop(l) => DoLoop(s, l)
    case Call(u) => DoCall(s, u)
    case Unwind(f) => DoUnwind(s, f)
    case Library(b) => DoLibrary(s, b)
  }

  /** The step assigns over no task that has a frame. */
  predicate SparesFrames(s: State, f: FrameMove) {
    f.StoreInsert? && s.freeSlots != {} ==> Overwritable(s, f.slot)
  }

  predicate Spares(s: State, m: Move) { m.Unwind? ==> SparesFrames(s, m.f) }

  predicate Sparing(s: State, m: Move) { Enabled(s, m) && Spares(s, m) }

  /** A run of the code: each move is enabled where it is taken. */
  predicate Possible(s: State, ms: seq<Move>)
    decreases |ms|
  {
    ms == [] || (Enabled(s, ms[0]) && Possible(Apply(s, ms[0]), ms[1..]))
  }

  function Exec(s: State, ms: seq<Move>): State
    requires Possible(s, ms)
    decreases |ms|
  {
    if ms == [] then s else Exec(Apply(s, ms[0]), ms[1..])
  }

  /** A run that destroys no unfinished task. */
  predicate Legal(s: State, ms: seq<Move>): (legal: bool)
    ensures legal ==> Possible(s, ms)
    decreases |ms|
  {
    ms == [] || (Sparing(s, ms[0]) && Legal(Apply(s, ms[0]), ms[1..]))
  }

  lemma SparingInsert(s: State, c: nat, slot: nat)
    requires CanStoreInsert(s, c, slot) && SparesFrames(s, StoreInsert(c, slot))
    ensures DoStoreInsert(s, c, slot) == Stored(s, c, slot)
  {
    if s.freeSlots != {} { assert AssignedOver(s, slot).coros == s.coros; }
  }
}
