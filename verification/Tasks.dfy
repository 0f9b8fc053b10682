/** `EvTask`, the promise of its coroutine and the `TaskStatus` between them: who owns which,
    and who points at which, over any sequence of operations. */
module Tasks {
  import opened Option

  /** A task's status, on the heap, owned by one `EvTask` through a unique pointer. */
  class TaskStatus {
    var handlerDone: bool
    var retCode: int
    ghost var released: bool       // its owner has given the memory back

    constructor ()
      ensures !handlerDone && retCode == 0 && !released
    {
      handlerDone, retCode, released := false, 0, false;
    }

    method StoreCode(v: int)
      modifies this`retCode
      ensures retCode == v
    {
      retCode := v;
    }

    method MarkDone()
      modifies this`handlerDone
      ensures handlerDone
    {
      handlerDone := true;
    }
  }

  /** `AtRest`: suspended, initially too. `Finishing`: inside `final_suspend`. */
  datatype Activity = AtRest | Active | Finishing

  /** A coroutine frame's promise. */
  class Promise {
    var activity: Activity
    var statusPtr: TaskStatus?
    var awaiter: Promise?
    var metadata: nat
    ghost var owner: EvTask?       // the task whose handle this is
    ghost var returned: Option<int>

    constructor ()
      ensures activity == AtRest && statusPtr == null && awaiter == null && metadata == 0
      ensures owner == null && returned == None
    {
      activity, statusPtr, awaiter, metadata := AtRest, null, null, 0;
      owner, returned := null, None;
    }
  }

  /** What of the program is alive: the tasks not destroyed, and the coroutine frames. `cut`
      are the frames destroyed while their coroutine was running or returning, which goes on in
      them; `deadWrites` are those written through a task after they were gone. */
  class Program {
    ghost var tasks: set<EvTask>
    ghost var frames: set<Promise>
    ghost var cut: set<Promise>
    ghost var deadWrites: set<Promise>

    constructor ()
      ensures Valid() && tasks == {} && frames == {} && cut == {} && deadWrites == {}
    {
      tasks, frames, cut, deadWrites := {}, {}, {}, {};
    }

    /** A task has both its pointers or neither. While it has not finished, its frame is alive
        and points back at its status, which gets what the coroutine returns. */
    ghost predicate TaskOk(t: EvTask)
      reads this, t, t.status, t.handle
    {
      && (t.status == null <==> t.handle == null)
      && t.handle !in cut
      && (t.status != null ==>
            && !t.status.released
            && (t.status.handlerDone || t.handle.activity == Finishing ==> t.handle.returned == Some(t.status.retCode))
            && if t.status.handlerDone then t.handle !in frames
               else t.handle in frames && t.handle.statusPtr == t.status && t.handle.owner == t)
    }

    ghost predicate FrameOk(p: Promise)
      reads this, p, p.owner
    {
      p.statusPtr != null ==>
        p.owner != null && p.owner in tasks && p.owner.handle == p && p.owner.status == p.statusPtr
    }

    /** A frame that is cut still points at the status that went with its task. */
    ghost predicate CutOk(p: Promise)
      reads this, p, p.statusPtr
    {
      p !in frames && p.statusPtr != null && p.statusPtr.released
    }

    ghost predicate Valid()
      reads this, tasks, frames, cut, set t | t in tasks :: t.status, set t | t in tasks :: t.handle,
            set p | p in frames :: p.owner, set p | p in cut :: p.statusPtr
    {
      && (forall t | t in tasks :: TaskOk(t))
      && (forall p | p in frames :: FrameOk(p))
      && (forall p | p in cut :: CutOk(p))
      && (forall t, u | t in tasks && u in tasks && t != u && t.status != null ::
            t.status != u.status && t.handle != u.handle)
    }

    /** All is well but that x's promise may not point back yet. */
    ghost predicate ValidBut(x: EvTask)
      reads this, tasks, frames, cut, set t | t in tasks :: t.status, set t | t in tasks :: t.handle,
            set p | p in frames :: p.owner, set p | p in cut :: p.statusPtr, x, x.status, x.handle
    {
      && x.handle != null && x.status != null && x.handle !in cut && !x.status.released
      && (x.status.handlerDone || x.handle.activity == Finishing ==> x.handle.returned == Some(x.status.retCode))
      && (x.status.handlerDone <==> x.handle !in frames)
      && (forall t | t in tasks && t != x :: TaskOk(t))
      && (forall p | p in frames && p != x.handle :: FrameOk(p))
      && (forall p | p in cut :: CutOk(p))
      && (forall t, u | t in tasks && u in tasks && t != u && t.status != null ::
            t.status != u.status && t.handle != u.handle)
    }

    /** A live promise points at no status, or at the one that exactly one live task owns,
        which is the task of that promise and has not finished. */
    lemma OneOwner(p: Promise)
      requires Valid() && p in frames && p.statusPtr != null
      ensures !p.statusPtr.released && !p.statusPtr.handlerDone
      ensures exists t :: t in tasks && t.status == p.statusPtr && t.handle == p
      ensures forall t, u | t in tasks && u in tasks && t.status == p.statusPtr && u.status == p.statusPtr :: t == u
    {
      assert FrameOk(p) && TaskOk(p.owner);
    }

    // Coroutines.

    /** Calling a coroutine function: a frame at its initial suspension, and its task. */
    method Call() returns (t: EvTask)
      requires Valid()
      modifies this
      ensures Valid() && fresh(t) && tasks == old(tasks) + {t}
      ensures t.handle != null && fresh(t.handle) && frames == old(frames) + {t.handle}
      ensures cut == old(cut) && deadWrites == old(deadWrites)
      ensures t.Unfinished() && !t.started && t.handle.activity == AtRest
    {
      var p := new Promise();
      frames := frames + {p};
      t := new EvTask(this, p);
    }

    /** A suspended coroutine is resumed. */
    method Resume(p: Promise)
      requires Valid() && p in frames && p.activity == AtRest
      modifies p`activity
      ensures Valid() && p.activity == Active
    {
      p.activity := Active;
    }

    method Suspend(p: Promise)
      requires Valid() && p in frames && p.activity == Active
      modifies p`activity
      ensures Valid() && p.activity == AtRest
    {
      p.activity := AtRest;
    }

    /** `return_value`, and `final_suspend` up to the resumption of the awaiter. The status that
        is written is a released one exactly if the frame was cut. */
    method CoReturn(p: Promise, v: int) returns (awaiter: Promise?, ghost wroteReleased: bool)
      requires Valid() && (p in frames || p in cut) && p.activity == Active
      modifies p`activity, p`returned, p.statusPtr
      ensures Valid() && p.activity == Finishing && p.returned == Some(v) && awaiter == p.awaiter
      ensures p.statusPtr != null ==>
        p.statusPtr.retCode == v && unchanged(p.statusPtr`released, p.statusPtr`handlerDone)
      ensures p.statusPtr != null && p in frames ==> !p.statusPtr.handlerDone
      ensures wroteReleased <==> p in cut
    {
      wroteReleased := p.statusPtr != null && p.statusPtr.released;
      if p.statusPtr != null {
        if p in frames { OneOwner(p); }
        p.statusPtr.StoreCode(v);
      }
      p.activity, p.returned := Finishing, Some(v);
      awaiter := p.awaiter;
    }

    /** The rest of `final_suspend`, whatever the awaiter did: it writes to a released status
        exactly if the frame was cut. Then the frame is gone. */
    method Finish(p: Promise) returns (ghost wroteReleased: bool)
      requires Valid() && (p in frames || p in cut) && p.activity == Finishing
      modifies this`frames, p.statusPtr
      ensures Valid() && frames == old(frames) - {p}
      ensures p.statusPtr != null ==> p.statusPtr.handlerDone && p.statusPtr.retCode == old(p.statusPtr.retCode)
      ensures p.statusPtr != null ==> p.statusPtr.released == old(p.statusPtr.released)
      ensures wroteReleased <==> p in cut
    {
      wroteReleased := p.statusPtr != null && p.statusPtr.released;
      if p.statusPtr != null {
        if p in frames { OneOwner(p); }
        p.statusPtr.MarkDone();
      }
      frames := frames - {p};
    }
  }

  class EvTask {
    var started: bool
    var status: TaskStatus?
    var handle: Promise?

    /** The task has a coroutine that has not finished. */
    predicate Unfinished()
      reads this, status
    {
      status != null && !status.handlerDone
    }

    constructor (program: Program, h: Promise)
      requires program.Valid() && h in program.frames && h.statusPtr == null && h.activity == AtRest
      requires forall t | t in program.tasks :: t.handle != h
      modifies program`tasks, h`statusPtr, h`owner
      ensures program.Valid() && program.tasks == old(program.tasks) + {this} && program.frames == old(program.frames)
      ensures handle == h && Unfinished() && fresh(status) && !started
    {
      started, handle := false, h;
      status := new TaskStatus();
      new;
      program.tasks := program.tasks + {this};
      Adopt(program);
    }

    /** The move constructor: the promise points at the same status, now owned here. If the
        coroutine has finished, that promise is gone and written all the same. */
    constructor Move(program: Program, other: EvTask)
      requires program.Valid() && other in program.tasks && other.handle != null
      modifies program`tasks, program`deadWrites, other, other.handle`statusPtr, other.handle`owner
      ensures program.Valid() && program.tasks == old(program.tasks) + {this}
      ensures started == old(other.started) && status == old(other.status) && handle == old(other.handle)
      ensures other.status == null && other.handle == null && !other.started
      ensures program.deadWrites == old(program.deadWrites) + if Unfinished() then {} else {handle}
    {
      started, status, handle := false, null, null;
      new;
      program.tasks := program.tasks + {this};
      TakeFrom(program, other);
    }

    /** Everything is taken from a task into one that has nothing. */
    method TakeFrom(program: Program, other: EvTask)
      requires program.Valid() && this in program.tasks && status == null && handle == null
      requires other in program.tasks && other.handle != null
      modifies program`deadWrites, this, other, other.handle`statusPtr, other.handle`owner
      ensures program.Valid()
      ensures started == old(other.started) && status == old(other.status) && handle == old(other.handle)
      ensures other.status == null && other.handle == null && !other.started
      ensures program.deadWrites == old(program.deadWrites) + if Unfinished() then {} else {handle}
    {
      assert program.TaskOk(other);
      if other.handle !in program.frames { program.deadWrites := program.deadWrites + {other.handle}; }
      started, status, handle := other.started, other.status, other.handle;
      other.status, other.handle, other.started := null, null, false;
      Adopt(program);
    }

    /** The promise is pointed at its status, which this task owns by now. */
    method Adopt(program: Program)
      requires this in program.tasks && program.ValidBut(this)
      modifies handle`statusPtr, handle`owner
      ensures program.Valid()
    {
      handle.statusPtr := status;
      handle.owner := this;
    }

    /** Move assignment: the frame of an unfinished task that is assigned to is destroyed, and
        its status released; if its coroutine was running or returning, the frame is cut. */
    method Assign(program: Program, other: EvTask)
      requires program.Valid() && this in program.tasks && other in program.tasks
      requires this != other ==> other.handle != null
      modifies program`frames, program`cut, program`deadWrites, this, other, status, other.handle
      ensures program.Valid()
      ensures old(other.handle) != null ==>
        var p := old(other.handle); unchanged(p`activity, p`awaiter, p`metadata, p`returned)
      ensures this == other ==>
        && started == old(started) && status == old(status) && handle == old(handle)
        && program.frames == old(program.frames) && program.cut == old(program.cut)
        && program.deadWrites == old(program.deadWrites) && (status != null ==> !status.released)
      ensures this != other ==>
        && started == old(other.started) && status == old(other.status) && handle == old(other.handle)
        && other.status == null && other.handle == null && !other.started
        && (old(status) != null ==> old(status).released && unchanged(old(status)`handlerDone, old(status)`retCode))
        && program.frames == old(program.frames) - (if old(Unfinished()) then {old(handle)} else {})
        && program.cut ==
             old(program.cut) + (if old(Unfinished() && handle.activity != AtRest) then {old(handle)} else {})
        && program.deadWrites == old(program.deadWrites) + if Unfinished() then {} else {handle}
    {
      if this != other {
        Drop(program);
        TakeFrom(program, other);
      }
    }

    /** What is assigned over: the frame is destroyed if the coroutine has not finished. */
    method Drop(program: Program)
      requires program.Valid() && this in program.tasks
      modifies program`frames, program`cut, this, status
      ensures program.Valid() && status == null && handle == null
      ensures old(status) != null ==>
        old(status).released && unchanged(old(status)`handlerDone, old(status)`retCode)
      ensures program.frames == old(program.frames) - if old(Unfinished()) then {old(handle)} else {}
      ensures program.cut ==
        old(program.cut) + if old(Unfinished() && handle.activity != AtRest) then {old(handle)} else {}
    {
      if handle != null && !status.handlerDone {
        program.frames := program.frames - {handle};
        if handle.activity != AtRest { program.cut := program.cut + {handle}; }
      }
      if status != null { status.released := true; }
      status, handle := null, null;
    }

    /** The destructor. The frame of an unfinished task lives on, pointing nowhere. */
    method Destroy(program: Program)
      requires program.Valid() && this in program.tasks
      modifies program`tasks, handle, status
      ensures program.Valid() && program.tasks == old(program.tasks) - {this}
      ensures handle != null ==>
        unchanged(handle`activity, handle`awaiter, handle`metadata, handle`owner, handle`returned)
      ensures status != null ==>
        && status.released && unchanged(status`handlerDone, status`retCode)
        && handle.statusPtr == if Unfinished() then null else old(handle.statusPtr)
    {
      if status != null && !status.handlerDone { handle.statusPtr := null; }
      if status != null { status.released := true; }
      program.tasks := program.tasks - {this};
    }

    /** `start`, as far as the resumption. */
    method StartBegins(program: Program) returns (resumed: bool)
      requires program.Valid() && this in program.tasks
      requires !started ==> Unfinished() && handle.activity == AtRest
      modifies this`started, handle
      ensures program.Valid() && started && resumed == !old(started)
      ensures handle != null ==>
        && handle.activity == (if resumed then Active else old(handle.activity))
        && unchanged(handle`statusPtr, handle`awaiter, handle`metadata, handle`owner, handle`returned)
    {
      if started { return false; }
      started := true;
      program.Resume(handle);
      return true;
    }

    /** The rest of `start`: no channel to a coroutine that has finished. */
    method StartEnds() returns (channel: bool)
      ensures channel <==> status == null || Unfinished()
    {
      channel := !(status != null && status.handlerDone);
    }

    /** `await_suspend`, once the task has been started: the awaiter continues at once if the
        task is done, and is recorded in place of any earlier one if not. */
    method AwaitSuspend(program: Program, awaiter: Promise) returns (atOnce: bool)
      requires program.Valid() && this in program.tasks && status != null
      modifies handle`awaiter
      ensures program.Valid() && (atOnce <==> handle !in program.frames)
      ensures handle.awaiter == if atOnce then old(handle.awaiter) else awaiter
    {
      if status != null && status.handlerDone { return true; }
      handle.awaiter := awaiter;
      return false;
    }

    /** `await_resume`: of a coroutine that is finishing or has finished, what it returned. */
    method AwaitResume(ghost program: Program) returns (r: int)
      requires program.Valid() && this in program.tasks
      ensures status == null ==> r == -1
      ensures status != null && (handle !in program.frames || handle.activity == Finishing) ==>
        handle.returned == Some(r)
    {
      r := if status != null then status.retCode else -1;
    }

    /** `set_coro_metadata`: it writes to the promise, gone or not. */
    method SetMetadata(program: Program, metadata: nat) returns (code: int)
      requires program.Valid() && this in program.tasks
      modifies program`deadWrites, handle
      ensures program.Valid() && code == (if handle == null then -1 else 0)
      ensures handle != null ==>
        && handle.metadata == metadata
        && unchanged(handle`activity, handle`statusPtr, handle`awaiter, handle`owner, handle`returned)
      ensures program.deadWrites == old(program.deadWrites) + if handle == null || Unfinished() then {} else {handle}
    {
      if handle == null { return -1; }
      if handle !in program.frames { program.deadWrites := program.deadWrites + {handle}; }
      handle.metadata := metadata;
      return 0;
    }
  }

  /** A task is started whose coroutine returns before it suspends: `start` gives no channel to
      it, and the result can be had. */
  method ReturnsWhileStarted(program: Program, t: EvTask, v: int) returns (channel: bool, r: int)
    requires program.Valid() && t in program.tasks && t.Unfinished() && !t.started && t.handle.activity == AtRest
    modifies program`frames, t`started, t.handle, t.status
    ensures program.Valid() && t in program.tasks && t.handle !in program.frames
    ensures t.started && !channel && r == v
  {
    var resumed := t.StartBegins(program);
    var _, wrote := program.CoReturn(t.handle, v);
    wrote := program.Finish(t.handle);
    channel := t.StartEnds();
    r := t.AwaitResume(program);
  }

  /** A coroutine returns to an awaiter that destroys its task: `final_suspend` then writes
      to no status, and the frame still goes. */
  method AwaiterDestroysTask(program: Program, t: EvTask, v: int)
    requires program.Valid() && t in program.tasks && t.Unfinished() && t.handle.activity == Active
    modifies program, t.handle, t.status
    ensures program.Valid() && t !in program.tasks && t.handle !in program.frames
    ensures t.status.released && !t.status.handlerDone
  {
    var _, wrote := program.CoReturn(t.handle, v);
    t.Destroy(program);
    wrote := program.Finish(t.handle);
  }

  /** It instead takes the result and lets the task be finished. */
  method AwaiterTakesResult(program: Program, t: EvTask, v: int) returns (r: int)
    requires program.Valid() && t in program.tasks && t.Unfinished() && t.handle.activity == Active
    modifies program, t.handle, t.status
    ensures program.Valid() && t in program.tasks && t.handle !in program.frames
    ensures r == v && t.status.handlerDone
  {
    var _, wrote := program.CoReturn(t.handle, v);
    r := t.AwaitResume(program);
    wrote := program.Finish(t.handle);
  }

  /** It assigns over the task: the frame is destroyed under the returning coroutine, which
      then marks the released status done. */
  method AwaiterAssignsOverTask(program: Program, t: EvTask, other: EvTask, v: int) returns (ghost wroteReleased: bool)
    requires program.Valid() && t in program.tasks && t.Unfinished() && t.handle.activity == Active
    requires other in program.tasks && other != t && other.Unfinished()
    modifies program, t, other, t.handle, t.status, other.handle
    ensures program.Valid() && wroteReleased
    ensures var p, st := old(t.handle), old(t.status);
      p !in program.frames && p in program.cut && p.statusPtr == st && st.released && st.handlerDone
  {
    var p := t.handle;
    var _, wrote := program.CoReturn(p, v);
    t.Assign(program, other);
    wroteReleased := program.Finish(p);
  }
}
