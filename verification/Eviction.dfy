/** An insertion that assigns over a live task: whose handles the library holds, and so when it
    goes on in a frame that has been destroyed. */
module Eviction {
  import opened Option
  import opened Machine
  import opened Scheduling
  import opened Placement
  import opened Waiting
  import opened Invariant
  import opened Awaiting
  import opened SlotSharing

  /** The library holds d's handle, to resume it: a request whose completion is still to be
      handled carries it, it is the polling handle, or another task that d awaits has it. */
  ghost predicate HandleHeld(s: State, d: nat) {
    || Outstanding(s, d) != {}
    || s.pollHandle == Some(d)
    || exists child :: 0 <= child < |s.coros| && child != d && Attached(s, d, child)
  }

  /** d is suspended for something: an operation, a batch, a poll, or another task that has not
      lost hold of it; or it is a batch's response handler, with more responses to come. */
  predicate WaitedFor(s: State, d: nat)
    requires d < |s.coros|
  {
    match s.coros[d].status
    case Parked(OnIo(_)) => true
    case Parked(OnBatch) => true
    case Parked(OnPoll) => true
    case Parked(OnTask(child)) => child < |s.coros| && child != d && Attached(s, d, child)
    case Running => Expected(s.coros[d]) > 0
    case _ => false
  }

  /** The handles that the library holds are those of just these coroutines. */
  lemma HandleHeldIff(s: State, d: nat)
    requires Inv(s) && d < |s.coros|
    ensures HandleHeld(s, d) <==> WaitedFor(s, d)
  {
    assert WaitOk(s, d) && ParkFits(s.coros[d]);
    AwaitedHandleIff(s, d);
  }

  lemma AwaitedHandleIff(s: State, d: nat)
    requires SchedInv(s) && d < |s.coros|
    ensures (exists child :: 0 <= child < |s.coros| && child != d && Attached(s, d, child)) <==>
      s.coros[d].status.Parked? && s.coros[d].status.on.OnTask?
      && d != s.coros[d].status.on.child < |s.coros| && Attached(s, d, s.coros[d].status.on.child)
  {
    forall child: nat | child < |s.coros| && Attached(s, d, child) ensures Waits(s.coros, d, child) {
      if AwaitSuspend(d, child) in s.stack { assert FrameOk(s.coros, AwaitSuspend(d, child)); }
      else { assert LinkOk(s.coros, s.stack, child); }
    }
  }

  /** d is an unfinished task in a slot that has been freed. */
  predicate LiveInFreed(s: State, slot: nat, d: nat) {
    slot in s.freeSlots && d < |s.coros| && s.coros[d].slot == Some(slot) && !Gone(s.coros[d])
  }

  predicate IsDestroyed(s: State, d: nat) { d < |s.coros| && s.coros[d].status.Destroyed? }

  /** After an insertion the library holds the handle of a destroyed coroutine, to resume it,
      exactly if the freed slot that it took held an unfinished task that was waited for. */
  lemma HandleOfDestroyedIff(s: State, c: nat, slot: nat)
    requires Reachable(s) && CanStoreInsert(s, c, slot)
    ensures var t := DoStoreInsert(s, c, slot);
      (exists d: nat :: IsDestroyed(t, d) && HandleHeld(t, d)) <==>
        exists d: nat :: LiveInFreed(s, slot, d) && WaitedFor(s, d)
  {
    ReachableInv(s);
    ReachableDistinct(s);
    var t := DoStoreInsert(s, c, slot);
    forall d: nat
      ensures IsDestroyed(t, d) && HandleHeld(t, d) <==> LiveInFreed(s, slot, d) && WaitedFor(s, d)
    {
      DestroyedIff(s, c, slot, d);
      if LiveInFreed(s, slot, d) {
        SameHandles(s, c, slot, d);
        HandleHeldIff(s, d);
      }
    }
  }

  /** The insertion gives away and takes back no handle of the task that it destroys. */
  lemma SameHandles(s: State, c: nat, slot: nat, d: nat)
    requires SchedInv(s) && DistinctSlots(s) && CanStoreInsert(s, c, slot) && LiveInFreed(s, slot, d)
    ensures HandleHeld(DoStoreInsert(s, c, slot), d) <==> HandleHeld(s, d)
  {
    var t := DoStoreInsert(s, c, slot);
    InsertDestroys(s, c, slot);
    assert Outstanding(t, d) == Outstanding(s, d);
    forall child: nat | child < |s.coros| && child != d ensures Attached(t, d, child) <==> Attached(s, d, child) {
      InsertAttached(s, c, slot, d, child);
    }
  }

  lemma InsertAttached(s: State, c: nat, slot: nat, d: nat, child: nat)
    requires SchedInv(s) && DistinctSlots(s) && CanStoreInsert(s, c, slot) && LiveInFreed(s, slot, d)
    requires child < |s.coros| && child != d
    ensures child < |DoStoreInsert(s, c, slot).coros|
    ensures Attached(DoStoreInsert(s, c, slot), d, child) <==> Attached(s, d, child)
  {
    var t := DoStoreInsert(s, c, slot);
    assert t.stack == s.stack[..|s.stack| - 1];
    DropTop(s.stack, AwaitSuspend(d, child));
    assert s.coros[child].slot == Some(slot) ==> Gone(s.coros[child]);
    assert t.coros[child].awaiter == s.coros[child].awaiter && Over(t.coros[child]) == Over(s.coros[child]);
  }

  lemma DestroyedIff(s: State, c: nat, slot: nat, d: nat)
    requires SchedInv(s) && WaitInv(s) && CanStoreInsert(s, c, slot)
    ensures IsDestroyed(DoStoreInsert(s, c, slot), d) <==> LiveInFreed(s, slot, d)
  {
    InsertDestroys(s, c, slot);
    if d < |s.coros| { assert WaitOk(s, d); }
  }

  /** The library goes on in d's frame: it has d's handle, or d is on its call stack. */
  ghost predicate GoesOn(s: State, d: nat) { HandleHeld(s, d) || Run(d) in s.stack || FinalSuspend(d) in s.stack }

  /** After an insertion it goes on in a destroyed frame in one of these ways exactly if the
      freed slot held an unfinished task that was waited for, was running or was returning. */
  lemma GoesOnDestroyedIff(s: State, c: nat, slot: nat)
    requires Reachable(s) && CanStoreInsert(s, c, slot)
    ensures var t := DoStoreInsert(s, c, slot);
      (exists d: nat :: IsDestroyed(t, d) && GoesOn(t, d)) <==>
        exists d: nat :: LiveInFreed(s, slot, d)
                    && (WaitedFor(s, d) || s.coros[d].status.Running? || s.coros[d].status.Returning?)
  {
    ReachableInv(s);
    ReachableDistinct(s);
    var t := DoStoreInsert(s, c, slot);
    forall d: nat
      ensures IsDestroyed(t, d) && GoesOn(t, d) <==>
        LiveInFreed(s, slot, d) && (WaitedFor(s, d) || s.coros[d].status.Running? || s.coros[d].status.Returning?)
    {
      DestroyedIff(s, c, slot, d);
      if LiveInFreed(s, slot, d) {
        SameHandles(s, c, slot, d);
        HandleHeldIff(s, d);
        OnStackIff(s, c, slot, d);
      }
    }
  }

  lemma OnStackIff(s: State, c: nat, slot: nat, d: nat)
    requires SchedInv(s) && CanStoreInsert(s, c, slot) && d < |s.coros|
    ensures var t := DoStoreInsert(s, c, slot);
      && (Run(d) in t.stack <==> s.coros[d].status.Running?)
      && (FinalSuspend(d) in t.stack <==> s.coros[d].status.Returning?)
  {
    DropTop(s.stack, Run(d));
    DropTop(s.stack, FinalSuspend(d));
    assert Run(d) in s.stack ==> FrameOk(s.coros, Run(d));
    assert FinalSuspend(d) in s.stack ==> FrameOk(s.coros, FinalSuspend(d));
  }

  lemma InsertDestroys(s: State, c: nat, slot: nat)
    requires SchedInv(s) && CanStoreInsert(s, c, slot)
    ensures var t := DoStoreInsert(s, c, slot);
      && |t.coros| == |s.coros| && t.pool == s.pool && Pending(t) == Pending(s)
      && forall d | 0 <= d < |s.coros| && !s.coros[d].status.Destroyed? ::
           t.coros[d].status.Destroyed? <==> slot in s.freeSlots && s.coros[d].slot == Some(slot) && !Gone(s.coros[d])
  {
    assert FrameOk(s.coros, Registering(c));
  }
}
