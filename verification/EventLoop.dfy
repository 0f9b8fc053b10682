/** The manager's side of the submission queue as the object that its member functions update:
    submissions that fail or take only some entries, the loops that repeat them, and how the
    kill begins. */
module EventLoop {
  import opened Requests
  import opened Machine

  /** How often `kill_internal` tries to flush. */
  const MAX_ITER: nat := 1000

  /** The ring's counters are unsigned and 32 bits wide. */
  const WRAP: nat := 0x1_0000_0000

  type Counter = n: nat | n < WRAP

  lemma CounterStep(n: nat, k: nat)
    ensures (n % WRAP + k) % WRAP == (n + k) % WRAP
  {
  }

  /** The difference of the counters is right although they wrap. */
  lemma CounterDifference(head: nat, tail: nat)
    requires head <= tail < head + WRAP
    ensures (tail % WRAP - head % WRAP) % WRAP == tail - head
  {
  }

  // What submissions take.

  /** Submission number i returns subs[i], or fewer if fewer are queued; the ones after those
      listed take everything. */
  function Returned(queued: nat, subs: seq<int>, i: nat): (ret: int)
    ensures ret <= queued && (i < |subs| ==> ret <= subs[i]) && (ret == queued || (i < |subs| && ret == subs[i]))
  {
    if i >= |subs| || subs[i] > queued then queued else subs[i]
  }

  function NonNegative(n: int): nat { if n < 0 then 0 else n }

  /** How many of the queued entries so many tries take from submission i on, stopping when
      none is left. */
  function TakenIn(queued: nat, subs: seq<int>, i: nat, tries: nat): (k: nat)
    ensures k <= queued
    decreases tries
  {
    if queued == 0 || tries == 0 then 0
    else
      var j := NonNegative(Returned(queued, subs, i));
      j + TakenIn(queued - j, subs, i + 1, tries - 1)
  }

  /** The number of the first submission after those tries. */
  function NextAfter(queued: nat, subs: seq<int>, i: nat, tries: nat): nat
    decreases tries
  {
    if queued == 0 || tries == 0 then i
    else NextAfter(queued - NonNegative(Returned(queued, subs, i)), subs, i + 1, tries - 1)
  }

  /** What so many submissions offer to take, from number i on. */
  function Offered(subs: seq<int>, i: nat, tries: nat): nat
    requires i + tries <= |subs|
    decreases tries
  {
    if tries == 0 then 0 else NonNegative(subs[i]) + Offered(subs, i + 1, tries - 1)
  }

  /** So many submissions from number i on offer to take the whole queue, or fewer are listed. */
  predicate Flushable(queued: nat, subs: seq<int>, i: nat, tries: nat) {
    i + tries > |subs| || queued <= Offered(subs, i, tries)
  }

  /** As many are taken as are offered, if that many are queued. */
  lemma {:induction false} TakenIsOffered(queued: nat, subs: seq<int>, i: nat, tries: nat)
    requires tries > 0
    ensures TakenIn(queued, subs, i, tries) ==
      if Flushable(queued, subs, i, tries) then queued else Offered(subs, i, tries)
    decreases tries
  {
    if queued > 0 && tries > 1 {
      TakenIsOffered(queued - NonNegative(Returned(queued, subs, i)), subs, i + 1, tries - 1);
    }
  }

  lemma {:induction false} OffersOne(subs: seq<int>, i: nat, tries: nat)
    requires i + tries <= |subs|
    ensures Offered(subs, i, tries) > 0 <==> exists n :: i <= n < i + tries && subs[n] > 0
    decreases tries
  {
    if tries > 0 { OffersOne(subs, i + 1, tries - 1); }
  }

  // The kill.

  /** The kill's flushes succeed, the next submission being number i: so many tries offer to
      take what is queued, and then the cancel entry. */
  predicate KillFlushes(queued: nat, subs: seq<int>, i: nat, tries: nat) {
    Flushable(queued, subs, i, tries) && Flushable(1, subs, NextAfter(queued, subs, i, tries), tries)
  }

  /** How many entries the kill has taken, the cancel entry included. */
  function KillTakes(queued: nat, subs: seq<int>, i: nat, tries: nat): nat {
    if Flushable(queued, subs, i, tries) then
      queued + TakenIn(1, subs, NextAfter(queued, subs, i, tries), tries)
    else TakenIn(queued, subs, i, tries)
  }

  /** Where nothing is queued, which is so whenever every submission before took everything,
      the kill fails exactly if none of the next tries takes anything. */
  lemma KillFailsIff(subs: seq<int>, i: nat, tries: nat)
    ensures !KillFlushes(0, subs, i, tries) <==>
      i + tries <= |subs| && forall n | i <= n < i + tries :: subs[n] <= 0
  {
    if i + tries <= |subs| { OffersOne(subs, i, tries); }
  }

  /** Such submissions: none of them takes the cancel request. */
  lemma ZerosFail(tries: nat)
    requires tries > 0
    ensures var subs := seq(tries, _ => 0); !KillFlushes(0, subs, 0, tries) && KillTakes(0, subs, 0, tries) == 0
  {
    var subs := seq(tries, _ => 0);
    KillFailsIff(subs, 0, tries);
    TakenIsOffered(1, subs, 0, tries);
    OffersOne(subs, 0, tries);
  }

  class EventManager {
    const capacity: nat
    const maxIter: nat
    const submissions: seq<int>
    var submitted: nat             // how many submissions there have been
    var life: Life
    var entries: seq<Entry>        // the entries ever queued
    var taken: nat                 // how many of them have been taken
    var sqeHead: Counter
    var sqeTail: Counter
    var inFlight: nat
    var requests: seq<RequestData>

    predicate Valid()
      reads this
    {
      && maxIter > 0 && capacity < WRAP
      && taken <= |entries| <= taken + capacity
      && sqeHead == taken % WRAP && sqeTail == |entries| % WRAP
    }

    /** How many entries are queued. */
    function Queued(): nat
      requires Valid()
      reads this
    {
      |entries| - taken
    }

    constructor (capacity: nat, submissions: seq<int>)
      requires capacity < WRAP
      ensures Valid() && life == NotStarted && entries == [] && inFlight == 0 && requests == []
      ensures this.capacity == capacity && this.submissions == submissions && submitted == 0 && maxIter == 1000
    {
      this.capacity, this.maxIter, this.submissions := capacity, MAX_ITER, submissions;
      submitted, life, sqeHead, sqeTail := 0, NotStarted, 0, 0;
      entries, taken, inFlight, requests := [], 0, 0, [];
    }

    /** `sqe_tail - sqe_head`. */
    method Pending() returns (n: nat)
      requires Valid()
      ensures n == Queued()
    {
      CounterDifference(taken, |entries|);
      n := (sqeTail - sqeHead) % WRAP;
    }

    /** `submit_queued_entries`: those taken are the first, and are counted as in flight. */
    method SubmitQueuedEntries() returns (ret: int)
      requires Valid()
      modifies this`submitted, this`sqeHead, this`taken, this`inFlight
      ensures Valid() && submitted == old(submitted) + 1
      ensures ret == Returned(old(Queued()), submissions, old(submitted))
      ensures taken == old(taken) + NonNegative(ret) && inFlight == old(inFlight) + NonNegative(ret)
    {
      ret := Returned(Queued(), submissions, submitted);
      submitted := submitted + 1;
      if ret > 0 {
        CounterStep(taken, ret);
        sqeHead := (sqeHead + ret) % WRAP;
        taken := taken + ret;
        inFlight := inFlight + ret;
      }
    }

    /** `get_uring_sqe`: whether there is an entry to be had. */
    method GetUringSqe() returns (available: bool)
      requires Valid()
      ensures available <==> !life.Dying? && !life.Dead? && Queued() < capacity
    {
      available := !(life.Dying? || life.Dead?) && |entries| - taken < capacity;
    }

    /** The entry that was got is filled. */
    method FillEntry(e: Entry)
      requires Valid() && Queued() < capacity
      modifies this`sqeTail, this`entries
      ensures Valid() && entries == old(entries) + [e]
    {
      CounterStep(|entries|, 1);
      sqeTail := (sqeTail + 1) % WRAP;
      entries := entries + [e];
    }

    // `kill_internal`.

    /** One of the two flushing loops: what its tries take is taken and counted. */
    method Flush()
      requires Valid()
      modifies this`submitted, this`sqeHead, this`taken, this`inFlight
      ensures Valid() && submitted == NextAfter(old(Queued()), submissions, old(submitted), maxIter)
      ensures taken == old(taken) + TakenIn(old(Queued()), submissions, old(submitted), maxIter)
      ensures inFlight - old(inFlight) == taken - old(taken)
    {
      ghost var queued, first := Queued(), submitted;
      var iter := 0;
      var pending := Pending();
      while pending != 0 && iter < maxIter
        invariant Valid() && pending == Queued() && iter <= maxIter
        invariant inFlight - old(inFlight) == taken - old(taken) == queued - pending
        invariant TakenIn(queued, submissions, first, maxIter) ==
          queued - pending + TakenIn(pending, submissions, submitted, maxIter - iter)
        invariant NextAfter(queued, submissions, first, maxIter) ==
          NextAfter(pending, submissions, submitted, maxIter - iter)
        decreases maxIter - iter
      {
        iter := iter + 1;
        var ret := SubmitQueuedEntries();
        pending := Pending();
      }
    }

    /** An entry is got, at the first of its tries, and prepared to cancel everything. */
    method QueueCancel()
      requires Valid() && Queued() == 0 && capacity > 0
      modifies this`sqeTail, this`entries
      ensures Valid() && entries == old(entries) + [Cancel]
    {
      var available := false;
      var iter := 0;
      while !available && iter < maxIter
        invariant available || iter == 0
        decreases maxIter - iter
      {
        iter := iter + 1;
        available := |entries| - taken < capacity;
      }
      assert available;  // an empty queue has room
      FillEntry(Cancel);
    }

    /** What is queued is flushed, and then the one entry of the cancel request. It succeeds
        exactly if the tries of each flush offer to take as much. */
    method CancelAll() returns (code: int)
      requires Valid() && capacity > 0
      modifies this`submitted, this`sqeHead, this`sqeTail, this`entries, this`taken, this`inFlight
      ensures Valid() && code == (if KillFlushes(old(Queued()), submissions, old(submitted), maxIter) then 0 else -1)
      ensures entries ==
        old(entries) + if Flushable(old(Queued()), submissions, old(submitted), maxIter) then [Cancel] else []
      ensures taken == old(taken) + KillTakes(old(Queued()), submissions, old(submitted), maxIter)
      ensures inFlight - old(inFlight) == taken - old(taken)
    {
      TakenIsOffered(Queued(), submissions, submitted, maxIter);
      Flush();
      var pending := Pending();
      if pending != 0 { return -1; }
      QueueCancel();
      TakenIsOffered(1, submissions, submitted, maxIter);
      Flush();
      pending := Pending();
      return if pending != 0 then -1 else 0;
    }

    /** `kill_internal` up to where it waits. */
    method BeginKill() returns (code: int)
      requires Valid() && capacity > 0
      modifies this`life, this`submitted, this`sqeHead, this`sqeTail, this`entries, this`taken, this`inFlight
      ensures Valid()
      ensures old(life.Dying? || life.Dead?) ==>
        code == -1 && life == old(life) && entries == old(entries) && taken == old(taken) && inFlight == old(inFlight)
      ensures !old(life.Dying? || life.Dead?) ==>
        && life == Dying && inFlight - old(inFlight) == taken - old(taken)
        && code == (if KillFlushes(old(Queued()), submissions, old(submitted), maxIter) then 0 else -1)
        && entries ==
             old(entries) + (if Flushable(old(Queued()), submissions, old(submitted), maxIter) then [Cancel] else [])
        && taken == old(taken) + KillTakes(old(Queued()), submissions, old(submitted), maxIter)
    {
      if life.Dying? || life.Dead? { return -1; }
      life := Dying;
      code := CancelAll();
    }

    // `submit_and_wait`.

    /** Its first loop fills an entry for each request while there are any to be had. */
    method FillBatch(c: nat, reqs: seq<Params>) returns (k: nat)
      requires Valid()
      modifies this`requests, this`sqeTail, this`entries
      ensures Valid()
      ensures k == if life.Dying? || life.Dead? then 0
                   else if |reqs| <= capacity - old(Queued()) then |reqs| else capacity - old(Queued())
      ensures requests == old(requests) + seq(k, j requires 0 <= j < k => BatchRequest(c, reqs[j]))
      ensures entries == old(entries) + seq(k, j requires 0 <= j < k => Data(|old(requests)| + j))
    {
      k := 0;
      for i := 0 to |reqs|
        invariant Valid() && Queued() == old(Queued()) + k
        invariant k == if life.Dying? || life.Dead? then 0
                       else if i <= capacity - old(Queued()) then i else capacity - old(Queued())
        invariant requests == old(requests) + seq(k, j requires 0 <= j < k => BatchRequest(c, reqs[j]))
        invariant entries == old(entries) + seq(k, j requires 0 <= j < k => Data(|old(requests)| + j))
      {
        var available := GetUringSqe();
        if available {
          FillEntry(Data(|requests|));
          requests := requests + [BatchRequest(c, reqs[i])];
          k := k + 1;
        }
      }
    }
  }

  // The machine's kill.

  /** The first k of these entries have been taken, the others are queued. */
  function Handed(s: State, entries: seq<Entry>, k: nat): State
    requires k <= |entries|
  {
    s.(sq := entries[k..], kernel := s.kernel + multiset(entries[..k]), inFlight := s.inFlight + k)
  }

  lemma AllHanded(s: State)
    ensures KillSubmitted(s) == Handed(s.(life := Dying), s.sq + [Cancel], |s.sq| + 1)
  {
    var all := s.sq + [Cancel];
    assert all[..|s.sq| + 1] == all && all[|s.sq| + 1..] == [];
    assert multiset(all) == multiset(s.sq) + multiset([Cancel]);
    assert KillSubmitted(s).kernel == s.kernel + multiset(s.sq) + multiset([] + [Cancel]);
    assert [] + [Cancel] == [Cancel];
  }

  /** The machine's kill is the one whose flushes succeed: what was queued and the cancel
      entry have been taken. */
  lemma MachineKillFlushes(s: State, subs: seq<int>, i: nat, tries: nat)
    requires tries > 0 && KillFlushes(|s.sq|, subs, i, tries)
    ensures KillTakes(|s.sq|, subs, i, tries) == |s.sq| + 1
    ensures KillSubmitted(s) == Handed(s.(life := Dying), s.sq + [Cancel], |s.sq| + 1)
  {
    TakenIsOffered(1, subs, NextAfter(|s.sq|, subs, i, tries), tries);
    AllHanded(s);
  }

  /** How a kill whose flushes fail leaves the machine: its task has returned with an error,
      these entries being queued or taken. */
  function KillStuck(s: State, entries: seq<Entry>, k: nat): State
    requires CanKillBegin(s) && k <= |entries|
  {
    Machine.Return(Handed(Set(s, KILL, s.coros[KILL].(begun := true)).(life := Dying), entries, k), KILL, -1)
  }
}
