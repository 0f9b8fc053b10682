/** `submit_and_wait` as the sole user of the ring, with submissions that may fail or take
    only some of the queued entries, and completions in any order. */
module BatchSubmission {
  import opened Option
  import opened Requests

  /** One call of the response handler: the current type's index and the channel's content. */
  datatype Handled = Handled(typeIndex: nat, pack: ResponseVariant)

  /** What the handler must be told of a request whose result is res. */
  function Answer(p: Params, res: int): Handled { Handled(Index(Tag(p)), Published(Tag(p), p, res)) }

  function Min(a: nat, b: nat): nat { if a < b then a else b }

  /** The numbers of the first k requests. */
  function UpTo(k: nat): (s: seq<nat>)
    ensures |s| == k && forall i | 0 <= i < k :: s[i] == i
  {
    seq(k, i requires 0 <= i < k => i)
  }

  predicate Within(ids: seq<nat>, n: nat) { forall j | 0 <= j < |ids| :: ids[j] < n }

  function Answers(reqs: seq<Params>, result: nat -> int, ids: seq<nat>): (s: seq<Handled>)
    requires Within(ids, |reqs|)
    ensures |s| == |ids|
    ensures forall j | 0 <= j < |ids| :: s[j] == Answer(reqs[ids[j]], result(ids[j]))
  {
    seq(|ids|, j requires 0 <= j < |ids| && ids[j] < |reqs| => Answer(reqs[ids[j]], result(ids[j])))
  }

  // Answers and the order of the requests.

  function Without<T>(s: seq<T>, i: nat): seq<T>
    requires i < |s|
  {
    s[..i] + s[i + 1..]
  }

  lemma WithoutOne<T>(s: seq<T>, i: nat)
    requires i < |s|
    ensures multiset(s) == multiset(Without(s, i)) + multiset{s[i]}
  {
    assert s == s[..i] + [s[i]] + s[i + 1..];
  }

  lemma AnswersWithout(reqs: seq<Params>, result: nat -> int, ids: seq<nat>, i: nat)
    requires Within(ids, |reqs|) && i < |ids|
    ensures Within(Without(ids, i), |reqs|)
    ensures multiset(Answers(reqs, result, ids)) ==
      multiset(Answers(reqs, result, Without(ids, i))) + multiset{Answer(reqs[ids[i]], result(ids[i]))}
  {
    assert Answers(reqs, result, Without(ids, i)) == Without(Answers(reqs, result, ids), i);
    WithoutOne(Answers(reqs, result, ids), i);
  }

  /** A first element has a place in any other order, and leaves the same rest there. */
  lemma PlaceOfFirst(a: seq<nat>, b: seq<nat>) returns (i: nat)
    requires multiset(a) == multiset(b) && a != []
    ensures i < |b| && b[i] == a[0] && multiset(Without(a, 0)) == multiset(Without(b, i))
  {
    assert a[0] in multiset(b);
    i :| 0 <= i < |b| && b[i] == a[0];
    WithoutOne(a, 0);
    WithoutOne(b, i);
    assert multiset(Without(a, 0)) == multiset(a) - multiset{a[0]};
    assert multiset(Without(b, i)) == multiset(b) - multiset{a[0]};
  }

  /** The same requests in another order have the same answers in another order. */
  lemma {:induction false} AnswersPermute(reqs: seq<Params>, result: nat -> int, a: seq<nat>, b: seq<nat>)
    requires multiset(a) == multiset(b) && Within(a, |reqs|) && Within(b, |reqs|)
    ensures multiset(Answers(reqs, result, a)) == multiset(Answers(reqs, result, b))
    decreases |a|
  {
    assert |a| == |multiset(a)| == |multiset(b)| == |b|;
    if a != [] {
      var i := PlaceOfFirst(a, b);
      AnswersWithout(reqs, result, a, 0);
      AnswersWithout(reqs, result, b, i);
      AnswersPermute(reqs, result, Without(a, 0), Without(b, i));
    }
  }

  // Where the admitted requests are.

  /** Each of the m admitted requests is queued, taken or answered. */
  predicate Located(m: nat, sq: seq<nat>, taken: multiset<nat>, order: seq<nat>) {
    && |sq| <= m && sq == UpTo(m)[m - |sq|..]
    && multiset(order) + taken + multiset(sq) == multiset(UpTo(m))
    && Within(order, m)
  }

  lemma LocatedWithin(m: nat, sq: seq<nat>, taken: multiset<nat>, order: seq<nat>)
    requires Located(m, sq, taken, order)
    ensures forall id | id in taken :: id < m
  {
    forall id | id in taken ensures id < m {
      assert id in multiset(order) + taken + multiset(sq);
      assert id in UpTo(m);
    }
  }

  lemma SubmissionLocated(m: nat, sq: seq<nat>, taken: multiset<nat>, order: seq<nat>, ret: nat)
    requires Located(m, sq, taken, order) && ret <= |sq|
    ensures Located(m, sq[ret..], taken + multiset(sq[..ret]), order)
  {
    assert sq == sq[..ret] + sq[ret..];
  }

  lemma ResponseLocated(m: nat, sq: seq<nat>, taken: multiset<nat>, order: seq<nat>, id: nat)
    requires Located(m, sq, taken, order) && id in taken
    ensures Located(m, sq, taken - multiset{id}, order + [id])
  {
    LocatedWithin(m, sq, taken, order);
  }

  /** With nothing taken, those answered are those no longer queued. */
  lemma LocatedServed(m: nat, sq: seq<nat>, order: seq<nat>)
    requires Located(m, sq, multiset{}, order)
    ensures |order| == m - |sq| && multiset(order) == multiset(UpTo(m - |sq|))
  {
    var k := m - |sq|;
    assert UpTo(m) == UpTo(k) + sq;
    assert multiset(order) + multiset(sq) == multiset(UpTo(k)) + multiset(sq);
    assert multiset(order) == (multiset(order) + multiset(sq)) - multiset(sq);
    assert multiset(UpTo(k)) == (multiset(UpTo(k)) + multiset(sq)) - multiset(sq);
    assert |order| == |multiset(order)| == |multiset(UpTo(k))|;
  }

  // What submissions come to.

  function Rest(subs: seq<int>): seq<int> { if subs == [] then [] else subs[1..] }

  /** What a submission takes, or its error, with so many queued: the first one listed, if any. */
  function Taken(queued: nat, subs: seq<int>): int {
    if subs == [] || subs[0] > queued then queued else subs[0]
  }

  /** The error that ends a series of submissions that is to take so many, or zero. */
  function Code(queued: nat, subs: seq<int>): int
    decreases |subs|
  {
    if queued == 0 || subs == [] then 0
    else if subs[0] < 0 then subs[0]
    else Code(queued - Taken(queued, subs), subs[1..])
  }

  /** How many they take before it. */
  function Took(queued: nat, subs: seq<int>): (k: nat)
    ensures k <= queued
    decreases |subs|
  {
    if queued == 0 || subs == [] then queued
    else if subs[0] < 0 then 0
    else Taken(queued, subs) + Took(queued - Taken(queued, subs), subs[1..])
  }

  lemma FirstSubmission(queued: nat, subs: seq<int>)
    requires queued > 0
    ensures var ret := Taken(queued, subs);
      if ret < 0 then Code(queued, subs) == ret && Took(queued, subs) == 0
      else
        && Code(queued, subs) == Code(queued - ret, Rest(subs))
        && Took(queued, subs) == ret + Took(queued - ret, Rest(subs))
  {
  }

  /** How many submissions are listed before the first that fails. */
  function Successes(subs: seq<int>): (i: nat)
    ensures i <= |subs| && (forall j | 0 <= j < i :: subs[j] >= 0) && (i < |subs| ==> subs[i] < 0)
  {
    if subs == [] || subs[0] < 0 then 0 else 1 + Successes(subs[1..])
  }

  function Sum(offers: seq<int>): int { if offers == [] then 0 else offers[0] + Sum(offers[1..]) }

  /** They fail exactly if one fails before which fewer were offered to be taken. */
  lemma {:induction false} FailsExactlyIf(queued: nat, subs: seq<int>)
    ensures var i := Successes(subs);
      if i < |subs| && Sum(subs[..i]) < queued then
        Code(queued, subs) == subs[i] && Took(queued, subs) == Sum(subs[..i])
      else Code(queued, subs) == 0 && Took(queued, subs) == queued
    decreases |subs|
  {
    var i := Successes(subs);
    if i > 0 {
      assert subs[..i][1..] == subs[1..][..i - 1];
      SumNonNegative(subs[1..][..i - 1]);
      FailsExactlyIf(queued - Taken(queued, subs), subs[1..]);
    }
  }

  lemma {:induction false} SumNonNegative(offers: seq<int>)
    requires forall j | 0 <= j < |offers| :: offers[j] >= 0
    ensures Sum(offers) >= 0
  {
    if offers != [] { SumNonNegative(offers[1..]); }
  }

  class Manager {
    const capacity: nat
    const result: nat -> int       // the result of each request
    var restricted: bool           // the manager is dying or dead
    var submissions: seq<int>      // what the coming submissions return at most; after those, each takes all
    var reqData: seq<RequestData>
    var sq: seq<nat>               // queued requests, by number
    var taken: multiset<nat>       // those the kernel has, or has completed without the response being handled
    var channel: ResponseVariant
    var calls: seq<Handled>        // what the handler has been called with
    ghost var order: seq<nat>      // the numbers of the requests it was called for

    constructor (capacity: nat, restricted: bool, submissions: seq<int>, result: nat -> int)
      ensures this.capacity == capacity && this.result == result
      ensures this.restricted == restricted && this.submissions == submissions
      ensures sq == [] && taken == multiset{} && calls == [] && order == []
    {
      this.capacity := capacity;
      this.result := result;
      this.restricted := restricted;
      this.submissions := submissions;
      reqData, sq, taken, channel, calls, order := [], [], multiset{}, Monostate, [], [];
    }

    predicate SubmissionsSucceed()
      reads this`submissions
    {
      forall i | 0 <= i < |submissions| :: submissions[i] >= 0
    }

    /** `submit_queued_entries`: a negative error, or how many entries were taken, in order. */
    method SubmitQueuedEntries() returns (ret: int)
      modifies this`submissions, this`sq, this`taken
      ensures ret == Taken(|old(sq)|, old(submissions)) && submissions == Rest(old(submissions))
      ensures ret <= 0 ==> sq == old(sq) && taken == old(taken)
      ensures ret > 0 ==> sq == old(sq)[ret..] && taken == old(taken) + multiset(old(sq)[..ret])
    {
      ret := Taken(|sq|, submissions);
      submissions := Rest(submissions);
      if ret > 0 {
        taken := taken + multiset(sq[..ret]);
        sq := sq[ret..];
      }
    }

    /** `process_single_generic_request`: fills an entry, if there is one to be had. */
    method ProcessRequest(i: nat, req: Params, handle: nat) returns (ok: bool)
      requires i < |reqData|
      modifies this`reqData, this`sq
      ensures ok <==> !restricted && |old(sq)| < capacity
      ensures ok ==> sq == old(sq) + [i]
      ensures ok ==> reqData == old(reqData)[i := RequestRecord(Some(handle), 0, Tag(req), false, req, 0)]
      ensures !ok ==> sq == old(sq) && reqData == old(reqData)
    {
      if restricted || |sq| >= capacity { return false; }
      reqData := reqData[i := RequestRecord(Some(handle), 0, Tag(req), false, req, 0)];
      sq := sq + [i];
      return true;
    }

    /** `co_await GenericResponse`: the coroutine comes back when some one of its requests has
        completed, with the response in its channel. */
    method NextResponse() returns (ghost id: nat)
      requires taken != multiset{} && forall id | id in taken :: id < |reqData|
      modifies this`taken, this`channel, this`order
      ensures id in old(taken) && taken == old(taken) - multiset{id} && order == old(order) + [id]
      ensures channel == Published(reqData[id].reqType, reqData[id].specific, result(id))
    {
      var next :| next in taken;
      id := next;
      taken := taken - multiset{next};
      order := order + [next];
      channel := Published(reqData[next].reqType, reqData[next].specific, result(next));
    }

    method CallHandler()
      modifies this`calls
      ensures calls == old(calls) + [Handled(VariantIndex(channel), channel)]
    {
      calls := calls + [Handled(VariantIndex(channel), channel)];
    }

    /** The data of the first m requests have been filled in. */
    predicate Filled(reqs: seq<Params>, m: nat)
      reads this`reqData
    {
      m <= |reqs| == |reqData|
      && forall i | 0 <= i < m :: reqData[i].reqType == Tag(reqs[i]) && reqData[i].specific == reqs[i]
    }

    /** What holds throughout the two loops. */
    ghost predicate Accounted(reqs: seq<Params>, m: nat)
      reads this
    {
      && Filled(reqs, m)
      && Located(m, sq, taken, order)
      && calls == Answers(reqs, result, order)
    }

    /** Of m admitted requests the first k have been submitted and answered, each once; the
        others are still queued. */
    predicate Served(reqs: seq<Params>, m: nat, k: nat)
      reads this
    {
      && k <= m <= |reqs| && sq == UpTo(m)[k..] && taken == multiset{}
      && |calls| == k && multiset(calls) == multiset(Answers(reqs, result, UpTo(k)))
    }

    /** `submit_and_wait`. It returns 0 with every admitted request answered, or the error of
        the first submission that fails before they have been taken, with those answered that
        were taken by then. */
    method SubmitAndWait(reqs: seq<Params>, handle: nat) returns (code: int, ghost served: nat)
      requires sq == [] && taken == multiset{} && calls == [] && order == []
      modifies this`submissions, this`reqData, this`sq, this`taken, this`channel, this`calls, this`order
      ensures var m := if restricted then 0 else Min(|reqs|, capacity);
        if old(submissions) != [] && old(submissions)[0] < 0 then
          code == old(submissions)[0] && served == 0 && calls == [] && sq == [] && taken == multiset{}
        else
          && code == Code(m, Rest(old(submissions))) && served == Took(m, Rest(old(submissions)))
          && Served(reqs, m, served) && (code == 0 <==> served == m)
          && Filled(reqs, m) && forall i | 0 <= i < m :: reqData[i].handle == Some(handle)
      ensures code <= 0 && (old(SubmissionsSucceed()) ==> code == 0)
    {
      var ret := SubmitQueuedEntries();
      if ret < 0 { return ret, 0; }

      ghost var m := FillBatch(reqs, handle);
      FailsExactlyIf(m, submissions);
      code, served := AnswerAll(ret, reqs, m);
    }

    /** The loop around the two, from what the first submission took. */
    method AnswerAll(submitted: nat, reqs: seq<Params>, ghost m: nat) returns (code: int, ghost served: nat)
      requires Accounted(reqs, m) && taken == multiset{} && submitted == 0 && |sq| == m
      modifies this`submissions, this`sq, this`taken, this`channel, this`order, this`calls
      ensures code == Code(m, old(submissions)) && served == Took(m, old(submissions)) && Served(reqs, m, served)
    {
      var ret;
      var numSubmitted := submitted;
      var numQueued := |sq|;
      while numSubmitted != 0 || numQueued != 0
        invariant Accounted(reqs, m) && taken == multiset{}
        invariant numSubmitted == 0 && numQueued == |sq|
        invariant Code(numQueued, submissions) == Code(m, old(submissions))
        invariant m - numQueued + Took(numQueued, submissions) == Took(m, old(submissions))
        decreases numQueued
      {
        ret, numSubmitted, numQueued := SubmitSome(numQueued, reqs, m);
        if ret < 0 {
          served := ServedAnswers(reqs, m);
          return ret, served;
        }
        AnswerSubmitted(numSubmitted, reqs, m);
        numSubmitted := 0;
      }
      served := ServedAnswers(reqs, m);
      return 0, served;
    }

    /** A submission, and where it leaves the requests. */
    method SubmitOnce(reqs: seq<Params>, ghost m: nat) returns (ret: int)
      requires Accounted(reqs, m) && taken == multiset{} && sq != []
      modifies this`submissions, this`sq, this`taken
      ensures Accounted(reqs, m)
      ensures if ret <= 0 then |sq| == |old(sq)| && taken == multiset{} else |sq| == |old(sq)| - ret && |taken| == ret
      ensures |submissions| <= |old(submissions)| && (ret == 0 ==> |submissions| < |old(submissions)|)
      ensures Code(|old(sq)|, old(submissions)) == if ret < 0 then ret else Code(|sq|, submissions)
      ensures Took(|old(sq)|, old(submissions)) == if ret < 0 then 0 else ret + Took(|sq|, submissions)
    {
      ghost var sqBefore := sq;
      FirstSubmission(|sq|, submissions);
      ret := SubmitQueuedEntries();
      if ret > 0 { SubmissionLocated(m, sqBefore, multiset{}, order, ret); }
    }

    /** The second loop: submissions are repeated until one takes something or fails. */
    method SubmitSome(queued: nat, reqs: seq<Params>, ghost m: nat)
      returns (ret: int, numSubmitted: nat, numQueued: nat)
      requires Accounted(reqs, m) && taken == multiset{} && queued == |sq| > 0
      modifies this`submissions, this`sq, this`taken
      ensures Accounted(reqs, m) && numQueued == |sq| && numSubmitted == |taken|
      ensures numQueued == queued - numSubmitted && if ret < 0 then numSubmitted == 0 else numSubmitted > 0
      ensures Code(queued, old(submissions)) == if ret < 0 then ret else Code(numQueued, submissions)
      ensures Took(queued, old(submissions)) == if ret < 0 then 0 else numSubmitted + Took(numQueued, submissions)
    {
      ret, numSubmitted, numQueued := 0, 0, queued;
      while numQueued != 0 && numSubmitted == 0
        invariant Accounted(reqs, m) && ret >= 0
        invariant numSubmitted == |taken| && numQueued == |sq|
        invariant numQueued == queued - numSubmitted
        invariant Code(queued, old(submissions)) == Code(numQueued, submissions)
        invariant Took(queued, old(submissions)) == numSubmitted + Took(numQueued, submissions)
        decreases |submissions|, numQueued
      {
        ret := SubmitOnce(reqs, m);
        if ret < 0 { return; }
        numSubmitted := numSubmitted + ret;
        numQueued := numQueued - ret;
      }
    }

    /** The first loop: the requests that get an entry are a prefix. */
    method FillBatch(reqs: seq<Params>, handle: nat) returns (ghost m: nat)
      requires sq == [] && taken == multiset{} && calls == [] && order == []
      modifies this`reqData, this`sq
      ensures m == if restricted then 0 else Min(|reqs|, capacity)
      ensures |sq| == m && Accounted(reqs, m) && (forall i | 0 <= i < m :: reqData[i].handle == Some(handle))
    {
      reqData := seq(|reqs|, _ => RequestRecord(None, 0, Read, false, ReadParams(0, 0, 0), 0));
      m := if restricted then 0 else Min(|reqs|, capacity);
      for i := 0 to |reqs|
        invariant sq == UpTo(Min(i, m)) && Filled(reqs, Min(i, m))
        invariant forall j | 0 <= j < Min(i, m) :: reqData[j].handle == Some(handle)
      {
        var _ := ProcessRequest(i, reqs[i], handle);
      }
      assert UpTo(m)[0..] == UpTo(m);
    }

    /** The third loop: one response for each request submitted. */
    method AnswerSubmitted(numSubmitted: nat, reqs: seq<Params>, ghost m: nat)
      requires Accounted(reqs, m) && |taken| == numSubmitted
      modifies this`taken, this`channel, this`order, this`calls
      ensures Accounted(reqs, m) && taken == multiset{}
    {
      for i := 0 to numSubmitted
        invariant Accounted(reqs, m)
        invariant |taken| == numSubmitted - i
      {
        ghost var takenBefore, orderBefore := taken, order;
        LocatedWithin(m, sq, taken, order);
        ghost var id := NextResponse();
        ResponseLocated(m, sq, takenBefore, orderBefore, id);
        CallHandler();
        assert calls == Answers(reqs, result, order);
      }
    }

    lemma ServedAnswers(reqs: seq<Params>, m: nat) returns (k: nat)
      requires Accounted(reqs, m) && taken == multiset{}
      ensures k == m - |sq| && Served(reqs, m, k)
    {
      k := m - |sq|;
      LocatedServed(m, sq, order);
      AnswersPermute(reqs, result, order, UpTo(k));
    }
  }
}
