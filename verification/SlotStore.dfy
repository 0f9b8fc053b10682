/** `ItemStore`: a vector with a set of freed indices, which hands out any freed index again
    before it grows. */
module SlotStore {
  import opened Option

  datatype Store<T> = Store(items: seq<T>, freed: set<nat>)

  function Empty<T>(): Store<T> { Store([], {}) }

  /** `Insert` names the index that it is given. */
  datatype Op<T> = Insert(item: T, idx: nat) | Erase(idx: nat)

  /** The items that have not been erased, by index. */
  function Live<T>(s: Store<T>): map<nat, T> {
    map i: nat | i < |s.items| && i !in s.freed :: s.items[i]
  }

  predicate InRange<T>(s: Store<T>) { forall i | i in s.freed :: i < |s.items| }

  /** `insert` takes some freed index, if there is one. Callers erase live indices. */
  predicate Can<T>(s: Store<T>, op: Op<T>) {
    match op
    case Insert(_, idx) => if s.freed != {} then idx in s.freed && idx < |s.items| else idx == |s.items|
    case Erase(idx) => idx in Live(s)
  }

  function Do<T>(s: Store<T>, op: Op<T>): Store<T>
    requires Can(s, op)
  {
    match op
    case Insert(item, idx) =>
      if s.freed != {} then Store(s.items[idx := item], s.freed - {idx}) else Store(s.items + [item], s.freed)
    case Erase(idx) => s.(freed := s.freed + {idx})
  }

  predicate Allowed<T>(s: Store<T>, ops: seq<Op<T>>)
    decreases |ops|
  {
    ops == [] || (Can(s, ops[0]) && Allowed(Do(s, ops[0]), ops[1..]))
  }

  function Perform<T>(s: Store<T>, ops: seq<Op<T>>): Store<T>
    requires Allowed(s, ops)
    decreases |ops|
  {
    if ops == [] then s else Perform(Do(s, ops[0]), ops[1..])
  }

  class ItemStore<T> {
    var items: seq<T>
    var freedIdxs: set<nat>

    ghost function View(): Store<T>
      reads this
    {
      Store(items, freedIdxs)
    }

    constructor ()
      ensures View() == Empty()
    {
      items, freedIdxs := [], {};
    }

    method Insert(item: T) returns (idx: nat)
      requires InRange(View())
      modifies this
      ensures Can(old(View()), Op.Insert(item, idx)) && View() == Do(old(View()), Op.Insert(item, idx))
      ensures InRange(View()) && idx !in Live(old(View())) && Live(View()) == Live(old(View()))[idx := item]
    {
      if |freedIdxs| != 0 {
        idx :| idx in freedIdxs;
        freedIdxs := freedIdxs - {idx};
        items := items[idx := item];
      } else {
        items := items + [item];
        idx := |items| - 1;
      }
    }

    method Get(idx: nat) returns (item: T)
      requires idx in Live(View())
      ensures item == Live(View())[idx]
    {
      item := items[idx];
    }

    /** Any index is accepted; the store stays in order exactly for those it has. */
    method Erase(idx: nat)
      requires InRange(View())
      modifies this`freedIdxs
      ensures View() == old(View()).(freed := old(View()).freed + {idx})
      ensures InRange(View()) <==> idx < |items|
      ensures Live(View()) == Live(old(View())) - {idx}
    {
      freedIdxs := freedIdxs + {idx};
    }
  }

  // A store is a map.

  function MapDo<T>(m: map<nat, T>, op: Op<T>): map<nat, T> {
    match op
    case Insert(item, idx) => m[idx := item]
    case Erase(idx) => m - {idx}
  }

  function MapPerform<T>(m: map<nat, T>, ops: seq<Op<T>>): map<nat, T>
    decreases |ops|
  {
    if ops == [] then m else MapPerform(MapDo(m, ops[0]), ops[1..])
  }

  lemma StepIsMapStep<T>(s: Store<T>, op: Op<T>)
    requires InRange(s) && Can(s, op)
    ensures InRange(Do(s, op)) && Live(Do(s, op)) == MapDo(Live(s), op)
    ensures op.Insert? ==> op.idx !in Live(s)
  {
  }

  /** Over any run the live items are those of a map, and an index given out was not live. */
  lemma {:induction false} RunIsMapRun<T>(s: Store<T>, ops: seq<Op<T>>)
    requires InRange(s) && Allowed(s, ops)
    ensures InRange(Perform(s, ops)) && Live(Perform(s, ops)) == MapPerform(Live(s), ops)
    decreases |ops|
  {
    if ops != [] {
      StepIsMapStep(s, ops[0]);
      RunIsMapRun(Do(s, ops[0]), ops[1..]);
    }
  }

  /** What the last operation on an index left there. */
  function Last<T>(ops: seq<Op<T>>, idx: nat): Option<T> {
    if ops == [] then None
    else
      var op := ops[|ops| - 1];
      if op.idx != idx then Last(ops[..|ops| - 1], idx)
      else if op.Insert? then Some(op.item) else None
  }

  lemma {:induction false} MapPerformLast<T>(m: map<nat, T>, ops: seq<Op<T>>)
    requires ops != []
    ensures MapPerform(m, ops) == MapDo(MapPerform(m, ops[..|ops| - 1]), ops[|ops| - 1])
    decreases |ops|
  {
    if |ops| == 1 {
      assert ops[1..] == [] && ops[..0] == [];
    } else {
      MapPerformLast(MapDo(m, ops[0]), ops[1..]);
      assert ops[1..][..|ops| - 2] == ops[..|ops| - 1][1..];
    }
  }

  lemma {:induction false} MapHoldsLast<T>(ops: seq<Op<T>>, idx: nat)
    ensures var m := MapPerform(map[], ops);
      (idx in m <==> Last(ops, idx).Some?) && (idx in m ==> m[idx] == Last(ops, idx).value)
    decreases |ops|
  {
    if ops != [] {
      MapPerformLast(map[], ops);
      MapHoldsLast(ops[..|ops| - 1], idx);
    }
  }

  /** An index is live exactly if the last operation on it was an insertion, and then gives
      the item inserted. Live and freed indices make up the vector's. */
  lemma LookupGivesLast<T>(ops: seq<Op<T>>, idx: nat)
    requires Allowed(Empty(), ops)
    ensures var s := Perform(Empty(), ops);
      && (idx in Live(s) <==> Last(ops, idx).Some?)
      && (idx in Live(s) ==> Live(s)[idx] == Last(ops, idx).value)
      && (idx < |s.items| <==> idx in Live(s) || idx in s.freed)
      && !(idx in Live(s) && idx in s.freed)
  {
    assert Live(Empty<T>()) == map[];
    RunIsMapRun(Empty<T>(), ops);
    MapHoldsLast(ops, idx);
  }

  // How large it grows.

  /** The largest number of items that are live at once on the way. */
  function Peak<T>(s: Store<T>, ops: seq<Op<T>>): nat
    requires Allowed(s, ops)
    decreases |ops|
  {
    if ops == [] then |Live(s)| else Max(|Live(s)|, Peak(Do(s, ops[0]), ops[1..]))
  }

  function Max(a: nat, b: nat): nat { if a < b then b else a }

  function Below(n: nat): (r: set<nat>)
    ensures |r| == n && forall i: nat :: i in r <==> i < n
  {
    if n == 0 then {} else Below(n - 1) + {n - 1}
  }

  lemma LiveCount<T>(s: Store<T>)
    requires InRange(s)
    ensures |Live(s)| == |s.items| - |s.freed|
  {
    assert Live(s).Keys == Below(|s.items|) - s.freed;
    assert |Below(|s.items|) - s.freed| == |Below(|s.items|)| - |s.freed| by {
      assert s.freed <= Below(|s.items|);
      assert Below(|s.items|) * s.freed == s.freed;
    }
  }

  lemma {:induction false} SizeOverRun<T>(s: Store<T>, ops: seq<Op<T>>)
    requires InRange(s) && Allowed(s, ops)
    ensures |Perform(s, ops).items| == Max(|s.items|, Peak(s, ops))
    decreases |ops|
  {
    LiveCount(s);
    if ops != [] {
      var t := Do(s, ops[0]);
      StepIsMapStep(s, ops[0]);
      LiveCount(t);
      SizeOverRun(t, ops[1..]);
    }
  }

  /** The vector is as long as the number of items that were ever live at the same time. */
  lemma SizeIsPeak<T>(ops: seq<Op<T>>)
    requires Allowed(Empty(), ops)
    ensures |Perform(Empty(), ops).items| == Peak(Empty(), ops)
  {
    SizeOverRun(Empty<T>(), ops);
  }
}
