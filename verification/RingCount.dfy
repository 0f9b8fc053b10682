/** The two static fields that managers share: how many rings there are, and the ring whose
    workers a new one attaches to. Constructions and kills come one after another. */
module RingCount {
  import opened Option
  import opened Machine

  /** A manager was constructed, setting up its ring gave `ret`, and fd is that ring's; or
      the kill task of manager m completed. */
  datatype Event = Construct(ret: int, fd: nat) | KillCompletes(m: nat)

  /** `rings` maps each manager that has a live ring to its descriptor; m is the m-th constructed. */
  datatype Registry = Registry(sharedFd: int, instances: nat, rings: map<nat, nat>, made: nat)

  function InitialRegistry(): Registry { Registry(-1, 0, map[], 0) }

  predicate CanHappen(r: Registry, e: Event) { e.KillCompletes? ==> e.m in r.rings }

  /** Whether a new manager sets up a ring of its own rather than attach to the shared one. */
  predicate Initial(r: Registry) { r.sharedFd == -1 || r.instances == 0 }

  function After(r: Registry, e: Event): Registry
    requires CanHappen(r, e)
  {
    match e
    case Construct(ret, fd) =>
      if ret < 0 then r.(made := r.made + 1)
      else Registry(if Initial(r) then fd else r.sharedFd, r.instances + 1, r.rings[r.made := fd], r.made + 1)
    case KillCompletes(m) =>
      var n := Decrement(r.instances);
      r.(instances := n, rings := r.rings - {m}, sharedFd := if n == 0 then -1 else r.sharedFd)
  }

  predicate AllHappen(r: Registry, es: seq<Event>)
    decreases |es|
  {
    es == [] || (CanHappen(r, es[0]) && AllHappen(After(r, es[0]), es[1..]))
  }

  function AfterAll(r: Registry, es: seq<Event>): Registry
    requires AllHappen(r, es)
    decreases |es|
  {
    if es == [] then r else AfterAll(After(r, es[0]), es[1..])
  }

  predicate CountOk(r: Registry) {
    && r.instances == |r.rings|
    && (r.instances == 0 <==> r.sharedFd == -1) && r.sharedFd >= -1
    && forall m | m in r.rings :: m < r.made
  }

  lemma CountStep(r: Registry, e: Event)
    requires CountOk(r) && CanHappen(r, e)
    ensures CountOk(After(r, e))
    ensures e.KillCompletes? ==> After(r, e).instances == r.instances - 1 >= 0
  {
    if e.KillCompletes? {
      assert |r.rings.Keys - {e.m}| == |r.rings.Keys| - 1;
      assert (r.rings - {e.m}).Keys == r.rings.Keys - {e.m};
    }
  }

  /** After any constructions, failed ones too, and kills, the count is that of the live
      rings, and it is zero exactly when there is no ring to attach to. */
  lemma {:induction false} CountRun(r: Registry, es: seq<Event>)
    requires CountOk(r) && AllHappen(r, es)
    ensures CountOk(AfterAll(r, es))
    decreases |es|
  {
    if es != [] {
      CountStep(r, es[0]);
      CountRun(After(r, es[0]), es[1..]);
    }
  }

  /** A failed construction changes neither field, and its manager is in nobody's count. */
  lemma FailureCountsNothing(r: Registry, ret: int, fd: nat)
    requires CountOk(r)
    ensures var t := After(r, Construct(ret, fd));
      (t.instances == r.instances <==> ret < 0) && (ret < 0 ==> t.sharedFd == r.sharedFd && t.rings == r.rings)
  {
  }

  // Which rings there are.

  /** The constructions among the events, in order. */
  function Constructions(es: seq<Event>): (made: seq<Event>)
    ensures forall i | 0 <= i < |made| :: made[i].Construct?
  {
    if es == [] then []
    else (if es[0].Construct? then [es[0]] else []) + Constructions(es[1..])
  }

  /** From the registry r on these events leave manager m a ring: it had one, or was constructed
      with success, and its kill has not completed. */
  predicate HasRing(r: Registry, es: seq<Event>, m: nat) {
    var made := Constructions(es);
    KillCompletes(m) !in es && (m in r.rings || (r.made <= m < r.made + |made| && Makes(made[m - r.made])))
  }

  /** The descriptor of the ring it had, or was constructed with. */
  function RingFd(r: Registry, es: seq<Event>, m: nat): nat
    requires HasRing(r, es, m)
  {
    if m in r.rings then r.rings[m] else Constructions(es)[m - r.made].fd
  }

  lemma HasRingFirst(r: Registry, es: seq<Event>, m: nat)
    requires CountOk(r) && es != [] && CanHappen(r, es[0])
    ensures HasRing(r, es, m) <==> HasRing(After(r, es[0]), es[1..], m)
    ensures HasRing(r, es, m) ==> RingFd(r, es, m) == RingFd(After(r, es[0]), es[1..], m)
  {
    assert es == [es[0]] + es[1..];
    match es[0]
    case Construct(ret, fd) =>
      assert Constructions(es) == [es[0]] + Constructions(es[1..]);
    case KillCompletes(n) => assert Constructions(es) == Constructions(es[1..]);
  }

  lemma {:induction false} RingsRun(r: Registry, es: seq<Event>, m: nat)
    requires CountOk(r) && AllHappen(r, es)
    ensures m in AfterAll(r, es).rings <==> HasRing(r, es, m)
    ensures HasRing(r, es, m) ==> AfterAll(r, es).rings[m] == RingFd(r, es, m)
    decreases |es|
  {
    if es != [] {
      CountStep(r, es[0]);
      HasRingFirst(r, es, m);
      RingsRun(After(r, es[0]), es[1..], m);
    }
  }

  /** The live rings are those of the managers constructed with success whose kill has not
      completed, each with the descriptor that it was given. */
  lemma LiveRings(es: seq<Event>, m: nat)
    requires AllHappen(InitialRegistry(), es)
    ensures var r, made := AfterAll(InitialRegistry(), es), Constructions(es);
      && (m in r.rings <==> m < |made| && made[m].ret >= 0 && KillCompletes(m) !in es)
      && (m in r.rings ==> r.rings[m] == made[m].fd)
  {
    RingsRun(InitialRegistry(), es, m);
  }

  // Whose the shared descriptor is.

  predicate Makes(e: Event) { e.Construct? && e.ret >= 0 }

  function NextSetter(r: Registry, e: Event, now: Option<nat>): Option<nat> {
    if Makes(e) && r.rings == map[] then Some(r.made) else now
  }

  /** The manager that last set the shared descriptor: constructed while there was no ring. */
  function Setter(r: Registry, es: seq<Event>, now: Option<nat>): Option<nat>
    requires AllHappen(r, es)
    decreases |es|
  {
    if es == [] then now else Setter(After(r, es[0]), es[1..], NextSetter(r, es[0], now))
  }

  function NextReusers(r: Registry, e: Event, now: set<nat>): set<nat> {
    if !Makes(e) then now
    else if r.rings == map[] then {}
    else if e.fd == r.sharedFd then now + {r.made} else now
  }

  /** The managers that were given the setter's descriptor number again, by rings made while
      another one lived. */
  function Reusers(r: Registry, es: seq<Event>, now: set<nat>): set<nat>
    requires AllHappen(r, es)
    decreases |es|
  {
    if es == [] then now else Reusers(After(r, es[0]), es[1..], NextReusers(r, es[0], now))
  }

  /** The live rings with the shared number are those of the setter and of the reusers. */
  predicate SharedOk(r: Registry, setter: Option<nat>, reusers: set<nat>) {
    r.instances > 0 ==>
      && setter.Some? && setter.value < r.made && r.sharedFd >= 0
      && (forall m | m in reusers :: m < r.made)
      && forall m | m in r.rings :: r.rings[m] == r.sharedFd <==> m == setter.value || m in reusers
  }

  lemma SharedStep(r: Registry, e: Event, setter: Option<nat>, reusers: set<nat>)
    requires CountOk(r) && CanHappen(r, e) && SharedOk(r, setter, reusers)
    ensures SharedOk(After(r, e), NextSetter(r, e, setter), NextReusers(r, e, reusers))
  {
    assert r.instances == 0 ==> r.rings == map[];
    if e.KillCompletes? { CountStep(r, e); }
  }

  lemma {:induction false} SharedRun(r: Registry, es: seq<Event>, setter: Option<nat>, reusers: set<nat>)
    requires CountOk(r) && AllHappen(r, es) && SharedOk(r, setter, reusers)
    ensures SharedOk(AfterAll(r, es), Setter(r, es, setter), Reusers(r, es, reusers))
    decreases |es|
  {
    if es != [] {
      var e := es[0];
      CountStep(r, e);
      SharedStep(r, e, setter, reusers);
      SharedRun(After(r, e), es[1..], NextSetter(r, e, setter), NextReusers(r, e, reusers));
    }
  }

  /** With a ring alive, the shared descriptor is that of a live one exactly if the manager
      that set it has not completed its kill, or a ring made while another one lived happens to
      have been given the same number and is alive. */
  lemma SharedIsLiveIff(es: seq<Event>)
    requires AllHappen(InitialRegistry(), es) && AfterAll(InitialRegistry(), es).rings != map[]
    ensures var r, setter := AfterAll(InitialRegistry(), es), Setter(InitialRegistry(), es, None);
      && setter.Some?
      && ((exists m :: m in r.rings && r.rings[m] == r.sharedFd) <==>
          setter.value in r.rings || exists m :: m in Reusers(InitialRegistry(), es, {}) && m in r.rings)
  {
    CountRun(InitialRegistry(), es);
    SharedRun(InitialRegistry(), es, None, {});
    var r := AfterAll(InitialRegistry(), es);
    assert r.instances == |r.rings| != 0 by {
      var m :| m in r.rings;
      assert m in r.rings.Keys;
    }
  }

  /** No ring made while another one lives gets the number of the shared descriptor. */
  predicate NotReused(r: Registry, es: seq<Event>)
    requires AllHappen(r, es)
    decreases |es|
  {
    es == [] ||
    ((Makes(es[0]) && r.rings != map[] ==> es[0].fd != r.sharedFd) && NotReused(After(r, es[0]), es[1..]))
  }

  lemma {:induction false} NobodyReuses(r: Registry, es: seq<Event>)
    requires AllHappen(r, es)
    ensures NotReused(r, es) ==> Reusers(r, es, {}) == {}
    decreases |es|
  {
    if es != [] { NobodyReuses(After(r, es[0]), es[1..]); }
  }

  /** Where that does not happen, only the setter's life counts. */
  lemma SharedIsSettersIff(es: seq<Event>)
    requires AllHappen(InitialRegistry(), es) && AfterAll(InitialRegistry(), es).rings != map[]
    requires NotReused(InitialRegistry(), es)
    ensures var r, setter := AfterAll(InitialRegistry(), es), Setter(InitialRegistry(), es, None);
      && setter.Some? && ((exists m :: m in r.rings && r.rings[m] == r.sharedFd) <==> setter.value in r.rings)
  {
    SharedIsLiveIff(es);
    NobodyReuses(InitialRegistry(), es);
  }

  /** The shared descriptor outlives its ring: the first manager's remains in use after that
      manager is gone, as long as another one lives. */
  lemma SharedOutlivesItsRing(fd: nat, other: nat)
    ensures var es := [Construct(0, fd), Construct(0, other), KillCompletes(0)];
      && AllHappen(InitialRegistry(), es)
      && AfterAll(InitialRegistry(), es).sharedFd == fd
      && AfterAll(InitialRegistry(), es).rings == map[1 := other]
  {
    var es := [Construct(0, fd), Construct(0, other), KillCompletes(0)];
    var r1 := After(InitialRegistry(), es[0]);
    var r2 := After(r1, es[1]);
    var r3 := After(r2, es[2]);
    assert es[1..] == [es[1], es[2]] && es[1..][1..] == [es[2]] && es[1..][1..][1..] == [];
    assert r2.rings == map[0 := fd, 1 := other];
    assert AllHappen(r2, [es[2]]) && AfterAll(r2, [es[2]]) == r3;
    assert AllHappen(r1, es[1..]) && AfterAll(r1, es[1..]) == r3;
  }

  /** And it may become a live ring's again by chance: the next ring made gets its number. */
  lemma SharedIsReused(fd: nat, other: nat)
    ensures var es := [Construct(0, fd), Construct(0, other), KillCompletes(0), Construct(0, fd)];
      && AllHappen(InitialRegistry(), es)
      && AfterAll(InitialRegistry(), es).sharedFd == fd
      && AfterAll(InitialRegistry(), es).rings == map[1 := other, 2 := fd]
  {
    var es := [Construct(0, fd), Construct(0, other), KillCompletes(0), Construct(0, fd)];
    var r1 := After(InitialRegistry(), es[0]);
    var r2 := After(r1, es[1]);
    var r3 := After(r2, es[2]);
    var r4 := After(r3, es[3]);
    assert r2.rings == map[0 := fd, 1 := other];
    assert r3.rings == map[1 := other];
    assert AllHappen(r3, [es[3]]) && AfterAll(r3, [es[3]]) == r4;
    assert es[2..][1..] == [es[3]];
    assert AllHappen(r2, es[2..]) && AfterAll(r2, es[2..]) == r4;
    assert es[1..][1..] == es[2..];
    assert AllHappen(r1, es[1..]) && AfterAll(r1, es[1..]) == r4;
  }

  /** The fields themselves. */
  class Rings {
    var sharedRingFd: int
    var ringInstances: nat
    ghost var rings: map<nat, nat>
    ghost var made: nat

    ghost function View(): Registry
      reads this
    {
      Registry(sharedRingFd, ringInstances, rings, made)
    }

    constructor ()
      ensures View() == InitialRegistry()
    {
      sharedRingFd, ringInstances, rings, made := -1, 0, map[], 0;
    }

    /** The manager's constructor; a manager without a ring is dead from the start. */
    method ConstructManager(ret: int, fd: nat) returns (life: Life)
      modifies this
      ensures View() == After(old(View()), Construct(ret, fd))
      ensures life == if ret < 0 then Dead else NotStarted
    {
      ghost var m := made;
      made := made + 1;
      if sharedRingFd == -1 || ringInstances == 0 {
        if ret < 0 { return Dead; }
        sharedRingFd := fd;
      } else {
        if ret < 0 { return Dead; }
      }
      ringInstances := ringInstances + 1;
      rings := rings[m := fd];
      return NotStarted;
    }

    /** The end of `kill_internal`. */
    method CompleteKill(ghost m: nat)
      requires CanHappen(View(), KillCompletes(m))
      modifies this
      ensures View() == After(old(View()), KillCompletes(m))
    {
      rings := rings - {m};
      ringInstances := Decrement(ringInstances);
      if ringInstances == 0 { sharedRingFd := -1; }
    }
  }
}
