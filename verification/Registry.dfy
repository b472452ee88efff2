/**
 * The fake-JNI object registry: a small collector with pins, a grace time, a protected startup
 * prefix, swap-remove and in-place compaction.
 */
module Registry {

  datatype Kind = Object | Array | Bytes

  datatype Ent = Ent(p: nat, kind: Kind, t: int, pin: int)

  /** Memory beyond the entries; never read before it is written. */
  const BLANK := Ent(0, Object, 0, 0)

  /**
   * The table with its capacity, how many entries are in use, the startup prefix, the newest byte
   * array, the pointers freed so far, and the objects that could not be registered.
   */
  datatype State = State(tab: seq<Ent>, n: nat, keep: nat, lastBytes: nat, freed: seq<nat>, missed: seq<nat>) {
    ghost predicate Fits() { n <= |tab| && keep <= |tab| }
  }

  /** What the environment does: `memory` tells whether an allocation the call needs succeeds. */
  datatype Op =
    | Register(p: nat, kind: Kind, now: int, memory: bool)
    | Pin(p: nat, delta: int)
    | Release(p: nat)
    | Sweep(now: int, memory: bool)

  /** Grace time and whether collection is off. */
  datatype Config = Config(grace: int, off: bool)

  /** The first entry for `p`, or |es|. */
  function Index(es: seq<Ent>, p: nat): (i: nat)
    ensures i <= |es| && (i < |es| ==> es[i].p == p)
    ensures forall k :: 0 <= k < i ==> es[k].p != p
  {
    if es == [] || es[0].p == p then 0 else 1 + Index(es[1..], p)
  }

  predicate Expired(e: Ent, now: int, grace: int) { e.pin == 0 && now - e.t >= grace }

  function Staying(es: seq<Ent>, now: int, grace: int): (r: seq<Ent>)
    ensures |r| <= |es|
  {
    if es == [] then []
    else Staying(es[..|es| - 1], now, grace) + if Expired(es[|es| - 1], now, grace) then [] else [es[|es| - 1]]
  }

  function Dead(es: seq<Ent>, now: int, grace: int): (r: seq<Ent>)
    ensures |r| + |Staying(es, now, grace)| == |es|
  {
    if es == [] then []
    else Dead(es[..|es| - 1], now, grace) + if Expired(es[|es| - 1], now, grace) then [es[|es| - 1]] else []
  }

  function Pointers(es: seq<Ent>): seq<nat> { seq(|es|, k requires 0 <= k < |es| => es[k].p) }

  /** reg_free_obj over a list, in order. */
  function FreeAll(s: State, es: seq<Ent>): State {
    s.(freed := s.freed + Pointers(es), lastBytes := if exists e :: e in es && e.kind == Bytes && e.p == s.lastBytes then 0 else s.lastBytes)
  }

  function Pinned(pin: int, delta: int): int { if pin + delta < 0 then 0 else pin + delta }

  function Step(c: Config, s: State, op: Op): (r: State)
    requires s.Fits()
    ensures r.Fits() && r.keep == s.keep
  {
    match op
    case Register(p, kind, now, memory) =>
      if p == 0 then s
      else
        var s := if kind == Bytes then s.(lastBytes := p) else s;
        if s.n == |s.tab| && !memory then s.(missed := s.missed + [p])
        else s.(tab := Grown(s.tab, s.n)[s.n := Ent(p, kind, now, 0)], n := s.n + 1)
    case Pin(p, delta) =>
      var i := Index(s.tab[..s.n], p);
      if p == 0 || i == s.n then s
      else s.(tab := s.tab[i := s.tab[i].(pin := Pinned(s.tab[i].pin, delta))])
    case Release(p) =>
      var i := Index(s.tab[..s.n], p);
      if p == 0 || i == s.n || s.tab[i].pin != 0 then s
      else FreeAll(s.(tab := s.tab[i := s.tab[s.n - 1]], n := s.n - 1), [s.tab[i]])
    case Sweep(now, memory) =>
      if c.off || !memory then s
      else
        var es := if s.keep <= s.n then s.tab[s.keep..s.n] else [];
        var kept := Staying(es, now, c.grace);
        FreeAll(s.(tab := s.tab[..s.keep] + kept + s.tab[s.keep + |kept|..], n := s.keep + |kept|), Dead(es, now, c.grace))
  }

  /** Room for one more: the capacity starts at 4096 and doubles. */
  function Grown(tab: seq<Ent>, n: nat): (r: seq<Ent>)
    requires n <= |tab|
    ensures |r| > n && |r| >= |tab| && r[..|tab|] == tab
  {
    if n < |tab| then tab
    else tab + seq(if |tab| == 0 then 4096 else |tab|, _ => BLANK)
  }

  predicate Distinct(es: seq<Ent>) {
    forall i, j :: 0 <= i < j < |es| ==> es[i].p != es[j].p
  }

  /**
   * No two entries share a pointer, no pin count is negative, the startup prefix is there; every
   * object registered is exactly one of: in the table, freed, missed; the newest byte array is
   * not freed.
   */
  ghost predicate Sound(s: State, registered: multiset<nat>) {
    && s.keep <= s.n <= |s.tab|
    && Distinct(s.tab[..s.n])
    && (forall i :: 0 <= i < s.n ==> s.tab[i].pin >= 0 && s.tab[i].p > 0)
    && Conserved(s, registered)
    && LastIsLive(s)
  }

  ghost predicate Conserved(s: State, registered: multiset<nat>)
    requires s.Fits()
  {
    multiset(Pointers(s.tab[..s.n])) + multiset(s.freed) + multiset(s.missed) == registered
  }

  predicate LastIsLive(s: State)
    requires s.n <= |s.tab|
  {
    s.lastBytes == 0 || s.lastBytes in s.missed || exists i :: 0 <= i < s.n && s.tab[i].p == s.lastBytes && s.tab[i].kind == Bytes
  }

  /**
   * What the environment keeps to: it registers objects it has just allocated, so not ones still
   * live, and releases objects registered after startup.
   */
  predicate Admissible(s: State, op: Op)
    requires s.Fits()
  {
    match op
    case Register(p, _, _, _) => p !in Pointers(s.tab[..s.n]) && p !in s.missed
    case Release(p) => Releasable(s, p)
    case Pin(_, _) => true
    case Sweep(_, _) => true
  }

  /** `p` is not an unpinned object of the startup prefix. */
  predicate Releasable(s: State, p: nat)
    requires s.Fits()
  {
    var i := Index(s.tab[..s.n], p);
    p == 0 || i == s.n || s.tab[i].pin != 0 || i >= s.keep
  }

  function Registered(op: Op): multiset<nat> {
    if op.Register? && op.p != 0 then multiset{op.p} else multiset{}
  }

  function Protected(s: State): seq<nat>
    requires s.Fits()
  {
    Pointers(s.tab[..s.keep])
  }

  lemma PointersJoin(a: seq<Ent>, b: seq<Ent>)
    ensures Pointers(a + b) == Pointers(a) + Pointers(b)
  {
  }

  /** Kept and Dead part the entries. */
  lemma {:induction false} SweepParts(es: seq<Ent>, now: int, grace: int)
    ensures multiset(Pointers(Staying(es, now, grace))) + multiset(Pointers(Dead(es, now, grace))) == multiset(Pointers(es))
  {
    if es != [] {
      hide Expired, Pointers;
      var init, last := es[..|es| - 1], es[|es| - 1];
      assert es == init + [last];
      SweepParts(init, now, grace);
      PointersJoin(init, [last]);
      PointersJoin(Dead(init, now, grace), [last]);
      PointersJoin(Staying(init, now, grace), [last]);
      assert Staying(init, now, grace) + [] == Staying(init, now, grace);
      assert Dead(init, now, grace) + [] == Dead(init, now, grace);
    }
  }

  /** What stays and what goes. */
  lemma {:induction false} SweepSorts(es: seq<Ent>, now: int, grace: int, e: Ent)
    ensures e in Staying(es, now, grace) <==> e in es && !Expired(e, now, grace)
    ensures e in Dead(es, now, grace) <==> e in es && Expired(e, now, grace)
  {
    if es != [] {
      hide Expired;
      var init, last := es[..|es| - 1], es[|es| - 1];
      assert es == init + [last];
      SweepSorts(init, now, grace, e);
    }
  }

  /** Entries that stay keep their order, and stay distinct. */
  lemma {:induction false} KeptIsDistinct(es: seq<Ent>, now: int, grace: int)
    requires Distinct(es)
    ensures Distinct(Staying(es, now, grace))
  {
    if es != [] {
      KeptIsDistinct(es[..|es| - 1], now, grace);
      forall e | e in Staying(es[..|es| - 1], now, grace) ensures e.p != es[|es| - 1].p {
        SweepSorts(es[..|es| - 1], now, grace, e);
        var i :| 0 <= i < |es| - 1 && es[i] == e;
      }
    }
  }

  lemma {:induction false} RegisterIsSound(c: Config, s: State, registered: multiset<nat>, op: Op)
    requires Sound(s, registered) && op.Register? && Admissible(s, op)
    ensures Sound(Step(c, s, op), registered + Registered(op)) && Protected(Step(c, s, op)) == Protected(s)
  {
    var r := Step(c, s, op);
    if op.p != 0 && s.n == |s.tab| && !op.memory {
      assert multiset(r.missed) == multiset(s.missed) + multiset{op.p};
    } else if op.p != 0 {
      AddedIsSound(s, r, registered, Ent(op.p, op.kind, op.now, 0));
    }
  }

  lemma AddedIsSound(s: State, r: State, registered: multiset<nat>, e: Ent)
    requires Sound(s, registered) && e.p > 0 && e.p !in Pointers(s.tab[..s.n]) && e.pin == 0
    requires r == s.(tab := Grown(s.tab, s.n)[s.n := e], n := s.n + 1, lastBytes := if e.kind == Bytes then e.p else s.lastBytes)
    ensures Sound(r, registered + multiset{e.p}) && Protected(r) == Protected(s)
  {
    hide LastIsLive, Pointers, Grown, Distinct, Conserved;
    AddedTable(s.tab, s.n, e);
    AddedIsConserved(s, r, registered, e);
    AddedIsDistinct(s.tab[..s.n], e);
    LastRegistered(s, r, e);
    assert forall i :: 0 <= i < s.n ==> r.tab[i] == s.tab[i];
    assert r.tab[..s.keep] == s.tab[..s.keep];
  }

  lemma AddedTable(tab: seq<Ent>, n: nat, e: Ent)
    requires n <= |tab|
    ensures var r := Grown(tab, n)[n := e];
            r[..n + 1] == tab[..n] + [e] && r[n] == e && forall i :: 0 <= i < n ==> r[i] == tab[i]
  {
  }

  lemma AddedIsConserved(s: State, r: State, registered: multiset<nat>, e: Ent)
    requires s.Fits() && r.Fits() && r.n == s.n + 1 && r.tab[..r.n] == s.tab[..s.n] + [e] && r.freed == s.freed && r.missed == s.missed
    requires Conserved(s, registered)
    ensures Conserved(r, registered + multiset{e.p})
  {
    PointersJoin(s.tab[..s.n], [e]);
    OnePointer(e);
  }

  lemma AddedIsDistinct(es: seq<Ent>, e: Ent)
    requires Distinct(es) && e.p !in Pointers(es)
    ensures Distinct(es + [e])
  {
    forall i | 0 <= i < |es| ensures es[i].p != e.p {
      assert Pointers(es)[i] == es[i].p;
    }
  }

  lemma LastRegistered(s: State, r: State, e: Ent)
    requires s.n <= |s.tab| && r.n == s.n + 1 <= |r.tab| && r.tab[..r.n] == s.tab[..s.n] + [e] && r.missed == s.missed
    requires LastIsLive(s) && r.lastBytes == if e.kind == Bytes then e.p else s.lastBytes
    ensures LastIsLive(r)
  {
    assert r.tab[..r.n][s.n] == r.tab[s.n];
    if e.kind != Bytes && s.lastBytes != 0 && s.lastBytes !in s.missed {
      var i :| 0 <= i < s.n && s.tab[i].p == s.lastBytes && s.tab[i].kind == Bytes;
      assert r.tab[..r.n][i] == r.tab[i] && s.tab[..s.n][i] == s.tab[i];
    }
  }

  lemma {:induction false} PinIsSound(c: Config, s: State, registered: multiset<nat>, op: Op)
    requires Sound(s, registered) && op.Pin?
    ensures Sound(Step(c, s, op), registered) && Protected(Step(c, s, op)) == Protected(s)
  {
    var r := Step(c, s, op);
    assert Pointers(r.tab[..r.n]) == Pointers(s.tab[..s.n]);
    assert Pointers(r.tab[..s.keep]) == Pointers(s.tab[..s.keep]);
    forall i | 0 <= i < s.n ensures r.tab[i].p == s.tab[i].p && r.tab[i].kind == s.tab[i].kind {}
  }

  lemma {:induction false} ReleaseIsSound(c: Config, s: State, registered: multiset<nat>, op: Op)
    requires Sound(s, registered) && op.Release? && Releasable(s, op.p)
    ensures Sound(Step(c, s, op), registered) && Protected(Step(c, s, op)) == Protected(s)
  {
    var r := Step(c, s, op);
    var i := Index(s.tab[..s.n], op.p);
    if op.p != 0 && i < s.n && s.tab[i].pin == 0 {
      ReleasedIsSound(s, r, registered, i);
    }
  }

  lemma ReleasedIsSound(s: State, r: State, registered: multiset<nat>, i: nat)
    requires Sound(s, registered) && s.keep <= i < s.n
    requires r == FreeAll(s.(tab := s.tab[i := s.tab[s.n - 1]], n := s.n - 1), [s.tab[i]])
    ensures Sound(r, registered) && Protected(r) == Protected(s)
  {
    hide LastIsLive, Pointers, Distinct;
    var es := s.tab[..s.n];
    SwapRemovedIsDistinct(es, i);
    assert r.tab[..s.keep] == s.tab[..s.keep];
    assert r.tab[..r.n] == es[i := es[s.n - 1]][..s.n - 1];
    SwapRemoved(es, i);
    OnePointer(s.tab[i]);
    ReleasedLast(s, r, i);
  }

  lemma SwapRemovedIsDistinct(es: seq<Ent>, i: nat)
    requires i < |es| && Distinct(es)
    ensures Distinct(es[i := es[|es| - 1]][..|es| - 1])
  {
  }

  lemma OnePointer(e: Ent)
    ensures Pointers([e]) == [e.p]
  {
  }

  lemma ReleasedLast(s: State, r: State, i: nat)
    requires 0 <= i < s.n <= |s.tab| && r.n == s.n - 1 && r.tab == s.tab[i := s.tab[s.n - 1]] && r.missed == s.missed
    requires LastIsLive(s)
    requires r.lastBytes == if exists e :: e in [s.tab[i]] && e.kind == Bytes && e.p == s.lastBytes then 0 else s.lastBytes
    ensures LastIsLive(r)
  {
    if r.lastBytes != 0 && r.lastBytes !in r.missed {
      var k :| 0 <= k < s.n && s.tab[k].p == s.lastBytes && s.tab[k].kind == Bytes;
      assert s.tab[i] in [s.tab[i]];
      assert k != i;
      assert if k == s.n - 1 then r.tab[i] == s.tab[k] else r.tab[k] == s.tab[k];
    }
  }

  /** Filling a hole with the last entry loses the one entry removed. */
  lemma SwapRemoved(es: seq<Ent>, i: nat)
    requires i < |es|
    ensures multiset(Pointers(es[i := es[|es| - 1]][..|es| - 1])) + multiset{es[i].p} == multiset(Pointers(es))
  {
    var ps, last := Pointers(es), |es| - 1;
    var rest := Pointers(es[i := es[last]][..last]);
    assert ps == ps[..last] + [ps[last]];
    if i == last {
      assert rest == ps[..last];
    } else {
      assert rest == ps[..i] + [ps[last]] + ps[i + 1..last];
      assert ps == ps[..i] + [ps[i]] + ps[i + 1..last] + [ps[last]];
    }
  }

  lemma {:induction false} SweepIsSound(c: Config, s: State, registered: multiset<nat>, op: Op)
    requires Sound(s, registered) && op.Sweep?
    ensures Sound(Step(c, s, op), registered) && Protected(Step(c, s, op)) == Protected(s)
  {
    if !c.off && op.memory {
      SweptIsSound(s, Step(c, s, op), registered, op.now, c.grace);
    }
  }

  lemma SweptIsSound(s: State, r: State, registered: multiset<nat>, now: int, grace: int)
    requires Sound(s, registered)
    requires var es := s.tab[s.keep..s.n]; var kept := Staying(es, now, grace);
             r == FreeAll(s.(tab := s.tab[..s.keep] + kept + s.tab[s.keep + |kept|..], n := s.keep + |kept|), Dead(es, now, grace))
    ensures Sound(r, registered) && Protected(r) == Protected(s)
  {
    hide LastIsLive, Pointers, Distinct, Staying, Dead, Expired;
    var front, es := s.tab[..s.keep], s.tab[s.keep..s.n];
    var kept := Staying(es, now, grace);
    assert s.tab[..s.n] == front + es && r.tab[..r.n] == front + kept && r.tab[..s.keep] == front;
    SweepParts(es, now, grace);
    PointersJoin(front, es);
    PointersJoin(front, kept);
    PartIsDistinct(front, es);
    KeptIsDistinct(es, now, grace);
    forall e | e in kept ensures e in es { SweepSorts(es, now, grace, e); }
    SweptIsDistinct(front, es, kept);
    SweptIsOrderly(s, r, front, es, kept);
    SweptLast(s, r, es, now, grace);
  }

  lemma PartIsDistinct(front: seq<Ent>, es: seq<Ent>)
    requires Distinct(front + es)
    ensures Distinct(es)
  {
    assert forall i :: 0 <= i < |es| ==> es[i] == (front + es)[|front| + i];
  }

  lemma SweptIsDistinct(front: seq<Ent>, es: seq<Ent>, kept: seq<Ent>)
    requires Distinct(front + es) && Distinct(kept) && forall e :: e in kept ==> e in es
    ensures Distinct(front + kept)
  {
    forall i, j | 0 <= i < j < |front + kept| ensures (front + kept)[i].p != (front + kept)[j].p {
      if i < |front| <= j {
        assert kept[j - |front|] in es;
        var k :| 0 <= k < |es| && es[k] == kept[j - |front|];
        assert (front + es)[|front| + k] == es[k] && (front + es)[i] == front[i];
      } else if j < |front| {
        assert (front + es)[i] == front[i] && (front + es)[j] == front[j];
      }
    }
  }

  lemma SweptIsOrderly(s: State, r: State, front: seq<Ent>, es: seq<Ent>, kept: seq<Ent>)
    requires s.n <= |s.tab| && r.n <= |r.tab| && s.tab[..s.n] == front + es && r.tab[..r.n] == front + kept
    requires forall e :: e in kept ==> e in es
    requires forall i :: 0 <= i < s.n ==> s.tab[i].pin >= 0 && s.tab[i].p > 0
    ensures forall i :: 0 <= i < r.n ==> r.tab[i].pin >= 0 && r.tab[i].p > 0
  {
    forall e | e in s.tab[..s.n] ensures e.pin >= 0 && e.p > 0 {}
    forall i | 0 <= i < r.n ensures r.tab[i] in s.tab[..s.n] {
      assert r.tab[i] == (front + kept)[i];
      assert r.tab[i] in front || r.tab[i] in kept;
    }
  }

  lemma SweptLast(s: State, r: State, es: seq<Ent>, now: int, grace: int)
    requires s.keep <= s.n <= |s.tab| && es == s.tab[s.keep..s.n] && LastIsLive(s) && r.missed == s.missed
    requires r.n <= |r.tab| && r.tab[..r.n] == s.tab[..s.keep] + Staying(es, now, grace)
    requires r.lastBytes == if exists e :: e in Dead(es, now, grace) && e.kind == Bytes && e.p == s.lastBytes then 0 else s.lastBytes
    ensures LastIsLive(r)
  {
    if r.lastBytes != 0 && r.lastBytes !in r.missed {
      var k :| 0 <= k < s.n && s.tab[k].p == s.lastBytes && s.tab[k].kind == Bytes;
      Survives(s, k, now, grace);
      var j :| 0 <= j < r.n && r.tab[..r.n][j] == s.tab[k];
      assert r.tab[j] == s.tab[k];
    }
  }

  /** An entry not dropped is still there. */
  lemma Survives(s: State, k: nat, now: int, grace: int)
    requires s.keep <= s.n <= |s.tab| && k < s.n && s.tab[k] !in Dead(s.tab[s.keep..s.n], now, grace)
    ensures s.tab[k] in s.tab[..s.keep] + Staying(s.tab[s.keep..s.n], now, grace)
  {
    hide Staying, Dead, Expired;
    SweepSorts(s.tab[s.keep..s.n], now, grace, s.tab[k]);
    if k < s.keep {
      assert s.tab[..s.keep][k] == s.tab[k];
    } else {
      assert s.tab[s.keep..s.n][k - s.keep] == s.tab[k];
    }
  }

  lemma {:induction false} StepIsSound(c: Config, s: State, registered: multiset<nat>, op: Op)
    requires Sound(s, registered) && Admissible(s, op)
    ensures Sound(Step(c, s, op), registered + Registered(op)) && Protected(Step(c, s, op)) == Protected(s)
  {
    match op {
      case Register(_, _, _, _) => RegisterIsSound(c, s, registered, op);
      case Pin(_, _) => PinIsSound(c, s, registered, op);
      case Release(_) => ReleaseIsSound(c, s, registered, op);
      case Sweep(_, _) => SweepIsSound(c, s, registered, op);
    }
  }

  ghost function Run(c: Config, s: State, ops: seq<Op>): (r: State)
    requires s.Fits()
    ensures r.Fits() && r.keep == s.keep
    decreases ops
  {
    if ops == [] then s else Run(c, Step(c, s, ops[0]), ops[1..])
  }

  ghost predicate AllAdmissible(c: Config, s: State, ops: seq<Op>)
    requires s.Fits()
    decreases ops
  {
    ops == [] || (Admissible(s, ops[0]) && AllAdmissible(c, Step(c, s, ops[0]), ops[1..]))
  }

  function RegisteredIn(ops: seq<Op>): multiset<nat> {
    if ops == [] then multiset{} else Registered(ops[0]) + RegisteredIn(ops[1..])
  }

  /**
   * Over every history the table stays sound, the startup prefix stays, and no object is freed
   * more often than it was registered, nor while it is still in the table.
   */
  lemma {:induction false} EveryHistoryIsSound(c: Config, s: State, registered: multiset<nat>, ops: seq<Op>)
    requires Sound(s, registered) && AllAdmissible(c, s, ops)
    ensures var r := Run(c, s, ops);
            && Sound(r, registered + RegisteredIn(ops)) && Protected(r) == Protected(s)
            && (forall p :: multiset(r.freed)[p] <= (registered + RegisteredIn(ops))[p])
            && (forall i :: 0 <= i < r.n ==> multiset(r.freed)[r.tab[i].p] < (registered + RegisteredIn(ops))[r.tab[i].p])
    decreases ops
  {
    if ops == [] {
      FreedWithinRegistered(s, registered);
      assert registered + multiset{} == registered;
    } else {
      StepIsSound(c, s, registered, ops[0]);
      EveryHistoryIsSound(c, Step(c, s, ops[0]), registered + Registered(ops[0]), ops[1..]);
      assert registered + Registered(ops[0]) + RegisteredIn(ops[1..]) == registered + RegisteredIn(ops);
    }
  }

  /**
   * What is registered when the daemon starts stays for its whole life, in place, whatever was
   * registered, pinned, released and swept before and after.
   */
  lemma {:induction false} StartupIsKept(c: Config, s: State, registered: multiset<nat>, before: seq<Op>, after: seq<Op>)
    requires Sound(s, registered) && AllAdmissible(c, s, before)
    requires var m := Run(c, s, before); AllAdmissible(c, m.(keep := m.n), after)
    ensures var m := Run(c, s, before); var r := Run(c, m.(keep := m.n), after);
            && Sound(r, registered + RegisteredIn(before) + RegisteredIn(after))
            && m.n <= r.n && Pointers(r.tab[..m.n]) == Pointers(m.tab[..m.n])
  {
    EveryHistoryIsSound(c, s, registered, before);
    var m := Run(c, s, before);
    EveryHistoryIsSound(c, m.(keep := m.n), registered + RegisteredIn(before), after);
  }

  // ---------------------------------------------------------------- the grace time

  /** `p` is in the table since `t`. */
  ghost predicate BornAt(s: State, p: nat, t: int)
    requires s.Fits()
  {
    exists i :: 0 <= i < s.n && s.tab[i].p == p && s.tab[i].t == t
  }

  /** A registered object is in the table with the time of its registration, unpinned, unless memory ran out. */
  lemma RegisterStamps(c: Config, s: State, p: nat, kind: Kind, now: int, memory: bool)
    requires s.n <= |s.tab| && s.Fits() && p != 0
    ensures var r := Step(c, s, Register(p, kind, now, memory));
            if s.n < |s.tab| || memory then BornAt(r, p, now) && PinnedAt(r, p, 0) && r.missed == s.missed
            else r.missed == s.missed + [p] && r.tab == s.tab && r.n == s.n
  {
    hide Grown;
    var r := Step(c, s, Register(p, kind, now, memory));
    if s.n < |s.tab| || memory {
      assert r.tab[s.n] == Ent(p, kind, now, 0);
    }
  }

  /** Neither released nor swept after its grace time. */
  predicate Spares(c: Config, op: Op, p: nat, t: int) {
    (op.Release? ==> op.p != p) && (op.Sweep? ==> op.now - t < c.grace)
  }

  /**
   * A young object stays: over any admissible history without a release of it and with no sweep later
   * than the grace time after its registration, it is in the table and not freed.
   */
  lemma {:induction false} YoungStays(c: Config, s: State, registered: multiset<nat>, ops: seq<Op>, p: nat, t: int)
    requires Sound(s, registered) && AllAdmissible(c, s, ops) && BornAt(s, p, t)
    requires forall k :: 0 <= k < |ops| ==> Spares(c, ops[k], p, t)
    ensures BornAt(Run(c, s, ops), p, t) && multiset(Run(c, s, ops).freed)[p] == multiset(s.freed)[p]
    decreases ops
  {
    hide Step, Conserved, LastIsLive, Distinct, Admissible, BornAt;
    if ops != [] {
      StepIsSound(c, s, registered, ops[0]);
      YoungStep(c, s, registered, ops[0], p, t);
      YoungStays(c, Step(c, s, ops[0]), registered + Registered(ops[0]), ops[1..], p, t);
    }
  }

  lemma YoungStep(c: Config, s: State, registered: multiset<nat>, op: Op, p: nat, t: int)
    requires Sound(s, registered) && Admissible(s, op) && BornAt(s, p, t) && Spares(c, op, p, t)
    ensures BornAt(Step(c, s, op), p, t) && multiset(Step(c, s, op).freed)[p] == multiset(s.freed)[p]
  {
    hide Conserved, LastIsLive, Staying, Dead, Grown;
    var i :| 0 <= i < s.n && s.tab[i].p == p && s.tab[i].t == t;
    var r := Step(c, s, op);
    match op {
      case Register(_, _, _, _) => assert r.tab[i] == s.tab[i] by { GrownKeeps(s.tab, s.n, i); }
      case Pin(_, _) => assert r.tab[i].p == p && r.tab[i].t == t;
      case Release(q) => OtherReleased(c, s, q, i);
      case Sweep(now, memory) => YoungSwept(c, s, registered, now, memory, i);
    }
  }

  lemma OtherReleased(c: Config, s: State, q: nat, i: nat)
    requires s.Fits() && Distinct(s.tab[..s.n]) && i < s.n && s.tab[i].p != q
    ensures BornAt(Step(c, s, Release(q)), s.tab[i].p, s.tab[i].t)
    ensures multiset(Step(c, s, Release(q)).freed)[s.tab[i].p] == multiset(s.freed)[s.tab[i].p]
  {
    hide Index;
    OnlyEntry(s.tab[..s.n], i, q);
    var k, r := Index(s.tab[..s.n], q), Step(c, s, Release(q));
    if q == 0 || k == s.n || s.tab[k].pin != 0 {
      assert r.tab[i] == s.tab[i];
    } else {
      assert r.tab[if i == s.n - 1 then k else i] == s.tab[i];
      assert r.freed == s.freed + [s.tab[k].p];
    }
  }

  lemma YoungSwept(c: Config, s: State, registered: multiset<nat>, now: int, memory: bool, i: nat)
    requires Sound(s, registered) && i < s.n && now - s.tab[i].t < c.grace
    ensures BornAt(Step(c, s, Sweep(now, memory)), s.tab[i].p, s.tab[i].t)
    ensures multiset(Step(c, s, Sweep(now, memory)).freed)[s.tab[i].p] == multiset(s.freed)[s.tab[i].p]
  {
    hide Conserved, LastIsLive, Staying, Dead, Step, Distinct;
    var r := Step(c, s, Sweep(now, memory));
    if c.off || !memory {
      assert r == s by { NotSwept(c, s, now, memory); }
      assert r.tab[i] == s.tab[i];
    } else {
      SweepIsExact(c, s, registered, now);
      assert s.tab[i] in r.tab[..r.n];
      var j :| 0 <= j < |r.tab[..r.n]| && r.tab[..r.n][j] == s.tab[i];
      assert r.tab[j] == s.tab[i];
    }
  }

  lemma NotSwept(c: Config, s: State, now: int, memory: bool)
    requires s.Fits() && (c.off || !memory)
    ensures Step(c, s, Sweep(now, memory)) == s
  {
  }

  /** So an object registered at `now` is freed by no sweep before `now` plus the grace time. */
  lemma GraceHolds(c: Config, s: State, registered: multiset<nat>, p: nat, kind: Kind, now: int, ops: seq<Op>)
    requires Sound(s, registered) && p != 0 && Admissible(s, Register(p, kind, now, true))
    requires AllAdmissible(c, Step(c, s, Register(p, kind, now, true)), ops)
    requires forall k :: 0 <= k < |ops| ==> Spares(c, ops[k], p, now)
    ensures var r := Run(c, Step(c, s, Register(p, kind, now, true)), ops);
            BornAt(r, p, now) && multiset(r.freed)[p] == multiset(s.freed)[p]
  {
    hide Conserved, LastIsLive, Distinct, Run, Grown;
    var op := Register(p, kind, now, true);
    StepIsSound(c, s, registered, op);
    RegisterStamps(c, s, p, kind, now, true);
    YoungStays(c, Step(c, s, op), registered + Registered(op), ops, p, now);
  }

  // ---------------------------------------------------------------- pins

  /** `p` is in the table with a pin count of `pin`. */
  ghost predicate PinnedAt(s: State, p: nat, pin: int)
    requires s.Fits()
  {
    exists i :: 0 <= i < s.n && s.tab[i].p == p && s.tab[i].pin == pin
  }

  function PinDelta(op: Op, p: nat): int { if op.Pin? && op.p == p then op.delta else 0 }

  /** `p` is pinned, or about to be, and its pins and unpins never use the count up. */
  predicate StaysPinned(pin: int, ops: seq<Op>, p: nat)
    decreases |ops|
  {
    ops == [] ||
    ((pin > 0 || (ops[0].Pin? && ops[0].p == p)) && pin + PinDelta(ops[0], p) > 0
     && StaysPinned(pin + PinDelta(ops[0], p), ops[1..], p))
  }

  function PinsIn(pin: int, ops: seq<Op>, p: nat): int
    decreases |ops|
  {
    if ops == [] then pin else PinsIn(pin + PinDelta(ops[0], p), ops[1..], p)
  }

  /**
   * An object pinned stays: through any admissible history whose unpins leave it a pin, it is in the
   * table with exactly the pins it is owed, and is not freed.
   */
  lemma {:induction false} PinnedStays(c: Config, s: State, registered: multiset<nat>, ops: seq<Op>, p: nat, pin: int)
    requires Sound(s, registered) && AllAdmissible(c, s, ops) && PinnedAt(s, p, pin) && StaysPinned(pin, ops, p)
    ensures PinnedAt(Run(c, s, ops), p, PinsIn(pin, ops, p))
    ensures multiset(Run(c, s, ops).freed)[p] == multiset(s.freed)[p]
    decreases ops
  {
    hide Step, Conserved, LastIsLive, Distinct, Admissible, PinnedAt;
    if ops != [] {
      StepIsSound(c, s, registered, ops[0]);
      PinnedStep(c, s, registered, ops[0], p, pin);
      PinnedStays(c, Step(c, s, ops[0]), registered + Registered(ops[0]), ops[1..], p, pin + PinDelta(ops[0], p));
    }
  }

  lemma PinnedStep(c: Config, s: State, registered: multiset<nat>, op: Op, p: nat, pin: int)
    requires Sound(s, registered) && Admissible(s, op) && PinnedAt(s, p, pin)
    requires (pin > 0 || (op.Pin? && op.p == p)) && pin + PinDelta(op, p) > 0
    ensures PinnedAt(Step(c, s, op), p, pin + PinDelta(op, p)) && multiset(Step(c, s, op).freed)[p] == multiset(s.freed)[p]
  {
    hide Conserved, LastIsLive, Staying, Dead, Grown;
    var i :| 0 <= i < s.n && s.tab[i].p == p && s.tab[i].pin == pin;
    var r := Step(c, s, op);
    match op {
      case Register(_, _, _, _) => assert r.tab[i] == s.tab[i] by { GrownKeeps(s.tab, s.n, i); }
      case Pin(q, _) => OnlyEntry(s.tab[..s.n], i, q); assert r.tab[i].p == p;
      case Release(q) => ReleaseSpares(c, s, q, i);
      case Sweep(now, memory) => SweepSpares(c, s, registered, now, memory, i);
    }
  }

  lemma GrownKeeps(tab: seq<Ent>, n: nat, i: nat)
    requires i < n <= |tab|
    ensures Grown(tab, n)[i] == tab[i]
  {
    assert Grown(tab, n)[..|tab|] == tab;
  }

  lemma OnlyEntry(es: seq<Ent>, i: nat, q: nat)
    requires Distinct(es) && i < |es|
    ensures Index(es, q) == i <==> es[i].p == q
  {
    hide Index;
  }

  lemma ReleaseSpares(c: Config, s: State, q: nat, i: nat)
    requires s.Fits() && Distinct(s.tab[..s.n]) && i < s.n && s.tab[i].pin > 0
    ensures PinnedAt(Step(c, s, Release(q)), s.tab[i].p, s.tab[i].pin)
    ensures multiset(Step(c, s, Release(q)).freed)[s.tab[i].p] == multiset(s.freed)[s.tab[i].p]
  {
    hide Index;
    OnlyEntry(s.tab[..s.n], i, q);
    var k, r := Index(s.tab[..s.n], q), Step(c, s, Release(q));
    if q == 0 || k == s.n || s.tab[k].pin != 0 {
      assert r.tab[i] == s.tab[i];
    } else {
      assert r.tab[if i == s.n - 1 then k else i] == s.tab[i];
      assert r.freed == s.freed + [s.tab[k].p];
    }
  }

  lemma SweepSpares(c: Config, s: State, registered: multiset<nat>, now: int, memory: bool, i: nat)
    requires Sound(s, registered) && i < s.n && s.tab[i].pin > 0
    ensures PinnedAt(Step(c, s, Sweep(now, memory)), s.tab[i].p, s.tab[i].pin)
    ensures multiset(Step(c, s, Sweep(now, memory)).freed)[s.tab[i].p] == multiset(s.freed)[s.tab[i].p]
  {
    hide Conserved, LastIsLive, Staying, Dead;
    var es, r := s.tab[s.keep..s.n], Step(c, s, Sweep(now, memory));
    if c.off || !memory {
      assert r.tab[i] == s.tab[i];
    } else {
      DeadAreUnpinned(es, now, c.grace);
      assert s.tab[i] !in Dead(es, now, c.grace);
      Survives(s, i, now, c.grace);
      var front := s.tab[..s.keep] + Staying(es, now, c.grace);
      assert r.tab[..r.n] == front;
      var j :| 0 <= j < |front| && front[j] == s.tab[i];
      assert r.tab[j] == r.tab[..r.n][j];
      NotAmongDead(s, es, Dead(es, now, c.grace), i);
    }
  }

  lemma {:induction false} DeadAreUnpinned(es: seq<Ent>, now: int, grace: int)
    ensures forall e :: e in Dead(es, now, grace) ==> e.pin == 0 && e in es
  {
    if es != [] {
      DeadAreUnpinned(es[..|es| - 1], now, grace);
    }
  }

  lemma NotAmongDead(s: State, es: seq<Ent>, dead: seq<Ent>, i: nat)
    requires s.keep <= s.n <= |s.tab| && es == s.tab[s.keep..s.n] && Distinct(s.tab[..s.n]) && i < s.n && s.tab[i].pin > 0
    requires forall e :: e in dead ==> e.pin == 0 && e in es
    ensures multiset(Pointers(dead))[s.tab[i].p] == 0
  {
    forall k | 0 <= k < |dead| ensures Pointers(dead)[k] != s.tab[i].p {
      assert dead[k] in es;
      var j :| 0 <= j < |es| && es[j] == dead[k];
      assert s.tab[..s.n][s.keep + j] == es[j] && s.tab[..s.n][i] == s.tab[i] && s.keep + j != i;
    }
  }

  lemma FreedWithinRegistered(s: State, registered: multiset<nat>)
    requires s.Fits() && Conserved(s, registered)
    ensures forall p :: multiset(s.freed)[p] <= registered[p]
    ensures forall i :: 0 <= i < s.n ==> multiset(s.freed)[s.tab[i].p] < registered[s.tab[i].p]
  {
    forall i | 0 <= i < s.n ensures multiset(s.freed)[s.tab[i].p] < registered[s.tab[i].p] {
      assert Pointers(s.tab[..s.n])[i] == s.tab[i].p;
      assert s.tab[i].p in multiset(Pointers(s.tab[..s.n]));
    }
  }

  /**
   * A sweep drops exactly the entries behind the startup prefix that are not pinned and were registered
   * at least the grace time ago; each of them is freed, once, and no other is.
   */
  lemma {:induction false} SweepIsExact(c: Config, s: State, registered: multiset<nat>, now: int)
    requires Sound(s, registered) && !c.off
    ensures var r := Step(c, s, Sweep(now, true));
            && (forall i :: 0 <= i < s.n ==>
                  (s.tab[i] in r.tab[..r.n] <==> i < s.keep || s.tab[i].pin != 0 || now - s.tab[i].t < c.grace))
            && (forall i :: 0 <= i < s.n ==>
                  multiset(r.freed)[s.tab[i].p] == multiset(s.freed)[s.tab[i].p] + (if s.tab[i] in r.tab[..r.n] then 0 else 1))
            && multiset(r.freed) == multiset(s.freed) + multiset(Pointers(Dead(s.tab[s.keep..s.n], now, c.grace)))
            && r.tab[..r.n] == s.tab[..s.keep] + Staying(s.tab[s.keep..s.n], now, c.grace)
  {
    var r, es := Step(c, s, Sweep(now, true)), s.tab[s.keep..s.n];
    assert r.tab[..r.n] == s.tab[..s.keep] + Staying(es, now, c.grace);
    forall i | 0 <= i < s.n
      ensures s.tab[i] in r.tab[..r.n] <==> i < s.keep || s.tab[i].pin != 0 || now - s.tab[i].t < c.grace
      ensures multiset(r.freed)[s.tab[i].p] == multiset(s.freed)[s.tab[i].p] + (if s.tab[i] in r.tab[..r.n] then 0 else 1)
    {
      FreedWhenGone(c, s, registered, now, i);
      SweepLeaves(c, s, registered, now, i);
    }
  }

  lemma SweepLeaves(c: Config, s: State, registered: multiset<nat>, now: int, i: nat)
    requires Sound(s, registered) && !c.off && i < s.n
    ensures s.tab[i] in s.tab[..s.keep] + Staying(s.tab[s.keep..s.n], now, c.grace)
            <==> i < s.keep || s.tab[i].pin != 0 || now - s.tab[i].t < c.grace
  {
    hide Conserved, Staying, Dead;
    var es := s.tab[s.keep..s.n];
    if i < s.keep {
      assert s.tab[..s.keep][i] == s.tab[i];
    } else {
      assert es[i - s.keep] == s.tab[i];
      SweepSorts(es, now, c.grace, s.tab[i]);
      OnlyThere(s, i);
    }
  }

  /** By the books: what was in the table is there still or was freed. */
  lemma FreedWhenGone(c: Config, s: State, registered: multiset<nat>, now: int, i: nat)
    requires Sound(s, registered) && i < s.n
    ensures var r := Step(c, s, Sweep(now, true));
            multiset(r.freed)[s.tab[i].p] == multiset(s.freed)[s.tab[i].p] + (if s.tab[i] in r.tab[..r.n] then 0 else 1)
  {
    hide Step, LastIsLive, Staying, Dead, Pointers, Conserved;
    var op := Sweep(now, true);
    var r := Step(c, s, op);
    StepIsSound(c, s, registered, op);
    SweepOnlyDrops(c, s, now);
    assert registered + Registered(op) == registered;
    CountOf(s, registered, s.tab[i].p);
    CountOf(r, registered, s.tab[i].p);
    OnceAmong(s.tab[..s.n], i);
    assert s.tab[..s.n][i] == s.tab[i];
    AmongOrNot(s.tab[..s.n], r.tab[..r.n], i);
  }

  lemma CountOf(s: State, registered: multiset<nat>, p: nat)
    requires s.Fits() && Conserved(s, registered)
    ensures registered[p] == multiset(Pointers(s.tab[..s.n]))[p] + multiset(s.freed)[p] + multiset(s.missed)[p]
  {
  }

  /** Of entries that are all among others, one is there with its pointer once or not at all. */
  lemma AmongOrNot(es: seq<Ent>, fs: seq<Ent>, i: nat)
    requires Distinct(es) && Distinct(fs) && i < |es| && forall k :: 0 <= k < |fs| ==> fs[k] in es
    ensures multiset(Pointers(fs))[es[i].p] == if es[i] in fs then 1 else 0
  {
    if es[i] in fs {
      var j :| 0 <= j < |fs| && fs[j] == es[i];
      OnceAmong(fs, j);
    } else {
      forall k | 0 <= k < |fs| ensures Pointers(fs)[k] != es[i].p {
        assert fs[k] in es;
        var l :| 0 <= l < |es| && es[l] == fs[k];
        assert l != i;
      }
      assert es[i].p !in Pointers(fs);
    }
  }

  lemma OnceAmong(es: seq<Ent>, i: nat)
    requires Distinct(es) && i < |es|
    ensures multiset(Pointers(es))[es[i].p] == 1
  {
    var ps := Pointers(es);
    assert ps == ps[..i] + [ps[i]] + ps[i + 1..];
    assert ps[i] !in ps[..i] && ps[i] !in ps[i + 1..];
  }

  lemma SweepOnlyDrops(c: Config, s: State, now: int)
    requires s.keep <= s.n <= |s.tab|
    ensures var r := Step(c, s, Sweep(now, true));
            r.missed == s.missed && forall k :: 0 <= k < r.n ==> r.tab[..r.n][k] in s.tab[..s.n]
  {
    var r, es := Step(c, s, Sweep(now, true)), s.tab[s.keep..s.n];
    if !c.off {
      var kept := Staying(es, now, c.grace);
      assert r.tab[..r.n] == s.tab[..s.keep] + kept;
      forall k | 0 <= k < r.n ensures r.tab[..r.n][k] in s.tab[..s.n] {
        if k < s.keep {
          assert s.tab[..s.n][k] == r.tab[..r.n][k];
        } else {
          SweepSorts(es, now, c.grace, kept[k - s.keep]);
          var l :| 0 <= l < |es| && es[l] == kept[k - s.keep];
          assert s.tab[..s.n][s.keep + l] == es[l];
        }
      }
    }
  }

  lemma OnlyThere(s: State, i: nat)
    requires s.keep <= i < s.n <= |s.tab| && Distinct(s.tab[..s.n])
    ensures s.tab[i] !in s.tab[..s.keep]
  {
    assert forall k :: 0 <= k < s.keep ==> s.tab[..s.n][k] == s.tab[k];
    assert s.tab[..s.n][i] == s.tab[i];
  }

  /**
   * Releasing an unpinned object of the startup prefix is the one thing that goes wrong: after
   * the next sweep the prefix has changed, or a freed object is back in the table.
   */
  lemma {:induction false} StartupObjectsMustNotBeReleased(c: Config, s: State, registered: multiset<nat>, p: nat, now: int)
    requires Sound(s, registered)
    ensures var r := Step(c, Step(c, s, Release(p)), Sweep(now, true));
            (Sound(r, registered) && Protected(r) == Protected(s)) <==> Releasable(s, p)
  {
    var mid := Step(c, s, Release(p));
    var r := Step(c, mid, Sweep(now, true));
    if Releasable(s, p) {
      ReleaseIsSound(c, s, registered, Release(p));
      SweepIsSound(c, mid, registered, Sweep(now, true));
    } else {
      var i := Index(s.tab[..s.n], p);
      if r.n >= s.keep && Protected(r) == Protected(s) {
        assert r.tab[i] == mid.tab[i] == s.tab[s.n - 1];
        assert Protected(r)[i] == r.tab[i].p && Protected(s)[i] == s.tab[i].p;
        assert s.tab[..s.n][i] == s.tab[i] && s.tab[..s.n][s.n - 1] == s.tab[s.n - 1];
        assert i == s.n - 1 && s.n == s.keep && mid.n < mid.keep;
        Resurrected(c, s, registered, i, now);
      }
    }
  }

  /** The last startup object released and, by the sweep, back in the table. */
  lemma Resurrected(c: Config, s: State, registered: multiset<nat>, i: nat, now: int)
    requires Sound(s, registered) && i == s.n - 1 && s.n == s.keep && Index(s.tab[..s.n], s.tab[i].p) == i && s.tab[i].pin == 0
    ensures !Sound(Step(c, Step(c, s, Release(s.tab[i].p)), Sweep(now, true)), registered)
  {
    var mid := Step(c, s, Release(s.tab[i].p));
    var r := Step(c, mid, Sweep(now, true));
    assert Pointers([s.tab[i]]) == [s.tab[i].p];
    assert mid.freed == s.freed + [s.tab[i].p];
    if r.n == s.keep {
      assert mid.tab == s.tab[i := s.tab[i]] == s.tab;
      assert mid.tab[..s.keep] + [] + mid.tab[s.keep..] == mid.tab;
      assert r.tab[..r.n] == s.tab[..s.n];
      assert Pointers([]) == [] && r.freed == mid.freed;
      var p := s.tab[i].p;
      assert multiset(r.freed) == multiset(s.freed) + multiset{p};
      assert registered[p] == (multiset(Pointers(s.tab[..s.n])) + multiset(s.freed) + multiset(s.missed))[p];
    }
  }

  lemma FreeOneMore(s: State, es: seq<Ent>, e: Ent)
    ensures FreeAll(FreeAll(s, es), [e]) == FreeAll(s, es + [e])
  {
    PointersJoin(es, [e]);
    assert s.freed + Pointers(es) + Pointers([e]) == s.freed + Pointers(es + [e]);
    assert forall x :: x in es + [e] <==> x in es || x == e;
  }

  /**
   * Compaction under way: the entries swept so far are at the start of the table or among the
   * dead, and from `w` on the table is as it was.
   */
  ghost predicate Compacting(was: seq<Ent>, keep: nat, swept: seq<Ent>, w: nat, reg: seq<Ent>, dead: seq<Ent>, now: int, grace: int) {
    && keep <= w <= |was| && dead == Dead(swept, now, grace)
    && w == keep + |Staying(swept, now, grace)| && reg == was[..keep] + Staying(swept, now, grace) + was[w..]
  }

  lemma NoneSwept(was: seq<Ent>, keep: nat, es: seq<Ent>, now: int, grace: int)
    requires keep <= |was|
    ensures Compacting(was, keep, es[..0], keep, was, [], now, grace)
  {
  }

  /** What becomes of the next entry. */
  lemma CompactingGoesOn(was: seq<Ent>, keep: nat, es: seq<Ent>, i: nat, w: nat, reg: seq<Ent>, dead: seq<Ent>, now: int, grace: int)
    requires i < |es| && keep + i < |was| && es[i] == was[keep + i] && w <= keep + i
    requires Compacting(was, keep, es[..i], w, reg, dead, now, grace)
    ensures |reg| == |was| && reg[keep + i] == es[i]
    ensures if Expired(es[i], now, grace)
            then Compacting(was, keep, es[..i + 1], w, reg, dead + [es[i]], now, grace)
            else Compacting(was, keep, es[..i + 1], w + 1, reg[w := es[i]], dead, now, grace)
  {
    assert es[..i + 1][..i] == es[..i];
  }

  lemma WholePrefix(es: seq<Ent>, k: nat)
    requires k == |es|
    ensures es[..k] == es
  {
  }

  lemma CompactingEnds(was: seq<Ent>, keep: nat, es: seq<Ent>, w: nat, reg: seq<Ent>, dead: seq<Ent>, now: int, grace: int)
    requires Compacting(was, keep, es, w, reg, dead, now, grace)
    ensures var kept := Staying(es, now, grace);
            keep + |kept| == w <= |was| && dead == Dead(es, now, grace) && reg == was[..keep] + kept + was[keep + |kept|..]
  {
  }

  /** The registry in its array. */
  class Table {
    var reg: array<Ent>
    var n: nat
    var keep: nat
    var lastBytes: nat
    var gcFreed: nat
    const config: Config
    ghost var freed: seq<nat>
    ghost var missed: seq<nat>

    ghost function View(): State
      reads this, reg
    {
      State(reg[..], n, keep, lastBytes, freed, missed)
    }

    ghost predicate Valid()
      reads this
    {
      n <= reg.Length && keep <= reg.Length && gcFreed == |freed|
    }

    constructor (config: Config)
      ensures Valid() && this.config == config && fresh(reg) && Sound(View(), multiset{})
    {
      this.config := config;
      reg := new Ent[0];
      n, keep, lastBytes, gcFreed := 0, 0, 0, 0;
      freed, missed := [], [];
    }

    /** The start of the daemon: what is registered so far is never collected. */
    method Protect()
      requires Valid()
      modifies this`keep
      ensures Valid() && View() == old(View()).(keep := n)
    {
      keep := n;
    }

    /** reg_find_locked. */
    method Find(p: nat) returns (i: nat)
      requires Valid()
      ensures i == Index(reg[..n], p)
    {
      i := 0;
      while i < n && reg[i].p != p
        invariant i <= n && forall k :: 0 <= k < i ==> reg[k].p != p
      {
        i := i + 1;
      }
      FoundAt(reg[..n], p, i);
    }

    /** reg_add, and the note of the newest byte array made by NewByteArray. */
    method Add(p: nat, kind: Kind, now: int, memory: bool)
      requires Valid()
      modifies this, reg
      ensures Valid() && View() == Step(config, old(View()), Register(p, kind, now, memory))
      ensures reg == old(reg) || fresh(reg)
    {
      hide Grown, Index, Staying, Dead, FreeAll, Expired, Pinned;
      if p == 0 {
        return;
      }
      if kind == Bytes {
        lastBytes := p;
      }
      FitsAlready(reg[..], n);
      if n == reg.Length {
        if !memory {
          missed := missed + [p];
          return;
        }
        Grow();
      }
      reg[n] := Ent(p, kind, now, 0);
      n := n + 1;
    }

    lemma FitsAlready(tab: seq<Ent>, n: nat)
      ensures n < |tab| ==> Grown(tab, n) == tab
    {
    }

    /** realloc to twice the capacity, or to 4096 at first. */
    method Grow()
      requires n == reg.Length
      modifies this`reg
      ensures fresh(reg) && reg[..] == Grown(old(reg[..]), n) && n < reg.Length
    {
      var before := reg;
      reg := new Ent[if n == 0 then 4096 else 2 * n](i requires 0 <= i reads before => if i < before.Length then before[i] else BLANK);
    }

    /** reg_pin. */
    method PinBy(p: nat, delta: int)
      requires Valid()
      modifies reg
      ensures Valid() && View() == Step(config, old(View()), Pin(p, delta))
    {
      if p == 0 {
        return;
      }
      var i := Find(p);
      if i < n {
        reg[i] := reg[i].(pin := reg[i].pin + delta);
        if reg[i].pin < 0 {
          reg[i] := reg[i].(pin := 0);
        }
      }
    }

    /** reg_free_obj, counted. */
    method Free(e: Ent)
      requires Valid()
      modifies this`lastBytes, this`freed, this`gcFreed
      ensures Valid() && View() == FreeAll(old(View()), [e])
    {
      if e.kind == Bytes && e.p == lastBytes {
        lastBytes := 0;
      }
      freed, gcFreed := freed + [e.p], gcFreed + 1;
      assert e in [e];
    }

    /** reg_release: a pinned object is left to the sweep. */
    method ReleaseOne(p: nat) returns (released: bool)
      requires Valid()
      modifies this, reg
      ensures Valid() && View() == Step(config, old(View()), Release(p)) && reg == old(reg)
      ensures released == (|freed| > |old(freed)|)
    {
      if p == 0 {
        return false;
      }
      var i := Find(p);
      if i == n || reg[i].pin != 0 {
        return false;
      }
      var e := reg[i];
      reg[i] := reg[n - 1];
      n := n - 1;
      Free(e);
      return true;
    }

    /** reg_sweep: the entries that stay move down in the array, the others are freed. */
    method SweepAll(now: int, memory: bool)
      requires Valid()
      modifies this, reg
      ensures Valid() && View() == Step(config, old(View()), Sweep(now, memory)) && reg == old(reg)
    {
      hide FreeAll, Staying, Dead, Grown, Pinned, Index, Expired;
      if config.off || !memory {
        return;
      }
      var dead := new Ent[if n > keep then n - keep else 1];
      var nd := Compact(now, dead);
      FreeDead(dead, nd);
    }

    method Compact(now: int, dead: array<Ent>) returns (nd: nat)
      requires Valid() && dead != reg && dead.Length >= n - keep
      modifies this`n, reg, dead
      ensures Valid() && nd <= dead.Length
      ensures var es := if keep <= old(n) then old(reg[..])[keep..old(n)] else [];
              && dead[..nd] == Dead(es, now, config.grace)
              && reg[..] == old(reg[..])[..keep] + Staying(es, now, config.grace) + old(reg[..])[keep + |Staying(es, now, config.grace)|..]
              && n == keep + |Staying(es, now, config.grace)|
    {
      hide Compacting, Staying, Dead, Expired, Step, FreeAll, Index, Grown;
      ghost var was := reg[..];
      ghost var es := if keep <= n then was[keep..n] else [];
      var i, w := keep, keep;
      nd := 0;
      NoneSwept(was, keep, es, now, config.grace);
      while i < n
        invariant keep <= w <= i && i - keep <= |es| && nd == i - w && n == old(n) && (i < n || i - keep == |es|)
        invariant Compacting(was, keep, es[..i - keep], w, reg[..], dead[..nd], now, config.grace)
      {
        CompactingGoesOn(was, keep, es, i - keep, w, reg[..], dead[..nd], now, config.grace);
        w, nd := Move(i, w, nd, dead, now);
        i := i + 1;
      }
      WholePrefix(es, i - keep);
      n := w;
      CompactingEnds(was, keep, es, w, reg[..], dead[..nd], now, config.grace);
    }

    /** One entry, to the dead or down to position `w`. */
    method Move(i: nat, w: nat, nd: nat, dead: array<Ent>, now: int) returns (w': nat, nd': nat)
      requires w <= i < reg.Length && nd < dead.Length && dead != reg
      modifies reg, dead
      ensures if Expired(old(reg[i]), now, config.grace)
              then w' == w && nd' == nd + 1 && reg[..] == old(reg[..]) && dead[..nd'] == old(dead[..nd]) + [old(reg[i])]
              else w' == w + 1 && nd' == nd && reg[..] == old(reg[..])[w := old(reg[i])] && dead[..nd] == old(dead[..nd])
    {
      var e := reg[i];
      if e.pin == 0 && now - e.t >= config.grace {
        dead[nd] := e;
        return w, nd + 1;
      }
      reg[w] := e;
      return w + 1, nd;
    }

    method FreeDead(dead: array<Ent>, nd: nat)
      requires Valid() && nd <= dead.Length
      modifies this`lastBytes, this`freed, this`gcFreed
      ensures Valid() && View() == FreeAll(old(View()), dead[..nd])
    {
      var i := 0;
      assert View() == FreeAll(old(View()), dead[..0]);
      while i < nd
        invariant Valid() && i <= nd && View() == FreeAll(old(View()), dead[..i])
      {
        FreeOneMore(old(View()), dead[..i], dead[i]);
        assert dead[..i + 1] == dead[..i] + [dead[i]];
        Free(dead[i]);
        i := i + 1;
      }
    }
  }

  lemma FoundAt(es: seq<Ent>, p: nat, i: nat)
    requires i <= |es| && (i < |es| ==> es[i].p == p) && forall k :: 0 <= k < i ==> es[k].p != p
    ensures Index(es, p) == i
  {
  }
}
