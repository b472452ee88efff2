/**
 * daemon_fetch_cands: candidates are copied out of the engine's batches, and the objects that
 * carried them are released at once unless the engine handed one out twice.
 */
module Fetch {
  import opened Basics
  import D = Daemon

  const BATCH := 10
  const TEXT_SIZE := 256
  const ID_MAX := 0x100000
  const SEEN_SIZE := D.MAX_CAND + D.MAX_CAND / BATCH

  /** A byte array, a candidate object and an array of them, each with its address. */
  datatype Id = Id(p: nat, bytes: string)

  datatype Obj = Obj(p: nat, text: string, id: Option<Id>, cover: int)

  datatype Arr = Arr(p: nat, elems: seq<Obj>)

  // ---------------------------------------------------------------- what is cached

  function Asked(engine: seq<Option<Arr>>, n: nat): (batches: seq<Arr>)
    ensures |batches| <= n
  {
    if n == 0 || engine == [] || engine[0] == None then []
    else if |engine[0].value.elems| < BATCH then [engine[0].value]
    else [engine[0].value] + Asked(engine[1..], n - 1)
  }

  function Flat(batches: seq<Arr>): seq<Obj> {
    if batches == [] then [] else batches[0].elems + Flat(batches[1..])
  }

  /** The candidates that have a text, in order. */
  function Visible(os: seq<Obj>): seq<Obj> {
    if os == [] then [] else (if os[0].text == "" then [] else [os[0]]) + Visible(os[1..])
  }

  /**
   * A cache entry has the candidate's own cover, the first 255 bytes of its text, and its id, whole, if and
   * only if the id is not empty, is at most a megabyte and there was room for it.
   */
  lemma CopyTells(o: Obj, room: bool)
    ensures var c := Copy(o, room);
            && c.cover == o.cover && c.text <= o.text && (|o.text| <= 255 ==> c.text == o.text) && (|o.text| > 255 ==> |c.text| == 255)
            && (c.id.Some? ==> o.id.Some? && c.id.value == o.id.value.bytes)
            && (c.id.Some? <==> o.id.Some? && o.id.value.bytes != "" && |o.id.value.bytes| <= 1048576 && room)
  {
  }

  function CutText(t: string): string { if |t| < TEXT_SIZE then t else t[..TEXT_SIZE - 1] }

  /** One entry of the cache; `room` tells whether the copy of its id could be allocated. */
  function Copy(o: Obj, room: bool): D.Cand {
    D.Cand(CutText(o.text),
           if o.id.Some? && 0 < |o.id.value.bytes| <= ID_MAX && room then Some(o.id.value.bytes) else None,
           o.cover)
  }

  /** The visible candidates, copied in order up to the cap. */
  predicate IsCache(cache: seq<D.Cand>, os: seq<Obj>, cap: nat, room: nat -> bool) {
    && |cache| == (if |Visible(os)| < cap then |Visible(os)| else cap)
    && forall k: nat :: k < |cache| ==> cache[k] == Copy(Visible(os)[k], room(k))
  }

  lemma {:induction false} VisibleAppends(a: seq<Obj>, b: seq<Obj>)
    ensures Visible(a + b) == Visible(a) + Visible(b)
  {
    if a == [] {
      assert a + b == b;
    } else {
      assert (a + b)[1..] == a[1..] + b;
      VisibleAppends(a[1..], b);
    }
  }

  lemma VisibleSnoc(os: seq<Obj>, o: Obj)
    ensures Visible(os + [o]) == Visible(os) + (if o.text == "" then [] else [o])
  {
    VisibleAppends(os, [o]);
    assert [o][1..] == [];
  }

  lemma {:induction false} FlatSnoc(batches: seq<Arr>, a: Arr)
    ensures Flat(batches + [a]) == Flat(batches) + a.elems
  {
    if batches == [] {
      assert batches + [a] == [a] && [a][1..] == [];
    } else {
      assert (batches + [a])[1..] == batches[1..] + [a];
      FlatSnoc(batches[1..], a);
    }
  }

  /** The cap's own bounds, from the environment variable. */
  function Cap(wanted: int): (cap: nat)
    ensures BATCH <= cap <= D.MAX_CAND && (BATCH <= wanted <= D.MAX_CAND ==> cap == wanted)
    ensures (wanted < BATCH ==> cap == BATCH) && (wanted > D.MAX_CAND ==> cap == D.MAX_CAND)
  {
    if wanted < BATCH then BATCH else if wanted > D.MAX_CAND then D.MAX_CAND else wanted
  }

  method AskBatches(engine: seq<Option<Arr>>, n: nat) returns (batches: seq<Arr>)
    ensures batches == Asked(engine, n)
  {
    batches := [];
    var i := 0;
    assert engine[0..] == engine;
    while i < n && i < |engine| && engine[i].Some?
      invariant i <= n && i <= |engine| && batches + Asked(engine[i..], n - i) == Asked(engine, n)
    {
      assert engine[i..][1..] == engine[i + 1..];
      batches := batches + [engine[i].value];
      if |engine[i].value.elems| < BATCH {
        return;
      }
      i := i + 1;
    }
  }

  method CopyIn(batches: seq<Arr>, cap: nat, room: nat -> bool) returns (cache: seq<D.Cand>)
    ensures IsCache(cache, Flat(batches), cap, room)
  {
    cache := [];
    var b := 0;
    assert batches[..0] == [];
    while b < |batches|
      invariant b <= |batches| && IsCache(cache, Flat(batches[..b]), cap, room)
    {
      hide IsCache;
      assert batches[..b + 1] == batches[..b] + [batches[b]];
      FlatSnoc(batches[..b], batches[b]);
      cache := CopyRow(cache, batches[b].elems, cap, room, Flat(batches[..b]));
      b := b + 1;
    }
    assert batches[..b] == batches;
  }

  method CopyRow(cache0: seq<D.Cand>, elems: seq<Obj>, cap: nat, room: nat -> bool, ghost before: seq<Obj>) returns (cache: seq<D.Cand>)
    requires IsCache(cache0, before, cap, room)
    ensures IsCache(cache, before + elems, cap, room)
  {
    hide IsCache, Visible;
    cache := cache0;
    var i := 0;
    assert before + elems[..0] == before;
    while i < |elems| && |cache| < cap
      invariant i <= |elems| && IsCache(cache, before + elems[..i], cap, room)
    {
      assert before + elems[..i + 1] == (before + elems[..i]) + [elems[i]];
      CacheGrows(cache, before + elems[..i], elems[i], cap, room);
      if elems[i].text != "" {
        cache := cache + [Copy(elems[i], room(|cache|))];
      }
      i := i + 1;
    }
    CacheIsFull(cache, before + elems[..i], elems[i..], cap, room);
    assert before + elems == (before + elems[..i]) + elems[i..];
  }

  lemma CacheGrows(cache: seq<D.Cand>, os: seq<Obj>, o: Obj, cap: nat, room: nat -> bool)
    requires IsCache(cache, os, cap, room) && |cache| < cap
    ensures IsCache(if o.text == "" then cache else cache + [Copy(o, room(|cache|))], os + [o], cap, room)
  {
    hide Visible, Copy;
    VisibleSnoc(os, o);
    assert Visible(os) + [] == Visible(os);
  }

  lemma CacheIsFull(cache: seq<D.Cand>, os: seq<Obj>, more: seq<Obj>, cap: nat, room: nat -> bool)
    requires IsCache(cache, os, cap, room) && (more == [] || |cache| >= cap)
    ensures IsCache(cache, os + more, cap, room)
  {
    VisibleAppends(os, more);
  }

  // ---------------------------------------------------------------- what is released

  function ElemPointers(os: seq<Obj>): seq<nat> { seq(|os|, k requires 0 <= k < |os| => os[k].p) }

  /** The addresses compared: each batch's candidates, then its array. */
  function Pointers(batches: seq<Arr>): seq<nat> {
    if batches == [] then []
    else Pointers(batches[..|batches| - 1]) + Row(batches[|batches| - 1])
  }

  function Row(a: Arr): seq<nat> { ElemPointers(a.elems) + [a.p] }

  predicate Distinct(ps: seq<nat>) { forall i, j :: 0 <= i < j < |ps| ==> ps[i] != ps[j] }

  predicate OfTen(batches: seq<Arr>) { forall b :: 0 <= b < |batches| ==> |batches[b].elems| <= BATCH }

  lemma {:induction false} PointersFit(batches: seq<Arr>)
    requires OfTen(batches)
    ensures |Pointers(batches)| <= (BATCH + 1) * |batches|
  {
    if batches != [] {
      PointersFit(batches[..|batches| - 1]);
    }
  }

  lemma PointersSnoc(batches: seq<Arr>, b: nat)
    requires b < |batches|
    ensures Pointers(batches[..b + 1]) == Pointers(batches[..b]) + Row(batches[b])
  {
    assert batches[..b + 1][..b] == batches[..b];
  }

  lemma {:induction false} PointersGrow(batches: seq<Arr>, b: nat)
    requires b <= |batches|
    ensures Pointers(batches[..b]) <= Pointers(batches)
    decreases |batches| - b
  {
    if b == |batches| {
      assert batches[..b] == batches;
    } else {
      PointersSnoc(batches, b);
      PointersGrow(batches, b + 1);
    }
  }

  /**
   * The search for an address handed out twice. The table holds every address of seven batches
   * of ten, so none is missed.
   */
  method HandedOutTwice(batches: seq<Arr>) returns (dup: bool)
    requires |batches| <= D.MAX_CAND / BATCH && OfTen(batches)
    ensures dup == !Distinct(Pointers(batches))
  {
    var seen := new nat[SEEN_SIZE];
    var ns, b := 0, 0;
    assert batches[..0] == [];
    while b < |batches|
      invariant b <= |batches| && seen.Length == SEEN_SIZE && fresh(seen)
      invariant ns == |Pointers(batches[..b])| <= (BATCH + 1) * b && seen[..ns] == Pointers(batches[..b])
      invariant Distinct(Pointers(batches[..b]))
    {
      hide Pointers, Distinct;
      ghost var front := Pointers(batches[..b]);
      PointersSnoc(batches, b);
      ns, dup := AddRow(seen, ns, batches[b]);
      if dup {
        PointersGrow(batches, b + 1);
        SharedIsShared(Pointers(batches[..b + 1]), Pointers(batches));
        return;
      }
      b := b + 1;
    }
    assert batches[..b] == batches;
    return false;
  }

  method AddRow(seen: array<nat>, ns: nat, a: Arr) returns (ns': nat, dup: bool)
    requires seen.Length == SEEN_SIZE && ns + |a.elems| + 1 <= SEEN_SIZE && Distinct(seen[..ns])
    modifies seen
    ensures dup == !Distinct(old(seen[..ns]) + Row(a))
    ensures !dup ==> ns' == ns + |a.elems| + 1 && seen[..ns'] == old(seen[..ns]) + Row(a)
  {
    ghost var was, row := seen[..ns], Row(a);
    var k := 0;
    ns' := ns;
    assert was + row[..0] == was;
    while k <= |a.elems|
      invariant k <= |a.elems| + 1 == |row| && ns' == ns + k && seen[..ns'] == was + row[..k] && Distinct(was + row[..k])
    {
      var p := if k == |a.elems| then a.p else a.elems[k].p;
      assert p == row[k];
      var j := 0;
      while j < ns' && seen[j] != p
        invariant j <= ns' && forall i :: 0 <= i < j ==> seen[i] != p
      {
        j := j + 1;
      }
      assert was + row[..k + 1] == (was + row[..k]) + [p];
      if j < ns' {
        assert (was + row[..k + 1])[j] == p && (was + row[..k + 1])[ns'] == p;
        SharedIsShared(was + row[..k + 1], was + row);
        return ns', true;
      }
      assert forall i :: 0 <= i < ns' ==> (was + row[..k])[i] == seen[i];
      seen[ns'] := p;
      ns', k := ns' + 1, k + 1;
    }
    assert row[..k] == row;
    dup := false;
  }

  lemma SharedIsShared(ps: seq<nat>, all: seq<nat>)
    requires ps <= all && !Distinct(ps)
    ensures !Distinct(all)
  {
    var i, j :| 0 <= i < j < |ps| && ps[i] == ps[j];
    assert all[i] == all[j];
  }

  /** What a candidate's release lets go of: its id, then itself. */
  function ReleasesOf(os: seq<Obj>): seq<nat> {
    if os == [] then []
    else ReleasesOf(os[..|os| - 1]) + IdOf(os[|os| - 1]) + [os[|os| - 1].p]
  }

  function IdOf(o: Obj): seq<nat> {
    match o.id
    case Some(id) => [id.p]
    case None => []
  }

  function Releases(batches: seq<Arr>): seq<nat> {
    if batches == [] then []
    else Releases(batches[..|batches| - 1]) + ReleasesOf(batches[|batches| - 1].elems) + [batches[|batches| - 1].p]
  }

  predicate IsIdOf(o: Obj, x: nat) { o.id.Some? && o.id.value.p == x }

  ghost predicate HasId(os: seq<Obj>, x: nat) { exists k :: 0 <= k < |os| && IsIdOf(os[k], x) }

  ghost predicate HasIdIn(batches: seq<Arr>, x: nat) { exists b :: 0 <= b < |batches| && HasId(batches[b].elems, x) }

  /** Byte arrays are not candidates or arrays of them. */
  ghost predicate IdsApart(batches: seq<Arr>, ps: seq<nat>) {
    forall x :: HasIdIn(batches, x) ==> x !in ps
  }

  lemma {:induction false} InReleasesOf(os: seq<Obj>, x: nat)
    requires x in ReleasesOf(os)
    ensures x in ElemPointers(os) || HasId(os, x)
  {
    var n := |os| - 1;
    assert ElemPointers(os)[n] == os[n].p;
    if x in ReleasesOf(os[..n]) {
      InReleasesOf(os[..n], x);
      assert ElemPointers(os)[..n] == ElemPointers(os[..n]);
      if HasId(os[..n], x) {
        var k :| 0 <= k < n && IsIdOf(os[..n][k], x);
        assert IsIdOf(os[k], x);
      }
    } else {
      assert x != os[n].p ==> IsIdOf(os[n], x);
    }
  }

  lemma {:induction false} InReleases(batches: seq<Arr>, x: nat)
    requires x in Releases(batches)
    ensures x in Pointers(batches) || HasIdIn(batches, x)
  {
    var n := |batches| - 1;
    if x in Releases(batches[..n]) {
      InReleases(batches[..n], x);
      if HasIdIn(batches[..n], x) {
        var b :| 0 <= b < n && HasId(batches[..n][b].elems, x);
        assert HasId(batches[b].elems, x);
      }
    } else if x in ReleasesOf(batches[n].elems) {
      InReleasesOf(batches[n].elems, x);
    }
  }

  /** What was released was an id, or came earlier among the addresses. */
  lemma ReleasedBefore(batches: seq<Arr>, b: nat, i: nat, x: nat)
    requires b < |batches| && i <= |batches[b].elems|
    requires x in Releases(batches[..b]) + ReleasesOf(batches[b].elems[..i])
    ensures x in Pointers(batches[..b]) + ElemPointers(batches[b].elems[..i]) || HasIdIn(batches, x)
  {
    var elems := batches[b].elems;
    if x in Releases(batches[..b]) {
      InReleases(batches[..b], x);
      if HasIdIn(batches[..b], x) {
        var a :| 0 <= a < b && HasId(batches[..b][a].elems, x);
        assert HasId(batches[a].elems, x);
      }
    } else {
      InReleasesOf(elems[..i], x);
      if HasId(elems[..i], x) {
        var k :| 0 <= k < i && IsIdOf(elems[..i][k], x);
        assert IsIdOf(elems[k], x);
        assert HasId(elems, x);
      }
    }
  }

  /** Without repeats, an address differs from those before it. */
  lemma LaterDiffer(batches: seq<Arr>, b: nat, i: nat)
    requires Distinct(Pointers(batches)) && b < |batches| && i <= |batches[b].elems|
    ensures var front := Pointers(batches[..b]) + ElemPointers(batches[b].elems[..i]);
            batches[b].p !in front && (i < |batches[b].elems| ==> batches[b].elems[i].p !in front)
    ensures batches[b].p in Pointers(batches) && (i < |batches[b].elems| ==> batches[b].elems[i].p in Pointers(batches))
  {
    var elems, ps, m := batches[b].elems, Pointers(batches), |Pointers(batches[..b])|;
    PointersSnoc(batches, b);
    PointersGrow(batches, b + 1);
    var upTo := Pointers(batches[..b]) + Row(batches[b]);
    hide Pointers;
    assert upTo[m + |elems|] == batches[b].p && (i < |elems| ==> upTo[m + i] == elems[i].p);
    assert Pointers(batches[..b]) + ElemPointers(elems[..i]) == upTo[..m + i];
    assert ps[..|upTo|] == upTo;
    forall k | 0 <= k < m + i ensures upTo[k] != batches[b].p && (i < |elems| ==> upTo[k] != elems[i].p) {
      assert ps[k] == upTo[k] && ps[m + |elems|] == upTo[m + |elems|];
      assert i < |elems| ==> ps[m + i] == upTo[m + i];
    }
  }

  /** Neither the next candidate nor its array has been released before it is read. */
  lemma NotYetReleased(batches: seq<Arr>, b: nat, i: nat)
    requires Distinct(Pointers(batches)) && IdsApart(batches, Pointers(batches))
    requires b < |batches| && i <= |batches[b].elems|
    ensures var gone := Releases(batches[..b]) + ReleasesOf(batches[b].elems[..i]);
            batches[b].p !in gone && (i < |batches[b].elems| ==> batches[b].elems[i].p !in gone)
  {
    hide Pointers, Distinct, Releases, ReleasesOf, HasIdIn;
    LaterDiffer(batches, b, i);
    forall x | x in Releases(batches[..b]) + ReleasesOf(batches[b].elems[..i])
      ensures x != batches[b].p && (i < |batches[b].elems| ==> x != batches[b].elems[i].p)
    {
      ReleasedBefore(batches, b, i, x);
    }
  }

  /** The release loop; every read is of an object not yet released. */
  method ReleaseAll(batches: seq<Arr>) returns (gone: seq<nat>)
    requires Distinct(Pointers(batches)) && IdsApart(batches, Pointers(batches))
    ensures gone == Releases(batches)
  {
    gone := [];
    var b := 0;
    assert batches[..0] == [];
    while b < |batches|
      invariant b <= |batches| && gone == Releases(batches[..b])
    {
      hide Distinct, IdsApart, Pointers, ReleasesOf;
      gone := ReleaseRow(batches, b, gone);
      assert batches[..b + 1][..b] == batches[..b];
      b := b + 1;
    }
    assert batches[..b] == batches;
  }

  method ReleaseRow(batches: seq<Arr>, b: nat, gone0: seq<nat>) returns (gone: seq<nat>)
    requires Distinct(Pointers(batches)) && IdsApart(batches, Pointers(batches))
    requires b < |batches| && gone0 == Releases(batches[..b])
    ensures gone == gone0 + ReleasesOf(batches[b].elems) + [batches[b].p]
  {
    hide Distinct, IdsApart, Pointers, Releases;
    var elems, i := batches[b].elems, 0;
    gone := gone0;
    assert gone0 + ReleasesOf(elems[..0]) == gone0;
    while i < |elems|
      invariant i <= |elems| && gone == gone0 + ReleasesOf(elems[..i])
    {
      hide ReleasesOf;
      NotYetReleased(batches, b, i);
      assert elems[i].p !in gone && batches[b].p !in gone;
      ReleasesOfSnoc(gone0, elems, i);
      gone := gone + IdOf(elems[i]);
      gone := gone + [elems[i].p];
      i := i + 1;
    }
    assert elems[..i] == elems;
    NotYetReleased(batches, b, i);
    assert batches[b].p !in gone;
    gone := gone + [batches[b].p];
  }

  lemma ReleasesOfSnoc(front: seq<nat>, os: seq<Obj>, i: nat)
    requires i < |os|
    ensures front + ReleasesOf(os[..i + 1]) == front + ReleasesOf(os[..i]) + IdOf(os[i]) + [os[i].p]
  {
    assert os[..i + 1][..i] == os[..i];
  }

  /**
   * daemon_fetch_cands: the cache holds the visible candidates of the batches in order, cut at
   * the cap; the objects are released exactly when no address came twice.
   */
  method FetchCands(engine: seq<Option<Arr>>, wanted: int, room: nat -> bool) returns (cache: seq<D.Cand>, gone: seq<nat>)
    requires var batches := Asked(engine, Cap(wanted) / BATCH); OfTen(batches) && IdsApart(batches, Pointers(batches))
    ensures var batches := Asked(engine, Cap(wanted) / BATCH);
            && IsCache(cache, Flat(batches), Cap(wanted), room) && |cache| <= D.MAX_CAND
            && gone == if Distinct(Pointers(batches)) then Releases(batches) else []
  {
    hide Releases, Pointers, Distinct, IdsApart;
    var batches := AskBatches(engine, Cap(wanted) / BATCH);
    cache := CopyIn(batches, Cap(wanted), room);
    var dup := HandedOutTwice(batches);
    gone := [];
    if !dup {
      gone := ReleaseAll(batches);
    }
  }
}
