/**
 * malloc_trace: the open-addressing table of call sites, filled by several threads at once, and
 * the running totals, against the set of live blocks.
 */
module MallocTrace {
  import opened Basics

  const HDRSZ := 32
  const NBIN := 12
  const NPC := 8192
  const PROBES := 16
  const TOP := 8
  const WORD := 0x1_0000_0000_0000_0000

  // ---------------------------------------------------------------- size bins

  function Pow2(b: nat): nat { if b == 0 then 1 else 2 * Pow2(b - 1) }

  /** The bin of a size: the first that holds it, the last one holding the rest. */
  predicate IsBin(n: nat, b: nat) {
    b < NBIN && (b < NBIN - 1 ==> n <= 16 * Pow2(b)) && forall k :: 0 <= k < b ==> n > 16 * Pow2(k)
  }

  function BinFrom(n: nat, b: nat): (r: nat)
    requires b < NBIN && forall k :: 0 <= k < b ==> n > 16 * Pow2(k)
    ensures IsBin(n, r)
    decreases NBIN - b
  {
    if b + 1 < NBIN && n > 16 * Pow2(b) then BinFrom(n, b + 1) else b
  }

  function Bin(n: nat): (r: nat)
    ensures IsBin(n, r)
  {
    BinFrom(n, 0)
  }

  lemma BinIsOne(n: nat, a: nat, b: nat)
    requires IsBin(n, a) && IsBin(n, b)
    ensures a == b
  {
  }

  method BinOf(n: nat) returns (b: nat)
    ensures b == Bin(n)
  {
    b := 0;
    var room := 16;
    while b + 1 < NBIN && n > room
      invariant b < NBIN && room == 16 * Pow2(b) && forall k :: 0 <= k < b ==> n > 16 * Pow2(k)
    {
      b, room := b + 1, 2 * room;
    }
    BinIsOne(n, b, Bin(n));
  }

  // ---------------------------------------------------------------- call sites

  datatype Slot = Slot(pc: nat, bytes: nat, cnt: nat)

  function Hash(pc: nat): (h: nat)
    ensures h < NPC
  {
    (pc / 16 * 2654435761) % WORD % NPC
  }

  function At(pc: nat, probe: nat): (i: nat)
    ensures i < NPC
  {
    (Hash(pc) + probe) % NPC
  }

  type Table = t: seq<Slot> | |t| == NPC witness seq(NPC, _ => Slot(0, 0, 0))

  /** The probes before `n` are taken by other sites. */
  predicate Passed(t: Table, pc: nat, n: nat) {
    forall k: nat :: k < n ==> t[At(pc, k)].pc != 0 && t[At(pc, k)].pc != pc
  }

  /** A site sits at the first of its probes that was empty when it came. */
  ghost predicate SitsAt(t: Table, i: nat, probe: nat)
    requires i < NPC
  {
    probe < PROBES && At(t[i].pc, probe) == i && Passed(t, t[i].pc, probe)
  }

  ghost predicate Placed(t: Table) {
    forall i: nat :: i < NPC && t[i].pc != 0 ==> exists probe :: SitsAt(t, i, probe)
  }

  predicate Tracked(t: Table, pc: nat) { exists i :: 0 <= i < NPC && t[i].pc == pc }

  /** No place left for the site. */
  predicate Full(t: Table, pc: nat) { Passed(t, pc, PROBES) }

  /** Slots are claimed for good, and nothing else changes. */
  predicate Grows(t: Table, u: Table) {
    forall i :: 0 <= i < NPC ==>
      (t[i].pc != 0 ==> u[i].pc == t[i].pc) && u[i].bytes == t[i].bytes && u[i].cnt == t[i].cnt
  }

  lemma {:induction false} OneSlotEach(t: Table, i: nat, j: nat)
    requires Placed(t) && i < NPC && j < NPC && t[i].pc == t[j].pc != 0
    ensures i == j
  {
    hide At;
    var a: nat :| SitsAt(t, i, a);
    var b: nat :| SitsAt(t, j, b);
    assert At(t[i].pc, a) == i && At(t[j].pc, b) == j;
    if a < b {
      assert Passed(t, t[j].pc, b);
    } else if b < a {
      assert Passed(t, t[i].pc, a);
    }
  }

  lemma TrackedIsNotFull(t: Table, i: nat)
    requires Placed(t) && i < NPC && t[i].pc != 0
    ensures !Full(t, t[i].pc)
  {
    hide At;
    var probe: nat :| SitsAt(t, i, probe);
    assert t[At(t[i].pc, probe)].pc == t[i].pc;
  }

  /** A site without a place never gets one. */
  lemma {:induction false} FullIsForGood(t: Table, u: Table, pc: nat)
    requires Full(t, pc) && Grows(t, u) && Placed(u) && pc != 0
    ensures Full(u, pc) && !Tracked(u, pc)
  {
    hide At;
    forall k: nat | k < PROBES ensures u[At(pc, k)].pc != 0 && u[At(pc, k)].pc != pc {
      assert t[At(pc, k)].pc != 0;
    }
    forall i: nat | i < NPC ensures u[i].pc != pc {
      if u[i].pc == pc {
        TrackedIsNotFull(u, i);
      }
    }
  }

  /** Claiming the slot of a probe that passed all before it. */
  lemma {:induction false} ClaimIsPlaced(t: Table, pc: nat, probe: nat)
    requires Placed(t) && pc != 0 && probe < PROBES && Passed(t, pc, probe) && t[At(pc, probe)].pc == 0
    ensures Placed(Claimed(t, pc, probe)) && Grows(t, Claimed(t, pc, probe))
  {
    hide At, SitsAt;
    var c, u := At(pc, probe), Claimed(t, pc, probe);
    forall i: nat | i < NPC && u[i].pc != 0 ensures exists k :: SitsAt(u, i, k) {
      if i == c {
        ClaimSits(t, pc, probe);
      } else {
        var k: nat :| SitsAt(t, i, k);
        OthersSit(t, pc, probe, i, k);
      }
    }
  }

  function Claimed(t: Table, pc: nat, probe: nat): Table {
    t[At(pc, probe) := t[At(pc, probe)].(pc := pc)]
  }

  lemma ClaimSits(t: Table, pc: nat, probe: nat)
    requires probe < PROBES && Passed(t, pc, probe) && t[At(pc, probe)].pc == 0
    ensures SitsAt(Claimed(t, pc, probe), At(pc, probe), probe)
  {
    hide At;
    ClaimPasses(t, pc, probe, pc, probe);
  }

  lemma OthersSit(t: Table, pc: nat, probe: nat, i: nat, k: nat)
    requires t[At(pc, probe)].pc == 0 && i < NPC && i != At(pc, probe) && SitsAt(t, i, k)
    ensures SitsAt(Claimed(t, pc, probe), i, k)
  {
    hide At;
    ClaimPasses(t, pc, probe, t[i].pc, k);
  }

  lemma ClaimPasses(t: Table, pc: nat, probe: nat, other: nat, n: nat)
    requires t[At(pc, probe)].pc == 0 && Passed(t, other, n)
    ensures Passed(Claimed(t, pc, probe), other, n)
  {
    hide At;
    forall k: nat | k < n
      ensures Claimed(t, pc, probe)[At(other, k)].pc != 0 && Claimed(t, pc, probe)[At(other, k)].pc != other
    {
      assert t[At(other, k)].pc != 0;
      assert At(other, k) != At(pc, probe);
    }
  }

  // ---------------------------------------------------------------- sums over live blocks

  /** What a header records: the size asked for, the call site, the allocator's own pointer. */
  datatype Block = Block(size: nat, pc: nat, base: nat)

  type Heap = map<nat, Block>

  ghost function Sum(m: Heap, w: Block -> nat): nat
    decreases |m|
  {
    if m == map[] then 0
    else
      var p :| p in m;
      w(m[p]) + Sum(m - {p}, w)
  }

  lemma {:induction false} SumWithout(m: Heap, q: nat, w: Block -> nat)
    requires q in m
    ensures Sum(m, w) == w(m[q]) + Sum(m - {q}, w)
    decreases |m|
  {
    var p :| p in m && Sum(m, w) == w(m[p]) + Sum(m - {p}, w);
    if p != q {
      SumWithout(m - {p}, q, w);
      SumWithout(m - {q}, p, w);
      assert m - {p} - {q} == m - {q} - {p};
    }
  }

  lemma SumWith(m: Heap, p: nat, b: Block, w: Block -> nat)
    requires p !in m
    ensures Sum(m[p := b], w) == w(b) + Sum(m, w)
  {
    SumWithout(m[p := b], p, w);
    assert m[p := b] - {p} == m;
  }

  ghost function Size(): Block -> nat { (b: Block) => b.size }

  ghost function One(): Block -> nat { (b: Block) => 1 }

  ghost function InBin(k: nat): Block -> nat { (b: Block) => if Bin(b.size) == k then 1 else 0 }

  ghost function SiteSize(pc: nat): Block -> nat { (b: Block) => if b.pc == pc then b.size else 0 }

  ghost function SiteOne(pc: nat): Block -> nat { (b: Block) => if b.pc == pc then 1 else 0 }

  lemma {:induction false} SumIsZero(m: Heap, w: Block -> nat)
    requires forall p :: p in m ==> w(m[p]) == 0
    ensures Sum(m, w) == 0
    decreases |m|
  {
    if m != map[] {
      var p :| p in m;
      SumWithout(m, p, w);
      SumIsZero(m - {p}, w);
    }
  }

  ghost function BaseIs(x: nat): Block -> nat { (b: Block) => if b.base == x then 1 else 0 }

  // ---------------------------------------------------------------- the books

  /**
   * Every tracked site's counters are the sums over its live blocks; a site seen is tracked or
   * has no place; slots not claimed count nothing.
   */
  ghost predicate Exact(t: Table, heap: Heap, seen: set<nat>) {
    && Placed(t) && PlacedForGood(t, seen) && 0 !in seen && (forall p :: p in heap && heap[p].pc != 0 ==> heap[p].pc in seen)
    && forall i: nat :: i < NPC ==> SlotIsExact(t[i], heap)
  }

  ghost predicate PlacedForGood(t: Table, seen: set<nat>) {
    forall pc :: pc in seen ==> Tracked(t, pc) || Full(t, pc)
  }

  ghost predicate SlotIsExact(s: Slot, heap: Heap) {
    if s.pc == 0 then s.bytes == 0 && s.cnt == 0
    else s.bytes == Sum(heap, SiteSize(s.pc)) % WORD && s.cnt == Sum(heap, SiteOne(s.pc)) % WORD
  }

  ghost predicate Totals(bytes: nat, objs: nat, bins: seq<int>, heap: Heap) {
    && bytes == Sum(heap, Size()) % WORD && objs == Sum(heap, One()) % WORD
    && |bins| == NBIN && forall k: nat :: k < NBIN ==> bins[k] == Sum(heap, InBin(k))
  }

  /** The allocator's pointers are held by live blocks or have gone back, each once. */
  ghost predicate Returned(got: multiset<nat>, back: multiset<nat>, heap: Heap) {
    forall x: nat :: got[x] == back[x] + Sum(heap, BaseIs(x))
  }

  lemma ModAdd(a: int, n: int)
    ensures (a % WORD + n) % WORD == (a + n) % WORD
  {
  }

  lemma SamePlaces(t: Table, u: Table)
    requires Placed(t) && forall i :: 0 <= i < NPC ==> t[i].pc == u[i].pc
    ensures Placed(u) && forall pc :: Tracked(t, pc) == Tracked(u, pc) && Full(t, pc) == Full(u, pc)
  {
    hide At;
    forall i: nat | i < NPC && u[i].pc != 0 ensures exists k :: SitsAt(u, i, k) {
      var k: nat :| SitsAt(t, i, k);
      assert SitsAt(u, i, k);
    }
    forall pc ensures Tracked(t, pc) == Tracked(u, pc) {
      if i: nat :| i < NPC && t[i].pc == pc {
        assert u[i].pc == pc;
      }
    }
  }

  /** A slot can only be claimed for a site that is neither tracked nor without place. */
  lemma ClaimIsNew(t: Table, pc: nat, probe: nat)
    requires Placed(t) && pc != 0 && probe < PROBES && Passed(t, pc, probe) && t[At(pc, probe)].pc == 0
    ensures !Tracked(t, pc) && !Full(t, pc)
  {
    hide At, SitsAt;
    forall i: nat | i < NPC && t[i].pc != 0 ensures t[i].pc != pc {
      var k: nat :| SitsAt(t, i, k);
      SitsElsewhere(t, pc, probe, i, k);
    }
  }

  lemma SitsElsewhere(t: Table, pc: nat, probe: nat, i: nat, k: nat)
    requires i < NPC && t[i].pc != 0 && SitsAt(t, i, k)
    requires probe < PROBES && Passed(t, pc, probe) && t[At(pc, probe)].pc == 0
    ensures t[i].pc != pc
  {
    hide At;
    assert At(t[i].pc, k) == i;
    assert probe < k ==> t[At(t[i].pc, probe)].pc != 0;
  }

  /** Claims by any thread keep the books: a new site has no live block yet. */
  lemma {:induction false} ClaimIsExact(t: Table, heap: Heap, seen: set<nat>, pc: nat, probe: nat)
    requires Exact(t, heap, seen) && pc != 0 && probe < PROBES && Passed(t, pc, probe) && t[At(pc, probe)].pc == 0
    ensures Exact(Claimed(t, pc, probe), heap, seen) && Grows(t, Claimed(t, pc, probe))
  {
    hide At, Passed, Placed, SiteSize, SiteOne;
    ClaimIsPlaced(t, pc, probe);
    ClaimIsNew(t, pc, probe);
    NoBlocks(heap, pc);
    SettledGrows(t, Claimed(t, pc, probe), seen);
  }

  lemma NoBlocks(heap: Heap, pc: nat)
    requires forall p :: p in heap ==> heap[p].pc != pc
    ensures Sum(heap, SiteSize(pc)) == 0 && Sum(heap, SiteOne(pc)) == 0
  {
    SumIsZero(heap, SiteSize(pc));
    SumIsZero(heap, SiteOne(pc));
  }

  lemma SettledGrows(t: Table, u: Table, seen: set<nat>)
    requires PlacedForGood(t, seen) && Grows(t, u) && Placed(u) && 0 !in seen
    ensures PlacedForGood(u, seen)
  {
    hide Passed, Placed;
    forall pc | pc in seen ensures Tracked(u, pc) || Full(u, pc) {
      if Full(t, pc) {
        FullIsForGood(t, u, pc);
      } else {
        var i: nat :| i < NPC && t[i].pc == pc;
        assert u[i].pc == pc;
      }
    }
  }

  /** The table after a block of `size` bytes is counted in slot `e`, or nowhere. */
  function Counted(t: Table, e: int, size: int, one: int): Table
    requires -1 <= e < NPC
  {
    if e < 0 then t else t[e := t[e].(bytes := (t[e].bytes + size) % WORD, cnt := (t[e].cnt + one) % WORD)]
  }

  ghost predicate IsSlotOf(t: Table, e: int, pc: nat) {
    -1 <= e < NPC && if e < 0 then Full(t, pc) else t[e].pc == pc
  }

  lemma {:induction false} OnlySlot(t: Table, e: int, pc: nat, i: nat)
    requires Placed(t) && pc != 0 && IsSlotOf(t, e, pc) && i < NPC && t[i].pc == pc
    ensures i == e
  {
    if e < 0 {
      TrackedIsNotFull(t, i);
    } else {
      OneSlotEach(t, i, e);
    }
  }

  lemma {:induction false} AddIsExact(t: Table, heap: Heap, seen: set<nat>, p: nat, b: Block, e: int)
    requires Exact(t, heap, seen) && p !in heap && b.pc != 0 && IsSlotOf(t, e, b.pc)
    ensures Exact(Counted(t, e, b.size, 1), heap[p := b], seen + {b.pc})
  {
    hide Placed, Passed, Sum;
    var u, m := Counted(t, e, b.size, 1), heap[p := b];
    SamePlaces(t, u);
    forall i: nat | i < NPC ensures SlotIsExact(u[i], m) {
      SumWith(heap, p, b, SiteSize(t[i].pc));
      SumWith(heap, p, b, SiteOne(t[i].pc));
      if t[i].pc == b.pc {
        OnlySlot(t, e, b.pc, i);
        ModAdd(Sum(heap, SiteSize(b.pc)), b.size);
        ModAdd(Sum(heap, SiteOne(b.pc)), 1);
      }
    }
    AddSettles(t, u, seen, b.pc, e);
  }

  lemma AddSettles(t: Table, u: Table, seen: set<nat>, pc: nat, e: int)
    requires PlacedForGood(t, seen) && IsSlotOf(t, e, pc)
    requires forall q :: Tracked(t, q) == Tracked(u, q) && Full(t, q) == Full(u, q)
    ensures PlacedForGood(u, seen + {pc})
  {
    hide Passed;
    assert e >= 0 ==> Tracked(t, pc);
  }

  lemma {:induction false} DelIsExact(t: Table, heap: Heap, seen: set<nat>, p: nat, e: int)
    requires Exact(t, heap, seen) && p in heap && heap[p].pc != 0 && IsSlotOf(t, e, heap[p].pc)
    ensures Exact(Counted(t, e, 0 - heap[p].size, -1), heap - {p}, seen)
  {
    hide Placed, Passed, Sum;
    var b := heap[p];
    var u, m := Counted(t, e, 0 - b.size, -1), heap - {p};
    SamePlaces(t, u);
    forall i: nat | i < NPC ensures SlotIsExact(u[i], m) {
      SumWithout(heap, p, SiteSize(t[i].pc));
      SumWithout(heap, p, SiteOne(t[i].pc));
      if t[i].pc == b.pc {
        OnlySlot(t, e, b.pc, i);
        ModAdd(Sum(heap, SiteSize(b.pc)), 0 - b.size);
        ModAdd(Sum(heap, SiteOne(b.pc)), -1);
      }
    }
  }

  lemma AddTotals(bytes: nat, objs: nat, bins: seq<int>, heap: Heap, p: nat, b: Block)
    requires Totals(bytes, objs, bins, heap) && p !in heap
    ensures Totals((bytes + b.size) % WORD, (objs + 1) % WORD, bins[Bin(b.size) := bins[Bin(b.size)] + 1], heap[p := b])
  {
    hide Sum, Bin;
    SumWith(heap, p, b, Size());
    SumWith(heap, p, b, One());
    ModAdd(Sum(heap, Size()), b.size);
    ModAdd(Sum(heap, One()), 1);
    forall k: nat | k < NBIN ensures Sum(heap[p := b], InBin(k)) == Sum(heap, InBin(k)) + if k == Bin(b.size) then 1 else 0 {
      SumWith(heap, p, b, InBin(k));
    }
  }

  lemma DelTotals(bytes: nat, objs: nat, bins: seq<int>, heap: Heap, p: nat)
    requires Totals(bytes, objs, bins, heap) && p in heap
    ensures var b := heap[p];
            Totals((bytes - b.size) % WORD, (objs - 1) % WORD, bins[Bin(b.size) := bins[Bin(b.size)] - 1], heap - {p})
  {
    hide Sum, Bin;
    var b := heap[p];
    SumWithout(heap, p, Size());
    SumWithout(heap, p, One());
    ModAdd(Sum(heap, Size()), 0 - b.size);
    ModAdd(Sum(heap, One()), -1);
    forall k: nat | k < NBIN ensures Sum(heap - {p}, InBin(k)) == Sum(heap, InBin(k)) - if k == Bin(b.size) then 1 else 0 {
      SumWithout(heap, p, InBin(k));
    }
  }

  lemma AddReturned(got: multiset<nat>, back: multiset<nat>, heap: Heap, p: nat, b: Block)
    requires Returned(got, back, heap) && p !in heap
    ensures Returned(got + multiset{b.base}, back, heap[p := b])
  {
    hide Sum;
    forall x: nat ensures (got + multiset{b.base})[x] == back[x] + Sum(heap[p := b], BaseIs(x)) {
      SumWith(heap, p, b, BaseIs(x));
    }
  }

  lemma DelReturned(got: multiset<nat>, back: multiset<nat>, heap: Heap, p: nat)
    requires Returned(got, back, heap) && p in heap
    ensures Returned(got, back + multiset{heap[p].base}, heap - {p})
  {
    hide Sum;
    forall x: nat ensures got[x] == (back + multiset{heap[p].base})[x] + Sum(heap - {p}, BaseIs(x)) {
      SumWithout(heap, p, BaseIs(x));
    }
  }

  /** A counter in step with a sum that fits a word is that sum, and has room for the block that leaves it. */
  lemma CountersDoNotUnderflow(heap: Heap, p: nat, w: Block -> nat, counter: nat)
    requires counter == Sum(heap, w) % WORD && Sum(heap, w) < WORD && p in heap
    ensures counter == Sum(heap, w) && counter >= w(heap[p])
  {
    SumWithout(heap, p, w);
  }

  /** A block of call site 0 is in no site's sums. */
  lemma SiteZeroIsNoSite(t: Table, heap: Heap, seen: set<nat>, p: nat, b: Block)
    requires p !in heap && b.pc == 0
    ensures Exact(t, heap, seen) == Exact(t, heap[p := b], seen)
  {
    hide Placed, PlacedForGood, Sum;
    forall i: nat | i < NPC ensures SlotIsExact(t[i], heap) == SlotIsExact(t[i], heap[p := b]) {
      SumWith(heap, p, b, SiteSize(t[i].pc));
      SumWith(heap, p, b, SiteOne(t[i].pc));
    }
    assert forall q :: q in heap ==> heap[p := b][q] == heap[q];
  }

  /**
   * The search takes call site 0 for any empty slot, and leaves the slot unclaimed. Counting such
   * a block keeps the table exact if and only if the search found no slot.
   */
  lemma {:induction false} SiteZeroNeedsAFullTable(t: Table, heap: Heap, seen: set<nat>, p: nat, b: Block, e: int)
    requires Exact(t, heap, seen) && p !in heap && b.pc == 0
    requires -1 <= e < NPC && (e >= 0 ==> t[e].pc == 0)
    ensures Exact(Counted(t, e, b.size, 1), heap[p := b], seen) <==> e < 0
  {
    SiteZeroIsNoSite(t, heap, seen, p, b);
    hide Placed, PlacedForGood, Sum;
    if e >= 0 {
      var u := Counted(t, e, b.size, 1);
      assert SlotIsExact(t[e], heap);
      assert u[e].cnt == 1;
      assert !SlotIsExact(u[e], heap[p := b]);
    }
  }

  /** And a real site that then claims the slot has the other block's bytes in its count for good. */
  lemma SiteZeroSharesASlot(a: Block, b: Block)
    requires a.pc == 0 && b.pc == 16 * NPC && 0 < a.size < WORD && b.size < WORD
    ensures var t: Table := seq(NPC, _ => Slot(0, 0, 0)); var e := At(0, 0);
            var zero := Counted(t, e, a.size, 1);
            && e == At(b.pc, 0) && zero[e].pc == 0 && Passed(zero, b.pc, 0)
            && !SlotIsExact(Counted(Claimed(zero, b.pc, 0), e, b.size, 1)[e], map[1 := a, 2 := b])
  {
    assert 8192 * 2654435761 % WORD % NPC == 0;
    var one: Heap := map[1 := a];
    assert map[1 := a, 2 := b] == one[2 := b];
    SumWith(one, 2, b, SiteSize(b.pc));
    NoBlocks(one, b.pc);
    assert (a.size + b.size) % WORD != b.size;
  }

  lemma GrowsTwice(t: Table, u: Table, v: Table)
    requires Grows(t, u) && Grows(u, v)
    ensures Grows(t, v)
  {
  }

  /** Where a tracked site sits, its search has not yet passed. */
  ghost predicate NotYetPassed(t: Table, pc: nat, probe: nat) {
    exists k: nat :: probe <= k < PROBES && t[At(pc, k)].pc == pc
  }

  lemma TrackedIsAhead(t: Table, pc: nat)
    requires Placed(t) && Tracked(t, pc) && pc != 0
    ensures NotYetPassed(t, pc, 0)
  {
    hide At;
    var i: nat :| i < NPC && t[i].pc == pc;
    var k: nat :| SitsAt(t, i, k);
    assert t[At(pc, k)].pc == pc;
  }

  function SitesOf(pc: nat): set<nat> { if pc == 0 then {} else {pc} }

  /** A claim by another thread that has passed the probes before it. */
  datatype Claim = Claim(pc: nat, probe: nat)

  class Tracer {
    var liveBytes: nat
    var liveObjs: nat
    var nMalloc: nat
    var nFree: nat
    var bins: array<int>
    var tab: array<Slot>
    var headers: Heap
    var others: seq<seq<Claim>>         // what other threads will claim, between our steps
    ghost var seen: set<nat>            // sites that have allocated, but for site 0
    ghost var apart: bool               // no block of site 0 was counted in a slot so far
    ghost var got: multiset<nat>        // pointers from the allocator, and back to it
    ghost var back: multiset<nat>

    ghost predicate Valid()
      reads this, bins, tab
    {
      && tab.Length == NPC && (apart ==> Exact(tab[..], headers, seen))
      && Totals(liveBytes, liveObjs, bins[..], headers) && Returned(got, back, headers)
    }

    constructor (others: seq<seq<Claim>>)
      ensures Valid() && apart && headers == map[] && seen == {} && fresh(tab) && fresh(bins)
    {
      liveBytes, liveObjs, nMalloc, nFree := 0, 0, 0, 0;
      bins := new int[NBIN](_ => 0);
      tab := new Slot[NPC](_ => Slot(0, 0, 0));
      headers, this.others, seen, apart, got, back := map[], others, {}, true, multiset{}, multiset{};
    }

    /** Other threads claim slots while this one is between two steps of its search. */
    method Interfere(ghost heap: Heap, ghost exact: bool)
      requires tab.Length == NPC && (exact ==> Exact(tab[..], heap, seen))
      modifies tab, this`others
      ensures exact ==> Exact(tab[..], heap, seen) && Grows(old(tab[..]), tab[..])
    {
      hide Exact, Grows, Passed, At;
      ghost var was: Table := tab[..];
      assert Grows(was, tab[..]) by { SameGrows(was); }
      var claims := if others == [] then [] else others[0];
      others := if others == [] then [] else others[1..];
      var n := 0;
      while n < |claims|
        invariant exact ==> Exact(tab[..], heap, seen) && Grows(was, tab[..])
      {
        var c := claims[n];
        if c.pc != 0 && c.probe < PROBES && tab[At(c.pc, c.probe)].pc == 0 && Passed(tab[..], c.pc, c.probe) {
          ghost var t: Table := tab[..];
          tab[At(c.pc, c.probe)] := tab[At(c.pc, c.probe)].(pc := c.pc);
          assert tab[..] == Claimed(t, c.pc, c.probe);
          if exact {
            ClaimIsExact(t, heap, seen, c.pc, c.probe);
            GrowsTwice(was, t, tab[..]);
          }
        }
        n := n + 1;
      }
    }

    /**
     * pc_find: the site's slot, -1 when there is none. With `create`, none means that no probe
     * is left for it; without, that it was not tracked. For site 0 the slot is just an empty one.
     */
    method Find(pc: nat, create: bool, ghost heap: Heap, ghost exact: bool) returns (e: int)
      requires tab.Length == NPC && (exact ==> Exact(tab[..], heap, seen))
      modifies tab, this`others
      ensures exact ==> Exact(tab[..], heap, seen) && Grows(old(tab[..]), tab[..])
      ensures -1 <= e < NPC && (e >= 0 ==> tab[e].pc == pc)
      ensures exact && pc != 0 && create ==> IsSlotOf(tab[..], e, pc)
      ensures exact && pc != 0 && Tracked(old(tab[..]), pc) ==> e >= 0
    {
      hide Exact, Grows, At, Tracked;
      ghost var was: Table := tab[..];
      assert Grows(was, was) by { SameGrows(was); }
      ghost var site := exact && pc != 0;
      ghost var ahead := site && Tracked(was, pc);
      if ahead {
        assert Placed(was) by { ExactIsPlaced(was, heap, seen); }
        TrackedIsAhead(was, pc);
      }
      var probe := 0;
      while probe < PROBES
        invariant probe <= PROBES && (exact ==> Exact(tab[..], heap, seen) && Grows(was, tab[..]))
        invariant site && create ==> Passed(tab[..], pc, probe)
        invariant ahead ==> NotYetPassed(tab[..], pc, probe)
      {
        ghost var t: Table := tab[..];
        e := Probe(pc, probe, create, heap, exact);
        if exact {
          GrowsTwice(was, t, tab[..]);
        }
        if e >= 0 {
          return e;
        }
        probe := probe + 1;
      }
      return -1;
    }

    /** One probe: a look at the slot and, when it was empty, an attempt to claim it. */
    method Probe(pc: nat, probe: nat, create: bool, ghost heap: Heap, ghost exact: bool) returns (e: int)
      requires tab.Length == NPC && probe < PROBES && (exact ==> Exact(tab[..], heap, seen))
      requires exact && pc != 0 && create ==> Passed(tab[..], pc, probe)
      modifies tab, this`others
      ensures exact ==> Exact(tab[..], heap, seen) && Grows(old(tab[..]), tab[..])
      ensures -1 <= e < NPC && (e >= 0 ==> tab[e].pc == pc)
      ensures exact && pc != 0 && e < 0 && create ==> Passed(tab[..], pc, probe + 1)
      ensures exact && pc != 0 && e < 0 && NotYetPassed(old(tab[..]), pc, probe) ==> NotYetPassed(tab[..], pc, probe + 1)
    {
      hide Exact, At;
      ghost var site := exact && pc != 0;
      Interfere(heap, exact);
      if site {
        GrownStays(old(tab[..]), tab[..], pc, probe);
      }
      var i := At(pc, probe);
      var ep := tab[i].pc;
      if ep == pc {
        return i;
      }
      if ep == 0 && create {
        ghost var t: Table := tab[..];
        Interfere(heap, exact);
        if exact {
          GrownStays(t, tab[..], pc, probe);
          GrowsTwice(old(tab[..]), t, tab[..]);
        }
        if tab[i].pc == 0 {
          t := tab[..];
          tab[i] := tab[i].(pc := pc);
          assert tab[..] == Claimed(t, pc, probe);
          if exact {
            ClaimIsExact(t, heap, seen, pc, probe);
            GrowsTwice(old(tab[..]), t, tab[..]);
          }
          return i;
        }
        if tab[i].pc == pc {
          return i;
        }
      }
      return -1;
    }

    /** count_new, for a block whose header was just written. */
    method CountNew(n: nat, pc: nat, ghost heap: Heap, ghost p: nat, ghost b: Block)
      requires tab.Length == NPC && (apart ==> Exact(tab[..], heap, seen)) && Totals(liveBytes, liveObjs, bins[..], heap)
      requires p !in heap && headers == heap[p := b] && b.size == n && b.pc == pc
      modifies this`liveBytes, this`liveObjs, this`nMalloc, this`others, this`seen, this`apart, bins, tab
      ensures (apart ==> Exact(tab[..], headers, seen)) && Totals(liveBytes, liveObjs, bins[..], headers)
      ensures seen == old(seen) + SitesOf(pc) && nMalloc == old(nMalloc) + 1 && (pc != 0 ==> apart == old(apart))
    {
      hide Exact, Totals, Grows;
      AddTotals(liveBytes, liveObjs, bins[..], heap, p, b);
      BinsAreAll(liveBytes, liveObjs, bins[..], heap);
      liveBytes, liveObjs := (liveBytes + n) % WORD, (liveObjs + 1) % WORD;
      var bin := BinOf(n);
      ghost var was := bins[..];
      bins[bin] := bins[bin] + 1;
      assert bins[..] == was[bin := was[bin] + 1];
      AddToSite(n, pc, heap, p, b);
      nMalloc := nMalloc + 1;
    }

    /** The site's share of count_new. */
    method AddToSite(n: nat, pc: nat, ghost heap: Heap, ghost p: nat, ghost b: Block)
      requires tab.Length == NPC && (apart ==> Exact(tab[..], heap, seen))
      requires p !in heap && headers == heap[p := b] && b.size == n && b.pc == pc
      modifies this`others, this`seen, this`apart, tab
      ensures apart ==> Exact(tab[..], headers, seen)
      ensures seen == old(seen) + SitesOf(pc) && (pc != 0 ==> apart == old(apart))
    {
      hide Exact, Grows;
      var e := Find(pc, true, heap, apart);
      if apart && pc != 0 {
        AddIsExact(tab[..], heap, seen, p, b, e);
      } else if apart {
        SiteZeroIsNoSite(tab[..], heap, seen, p, b);
        assert seen + {} == seen;
      }
      Bump(e, n, 1);
      seen, apart := seen + SitesOf(pc), apart && (pc != 0 || e < 0);
    }

    /** Adds to a site's counters, if there is a site. */
    method Bump(e: int, size: int, one: int)
      requires tab.Length == NPC && -1 <= e < NPC
      modifies tab
      ensures tab[..] == Counted(old(tab[..]), e, size, one)
    {
      if e >= 0 {
        tab[e] := tab[e].(bytes := (tab[e].bytes + size) % WORD, cnt := (tab[e].cnt + one) % WORD);
      }
    }

    /** count_del, by the site recorded when the block was allocated. */
    method CountDel(p: nat)
      requires Valid() && p in headers
      modifies this`liveBytes, this`liveObjs, this`nFree, this`others, this`apart, bins, tab
      ensures tab.Length == NPC && (apart ==> Exact(tab[..], headers - {p}, seen)) && (headers[p].pc != 0 ==> apart == old(apart))
      ensures Totals(liveBytes, liveObjs, bins[..], headers - {p}) && nFree == old(nFree) + 1
    {
      hide Exact, Totals, Grows, Returned;
      var n := headers[p].size;
      DelTotals(liveBytes, liveObjs, bins[..], headers, p);
      BinsAreAll(liveBytes, liveObjs, bins[..], headers);
      liveBytes, liveObjs := (liveBytes - n) % WORD, (liveObjs - 1) % WORD;
      var b := BinOf(n);
      ghost var was := bins[..];
      bins[b] := bins[b] - 1;
      assert bins[..] == was[b := was[b] - 1];
      nFree := nFree + 1;
      TakeFromSite(p);
    }

    /** The site's share of count_del. */
    method TakeFromSite(p: nat)
      requires tab.Length == NPC && (apart ==> Exact(tab[..], headers, seen)) && p in headers
      modifies this`others, this`apart, tab
      ensures (apart ==> Exact(tab[..], headers - {p}, seen)) && (headers[p].pc != 0 ==> apart == old(apart))
    {
      hide Exact, Grows;
      var n, pc := headers[p].size, headers[p].pc;
      ghost var t: Table := tab[..];
      var e := Find(pc, false, headers, apart);
      if apart && pc != 0 {
        SeenBlock(t, headers, seen, p);
        FoundOrFull(t, tab[..], headers, seen, pc, e);
        DelIsExact(tab[..], headers, seen, p, e);
      } else if apart {
        assert (headers - {p})[p := headers[p]] == headers;
        SiteZeroIsNoSite(tab[..], headers - {p}, seen, p, headers[p]);
      }
      Bump(e, -(n as int), -1);
      apart := apart && (pc != 0 || e < 0);
    }

    /** tag: the header of a new block, and its place in the books. */
    method Tag(base: nat, p: nat, n: nat, pc: nat)
      requires Valid() && p !in headers
      modifies this, bins, tab
      ensures Valid() && headers == old(headers)[p := Block(n, pc, base)] && (pc != 0 ==> apart == old(apart))
      ensures seen == old(seen) + SitesOf(pc) && got == old(got) + multiset{base} && back == old(back)
      ensures tab == old(tab) && bins == old(bins)
    {
      hide Exact, Totals, Returned;
      ghost var heap := headers;
      headers := headers[p := Block(n, pc, base)];
      got := got + multiset{base};
      AddReturned(old(got), back, heap, p, headers[p]);
      CountNew(n, pc, heap, p, headers[p]);
    }

    /** malloc_pc and calloc_pc: `base` is what the allocator returns, 0 when it has nothing. */
    method Malloc(n: nat, pc: nat, base: nat) returns (p: nat)
      requires Valid() && base + HDRSZ !in headers
      modifies this, bins, tab
      ensures Valid() && (p == 0) == (base == 0) && (pc != 0 ==> apart == old(apart))
      ensures headers == if base == 0 then old(headers) else old(headers)[p := Block(n, pc, base)]
      ensures base != 0 ==> p !in old(headers) && p == base + HDRSZ && got == old(got) + multiset{base}
    {
      if base == 0 {
        return 0;
      }
      Tag(base, base + HDRSZ, n, pc);
      return base + HDRSZ;
    }

    /** memalign_pc over a power of two: the block is aligned, inside what the allocator gave, its header just before it. */
    method Memalign(n: nat, align: nat, pc: nat, base: nat) returns (p: nat)
      requires Valid() && base + HDRSZ !in headers && Aligned(base, align) !in headers
      modifies this, bins, tab
      ensures Valid() && (p == 0) == (base == 0) && (pc != 0 ==> apart == old(apart))
      ensures headers == if base == 0 then old(headers) else old(headers)[p := Block(n, pc, base)]
      ensures base != 0 && align <= 16 ==> p == base + HDRSZ
      ensures base != 0 && align > 16 ==> p % align == 0 && base <= p - HDRSZ && p + n <= base + n + HDRSZ + align
    {
      if align <= 16 {
        p := Malloc(n, pc, base);
        return;
      }
      if base == 0 {
        return 0;
      }
      p := Aligned(base, align);
      RoundedUp(base + HDRSZ + align - 1, align);
      Tag(base, p, n, pc);
    }

    /** realloc of a block of ours, or of none; a foreign pointer is passed on. `caller` is the site of a first allocation. */
    method Realloc(p: nat, n: nat, caller: nat, base: nat) returns (r: nat)
      requires Valid() && base + HDRSZ !in headers - {p}
      modifies this, bins, tab
      ensures (p == 0 || p in old(headers)) && base != 0 ==> r == base + HDRSZ && r in headers
      ensures (p == 0 || p in old(headers)) && base == 0 ==> r == 0
      ensures p != 0 && p !in old(headers) ==> r == base
      ensures Valid() && (caller != 0 && (p in old(headers) ==> old(headers)[p].pc != 0) ==> apart == old(apart))
      ensures headers ==
              if base == 0 || (p != 0 && p !in old(headers)) then old(headers)
              else if p == 0 then old(headers)[base + HDRSZ := Block(n, caller, base)]
              else (old(headers) - {p})[base + HDRSZ := Block(n, old(headers)[p].pc, base)]
      ensures p in old(headers) && p != 0 && base != 0 ==> got == old(got) + multiset{base} && back == old(back) + multiset{old(headers)[p].base}
    {
      hide Exact, Totals, Returned;
      if p == 0 {
        r := Malloc(n, caller, base);
        return;
      }
      if p !in headers || base == 0 {
        return if p in headers then 0 else base;
      }
      var pc := headers[p].pc;
      Drop(p);
      Tag(base, base + HDRSZ, n, pc);
      return base + HDRSZ;
    }

    /** A block leaves the books, its pointer goes back to the allocator. */
    method Drop(p: nat)
      requires Valid() && p in headers
      modifies this, bins, tab
      ensures Valid() && headers == old(headers) - {p} && seen == old(seen) && (old(headers)[p].pc != 0 ==> apart == old(apart))
      ensures got == old(got) && back == old(back) + multiset{old(headers)[p].base}
      ensures tab == old(tab) && bins == old(bins)
    {
      hide Totals, Returned, Exact;
      DelReturned(got, back, headers, p);
      CountDel(p);
      back := back + multiset{headers[p].base};
      headers := headers - {p};
    }

    /** free: what was not counted in passes through. */
    method Free(p: nat)
      requires Valid()
      modifies this, bins, tab
      ensures Valid() && headers == if p == 0 then old(headers) else old(headers) - {p}
      ensures (p in old(headers) ==> old(headers)[p].pc != 0) ==> apart == old(apart)
      ensures p != 0 && p in old(headers) ==> back == old(back) + multiset{old(headers)[p].base}
    {
      if p == 0 || p !in headers {
        assert p !in headers ==> headers - {p} == headers;
        return;
      }
      Drop(p);
    }

    /** The sites dump prints: the eight with most live bytes, largest first. */
    method Dump() returns (top: seq<int>)
      requires tab.Length == NPC
      ensures Best(tab[..], NPC, top)
    {
      var idx := new int[TOP](_ => -1);
      top := [];
      var i := 0;
      while i < NPC
        invariant i <= NPC && fresh(idx) && idx.Length == TOP && tab.Length == NPC && tab[..] == old(tab[..])
        invariant Best(tab[..], i, top) && Padded(idx[..], top)
      {
        hide Best, Padded;
        if tab[i].pc == 0 {
          SkipIsBest(tab[..], i, top);
        } else {
          top := Rank(idx, i, top);
        }
        i := i + 1;
      }
    }

    /** Puts site `i` before the first of the ranks that has fewer bytes. */
    method Rank(idx: array<int>, i: nat, top: seq<int>) returns (top': seq<int>)
      requires tab.Length == NPC && idx.Length == TOP && i < NPC && tab[i].pc != 0
      requires Best(tab[..], i, top) && Padded(idx[..], top)
      modifies idx
      ensures Best(tab[..], i + 1, top') && Padded(idx[..], top')
    {
      var k := FirstBelow(idx, i, top);
      hide Padded, Inserted;
      if k == TOP {
        SkipIsBest(tab[..], i, top);
        return top;
      }
      InsertIsBest(tab[..], i, top, k);
      hide Best, Belongs;
      ShiftIsPadded(idx[..], top, k, i);
      Place(idx, k, i);
      return Inserted(top, k, i);
    }

    method FirstBelow(idx: array<int>, i: nat, ghost top: seq<int>) returns (k: nat)
      requires tab.Length == NPC && idx.Length == TOP && i < NPC && tab[i].pc != 0
      requires Members(tab[..], i, top) && Padded(idx[..], top)
      ensures if k == TOP then Listed(tab[i]) ==> |top| == TOP && tab[i].bytes <= tab[top[TOP - 1]].bytes
              else Belongs(tab[..], i, top, k)
    {
      var b := tab[i].bytes;
      k := 0;
      while k < TOP && b <= if idx[k] == -1 then 0 else tab[idx[k]].bytes
        invariant k <= TOP && (k <= |top| || b == 0) && forall j :: 0 <= j < k && j < |top| ==> tab[top[j]].bytes >= b
      {
        k := k + 1;
      }
    }

    method Place(idx: array<int>, k: nat, i: nat)
      requires idx.Length == TOP && k < TOP
      modifies idx
      ensures idx[..] == old(idx[..])[..k] + [i as int] + old(idx[..])[k..TOP - 1]
    {
      Shift(idx, k);
      idx[k] := i;
    }

    method Shift(idx: array<int>, k: nat)
      requires idx.Length == TOP && k < TOP
      modifies idx
      ensures idx[..k] == old(idx[..k]) && idx[k + 1..] == old(idx[k..TOP - 1])
    {
      var j := TOP - 1;
      while j > k
        invariant k <= j < TOP
        invariant forall m :: 0 <= m <= j ==> idx[m] == old(idx[m])
        invariant forall m :: j < m < TOP ==> idx[m] == old(idx[m - 1])
      {
        idx[j] := idx[j - 1];
        j := j - 1;
      }
    }
  }

  predicate Listed(s: Slot) { s.pc != 0 && s.bytes > 0 }

  predicate Members(t: seq<Slot>, n: nat, r: seq<int>) {
    n <= |t| && |r| <= TOP && forall j :: 0 <= j < |r| ==> 0 <= r[j] < n && Listed(t[r[j]])
  }

  predicate Descending(t: seq<Slot>, n: nat, r: seq<int>)
    requires Members(t, n, r)
  {
    forall j, k :: 0 <= j < k < |r| ==> r[j] != r[k] && t[r[j]].bytes >= t[r[k]].bytes
  }

  predicate NoneLarger(t: seq<Slot>, n: nat, r: seq<int>)
    requires Members(t, n, r)
  {
    forall i :: 0 <= i < n && Listed(t[i]) && i !in r ==> |r| == TOP && t[i].bytes <= t[r[TOP - 1]].bytes
  }

  /** `r` lists the sites among the first `n` slots with most live bytes: up to eight, descending. */
  predicate Best(t: seq<Slot>, n: nat, r: seq<int>) {
    Members(t, n, r) && Descending(t, n, r) && NoneLarger(t, n, r)
  }

  /** Ranks not filled hold the sentinel. */
  predicate Padded(idx: seq<int>, r: seq<int>) {
    |r| <= |idx| == TOP && (forall k :: 0 <= k < |r| ==> idx[k] == r[k]) && forall k :: |r| <= k < TOP ==> idx[k] == -1
  }

  function Inserted(r: seq<int>, k: nat, i: int): (q: seq<int>)
    requires k <= |r| <= TOP && k < TOP
    ensures |q| == Min(|r| + 1, TOP)
  {
    var q := r[..k] + [i] + r[k..];
    if |q| > TOP then q[..TOP] else q
  }

  lemma SkipIsBest(t: seq<Slot>, n: nat, r: seq<int>)
    requires n < |t| && Best(t, n, r)
    requires Listed(t[n]) ==> |r| == TOP && t[n].bytes <= t[r[TOP - 1]].bytes
    ensures Best(t, n + 1, r)
  {
  }

  /** A site that belongs at rank `k`. */
  predicate Belongs(t: seq<Slot>, n: nat, r: seq<int>, k: nat) {
    && n < |t| && Members(t, n, r) && Listed(t[n]) && k <= |r| && k < TOP
    && (forall j :: 0 <= j < k ==> t[r[j]].bytes >= t[n].bytes)
    && (k < |r| ==> t[r[k]].bytes < t[n].bytes)
  }

  lemma {:induction false} InsertIsBest(t: seq<Slot>, n: nat, r: seq<int>, k: nat)
    requires Best(t, n, r) && Belongs(t, n, r, k)
    ensures Best(t, n + 1, Inserted(r, k, n))
  {
    hide Inserted, Descending, NoneLarger;
    InsertedAt(r, k, n);
    assert Members(t, n + 1, Inserted(r, k, n));
    InsertDescends(t, n, r, k);
    InsertLeavesNone(t, n, r, k);
  }

  lemma InsertedAt(r: seq<int>, k: nat, i: int)
    requires k <= |r| <= TOP && k < TOP
    ensures var q := Inserted(r, k, i);
            && (forall j :: 0 <= j < k ==> q[j] == r[j]) && q[k] == i
            && (forall j :: k < j < |q| ==> q[j] == r[j - 1])
  {
  }

  lemma InsertDescends(t: seq<Slot>, n: nat, r: seq<int>, k: nat)
    requires Belongs(t, n, r, k) && Descending(t, n, r) && Members(t, n + 1, Inserted(r, k, n))
    ensures Descending(t, n + 1, Inserted(r, k, n))
  {
    hide Inserted;
    InsertedAt(r, k, n);
    var q := Inserted(r, k, n);
    forall a, b | 0 <= a < b < |q| ensures q[a] != q[b] && t[q[a]].bytes >= t[q[b]].bytes {
      var a', b' := if a < k then a else a - 1, if b < k then b else b - 1;
      if a != k && b != k {
        assert q[a] == r[a'] && q[b] == r[b'];
      } else if a == k {
        assert q[b] == r[b'];
        assert b' > k ==> t[r[k]].bytes >= t[r[b']].bytes;
      }
    }
  }

  /** Only the last of eight ranks is lost. */
  lemma StillRanked(r: seq<int>, k: nat, i: int, j: nat)
    requires k <= |r| <= TOP && k < TOP && j < |r|
    ensures j < TOP - 1 ==> r[j] in Inserted(r, k, i)
  {
    var q := Inserted(r, k, i);
    if j < k {
      assert q[j] == r[j];
    } else if j < TOP - 1 {
      assert q[j + 1] == r[j];
    }
  }

  lemma InsertLeavesNone(t: seq<Slot>, n: nat, r: seq<int>, k: nat)
    requires Belongs(t, n, r, k) && Descending(t, n, r) && NoneLarger(t, n, r) && Members(t, n + 1, Inserted(r, k, n))
    ensures NoneLarger(t, n + 1, Inserted(r, k, n))
  {
    hide Inserted;
    InsertedAt(r, k, n);
    var q := Inserted(r, k, n);
    forall i | 0 <= i < n + 1 && Listed(t[i]) && i !in q ensures |q| == TOP && t[i].bytes <= t[q[TOP - 1]].bytes {
      assert q[k] == n && i != n;
      if i in r {
        var j :| 0 <= j < |r| && r[j] == i;
        StillRanked(r, k, n, j);
      }
      LastDrops(t, n, r, k, q);
    }
  }

  /** With eight ranks taken, the last rank does not get smaller. */
  lemma LastDrops(t: seq<Slot>, n: nat, r: seq<int>, k: nat, q: seq<int>)
    requires Belongs(t, n, r, k) && Descending(t, n, r) && |r| == TOP == |q| && Members(t, n + 1, q)
    requires (forall j :: 0 <= j < k ==> q[j] == r[j]) && q[k] == n && forall j :: k < j < |q| ==> q[j] == r[j - 1]
    ensures t[q[TOP - 1]].bytes >= t[r[TOP - 1]].bytes
  {
    if k == TOP - 1 {
      assert q[TOP - 1] == n;
    } else {
      assert q[TOP - 1] == r[TOP - 2];
    }
  }

  lemma ShiftIsPadded(idx: seq<int>, r: seq<int>, k: nat, i: int)
    requires Padded(idx, r) && k <= |r| && k < TOP
    ensures Padded(idx[..k] + [i] + idx[k..TOP - 1], Inserted(r, k, i))
  {
  }

  function Aligned(base: nat, align: nat): nat {
    if align <= 16 then base + HDRSZ else (base + HDRSZ + align - 1) / align * align
  }

  lemma RoundedUp(x: nat, align: nat)
    requires align > 0
    ensures x / align * align % align == 0 && x - align < x / align * align <= x
  {
    assert x == x / align * align + x % align;
    MultipleOf(x / align, align);
  }

  lemma BinsAreAll(bytes: nat, objs: nat, bins: seq<int>, heap: Heap)
    requires Totals(bytes, objs, bins, heap)
    ensures |bins| == NBIN
  {
  }

  /** A live block's site has allocated, so it is tracked or has no place. */
  lemma SeenBlock(t: Table, heap: Heap, seen: set<nat>, p: nat)
    requires Exact(t, heap, seen) && p in heap && heap[p].pc != 0
    ensures heap[p].pc in seen && (Tracked(t, heap[p].pc) || Full(t, heap[p].pc))
  {
  }

  /** A search without creating finds what was tracked, and nothing of a site without a place. */
  lemma FoundOrFull(t: Table, u: Table, heap: Heap, seen: set<nat>, pc: nat, e: int)
    requires Grows(t, u) && Exact(u, heap, seen) && pc != 0 && (Tracked(t, pc) || Full(t, pc)) && (Tracked(t, pc) ==> e >= 0)
    requires -1 <= e < NPC && (e >= 0 ==> u[e].pc == pc)
    ensures IsSlotOf(u, e, pc)
  {
    if Full(t, pc) {
      FullIsForGood(t, u, pc);
    }
  }

  /** What a search has passed, and what lies ahead of it, stays as the table grows. */
  lemma GrownStays(t: Table, u: Table, pc: nat, probe: nat)
    requires Grows(t, u) && pc != 0
    ensures NotYetPassed(t, pc, probe) ==> NotYetPassed(u, pc, probe)
    ensures Passed(t, pc, probe) ==> Passed(u, pc, probe)
  {
    hide At;
    if NotYetPassed(t, pc, probe) {
      var k: nat :| probe <= k < PROBES && t[At(pc, k)].pc == pc;
      assert u[At(pc, k)].pc == pc;
    }
    if Passed(t, pc, probe) {
      forall k: nat | k < probe ensures u[At(pc, k)].pc != 0 && u[At(pc, k)].pc != pc {
        assert t[At(pc, k)].pc != 0;
      }
    }
  }

  lemma SameGrows(t: Table)
    ensures Grows(t, t)
  {
  }

  lemma ExactIsPlaced(t: Table, heap: Heap, seen: set<nat>)
    requires Exact(t, heap, seen)
    ensures Placed(t)
  {
  }
}
