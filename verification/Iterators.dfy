/**
 * Native candidate iterators between the engine thread and the daemon. Everything under the
 * candidate mutex is a field of CandidateHub; each locked section is one uninterrupted
 * stretch of a method, and wherever the daemon runs unlocked the engine thread may take any
 * number of steps (Interfere), so that every interleaving is covered.
 */
module Iterators {
  import opened Basics

  const CAND_QUEUE := 32
  const INPUT_SIZE := 256

  /** A callback's iterator, with the input string it was computed for when that is known. */
  datatype CandEvent = CandEvent(it: int, known: bool, input: string)

  /** A step of the engine thread through the fake JNI. */
  datatype Act =
    | Match(text: string)          // PendingInput.match
    | Inputs                       // pendingInputs
    | NewIterator(it: int)         // CandidateList.newIterator
    | BatchEvent                   // WxhldApi.onBatchEvent

  /** A command: B, L or a partial S search again; a full S only drops late events; C renews the session. */
  datatype Command = Search(expected: string) | Drop | Renew

  /** The current iterator as a list; 0 is none. */
  function Current(it: int): seq<int> { if it == 0 then [] else [it] }

  /** What the engine thread does while the daemon is unlocked, and how long that takes. */
  datatype Slice = Slice(acts: seq<Act>, ms: nat)

  function Slot(it: int): multiset<int> { if it == 0 then multiset{} else multiset{it} }

  function Its(events: seq<CandEvent>): seq<int> { seq(|events|, k requires 0 <= k < |events| => events[k].it) }

  /** Fewer iterators waiting keep an orderly future orderly. */
  lemma {:induction false} OrderlyWeakens(acts: seq<Act>, pending: bool, queued: nat, pending': bool, queued': nat)
    requires Orderly(acts, pending, queued) && (pending' ==> pending) && queued' <= queued
    ensures Orderly(acts, pending', queued')
    decreases |acts|
  {
    if acts != [] {
      match acts[0]
      case NewIterator(_) => OrderlyWeakens(acts[1..], true, queued, true, queued');
      case BatchEvent =>
        if pending {
          OrderlyWeakens(acts[1..], false, queued + 1, false, if pending' then queued' + 1 else queued');
        } else {
          OrderlyWeakens(acts[1..], false, queued, false, queued');
        }
      case _ => OrderlyWeakens(acts[1..], pending, queued, pending', queued');
    }
  }

  // ---------------------------------------------------------------- the books

  /**
   * Where every iterator is: those out (live), of which the daemon holds some in local
   * variables and some are lost (dropped from a full queue or an overwritten slot); and the
   * histories of captures and returns, in which an address may come back once returned.
   */
  datatype Books = Books(live: set<int>, held: multiset<int>, lost: multiset<int>,
                         captured: seq<int>, returned: seq<int>)

  /** Every iterator out is lost, held, in the slot, in the queue or current: in exactly one place. */
  ghost predicate Balanced(b: Books, pend: int, queue: seq<CandEvent>, cur: int) {
    && multiset(b.live) == b.lost + b.held + Slot(pend) + multiset(Its(queue)) + Slot(cur)
    && multiset(b.captured) == multiset(b.returned) + multiset(b.live)
    && 0 !in b.live
  }

  /** No iterator is ever in two places, and nothing that was returned and not handed out again is anywhere. */
  lemma OnePlaceEach(b: Books, pend: int, queue: seq<CandEvent>, cur: int, it: int)
    requires Balanced(b, pend, queue, cur)
    ensures b.lost[it] + b.held[it] + Slot(pend)[it] + multiset(Its(queue))[it] + Slot(cur)[it]
         == (if it in b.live then 1 else 0)
    ensures multiset(b.captured)[it] == multiset(b.returned)[it] + (if it in b.live then 1 else 0)
  {
    assert multiset(b.live)[it] == if it in b.live then 1 else 0;
    assert (b.lost + b.held + Slot(pend) + multiset(Its(queue)) + Slot(cur))[it] == multiset(b.live)[it];
  }

  /** A new iterator takes the slot, and one still there is lost. */
  function Capture(b: Books, it: int, pend: int): Books {
    b.(live := b.live + {it}, lost := b.lost + Slot(pend), captured := b.captured + [it])
  }

  lemma CaptureBalances(b: Books, pend: int, queue: seq<CandEvent>, cur: int, it: int)
    requires Balanced(b, pend, queue, cur) && it !in b.live && it != 0
    ensures Balanced(Capture(b, it, pend), it, queue, cur)
  {
    assert multiset(b.live + {it}) == multiset(b.live) + multiset{it};
  }

  function Lose(b: Books, it: int): Books { b.(lost := b.lost + multiset{it}) }

  lemma LoseBalances(b: Books, pend: int, queue: seq<CandEvent>, cur: int)
    requires Balanced(b, pend, queue, cur) && queue != []
    ensures Balanced(Lose(b, queue[0].it), pend, queue[1..], cur)
  {
    assert Its(queue) == [queue[0].it] + Its(queue[1..]);
  }

  lemma EnqueueBalances(b: Books, pend: int, queue: seq<CandEvent>, cur: int, ev: CandEvent)
    requires Balanced(b, pend, queue, cur) && ev.it == pend && pend != 0
    ensures Balanced(b, 0, queue + [ev], cur)
  {
    assert Its(queue + [ev]) == Its(queue) + [ev.it];
  }

  /** The daemon takes the whole queue into its own variables. */
  function Take(b: Books, queue: seq<CandEvent>): Books { b.(held := b.held + multiset(Its(queue))) }

  lemma TakeBalances(b: Books, pend: int, queue: seq<CandEvent>, cur: int)
    requires Balanced(b, pend, queue, cur)
    ensures Balanced(Take(b, queue), pend, [], cur) && Take(b, queue).lost == b.lost
  {
    assert Its([]) == [];
  }

  lemma QueueNonZero(b: Books, pend: int, queue: seq<CandEvent>, cur: int)
    requires Balanced(b, pend, queue, cur)
    ensures forall k :: 0 <= k < |queue| ==> queue[k].it != 0
  {
    forall k | 0 <= k < |queue| ensures queue[k].it != 0 {
      assert Its(queue)[k] in multiset(Its(queue));
      assert queue[k].it in multiset(b.live);
    }
  }

  /** delete_candidate_iterator on an iterator the daemon holds. */
  function GiveBack(b: Books, it: int): Books {
    b.(live := b.live - {it}, held := b.held - multiset{it}, returned := b.returned + [it])
  }

  lemma GiveBackBalances(b: Books, pend: int, queue: seq<CandEvent>, cur: int, it: int)
    requires Balanced(b, pend, queue, cur) && it in b.held
    ensures it in b.live && it != 0 && it != cur && Balanced(GiveBack(b, it), pend, queue, cur) && GiveBack(b, it).lost == b.lost
  {
    HeldIsAlone(b, pend, queue, cur, it);
    var r := GiveBack(b, it);
    hide Its, Slot;
    OneFewer(b.live, b.lost, b.held, Slot(pend), multiset(Its(queue)), Slot(cur), it);
    assert multiset(r.returned) == multiset(b.returned) + multiset{it};
    assert multiset(b.live) == multiset(r.live) + multiset{it};
  }

  lemma OneFewer(live: set<int>, a: multiset<int>, held: multiset<int>, c: multiset<int>, d: multiset<int>, e: multiset<int>, it: int)
    requires multiset(live) == a + held + c + d + e && it in held && it in live
    ensures multiset(live - {it}) == a + (held - multiset{it}) + c + d + e
    ensures multiset(live) == multiset(live - {it}) + multiset{it}
  {
    forall x: int ensures multiset(live - {it})[x] == (a + (held - multiset{it}) + c + d + e)[x] {
      assert multiset(live)[x] == (a + held + c + d + e)[x];
    }
  }

  lemma HeldIsAlone(b: Books, pend: int, queue: seq<CandEvent>, cur: int, it: int)
    requires Balanced(b, pend, queue, cur) && it in b.held
    ensures it in b.live && it != 0 && it != cur
  {
    var others := b.lost + Slot(pend) + multiset(Its(queue));
    assert multiset(b.live) == others + b.held + Slot(cur);
    assert multiset(b.live)[it] == others[it] + b.held[it] + Slot(cur)[it];
    assert it in multiset(b.live);
    assert it in b.live;
    assert multiset(b.live)[it] == 1;
  }

  /** A held iterator becomes the current one, whose place is free; or the current one is held again. */
  lemma KeepBalances(b: Books, pend: int, queue: seq<CandEvent>, it: int)
    requires Balanced(b, pend, queue, 0) && it in b.held
    ensures it != 0 && Balanced(b.(held := b.held - multiset{it}), pend, queue, it)
  {
    assert it in multiset(b.live);
  }

  lemma ReleaseBalances(b: Books, pend: int, queue: seq<CandEvent>, cur: int)
    requires Balanced(b, pend, queue, cur) && cur != 0
    ensures cur in (b.held + multiset{cur}) && Balanced(b.(held := b.held + multiset{cur}), pend, queue, 0)
  {
  }

  /** The letters of PendingInput.match appended while they fit. */
  function Accumulated(acc: string, text: string): string
    decreases |text|
  {
    if text == "" || |acc| + 1 >= INPUT_SIZE then acc
    else if 'a' <= text[0] <= 'z' then Accumulated(acc + [text[0]], text[1..])
    else Accumulated(acc, text[1..])
  }

  /** The letters a to z of a text, in order. */
  function LettersIn(text: string): string {
    if text == "" then "" else (if 'a' <= text[0] <= 'z' then [text[0]] else "") + LettersIn(text[1..])
  }

  /** What is accumulated are the first 255 letters of all match strings, whatever stands between them. */
  lemma {:induction false} AccumulatedIsPrefix(acc: string, text: string)
    requires |acc| < INPUT_SIZE
    ensures var all := acc + LettersIn(text);
            Accumulated(acc, text) == if |all| < INPUT_SIZE then all else all[..INPUT_SIZE - 1]
    decreases |text|
  {
    if text == "" {
      assert acc + "" == acc;
    } else if |acc| + 1 >= INPUT_SIZE {
      assert (acc + LettersIn(text))[..|acc|] == acc;
      assert |acc + LettersIn(text)| < INPUT_SIZE ==> acc + LettersIn(text) == acc;
    } else if 'a' <= text[0] <= 'z' {
      assert acc + LettersIn(text) == acc + [text[0]] + LettersIn(text[1..]);
      AccumulatedIsPrefix(acc + [text[0]], text[1..]);
    } else {
      assert LettersIn(text) == LettersIn(text[1..]);
      AccumulatedIsPrefix(acc, text[1..]);
    }
  }

  ghost predicate NoneAfter(times: seq<int>, t: int) { forall k :: 0 <= k < |times| ==> times[k] <= t }

  lemma StillNoneAfter(times: seq<int>, t: int, later: int)
    requires NoneAfter(times, t) && t <= later
    ensures NoneAfter(times, later)
  {
  }

  /** Some event is known not to be for the expected input, so waiting for an exact one may be vain. */
  predicate KnownMismatch(events: seq<CandEvent>, expected: string) {
    expected != "" && exists k :: 0 <= k < |events| && events[k].known && events[k].input != expected
  }

  predicate IsExact(events: seq<CandEvent>, expected: string) {
    events != [] && events[|events| - 1].known && events[|events| - 1].input == expected
  }

  /** newIterator and onBatchEvent alternate, and the queue has room for each callback. */
  predicate Orderly(acts: seq<Act>, pending: bool, queued: nat)
    decreases |acts|
  {
    acts == []
    || match acts[0]
       case NewIterator(it) => !pending && Orderly(acts[1..], true, queued)
       case BatchEvent =>
         if pending then queued < CAND_QUEUE && Orderly(acts[1..], false, queued + 1)
         else Orderly(acts[1..], false, queued)
       case _ => Orderly(acts[1..], pending, queued)
  }

  lemma OrderlyGoesOn(act: Act, rest: seq<Act>, pending: bool, queued: nat)
    requires Orderly([act] + rest, pending, queued)
    ensures match act
            case NewIterator(_) => !pending && Orderly(rest, true, queued)
            case BatchEvent => if pending then queued < CAND_QUEUE && Orderly(rest, false, queued + 1) else Orderly(rest, false, queued)
            case _ => Orderly(rest, pending, queued)
  {
    assert ([act] + rest)[1..] == rest;
  }

  lemma ClosedBooks(b: Books, pend: int, queue: seq<CandEvent>)
    requires Balanced(b, pend, queue, 0) && b.held == multiset{}
    ensures multiset(b.captured) == multiset(b.returned) + b.lost + Slot(pend) + multiset(Its(queue))
    ensures forall it :: multiset(b.returned)[it] <= multiset(b.captured)[it]
  {
  }

  /** The newest iterator taken, if any. */
  function Newest(taken: seq<CandEvent>): int { if taken == [] then 0 else taken[|taken| - 1].it }

  /** Everything taken but the newest. */
  function Older(taken: seq<CandEvent>): seq<CandEvent> { if taken == [] then [] else taken[..|taken| - 1] }

  lemma OlderSnoc(taken: seq<CandEvent>, ev: CandEvent)
    ensures Its(Older(taken + [ev])) == (if taken == [] then [] else Its(Older(taken)) + [Newest(taken)])
    ensures Newest(taken + [ev]) == ev.it
  {
    assert (taken + [ev])[..|taken|] == taken;
  }

  lemma NoneTaken(t: seq<CandEvent>)
    ensures Its(Older([])) == [] && Newest([]) == 0 && t + [] == t
  {
  }

  lemma MismatchAppend(a: seq<CandEvent>, b: seq<CandEvent>, expected: string)
    ensures KnownMismatch(a + b, expected) <==> KnownMismatch(a, expected) || KnownMismatch(b, expected)
  {
    if KnownMismatch(a, expected) {
      var k :| 0 <= k < |a| && a[k].known && a[k].input != expected;
      assert (a + b)[k] == a[k];
    }
    if KnownMismatch(b, expected) {
      var k :| 0 <= k < |b| && b[k].known && b[k].input != expected;
      assert (a + b)[|a| + k] == b[k];
    }
  }

  lemma NoMismatch(expected: string)
    ensures !KnownMismatch([], expected)
  {
  }

  lemma MismatchSnoc(events: seq<CandEvent>, i: nat, expected: string)
    requires i < |events|
    ensures KnownMismatch(events[..i + 1], expected) <==>
            KnownMismatch(events[..i], expected) || (expected != "" && events[i].known && events[i].input != expected)
  {
    assert events[..i + 1] == events[..i] + [events[i]];
    MismatchAppend(events[..i], [events[i]], expected);
    assert [events[i]][0] == events[i];
  }

  /** When to stop waiting: at the deadline, or after a quiet spell once an exact answer may be vain. */
  function Until(deadline: int, best: int, vain: bool, lastEvent: int, quiet: int): int {
    if best != 0 && vain && lastEvent + quiet < deadline then lastEvent + quiet else deadline
  }

  /** One event moves from those still held to those returned. */
  lemma ItsStep(events: seq<CandEvent>, i: nat)
    requires i < |events|
    ensures events[i].it in multiset(Its(events[i..]))
    ensures multiset(Its(events[i..])) == multiset{events[i].it} + multiset(Its(events[i + 1..]))
    ensures Its(events[..i + 1]) == Its(events[..i]) + [events[i].it]
  {
    assert Its(events[i..]) == [events[i].it] + Its(events[i + 1..]);
  }

  lemma ItsEnds(events: seq<CandEvent>)
    ensures multiset(Its(events[|events|..])) == multiset{} && events[..|events|] == events
    ensures events[0..] == events && Its(events[..0]) == []
  {
  }

  class CandidateHub {
    // g_cand_q, g_cand_qn
    const q: array<CandEvent>
    var qn: nat
    // g_pi_acc, g_pi_last, g_pi_have
    var acc: string
    var last: string
    var have: bool
    // g_pend_it, g_pend_known, g_pend_input
    var pend: int
    var pendKnown: bool
    var pendInput: string
    // g_cur_it
    var cur: int
    // the clock, and the engine thread's coming steps
    var clock: int
    var engine: seq<Slice>
    // the engine's record of what it has handed out
    var books: Books
    // whether every stretch of the engine thread so far was orderly; when each event came into
    // the queue, and when the daemon last took events out of it
    ghost var orderly: bool
    ghost var arrived: seq<int>
    ghost var takenAt: int

    ghost function Queue(): seq<CandEvent>
      reads this`qn, q
      requires qn <= q.Length
    {
      q[..qn]
    }

    ghost predicate Valid()
      reads this, q
    {
      && q.Length == CAND_QUEUE && qn <= CAND_QUEUE && Balanced(books, pend, Queue(), cur)
      && NoneAfter(arrived, clock)
    }

    /** What the engine thread does to the clock and the queue: an event that came is still there. */
    twostate predicate Ticked()
      reads this
    {
      old(clock) <= clock && takenAt == old(takenAt) && (old(qn) > 0 ==> qn > 0) && (arrived == old(arrived) || qn > 0)
    }

    /** As long as the engine thread is orderly nothing is lost. */
    ghost predicate LossFree()
      reads this`books, this`orderly
    {
      orderly ==> books.lost == multiset{}
    }

    constructor (engine: seq<Slice>, clock: int)
      ensures Valid() && LossFree() && orderly && fresh(q) && books == Books({}, multiset{}, multiset{}, [], [])
      ensures qn == 0 && pend == 0 && cur == 0 && this.engine == engine && this.clock == clock
    {
      q := new CandEvent[CAND_QUEUE](i => CandEvent(0, false, ""));
      qn, pend, cur, acc, last, have, pendKnown, pendInput := 0, 0, 0, "", "", false, false, "";
      this.engine, this.clock := engine, clock;
      books, orderly, arrived, takenAt := Books({}, multiset{}, multiset{}, [], []), true, [], clock;
    }

    // -------------------------------------------------------------- the engine thread

    /** pending_input_field("match") */
    method AddMatch(text: string)
      modifies this`acc
      ensures acc == Accumulated(old(acc), text)
      ensures |old(acc)| < INPUT_SIZE ==>
                acc == var all := old(acc) + LettersIn(text); if |all| < INPUT_SIZE then all else all[..INPUT_SIZE - 1]
    {
      if |acc| < INPUT_SIZE {
        AccumulatedIsPrefix(acc, text);
      }
      var i := 0;
      while i < |text| && |acc| + 1 < INPUT_SIZE
        invariant i <= |text| && Accumulated(acc, text[i..]) == Accumulated(old(acc), text)
      {
        if 'a' <= text[i] <= 'z' {
          acc := acc + [text[i]];
        }
        i := i + 1;
      }
    }

    /** pending_input_field("pendingInputs") */
    method CloseInputs()
      modifies this`acc, this`last, this`have
      ensures last == old(acc) && acc == "" && have
    {
      last := acc;
      acc := "";
      have := true;
    }

    /** F_SetLongField(newIterator) */
    method SetNewIterator(it: int)
      requires Valid() && it != 0 && it !in books.live
      modifies this
      ensures Valid() && pend == it && pendKnown == old(have) && pendInput == last && !have && acc == ""
      ensures books == Capture(old(books), it, old(pend))
      ensures Queue() == old(Queue()) && last == old(last) && cur == old(cur) && clock == old(clock) && engine == old(engine) && orderly == old(orderly)
      ensures qn == old(qn) && arrived == old(arrived) && takenAt == old(takenAt)
    {
      hide Balanced, Capture, NoneAfter;
      CaptureBalances(books, pend, Queue(), cur, it);
      books := Capture(books, it, pend);
      pend, pendKnown, pendInput := it, have, last;
      have, acc := false, "";
    }

    /** The queue without its oldest event. */
    method DropOldest()
      requires q.Length == CAND_QUEUE && qn == CAND_QUEUE
      modifies this`qn, q
      ensures qn == CAND_QUEUE - 1 && Queue() == old(Queue())[1..]
    {
      forall k | 0 <= k < CAND_QUEUE - 1 {
        q[k] := q[k + 1];
      }
      qn := qn - 1;
    }

    method Push(ev: CandEvent)
      requires q.Length == CAND_QUEUE && qn < CAND_QUEUE
      modifies this`qn, q
      ensures qn == old(qn) + 1 && Queue() == old(Queue()) + [ev]
    {
      q[qn] := ev;
      qn := qn + 1;
    }

    /** probe_listener: the pending iterator joins the queue; a full queue loses its oldest. */
    method OnBatchEvent()
      requires Valid()
      modifies this`pend, this`qn, this`books, this`arrived, q
      ensures Valid() && pend == 0 && (old(qn) > 0 ==> qn > 0)
      ensures arrived == if old(pend) == 0 then old(arrived) else old(arrived) + [clock]
      ensures old(pend) == 0 ==> Queue() == old(Queue()) && books == old(books)
      ensures old(pend) != 0 ==>
        var ev := CandEvent(old(pend), pendKnown, pendInput);
        if old(qn) < CAND_QUEUE then Queue() == old(Queue()) + [ev] && books == old(books)
        else Queue() == old(Queue())[1..] + [ev] && books == Lose(old(books), old(Queue())[0].it)
    {
      hide Balanced, Lose;
      if pend != 0 {
        if qn == CAND_QUEUE {
          LoseBalances(books, pend, Queue(), cur);
          books := Lose(books, q[0].it);
          DropOldest();
        }
        var ev := CandEvent(pend, pendKnown, pendInput);
        EnqueueBalances(books, pend, Queue(), cur, ev);
        Push(ev);
        pend, arrived := 0, arrived + [clock];
      }
    }

    // -------------------------------------------------------------- the daemon

    /** One step of the engine thread; it never hands out an address that is still out. */
    method Perform(act: Act, ghost rest: seq<Act>)
      requires Valid()
      modifies this, q
      ensures Valid() && cur == old(cur) && clock == old(clock) && engine == old(engine) && orderly == old(orderly)
      ensures books.held == old(books.held) && books.returned == old(books.returned) && old(books.lost) <= books.lost
      ensures Orderly([act] + rest, old(pend) != 0, old(qn)) ==>
                books.lost == old(books.lost) && Orderly(rest, pend != 0, qn)
      ensures Ticked()
    {
      hide Balanced, NoneAfter, Orderly;
      if Orderly([act] + rest, pend != 0, qn) {
        OrderlyGoesOn(act, rest, pend != 0, qn);
      }
      match act {
        case Match(text) => AddMatch(text);
        case Inputs => CloseInputs();
        case NewIterator(it) =>
          if it != 0 && it !in books.live {
            SetNewIterator(it);
          } else if Orderly(rest, true, qn) {
            OrderlyWeakens(rest, true, qn, pend != 0, qn);
          }
        case BatchEvent => OnBatchEvent();
      }
    }

    /** An unlocked stretch of the daemon: the engine thread takes its next steps. */
    method Interfere()
      requires Valid()
      modifies this, q
      ensures old(LossFree()) ==> LossFree()
      ensures Valid() && cur == old(cur) && books.held == old(books.held) && books.returned == old(books.returned)
      ensures old(books.lost) <= books.lost
      ensures old(engine) == [] ==> engine == [] && clock == old(clock) && Queue() == old(Queue()) && pend == old(pend) && books == old(books)
      ensures Ticked()
      ensures old(engine) != [] ==>
        && engine == old(engine)[1..] && clock == old(clock) + old(engine)[0].ms
        && (Orderly(old(engine)[0].acts, old(pend) != 0, old(qn)) ==> books.lost == old(books.lost))
    {
      if engine != [] {
        var slice := engine[0];
        ghost var fine := Orderly(slice.acts, pend != 0, qn);
        clock, engine, orderly := clock + slice.ms, engine[1..], orderly && fine;
        PerformAll(slice.acts);
      }
    }

    method PerformAll(acts: seq<Act>)
      requires Valid()
      modifies this, q
      ensures Valid() && cur == old(cur) && clock == old(clock) && engine == old(engine) && orderly == old(orderly)
      ensures books.held == old(books.held) && books.returned == old(books.returned) && old(books.lost) <= books.lost
      ensures Orderly(acts, old(pend) != 0, old(qn)) ==> books.lost == old(books.lost)
      ensures Ticked()
    {
      hide Balanced, Orderly, NoneAfter;
      var i := 0;
      assert acts[0..] == acts;
      while i < |acts|
        invariant Valid() && i <= |acts| && cur == old(cur) && clock == old(clock) && engine == old(engine) && orderly == old(orderly)
        invariant Ticked()
        invariant books.held == old(books.held) && books.returned == old(books.returned) && old(books.lost) <= books.lost
        invariant Orderly(acts, old(pend) != 0, old(qn)) ==> books.lost == old(books.lost) && Orderly(acts[i..], pend != 0, qn)
      {
        assert acts[i..] == [acts[i]] + acts[i + 1..];
        Perform(acts[i], acts[i + 1..]);
        i := i + 1;
      }
    }

    /** delete_candidate_iterator: only ever on an iterator the daemon holds, hence live and not yet returned. */
    method Delete(it: int)
      requires Valid() && it in books.held
      modifies this`books
      ensures old(LossFree()) ==> LossFree()
      ensures Valid() && books == GiveBack(old(books), it) && it in old(books.live) && it != cur && it != 0
    {
      hide Balanced, GiveBack;
      GiveBackBalances(books, pend, Queue(), cur, it);
      books := GiveBack(books, it);
    }

    /** daemon_free_it */
    method FreeIt(it: int)
      requires Valid() && it in books.held
      modifies this`books
      ensures old(LossFree()) ==> LossFree()
      ensures Valid() && books.held == old(books.held) - multiset{it} && books.returned == old(books.returned) + [it]
      ensures books.lost == old(books.lost)
    {
      hide Balanced;
      GiveBackBalances(books, pend, Queue(), cur, it);
      if it != 0 && it != cur {
        Delete(it);
      }
    }

    /** Takes every queued event under the lock. */
    method TakeAll() returns (events: seq<CandEvent>)
      requires Valid()
      modifies this`qn, this`books, this`takenAt
      ensures old(LossFree()) ==> LossFree()
      ensures takenAt == if events == [] then old(takenAt) else clock
      ensures Valid() && qn == 0 && events == old(Queue()) && |events| == old(qn)
      ensures books == Take(old(books), events)
      ensures forall k :: 0 <= k < |events| ==> events[k].it != 0
    {
      hide Balanced, Take;
      TakeBalances(books, pend, Queue(), cur);
      QueueNonZero(books, pend, Queue(), cur);
      events := q[..qn];
      takenAt := if qn == 0 then takenAt else clock;
      books := Take(books, events);
      qn := 0;
      assert Queue() == [];
    }

    /** daemon_drop_events: everything queued is returned, in order, once. */
    method DropEvents()
      requires Valid() && books.held == multiset{}
      modifies this, q
      ensures old(LossFree()) ==> LossFree()
      ensures Valid() && books.held == multiset{} && cur == old(cur)
      ensures books.returned == old(books.returned) + Its(old(Queue()))
    {
      hide Balanced, Its;
      var events := TakeAll();
      ItsEnds(events);
      var i := 0;
      while i < |events|
        invariant old(LossFree()) ==> LossFree()
        invariant Valid() && i <= |events| && cur == old(cur)
        invariant books.held == multiset(Its(events[i..]))
        invariant books.returned == old(books.returned) + Its(events[..i])
      {
        Interfere();
        ItsStep(events, i);
        FreeIt(events[i].it);
        i := i + 1;
      }
      Interfere();
    }

    /** A newer event replaces `best`, which is returned. */
    method AbsorbOne(ev: CandEvent, best0: int, ghost rest: multiset<int>, ghost taken: seq<CandEvent>, ghost start: seq<int>)
      returns (best: int)
      requires Valid() && ev.it != 0 && best0 == Newest(taken) && (taken != [] ==> best0 != 0)
      requires books.held == Slot(best0) + (multiset{ev.it} + rest) && books.returned == start + Its(Older(taken))
      modifies this, q
      ensures old(LossFree()) ==> LossFree()
      ensures Valid() && cur == old(cur) && best == ev.it && best == Newest(taken + [ev])
      ensures books.held == Slot(best) + rest && books.returned == start + Its(Older(taken + [ev]))
      ensures if old(engine) == [] then engine == [] && qn == old(qn) && clock == old(clock) else |engine| < |old(engine)|
      ensures Ticked()
    {
      hide Balanced, Its, Older, NoneAfter;
      OlderSnoc(taken, ev);
      NoneTaken(taken);
      if best0 != 0 {
        FreeIt(best0);
      }
      Interfere();
      best := ev.it;
    }

    /** The newest of the events becomes `best`; every older one is returned. */
    method Absorb(events: seq<CandEvent>, expected: string, best0: int, ghost taken: seq<CandEvent>, ghost start: seq<int>)
      returns (best: int, exact: bool, mismatch: bool)
      requires Valid() && events != [] && best0 == Newest(taken) && (taken != [] ==> best0 != 0)
      requires forall k :: 0 <= k < |events| ==> events[k].it != 0
      requires books.held == Slot(best0) + multiset(Its(events)) && books.returned == start + Its(Older(taken))
      modifies this, q
      ensures old(LossFree()) ==> LossFree()
      ensures Valid() && cur == old(cur) && books.held == Slot(best) && books.returned == start + Its(Older(taken + events))
      ensures best == Newest(taken + events) && best != 0 && exact == IsExact(taken + events, expected)
      ensures mismatch == KnownMismatch(events, expected)
      ensures if old(engine) == [] then engine == [] && qn == old(qn) && clock == old(clock) else |engine| < |old(engine)|
      ensures Ticked()
    {
      hide Balanced, Its, Newest, Older, KnownMismatch, Slot, NoneAfter;
      best, exact, mismatch := best0, false, false;
      var i := 0;
      ItsEnds(events);
      NoMismatch(expected);
      ghost var seen := taken;
      while i < |events|
        invariant old(LossFree()) ==> LossFree()
        invariant Valid() && i <= |events| && cur == old(cur) && seen == taken + events[..i] && Ticked()
        invariant books.held == Slot(best) + multiset(Its(events[i..])) && books.returned == start + Its(Older(seen))
        invariant best == Newest(seen) && (seen != [] ==> best != 0)
        invariant i > 0 ==> exact == IsExact(seen, expected)
        invariant mismatch == KnownMismatch(events[..i], expected)
        invariant if old(engine) == [] then engine == [] && qn == old(qn) && clock == old(clock)
                  else |engine| <= |old(engine)| && (i > 0 ==> |engine| < |old(engine)|)
      {
        var ev := events[i];
        ItsStep(events, i);
        MismatchSnoc(events, i, expected);
        best := AbsorbOne(ev, best, multiset(Its(events[i + 1..])), seen, start);
        exact := ev.known && ev.input == expected;
        mismatch := mismatch || (expected != "" && ev.known && !exact);
        seen := seen + [ev];
        i := i + 1;
      }
    }

    /**
     * daemon_wait_cand. The newest event taken wins and every older one is returned, once, in
     * order. The answer is exact when that event is known to be for the expected input;
     * otherwise the queue was found empty with the time up, or once a known event had not matched
     * or the input is not known, and then after a quiet spell: quietMs (300 for unknown input) have
     * passed since the last events were dealt with, and none has come since they were taken.
     */
    method WaitCand(expected: string, timeout: nat, quietMs: nat)
      returns (best: int, exact: bool, lastEvent: int, ghost taken: seq<CandEvent>)
      requires Valid() && books.held == multiset{}
      modifies this, q
      ensures old(LossFree()) ==> LossFree()
      ensures Valid() && cur == old(cur) && books.held == Slot(best)
      ensures best == Newest(taken) && (best == 0 <==> taken == []) && exact == IsExact(taken, expected)
      ensures books.returned == old(books.returned) + Its(Older(taken))
      ensures !exact ==>
        && qn == 0
        && (|| clock >= old(clock) + timeout
            || (taken != [] && (expected == "" || KnownMismatch(taken, expected))
                && takenAt <= lastEvent && NoneAfter(arrived, takenAt)
                && clock >= lastEvent + (if expected == "" then 300 else quietMs)))
      ensures exact ==> takenAt <= lastEvent == clock
    {
      hide Balanced, Its, Newest, Older, NoneAfter;
      var deadline := clock + timeout;
      var quiet := if expected == "" then 300 else quietMs;
      var vain := expected == "";
      best, exact, lastEvent, taken := 0, false, 0, [];
      NoneTaken(taken);
      while true
        invariant old(LossFree()) ==> LossFree()
        invariant Valid() && cur == old(cur) && books.held == Slot(best)
        invariant best == Newest(taken) && (best == 0 <==> taken == []) && !exact && !IsExact(taken, expected)
        invariant books.returned == old(books.returned) + Its(Older(taken))
        invariant vain == (expected == "" || KnownMismatch(taken, expected))
        invariant taken != [] ==> takenAt <= lastEvent && (qn == 0 ==> NoneAfter(arrived, takenAt))
        invariant old(clock) <= clock
        decreases |engine|, qn, Max(Until(deadline, best, vain, lastEvent, quiet) - clock, 0)
      {
        if qn != 0 {
          var events := TakeAll();
          var mismatch;
          best, exact, mismatch := Absorb(events, expected, best, taken, old(books.returned));
          MismatchAppend(taken, events, expected);
          vain := vain || mismatch;
          taken, lastEvent := taken + events, clock;
          if exact {
            break;
          }
        } else {
          if clock >= Until(deadline, best, vain, lastEvent, quiet) {
            break;
          }
          if engine == [] {
            StillNoneAfter(arrived, clock, Until(deadline, best, vain, lastEvent, quiet));
            clock := Until(deadline, best, vain, lastEvent, quiet);   // the timed wait times out
          } else {
            Interfere();
          }
        }
      }
    }

    /** The end of daemon_fetch_cands: the iterator waited for becomes current, the old one is returned. */
    method Keep(it: int)
      requires Valid() && it != 0 && books.held == Slot(it)
      modifies this`books, this`cur
      ensures old(LossFree()) ==> LossFree()
      ensures Valid() && cur == it && books.held == multiset{} && books.lost == old(books.lost)
      ensures books.returned == old(books.returned) + Current(old(cur))
    {
      hide Balanced;
      ReturnCurrent();
      KeepBalances(books, pend, Queue(), it);
      cur, books := it, books.(held := books.held - multiset{it});
    }

    /** Returns the current iterator, if any, as C, Q and a newer one do. */
    method ReturnCurrent()
      requires Valid()
      modifies this`books, this`cur
      ensures old(LossFree()) ==> LossFree()
      ensures Valid() && cur == 0 && books.held == old(books.held) && books.lost == old(books.lost)
      ensures books.returned == old(books.returned) + Current(old(cur))
    {
      hide Balanced;
      if cur != 0 {
        var it := cur;
        ReleaseBalances(books, pend, Queue(), cur);
        books, cur := books.(held := books.held + multiset{cur}), 0;
        Delete(it);
      }
    }

    /** Keys or a selection go to the engine, and the newest candidates it then offers become the current ones. */
    method Await(expected: string, timeout: nat, quietMs: nat) returns (ghost taken: seq<CandEvent>)
      requires Valid() && books.held == multiset{}
      modifies this, q
      ensures old(LossFree()) ==> LossFree()
      ensures Valid() && books.held == multiset{}
      ensures cur == if taken == [] then old(cur) else Newest(taken)
      ensures books.returned == old(books.returned) + Its(Older(taken)) + Current(if taken == [] then 0 else old(cur))
    {
      hide Balanced, Its, Newest, Older;
      Interfere();   // the keys, or the selection, go to the engine
      var best, exact, lastEvent, took := WaitCand(expected, timeout, quietMs);
      taken := took;
      Interfere();   // the candidates are fetched
      if best != 0 {
        Keep(best);
      }
    }

    /**
     * One command of the daemon, as far as iterators go: what was queued is returned, and of what a search
     * takes, the newest becomes current and the others, and the one it replaces, are returned.
     */
    method Serve(command: Command, timeout: nat, quietMs: nat) returns (ghost taken: seq<CandEvent>)
      requires Valid() && books.held == multiset{}
      modifies this, q
      ensures old(LossFree()) ==> LossFree()
      ensures Valid() && books.held == multiset{}
      ensures cur == if command.Renew? then 0 else if command.Search? && taken != [] then Newest(taken) else old(cur)
      ensures books.returned == old(books.returned) + Its(old(Queue()))
                + (if command.Search? then Its(Older(taken)) else [])
                + Current(if command.Renew? || (command.Search? && taken != []) then old(cur) else 0)
    {
      hide Balanced, Its, Newest, Older;
      taken := [];
      DropEvents();
      match command {
        case Search(expected) => taken := Await(expected, timeout, quietMs);
        case Drop =>
        case Renew => ReturnCurrent();
      }
      Interfere();
    }

    /**
     * The daemon's life, whatever the engine thread does in between. At the end every iterator
     * ever captured was returned exactly once, or was lost from the slot or the queue, or is
     * the one still in the slot, or came too late and is in the queue; the daemon holds none.
     */
    method RunDaemon(commands: seq<Command>, timeout: nat, quietMs: nat)
      requires Valid() && books.held == multiset{}
      modifies this, q
      ensures old(LossFree()) ==> LossFree()
      ensures Valid() && cur == 0 && books.held == multiset{}
      ensures multiset(books.captured) == multiset(books.returned) + books.lost + Slot(pend) + multiset(Its(Queue()))
      ensures forall it :: multiset(books.returned)[it] <= multiset(books.captured)[it]
    {
      var i := 0;
      while i < |commands|
        invariant old(LossFree()) ==> LossFree()
        invariant Valid() && i <= |commands| && books.held == multiset{}
      {
        var _ := Serve(commands[i], timeout, quietMs);
        i := i + 1;
      }
      ReturnCurrent();
      ClosedBooks(books, pend, Queue());
    }
  }
}
