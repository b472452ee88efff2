/**
 * EngineProc: replies paired with the handlers of the commands sent, across deaths of the
 * process and handlers that restart it and send again from inside their own failure.
 */
module EngineProc {
  import opened Basics
  import opened LineReader

  /**
   * A handler as what it will do: the calls it makes back into EngineProc when it gets its
   * reply, and those it makes on "". Any behaviour of a handler in a run is one such tree;
   * a null handler does nothing.
   */
  datatype Handler = Handler(onReply: seq<Op>, onDeath: seq<Op>)

  /** A call from a handler, with the outcome of its fork or write. */
  datatype Op = StartOp(forks: bool) | SendOp(handler: Handler, writes: bool)

  function Weight(h: Handler): (w: nat)
    ensures w > 0
    decreases h
  {
    1 + WeightOps(h.onReply) + WeightOps(h.onDeath)
  }

  function WeightOp(op: Op): (w: nat)
    ensures w > 0
    decreases op
  {
    match op
    case StartOp(_) => 1
    case SendOp(h, _) => 1 + Weight(h)
  }

  function WeightOps(ops: seq<Op>): nat
    decreases ops
  {
    if ops == [] then 0 else WeightOp(ops[0]) + WeightOps(ops[1..])
  }

  /** A command's handler; tickets number the commands submitted, in order. */
  datatype Waiting = Waiting(ticket: nat, handler: Handler)

  datatype Call = Call(ticket: nat, reply: string)

  function WeightAll(ws: seq<Waiting>): nat {
    if ws == [] then 0 else Weight(ws[0].handler) + WeightAll(ws[1..])
  }

  function Tickets(ws: seq<Waiting>): seq<nat> { seq(|ws|, k requires 0 <= k < |ws| => ws[k].ticket) }

  function CallTickets(cs: seq<Call>): seq<nat> { seq(|cs|, k requires 0 <= k < |cs| => cs[k].ticket) }

  /** The lines that count as replies: nonempty, after READY. */
  function Replies(lines: seq<string>, ready: bool): seq<string> {
    if lines == [] then []
    else if !ready then Replies(lines[1..], lines[0] == "READY")
    else (if lines[0] == "" then [] else [lines[0]]) + Replies(lines[1..], true)
  }

  predicate SawReady(lines: seq<string>) { "READY" in lines }

  function ReplyTexts(cs: seq<Call>): seq<string> { seq(|cs|, k requires 0 <= k < |cs| => cs[k].reply) }

  /** The calls that passed a reply on, rather than a death. */
  function Replied(cs: seq<Call>): seq<Call> {
    if cs == [] then []
    else (if cs[0].reply == "" then [] else [cs[0]]) + Replied(cs[1..])
  }

  /**
   * What has happened: all handler calls so far; the tickets whose calls are about to be made;
   * the replies passed on for earlier processes; forks since the last READY; and of the present
   * process the commands written, the replies passed on, the bytes read, the lines seen, and
   * whether some reply came when no command was waiting.
   */
  datatype Book = Book(calls: seq<Call>, owed: multiset<nat>, past: seq<Call>, forks: nat, sent: seq<nat>,
                       answered: seq<Call>, received: string, lines: seq<string>, unsolicited: bool)

  /** Every command submitted was answered once, waits, or is in a handler call about to be made. */
  ghost predicate Accounted(calls: seq<Call>, pending: seq<Waiting>, owed: multiset<nat>, next: nat) {
    multiset(CallTickets(calls)) + multiset(Tickets(pending)) + owed == multiset(Range(next))
  }

  /** Replies of the present process went to its commands in the order they were sent. */
  predicate InTurn(sent: seq<nat>, answered: seq<Call>, pending: seq<Waiting>) {
    && |answered| <= |sent| && Tickets(pending) == sent[|answered|..]
    && forall k :: 0 <= k < |answered| ==> answered[k].ticket == sent[k]
  }

  /** The bytes read of this process are the lines `seen`, then what is buffered. */
  predicate Framed(received: string, seen: seq<string>, rbuf: string) {
    Split(received) == seen + Split(rbuf) && Remainder(received) == Remainder(rbuf)
  }

  datatype Fields = Fields(alive: bool, ready: bool, pending: seq<Waiting>, rbuf: string, fails: nat, gaveUp: bool, next: nat)

  /** The books agree with the fields; `taken` is the line taken from the buffer and not yet seen, if any. */
  ghost predicate Sound(f: Fields, b: Book, taken: seq<string>) {
    && Accounted(b.calls, f.pending, b.owed, f.next)
    && Replied(b.calls) == b.past + b.answered
    && b.forks == f.fails <= 5 && (f.gaveUp ==> !f.alive && f.fails == 5)
    && (!f.alive ==> f.pending == [] && !f.ready)
    && (f.alive ==> InTurn(b.sent, b.answered, f.pending) && f.ready == SawReady(b.lines))
    && (f.alive && !b.unsolicited ==> ReplyTexts(b.answered) == Replies(b.lines, false))
    && (f.alive ==> Framed(b.received, b.lines + taken, f.rbuf))
  }

  lemma {:induction false} RepliesSnoc(lines: seq<string>, line: string, ready: bool)
    ensures Replies(lines + [line], ready) == Replies(lines, ready) +
              (if (ready || SawReady(lines)) && line != "" then [line] else [])
  {
    if lines == [] {
      assert lines + [line] == [line];
      assert [line][1..] == [];
    } else {
      assert (lines + [line])[1..] == lines[1..] + [line];
      RepliesSnoc(lines[1..], line, ready || lines[0] == "READY");
    }
  }

  lemma {:induction false} RepliedSnoc(cs: seq<Call>, c: Call)
    ensures Replied(cs + [c]) == Replied(cs) + (if c.reply == "" then [] else [c])
  {
    if cs == [] {
      assert cs + [c] == [c];
      assert [c][1..] == [];
    } else {
      assert (cs + [c])[1..] == cs[1..] + [c];
      RepliedSnoc(cs[1..], c);
    }
  }

  lemma {:induction false} WeightAllAppend(a: seq<Waiting>, b: seq<Waiting>)
    ensures WeightAll(a + b) == WeightAll(a) + WeightAll(b)
  {
    if a == [] {
      assert a + b == b;
    } else {
      assert (a + b)[1..] == a[1..] + b;
      WeightAllAppend(a[1..], b);
    }
  }

  lemma WeightAllSnoc(ws: seq<Waiting>, w: Waiting)
    ensures WeightAll(ws + [w]) == WeightAll(ws) + Weight(w.handler)
  {
    WeightAllAppend(ws, [w]);
    assert [w][1..] == [];
  }

  lemma HeadTicket(ws: seq<Waiting>, i: nat)
    requires i < |ws|
    ensures multiset(Tickets(ws[i..])) == multiset{ws[i].ticket} + multiset(Tickets(ws[i + 1..]))
    ensures WeightAll(ws[i..]) == Weight(ws[i].handler) + WeightAll(ws[i + 1..])
  {
    assert Tickets(ws[i..]) == [ws[i].ticket] + Tickets(ws[i + 1..]);
    assert ws[i..][1..] == ws[i + 1..];
  }

  lemma EmptyIsSound(b: Book)
    requires b.calls == [] && b.owed == multiset{} && b.past == [] && b.answered == [] && b.forks == 0
    ensures Sound(Fields(false, false, [], "", 0, false, 0), b, [])
  {
    assert Tickets([]) == [] && CallTickets([]) == [] && Range(0) == [];
  }

  /** A fork: the new process has sent nothing, and none of its predecessor's bytes remain. */
  lemma ForkIsSound(f: Fields, b: Book)
    requires Sound(f, b, []) && !f.alive && f.fails < 5
    ensures Sound(f.(alive := true, rbuf := "", fails := f.fails + 1), Forked(b), [])
  {
    assert Tickets([]) == [] && ReplyTexts([]) == [];
    assert b.past + b.answered == b.past + b.answered + [];
    assert Split("") == [] && Remainder("") == "";
  }

  function Forked(b: Book): Book {
    b.(past := b.past + b.answered, forks := b.forks + 1, sent := [], answered := [], received := "", lines := [],
       unsolicited := false)
  }

  lemma SubmitAccounts(calls: seq<Call>, pending: seq<Waiting>, owed: multiset<nat>, next: nat)
    requires Accounted(calls, pending, owed, next)
    ensures Accounted(calls, pending, owed + multiset{next}, next + 1)
  {
    assert Range(next + 1) == Range(next) + [next];
  }

  lemma QueueAccounts(calls: seq<Call>, pending: seq<Waiting>, owed: multiset<nat>, next: nat, w: Waiting)
    requires Accounted(calls, pending, owed, next) && w.ticket in owed
    ensures Accounted(calls, pending + [w], owed - multiset{w.ticket}, next)
  {
    assert Tickets(pending + [w]) == Tickets(pending) + [w.ticket];
  }

  lemma FailAccounts(calls: seq<Call>, pending: seq<Waiting>, owed: multiset<nat>, next: nat, c: Call)
    requires Accounted(calls, pending, owed, next) && c.ticket in owed
    ensures Accounted(calls + [c], pending, owed - multiset{c.ticket}, next)
  {
    assert CallTickets(calls + [c]) == CallTickets(calls) + [c.ticket];
  }

  lemma AnswerAccounts(calls: seq<Call>, pending: seq<Waiting>, owed: multiset<nat>, next: nat, c: Call)
    requires Accounted(calls, pending, owed, next) && pending != [] && c.ticket == pending[0].ticket
    ensures Accounted(calls + [c], pending[1..], owed, next)
  {
    assert CallTickets(calls + [c]) == CallTickets(calls) + [c.ticket];
    assert Tickets(pending) == [c.ticket] + Tickets(pending[1..]);
  }

  lemma QueueInTurn(sent: seq<nat>, answered: seq<Call>, pending: seq<Waiting>, w: Waiting)
    requires InTurn(sent, answered, pending)
    ensures InTurn(sent + [w.ticket], answered, pending + [w])
  {
    assert Tickets(pending + [w]) == Tickets(pending) + [w.ticket];
  }

  lemma AnswerInTurn(sent: seq<nat>, answered: seq<Call>, pending: seq<Waiting>, c: Call)
    requires InTurn(sent, answered, pending) && pending != [] && c.ticket == pending[0].ticket
    ensures InTurn(sent, answered + [c], pending[1..])
  {
    assert Tickets(pending)[0] == sent[|answered|];
    assert Tickets(pending[1..]) == Tickets(pending)[1..];
  }

  lemma SubmitIsSound(f: Fields, b: Book)
    requires Sound(f, b, [])
    ensures Sound(f.(next := f.next + 1), b.(owed := b.owed + multiset{f.next}), [])
  {
    hide Accounted, InTurn, Framed, Replies, Replied, SawReady, ReplyTexts;
    SubmitAccounts(b.calls, f.pending, b.owed, f.next);
  }

  lemma QueueIsSound(f: Fields, b: Book, w: Waiting)
    requires Sound(f, b, []) && f.alive && w.ticket in b.owed
    ensures Sound(f.(pending := f.pending + [w]), b.(owed := b.owed - multiset{w.ticket}, sent := b.sent + [w.ticket]), [])
  {
    hide Accounted, InTurn, Framed, Replies, Replied, SawReady, ReplyTexts;
    QueueAccounts(b.calls, f.pending, b.owed, f.next, w);
    QueueInTurn(b.sent, b.answered, f.pending, w);
  }

  lemma FailIsSound(f: Fields, b: Book, t: nat)
    requires Sound(f, b, []) && t in b.owed
    ensures Sound(f, b.(owed := b.owed - multiset{t}, calls := b.calls + [Call(t, "")]), [])
  {
    hide Accounted, InTurn, Framed, Replies, Replied, SawReady, ReplyTexts;
    RepliedSnoc(b.calls, Call(t, ""));
    FailAccounts(b.calls, f.pending, b.owed, f.next, Call(t, ""));
  }

  lemma DeathIsSound(f: Fields, b: Book)
    requires Sound(f, b, [])
    ensures Sound(f.(alive := false, ready := false, pending := []), b.(owed := b.owed + multiset(Tickets(f.pending))), [])
  {
    hide Framed, Replies;
    assert Tickets([]) == [];
  }

  lemma ReadIsSound(f: Fields, b: Book, chunk: string)
    requires Sound(f, b, []) && f.alive
    ensures Sound(f.(rbuf := f.rbuf + chunk), b.(received := b.received + chunk), [])
  {
    hide Accounted, InTurn, Replies, Split, Remainder, Replied;
    SplitAppends(b.received, chunk);
    SplitAppends(f.rbuf, chunk);
    assert b.lines + [] == b.lines;
  }

  /** The first line of the buffer is taken from it. */
  lemma TakeIsSound(f: Fields, b: Book, n: nat)
    requires Sound(f, b, []) && n == Find(f.rbuf, '\n') < |f.rbuf|
    ensures Sound(f.(rbuf := f.rbuf[n + 1..]), b, [f.rbuf[..n]])
  {
    hide Accounted, Replies, InTurn, Replied;
    var line, rest := f.rbuf[..n], f.rbuf[n + 1..];
    assert b.lines + [] == b.lines;
    assert b.lines + ([line] + Split(rest)) == b.lines + [line] + Split(rest);
  }

  /** A line that is no reply, or a reply nobody waits for. */
  lemma SeeIsSound(f: Fields, b: Book, line: string)
    requires Sound(f, b, [line]) && f.alive
    requires f.ready && line != "" ==> f.pending == []
    ensures var seen := b.(lines := b.lines + [line], unsolicited := b.unsolicited || (f.ready && line != ""));
            if !f.ready && line == "READY" then Sound(f.(ready := true, fails := 0), seen.(forks := 0), [])
            else Sound(f, seen, [])
  {
    hide Framed, Accounted, InTurn, Replied, Replies;
    RepliesSnoc(b.lines, line, false);
    assert b.lines + [line] + [] == b.lines + [line];
  }

  lemma DeadLineIsSound(f: Fields, b: Book, line: string)
    requires Sound(f, b, [line]) && !f.alive
    ensures Sound(f, b, [])
  {
  }

  /** A reply goes to the first handler waiting. */
  lemma AnswerIsSound(f: Fields, b: Book, line: string)
    requires Sound(f, b, [line]) && f.alive && f.ready && line != "" && f.pending != []
    ensures Sound(f.(pending := f.pending[1..]), Answered(b, Call(f.pending[0].ticket, line)), [])
  {
    hide Accounted, InTurn, Framed, Replies, Replied;
    var c := Call(f.pending[0].ticket, line);
    AnswerAccounts(b.calls, f.pending, b.owed, f.next, c);
    AnswerInTurn(b.sent, b.answered, f.pending, c);
    RepliesSnoc(b.lines, line, false);
    RepliedSnoc(b.calls, c);
    assert ReplyTexts(b.answered + [c]) == ReplyTexts(b.answered) + [line];
    assert b.lines + [line] + [] == b.lines + [line];
  }

  function Answered(b: Book, c: Call): Book {
    b.(calls := b.calls + [c], answered := b.answered + [c], lines := b.lines + [c.reply])
  }

  /**
   * With nothing owed, each ticket so far is in exactly one of: one call made, one command
   * waiting. So no handler is called twice, and none is forgotten.
   */
  lemma {:induction false} ExactlyOnce(b: Book, pending: seq<Waiting>, next: nat, t: nat)
    requires Accounted(b.calls, pending, b.owed, next) && b.owed == multiset{} && t < next
    ensures multiset(CallTickets(b.calls))[t] + multiset(Tickets(pending))[t] == 1
  {
    OneOfEach(next, t);
  }

  lemma {:induction false} OneOfEach(n: nat, t: nat)
    ensures multiset(Range(n))[t] == if t < n then 1 else 0
  {
    if n > 0 {
      assert Range(n) == Range(n - 1) + [n - 1];
      OneOfEach(n - 1, t);
    }
  }

  /** Who waits after a call waited before it or was submitted during it. */
  ghost predicate OnlyNew(before: seq<Waiting>, next: nat, after: seq<Waiting>) {
    forall w :: w in after ==> w in before || w.ticket >= next
  }

  lemma OnlyNewTwice(a: seq<Waiting>, m: nat, b: seq<Waiting>, n: nat, c: seq<Waiting>)
    requires OnlyNew(a, m, b) && OnlyNew(b, n, c) && m <= n
    ensures OnlyNew(a, m, c)
  {
  }

  lemma NoneIsFew(before: seq<Waiting>, m: nat, n: nat, after: seq<Waiting>)
    requires OnlyNew([], n, after) && m <= n
    ensures OnlyNew(before, m, after)
  {
  }

  lemma OnlyNewSame(a: seq<Waiting>, next: nat, w: Waiting)
    ensures OnlyNew(a, next, a) && (w.ticket >= next ==> OnlyNew(a, next, a + [w]))
  {
  }

  class EngineProc {
    var alive: bool
    var ready: bool
    var pending: seq<Waiting>
    var rbuf: string
    var fails: nat
    var gaveUp: bool
    var next: nat                       // commands submitted so far: the next ticket
    ghost var book: Book

    ghost function View(): Fields
      reads this
    {
      Fields(alive, ready, pending, rbuf, fails, gaveUp, next)
    }

    ghost predicate Valid()
      reads this
    {
      Sound(View(), book, [])
    }

    /** What every call keeps: no call already made is undone, and giving up is for good. */
    twostate predicate Later()
      reads this
    {
      && old(book).calls <= book.calls && old(book).owed == book.owed && old(next) <= next
      && (old(gaveUp) ==> gaveUp) && |rbuf| <= |old(rbuf)|
    }

    constructor ()
      ensures Valid() && !alive && pending == [] && next == 0 && book.calls == [] && book.owed == multiset{} && !gaveUp
    {
      alive, ready, pending, rbuf, fails, gaveUp, next := false, false, [], "", 0, false, 0;
      book := Book([], multiset{}, [], 0, [], [], "", [], false);
      new;
      EmptyIsSound(book);
    }

    /** start(): a new process starts with no reply owed to it and nothing left to read. */
    method Start(forks: bool) returns (ok: bool)
      requires Valid()
      modifies this
      ensures Valid() && Later() && pending == old(pending) && next == old(next) && book.calls == old(book).calls
      ensures ok == alive == (old(alive) || (old(fails) < 5 && forks))
      ensures book == if ok && !old(alive) then Forked(old(book)) else old(book)
      ensures gaveUp == (old(gaveUp) || (!old(alive) && old(fails) >= 5))
      ensures ok && !old(alive) ==> rbuf == ""
    {
      if alive {
        return true;
      }
      if fails >= 5 {
        gaveUp := true;
        return false;
      }
      if !forks {
        return false;
      }
      ForkIsSound(View(), book);
      hide Sound;
      alive, ready, rbuf, fails := true, false, "", fails + 1;
      book := Forked(book);
      return true;
    }

    /** send(): the handler waits for its reply, or is called with "" at once. */
    method Send(h: Handler, writes: bool)
      requires Valid()
      modifies this
      ensures Valid() && Later() && next > old(next)
      ensures old(alive) && writes ==> pending == old(pending) + [Waiting(old(next), h)] && book.calls == old(book).calls
      ensures !(old(alive) && writes) ==> Call(old(next), "") in book.calls
      ensures OnlyNew(old(pending), old(next), pending)
      ensures WeightAll(pending) <= old(WeightAll(pending)) + Weight(h)
      decreases WeightAll(pending) + Weight(h), 4
    {
      hide Sound, WeightAll, Weight, OnlyNew;
      var t := next;
      OnlyNewSame(pending, t, Waiting(t, h));
      SubmitIsSound(View(), book);
      book, next := book.(owed := book.owed + multiset{t}), next + 1;
      if !alive {
        Fail(t, h);
        OnlyNewTwice(old(pending), t, old(pending), t + 1, pending);
      } else if !writes {
        Die();
        ghost var left, n := pending, next;
        NoneIsFew(old(pending), t, t + 1, left);
        Fail(t, h);
        OnlyNewTwice(old(pending), t, left, n, pending);
      } else {
        QueueIsSound(View(), book, Waiting(t, h));
        WeightAllSnoc(pending, Waiting(t, h));
        pending := pending + [Waiting(t, h)];
        book := book.(owed := book.owed - multiset{t}, sent := book.sent + [t]);
      }
    }

    /** Calls a handler with "", once. */
    method Fail(t: nat, h: Handler)
      requires Valid() && t in book.owed
      modifies this
      ensures Valid() && book.owed == old(book).owed - multiset{t} && next >= old(next) && (old(gaveUp) ==> gaveUp) && |rbuf| <= |old(rbuf)|
      ensures old(book).calls + [Call(t, "")] <= book.calls && Call(t, "") in book.calls
      ensures OnlyNew(old(pending), old(next), pending)
      ensures WeightAll(pending) <= old(WeightAll(pending)) + Weight(h)
      decreases WeightAll(pending) + Weight(h), 1
    {
      hide Sound, WeightAll, WeightOps, OnlyNew;
      FailIsSound(View(), book, t);
      book := book.(owed := book.owed - multiset{t}, calls := book.calls + [Call(t, "")]);
      ghost var made := book.calls;
      RunOps(h.onDeath);
      CallsStay(made, book.calls);
    }

    /** What a handler does when called. */
    method RunOps(ops: seq<Op>)
      requires Valid()
      modifies this
      ensures Valid() && Later()
      ensures OnlyNew(old(pending), old(next), pending)
      ensures WeightAll(pending) <= old(WeightAll(pending)) + WeightOps(ops)
      decreases WeightAll(pending) + WeightOps(ops), 0
    {
      hide Sound, WeightAll, Weight, OnlyNew;
      OnlyNewSame(pending, next, Waiting(next, Handler([], [])));
      if ops != [] {
        assert WeightOps(ops) == WeightOp(ops[0]) + WeightOps(ops[1..]);
        match ops[0] {
          case StartOp(forks) => var _ := Start(forks);
          case SendOp(h, writes) => Send(h, writes);
        }
        ghost var left, n := pending, next;
        RunOps(ops[1..]);
        OnlyNewTwice(old(pending), old(next), left, n, pending);
      }
    }

    /** die(), without the restart timer it arms. */
    method Die()
      requires Valid()
      modifies this
      ensures Valid() && Later()
      ensures forall w :: w in old(pending) ==> Call(w.ticket, "") in book.calls
      ensures OnlyNew([], old(next), pending)
      ensures WeightAll(pending) <= old(WeightAll(pending))
      decreases WeightAll(pending), 3
    {
      hide Sound, WeightAll, OnlyNew;
      ghost var failed := pending;
      DeathIsSound(View(), book);
      alive, ready := false, false;
      book := book.(owed := book.owed + multiset(Tickets(pending)));
      FailPending(old(book).owed);
    }

    /** failPendingHandlers: those waiting now fail, in order; commands they send belong to a new process. */
    method FailPending(ghost owed: multiset<nat>)
      requires Sound(View().(pending := []), book, []) && !alive && book.owed == owed + multiset(Tickets(pending))
      modifies this
      ensures Valid() && book.owed == owed
      ensures old(book).calls <= book.calls && old(next) <= next && (old(gaveUp) ==> gaveUp) && |rbuf| <= |old(rbuf)|
      ensures forall w :: w in old(pending) ==> Call(w.ticket, "") in book.calls
      ensures OnlyNew([], old(next), pending)
      ensures WeightAll(pending) <= old(WeightAll(pending))
      decreases WeightAll(pending), 2
    {
      hide Sound, WeightAll, Weight, Tickets, OnlyNew;
      OnlyNewSame([], next, Waiting(next, Handler([], [])));
      var failed := pending;
      pending := [];
      var i := 0;
      assert failed[0..] == failed;
      NoWeight();
      while i < |failed|
        invariant Valid() && i <= |failed|
        invariant book.owed == owed + multiset(Tickets(failed[i..]))
        invariant old(book).calls <= book.calls && old(next) <= next && (old(gaveUp) ==> gaveUp) && |rbuf| <= |old(rbuf)|
        invariant forall k :: 0 <= k < i ==> Call(failed[k].ticket, "") in book.calls
        invariant OnlyNew([], old(next), pending)
        invariant WeightAll(pending) + WeightAll(failed[i..]) <= old(WeightAll(pending))
      {
        HeadTicket(failed, i);
        ghost var made, left, n := book.calls, pending, next;
        Fail(failed[i].ticket, failed[i].handler);
        CallsStay(made, book.calls);
        OnlyNewTwice([], old(next), left, n, pending);
        i := i + 1;
      }
      assert failed[i..] == [];
      NoWeight();
    }

    /**
     * onLine, for the line just taken from the buffer: READY starts the replies; each later
     * nonempty line goes to the first handler waiting, and to no other.
     */
    method OnLine(line: string)
      requires Sound(View(), book, [line])
      modifies this
      ensures Valid() && Later()
      ensures if old(alive && ready && line != "" && pending != [])
              then old(book).calls + [Call(old(pending)[0].ticket, line)] <= book.calls
              else book.calls == old(book).calls && pending == old(pending) && rbuf == old(rbuf)
    {
      hide Sound, WeightAll, WeightOps;
      if !alive {
        DeadLineIsSound(View(), book, line);
      } else if ready && line != "" && pending != [] {
        AnswerIsSound(View(), book, line);
        var w := pending[0];
        pending := pending[1..];
        book := Answered(book, Call(w.ticket, line));
        RunOps(w.handler.onReply);
      } else {
        SeeIsSound(View(), book, line);
        book := book.(lines := book.lines + [line], unsolicited := book.unsolicited || (ready && line != ""));
        if !ready && line == "READY" {
          ready, fails, book := true, 0, book.(forks := 0);
        }
      }
    }

    /** onReadable: every complete line in the buffer, unless a handler's restart empties it. */
    method OnReadable(chunk: string)
      requires Valid() && alive
      modifies this
      ensures Valid() && old(book).calls <= book.calls && old(book).owed == book.owed && old(next) <= next && (old(gaveUp) ==> gaveUp)
      ensures '\n' !in rbuf
    {
      hide Sound;
      ReadIsSound(View(), book, chunk);
      rbuf, book := rbuf + chunk, book.(received := book.received + chunk);
      var pos := Find(rbuf, '\n');
      while pos < |rbuf|
        invariant Valid() && pos == Find(rbuf, '\n')
        invariant old(book).calls <= book.calls && old(book).owed == book.owed && old(next) <= next && (old(gaveUp) ==> gaveUp)
        decreases |rbuf|
      {
        TakeIsSound(View(), book, pos);
        var line := rbuf[..pos];
        rbuf := rbuf[pos + 1..];
        OnLine(line);
        pos := Find(rbuf, '\n');
      }
    }
  }

  lemma CallsStay(made: seq<Call>, calls: seq<Call>)
    requires made <= calls
    ensures forall c :: c in made ==> c in calls
  {
  }

  lemma NoWeight()
    ensures WeightAll([]) == 0 && Tickets([]) == []
  {
  }
}
