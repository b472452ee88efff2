/** What becomes of deferred keys, told by the output: what is forwarded and what raw text holds. */
module DeferredFates {
  import opened Basics
  import opened Addon
  import opened Wire

  // ---------------------------------------------------------------- output and fates

  /** The forwarded keys, in order. */
  function ForwardsIn(out: seq<Output>): seq<Output> {
    if out == [] then []
    else ForwardsIn(out[..|out| - 1]) + (if out[|out| - 1].Forward? then [out[|out| - 1]] else [])
  }

  /** The deferred keys that the raw commits hold, in order. */
  function RawKeysIn(out: seq<Output>): seq<Queued> {
    if out == [] then [] else RawKeysIn(out[..|out| - 1]) + RawKeysOf(out[|out| - 1])
  }

  function RawKeysOf(o: Output): seq<Queued> { if o.Commit? && o.why.Raw? then o.why.keys else [] }

  /** A raw commit says the pinyin, the pending Space and the presses it holds, and nothing else. */
  predicate Spoken(o: Output) {
    o.Commit? && o.why.Raw? ==> o.text == o.why.letters + (if o.why.spaced then " " else "") + PressText(o.why.keys)
  }

  predicate AllSpoken(out: seq<Output>) { forall k :: 0 <= k < |out| ==> Spoken(out[k]) }

  /** Whether a fate lets the key pass on to the application. */
  predicate PassesOn(f: Fate) { (f.Processed? && !f.accepted) || (f.Flushed? && f.key.event.release) }

  function ForwardOf(key: Queued): Output { Forward(key.owner, key.event.raw, key.event.release, key.event.time) }

  function PassedOn(fates: seq<Fate>): seq<Output> {
    if fates == [] then []
    else PassedOn(fates[..|fates| - 1]) + (if PassesOn(fates[|fates| - 1]) then [ForwardOf(fates[|fates| - 1].key)] else [])
  }

  function FlushedIn(fates: seq<Fate>): seq<Queued> {
    if fates == [] then []
    else FlushedIn(fates[..|fates| - 1]) + (if fates[|fates| - 1].Flushed? then [fates[|fates| - 1].key] else [])
  }

  /** A key processed after the wait: a release is never accepted, a plain letter always. */
  predicate WellTaken(f: Fate) {
    f.Processed? ==> (if f.key.event.release then !f.accepted else IsLower(f.key.event.sym) && !f.key.event.shortcut ==> f.accepted)
  }

  predicate AllWellTaken(fates: seq<Fate>) { forall k :: 0 <= k < |fates| ==> WellTaken(fates[k]) }

  /**
   * The fates tell the output: the keys forwarded are, one for one and in order, those processed
   * and not accepted and the releases flushed; the keys in raw commits are those flushed; and a raw
   * commit is exactly the text of its own.
   */
  predicate Traced(out: seq<Output>, fates: seq<Fate>) {
    ForwardsIn(out) == PassedOn(fates) && RawKeysIn(out) == FlushedIn(fates) && AllSpoken(out) && AllWellTaken(fates)
  }

  /** What a pending Space holds back: releases, and printable presses that end or edit nothing. */
  predicate Held(e: Event) {
    e.release || (!e.shortcut && e.sym != KEY_ESCAPE && e.sym != KEY_BACKSPACE && e.text != "")
  }

  predicate AllHeld(q: seq<Queued>) { forall k :: 0 <= k < |q| ==> Held(q[k].event) }

  predicate OwnedBy(q: seq<Queued>, ic: Ic) { forall k :: 0 <= k < |q| ==> q[k].owner == ic }

  // ---------------------------------------------------------------- one more output, one more fate

  lemma OneMoreOutput(out: seq<Output>, o: Output)
    ensures ForwardsIn(out + [o]) == ForwardsIn(out) + (if o.Forward? then [o] else [])
    ensures RawKeysIn(out + [o]) == RawKeysIn(out) + RawKeysOf(o)
    ensures AllSpoken(out) && Spoken(o) ==> AllSpoken(out + [o])
  {
    assert (out + [o])[..|out|] == out;
  }

  lemma OneMoreFate(fates: seq<Fate>, f: Fate)
    ensures PassedOn(fates + [f]) == PassedOn(fates) + (if PassesOn(f) then [ForwardOf(f.key)] else [])
    ensures FlushedIn(fates + [f]) == FlushedIn(fates) + (if f.Flushed? then [f.key] else [])
  {
    assert (fates + [f])[..|fates|] == fates;
  }

  /** Text that is not raw tells nothing of deferred keys. */
  lemma PlainTraces(out: seq<Output>, fates: seq<Fate>, ic: Ic, text: string, why: Reason)
    requires Traced(out, fates) && !why.Raw?
    ensures Traced(out + [Commit(ic, text, why)], fates)
  {
    OneMoreOutput(out, Commit(ic, text, why));
  }

  /** Fates that leave no trace: cancelled and deleted keys reach no output. */
  lemma {:induction false} SilentFates(out: seq<Output>, fates: seq<Fate>, more: seq<Fate>)
    requires Traced(out, fates) && forall k :: 0 <= k < |more| ==> more[k].Cancelled? || more[k].Deleted?
    ensures Traced(out, fates + more)
    decreases |more|
  {
    if more == [] {
      assert fates + more == fates;
    } else {
      var n := |more| - 1;
      SilentFates(out, fates, more[..n]);
      OneMoreFate(fates + more[..n], more[n]);
      assert fates + more[..n] + [more[n]] == fates + more;
    }
  }

  /** A flush: the raw commit holds the queue, and its releases are forwarded behind it. */
  lemma FlushTraces(out: seq<Output>, fates: seq<Fate>, ic: Ic, text: string, why: Reason, q: seq<Queued>)
    requires Traced(out, fates) && OwnedBy(q, ic)
    requires why.Raw? && why.keys == q && Spoken(Commit(ic, text, why))
    ensures Traced(out + [Commit(ic, text, why)] + Releases(ic, q), fates + FlushFates(q))
  {
    hide ForwardsIn, RawKeysIn, AllSpoken, PassedOn, FlushedIn, Releases, Spoken, OwnedBy;
    OneMoreOutput(out, Commit(ic, text, why));
    ReleasesFollow(out + [Commit(ic, text, why)], ic, q);
    FlushIsTold(fates, ic, q);
  }

  /** The first of a sequence moves over to what stands before it. */
  lemma MoveOver<T>(front: seq<T>, x: T, rest: seq<T>)
    ensures front + ([x] + rest) == front + [x] + rest
  {
  }

  lemma {:induction false} ReleasesFollow(out: seq<Output>, ic: Ic, q: seq<Queued>)
    ensures ForwardsIn(out + Releases(ic, q)) == ForwardsIn(out) + Releases(ic, q)
    ensures RawKeysIn(out + Releases(ic, q)) == RawKeysIn(out)
    ensures AllSpoken(out) ==> AllSpoken(out + Releases(ic, q))
    decreases |q|
  {
    hide ForwardsIn, RawKeysIn, AllSpoken;
    if q == [] {
      assert out + Releases(ic, q) == out;
    } else if q[0].event.release {
      var o := Forward(ic, q[0].event.raw, true, q[0].event.time);
      OneMoreOutput(out, o);
      ReleasesFollow(out + [o], ic, q[1..]);
      MoveOver(out, o, Releases(ic, q[1..]));
      MoveOver(ForwardsIn(out), o, Releases(ic, q[1..]));
    } else {
      ReleasesFollow(out, ic, q[1..]);
      assert Releases(ic, q) == Releases(ic, q[1..]);
    }
  }

  lemma {:induction false} FlushIsTold(fates: seq<Fate>, ic: Ic, q: seq<Queued>)
    requires OwnedBy(q, ic)
    ensures PassedOn(fates + FlushFates(q)) == PassedOn(fates) + Releases(ic, q)
    ensures FlushedIn(fates + FlushFates(q)) == FlushedIn(fates) + q
    decreases |q|
  {
    hide PassedOn, FlushedIn;
    if q == [] {
      assert fates + FlushFates(q) == fates;
    } else {
      var f, rest := Flushed(q[0]), q[1..];
      OneMoreFate(fates, f);
      FlushIsTold(fates + [f], ic, rest);
      FlushFatesStep(q);
      MoveOver(fates, f, FlushFates(rest));
      MoveOver(FlushedIn(fates), q[0], rest);
      assert q == [q[0]] + rest;
      if q[0].event.release {
        MoveOver(PassedOn(fates), ForwardOf(q[0]), Releases(ic, rest));
      } else {
        assert Releases(ic, q) == Releases(ic, rest);
      }
    }
  }

  lemma FlushFatesStep(q: seq<Queued>)
    requires q != []
    ensures FlushFates(q) == [Flushed(q[0])] + FlushFates(q[1..])
  {
  }

  lemma SwitchFatesStep(q: seq<Queued>)
    requires q != []
    ensures SwitchFates(q) == [if q[0].event.release then Cancelled(q[0]) else Flushed(q[0])] + SwitchFates(q[1..])
  {
  }

  lemma {:induction false} SwitchIsTold(fates: seq<Fate>, q: seq<Queued>)
    ensures PassedOn(fates + SwitchFates(q)) == PassedOn(fates)
    ensures FlushedIn(fates + SwitchFates(q)) == FlushedIn(fates) + HeldPresses(q)
    decreases |q|
  {
    hide PassedOn, FlushedIn, SwitchFates;
    if q == [] {
      assert fates + SwitchFates(q) == fates by { NoSwitchFates(); }
    } else {
      var f := if q[0].event.release then Cancelled(q[0]) else Flushed(q[0]);
      OneMoreFate(fates, f);
      SwitchIsTold(fates + [f], q[1..]);
      SwitchFatesStep(q);
      MoveOver(fates, f, SwitchFates(q[1..]));
      if q[0].event.release {
        assert HeldPresses(q) == HeldPresses(q[1..]);
      } else {
        MoveOver(FlushedIn(fates), q[0], HeldPresses(q[1..]));
      }
    }
  }

  lemma NoSwitchFates()
    ensures SwitchFates([]) == []
  {
  }

  lemma {:induction false} HeldPressesSayAll(q: seq<Queued>)
    ensures PressText(HeldPresses(q)) == PressText(q)
  {
    if q != [] {
      HeldPressesSayAll(q[1..]);
      if q[0].event.release {
        assert HeldPresses(q) == HeldPresses(q[1..]);
      } else {
        assert HeldPresses(q)[0] == q[0] && HeldPresses(q)[1..] == HeldPresses(q[1..]);
      }
    }
  }

  // ---------------------------------------------------------------- the addon's operations

  predicate FatesTold(st: State) { Traced(st.out, st.defer.fates) }

  /** What an operation outside the queue says: at most one text, and not a raw one. */
  predicate SaysPlainly(a: State, b: State) {
    && b.defer.fates == a.defer.fates
    && (b.out == a.out || (|b.out| == |a.out| + 1 && a.out <= b.out && b.out[|a.out|].Commit? && !b.out[|a.out|].why.Raw?))
  }

  lemma PlainlyTold(a: State, b: State)
    requires FatesTold(a) && SaysPlainly(a, b)
    ensures FatesTold(b)
  {
    if b.out != a.out {
      var o := b.out[|a.out|];
      assert b.out == a.out + [o];
      PlainTraces(a.out, a.defer.fates, o.ic, o.text, o.why);
    }
  }

  lemma CommitTextSays(st: State, ic: Ic, text: string, why: Reason)
    requires !why.Raw?
    ensures SaysPlainly(st, CommitText(st, ic, text, why))
  {
    hide CommitText;
    assert CommitText(st, ic, text, why).out == st.out + [Commit(ic, text, why)];
  }

  lemma CommitCandidateSays(st: State, ic: Ic, index: int)
    ensures SaysPlainly(st, CommitCandidate(st, ic, index))
  {
    hide CommitText, Send, UpdateUI;
    if st.comp.current && 0 <= index < |st.comp.cands| {
      var text, why := st.comp.cands[index], Choice(st.comp, index);
      assert CommitCandidate(st, ic, index).out == st.out + [Commit(ic, text, why)];
    }
  }

  lemma PunctKeySays(st: State, ic: Ic, e: Event)
    ensures SaysPlainly(st, PunctKey(st, ic, e).st)
  {
    hide CommitText, Send;
    var r := PunctKey(st, ic, e).st;
    if st.comp.buf != "" && e.punct != "" {
      if Selectable(st) && 0 <= st.page.selected < |st.comp.cands| {
        assert r.out == st.out + [Commit(ic, st.comp.cands[st.page.selected] + e.punct, Choice(st.comp, st.page.selected))];
      } else {
        assert r.out == st.out + [Commit(ic, st.comp.buf + e.punct, Literal)];
      }
    } else if st.comp.buf == "" && e.wide {
      assert r.out == st.out + [Commit(ic, e.punct, Literal)];
    }
  }

  lemma DigitKeySays(st: State, ic: Ic, sym: nat)
    requires IsDigitKey(sym)
    ensures SaysPlainly(st, DigitKey(st, ic, sym).st)
  {
    hide CommitCandidate, SaysPlainly;
    var ordinal: int := if sym == 0x30 then 9 else sym - 0x31;
    CommitCandidateSays(st, ic, st.page.start + ordinal);
    SameSays(st);
  }

  lemma SameSays(st: State)
    ensures SaysPlainly(st, st)
  {
  }

  /** A raw fallback tells exactly the keys it flushes. */
  lemma FallbackTells(st: State, ic: Ic)
    requires FatesTold(st) && OwnedBy(st.defer.queued, ic)
    ensures FatesTold(Fallback(st, ic))
  {
    hide Traced, CommitText;
    FlushTraces(st.out, st.defer.fates, ic, PendingRaw(st.comp, st.defer),
                Raw(st.comp.buf, st.defer.pending, st.defer.queued), st.defer.queued);
  }

  lemma ClearAllTells(st: State)
    requires FatesTold(st)
    ensures FatesTold(ClearAll(st))
  {
    hide Traced, ClearAll;
    SilentFates(st.out, st.defer.fates, CancelFates(st.defer.queued));
  }

  lemma SwitchAwayTells(st: State, ic: Ic)
    requires FatesTold(st)
    ensures FatesTold(SwitchAway(st, ic))
  {
    HeldPressesSayAll(st.defer.queued);
    SwitchIsTold(st.defer.fates, st.defer.queued);
    OneMoreOutput(st.out, SwitchAway(st, ic).out[|st.out|]);
  }

  lemma DropLastPressTells(st: State)
    requires FatesTold(st) && LastPress(st.defer.queued) < |st.defer.queued|
    ensures Traced(st.out, DropLastPress(st.defer).fates)
  {
    hide Traced, LastPress, ReleaseOf;
    var more := DropLastPress(st.defer).fates[|st.defer.fates|..];
    assert DropLastPress(st.defer).fates == st.defer.fates + more;
    SilentFates(st.out, st.defer.fates, more);
  }

  lemma ArmTells(st: State, ic: Ic)
    requires FatesTold(st) && OwnedBy(st.defer.queued, ic)
    ensures FatesTold(Arm(st, ic))
  {
    hide Traced, UpdateUI, Fallback;
    var armed := UpdateUI(st.(defer := st.defer.(pending := true, timer := Some(Timer(ic, st.comp.epoch)))));
    FallbackTells(armed, ic);
  }

  lemma IdleKeyTells(st: State, ic: Ic, e: Event)
    requires FatesTold(st) && OwnedBy(st.defer.queued, ic)
    ensures FatesTold(IdleKey(st, ic, e).st)
  {
    hide Traced, SaysPlainly, UpdateUI, LetterKey, PunctKey, DigitKey, CommitCandidate, Arm, CommitText, BackspaceKey, ClearAll,
      MustRedraw, PageSize, ArrowMove, PageBack, PageForward, Shown, LinkGoes, QueueMoves, StaysGivenUp;
    var s := if MustRedraw(st) then UpdateUI(st) else st;
    if s.comp.buf == "" && IsUpper(e.sym) && e.shift {
      PlainTraces(s.out, s.defer.fates, ic, [e.sym as char], Literal);
    } else if IsLower(e.sym) || IsUpper(e.sym) {
    } else if Owned(e.sym) {
      PunctKeySays(s, ic, e);
      PlainlyTold(s, PunctKey(s, ic, e).st);
    } else if IsDigitKey(e.sym) {
      DigitKeySays(s, ic, e.sym);
      PlainlyTold(s, DigitKey(s, ic, e.sym).st);
    } else {
      EndKeysTell(s, ic);
    }
  }

  lemma EndKeysTell(s: State, ic: Ic)
    requires FatesTold(s) && OwnedBy(s.defer.queued, ic)
    ensures FatesTold(CommitCandidate(s, ic, s.page.selected)) && FatesTold(Arm(s, ic))
    ensures FatesTold(CommitText(s, ic, s.comp.buf, Literal)) && FatesTold(ClearAll(s))
  {
    hide Traced, SaysPlainly, CommitCandidate, Arm, CommitText, ClearAll;
    CommitCandidateSays(s, ic, s.page.selected);
    PlainlyTold(s, CommitCandidate(s, ic, s.page.selected));
    ArmTells(s, ic);
    CommitTextSays(s, ic, s.comp.buf, Literal);
    PlainlyTold(s, CommitText(s, ic, s.comp.buf, Literal));
    ClearAllTells(s);
  }

  lemma PendingBackspaceTells(st: State, ic: Ic)
    requires FatesTold(st) && OwnedBy(st.defer.queued, ic)
    ensures FatesTold(PendingBackspace(st, ic).st)
  {
    hide Traced, Fallback, UpdateUI, Request, Send, LastPress, DropLastPress;
    if LastPress(st.defer.queued) < |st.defer.queued| {
      DropLastPressTells(st);
    } else {
      var s := Send(st.(comp := st.comp.(buf := DropLast(st.comp.buf), revision := st.comp.revision + 1, current := false,
                                         cands := [], covers := [], typed := DropLast(st.comp.typed), typists := DropLast(st.comp.typists))),
                    Clear, NoHandler);
      FallbackTells(s, ic);
    }
  }

  /** One event out of the queue: forwarded exactly when the addon does not accept it. */
  lemma ProcessedTells(out: seq<Output>, fates: seq<Fate>, q: Queued, ic: Ic, accepted: bool)
    requires Traced(out, fates) && q.owner == ic && WellTaken(Processed(q, accepted))
    ensures Traced(if accepted then out else out + [Forward(ic, q.event.raw, q.event.release, q.event.time)],
                   fates + [Processed(q, accepted)])
  {
    OneMoreOutput(out, ForwardOf(q));
    OneMoreFate(fates, Processed(q, accepted));
  }

  // ---------------------------------------------------------------- draining the queue

  /** Nothing output is taken back, and no fate. */
  predicate OnlyGrows(a: State, b: State) { a.out <= b.out && a.defer.fates <= b.defer.fates }

  lemma IdleKeyGrows(st: State, ic: Ic, e: Event)
    ensures OnlyGrows(st, IdleKey(st, ic, e).st)
  {
    hide SaysPlainly, UpdateUI, LetterKey, PunctKey, DigitKey, CommitCandidate, Arm, CommitText, BackspaceKey, ClearAll,
      MustRedraw, PageSize, ArrowMove, PageBack, PageForward, Shown, LinkGoes, QueueMoves, StaysGivenUp;
    var s := if MustRedraw(st) then UpdateUI(st) else st;
    MovesGrow(st.defer, IdleKey(st, ic, e).st.defer);
    PunctKeySays(s, ic, e);
    PlainlyGrows(s, PunctKey(s, ic, e).st);
    if IsDigitKey(e.sym) {
      DigitKeySays(s, ic, e.sym);
      PlainlyGrows(s, DigitKey(s, ic, e.sym).st);
    }
    CommitCandidateSays(s, ic, s.page.selected);
    PlainlyGrows(s, CommitCandidate(s, ic, s.page.selected));
    ArmGrows(s, ic);
  }

  lemma MovesGrow(d: Defer, r: Defer)
    requires QueueMoves(d, r)
    ensures d.fates <= r.fates
  {
  }

  lemma PlainlyGrows(a: State, b: State)
    requires SaysPlainly(a, b)
    ensures a.out <= b.out
  {
  }

  lemma ArmGrows(st: State, ic: Ic)
    ensures st.out <= Arm(st, ic).out
  {
    hide UpdateUI, CommitText;
  }

  lemma {:induction false} DrainGrows(st: State, ic: Ic)
    ensures OnlyGrows(st, Drain(st, ic))
    decreases |st.defer.queued|, 1
  {
    if !st.defer.pending && st.defer.queued != [] && st.ic == Some(ic) {
      DrainedKeyIsServed(st, ic);
      var popped := st.(defer := st.defer.(queued := st.defer.queued[1..]));
      ProcessGrows(popped, ic, st.defer.queued[0].event);
    }
  }

  lemma ProcessGrows(st: State, ic: Ic, e: Event)
    requires !st.defer.pending && st.ic == Some(ic)
    ensures OnlyGrows(st, ProcessKey(st, ic, e).st)
  {
    hide IdleKey;
    IdleKeyGrows(st, ic, e);
  }

  /**
   * Draining serves the first deferred event as processKey does without the wait, then forwards it
   * exactly when it was not accepted, before anything else; and its fate says which.
   */
  lemma {:induction false} DrainedKeyIsServed(st: State, ic: Ic)
    requires !st.defer.pending && st.defer.queued != [] && st.ic == Some(ic)
    ensures var q := st.defer.queued[0];
            var r := ProcessKey(st.(defer := st.defer.(queued := st.defer.queued[1..])), ic, q.event);
            && (if r.accepted then r.st.out else r.st.out + [Forward(ic, q.event.raw, q.event.release, q.event.time)])
                 <= Drain(st, ic).out
            && r.st.defer.fates + [Processed(q, r.accepted)] <= Drain(st, ic).defer.fates
    decreases |st.defer.queued|, 0
  {
    hide ProcessKey;
    var q := st.defer.queued[0];
    var r := ProcessKey(st.(defer := st.defer.(queued := st.defer.queued[1..])), ic, q.event);
    var out := if r.accepted then r.st.out else r.st.out + [Forward(ic, q.event.raw, q.event.release, q.event.time)];
    var s := r.st.(out := out, defer := r.st.defer.(fates := r.st.defer.fates + [Processed(q, r.accepted)]));
    QueueShrinks(st, ic, q.event);
    DrainGrows(s, ic);
  }

  lemma QueueShrinks(st: State, ic: Ic, e: Event)
    requires !st.defer.pending && st.defer.queued != [] && st.ic == Some(ic)
    ensures |ProcessKey(st.(defer := st.defer.(queued := st.defer.queued[1..])), ic, e).st.defer.queued| < |st.defer.queued|
  {
    hide ProcessKey;
  }

  // ---------------------------------------------------------------- keys that reach no output

  function FateKeys(fs: seq<Fate>): seq<Queued> { seq(|fs|, k requires 0 <= k < |fs| => fs[k].key) }

  /** The events ever deferred, numbered in order. */
  predicate Numbered(log: seq<Queued>) { forall k :: 0 <= k < |log| ==> log[k].id == k }

  /** Every event ever deferred is either queued or has met one fate. */
  ghost predicate Settled(d: Defer) {
    Numbered(d.log) && multiset(FateKeys(d.fates)) + multiset(d.queued) == multiset(d.log)
  }

  /** The keys behind the forwards, in order. */
  function PassedKeys(fates: seq<Fate>): seq<Queued> {
    if fates == [] then []
    else PassedKeys(fates[..|fates| - 1]) + (if PassesOn(fates[|fates| - 1]) then [fates[|fates| - 1].key] else [])
  }

  lemma {:induction false} PassedKeysArePassed(fates: seq<Fate>)
    ensures |PassedOn(fates)| == |PassedKeys(fates)|
    ensures forall k :: 0 <= k < |PassedKeys(fates)| ==> PassedOn(fates)[k] == ForwardOf(PassedKeys(fates)[k])
  {
    if fates != [] {
      PassedKeysArePassed(fates[..|fates| - 1]);
    }
  }

  lemma {:induction false} PassedHavePassed(fates: seq<Fate>, key: Queued)
    requires key in PassedKeys(fates) || key in FlushedIn(fates)
    ensures exists k :: 0 <= k < |fates| && fates[k].key == key && !fates[k].Cancelled? && !fates[k].Deleted?
  {
    var n := |fates| - 1;
    if key in PassedKeys(fates[..n]) || key in FlushedIn(fates[..n]) {
      PassedHavePassed(fates[..n], key);
      var k :| 0 <= k < n && fates[..n][k].key == key && !fates[..n][k].Cancelled? && !fates[..n][k].Deleted?;
      assert fates[k].key == key;
    } else {
      assert fates[n].key == key;
    }
  }

  /**
   * Cancelled and deleted keys reach no output: no raw commit holds one, and the keys forwarded are,
   * one for one, others.
   */
  lemma {:induction false} DroppedKeysAreSilent(st: State, f: Fate)
    requires FatesTold(st) && Settled(st.defer) && f in st.defer.fates && (f.Cancelled? || f.Deleted?)
    ensures f.key !in RawKeysIn(st.out) && f.key !in PassedKeys(st.defer.fates)
    ensures |ForwardsIn(st.out)| == |PassedKeys(st.defer.fates)|
    ensures forall k :: 0 <= k < |ForwardsIn(st.out)| ==> ForwardsIn(st.out)[k] == ForwardOf(PassedKeys(st.defer.fates)[k])
  {
    var fates := st.defer.fates;
    PassedKeysArePassed(fates);
    if f.key in PassedKeys(fates) || f.key in FlushedIn(fates) {
      PassedHavePassed(fates, f.key);
      var k :| 0 <= k < |fates| && fates[k].key == f.key && !fates[k].Cancelled? && !fates[k].Deleted?;
      var j :| 0 <= j < |fates| && fates[j] == f;
      OneFateEach(st.defer, j, k);
    }
  }

  lemma OneFateEach(d: Defer, j: nat, k: nat)
    requires Settled(d) && j < |d.fates| && k < |d.fates| && d.fates[j].key == d.fates[k].key
    ensures j == k
  {
    var keys, key := FateKeys(d.fates), d.fates[j].key;
    LoggedOnce(d.log, key);
    assert multiset(keys)[key] <= 1;
    TwiceCounted(keys, Min(j, k), Max(j, k));
  }

  lemma TwiceCounted<T>(keys: seq<T>, i: nat, m: nat)
    requires i <= m < |keys| && keys[i] == keys[m]
    ensures i < m ==> multiset(keys)[keys[i]] >= 2
  {
    if i < m {
      assert keys == keys[..i] + [keys[i]] + keys[i + 1..m] + [keys[m]] + keys[m + 1..];
    }
  }

  lemma {:induction false} LoggedOnce(log: seq<Queued>, key: Queued)
    requires Numbered(log)
    ensures multiset(log)[key] <= 1
  {
    if log != [] {
      var n := |log| - 1;
      LoggedOnce(log[..n], key);
      assert log == log[..n] + [log[n]];
    }
  }
}
