/** What every run of the addon keeps, under any keys, replies, deaths and timers. */
module AddonRuns {
  import opened Basics
  import opened Codec
  import opened Wire
  import opened Addon
  import opened DeferredFates

  // ---------------------------------------------------------------- invariants

  /**
   * Selectable candidates are the parse of a reply to a request captured at the present
   * epoch, revision and pinyin.
   */
  predicate Fresh(c: Comp) {
    c.current ==>
      && c.source.Some?
      && var Source(h, line, spans) := c.source.value;
         h.CandHandler? && h.epoch == c.epoch && h.revision == c.revision && h.buf == c.buf
         && c.cands == Texts(Parsed(spans, line)) && c.covers == Covers(Parsed(spans, line))
  }

  /** The letters typed and not deleted are those partial selections consumed, then the pinyin left. */
  predicate Conserved(c: Comp) { c.typed == c.consumed + c.buf }

  /** A chosen candidate is the index-th text of a reply for exactly the pinyin it replaces. */
  predicate Justified(o: Output) {
    o.Commit? && o.why.Chosen? ==>
      var Chosen(index, Source(h, line, spans), buf, revision, epoch) := o.why;
      && h.CandHandler? && h.epoch == epoch && h.revision == revision && h.buf == buf
      && index < |Parsed(spans, line)|
      && StartsWith(o.text, Parsed(spans, line)[index].text)
  }

  predicate AllJustified(out: seq<Output>) { forall k :: 0 <= k < |out| ==> Justified(out[k]) }

  predicate Sound(st: State) {
    Fresh(st.comp) && Conserved(st.comp) && LinkOk(st.link) && AllJustified(st.out)
    && |st.comp.cands| == |st.comp.covers| && Letters(st.comp.buf)
  }

  /** A pending Space waits for pinyin whose candidates are not here yet, with its timer set; what is queued is its owner's. */
  predicate Waiting(st: State) {
    st.defer.pending ==>
      && st.comp.buf != "" && !st.comp.current
      && st.defer.timer.Some? && st.defer.timer.value.epoch == st.comp.epoch
      && (st.ic == None || st.ic == Some(st.defer.timer.value.ic))
      && OwnedBy(st.defer.queued, st.defer.timer.value.ic)
  }

  /** The ids processed so far and those still queued, in one line. */
  function ServiceLine(d: Defer): seq<nat> { ProcessedIds(d.fates) + Ids(d.queued) }

  function ProcessedIds(fs: seq<Fate>): seq<nat> {
    if fs == [] then []
    else ProcessedIds(fs[..|fs| - 1]) + (if fs[|fs| - 1].Processed? then [fs[|fs| - 1].key.id] else [])
  }

  predicate Increasing(s: seq<nat>, bound: nat) {
    && (forall i, j :: 0 <= i < j < |s| ==> s[i] < s[j])
    && (forall i :: 0 <= i < |s| ==> s[i] < bound)
  }

  predicate InOrder(d: Defer) { Increasing(ServiceLine(d), |d.log|) }

  /** At rest, between two turns of the event loop. */
  ghost predicate AtRest(st: State) {
    && Sound(st) && Waiting(st) && Settled(st.defer) && InOrder(st.defer) && FatesTold(st)
    && (st.defer.queued != [] ==> st.defer.pending)
    && |st.defer.queued| < 256 && AllHeld(st.defer.queued)
  }

  lemma AtRestIsSound(a: State)
    requires AtRest(a)
    ensures Sound(a) && Waiting(a)
  {
  }

  // ---------------------------------------------------------------- soundness, function by function

  lemma DropLastConserves(typed: string, consumed: string, buf: string)
    requires typed == consumed + buf && buf != ""
    ensures DropLast(typed) == consumed + DropLast(buf)
  {
  }

  lemma CommitCandidateIsSound(st: State, ic: Ic, index: int)
    requires Sound(st)
    ensures Sound(CommitCandidate(st, ic, index))
    ensures st.comp.current && 0 <= index < |st.comp.cands| ==> !CommitCandidate(st, ic, index).comp.current
  {
    hide Send, UpdateUI, CommitText, Shown, Normalized, Renewed, NoneLater, RestartsNothing, Continues, Written;
    if st.comp.current && 0 <= index < |st.comp.cands| && KeepsRest(st.comp, index) {
      var cover := CoverAt(st.comp, index);
      assert st.comp.buf == st.comp.buf[..cover] + st.comp.buf[cover..];
    }
  }

  lemma LetterKeyIsSound(st: State, c: char)
    requires Sound(st) && 'a' <= c <= 'z'
    ensures Sound(LetterKey(st, c))
  {
  }

  lemma PunctKeyIsSound(st: State, ic: Ic, e: Event)
    requires Sound(st)
    ensures Sound(PunctKey(st, ic, e).st)
  {
  }

  lemma DigitKeyIsSound(st: State, ic: Ic, sym: nat)
    requires Sound(st) && IsDigitKey(sym)
    ensures Sound(DigitKey(st, ic, sym).st)
  {
    hide Sound, CommitCandidate;
    CommitCandidateIsSound(st, ic, st.page.start + if sym == 0x30 then 9 else sym - 0x31);
  }

  lemma BackspaceKeyIsSound(st: State)
    requires Sound(st) && st.comp.buf != ""
    ensures Sound(BackspaceKey(st))
  {
    DropLastConserves(st.comp.typed, st.comp.consumed, st.comp.buf);
  }

  lemma FallbackIsSound(st: State, ic: Ic)
    requires Sound(st)
    ensures Sound(Fallback(st, ic))
  {
    var s := Fallback(st, ic);
    ReleasesAreJustified(ic, st.defer.queued);
  }

  lemma ReleasesAreJustified(ic: Ic, q: seq<Queued>)
    ensures AllJustified(Releases(ic, q))
  {
  }

  lemma ArmIsSound(st: State, ic: Ic)
    requires Sound(st) && st.comp.buf != "" && !Selectable(st) && st.ic == Some(ic) && OwnedBy(st.defer.queued, ic)
    ensures Sound(Arm(st, ic)) && Waiting(Arm(st, ic))
  {
    var armed := UpdateUI(st.(defer := st.defer.(pending := true, timer := Some(Timer(ic, st.comp.epoch)))));
    FallbackIsSound(armed, ic);
  }

  lemma ClearAllIsSound(st: State)
    requires Sound(st)
    ensures Sound(ClearAll(st))
  {
  }

  lemma IdleKeyIsSound(st: State, ic: Ic, e: Event)
    requires Sound(st) && !st.defer.pending && st.ic == Some(ic) && OwnedBy(st.defer.queued, ic)
    ensures Sound(IdleKey(st, ic, e).st) && Waiting(IdleKey(st, ic, e).st)
  {
    hide LetterKey, PunctKey, DigitKey, ClearAll, BackspaceKey, CommitCandidate, Arm, UpdateUI, CommitText,
      MustRedraw, PageSize, ArrowMove, PageBack, PageForward, Shown, StaysGivenUp, OwnedBy;
    var s := if MustRedraw(st) then UpdateUI(st) else st;
    if IsLower(e.sym) || IsUpper(e.sym) {
      LetterKeyIsSound(s, LetterOf(e.sym));
    } else if Owned(e.sym) {
      PunctKeyIsSound(s, ic, e);
    } else if IsDigitKey(e.sym) {
      DigitKeyIsSound(s, ic, e.sym);
    } else if s.comp.buf != "" {
      ClearAllIsSound(s);
      BackspaceKeyIsSound(s);
      if Selectable(s) {
        CommitCandidateIsSound(s, ic, s.page.selected);
      } else {
        ArmIsSound(s, ic);
      }
    }
  }

  // ---------------------------------------------------------------- the fates of deferred events

  lemma RemoveAtSettles(q: seq<Queued>, i: nat)
    requires i < |q|
    ensures multiset(q) == multiset(RemoveAt(q, i)) + multiset{q[i]}
  {
    assert q == q[..i] + [q[i]] + q[i + 1..];
  }

  lemma EnqueueSettles(d: Defer, ic: Ic, e: Event)
    requires Settled(d)
    ensures Settled(Enqueue(d, ic, e))
  {
  }

  lemma EnqueueInOrder(d: Defer, ic: Ic, e: Event)
    requires InOrder(d)
    ensures InOrder(Enqueue(d, ic, e))
  {
    assert ServiceLine(Enqueue(d, ic, e)) == ServiceLine(d) + [|d.log|];
  }

  lemma QueueMovesSettle(d: Defer, r: Defer)
    requires Settled(d) && QueueMoves(d, r)
    ensures Settled(r)
  {
    if r.queued != d.queued || r.fates != d.fates {
      SettledAsAWhole(d.fates, d.queued, r.fates);
    }
  }

  /** A flush, a cancellation or a switch gives every queued event a fate that is not Processed. */
  lemma SettledAsAWhole(fates: seq<Fate>, q: seq<Queued>, after: seq<Fate>)
    requires after == fates + FlushFates(q) || after == fates + CancelFates(q) || after == fates + SwitchFates(q)
    ensures FateKeys(after) == FateKeys(fates) + q
    ensures ProcessedIds(after) == ProcessedIds(fates)
  {
    hide FateKeys, ProcessedIds;
    KeysAsAWhole(fates, after[|fates|..], q);
    assert after == fates + after[|fates|..];
    NotProcessed(fates, after);
  }

  lemma KeysAsAWhole(fates: seq<Fate>, more: seq<Fate>, q: seq<Queued>)
    requires |more| == |q| && forall k :: 0 <= k < |q| ==> more[k].key == q[k]
    ensures FateKeys(fates + more) == FateKeys(fates) + q
  {
  }

  lemma {:induction false} NotProcessed(fates: seq<Fate>, after: seq<Fate>)
    requires fates <= after && forall k :: |fates| <= k < |after| ==> !after[k].Processed?
    ensures ProcessedIds(after) == ProcessedIds(fates)
  {
    if after != fates {
      NotProcessed(fates, after[..|after| - 1]);
    }
  }

  lemma QueueMovesInOrder(d: Defer, r: Defer)
    requires InOrder(d) && QueueMoves(d, r)
    ensures InOrder(r)
  {
    if r.queued != d.queued || r.fates != d.fates {
      SettledAsAWhole(d.fates, d.queued, r.fates);
      assert ServiceLine(r) == ServiceLine(d)[..|ProcessedIds(d.fates)|];
    }
  }

  lemma DropLastPressSettles(d: Defer)
    requires Settled(d) && LastPress(d.queued) < |d.queued|
    ensures Settled(DropLastPress(d))
  {
    hide LastPress, ReleaseOf, RemoveAt, FateKeys, Numbered;
    var n := LastPress(d.queued);
    var rest := RemoveAt(d.queued, n);
    var r := ReleaseOf(rest, d.queued[n].event.raw, n);
    RemoveAtSettles(d.queued, n);
    if r == |rest| {
      OneDeleted(d.fates, d.queued[n]);
    } else {
      RemoveAtSettles(rest, r);
      TwoDeleted(d.fates, d.queued[n], rest[r]);
    }
  }

  lemma OneDeleted(fates: seq<Fate>, a: Queued)
    ensures multiset(FateKeys(fates + [Deleted(a)])) == multiset(FateKeys(fates)) + multiset{a}
  {
    assert FateKeys(fates + [Deleted(a)]) == FateKeys(fates) + [a];
  }

  lemma TwoDeleted(fates: seq<Fate>, a: Queued, b: Queued)
    ensures multiset(FateKeys(fates + [Deleted(a), Deleted(b)])) == multiset(FateKeys(fates)) + multiset{a} + multiset{b}
  {
    assert FateKeys(fates + [Deleted(a), Deleted(b)]) == FateKeys(fates) + [a] + [b];
  }

  lemma RemoveAtInOrder(d: Defer, i: nat)
    requires InOrder(d) && i < |d.queued|
    ensures InOrder(d.(queued := RemoveAt(d.queued, i)))
  {
    var n := |ProcessedIds(d.fates)| + i;
    assert ServiceLine(d.(queued := RemoveAt(d.queued, i))) == ServiceLine(d)[..n] + ServiceLine(d)[n + 1..];
  }

  lemma DropLastPressInOrder(d: Defer)
    requires InOrder(d) && LastPress(d.queued) < |d.queued|
    ensures InOrder(DropLastPress(d))
  {
    var n := LastPress(d.queued);
    RemoveAtInOrder(d, n);
    var e := d.(queued := RemoveAt(d.queued, n));
    var r := ReleaseOf(e.queued, d.queued[n].event.raw, n);
    if r < |e.queued| {
      RemoveAtInOrder(e, r);
    }
    NotProcessed(d.fates, DropLastPress(d).fates);
  }

  /** Taking the first event out, processing it and noting its fate. */
  ghost predicate TakenThenNoted(d: Defer, r: Defer, accepted: bool, f: Defer) {
    && d.queued != [] && QueueMoves(d.(queued := d.queued[1..]), r)
    && f == r.(fates := r.fates + [Processed(d.queued[0], accepted)])
  }

  lemma ProcessSettles(d: Defer, r: Defer, accepted: bool, f: Defer)
    requires Settled(d) && TakenThenNoted(d, r, accepted, f)
    ensures Settled(f)
  {
    var q := d.queued[0];
    assert d.queued == [q] + d.queued[1..];
    assert FateKeys(f.fates) == FateKeys(r.fates) + [q];
    if r.queued != d.queued[1..] || r.fates != d.fates {
      SettledAsAWhole(d.fates, d.queued[1..], r.fates);
    }
  }

  lemma ProcessInOrder(d: Defer, r: Defer, accepted: bool, f: Defer)
    requires InOrder(d) && TakenThenNoted(d, r, accepted, f)
    ensures InOrder(f)
  {
    var q, p := d.queued[0], ProcessedIds(d.fates);
    assert Ids(d.queued) == [q.id] + Ids(d.queued[1..]);
    assert ServiceLine(d) == (p + [q.id]) + Ids(d.queued[1..]);
    if r.queued != d.queued[1..] || r.fates != d.fates {
      SettledAsAWhole(d.fates, d.queued[1..], r.fates);
    }
    ProcessedSnoc(r.fates, Processed(q, accepted));
    hide ProcessedIds;
    assert ProcessedIds(f.fates) == p + [q.id];
    if r.queued == [] {
      assert ServiceLine(f) == p + [q.id];
      assert ServiceLine(f) == ServiceLine(d)[..|p| + 1];
    }
  }

  lemma ProcessedSnoc(fs: seq<Fate>, f: Fate)
    ensures ProcessedIds(fs + [f]) == ProcessedIds(fs) + (if f.Processed? then [f.key.id] else [])
  {
    assert (fs + [f])[..|fs|] == fs;
  }

  // ---------------------------------------------------------------- whole turns

  lemma PendingBackspaceAtRest(st: State, ic: Ic)
    requires AtRest(st) && st.defer.pending && st.ic == Some(ic)
    ensures AtRest(PendingBackspace(st, ic).st)
  {
    hide Fallback, UpdateUI, Request, Send, InOrder, Settled, Traced, LastPress, DropLastPress, AllHeld, OwnedBy, Shown;
    PendingBackspaceTells(st, ic);
    if LastPress(st.defer.queued) < |st.defer.queued| {
      DropLastPressLeaves(st.defer, ic);
      DropLastPressSettles(st.defer);
      DropLastPressInOrder(st.defer);
    } else {
      DropLastConserves(st.comp.typed, st.comp.consumed, st.comp.buf);
      var s := Send(st.(comp := st.comp.(buf := DropLast(st.comp.buf), revision := st.comp.revision + 1, current := false,
                                         cands := [], covers := [], typed := DropLast(st.comp.typed), typists := DropLast(st.comp.typists))),
                    Clear, NoHandler);
      FallbackAtRest(s, ic);
    }
  }

  lemma DropLastPressLeaves(d: Defer, ic: Ic)
    requires OwnedBy(d.queued, ic) && AllHeld(d.queued) && LastPress(d.queued) < |d.queued|
    ensures var r := DropLastPress(d);
            OwnedBy(r.queued, ic) && AllHeld(r.queued) && |r.queued| < |d.queued| && r.pending == d.pending && r.timer == d.timer
  {
  }

  lemma FallbackAtRest(st: State, ic: Ic)
    requires Sound(st) && Settled(st.defer) && InOrder(st.defer) && FatesTold(st) && OwnedBy(st.defer.queued, ic)
    ensures AtRest(Fallback(st, ic))
  {
    hide Sound, Traced;
    FallbackTells(st, ic);
    FallbackIsSound(st, ic);
    QueueMovesSettle(st.defer, Fallback(st, ic).defer);
    QueueMovesInOrder(st.defer, Fallback(st, ic).defer);
  }

  lemma ClearAllAtRest(st: State)
    requires Sound(st) && Settled(st.defer) && InOrder(st.defer) && FatesTold(st)
    ensures AtRest(ClearAll(st))
  {
    hide Sound, Traced;
    ClearAllTells(st);
    ClearAllIsSound(st);
    QueueMovesSettle(st.defer, ClearAll(st).defer);
    QueueMovesInOrder(st.defer, ClearAll(st).defer);
  }

  lemma PendingKeyAtRest(st: State, ic: Ic, e: Event)
    requires AtRest(st) && st.defer.pending && st.ic == Some(ic)
    ensures AtRest(PendingKey(st, ic, e).st)
  {
    hide Fallback, UpdateUI, ClearAll, PendingBackspace, InOrder, Settled, Traced;
    PendingBackspaceAtRest(st, ic);
    FallbackAtRest(st, ic);
    ClearAllAtRest(st);
    EnqueueSettles(st.defer, ic, e);
    EnqueueInOrder(st.defer, ic, e);
    FallbackAtRest(st.(defer := Enqueue(st.defer, ic, e)), ic);
  }

  lemma FocusAtRest(st: State, ic: Ic)
    requires AtRest(st)
    ensures AtRest(Focus(st, ic))
  {
    hide ClearAll, InOrder, Settled, Traced;
    ClearAllAtRest(st);
  }

  lemma IdleKeyAtRest(st: State, ic: Ic, e: Event)
    requires AtRest(st) && !st.defer.pending && st.ic == Some(ic)
    ensures AtRest(IdleKey(st, ic, e).st)
  {
    hide IdleKey, InOrder, Settled, Sound, Waiting, Traced;
    IdleKeyIsSound(st, ic, e);
    IdleKeyTells(st, ic, e);
    QueueMovesSettle(st.defer, IdleKey(st, ic, e).st.defer);
    QueueMovesInOrder(st.defer, IdleKey(st, ic, e).st.defer);
  }

  lemma ProcessKeyAtRest(st: State, ic: Ic, e: Event)
    requires AtRest(st)
    ensures AtRest(ProcessKey(st, ic, e).st)
  {
    hide PendingKey, IdleKey, AtRest;
    var s := Focus(st, ic);
    FocusAtRest(st, ic);
    if s.defer.pending {
      PendingKeyAtRest(s, ic, e);
    } else if !e.shortcut && !e.release {
      IdleKeyAtRest(s, ic, e);
    }
  }

  /** At rest but for a queue that a drain has still to empty. */
  ghost predicate Draining(st: State, ic: Ic) {
    && Sound(st) && Waiting(st) && Settled(st.defer) && InOrder(st.defer) && FatesTold(st)
    && |st.defer.queued| < 256 && OwnedBy(st.defer.queued, ic) && AllHeld(st.defer.queued)
  }

  lemma DrainOneIsSound(st: State, ic: Ic, e: Event)
    requires Sound(st) && !st.defer.pending && st.ic == Some(ic) && OwnedBy(st.defer.queued, ic)
    ensures Sound(ProcessKey(st, ic, e).st) && Waiting(ProcessKey(st, ic, e).st)
    ensures QueueMoves(st.defer, ProcessKey(st, ic, e).st.defer)
  {
    hide IdleKey, Sound;
    if !e.shortcut && !e.release {
      IdleKeyIsSound(st, ic, e);
    }
  }

  /** What one drained event says, with its fate. */
  lemma DrainOneTells(st: State, q: Queued, ic: Ic)
    requires FatesTold(st) && !st.defer.pending && st.ic == Some(ic) && OwnedBy(st.defer.queued, ic) && q.owner == ic
    ensures var r := ProcessKey(st, ic, q.event);
            Traced(if r.accepted then r.st.out else r.st.out + [Forward(ic, q.event.raw, q.event.release, q.event.time)],
                   r.st.defer.fates + [Processed(q, r.accepted)])
  {
    hide IdleKey, Traced;
    var r := ProcessKey(st, ic, q.event);
    if !q.event.shortcut && !q.event.release {
      IdleKeyTells(st, ic, q.event);
      LettersAreTaken(st, ic, q.event);
    }
    ProcessedTells(r.st.out, r.st.defer.fates, q, ic, r.accepted);
  }

  lemma LettersAreTaken(st: State, ic: Ic, e: Event)
    ensures IsLower(e.sym) ==> IdleKey(st, ic, e).accepted
  {
  }

  /** The state after one drained event. */
  function DrainedOne(st: State, ic: Ic): State
    requires st.defer.queued != []
  {
    var q := st.defer.queued[0];
    var r := ProcessKey(st.(defer := st.defer.(queued := st.defer.queued[1..])), ic, q.event);
    r.st.(out := if r.accepted then r.st.out
                 else r.st.out + [Forward(ic, q.event.raw, q.event.release, q.event.time)],
          defer := r.st.defer.(fates := r.st.defer.fates + [Processed(q, r.accepted)]))
  }

  lemma DrainedOneDrains(st: State, ic: Ic)
    requires Draining(st, ic) && st.ic == Some(ic) && !st.defer.pending && st.defer.queued != []
    ensures Draining(DrainedOne(st, ic), ic) && DrainedOne(st, ic).ic == Some(ic)
    ensures |DrainedOne(st, ic).defer.queued| < |st.defer.queued|
  {
    hide ProcessKey, Settled, InOrder, Fresh, Conserved, LinkOk, Traced;
    var q := st.defer.queued[0];
    var popped := st.(defer := st.defer.(queued := st.defer.queued[1..]));
    var r := ProcessKey(popped, ic, q.event);
    DrainOneIsSound(popped, ic, q.event);
    DrainOneTells(popped, q, ic);
    var d := DrainedOne(st, ic).defer;
    ProcessSettles(st.defer, r.st.defer, r.accepted, d);
    ProcessInOrder(st.defer, r.st.defer, r.accepted, d);
  }

  lemma {:induction false} DrainAtRest(st: State, ic: Ic)
    requires Draining(st, ic) && st.ic == Some(ic)
    ensures AtRest(Drain(st, ic))
    decreases |st.defer.queued|
  {
    hide ProcessKey, Sound, Settled, InOrder, Traced, OwnedBy;
    if !st.defer.pending && st.defer.queued != [] {
      DrainedOneDrains(st, ic);
      DrainAtRest(DrainedOne(st, ic), ic);
    }
  }

  lemma TakePendingAtRest(st: State, ic: Ic)
    requires Sound(st) && Settled(st.defer) && InOrder(st.defer) && FatesTold(st)
    requires |st.defer.queued| < 256 && st.ic == Some(ic) && OwnedBy(st.defer.queued, ic) && AllHeld(st.defer.queued)
    ensures AtRest(TakePending(st, ic))
  {
    hide Settled, InOrder, Sound, CommitCandidate, Fallback, Drain, Traced, SaysPlainly;
    if st.comp.cands == [] {
      FallbackAtRest(st, ic);
    } else {
      var s := st.(defer := Disarm(st.defer));
      assert Sound(s) by { SoundIgnoresDefer(st, s); }
      QueueMovesSettle(st.defer, s.defer);
      QueueMovesInOrder(st.defer, s.defer);
      CommitCandidateIsSound(s, ic, s.page.selected);
      CommitCandidateSays(s, ic, s.page.selected);
      PlainlyTold(s, CommitCandidate(s, ic, s.page.selected));
      DrainAtRest(CommitCandidate(s, ic, s.page.selected), ic);
    }
  }

  lemma SoundIgnoresDefer(a: State, b: State)
    requires Sound(a) && b == a.(defer := b.defer)
    ensures Sound(b)
  {
  }

  lemma ShowCandidatesIsSound(st: State, h: Handler, line: string)
    requires Sound(st) && h.CandHandler?
    ensures Sound(ShowCandidates(st, h, line))
    ensures ShowCandidates(st, h, line).comp.current == IsCurrent(st, h)
  {
  }

  lemma UnexpectedAtRest(st: State, ic: Ic)
    requires AtRest(st) && st.ic == Some(ic)
    ensures AtRest(Unexpected(st, ic))
  {
    hide Fallback, Settled, InOrder, Traced;
    if st.defer.pending {
      FallbackAtRest(st, ic);
    }
  }

  lemma OnReplyAtRest(st: State, h: Handler, line: string)
    requires AtRest(st)
    ensures AtRest(OnReply(st, h, line))
  {
    hide Unexpected, ShowCandidates, TakePending, Settled, InOrder, Traced;
    if h.CandHandler? && line != "SKIP" && (IsCurrent(st, h) || IsPreview(st, h, line)) {
      if line != "EMPTY" && !IsCandLine(line) {
        UnexpectedAtRest(st, st.ic.value);
      } else {
        ShowCandidatesIsSound(st, h, line);
        var s := ShowCandidates(st, h, line);
        if IsCurrent(st, h) && st.defer.pending {
          TakePendingAtRest(s, st.ic.value);
        }
      }
    }
  }

  lemma OnLineAtRest(st: State, line: string)
    requires AtRest(st)
    ensures AtRest(OnLine(st, line))
  {
    hide OnReply, Settled, InOrder, Traced;
    if st.link.alive && st.link.ready && line != "" && st.link.handlers != [] {
      OnReplyAtRest(st.(link := st.link.(handlers := st.link.handlers[1..])), st.link.handlers[0], line);
    }
  }

  lemma OnResetAtRest(st: State)
    requires AtRest(st)
    ensures AtRest(OnReset(st))
  {
    hide ClearAll, Settled, InOrder, Traced;
    ClearAllAtRest(Send(st, Save, NoHandler));
  }

  lemma OnDeactivateAtRest(st: State, ic: Ic, switching: bool)
    requires AtRest(st)
    ensures AtRest(OnDeactivate(st, ic, switching))
  {
    hide ClearAll, SwitchAway, Settled, InOrder, Traced;
    SwitchAwayKeeps(st, ic);
    SwitchAwayTells(st, ic);
    ClearAllAtRest(if switching && st.comp.buf != "" then SwitchAway(st, ic) else st);
  }

  lemma SwitchAwayKeeps(st: State, ic: Ic)
    requires Sound(st) && Settled(st.defer) && InOrder(st.defer)
    ensures Sound(SwitchAway(st, ic)) && Settled(SwitchAway(st, ic).defer) && InOrder(SwitchAway(st, ic).defer)
  {
    hide Fresh, Conserved, ProcessedIds;
    var d := SwitchAway(st, ic).defer;
    SettledAsAWhole(st.defer.fates, st.defer.queued, d.fates);
    assert ServiceLine(d) == ServiceLine(st.defer)[..|ProcessedIds(st.defer.fates)|];
  }

  lemma AtRestIgnoresLuck(a: State, b: State)
    requires AtRest(a) && b == a.(link := a.link.(luck := b.link.luck))
    ensures AtRest(b) && Sound(b) && Waiting(b) && LinkOk(b.link)
  {
    hide Settled, InOrder, Traced;
  }

  /** Every turn of the event loop starts and ends at rest. */
  lemma StepAtRest(st: State, input: Input, luck: seq<bool>)
    requires AtRest(st)
    ensures AtRest(Step(st, input, luck))
  {
    hide ProcessKey, OnLine, Fallback, CommitCandidate, OnReset, OnDeactivate, Settled, InOrder, Traced, SaysPlainly;
    var s := st.(link := st.link.(luck := luck));
    match input
    case Key(ic, e) => ProcessKeyAtRest(s, ic, e);
    case Line(line) => OnLineAtRest(s, line);
    case PendingTimer => if s.defer.pending { FallbackAtRest(s, s.defer.timer.value.ic); }
    case Click(ic, index) =>
      CommitCandidateIsSound(s, ic, index);
      CommitCandidateSays(s, ic, index);
      PlainlyTold(s, CommitCandidate(s, ic, index));
    case Reset(ic) => OnResetAtRest(s);
    case Deactivate(ic, switching) => OnDeactivateAtRest(s, ic, switching);
    case _ =>
  }

  /**
   * The addon over every run: any keys, clicks, replies, process deaths, timers and
   * failing writes. Candidates are selectable only while they answer the present pinyin,
   * nothing else was ever committed as a candidate, letters are conserved by partial
   * selection, every deferred event has one fate, told by the output, and is served in order,
   * and the engine is not forked more than five times without a READY.
   */
  lemma {:induction false} EveryRunIsAtRest(config: int, luck: seq<bool>, turns: seq<Turn>)
    ensures AtRest(Run(Init(config, luck), turns))
    decreases |turns|
  {
    if turns == [] {
      InitAtRest(config, luck);
    } else {
      var last := turns[|turns| - 1];
      EveryRunIsAtRest(config, luck, turns[..|turns| - 1]);
      hide Step, Init;
      StepAtRest(Run(Init(config, luck), turns[..|turns| - 1]), last.input, last.luck);
    }
  }

  /**
   * Over every run, the keys forwarded are, in order and one for one, the deferred keys processed
   * and not accepted and the releases flushed; a raw commit says exactly the pinyin, the Space and
   * the presses flushed with it; and keys cancelled or deleted are in neither.
   */
  lemma OutputTellsFates(config: int, luck: seq<bool>, turns: seq<Turn>)
    ensures var st := Run(Init(config, luck), turns); var fates := st.defer.fates;
            && ForwardsIn(st.out) == PassedOn(fates) && RawKeysIn(st.out) == FlushedIn(fates)
            && (forall k :: 0 <= k < |st.out| ==> Spoken(st.out[k]))
            && (forall k :: 0 <= k < |fates| ==> WellTaken(fates[k]))
            && |ForwardsIn(st.out)| == |PassedKeys(fates)|
            && (forall k :: 0 <= k < |PassedKeys(fates)| ==> ForwardsIn(st.out)[k] == ForwardOf(PassedKeys(fates)[k]))
            && forall f :: f in fates && (f.Cancelled? || f.Deleted?) ==> f.key !in RawKeysIn(st.out) && f.key !in PassedKeys(fates)
  {
    hide Run, Init, Settled, ForwardsIn, RawKeysIn, PassedOn, FlushedIn, PassedKeys;
    EveryRunIsAtRest(config, luck, turns);
    var st := Run(Init(config, luck), turns);
    PassedKeysArePassed(st.defer.fates);
    forall f | f in st.defer.fates && (f.Cancelled? || f.Deleted?)
      ensures f.key !in RawKeysIn(st.out) && f.key !in PassedKeys(st.defer.fates)
    {
      DroppedKeysAreSilent(st, f);
    }
  }

  lemma InitAtRest(config: int, luck: seq<bool>)
    ensures AtRest(Init(config, luck))
  {
    assert Ids([]) == [] && FateKeys([]) == [];
  }

  // ---------------------------------------------------------------- how a composition shrinks and ends

  /**
   * Each selection commits its candidate and strictly shrinks the pinyin, so that selecting
   * again and again ends; what leaves a composition that goes on is the covered prefix.
   */
  lemma SelectionShrinks(st: State, ic: Ic, index: nat)
    requires Sound(st) && st.comp.current && index < |st.comp.cands| && st.comp.buf != ""
    ensures var r := CommitCandidate(st, ic, index); var cover := CoverAt(st.comp, index);
            && |r.comp.buf| < |st.comp.buf|
            && st.out < r.out && r.out[|st.out|].Commit? && r.out[|st.out|].text == st.comp.cands[index]
            && (if 0 < cover < |st.comp.buf| then st.comp.buf == st.comp.buf[..cover] + r.comp.buf
                  && r.comp.consumed == st.comp.consumed + st.comp.buf[..cover] && r.comp.typed == st.comp.typed
                else r.comp.buf == "")
  {
    hide Send, UpdateUI;
  }

  /**
   * A punctuation key and a Space commit the same candidate, the key with its symbol behind it. What
   * is left of the pinyin differs exactly when the candidate covers a proper prefix: the Space keeps
   * the letters not covered, and the symbol drops them. Without selectable candidates nothing is lost:
   * the whole pinyin is committed with the symbol.
   */
  lemma PunctuationDropsRest(st: State, ic: Ic, e: Event)
    requires Sound(st) && st.comp.buf != "" && e.punct != ""
    requires st.comp.cands != [] ==> 0 <= st.page.selected < |st.comp.cands|
    ensures var p := PunctKey(st, ic, e).st; var c := CommitCandidate(st, ic, st.page.selected);
            if Selectable(st) then
              && |p.out| == |c.out| == |st.out| + 1 && p.out[|st.out|].Commit? && c.out[|st.out|].Commit?
              && p.out[|st.out|].text == c.out[|st.out|].text + e.punct
              && (p.comp.buf != c.comp.buf <==> KeepsRest(st.comp, st.page.selected))
              && p.comp.buf == "" && (c.comp.buf != "" ==> c.comp.consumed + c.comp.buf == st.comp.typed)
            else p.out == st.out + [Commit(ic, st.comp.buf + e.punct, Literal)]
  {
    hide Send, UpdateUI;
    if Selectable(st) && KeepsRest(st.comp, st.page.selected) {
      var cover := CoverAt(st.comp, st.page.selected);
      assert st.comp.buf == st.comp.buf[..cover] + st.comp.buf[cover..];
    }
  }

  // ---------------------------------------------------------------- giving up

  /** An addon that gave up on its engine never has one again, in any run. */
  lemma {:induction false} GivenUpForGood(st: State, turns: seq<Turn>)
    requires AtRest(st) && st.link.gaveUp
    ensures Run(st, turns).link.gaveUp && !Run(st, turns).link.alive
    ensures AtRest(Run(st, turns))
    decreases |turns|
  {
    hide Step, AtRest;
    if turns == [] {
      assert !st.link.alive by { LinkOfRest(st); }
    } else {
      var last := turns[|turns| - 1];
      var s := Run(st, turns[..|turns| - 1]);
      GivenUpForGood(st, turns[..|turns| - 1]);
      StepAtRest(s, last.input, last.luck);
      LinkOfRest(Step(s, last.input, last.luck));
    }
  }

  lemma LinkOfRest(st: State)
    requires AtRest(st)
    ensures LinkOk(st.link)
  {
  }
}
