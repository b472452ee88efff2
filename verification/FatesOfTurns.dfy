/** Which turn of the event loop may give a deferred key which fate: nothing typed is lost in silence. */
module FatesOfTurns {
  import opened Basics
  import opened Wire
  import opened Addon
  import opened AddonRuns
  import opened DeferredFates

  /** Nothing is deferred meanwhile, and the fates that come lose no key. */
  predicate NoLoss(d: Defer, r: Defer) {
    r.log == d.log && d.fates <= r.fates && forall k :: |d.fates| <= k < |r.fates| ==> !r.fates[k].Cancelled? && !r.fates[k].Deleted?
  }

  /** Nothing but Flushed fates come. */
  predicate OnlyFlushes(d: Defer, r: Defer) {
    r.log == d.log && d.fates <= r.fates && forall k :: |d.fates| <= k < |r.fates| ==> r.fates[k].Flushed?
  }

  /** What the person or Fcitx does that gives up a composition. */
  predicate GivesUp(st: State, input: Input) {
    || input.Reset? || input.Deactivate?
    || (input.Key? && (st.ic != Some(input.ic) || (st.defer.pending && IsPress(input.event, KEY_ESCAPE))))
  }

  predicate Erases(st: State, input: Input) {
    input.Key? && st.ic == Some(input.ic) && st.defer.pending && IsPress(input.event, KEY_BACKSPACE)
  }

  predicate IsPress(e: Event, sym: nat) { !e.release && !e.shortcut && e.sym == sym }

  /** The fates a turn may give. */
  predicate MayGive(st: State, input: Input, f: Fate) {
    match f
    case Cancelled(key) => GivesUp(st, input) && (input.Deactivate? && input.switching && st.comp.buf != "" ==> key.event.release)
    case Deleted(_) => Erases(st, input)
    case Processed(_, _) => input.Line?
    case Flushed(_) => input.Key? || input.Line? || input.PendingTimer? || (input.Deactivate? && input.switching)
  }

  // ---------------------------------------------------------------- the addon's operations

  lemma FallbackFlushes(st: State, ic: Ic)
    ensures Fallback(st, ic).defer.fates == st.defer.fates + FlushFates(st.defer.queued)
    ensures OnlyFlushes(st.defer, Fallback(st, ic).defer)
  {
    hide CommitText, PendingRaw;
  }

  lemma ArmFlushes(st: State, ic: Ic)
    ensures OnlyFlushes(st.defer, Arm(st, ic).defer)
  {
    hide Fallback, UpdateUI;
    FallbackFlushes(UpdateUI(st.(defer := st.defer.(pending := true, timer := Some(Timer(ic, st.comp.epoch))))), ic);
  }

  lemma IdleKeyFlushes(st: State, ic: Ic, e: Event)
    requires e.sym == KEY_ESCAPE ==> st.defer.queued == []
    ensures OnlyFlushes(st.defer, IdleKey(st, ic, e).st.defer)
  {
    hide OnlyFlushes, UpdateUI, LetterKey, PunctKey, DigitKey, CommitCandidate, Arm, CommitText, BackspaceKey, ClearAll,
      MustRedraw, PageSize, ArrowMove, PageBack, PageForward, Shown, LinkGoes, QueueMoves, StaysGivenUp;
    var s := if MustRedraw(st) then UpdateUI(st) else st;
    ArmFlushes(s, ic);
    SameFates(st.defer);
    if e.sym == KEY_ESCAPE {
      NoneCancelled(st.defer);
    }
  }

  lemma SameFates(d: Defer)
    ensures OnlyFlushes(d, d)
  {
  }

  lemma NoneCancelled(d: Defer)
    requires d.queued == []
    ensures OnlyFlushes(d, CancelPending(d))
  {
  }

  lemma ProcessKeyFlushes(st: State, ic: Ic, e: Event)
    requires !st.defer.pending && st.ic == Some(ic) && (IsPress(e, KEY_ESCAPE) ==> st.defer.queued == [])
    ensures OnlyFlushes(st.defer, ProcessKey(st, ic, e).st.defer)
  {
    hide IdleKey;
    if !e.shortcut && !e.release {
      IdleKeyFlushes(st, ic, e);
    }
  }

  lemma {:induction false} DrainLosesNothing(st: State, ic: Ic)
    requires AllHeld(st.defer.queued)
    ensures NoLoss(st.defer, Drain(st, ic).defer)
    decreases |st.defer.queued|
  {
    hide ProcessKey;
    if !(st.defer.pending || st.defer.queued == [] || st.ic != Some(ic)) {
      var q, popped := st.defer.queued[0], st.(defer := st.defer.(queued := st.defer.queued[1..]));
      ProcessKeyFlushes(popped, ic, q.event);
      DrainLosesNothing(DrainedOne(st, ic), ic);
    }
  }

  /** A reply loses no key: what waits is served, flushed or still held. */
  lemma OnReplyLosesNothing(st: State, h: Handler, line: string)
    requires AllHeld(st.defer.queued)
    ensures NoLoss(st.defer, OnReply(st, h, line).defer)
  {
    hide Fallback, Send, Request, ShowCandidates, CommitCandidate, Drain;
    if h.CandHandler? && IsCurrent(st, h) && st.defer.pending {
      FallbackFlushes(st, st.ic.value);
      var s := ShowCandidates(st, h, line);
      FallbackFlushes(s, st.ic.value);
      DrainLosesNothing(CommitCandidate(s.(defer := Disarm(s.defer)), st.ic.value, s.page.selected), st.ic.value);
    }
  }

  lemma PendingKeyFates(st: State, ic: Ic, e: Event)
    ensures var d := PendingKey(st, ic, e).st.defer;
            && st.defer.fates <= d.fates
            && forall k :: |st.defer.fates| <= k < |d.fates| ==>
                 || d.fates[k].Flushed?
                 || (d.fates[k].Cancelled? && IsPress(e, KEY_ESCAPE))
                 || (d.fates[k].Deleted? && IsPress(e, KEY_BACKSPACE))
  {
    hide Fallback, UpdateUI, ClearAll, Send, Request, LastPress, ReleaseOf;
    FallbackFlushes(st, ic);
    FallbackFlushes(st.(defer := Enqueue(st.defer, ic, e)), ic);
    if IsPress(e, KEY_BACKSPACE) && LastPress(st.defer.queued) == |st.defer.queued| {
      var s := Send(st.(comp := st.comp.(buf := DropLast(st.comp.buf), revision := st.comp.revision + 1, current := false,
                                         cands := [], covers := [], typed := DropLast(st.comp.typed), typists := DropLast(st.comp.typists))),
                    Clear, NoHandler);
      FallbackFlushes(s, ic);
    }
  }

  /** Escape cancels everything held and says nothing. */
  lemma EscapeCancels(st: State, ic: Ic, e: Event, luck: seq<bool>)
    requires st.defer.pending && st.ic == Some(ic) && IsPress(e, KEY_ESCAPE)
    ensures var r := Step(st, Key(ic, e), luck);
            && r.out == st.out && r.comp.buf == "" && r.defer.queued == [] && !r.defer.pending
            && r.defer.fates == st.defer.fates + CancelFates(st.defer.queued)
  {
    hide ClearAll, UpdateUI;
  }

  // ---------------------------------------------------------------- turns and runs

  /**
   * One turn from rest. A key is cancelled only by what gives the composition up: Escape behind a
   * pending Space, a reset, a deactivation, or a key of another context. It is deleted only by
   * Backspace behind a pending Space. It is processed only when a reply came.
   */
  lemma TurnGives(st: State, input: Input, luck: seq<bool>)
    requires AtRest(st)
    ensures var d := Step(st, input, luck).defer;
            && st.defer.fates <= d.fates
            && forall k :: |st.defer.fates| <= k < |d.fates| ==> MayGive(st, input, d.fates[k])
  {
    hide Sound, Waiting, Settled, InOrder, Traced, AllHeld, ProcessKey, OnReply, Fallback, CommitCandidate, OnReset, OnDeactivate,
      OnRestartTimer, Die, ClearAll;
    var s := st.(link := st.link.(luck := luck));
    AtRestIgnoresLuck(st, s);
    match input
    case Key(ic, e) => KeyGives(s, ic, e);
    case Line(line) =>
      if s.link.alive && s.link.ready && line != "" && s.link.handlers != [] {
        OnReplyLosesNothing(s.(link := s.link.(handlers := s.link.handlers[1..])), s.link.handlers[0], line);
      }
    case PendingTimer => if s.defer.timer.Some? { FallbackFlushes(s, s.defer.timer.value.ic); }
    case Deactivate(ic, switching) => DeactivateGives(s, ic, switching);
    case Reset(_) => ResetGives(s);
    case _ => QuietTurn(s, input);
  }

  lemma KeyGives(st: State, ic: Ic, e: Event)
    requires AtRest(st)
    ensures var d := ProcessKey(st, ic, e).st.defer;
            && st.defer.fates <= d.fates
            && forall k :: |st.defer.fates| <= k < |d.fates| ==> MayGive(st, Key(ic, e), d.fates[k])
  {
    hide Sound, Waiting, Settled, InOrder, Traced, PendingKey, IdleKey, ClearAll;
    var s := Focus(st, ic);
    if s.defer.pending {
      PendingKeyFates(s, ic, e);
    } else if !e.shortcut && !e.release {
      IdleKeyFlushes(s, ic, e);
    }
  }

  lemma DeactivateGives(st: State, ic: Ic, switching: bool)
    ensures var d := OnDeactivate(st, ic, switching).defer;
            && st.defer.fates <= d.fates
            && forall k :: |st.defer.fates| <= k < |d.fates| ==> MayGive(st, Deactivate(ic, switching), d.fates[k])
  {
    hide ClearAll, UpdateUI, PendingRaw;
  }

  lemma ResetGives(st: State)
    ensures var d := OnReset(st).defer;
            st.defer.fates <= d.fates && forall k :: |st.defer.fates| <= k < |d.fates| ==> d.fates[k].Cancelled?
  {
    hide ClearAll, UpdateUI, Send;
  }

  lemma QuietTurn(s: State, input: Input)
    requires input.Exit? || input.RestartTimer? || input.Click? || input.Configure? || input.Destroy?
    ensures (if FromEngine(input) then EngineTurn(s, input) else UserTurn(s, input)).defer == s.defer
  {
    hide Die, EnsureEngine, Request, CommitCandidate;
  }

  /** Over every run, each turn gives only the fates it may. */
  lemma EveryTurnGives(config: int, luck: seq<bool>, turns: seq<Turn>, k: nat)
    requires k < |turns|
    ensures var a := Run(Init(config, luck), turns[..k]); var b := Run(Init(config, luck), turns[..k + 1]);
            && a.defer.fates <= b.defer.fates
            && forall j :: |a.defer.fates| <= j < |b.defer.fates| ==> MayGive(a, turns[k].input, b.defer.fates[j])
  {
    hide Step, Init, AtRest, MayGive;
    EveryRunIsAtRest(config, luck, turns[..k]);
    TurnGives(Run(Init(config, luck), turns[..k]), turns[k].input, turns[k].luck);
    assert turns[..k + 1][..k] == turns[..k];
  }

  /**
   * What was typed behind a Space is not lost when the reply comes: after the reply each key that was
   * held is still held, was processed, or is part of raw text or forwarded with it.
   */
  lemma ReplyKeepsKeys(st: State, line: string, luck: seq<bool>, q: Queued)
    requires AtRest(st) && q in st.defer.queued
    ensures var r := Step(st, Line(line), luck);
            q in r.defer.queued || Flushed(q) in r.defer.fates || Processed(q, true) in r.defer.fates || Processed(q, false) in r.defer.fates
  {
    hide Step, Sound, Waiting, InOrder, Traced, AllHeld;
    LineLosesNothing(st, line, luck);
    StepAtRest(st, Line(line), luck);
    var d, r := st.defer, Step(st, Line(line), luck).defer;
    HeldHasNoFate(d, q);
    assert q in multiset(d.queued) && q in multiset(r.log);
    if q !in r.queued {
      assert q in multiset(FateKeys(r.fates));
      var k :| 0 <= k < |r.fates| && FateKeys(r.fates)[k] == q;
      assert r.fates[k].key == q && k >= |d.fates|;
      assert r.fates[k] in r.fates;
    }
  }

  lemma HeldHasNoFate(d: Defer, q: Queued)
    requires Settled(d) && q in d.queued
    ensures forall k :: 0 <= k < |d.fates| ==> d.fates[k].key != q
  {
    LoggedOnce(d.log, q);
    assert multiset(d.queued)[q] >= 1 && multiset(FateKeys(d.fates))[q] == 0;
    forall k | 0 <= k < |d.fates| ensures d.fates[k].key != q {
      assert FateKeys(d.fates)[k] in multiset(FateKeys(d.fates));
    }
  }

  lemma LineLosesNothing(st: State, line: string, luck: seq<bool>)
    requires AtRest(st)
    ensures NoLoss(st.defer, Step(st, Line(line), luck).defer)
  {
    hide Sound, Waiting, Settled, InOrder, Traced, AllHeld, OnReply;
    var s := st.(link := st.link.(luck := luck));
    if s.link.alive && s.link.ready && line != "" && s.link.handlers != [] {
      OnReplyLosesNothing(s.(link := s.link.(handlers := s.link.handlers[1..])), s.link.handlers[0], line);
    }
  }
}
