/** A live engine holds the pinyin: what the addon wrote since the fork adds up to it, over deaths and replays. */
module Replays {
  import opened Basics
  import opened Codec
  import opened Wire
  import opened Addon
  import opened AddonRuns
  import opened DeferredFates

  /** The letters a sequence of commands leaves with an engine that takes them all. */
  function Folded(wire: seq<Cmd>): string {
    if wire == [] then "" else Extended(Folded(wire[..|wire| - 1]), wire[|wire| - 1])
  }

  /** One command more; a selection that ends the composition is followed by its C. */
  function Extended(letters: string, c: Cmd): string {
    match c
    case Batch(keys) => letters + keys
    case Clear => ""
    case Select(_, _, Prefix(cover)) => if cover <= |letters| then letters[cover..] else ""
    case _ => letters
  }

  lemma FoldedSnoc(wire: seq<Cmd>, c: Cmd)
    ensures Folded(wire + [c]) == Extended(Folded(wire), c)
  {
    assert (wire + [c])[..|wire|] == wire;
  }

  /** With an engine alive, the commands written to it give the pinyin; no handler is from the future. */
  predicate InSession(st: State) {
    NoneLater(st) && (st.link.alive ==> Folded(st.link.wire) == st.comp.buf)
  }

  /** A new engine that was sent the whole pinyin is in session. */
  lemma RenewedIsInSession(st: State)
    requires Renewed(st) && NoneLater(st)
    ensures InSession(st)
  {
    if st.link.alive {
      var buf := st.comp.buf;
      assert [OptSpans, Batch(buf)] == [OptSpans] + [Batch(buf)];
      FoldedSnoc([OptSpans], Batch(buf));
      OptIsNothing();
      assert "" + buf == buf;
    }
  }

  lemma OptIsNothing()
    ensures Folded([OptSpans]) == ""
  {
    FoldedSnoc([], OptSpans);
    assert [] + [OptSpans] == [OptSpans];
  }

  lemma InSessionAlike(a: State, b: State)
    requires InSession(a) && b.comp.buf == a.comp.buf && b.comp.revision >= a.comp.revision
    requires b.link.alive == a.link.alive && b.link.wire == a.link.wire
    requires b.link.handlers == a.link.handlers || (a.link.handlers != [] && b.link.handlers == a.link.handlers[1..])
    ensures InSession(b)
  {
    hide Folded;
    if b.link.handlers != a.link.handlers {
      assert forall k :: 0 <= k < |b.link.handlers| ==> b.link.handlers[k] == a.link.handlers[k + 1];
    }
  }

  // ---------------------------------------------------------------- the addon's operations

  /** C to an engine that holds whatever it holds: it holds nothing. */
  lemma ClearEmpties(st: State)
    requires LinkOk(st.link) && NoneLater(st) && st.comp.buf == ""
    ensures InSession(Send(st, Clear, NoHandler))
  {
    hide Send, Folded;
    FoldedSnoc(st.link.wire, Clear);
    var r := Send(st, Clear, NoHandler);
    if Renewed(r) {
      RenewedIsInSession(r);
    }
  }

  lemma CommitTextStays(st: State, ic: Ic, text: string, why: Reason)
    requires LinkOk(st.link) && NoneLater(st)
    ensures InSession(CommitText(st, ic, text, why)) && LinkOk(CommitText(st, ic, text, why).link)
  {
    hide Send, UpdateUI, Folded;
    var s := st.(out := st.out + [Commit(ic, text, why)],
                 comp := Comp("", [], [], false, st.comp.revision + 1, st.comp.epoch, "", "", [], st.comp.source),
                 page := st.page.(start := 0, selected := 0),
                 link := st.link.(recovered := false));
    assert LinkOk(s.link) && NoneLater(s);
    ClearEmpties(s);
    InSessionAlike(Send(s, Clear, NoHandler), UpdateUI(Send(s, Clear, NoHandler)));
  }

  lemma ClearAllStays(st: State)
    requires LinkOk(st.link) && NoneLater(st)
    ensures InSession(ClearAll(st))
  {
    hide Send, Folded;
    var s := st.(defer := CancelPending(st.defer),
                 comp := Comp("", [], [], false, st.comp.revision + 1, st.comp.epoch + 1, "", "", [], st.comp.source),
                 page := st.page.(start := 0, selected := 0),
                 link := st.link.(recovered := false));
    assert LinkOk(s.link) && NoneLater(s);
    ClearEmpties(s);
  }

  lemma FallbackStays(st: State, ic: Ic)
    requires LinkOk(st.link) && NoneLater(st)
    ensures InSession(Fallback(st, ic))
  {
    hide CommitText, InSession;
    var s := st.(defer := Disarm(st.defer).(queued := [], fates := st.defer.fates + FlushFates(st.defer.queued)));
    assert NoneLater(s);
    var raw, why := PendingRaw(st.comp, st.defer), Raw(st.comp.buf, st.defer.pending, st.defer.queued);
    CommitTextStays(s, ic, raw, why);
    InSessionAlike(CommitText(s, ic, raw, why), Fallback(st, ic));
  }

  /** Keys that complete what the engine holds, or the whole pinyin for an engine still to be started. */
  lemma RequestCompletes(st: State, keys: string)
    requires LinkOk(st.link) && NoneLater(st) && st.comp.buf != "" && keys != ""
    requires st.comp.buf == (if st.link.alive then Folded(st.link.wire) else "") + keys
    ensures InSession(Request(st, keys))
  {
    hide Request, Folded;
    var r := Request(st, keys);
    if Renewed(r) {
      RenewedIsInSession(r);
    } else {
      FoldedSnoc(if st.link.alive then st.link.wire else [OptSpans], Batch(keys));
      OptIsNothing();
    }
  }

  lemma LetterKeyStays(st: State, c: char)
    requires LinkOk(st.link) && InSession(st)
    ensures InSession(LetterKey(st, c))
  {
    hide EnsureEngine, Request, UpdateUI, Folded, Shown, Renewed;
    var s := if st.comp.buf == "" then st.(link := st.link.(recovered := false)) else st;
    assert LinkOk(s.link) && NoneLater(s);
    var replay := !s.link.alive && s.comp.buf != "";
    var e := EnsureEngine(s);
    var t := e.(comp := e.comp.(revision := e.comp.revision + 1, buf := e.comp.buf + [c], current := false,
                                typed := e.comp.typed + [c], typists := e.comp.typists + [e.ic]));
    var u := UpdateUI(t);
    OptIsNothing();
    assert "" + (e.comp.buf + [c]) == e.comp.buf + [c];
    assert NoneLater(u) && LinkOk(u.link);
    RequestCompletes(u, if replay then t.comp.buf else [c]);
  }

  /** C, then the pinyin left: whether or not the engine outlived the C. */
  lemma ReplayStays(st: State)
    requires LinkOk(st.link) && NoneLater(st) && RestartsNothing(st, st.link.handlers)
    ensures var s := Send(st, Clear, NoHandler);
            if st.comp.buf == "" then InSession(s) else InSession(Request(s, st.comp.buf))
  {
    hide Send, Request, Folded;
    var s := Send(st, Clear, NoHandler);
    FoldedSnoc(st.link.wire, Clear);
    if st.comp.buf == "" {
      ClearEmpties(st);
    } else {
      assert "" + st.comp.buf == st.comp.buf;
      RequestCompletes(s, st.comp.buf);
    }
  }

  /** After a new revision no handler waits for the present pinyin. */
  lemma NewRevision(a: State, b: State)
    requires NoneLater(a) && b.comp.revision > a.comp.revision && b.link.handlers == a.link.handlers
    ensures NoneLater(b) && RestartsNothing(b, b.link.handlers)
  {
  }

  lemma BackspaceKeyStays(st: State)
    requires LinkOk(st.link) && InSession(st)
    ensures InSession(BackspaceKey(st))
  {
    hide Send, Request, UpdateUI, Folded;
    var buf := DropLast(st.comp.buf);
    var b := st.(comp := st.comp.(buf := buf, revision := st.comp.revision + 1, current := false,
                                  typed := DropLast(st.comp.typed), typists := DropLast(st.comp.typists)));
    NewRevision(st, b);
    ReplayStays(b);
    var s := Send(b, Clear, NoHandler);
    if buf == "" {
      InSessionAlike(s, BackspaceKey(st));
    } else {
      InSessionAlike(Request(s, buf), UpdateUI(Request(s, buf)));
    }
  }

  lemma PendingBackspaceStays(st: State, ic: Ic)
    requires LinkOk(st.link) && InSession(st)
    ensures InSession(PendingBackspace(st, ic).st)
  {
    hide Send, Request, UpdateUI, Folded, Fallback, LastPress, DropLastPress, InSession;
    assert NoneLater(st) by { SessionParts(st); }
    if LastPress(st.defer.queued) < |st.defer.queued| {
      InSessionAlike(st, UpdateUI(st.(defer := DropLastPress(st.defer))));
    } else {
      var buf := DropLast(st.comp.buf);
      var b := st.(comp := st.comp.(buf := buf, revision := st.comp.revision + 1, current := false,
                                    cands := [], covers := [], typed := DropLast(st.comp.typed), typists := DropLast(st.comp.typists)));
      NewRevision(st, b);
      ReplayStays(b);
      var s := Send(b, Clear, NoHandler);
      if buf == "" {
        FallbackStays(s, ic);
      } else {
        InSessionAlike(Request(s, buf), UpdateUI(Request(s, buf)));
      }
    }
  }

  lemma SessionParts(st: State)
    requires InSession(st)
    ensures NoneLater(st)
  {
  }

  lemma CommitCandidateStays(st: State, ic: Ic, index: int)
    requires Sound(st) && InSession(st)
    ensures InSession(CommitCandidate(st, ic, index))
  {
    hide Send, UpdateUI, CommitText, Folded, Choice;
    if st.comp.current && 0 <= index < |st.comp.cands| {
      var text := st.comp.cands[index];
      if !KeepsRest(st.comp, index) {
        var s := Send(st, Select(index, text, Whole), NoHandler);
        CommitTextStays(s, ic, text, Choice(st.comp, index));
      } else {
        var cover := CoverAt(st.comp, index);
        var s := st.(out := st.out + [Commit(ic, text, Choice(st.comp, index))],
                     comp := st.comp.(buf := st.comp.buf[cover..], cands := [], covers := [], current := false,
                                      revision := st.comp.revision + 1,
                                      consumed := st.comp.consumed + st.comp.buf[..cover]),
                     page := st.page.(start := 0, selected := 0));
        PrefixStays(st, s, Select(index, text, Prefix(cover)));
        var r := Send(s, Select(index, text, Prefix(cover)), HandlerNow(s));
        InSessionAlike(r, UpdateUI(r));
      }
    }
  }

  /** A prefix selection leaves with the engine what it leaves on screen, or the engine is renewed. */
  lemma PrefixStays(a: State, s: State, c: Cmd)
    requires LinkOk(a.link) && InSession(a) && s.link == a.link && s.comp.revision == a.comp.revision + 1
    requires c.Select? && c.purpose.Prefix? && c.purpose.cover <= |a.comp.buf| && s.comp.buf == a.comp.buf[c.purpose.cover..]
    ensures InSession(Send(s, c, HandlerNow(s)))
  {
    hide Send, Folded;
    NewRevision(a, s);
    FoldedSnoc(a.link.wire, c);
    var r := Send(s, c, HandlerNow(s));
    if Renewed(r) {
      RenewedIsInSession(r);
    }
  }

  lemma PunctKeyStays(st: State, ic: Ic, e: Event)
    requires Sound(st) && InSession(st)
    ensures InSession(PunctKey(st, ic, e).st)
  {
    hide Send, CommitText, Folded, Choice;
    if st.comp.buf != "" && e.punct != "" {
      if Selectable(st) && 0 <= st.page.selected < |st.comp.cands| {
        var text := st.comp.cands[st.page.selected];
        var s := Send(st, Select(st.page.selected, text, Punctuated(KeepsRest(st.comp, st.page.selected))), NoHandler);
        CommitTextStays(s, ic, text + e.punct, Choice(st.comp, st.page.selected));
      } else {
        CommitTextStays(st, ic, st.comp.buf + e.punct, Literal);
      }
    }
  }

  lemma ArmStays(st: State, ic: Ic)
    requires LinkOk(st.link) && InSession(st)
    ensures InSession(Arm(st, ic))
  {
    hide UpdateUI, Fallback, Folded;
    var armed := UpdateUI(st.(defer := st.defer.(pending := true, timer := Some(Timer(ic, st.comp.epoch)))));
    InSessionAlike(st, armed);
    FallbackStays(armed, ic);
  }

  lemma IdleKeyStays(st: State, ic: Ic, e: Event)
    requires Sound(st) && InSession(st)
    ensures InSession(IdleKey(st, ic, e).st)
  {
    hide InSession, Sound, UpdateUI, LetterKey, PunctKey, DigitKey, CommitCandidate, Arm, CommitText, BackspaceKey, ClearAll,
      MustRedraw, PageSize, ArrowMove, PageBack, PageForward, Shown, QueueMoves, StaysGivenUp, LinkOk;
    var s := if MustRedraw(st) then UpdateUI(st) else st;
    assert Sound(s) && LinkOk(s.link) by { SoundOnDisplay(st, s); }
    InSessionAlike(st, s);
    if IsLower(e.sym) || IsUpper(e.sym) {
      LetterKeyStays(s, LetterOf(e.sym));
      OutputAlike(s);
    } else if Owned(e.sym) {
      PunctKeyStays(s, ic, e);
      PagingStays(s);
    } else if IsDigitKey(e.sym) {
      DigitKeyStays(s, ic, e.sym);
      PagingStays(s);
    } else {
      PagingStays(s);
      EndKeysStay(s, ic);
    }
  }

  lemma SoundOnDisplay(a: State, b: State)
    requires Sound(a) && b.comp == a.comp && b.link == a.link && b.out == a.out
    ensures Sound(b) && LinkOk(b.link)
  {
  }

  lemma OutputAlike(st: State)
    requires InSession(st)
    ensures forall out: seq<Output> :: InSession(st.(out := out))
  {
  }

  lemma PagingStays(st: State)
    requires InSession(st)
    ensures forall page: Page :: InSession(UpdateUI(st.(page := page)))
  {
    hide InSession, UpdateUI;
    forall page: Page ensures InSession(UpdateUI(st.(page := page))) {
      InSessionAlike(st, UpdateUI(st.(page := page)));
    }
  }

  lemma DigitKeyStays(st: State, ic: Ic, sym: nat)
    requires Sound(st) && InSession(st) && IsDigitKey(sym)
    ensures InSession(DigitKey(st, ic, sym).st)
  {
    hide InSession, Sound, CommitCandidate;
    CommitCandidateStays(st, ic, st.page.start + if sym == 0x30 then 9 else sym - 0x31);
  }

  lemma EndKeysStay(st: State, ic: Ic)
    requires Sound(st) && LinkOk(st.link) && InSession(st)
    ensures InSession(CommitCandidate(st, ic, st.page.selected)) && InSession(Arm(st, ic))
    ensures InSession(CommitText(st, ic, st.comp.buf, Literal)) && InSession(BackspaceKey(st))
    ensures InSession(UpdateUI(ClearAll(st)))
  {
    hide InSession, Sound, CommitCandidate, Arm, CommitText, BackspaceKey, ClearAll, UpdateUI;
    SessionParts(st);
    CommitCandidateStays(st, ic, st.page.selected);
    ArmStays(st, ic);
    CommitTextStays(st, ic, st.comp.buf, Literal);
    BackspaceKeyStays(st);
    ClearAllStays(st);
    InSessionAlike(ClearAll(st), UpdateUI(ClearAll(st)));
  }

  lemma PendingKeyStays(st: State, ic: Ic, e: Event)
    requires LinkOk(st.link) && InSession(st)
    ensures InSession(PendingKey(st, ic, e).st)
  {
    hide InSession, Fallback, UpdateUI, ClearAll, PendingBackspace, LinkOk;
    SessionParts(st);
    PendingBackspaceStays(st, ic);
    FallbackStays(st, ic);
    ClearAllStays(st);
    InSessionAlike(ClearAll(st), UpdateUI(ClearAll(st)));
    var s := st.(defer := Enqueue(st.defer, ic, e));
    InSessionAlike(st, s);
    SessionParts(s);
    FallbackStays(s, ic);
    InSessionAlike(s, UpdateUI(s));
  }

  lemma ProcessKeyStays(st: State, ic: Ic, e: Event)
    requires Sound(st) && InSession(st)
    ensures InSession(ProcessKey(st, ic, e).st)
  {
    hide InSession, Sound, IdleKey, PendingKey, ClearAll;
    SessionParts(st);
    SoundOnDisplay(st, st);
    ClearAllStays(st);
    ClearAllIsSound(st);
    var f := if st.ic == Some(ic) then st else ClearAll(st);
    InSessionAlike(f, Focus(st, ic));
    SoundOnDisplay(f, Focus(st, ic));
    if Focus(st, ic).defer.pending {
      PendingKeyStays(Focus(st, ic), ic, e);
    } else {
      IdleKeyStays(Focus(st, ic), ic, e);
    }
  }

  lemma {:induction false} DrainStays(st: State, ic: Ic)
    requires Draining(st, ic) && st.ic == Some(ic) && InSession(st)
    ensures InSession(Drain(st, ic))
    decreases |st.defer.queued|
  {
    hide ProcessKey, Sound, Settled, InOrder, OwnedBy, InSession, Waiting, FatesTold;
    if !st.defer.pending && st.defer.queued != [] {
      DrainedOneDrains(st, ic);
      var popped := st.(defer := st.defer.(queued := st.defer.queued[1..]));
      InSessionAlike(st, popped);
      SoundIgnoresDefer(st, popped);
      ProcessKeyStays(popped, ic, st.defer.queued[0].event);
      InSessionAlike(ProcessKey(popped, ic, st.defer.queued[0].event).st, DrainedOne(st, ic));
      DrainStays(DrainedOne(st, ic), ic);
    }
  }

  // ---------------------------------------------------------------- whole turns and runs

  lemma TakePendingStays(st: State, ic: Ic)
    requires Sound(st) && Settled(st.defer) && InOrder(st.defer) && FatesTold(st) && InSession(st)
    requires |st.defer.queued| < 256 && st.ic == Some(ic) && OwnedBy(st.defer.queued, ic) && AllHeld(st.defer.queued)
    ensures InSession(TakePending(st, ic))
  {
    hide Settled, InOrder, Sound, CommitCandidate, Fallback, Drain, Traced, SaysPlainly, InSession, OwnedBy, AllHeld;
    SessionParts(st);
    SoundOnDisplay(st, st);
    if st.comp.cands == [] {
      FallbackStays(st, ic);
    } else {
      var s := st.(defer := Disarm(st.defer));
      SoundIgnoresDefer(st, s);
      InSessionAlike(st, s);
      QueueMovesSettle(st.defer, s.defer);
      QueueMovesInOrder(st.defer, s.defer);
      CommitCandidateIsSound(s, ic, s.page.selected);
      CommitCandidateSays(s, ic, s.page.selected);
      PlainlyTold(s, CommitCandidate(s, ic, s.page.selected));
      CommitCandidateStays(s, ic, s.page.selected);
      DrainStays(CommitCandidate(s, ic, s.page.selected), ic);
    }
  }

  lemma UnexpectedStays(st: State, ic: Ic)
    requires LinkOk(st.link) && InSession(st)
    ensures InSession(Unexpected(st, ic))
  {
    hide Fallback, Send, Request, InSession, Folded;
    SessionParts(st);
    if st.link.recovered {
      FallbackStays(st, ic);
    } else {
      var s := st.(link := st.link.(recovered := true));
      assert LinkOk(s.link) && NoneLater(s) && RestartsNothing(s, s.link.handlers);
      ReplayStays(s);
      assert Request(Send(s, Clear, NoHandler), "") == Send(s, Clear, NoHandler);
    }
  }

  lemma OnReplyStays(st: State, h: Handler, line: string)
    requires AtRest(st) && InSession(st)
    ensures InSession(OnReply(st, h, line))
  {
    hide InSession, Sound, Settled, InOrder, Traced, Unexpected, ShowCandidates, TakePending, OwnedBy, AllHeld;
    SoundOnDisplay(st, st);
    InSessionAlike(st, st.(link := st.link.(spans := line == "OK")));
    if h.CandHandler? && line != "SKIP" && (IsCurrent(st, h) || IsPreview(st, h, line)) {
      if line != "EMPTY" && !IsCandLine(line) {
        UnexpectedStays(st, st.ic.value);
      } else {
        var s := ShowCandidates(st, h, line);
        ShowCandidatesIsSound(st, h, line);
        InSessionAlike(st, s);
        if IsCurrent(st, h) && st.defer.pending {
          TakePendingStays(s, st.ic.value);
        }
      }
    }
  }

  lemma OnLineStays(st: State, line: string)
    requires AtRest(st) && InSession(st)
    ensures InSession(OnLine(st, line))
  {
    hide OnReply, Settled, InOrder, Traced, InSession, AllHeld;
    InSessionAlike(st, st.(link := st.link.(ready := true, fails := 0, forks := 0)));
    if st.link.alive && st.link.ready && line != "" && st.link.handlers != [] {
      var s := st.(link := st.link.(handlers := st.link.handlers[1..]));
      InSessionAlike(st, s);
      OnReplyStays(s, st.link.handlers[0], line);
    }
  }

  lemma OnRestartTimerStays(st: State)
    requires LinkOk(st.link) && InSession(st)
    ensures InSession(OnRestartTimer(st))
  {
    hide EnsureEngine, Request, Folded;
    var s := st.(link := st.link.(restart := false));
    assert LinkOk(s.link) && NoneLater(s);
    if st.link.restart && !s.link.alive {
      var e := EnsureEngine(s);
      OptIsNothing();
      assert "" + e.comp.buf == e.comp.buf;
      if e.comp.buf != "" {
        RequestCompletes(e, e.comp.buf);
      }
    }
  }

  lemma DieStays(st: State)
    requires LinkOk(st.link)
    ensures InSession(Die(st))
  {
    hide Die;
    RenewedIsInSession(Die(st));
  }

  lemma OnResetStays(st: State)
    requires LinkOk(st.link) && InSession(st)
    ensures InSession(OnReset(st))
  {
    hide InSession, Send, ClearAll, UpdateUI, LinkOk;
    SessionParts(st);
    var s := Send(st, Save, NoHandler);
    ClearAllStays(s);
    InSessionAlike(ClearAll(s), UpdateUI(ClearAll(s)));
  }

  lemma OnDeactivateStays(st: State, ic: Ic, switching: bool)
    requires LinkOk(st.link) && InSession(st)
    ensures InSession(OnDeactivate(st, ic, switching))
  {
    hide InSession, ClearAll, UpdateUI, LinkOk;
    SessionParts(st);
    var s := if switching && st.comp.buf != "" then SwitchAway(st, ic) else st;
    ClearAllStays(s);
    InSessionAlike(ClearAll(s), UpdateUI(ClearAll(s)));
  }

  lemma StepStays(st: State, input: Input, luck: seq<bool>)
    requires AtRest(st) && InSession(st)
    ensures InSession(Step(st, input, luck))
  {
    hide InSession, Sound, ProcessKey, OnLine, Fallback, CommitCandidate, OnReset, OnDeactivate, OnRestartTimer, Die,
      Settled, InOrder, Traced, AllHeld;
    var s := st.(link := st.link.(luck := luck));
    AtRestIgnoresLuck(st, s);
    InSessionAlike(st, s);
    SessionParts(s);
    match input
    case Key(ic, e) => ProcessKeyStays(s, ic, e);
    case Line(line) => OnLineStays(s, line);
    case Exit => DieStays(s);
    case RestartTimer => OnRestartTimerStays(s);
    case PendingTimer => if s.defer.pending { FallbackStays(s, s.defer.timer.value.ic); }
    case Click(ic, index) => CommitCandidateStays(s, ic, index);
    case Reset(_) => OnResetStays(s);
    case Deactivate(ic, switching) => OnDeactivateStays(s, ic, switching);
    case Configure(size) => InSessionAlike(s, s.(config := size));
    case Destroy(ic) => InSessionAlike(s, s.(ic := None));
  }

  /**
   * The session over every run: with any keys, replies, deaths, failing forks and writes, and timers,
   * whenever an engine lives, the commands written to it since its fork add up to exactly the pinyin on
   * screen. A replay restores what a death took, and is never sent on top of what is there.
   */
  lemma {:induction false} EveryRunIsInSession(config: int, luck: seq<bool>, turns: seq<Turn>)
    ensures var st := Run(Init(config, luck), turns); st.link.alive ==> Folded(st.link.wire) == st.comp.buf
    ensures InSession(Run(Init(config, luck), turns))
    decreases |turns|
  {
    hide Step, Init, AtRest, Folded;
    if turns == [] {
      InitStays(config, luck);
    } else {
      var front, last := turns[..|turns| - 1], turns[|turns| - 1];
      EveryRunIsInSession(config, luck, front);
      EveryRunIsAtRest(config, luck, front);
      StepStays(Run(Init(config, luck), front), last.input, last.luck);
    }
  }

  lemma InitStays(config: int, luck: seq<bool>)
    ensures InSession(Init(config, luck))
  {
    hide EnsureEngine, Folded;
    OptIsNothing();
  }
}
