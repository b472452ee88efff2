/** What single keys, replies and timers do, in plain terms: nothing here names how they are handled. */
module Effects {
  import opened Basics
  import opened Codec
  import opened Wire
  import opened Addon
  import opened AddonRuns
  import opened DeferredFates
  import opened Paging

  /** A press that is the addon's to judge: of the context that has the composition, with no Space pending. */
  predicate IdlePress(st: State, ic: Ic, e: Event) {
    st.ic == Some(ic) && !st.defer.pending && !e.release && !e.shortcut
  }

  // ---------------------------------------------------------------- Space

  /** Nothing to wait for: the present pinyin has no candidates, or there is no engine any more. */
  predicate NothingToAwait(st: State) { (st.comp.current && st.comp.cands == []) || st.link.gaveUp }

  /** A Space has been pressed and everything else is as before. */
  predicate WaitsOnly(a: State, b: State, ic: Ic) {
    && b.defer == a.defer.(pending := true, timer := Some(Timer(ic, a.comp.epoch)))
    && b.out == a.out && b.comp == a.comp && b.link == a.link
  }

  /**
   * A Space without selectable candidates waits, and commits nothing, if and only if there is something
   * to wait for; otherwise the pinyin and the Space are committed at once as they were typed.
   */
  lemma SpaceWaits(st: State, ic: Ic, e: Event)
    requires AtRest(st) && IdlePress(st, ic, e) && e.sym == KEY_SPACE
    requires st.comp.buf != "" && !Selectable(st)
    ensures ProcessKey(st, ic, e).accepted
    ensures WaitsOnly(st, ProcessKey(st, ic, e).st, ic) <==> !NothingToAwait(st)
    ensures NothingToAwait(st) ==>
              var r := ProcessKey(st, ic, e).st;
              !r.defer.pending && r.comp.buf == "" && r.out == st.out + [Commit(ic, st.comp.buf + " ", Raw(st.comp.buf, true, []))]
  {
    hide UpdateUI, Fallback, CommitCandidate, CommitText, BackspaceKey, ClearAll, LetterKey, PunctKey, DigitKey, AtRest, MustRedraw;
    assert st.defer.queued == [] by { NothingHeld(st); }
    var s := if MustRedraw(st) then UpdateUI(st) else st;
    var armed := UpdateUI(s.(defer := s.defer.(pending := true, timer := Some(Timer(ic, s.comp.epoch)))));
    NothingHeldFlushes(armed, ic);
  }

  /** Arming alone, whatever was held, waits in the same cases. */
  lemma ArmWaits(st: State, ic: Ic)
    ensures WaitsOnly(st, Arm(st, ic), ic) <==> !NothingToAwait(st)
    ensures NothingToAwait(st) ==> !Arm(st, ic).defer.pending && Arm(st, ic).comp.buf == ""
  {
    hide CommitText;
  }

  lemma NothingHeld(st: State)
    requires AtRest(st) && !st.defer.pending
    ensures st.defer.queued == []
  {
  }

  lemma NothingHeldFlushes(st: State, ic: Ic)
    requires st.defer.pending && st.defer.queued == []
    ensures var r := Fallback(st, ic);
            !r.defer.pending && r.comp.buf == "" && r.out == st.out + [Commit(ic, st.comp.buf + " ", Raw(st.comp.buf, true, []))]
  {
    hide CommitText;
    assert st.comp.buf + " " + "" == st.comp.buf + " ";
  }

  // ---------------------------------------------------------------- letters and symbols

  /** A letter key types its letter, small even when it is a capital inside a composition. */
  lemma LetterIsTyped(st: State, ic: Ic, e: Event)
    requires IdlePress(st, ic, e)
    ensures 0x61 <= e.sym <= 0x7a ==>
              var r := ProcessKey(st, ic, e); r.accepted && r.st.out == st.out && r.st.comp.buf == st.comp.buf + [e.sym as char]
    ensures 0x41 <= e.sym <= 0x5a && (st.comp.buf != "" || !e.shift) ==>
              var r := ProcessKey(st, ic, e); r.accepted && r.st.out == st.out && r.st.comp.buf == st.comp.buf + [(e.sym + 32) as char]
    ensures 0x41 <= e.sym <= 0x5a && st.comp.buf == "" && e.shift ==>
              var r := ProcessKey(st, ic, e);
              r.accepted && r.st.comp == st.comp && r.st.out == st.out + [Commit(ic, [e.sym as char], Literal)]
  {
    hide UpdateUI, LetterKey, MustRedraw;
  }

  /** Outside a composition a symbol key commits its wide form, if it has one, and is left alone otherwise. */
  lemma SymbolOutside(st: State, ic: Ic, e: Event)
    requires IdlePress(st, ic, e) && st.comp.buf == "" && Owned(e.sym)
    ensures var r := ProcessKey(st, ic, e);
            && r.accepted == e.wide && r.st.comp == st.comp
            && r.st.out == st.out + (if e.wide then [Commit(ic, e.punct, Literal)] else [])
  {
    hide UpdateUI, MustRedraw;
  }

  /** Inside one it ends the composition with the symbol behind the selected candidate, or behind the pinyin. */
  lemma SymbolInside(st: State, ic: Ic, e: Event)
    requires IdlePress(st, ic, e) && st.comp.buf != "" && Owned(e.sym) && e.sym !in {KEY_MINUS, KEY_EQUAL, KEY_PLUS}
    ensures var r := ProcessKey(st, ic, e); r.accepted == (e.punct != "")
    ensures var r := ProcessKey(st, ic, e); e.punct == "" ==> r.st.comp == st.comp && r.st.out == st.out
    ensures var r := ProcessKey(st, ic, e).st;
            e.punct != "" ==>
              && r.comp.buf == "" && |r.out| == |st.out| + 1 && st.out < r.out
              && r.out[|st.out|].Commit? && r.out[|st.out|].ic == ic
              && (if Selectable(st) then
                    var selected := Refreshed(st).page.selected;
                    0 <= selected < |st.comp.cands| && r.out[|st.out|].text == st.comp.cands[selected] + e.punct
                  else r.out[|st.out|].text == st.comp.buf + e.punct)
  {
    hide UpdateUI, MustRedraw, Send, CommitText, PageOk, Steady, Refreshed, ProcessKey, IdleKey, PunctKey;
    RefreshedFirst(st, ic, e);
    SelectedIsThere(Refreshed(st));
    SymbolIsPunct(Refreshed(st), ic, e);
    PunctEnds(Refreshed(st), ic, e);
  }

  lemma SelectedIsThere(st: State)
    requires Steady(st)
    ensures st.comp.cands != [] ==> 0 <= st.page.selected < |st.comp.cands|
  {
  }

  lemma SymbolIsPunct(st: State, ic: Ic, e: Event)
    requires IdlePress(st, ic, e) && st.comp.buf != "" && Owned(e.sym) && e.sym !in {KEY_MINUS, KEY_EQUAL, KEY_PLUS}
    requires !MustRedraw(st)
    ensures IdleKey(st, ic, e) == PunctKey(st, ic, e)
  {
    hide UpdateUI, MustRedraw, PunctKey;
  }

  lemma PunctEnds(st: State, ic: Ic, e: Event)
    requires st.comp.buf != "" && (Selectable(st) ==> 0 <= st.page.selected < |st.comp.cands|)
    ensures var r := PunctKey(st, ic, e);
            if e.punct == "" then r == Result(st, false)
            else
              && r.accepted && r.st.comp.buf == "" && |r.st.out| == |st.out| + 1 && st.out < r.st.out
              && r.st.out[|st.out|].Commit? && r.st.out[|st.out|].ic == ic
              && r.st.out[|st.out|].text == (if Selectable(st) then st.comp.cands[st.page.selected] else st.comp.buf) + e.punct
  {
    hide Send, CommitText;
  }

  /** A key that means something while there is pinyin. */
  predicate MeansInside(sym: nat) {
    IsArrow(sym) || sym in {KEY_PAGE_UP, KEY_PAGE_DOWN, KEY_KP_ADD, KEY_SPACE, KEY_RETURN, KEY_BACKSPACE, KEY_ESCAPE}
  }

  /** Releases, shortcuts and keys that mean nothing here are left alone; so are digits with nothing to select. */
  lemma OthersPass(st: State, ic: Ic, e: Event)
    requires st.ic == Some(ic) && !st.defer.pending
    requires || e.release || e.shortcut || (IsDigitKey(e.sym) && !Selectable(st))
             || (!IsLower(e.sym) && !IsUpper(e.sym) && !Owned(e.sym) && !IsDigitKey(e.sym)
                 && (st.comp.buf == "" || !MeansInside(e.sym) || (IsArrow(e.sym) && !Selectable(st))))
    ensures var r := ProcessKey(st, ic, e); !r.accepted && r.st.comp == st.comp && r.st.defer == st.defer && r.st.out == st.out
  {
    hide UpdateUI, MustRedraw;
  }

  // ---------------------------------------------------------------- another context

  /**
   * Started over with this key: a new epoch, nothing pending or held, a pinyin that is empty or the key's one
   * letter, and no commit but of the key itself.
   */
  predicate StartedOver(a: State, b: State, ic: Ic, e: Event) {
    && b.ic == Some(ic) && b.comp.epoch == a.comp.epoch + 1 && b.comp.revision > a.comp.revision
    && !b.defer.pending && b.defer.queued == [] && !b.comp.current && b.comp.consumed == ""
    && b.comp.buf == b.comp.typed
    && (b.comp.buf == "" || ((IsLower(e.sym) || IsUpper(e.sym)) && b.comp.buf == [LetterOf(e.sym)]))
    && (|| b.out == a.out
        || b.out == a.out + [Commit(ic, e.punct, Literal)]
        || (IsUpper(e.sym) && b.out == a.out + [Commit(ic, [e.sym as char], Literal)]))
  }

  /** A key of another input context starts over. */
  lemma NewContextStartsOver(st: State, ic: Ic, e: Event)
    requires st.ic != Some(ic)
    ensures StartedOver(st, ProcessKey(st, ic, e).st, ic, e)
  {
    hide ClearAll, UpdateUI, MustRedraw, Send, EnsureEngine, Request;
    var s := ClearAll(st).(ic := Some(ic));
    assert Focus(st, ic) == s;
    if !e.release && !e.shortcut {
      FirstKey(s, ic, e);
    }
  }

  lemma FirstKey(s: State, ic: Ic, e: Event)
    requires s.comp.buf == "" && s.comp.typed == "" && s.comp.cands == [] && !s.comp.current && s.comp.consumed == ""
    requires !s.defer.pending && s.defer.queued == []
    ensures var r := IdleKey(s, ic, e).st;
            && r.comp.epoch == s.comp.epoch && r.comp.revision >= s.comp.revision
            && !r.defer.pending && r.defer.queued == [] && !r.comp.current && r.comp.consumed == "" && r.comp.buf == r.comp.typed
            && (r.comp.buf == "" || ((IsLower(e.sym) || IsUpper(e.sym)) && r.comp.buf == [LetterOf(e.sym)]))
            && (r.out == s.out || r.out == s.out + [Commit(ic, e.punct, Literal)]
                || (IsUpper(e.sym) && r.out == s.out + [Commit(ic, [e.sym as char], Literal)]))
  {
    hide UpdateUI, MustRedraw, EnsureEngine, Request, CommitCandidate;
  }

  // ---------------------------------------------------------------- paging

  predicate GoesBack(st: State, sym: nat) {
    sym == KEY_MINUS || sym == KEY_PAGE_UP || (sym == KEY_UP && Selectable(st))
  }

  predicate GoesForward(st: State, sym: nat) {
    sym == KEY_EQUAL || sym == KEY_PLUS || sym == KEY_KP_ADD || sym == KEY_PAGE_DOWN || (sym == KEY_DOWN && Selectable(st))
  }

  /** A key that does nothing but move in the list. */
  predicate Moves(st: State, r: Result, start: int, selected: int) {
    r.accepted && Kept(st, r.st) && r.st.page.start == start && r.st.page.selected == selected
  }

  /** From the window as aligned to the page size, back goes to the first candidate of the page before, if there is one. */
  lemma BackKeysMove(st: State, ic: Ic, e: Event)
    requires IdlePress(st, ic, e) && st.comp.buf != "" && GoesBack(st, e.sym)
    ensures var p, size := Refreshed(st).page, PageSize(st.config);
            if p.start > 0 then Moves(st, ProcessKey(st, ic, e), p.start - size, p.start - size)
            else Moves(st, ProcessKey(st, ic, e), p.start, p.selected)
  {
    hide UpdateUI, IdleKey, Steady, PageOk, ProcessKey, Refreshed, MustRedraw;
    RefreshedFirst(st, ic, e);
    var s := Refreshed(st);
    BackKeyMoves(s, ic, e);
    if s.page.start > 0 {
      BackIsOk(s);
      RedrawnAt(s, PageBack(s.page, PageSize(s.config)));
    } else {
      NothingMoved(s);
    }
  }

  /** Forward goes to the first candidate of the next page, if there is one and the candidates are current. */
  lemma ForwardKeysMove(st: State, ic: Ic, e: Event)
    requires IdlePress(st, ic, e) && st.comp.buf != "" && GoesForward(st, e.sym)
    ensures var p, size := Refreshed(st).page, PageSize(st.config);
            if st.comp.current && p.start + size < |st.comp.cands|
            then Moves(st, ProcessKey(st, ic, e), p.start + size, p.start + size)
            else Moves(st, ProcessKey(st, ic, e), p.start, p.selected)
  {
    hide UpdateUI, IdleKey, Steady, PageOk, ProcessKey, Refreshed, MustRedraw;
    RefreshedFirst(st, ic, e);
    var s := Refreshed(st);
    ForwardKeyMoves(s, ic, e);
    if s.comp.current && s.page.start + PageSize(s.config) < |s.comp.cands| {
      ForwardIsOk(s);
      RedrawnAt(s, PageForward(s.page, PageSize(s.config)));
    } else {
      NothingMoved(s);
    }
  }

  /** Left and right go by one candidate within the page. */
  lemma SideKeysMove(st: State, ic: Ic, e: Event)
    requires IdlePress(st, ic, e) && st.comp.buf != "" && Selectable(st)
    ensures var p := Refreshed(st).page;
            e.sym == KEY_LEFT ==>
              Moves(st, ProcessKey(st, ic, e), p.start, if p.selected > p.start then p.selected - 1 else p.selected)
    ensures var p := Refreshed(st).page; var last := Min(p.start + PageSize(st.config), |st.comp.cands|) - 1;
            e.sym == KEY_RIGHT ==>
              Moves(st, ProcessKey(st, ic, e), p.start, if p.selected < last then p.selected + 1 else p.selected)
  {
    hide UpdateUI, IdleKey, ProcessKey, Refreshed, MustRedraw;
    if e.sym == KEY_LEFT || e.sym == KEY_RIGHT {
      RefreshedFirst(st, ic, e);
      var s := Refreshed(st);
      SideKeyMoves(s, ic, e);
      ArrowsStayOk(s.page, e.sym, |s.comp.cands|, PageSize(s.config));
      RedrawnAt(s, ArrowMove(s.page, e.sym, PageSize(s.config), |s.comp.cands|));
    }
  }

  /** A window aligned to the page size. */
  predicate Steady(st: State) {
    if st.comp.cands == [] then st.page.start == 0 && st.page.selected == 0
    else st.page.rendered == PageSize(st.config) && PageOk(st.page, |st.comp.cands|, PageSize(st.config))
  }

  /** Every key acts on the window as aligned. */
  lemma RefreshedFirst(st: State, ic: Ic, e: Event)
    requires IdlePress(st, ic, e)
    ensures var s := Refreshed(st);
            && Steady(s) && !MustRedraw(s) && Kept(st, s) && IdlePress(s, ic, e) && ProcessKey(st, ic, e) == IdleKey(s, ic, e)
  {
    hide IdleKey, UpdateUI, PageOk;
    RefreshedIsSteady(st);
    RefreshedActs(st, ic, e);
  }

  lemma RefreshedIsSteady(st: State)
    ensures Steady(Refreshed(st)) && !MustRedraw(Refreshed(st))
  {
    AlignmentIsOk(st.page, |st.comp.cands|, PageSize(st.config));
  }

  lemma RefreshedActs(st: State, ic: Ic, e: Event)
    requires !MustRedraw(Refreshed(st))
    ensures IdleKey(st, ic, e) == IdleKey(Refreshed(st), ic, e)
  {
    hide UpdateUI, MustRedraw, LetterKey, PunctKey, DigitKey, CommitCandidate, Arm, CommitText, BackspaceKey, ClearAll, ArrowMove,
      PageBack, PageForward;
  }

  /** The one branch for the keys that go back. */
  lemma BackKeyMoves(st: State, ic: Ic, e: Event)
    requires IdlePress(st, ic, e) && st.comp.buf != "" && !MustRedraw(st) && GoesBack(st, e.sym)
    ensures var r := IdleKey(st, ic, e); var up := st.(page := PageBack(st.page, PageSize(st.config)));
            && r.accepted
            && (st.page.start > 0 ==> r.st == UpdateUI(up))
            && (st.page.start <= 0 ==> r.st == st || r.st == UpdateUI(st))
  {
    hide UpdateUI, MustRedraw, LetterKey, PunctKey, DigitKey, PageBack, PageOk;
  }

  lemma ForwardKeyMoves(st: State, ic: Ic, e: Event)
    requires IdlePress(st, ic, e) && st.comp.buf != "" && !MustRedraw(st) && GoesForward(st, e.sym)
    ensures var r := IdleKey(st, ic, e); var down := st.(page := PageForward(st.page, PageSize(st.config)));
            var more := st.comp.current && st.page.start + PageSize(st.config) < |st.comp.cands|;
            r.accepted && (more ==> r.st == UpdateUI(down)) && (!more ==> r.st == st || r.st == UpdateUI(st))
  {
    hide UpdateUI, MustRedraw, LetterKey, PunctKey, DigitKey, PageForward, PageOk, PageSize;
  }

  lemma SideKeyMoves(st: State, ic: Ic, e: Event)
    requires IdlePress(st, ic, e) && st.comp.buf != "" && !MustRedraw(st) && Selectable(st)
    requires e.sym == KEY_LEFT || e.sym == KEY_RIGHT
    ensures var page := ArrowMove(st.page, e.sym, PageSize(st.config), |st.comp.cands|);
            IdleKey(st, ic, e) == Result(UpdateUI(st.(page := page)), true)
  {
    hide UpdateUI, MustRedraw, LetterKey, PunctKey, DigitKey, ArrowMove, PageOk, PageSize;
  }

  lemma NothingMoved(st: State)
    requires Steady(st)
    ensures Kept(st, UpdateUI(st)) && UpdateUI(st).page.start == st.page.start && UpdateUI(st).page.selected == st.page.selected
  {
    if st.comp.cands != [] {
      RedrawnAt(st, st.page);
    }
  }

  lemma BackIsOk(st: State)
    requires Steady(st) && st.page.start > 0
    ensures st.page.start >= PageSize(st.config) && st.comp.cands != []
    ensures PageOk(PageBack(st.page, PageSize(st.config)), |st.comp.cands|, PageSize(st.config))
  {
    hide PageSize;
    BackThenForward(st.page, |st.comp.cands|, PageSize(st.config));
    NextMultiple(st.page.start, PageSize(st.config));
  }

  lemma ForwardIsOk(st: State)
    requires Steady(st) && st.page.start + PageSize(st.config) < |st.comp.cands|
    ensures st.comp.cands != []
    ensures PageOk(PageForward(st.page, PageSize(st.config)), |st.comp.cands|, PageSize(st.config))
  {
    hide PageSize;
    ForwardThenBack(st.page, |st.comp.cands|, PageSize(st.config));
  }

  lemma RedrawnAt(st: State, page: Page)
    requires st.comp.cands != [] && PageOk(page, |st.comp.cands|, PageSize(st.config))
    ensures var r := UpdateUI(st.(page := page)); Kept(st, r) && r.page.start == page.start && r.page.selected == page.selected
  {
    AlignmentIsOk(page, |st.comp.cands|, PageSize(st.config));
  }

  // ---------------------------------------------------------------- recovery

  /**
   * The restart timer starts a new engine when the old one is gone, unless five starts have failed, and
   * the new one is asked for spans and sent the whole unfinished pinyin.
   */
  lemma RestartTimerRestarts(st: State)
    requires LinkOk(st.link) && st.link.restart && !st.link.alive && !st.link.gaveUp
    ensures var r := Step(st, RestartTimer, []);
            && r.comp == st.comp && r.defer == st.defer && r.out == st.out
            && (if st.link.fails < 5 then
                  r.link.alive && !r.link.restart && r.link.fails == st.link.fails + 1
                  && r.link.wire == [OptSpans] + (if st.comp.buf == "" then [] else [Batch(st.comp.buf)])
                else !r.link.alive && r.link.gaveUp)
  {
    hide Lost, Die;
    var s := st.(link := st.link.(restart := false, luck := []));
    EngineStarts(s);
  }

  /** The engine is started with the addon, and asked for spans. */
  lemma StartsEagerly(config: int)
    ensures var r := Init(config, []); r.link.alive && r.link.wire == [OptSpans] && r.link.fails == 1 && r.comp.buf == ""
  {
    hide UpdateUI, Draw;
    EngineStarts(State(Comp("", [], [], false, 0, 0, "", "", [], None), Page(0, 0, 0), Defer(false, None, [], [], []),
                       Link(false, false, [], [], 0, false, false, false, false, 0, []), None, config, Panel("", 0, [], 0), []));
  }

  /** An engine that can be started is. */
  lemma EngineStarts(st: State)
    requires LinkOk(st.link) && !st.link.alive && !st.link.gaveUp && st.link.luck == []
    ensures var r := EnsureEngine(st);
            && Kept(st, r) && r.link.luck == [] && r.link.restart == st.link.restart && r.link.recovered == st.link.recovered
            && (if st.link.fails < 5 then
                  r.link.alive && r.link.wire == [OptSpans] && r.link.fails == st.link.fails + 1 && !r.link.gaveUp
                  && r.link.handlers == [OptHandler]
                else !r.link.alive && r.link.gaveUp && r.link.fails == st.link.fails && r.link.handlers == [])
  {
    hide Lost, Die;
  }

  /**
   * When the engine dies with a request for the present pinyin unanswered, and none was recovered for this
   * composition before, a new engine is started at once and sent the whole pinyin.
   */
  lemma DeathRecovers(st: State, k: nat)
    requires LinkOk(st.link) && st.link.alive && !st.link.recovered && st.link.fails < 5 && st.comp.buf != ""
    requires k < |st.link.handlers| && IsCurrent(st, st.link.handlers[k])
    ensures var r := Step(st, Exit, []);
            r.link.alive && r.link.wire == [OptSpans, Batch(st.comp.buf)] && r.comp == st.comp && r.defer == st.defer && r.out == st.out
  {
    hide Lost, FailAll, UpdateUI;
    var s := st.(link := st.link.(luck := []));
    var stopped := s.(link := s.link.(alive := false, ready := false, wire := [], handlers := []));
    FailAllRecovers(stopped, st.link.handlers, k);
    assert Renewed(Die(s));
  }

  lemma {:induction false} FailAllRecovers(st: State, hs: seq<Handler>, k: nat)
    requires LinkOk(st.link) && !st.link.alive && !st.link.recovered && !st.link.gaveUp && st.link.luck == [] && st.link.fails < 5
    requires st.comp.buf != "" && k < |hs| && IsCurrent(st, hs[k])
    ensures FailAll(st, hs).link.alive
    decreases |hs|
  {
    hide Lost;
    if IsCurrent(st, hs[0]) {
      LostRecovers(st, hs[0]);
      RecoveredStays(Lost(st, hs[0]), hs[1..]);
    } else {
      NotCurrentLost(st, hs[0]);
      FailAllRecovers(Lost(st, hs[0]), hs[1..], k - 1);
    }
  }

  lemma RecoveredStays(st: State, hs: seq<Handler>)
    requires st.link.recovered && st.link.alive
    ensures FailAll(st, hs).link.alive
  {
    assert RestartsNothing(st, hs);
  }

  lemma NotCurrentLost(st: State, h: Handler)
    requires !IsCurrent(st, h)
    ensures Lost(st, h) == st.(link := st.link.(spans := Lost(st, h).link.spans))
  {
  }

  lemma LostRecovers(st: State, h: Handler)
    requires LinkOk(st.link) && !st.link.alive && !st.link.recovered && !st.link.gaveUp && st.link.luck == [] && st.link.fails < 5
    requires st.comp.buf != "" && IsCurrent(st, h)
    ensures Lost(st, h).link.alive && Lost(st, h).link.recovered
  {
    hide UpdateUI, EnsureEngine, Request, Die, FailAll, Send;
    var shown := UpdateUI(st);
    var s := shown.(link := shown.link.(recovered := true));
    EngineStarts(s);
    RequestOnly(EnsureEngine(s));
  }

  lemma RequestOnly(st: State)
    requires st.link.alive && st.link.luck == []
    ensures Request(st, st.comp.buf).link.alive && Request(st, st.comp.buf).link.recovered == st.link.recovered
  {
    hide Send;
  }

  /** A letter typed with no engine starts one, which gets the whole pinyin. */
  lemma LetterRestarts(st: State, ic: Ic, e: Event)
    requires IdlePress(st, ic, e) && IsLower(e.sym)
    requires LinkOk(st.link) && !st.link.alive && !st.link.gaveUp && st.link.fails < 5
    ensures var r := Step(st, Key(ic, e), []); r.link.alive && r.link.wire == [OptSpans, Batch(st.comp.buf + [e.sym as char])]
  {
    hide LetterKey, ProcessKey, IdleKey, UpdateUI;
    var t := st.(link := st.link.(luck := []));
    LetterReachesKey(t, ic, e);
    LetterKeyRestarts(if MustRedraw(t) then UpdateUI(t) else t, e.sym as char);
  }

  lemma LetterReachesKey(st: State, ic: Ic, e: Event)
    requires IdlePress(st, ic, e) && IsLower(e.sym)
    ensures ProcessKey(st, ic, e).st == LetterKey(if MustRedraw(st) then UpdateUI(st) else st, e.sym as char)
  {
    hide UpdateUI, LetterKey, MustRedraw;
  }

  lemma LetterKeyRestarts(st: State, c: char)
    requires LinkOk(st.link) && !st.link.alive && !st.link.gaveUp && st.link.fails < 5 && st.link.luck == []
    ensures var r := LetterKey(st, c); r.link.alive && r.link.wire == [OptSpans, Batch(st.comp.buf + [c])]
  {
    hide UpdateUI, EnsureEngine, Request, Lost, Die, Send;
    assert "" + [c] == [c] && [OptSpans] + [Batch(st.comp.buf + [c])] == [OptSpans, Batch(st.comp.buf + [c])];
    EngineStarts(if st.comp.buf == "" then st.(link := st.link.(recovered := false)) else st);
  }

  // ---------------------------------------------------------------- replies

  /** A reply for a shorter pinyin of this composition is shown, and cannot be selected from. */
  lemma PreviewIsShown(st: State, h: Handler, line: string)
    requires h.CandHandler? && st.ic.Some? && h.ic == st.ic && h.epoch == st.comp.epoch && IsCandLine(line)
    requires h.buf != "" && h.buf < st.comp.buf
    ensures var r := OnReply(st, h, line);
            && r.comp.cands == Texts(ParseCands(st.link.spans, line)) && !r.comp.current
            && r.comp.buf == st.comp.buf && r.out == st.out && r.defer == st.defer && r.link == st.link
            && r.page.start == 0 && r.page.selected == 0
  {
    hide UpdateUI, ParseCands;
    FirstPage(st, h, line);
    assert line[0] == 'C';
    assert st.comp.buf[..|h.buf|] == h.buf;
  }

  /** A reply for another composition or a pinyin that was changed otherwise, and SKIP, change nothing. */
  lemma StaleIsIgnored(st: State, h: Handler, line: string)
    requires h.CandHandler?
    requires line == "SKIP" || st.ic == None || h.ic != st.ic || h.epoch != st.comp.epoch
             || (h.buf != st.comp.buf && !(h.buf != "" && h.buf < st.comp.buf))
    ensures OnReply(st, h, line) == st
  {
  }

  /** A reply for the present pinyin with no Space pending is shown and can be selected from. */
  lemma CurrentIsShown(st: State, h: Handler, line: string)
    requires IsCurrent(st, h) && !st.defer.pending && IsCandLine(line)
    ensures var r := OnReply(st, h, line); var es := ParseCands(st.link.spans, line);
            && r.comp.current && r.comp.cands == Texts(es) && r.comp.covers == Covers(es)
            && r.comp.buf == st.comp.buf && r.out == st.out && r.defer == st.defer && r.link == st.link
            && r.page.start == 0 && r.page.selected == 0
  {
    hide UpdateUI, ParseCands;
    FirstPage(st, h, line);
    assert line[0] == 'C';
  }

  lemma FirstPage(st: State, h: Handler, line: string)
    ensures var r := ShowCandidates(st, h, line); r.page.start == 0 && r.page.selected == 0
  {
    Floor(0, PageSize(st.config));
  }

  /** A reply for the present pinyin that brings no candidates. */
  predicate NoneOffered(st: State, line: string) { (line == "EMPTY" || IsCandLine(line)) && Parsed(st.link.spans, line) == [] }

  /** None offered while a Space waits, or a second unexpected reply, ends the wait with everything held as it was typed. */
  lemma NothingToTake(st: State, h: Handler, line: string)
    requires IsCurrent(st, h) && st.defer.pending && line != "SKIP"
    requires NoneOffered(st, line) || (line != "EMPTY" && !IsCandLine(line) && st.link.recovered)
    ensures var r := OnReply(st, h, line); var ic := st.ic.value;
            && !r.defer.pending && r.comp.buf == ""
            && r.out == st.out + [Commit(ic, PendingRaw(st.comp, st.defer), Raw(st.comp.buf, true, st.defer.queued))]
                        + Releases(ic, st.defer.queued)
  {
    hide ShowCandidates, Fallback, Drain, ParseCands, Releases, PressText;
    RawIsOut(st, st.ic.value);
    if NoneOffered(st, line) {
      NothingShown(st, h, line);
      RawIsOut(ShowCandidates(st, h, line), st.ic.value);
    }
  }

  lemma NothingShown(st: State, h: Handler, line: string)
    requires Parsed(st.link.spans, line) == []
    ensures ShowCandidates(st, h, line).comp.cands == []
  {
    hide UpdateUI, Parsed;
    assert Texts([]) == [];
  }

  lemma RawIsOut(st: State, ic: Ic)
    ensures var r := Fallback(st, ic);
            && !r.defer.pending && r.comp.buf == ""
            && r.out == st.out + [Commit(ic, PendingRaw(st.comp, st.defer), Raw(st.comp.buf, st.defer.pending, st.defer.queued))]
                        + Releases(ic, st.defer.queued)
  {
    hide CommitText, Releases, PendingRaw;
  }

  /** Without a Space pending none offered leaves the pinyin with none, and a second unexpected reply changes nothing. */
  lemma NothingToShow(st: State, h: Handler, line: string)
    requires IsCurrent(st, h) && !st.defer.pending && line != "SKIP"
    ensures NoneOffered(st, line) ==>
              var r := OnReply(st, h, line);
              r.comp.current && r.comp.cands == [] && r.comp.buf == st.comp.buf && r.out == st.out && r.link == st.link
    ensures line != "EMPTY" && !IsCandLine(line) && st.link.recovered ==> OnReply(st, h, line) == st
  {
    hide UpdateUI, ParseCands;
    if NoneOffered(st, line) {
      NothingShown(st, h, line);
    }
  }

  /** What is no candidate line for the present pinyin makes the session new, once, with the whole pinyin. */
  lemma UnexpectedRebuilds(st: State, h: Handler, line: string)
    requires IsCurrent(st, h) && line != "SKIP" && line != "EMPTY" && !IsCandLine(line) && st.comp.buf != ""
    requires !st.link.recovered && st.link.alive && st.link.luck == []
    ensures var r := OnReply(st, h, line);
            && r.link.wire == st.link.wire + [Clear, Batch(st.comp.buf)] && r.link.recovered
            && r.comp == st.comp && r.defer == st.defer && r.out == st.out
  {
    hide Lost, Die;
    assert st.link.wire + [Clear] + [Batch(st.comp.buf)] == st.link.wire + [Clear, Batch(st.comp.buf)];
  }

  /** READY makes the engine ready and forgives the failed starts; any other line before it is noise. */
  lemma ReadyForgives(st: State, line: string)
    requires st.link.alive && !st.link.ready
    ensures var r := OnLine(st, line);
            r == if line == "READY" then st.(link := st.link.(ready := true, fails := 0, forks := 0)) else st
  {
  }

  // ---------------------------------------------------------------- the end of a composition

  /** Nothing is composed, waited for or held, in a new epoch, and the panel is empty if it was not. */
  predicate Over(a: State, b: State) {
    && b.comp.buf == "" && b.comp.cands == [] && !b.comp.current && b.comp.epoch == a.comp.epoch + 1
    && !b.defer.pending && b.defer.timer == None && b.defer.queued == []
    && (a.comp.buf != "" || a.comp.cands != [] ==> b.panel.items == [] && b.panel.preedit == "")
  }

  /** Deactivation ends the composition; a switch of the input method commits it first, as it was typed. */
  lemma DeactivationEnds(st: State, ic: Ic, switching: bool, luck: seq<bool>)
    ensures var r := Step(st, Deactivate(ic, switching), luck);
            && Over(st, r) && |r.out| == |st.out| + (if switching && st.comp.buf != "" then 1 else 0) && st.out <= r.out
            && (switching && st.comp.buf != "" ==>
                  && r.out[|st.out|].Commit? && r.out[|st.out|].ic == ic
                  && r.out[|st.out|].text == PendingRaw(st.comp, st.defer))
  {
    hide Send, UpdateUI;
    var s := st.(link := st.link.(luck := luck));
    var t := if switching && s.comp.buf != "" then SwitchAway(s, ic) else s;
    NothingDrawn(ClearAll(t));
  }

  /** A reset ends it without output. */
  lemma ResetEnds(st: State, ic: Ic, luck: seq<bool>)
    ensures var r := Step(st, Reset(ic), luck); Over(st, r) && r.out == st.out
  {
    hide Send, UpdateUI;
    NothingDrawn(ClearAll(Send(st.(link := st.link.(luck := luck)), Save, NoHandler)));
  }

  lemma NothingDrawn(st: State)
    requires st.comp.buf == "" && st.comp.cands == [] && !st.defer.pending
    ensures UpdateUI(st).panel.items == [] && UpdateUI(st).panel.preedit == ""
  {
  }

  /** A reset saves the words learned before it ends the session. */
  lemma ResetSaves(st: State, ic: Ic)
    requires st.link.alive
    ensures Step(st, Reset(ic), []).link.wire == st.link.wire + [Save, Clear]
  {
    hide Lost, Die, UpdateUI;
    assert st.link.wire + [Save] + [Clear] == st.link.wire + [Save, Clear];
  }
}
