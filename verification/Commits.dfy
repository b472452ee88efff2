/** What each commit says: never more than the moment it was made at allows. */
module Commits {
  import opened Basics
  import opened Codec
  import opened Wire
  import opened Addon
  import opened AddonRuns
  import opened DeferredFates
  import opened Paging

  // ---------------------------------------------------------------- moments

  /** What makes the addon commit. */
  datatype Cause =
    | KeyPress(event: Event)
    | ReplyRead
    | Clicked(ic: Ic, index: int)
    | TimeUp
    | SwitchedAway(ic: Ic)

  /** A state in which the addon decides, and why it does. */
  datatype Moment = Moment(state: State, cause: Cause)

  /** A key is decided on the aligned window, but for a pending Space. */
  function KeyMoment(st: State, e: Event): Moment {
    Moment(if st.defer.pending then st else Refreshed(st), KeyPress(e))
  }

  /** Each deferred event is decided in the state its predecessors leave. */
  function DrainMoments(st: State, ic: Ic): seq<Moment>
    decreases |st.defer.queued|
  {
    if st.defer.pending || st.defer.queued == [] || st.ic != Some(ic) then []
    else
      var popped := st.(defer := st.defer.(queued := st.defer.queued[1..]));
      assert |DrainedOne(st, ic).defer.queued| < |st.defer.queued| by { QueueShrinks(st, ic, st.defer.queued[0].event); }
      [KeyMoment(popped, st.defer.queued[0].event)] + DrainMoments(DrainedOne(st, ic), ic)
  }

  /** A reply decides only for a pending Space, and then on the candidates it brought. */
  function ReplyMoments(st: State, h: Handler, line: string): seq<Moment> {
    if !IsCurrent(st, h) || !st.defer.pending then []
    else if line != "EMPTY" && !IsCandLine(line) then [Moment(st, ReplyRead)]
    else
      var shown := ShowCandidates(st, h, line);
      [Moment(shown, ReplyRead)] +
      (if shown.comp.cands == [] then []
       else DrainMoments(CommitCandidate(shown.(defer := Disarm(shown.defer)), st.ic.value, shown.page.selected), st.ic.value))
  }

  function LineMoments(st: State, line: string): seq<Moment> {
    if !st.link.alive || !st.link.ready || line == "" || st.link.handlers == [] then []
    else ReplyMoments(st.(link := st.link.(handlers := st.link.handlers[1..])), st.link.handlers[0], line)
  }

  /** The moments of one turn of the event loop. */
  function Moments(st: State, input: Input): seq<Moment> {
    match input
    case Key(ic, e) => [KeyMoment(Focus(st, ic), e)]
    case Line(line) => LineMoments(st, line)
    case PendingTimer => [Moment(st, TimeUp)]
    case Click(ic, index) => [Moment(st, Clicked(ic, index))]
    case Deactivate(ic, _) => [Moment(st, SwitchedAway(ic))]
    case _ => []
  }

  function RunMoments(st: State, turns: seq<Turn>): seq<Moment>
    decreases |turns|
  {
    if turns == [] then []
    else
      var front, last := turns[..|turns| - 1], turns[|turns| - 1];
      var before := Run(st, front);
      RunMoments(st, front) + Moments(before.(link := before.link.(luck := last.luck)), last.input)
  }

  // ---------------------------------------------------------------- what a moment allows

  /** The index that each cause chooses, or -1. */
  function ChosenBy(m: Moment): int {
    match m.cause
    case KeyPress(e) =>
      if e.sym == KEY_SPACE || Owned(e.sym) then m.state.page.selected
      else if IsDigitKey(e.sym) then m.state.page.start + (if e.sym == 0x30 then 9 else e.sym - 0x31)
      else -1
    case ReplyRead => 0
    case Clicked(_, index) => index
    case _ => -1
  }

  /** The context a commit goes to: the one that has the composition, but for a click or a switch in another. */
  function Recipient(m: Moment): Option<Ic> {
    if m.cause.Clicked? || m.cause.SwitchedAway? then Some(m.cause.ic) else m.state.ic
  }

  /** The symbol of the key, behind a choice it makes. */
  function SymbolOf(cause: Cause): string {
    if cause.KeyPress? && Owned(cause.event.sym) then cause.event.punct else ""
  }

  /**
   * A candidate, with its symbol when a symbol key chose it, only while candidates are current; raw
   * text of the pinyin held; and otherwise the pinyin itself at Enter, the pinyin (if any) and the symbol
   * at a symbol key without selectable candidates, and the capital typed outside a composition.
   */
  predicate Licensed(o: Output, m: Moment) {
    o.Commit? ==> Recipient(m) == Some(o.ic) && OwnLetters(m.state) && Allowed(o, m)
  }

  predicate Allowed(o: Output, m: Moment)
    requires o.Commit?
  {
    var comp := m.state.comp;
    match o.why
    case Chosen(index, _, _, _, _) =>
      && comp.current && Fresh(comp) && index < |comp.cands| && index == ChosenBy(m)
      && o.why == Choice(comp, index) && o.text == comp.cands[index] + SymbolOf(m.cause)
    case Raw(letters, _, _) =>
      Spoken(o) && (letters == comp.buf || (letters == "" && m.cause.KeyPress? && m.cause.event.sym == KEY_BACKSPACE))
    case Literal =>
      && m.cause.KeyPress?
      && var e := m.cause.event;
         || (e.sym == KEY_RETURN && comp.buf != "" && o.text == comp.buf)
         || (Owned(e.sym) && (comp.buf == "" || !Selectable(m.state)) && o.text == comp.buf + e.punct)
         || (IsUpper(e.sym) && comp.buf == "" && o.text == [e.sym as char])
  }

  /** The commits of `b` behind those of `a` are allowed by the moment. */
  predicate Says(a: State, b: State, m: Moment) {
    a.out <= b.out && forall k :: |a.out| <= k < |b.out| ==> Licensed(b.out[k], m)
  }

  /** The moment speaks for the composition of `ic`, or at its bidding. */
  predicate SpeaksTo(m: Moment, ic: Ic) { Recipient(m) == Some(ic) && OwnLetters(m.state) }

  predicate LicensedBy(ms: seq<Moment>, outs: seq<Output>) {
    forall k :: 0 <= k < |outs| ==> outs[k].Forward? || exists m :: m in ms && Licensed(outs[k], m)
  }

  // ---------------------------------------------------------------- the addon's operations

  lemma SaysOne(a: State, b: State, o: Output, m: Moment)
    requires b.out == a.out + [o] && Licensed(o, m)
    ensures Says(a, b, m)
  {
  }

  lemma SaysNothing(a: State, b: State, m: Moment)
    requires b.out == a.out
    ensures Says(a, b, m)
  {
  }

  lemma FallbackSays(st: State, ic: Ic, m: Moment)
    requires SpeaksTo(m, ic)
    requires st.comp.buf == m.state.comp.buf || (st.comp.buf == "" && m.cause.KeyPress? && m.cause.event.sym == KEY_BACKSPACE)
    ensures Says(st, Fallback(st, ic), m)
  {
    hide CommitText, Fresh;
    var o := Commit(ic, PendingRaw(st.comp, st.defer), Raw(st.comp.buf, st.defer.pending, st.defer.queued));
    ReleasesForwardOnly(ic, st.defer.queued);
    assert Fallback(st, ic).out == st.out + [o] + Releases(ic, st.defer.queued);
    assert Licensed(o, m);
  }

  lemma ReleasesForwardOnly(ic: Ic, q: seq<Queued>)
    ensures forall k :: 0 <= k < |Releases(ic, q)| ==> Releases(ic, q)[k].Forward?
  {
  }

  lemma CommitCandidateSaysChosen(st: State, ic: Ic, index: int, m: Moment)
    requires SpeaksTo(m, ic)
    requires m.state.comp == st.comp && Fresh(st.comp) && ChosenBy(m) == index && SymbolOf(m.cause) == ""
    ensures Says(st, CommitCandidate(st, ic, index), m)
  {
    hide CommitCandidate, Fresh;
    if st.comp.current && 0 <= index < |st.comp.cands| {
      SourceOfFresh(st.comp);
      assert st.comp.cands[index] + "" == st.comp.cands[index];
      SaysOne(st, CommitCandidate(st, ic, index), Commit(ic, st.comp.cands[index], Choice(st.comp, index)), m);
    }
  }

  lemma SourceOfFresh(comp: Comp)
    requires Fresh(comp) && comp.current
    ensures comp.source.Some?
  {
  }

  lemma PunctKeySaysIt(st: State, ic: Ic, e: Event)
    requires st.ic == Some(ic) && OwnLetters(st)
    requires Fresh(st.comp) && Owned(e.sym) && !st.defer.pending
    requires st.comp.cands != [] ==> 0 <= st.page.selected < |st.comp.cands|
    ensures Says(st, PunctKey(st, ic, e).st, Moment(st, KeyPress(e)))
  {
    hide CommitText, Send, Fresh;
    var r, m := PunctKey(st, ic, e).st, Moment(st, KeyPress(e));
    if st.comp.buf != "" && e.punct != "" {
      if Selectable(st) {
        SourceOfFresh(st.comp);
        SaysOne(st, r, Commit(ic, st.comp.cands[st.page.selected] + e.punct, Choice(st.comp, st.page.selected)), m);
      } else {
        SaysOne(st, r, Commit(ic, st.comp.buf + e.punct, Literal), m);
      }
    } else if st.comp.buf == "" && e.wide {
      assert "" + e.punct == e.punct;
      SaysOne(st, r, Commit(ic, e.punct, Literal), m);
    }
  }

  lemma ArmSays(st: State, ic: Ic, m: Moment)
    requires SpeaksTo(m, ic)
    requires m.state.comp == st.comp
    ensures Says(st, Arm(st, ic), m)
  {
    hide UpdateUI, Fallback, Licensed;
    FallbackSays(UpdateUI(st.(defer := st.defer.(pending := true, timer := Some(Timer(ic, st.comp.epoch))))), ic, m);
  }

  /** The alignment before a key leaves the selection inside the candidates. */
  lemma AlignedFirst(st: State)
    ensures var s := Refreshed(st);
            s.comp == st.comp && s.out == st.out && s.defer == st.defer && s.ic == st.ic && (OwnLetters(st) ==> OwnLetters(s))
            && (st.comp.cands != [] ==> 0 <= s.page.selected < |st.comp.cands|)
  {
    hide UpdateUI;
    if st.comp.cands != [] {
      PageBounds(st.page, |st.comp.cands|, PageSize(st.config));
    }
  }

  lemma DigitKeySaysIt(st: State, ic: Ic, e: Event)
    requires st.ic == Some(ic) && OwnLetters(st)
    requires Fresh(st.comp) && IsDigitKey(e.sym)
    ensures Says(st, DigitKey(st, ic, e.sym).st, Moment(st, KeyPress(e)))
  {
    hide CommitCandidate, Fresh, Licensed, Says;
    CommitCandidateSaysChosen(st, ic, st.page.start + (if e.sym == 0x30 then 9 else e.sym - 0x31), Moment(st, KeyPress(e)));
    SaysNothing(st, st, Moment(st, KeyPress(e)));
  }

  /** Space, Enter, Backspace and Escape. */
  lemma EndKeysSay(s: State, ic: Ic, e: Event)
    requires s.ic == Some(ic) && OwnLetters(s)
    requires Fresh(s.comp)
    ensures e.sym == KEY_SPACE ==> Says(s, CommitCandidate(s, ic, s.page.selected), Moment(s, KeyPress(e)))
    ensures Says(s, Arm(s, ic), Moment(s, KeyPress(e)))
    ensures e.sym == KEY_RETURN && s.comp.buf != "" ==> Says(s, CommitText(s, ic, s.comp.buf, Literal), Moment(s, KeyPress(e)))
  {
    hide CommitCandidate, Fresh, Says, Arm, CommitText;
    var m := Moment(s, KeyPress(e));
    if e.sym == KEY_SPACE {
      CommitCandidateSaysChosen(s, ic, s.page.selected, m);
    }
    ArmSays(s, ic, m);
    if e.sym == KEY_RETURN && s.comp.buf != "" {
      SaysOne(s, CommitText(s, ic, s.comp.buf, Literal), Commit(ic, s.comp.buf, Literal), m);
    }
  }

  lemma CapitalSays(s: State, r: State, ic: Ic, e: Event)
    requires s.ic == Some(ic) && OwnLetters(s)
    requires s.comp.buf == "" && IsUpper(e.sym) && r.out == s.out + [Commit(ic, [e.sym as char], Literal)]
    ensures Says(s, r, Moment(s, KeyPress(e)))
  {
    SaysOne(s, r, Commit(ic, [e.sym as char], Literal), Moment(s, KeyPress(e)));
  }

  /** An idle key says what its moment, the aligned state, allows. */
  lemma IdleKeySays(st: State, ic: Ic, e: Event)
    requires st.ic == Some(ic) && OwnLetters(st)
    requires Fresh(st.comp) && !st.defer.pending
    ensures Says(st, IdleKey(st, ic, e).st, KeyMoment(st, e))
  {
    hide Says, UpdateUI, LetterKey, PunctKey, DigitKey, CommitCandidate, Arm, CommitText, BackspaceKey, ClearAll, MustRedraw,
      PageSize, ArrowMove, PageBack, PageForward, Shown, Fresh, LinkGoes, QueueMoves, StaysGivenUp;
    var s, m, r := Refreshed(st), KeyMoment(st, e), IdleKey(st, ic, e).st;
    AlignedFirst(st);
    if s.comp.buf == "" && IsUpper(e.sym) && e.shift {
      CapitalSays(s, r, ic, e);
    } else if Owned(e.sym) {
      PunctKeySaysIt(s, ic, e);
    } else if IsDigitKey(e.sym) {
      DigitKeySaysIt(s, ic, e);
    } else {
      EndKeysSay(s, ic, e);
    }
    if r.out == s.out {
      SaysNothing(s, r, m);
    }
    SaysFrom(s, st, r, m);
  }

  lemma SaysFrom(a: State, b: State, r: State, m: Moment)
    requires Says(a, r, m) && b.out == a.out
    ensures Says(b, r, m)
  {
  }

  lemma PendingKeySays(st: State, ic: Ic, e: Event)
    requires st.ic == Some(ic) && OwnLetters(st)
    requires st.defer.pending && st.comp.buf != ""
    ensures Says(st, PendingKey(st, ic, e).st, Moment(st, KeyPress(e)))
  {
    hide Says, Fallback, UpdateUI, ClearAll, PendingBackspace;
    var m := Moment(st, KeyPress(e));
    FallbackSays(st, ic, m);
    FallbackSays(st.(defer := Enqueue(st.defer, ic, e)), ic, m);
    SaysFrom(st.(defer := Enqueue(st.defer, ic, e)), st, Fallback(st.(defer := Enqueue(st.defer, ic, e)), ic), m);
    if e.sym == KEY_BACKSPACE {
      PendingBackspaceSays(st, ic, m);
    }
    if PendingKey(st, ic, e).st.out == st.out {
      SaysNothing(st, PendingKey(st, ic, e).st, m);
    }
  }

  lemma PendingBackspaceSays(st: State, ic: Ic, m: Moment)
    requires SpeaksTo(m, ic)
    requires m.cause.KeyPress? && m.cause.event.sym == KEY_BACKSPACE
    ensures Says(st, PendingBackspace(st, ic).st, m)
  {
    hide Says, Fallback, UpdateUI, Request, Send, LastPress, DropLastPress;
    var r := PendingBackspace(st, ic).st;
    if LastPress(st.defer.queued) == |st.defer.queued| && DropLast(st.comp.buf) == "" {
      var s := Send(st.(comp := st.comp.(buf := "", revision := st.comp.revision + 1, current := false,
                                         cands := [], covers := [], typed := DropLast(st.comp.typed), typists := DropLast(st.comp.typists))),
                    Clear, NoHandler);
      FallbackSays(s, ic, m);
      SaysFrom(s, st, Fallback(s, ic), m);
    } else {
      SaysNothing(st, r, m);
    }
  }

  lemma ProcessKeySays(st: State, ic: Ic, e: Event)
    requires OwnLetters(st)
    requires Sound(st) && Waiting(st)
    ensures Says(st, ProcessKey(st, ic, e).st, KeyMoment(Focus(st, ic), e))
  {
    hide Says, Fresh, IdleKey, PendingKey, ClearAll, Refreshed;
    var s := Focus(st, ic);
    var m := KeyMoment(s, e);
    if s.defer.pending {
      PendingKeySays(s, ic, e);
    } else if e.shortcut || e.release {
      SaysNothing(s, s, m);
    } else {
      NothingCurrent(st);
      IdleKeySays(s, ic, e);
    }
    SaysFrom(s, st, ProcessKey(st, ic, e).st, m);
  }

  lemma NothingCurrent(st: State)
    ensures Fresh(ClearAll(st).comp)
  {
  }

  // ---------------------------------------------------------------- draining and replies

  lemma LicensedJoins(ms: seq<Moment>, ns: seq<Moment>, xs: seq<Output>, ys: seq<Output>)
    requires LicensedBy(ms, xs) && LicensedBy(ns, ys)
    ensures LicensedBy(ms + ns, xs + ys)
  {
    hide Licensed;
    forall k | 0 <= k < |xs + ys| && !(xs + ys)[k].Forward? ensures exists m :: m in ms + ns && Licensed((xs + ys)[k], m) {
      if k < |xs| {
        var m :| m in ms && Licensed(xs[k], m);
        assert m in ms + ns;
      } else {
        var m :| m in ns && Licensed(ys[k - |xs|], m);
        assert m in ms + ns;
      }
    }
  }

  /** What one moment allows, as a run of outputs. */
  lemma SaidIsLicensed(a: State, b: State, m: Moment)
    requires Says(a, b, m)
    ensures LicensedBy([m], b.out[|a.out|..]) && b.out == a.out + b.out[|a.out|..]
  {
    hide Licensed;
    var news := b.out[|a.out|..];
    forall k | 0 <= k < |news| ensures m in [m] && Licensed(news[k], m) {
      assert news[k] == b.out[|a.out| + k];
    }
  }

  lemma {:induction false} DrainSays(st: State, ic: Ic)
    requires OwnLetters(st)
    requires Draining(st, ic) && st.ic == Some(ic)
    ensures st.out <= Drain(st, ic).out && LicensedBy(DrainMoments(st, ic), Drain(st, ic).out[|st.out|..])
    decreases |st.defer.queued|
  {
    hide Sound, Waiting, Settled, InOrder, FatesTold, OwnedBy, AllHeld, ProcessKey, LicensedBy, Says, KeyMoment;
    if st.defer.pending || st.defer.queued == [] {
      NothingSaid();
      assert Drain(st, ic).out[|st.out|..] == [];
    } else {
      DrainedOneDrains(st, ic);
      var s, q := DrainedOne(st, ic), st.defer.queued[0];
      DrainSays(s, ic);
      OneSays(st, ic);
      var popped := st.(defer := st.defer.(queued := st.defer.queued[1..]));
      LicensedJoins([KeyMoment(popped, q.event)], DrainMoments(s, ic), s.out[|st.out|..], Drain(s, ic).out[|s.out|..]);
      assert Drain(s, ic).out[|st.out|..] == s.out[|st.out|..] + Drain(s, ic).out[|s.out|..];
    }
  }

  lemma NothingSaid()
    ensures LicensedBy([], [])
  {
  }

  /** One drained event: what its moment allows, then perhaps its Forward. */
  lemma OneSays(st: State, ic: Ic)
    requires OwnLetters(st)
    requires Draining(st, ic) && st.ic == Some(ic) && !st.defer.pending && st.defer.queued != []
    ensures var popped := st.(defer := st.defer.(queued := st.defer.queued[1..]));
            st.out <= DrainedOne(st, ic).out
            && LicensedBy([KeyMoment(popped, st.defer.queued[0].event)], DrainedOne(st, ic).out[|st.out|..])
  {
    hide Settled, InOrder, FatesTold, OwnedBy, AllHeld, ProcessKey, Licensed, Says, Refreshed;
    var q, popped := st.defer.queued[0], st.(defer := st.defer.(queued := st.defer.queued[1..]));
    SoundIgnoresDefer(st, popped);
    ProcessKeySays(popped, ic, q.event);
    var r, m := ProcessKey(popped, ic, q.event), KeyMoment(popped, q.event);
    SaidIsLicensed(popped, r.st, m);
    var f := Forward(ic, q.event.raw, q.event.release, q.event.time);
    ForwardLicensed([], f);
    LicensedJoins([m], [], r.st.out[|st.out|..], [f]);
    assert [m] + [] == [m];
    assert (r.st.out + [f])[|st.out|..] == r.st.out[|st.out|..] + [f];
  }

  lemma ForwardLicensed(ms: seq<Moment>, f: Output)
    requires f.Forward?
    ensures LicensedBy(ms, [f])
  {
  }

  /** New candidates start at the first one. */
  lemma FirstSelected(st: State, h: Handler, line: string)
    ensures var s := ShowCandidates(st, h, line); var es := Parsed(st.link.spans, line);
            && s.comp.cands == Texts(es) && s.comp.current == IsCurrent(st, h) && s.comp.source == Some(Source(h, line, st.link.spans))
            && (es != [] ==> s.page.selected == 0)
  {
    hide Parsed, PendingRaw;
    if Parsed(st.link.spans, line) != [] {
      assert 0 / PageSize(st.config) * PageSize(st.config) == 0;
    }
  }

  /** The state from which a reply lets the queue drain. */
  function Taken(st: State, ic: Ic): State { CommitCandidate(st.(defer := Disarm(st.defer)), ic, st.page.selected) }

  lemma TakenDrains(st: State, ic: Ic)
    requires Sound(st) && Settled(st.defer) && InOrder(st.defer) && FatesTold(st)
    requires |st.defer.queued| < 256 && st.ic == Some(ic) && OwnedBy(st.defer.queued, ic) && AllHeld(st.defer.queued)
    ensures Draining(Taken(st, ic), ic) && Taken(st, ic).ic == Some(ic)
  {
    hide Settled, InOrder, Sound, CommitCandidate, Traced, SaysPlainly, OwnedBy, AllHeld;
    var s := st.(defer := Disarm(st.defer));
    SoundIgnoresDefer(st, s);
    QueueMovesSettle(st.defer, s.defer);
    QueueMovesInOrder(st.defer, s.defer);
    CommitCandidateIsSound(s, ic, s.page.selected);
    CommitCandidateSays(s, ic, s.page.selected);
    PlainlyTold(s, CommitCandidate(s, ic, s.page.selected));
  }

  /** What a reply says for a pending Space. */
  lemma TakePendingSays(st: State, ic: Ic)
    requires OwnLetters(st)
    requires Sound(st) && Settled(st.defer) && InOrder(st.defer) && FatesTold(st)
    requires |st.defer.queued| < 256 && st.ic == Some(ic) && OwnedBy(st.defer.queued, ic) && AllHeld(st.defer.queued)
    requires st.comp.cands != [] ==> st.page.selected == 0
    ensures st.out <= TakePending(st, ic).out
    ensures LicensedBy([Moment(st, ReplyRead)] + (if st.comp.cands == [] then [] else DrainMoments(Taken(st, ic), ic)),
                       TakePending(st, ic).out[|st.out|..])
  {
    hide Settled, InOrder, Sound, CommitCandidate, Fallback, Drain, DrainMoments, FatesTold, OwnedBy, AllHeld, LicensedBy, Says, Licensed, Fresh;
    var m := Moment(st, ReplyRead);
    if st.comp.cands == [] {
      FallbackSays(st, ic, m);
      SaidIsLicensed(st, Fallback(st, ic), m);
      assert [m] + [] == [m];
    } else {
      var c, r := Taken(st, ic), Drain(Taken(st, ic), ic);
      TakenDrains(st, ic);
      FreshOf(st);
      TakenSays(st, ic);
      DrainSays(c, ic);
      LicensedJoins([m], DrainMoments(c, ic), c.out[|st.out|..], r.out[|c.out|..]);
      OutputSplits(st.out, c.out, r.out);
    }
  }

  lemma OutputSplits(a: seq<Output>, b: seq<Output>, c: seq<Output>)
    requires a <= b <= c
    ensures c[|a|..] == b[|a|..] + c[|b|..]
  {
  }

  lemma TakenSays(st: State, ic: Ic)
    requires st.ic == Some(ic) && OwnLetters(st)
    requires Fresh(st.comp) && st.page.selected == 0
    ensures st.out <= Taken(st, ic).out && LicensedBy([Moment(st, ReplyRead)], Taken(st, ic).out[|st.out|..])
  {
    hide Fresh, Licensed, LicensedBy, CommitCandidate;
    var s, m := st.(defer := Disarm(st.defer)), Moment(st, ReplyRead);
    CommitCandidateSaysChosen(s, ic, 0, m);
    SaidIsLicensed(s, Taken(st, ic), m);
  }

  lemma FreshOf(st: State)
    requires Sound(st)
    ensures Fresh(st.comp)
  {
  }

  lemma OnReplySays(st: State, h: Handler, line: string)
    requires OwnLetters(st)
    requires AtRest(st)
    ensures st.out <= OnReply(st, h, line).out
    ensures LicensedBy(ReplyMoments(st, h, line), OnReply(st, h, line).out[|st.out|..])
  {
    hide Settled, InOrder, Sound, Traced, OwnedBy, AllHeld, LicensedBy, Unexpected, ShowCandidates, TakePending, DrainMoments;
    NothingSaid();
    var r := OnReply(st, h, line);
    if IsCurrent(st, h) && st.defer.pending && line != "SKIP" {
      if line != "EMPTY" && !IsCandLine(line) {
        UnexpectedSays(st, st.ic.value);
      } else {
        var s := ShowCandidates(st, h, line);
        ShowCandidatesIsSound(st, h, line);
        FirstSelected(st, h, line);
        TakePendingSays(s, st.ic.value);
      }
    } else if IsCurrent(st, h) && st.defer.pending {
      SkipLicensed(st, h, line);
    } else {
      NotTaken(st, h, line);
      assert r.out[|st.out|..] == [];
    }
  }

  lemma SkipLicensed(st: State, h: Handler, line: string)
    requires line == "SKIP" && IsCurrent(st, h)
    ensures OnReply(st, h, line).out[|st.out|..] == [] && LicensedBy(ReplyMoments(st, h, line), [])
  {
  }

  /** Without a pending Space for it a reply says nothing. */
  lemma NotTaken(st: State, h: Handler, line: string)
    requires !IsCurrent(st, h) || !st.defer.pending
    ensures OnReply(st, h, line).out == st.out
  {
    hide ShowCandidates, TakePending, Fallback, Send, Request;
  }

  lemma UnexpectedSays(st: State, ic: Ic)
    requires st.ic == Some(ic) && OwnLetters(st)
    ensures st.out <= Unexpected(st, ic).out && LicensedBy([Moment(st, ReplyRead)], Unexpected(st, ic).out[|st.out|..])
  {
    hide Fallback, Send, Request, Says, Licensed, LicensedBy;
    var m, r := Moment(st, ReplyRead), Unexpected(st, ic);
    FallbackSays(st, ic, m);
    if r.out == st.out {
      SaysNothing(st, r, m);
    }
    SaidIsLicensed(st, r, m);
  }

  // ---------------------------------------------------------------- whole turns and runs

  lemma SwitchSays(st: State, ic: Ic, switching: bool)
    requires OwnLetters(st)
    ensures Says(st, OnDeactivate(st, ic, switching), Moment(st, SwitchedAway(ic)))
  {
    hide ClearAll, UpdateUI, Fresh;
    var m, why := Moment(st, SwitchedAway(ic)), Raw(st.comp.buf, st.defer.pending, HeldPresses(st.defer.queued));
    HeldPressesSayAll(st.defer.queued);
    if switching && st.comp.buf != "" {
      SaysOne(st, OnDeactivate(st, ic, switching), Commit(ic, PendingRaw(st.comp, st.defer), why), m);
    }
  }

  /**
   * One turn: every commit it makes is allowed by one of its moments, and goes to the context whose
   * composition it is, unless a click or a switch said otherwise. A candidate is committed only in a
   * state in which it is current; no other text than the pinyin, the keys held and the key itself is.
   */
  lemma TurnIsLicensed(st: State, input: Input, luck: seq<bool>)
    requires OwnLetters(st)
    requires AtRest(st)
    ensures st.out <= Step(st, input, luck).out
    ensures LicensedBy(Moments(st.(link := st.link.(luck := luck)), input), Step(st, input, luck).out[|st.out|..])
  {
    hide Sound, Waiting, Settled, InOrder, Traced, AllHeld, Says, Licensed, LicensedBy, ProcessKey, OnReply, Fallback, CommitCandidate,
      OnReset, OnDeactivate, OnRestartTimer, Die, KeyMoment, ReplyMoments;
    var s := st.(link := st.link.(luck := luck));
    var r := Step(st, input, luck);
    AtRestIgnoresLuck(st, s);
    NothingSaid();
    match input
    case Key(ic, e) =>
      ProcessKeySays(s, ic, e);
      SaidIsLicensed(s, r, KeyMoment(Focus(s, ic), e));
    case Line(line) =>
      if s.link.alive && s.link.ready && line != "" && s.link.handlers != [] {
        var p := s.(link := s.link.(handlers := s.link.handlers[1..]));
        PoppedAtRest(s, p);
        OnReplySays(p, s.link.handlers[0], line);
      } else {
        assert r.out[|st.out|..] == [];
      }
    case PendingTimer =>
      TimerSays(s);
      SaidIsLicensed(s, r, Moment(s, TimeUp));
    case Click(ic, index) =>
      FreshOf(s);
      CommitCandidateSaysChosen(s, ic, index, Moment(s, Clicked(ic, index)));
      SaidIsLicensed(s, r, Moment(s, Clicked(ic, index)));
    case Deactivate(ic, switching) =>
      SwitchSays(s, ic, switching);
      SaidIsLicensed(s, r, Moment(s, SwitchedAway(ic)));
    case _ =>
      SilentTurn(s, input);
      assert r.out[|st.out|..] == [];
  }

  lemma PoppedAtRest(a: State, b: State)
    requires AtRest(a) && a.link.alive && a.link.handlers != [] && b == a.(link := a.link.(handlers := a.link.handlers[1..]))
    ensures AtRest(b)
  {
    hide Settled, InOrder, Traced;
  }

  lemma TimerSays(st: State)
    requires OwnLetters(st)
    ensures Says(st, OnPendingTimer(st), Moment(st, TimeUp))
  {
    hide Fallback, Says, Licensed;
    SaysNothing(st, st, Moment(st, TimeUp));
    if st.defer.timer.Some? && st.ic == Some(st.defer.timer.value.ic) {
      FallbackSays(st, st.defer.timer.value.ic, Moment(st, TimeUp));
    }
  }

  lemma SilentTurn(s: State, input: Input)
    requires input.Exit? || input.RestartTimer? || input.Reset? || input.Configure? || input.Destroy?
    ensures (if FromEngine(input) then EngineTurn(s, input) else UserTurn(s, input)).out == s.out
  {
    hide Die, EnsureEngine, Request, Send, ClearAll, UpdateUI;
  }

  /** Over every run the letters of the composition are all of the context that has it. */
  lemma {:induction false} EveryRunOwnsLetters(config: int, luck: seq<bool>, turns: seq<Turn>)
    ensures OwnLetters(Run(Init(config, luck), turns))
    decreases |turns|
  {
    hide Step, OwnLetters;
    if turns == [] {
      NothingOwned(config, luck);
    } else {
      EveryRunOwnsLetters(config, luck, turns[..|turns| - 1]);
    }
  }

  lemma NothingOwned(config: int, luck: seq<bool>)
    ensures OwnLetters(Init(config, luck))
  {
    hide EnsureEngine;
  }

  /**
   * Whose letters a commit holds: while a context has the composition, they are all of the context the
   * commit goes to if and only if that is the one, which only a click or a switch in another context can
   * make untrue.
   */
  lemma LettersGoHome(o: Output, m: Moment)
    requires o.Commit? && Licensed(o, m) && m.state.ic.Some? && m.state.comp.typed != ""
    ensures (forall k :: 0 <= k < |m.state.comp.typists| ==> m.state.comp.typists[k] == Some(o.ic)) <==> m.state.ic == Some(o.ic)
    ensures m.cause.KeyPress? || m.cause.ReplyRead? || m.cause.TimeUp? ==> m.state.ic == Some(o.ic)
  {
    assert m.state.comp.typists[0] == m.state.ic;
  }

  /** Over every run, every commit is allowed by a moment of the run. */
  lemma {:induction false} EveryCommitIsLicensed(config: int, luck: seq<bool>, turns: seq<Turn>)
    ensures LicensedBy(RunMoments(Init(config, luck), turns), Run(Init(config, luck), turns).out)
    decreases |turns|
  {
    hide Step, AtRest, LicensedBy, Moments, Init;
    var st := Init(config, luck);
    if turns == [] {
      SilentStart(config, luck);
      NothingSaid();
    } else {
      var front, last := turns[..|turns| - 1], turns[|turns| - 1];
      var before := Run(st, front);
      EveryCommitIsLicensed(config, luck, front);
      EveryRunIsAtRest(config, luck, front);
      EveryRunOwnsLetters(config, luck, front);
      TurnIsLicensed(before, last.input, last.luck);
      var r := Step(before, last.input, last.luck);
      LicensedJoins(RunMoments(st, front), Moments(before.(link := before.link.(luck := last.luck)), last.input),
                    before.out, r.out[|before.out|..]);
      assert r.out == before.out + r.out[|before.out|..];
    }
  }

  lemma SilentStart(config: int, luck: seq<bool>)
    ensures Init(config, luck).out == []
  {
    hide EnsureEngine;
  }

  // ---------------------------------------------------------------- a pending Space

  lemma NotCurrentStays(st: State, ic: Ic, e: Event)
    requires !st.comp.current && !st.defer.pending && st.ic == Some(ic)
    ensures !ProcessKey(st, ic, e).st.comp.current
  {
    hide UpdateUI, CommitText, ClearAll, EnsureEngine, Request, Send, MustRedraw, ArrowMove, PageBack, PageForward, CommitCandidate,
      Shown, LinkGoes, StaysGivenUp;
  }

  lemma {:induction false} DrainIsNeverCurrent(st: State, ic: Ic)
    requires !st.comp.current
    ensures forall m :: m in DrainMoments(st, ic) ==> !m.state.comp.current && m.cause.KeyPress?
    decreases |st.defer.queued|
  {
    hide ProcessKey, Refreshed;
    if !(st.defer.pending || st.defer.queued == [] || st.ic != Some(ic)) {
      var popped := st.(defer := st.defer.(queued := st.defer.queued[1..]));
      QueueShrinks(st, ic, st.defer.queued[0].event);
      NotCurrentStays(popped, ic, st.defer.queued[0].event);
      AlignedFirst(popped);
      DrainIsNeverCurrent(DrainedOne(st, ic), ic);
    }
  }

  /**
   * A pending Space takes the first candidate of the reply it waited for, and only that one; what was
   * typed behind it is then served, until nothing is held or a Space waits again.
   */
  lemma PendingTakesFirst(st: State, h: Handler, line: string)
    requires OwnLetters(st)
    requires AtRest(st) && st.defer.pending && IsCurrent(st, h) && IsCandLine(line) && Parsed(st.link.spans, line) != []
    ensures var first := Parsed(st.link.spans, line)[0].text; var r := OnReply(st, h, line);
            var why := Chosen(0, Source(h, line, st.link.spans), st.comp.buf, st.comp.revision, st.comp.epoch);
            && st.out + [Commit(st.ic.value, first, why)] <= r.out
            && (forall k :: |st.out| < k < |r.out| && r.out[k].Commit? ==> !r.out[k].why.Chosen?)
            && r == Drain(Taken(ShowCandidates(st, h, line), st.ic.value), st.ic.value)
            && (r.defer.queued == [] || r.defer.pending)
  {
    hide Settled, InOrder, Sound, Traced, OwnedBy, AllHeld, LicensedBy, ShowCandidates, Drain, DrainMoments, CommitCandidate, Parsed, Fallback;
    var ic, s := st.ic.value, ShowCandidates(st, h, line);
    ShowCandidatesIsSound(st, h, line);
    FirstSelected(st, h, line);
    assert line[0] == 'C';
    TakenDrains(s, ic);
    var c := Taken(s, ic);
    DrainSays(c, ic);
    DrainIsNeverCurrent(c, ic);
    NoMoreChosen(DrainMoments(c, ic), Drain(c, ic).out[|c.out|..]);
    var r := Drain(c, ic);
    assert r.out == c.out + r.out[|c.out|..];
    assert forall k :: |c.out| <= k < |r.out| ==> r.out[k] == r.out[|c.out|..][k - |c.out|];
  }

  lemma NoMoreChosen(ms: seq<Moment>, outs: seq<Output>)
    requires LicensedBy(ms, outs) && forall m :: m in ms ==> !m.state.comp.current
    ensures forall k :: 0 <= k < |outs| && outs[k].Commit? ==> !outs[k].why.Chosen?
  {
  }
}
