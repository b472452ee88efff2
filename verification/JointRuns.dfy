/**
 * What every run of addon and daemon keeps while one engine process lives.
 *
 * The invariant (Inv, and Good for whole states) has four parts. Plumbing: handlers pair with
 * the commands in the pipe and the replies on their way, both ends use the same mode, and a
 * selection is under way only as the next command, for a candidate the cache still holds.
 * OnlyLast and InStep: the one reply that can make candidates selectable is the last of all,
 * and then they are the daemon's cache. Told: what was selected at the daemon is what was
 * committed at the addon. Mirrors: the session behind the pipe is the pinyin.
 *
 * First each operation of the addon keeps the invariant, then each command of the daemon, then
 * every step of a run.
 */
module JointRuns {
  import opened Basics
  import opened Codec
  import opened Wire
  import opened Addon
  import opened AddonRuns
  import opened DeferredFates
  import opened Joint

  // ---------------------------------------------------------------- the invariant

  /**
   * What an addon turn sees and does not change: the daemon, and the replies on their way. `sure`
   * says that the statement is made for a trusty run (Trusty): every cached candidate has an id and
   * the pinyin fits the daemon.
   */
  datatype Env = Env(d: D.State, replies: seq<string>, lost: bool, learned: seq<string>, ready: bool, sure: bool)

  predicate Alive(l: Link) { l.alive && !l.gaveUp && l.luck == [] }

  /** Handlers wait in the order of their commands: for the replies under way, then for the wire. */
  predicate Paired(l: Link, e: Env) {
    l.ready == e.ready && |l.handlers| == |l.wire| + |e.replies| && forall k :: 0 <= k < |e.replies| ==> e.replies[k] != ""
  }

  /** OPT spans is first in line; once answered, both ends use spans. */
  predicate SameMode(l: Link, e: Env) {
    && (forall k :: 0 < k < |l.handlers| ==> !l.handlers[k].OptHandler?)
    && (forall k :: 0 <= k < |l.wire| && l.wire[k].OptSpans? ==> k == 0 && e.replies == [] && l.handlers != [] && l.handlers[0].OptHandler?)
    && if l.handlers != [] && l.handlers[0].OptHandler? then
         || (e.replies == [] && l.wire != [] && l.wire[0].OptSpans?)
         || (e.replies != [] && e.replies[0] == "OK" && e.d.spans)
       else l.spans && e.d.spans
  }

  /** A selection is under way only as the next command, for a candidate the cache still holds. */
  predicate SelectsHeld(wire: seq<Cmd>, e: Env) {
    && (forall k :: 0 <= k < |wire| && wire[k].Select? ==> k == 0 && e.replies == [])
    && (wire != [] && wire[0].Select? ==> HoldsChoice(e, wire[0]))
  }

  /** The cache entry is what the addon committed; while nothing is lost both ends see the same prefix. */
  predicate HoldsChoice(e: Env, c: Cmd)
    requires c.Select?
  {
    && c.index < |e.d.cache| && e.d.cache[c.index].text == c.committed
    && (!e.lost && e.d.known ==> (0 < e.d.cache[c.index].cover < |e.d.sent|) == CoversPrefix(c.purpose))
    && (c.purpose.Prefix? ==> e.d.cache[c.index].cover == c.purpose.cover)
    && (e.sure ==> !e.lost && e.d.known)
  }

  predicate HaveIds(cs: seq<D.Cand>) { forall k :: 0 <= k < |cs| ==> cs[k].id.Some? }

  predicate WireLetters(wire: seq<Cmd>) {
    forall k :: 0 <= k < |wire| && wire[k].Batch? ==> Letters(wire[k].keys) && wire[k].keys != ""
  }

  predicate Within(d: D.State) {
    (d.known ==> |d.sent| < D.SENT_SIZE) && |d.cache| <= D.MAX_CAND && CleanEntries(D.Entries(d.cache))
  }

  /** The daemon's own bounds, and a last reply that still tells its cache. */
  predicate DaemonOk(wire: seq<Cmd>, e: Env) {
    && Within(e.d) && (e.sure ==> HaveIds(e.d.cache))
    && (wire == [] && e.replies != [] && IsCandLine(e.replies[|e.replies| - 1]) ==>
          e.d.cache != [] && e.replies[|e.replies| - 1] == PrintCands(e.d.spans, D.Entries(e.d.cache)))
  }

  predicate HandlersUpTo(hs: seq<Handler>, revision: nat) {
    forall k :: 0 <= k < |hs| && hs[k].CandHandler? ==> hs[k].revision <= revision && hs[k].buf != ""
  }

  /** Everything about the pipes that holds even in the middle of a turn. */
  predicate Plumbing(a: State, e: Env) {
    && Alive(a.link) && Paired(a.link, e) && SameMode(a.link, e) && SelectsHeld(a.link.wire, e)
    && WireLetters(a.link.wire) && DaemonOk(a.link.wire, e) && HandlersUpTo(a.link.handlers, a.comp.revision)
  }

  /** No reply under way is for the present revision. */
  predicate Quiet(hs: seq<Handler>, revision: nat) {
    forall k :: 0 <= k < |hs| && hs[k].CandHandler? ==> hs[k].revision < revision
  }

  /** Only the last reply under way can be for the present revision, and then for the present pinyin. */
  predicate OnlyLast(hs: seq<Handler>, comp: Comp) {
    forall k :: 0 <= k < |hs| && hs[k].CandHandler? && hs[k].revision == comp.revision ==>
      k == |hs| - 1 && hs[k].buf == comp.buf
  }

  /** Selectable candidates are the daemon's cache, index for index, and nothing is under way. */
  predicate InStep(a: State, e: Env) {
    a.comp.current ==>
      && a.link.handlers == []
      && (e.sure ==> |a.comp.buf| < D.SENT_SIZE)
      && (a.comp.cands != [] ==>
            a.comp.cands == Texts(D.Entries(e.d.cache)) && a.comp.covers == Covers(D.Entries(e.d.cache)))
  }

  function SelectTexts(wire: seq<Cmd>): seq<string> {
    if wire != [] && wire[0].Select? then [wire[0].committed] else []
  }

  /** The candidate a commit chose. */
  function Word(why: Reason): string
    requires why.Chosen?
  {
    var es := Parsed(why.source.spans, why.source.line);
    if why.index < |es| then es[why.index].text else ""
  }

  /** The candidates the addon has committed, in order. */
  function Words(out: seq<Output>): seq<string> {
    if out == [] then []
    else
      var last := out[|out| - 1];
      Words(out[..|out| - 1]) + (if last.Commit? && last.why.Chosen? then [Word(last.why)] else [])
  }

  /** What was learned, and what is still to be, are the words committed. */
  predicate Told(wire: seq<Cmd>, out: seq<Output>, e: Env) {
    e.learned + SelectTexts(wire) == Words(out)
  }

  function SessionAhead(a: State, e: Env): Session {
    Drained(Session(e.d.sent, e.d.known, e.lost), e.d, a.link.wire)
  }

  predicate Inv(a: State, e: Env) {
    && Plumbing(a, e) && OnlyLast(a.link.handlers, a.comp) && InStep(a, e)
    && Told(a.link.wire, a.out, e) && Mirrors(SessionAhead(a, e), a.comp.buf)
    && (e.sure ==> !SessionAhead(a, e).lost)
  }

  // ---------------------------------------------------------------- writing to the pipe

  lemma DrainedSnoc(s: Session, d: D.State, wire: seq<Cmd>, c: Cmd)
    ensures Drained(s, d, wire + [c]) == After(Drained(s, d, wire), d, c)
  {
    assert (wire + [c])[..|wire|] == wire;
  }

  lemma WordsSnoc(out: seq<Output>, o: Output)
    ensures Words(out + [o]) == Words(out) + (if o.Commit? && o.why.Chosen? then [Word(o.why)] else [])
  {
    assert (out + [o])[..|out|] == out;
  }

  lemma SendIsWritten(a: State, c: Cmd, h: Handler)
    requires Alive(a.link)
    ensures Send(a, c, h) == Written(a, c, h)
  {
    hide Lost, Die;
  }

  lemma RequestIsWritten(a: State, keys: string)
    requires Alive(a.link) && a.comp.buf != "" && keys != ""
    ensures Request(a, keys) == Written(a, Batch(keys), HandlerNow(a))
  {
    hide Send;
    SendIsWritten(a, Batch(keys), HandlerNow(a));
  }

  /** C from a quiet addon resets the session behind the pipe. */
  lemma ClearResets(a: State, e: Env)
    requires Plumbing(a, e) && Quiet(a.link.handlers, a.comp.revision)
    ensures var r := Send(a, Clear, NoHandler);
            && r == Written(a, Clear, NoHandler)
            && Plumbing(r, e) && Quiet(r.link.handlers, r.comp.revision)
            && SelectTexts(r.link.wire) == SelectTexts(a.link.wire)
            && SessionAhead(r, e) == Session("", true, false)
  {
    hide Send, PrintCands, CleanEntries, D.Entries, IsCandLine, Letters;
    SendIsWritten(a, Clear, NoHandler);
    DrainedSnoc(Session(e.d.sent, e.d.known, e.lost), e.d, a.link.wire, Clear);
  }

  /** Keys extend the session behind the pipe as they extend the pinyin. */
  lemma RequestExtends(a: State, e: Env, before: string, keys: string)
    requires Plumbing(a, e) && Quiet(a.link.handlers, a.comp.revision)
    requires Mirrors(SessionAhead(a, e), before) && a.comp.buf == before + keys && keys != "" && Letters(keys)
    requires !a.comp.current && Told(a.link.wire, a.out, e) && (e.sure ==> !SessionAhead(a, e).lost)
    ensures Inv(Request(a, keys), e)
  {
    hide Request, Drained, Words, After, Mirrors;
    RequestIsWritten(a, keys);
    DrainedSnoc(Session(e.d.sent, e.d.known, e.lost), e.d, a.link.wire, Batch(keys));
    BatchMirrors(SessionAhead(a, e), e.d, before, keys);
  }

  lemma BatchMirrors(s: Session, d: D.State, before: string, keys: string)
    requires Mirrors(s, before)
    ensures Mirrors(After(s, d, Batch(keys)), before + keys) && After(s, d, Batch(keys)).lost == s.lost
  {
  }

  lemma InvIgnoresDisplay(a: State, b: State, e: Env)
    requires Inv(a, e) && b.comp == a.comp && b.link == a.link && b.out == a.out
    ensures Inv(b, e)
  {
  }

  // ---------------------------------------------------------------- the addon's operations

  predicate SamePipes(a: Link, b: Link) {
    a.wire == b.wire && a.handlers == b.handlers && a.spans == b.spans
    && a.alive == b.alive && a.ready == b.ready && a.gaveUp == b.gaveUp && a.luck == b.luck
  }

  /** A new revision makes every reply under way an old one. */
  lemma BumpQuiets(a: State, b: State, e: Env)
    requires Plumbing(a, e) && SamePipes(a.link, b.link) && b.comp.revision == a.comp.revision + 1
    ensures Plumbing(b, e) && Quiet(b.link.handlers, b.comp.revision)
  {
  }

  lemma ClearAllKeeps(a: State, e: Env)
    requires Plumbing(a, e) && Told(a.link.wire, a.out, e)
    ensures Inv(ClearAll(a), e)
  {
    hide Send, Plumbing, Drained, Words, CancelPending;
    var s := a.(defer := CancelPending(a.defer),
                comp := Comp("", [], [], false, a.comp.revision + 1, a.comp.epoch + 1, "", "", [], a.comp.source),
                page := a.page.(start := 0, selected := 0),
                link := a.link.(recovered := false));
    BumpQuiets(a, s, e);
    ClearResets(s, e);
  }

  /** A new revision makes every reply under way stale. */
  lemma PlumbingAges(a: State, e: Env)
    requires Plumbing(a, e)
    ensures forall b: State :: b.link == a.link.(recovered := b.link.recovered) && b.comp.revision > a.comp.revision ==>
              Plumbing(b, e) && Quiet(b.link.handlers, b.comp.revision)
  {
  }

  lemma CommitTextKeeps(a: State, e: Env, ic: Ic, text: string, why: Reason)
    requires Plumbing(a, e) && Told(a.link.wire, a.out + [Commit(ic, text, why)], e)
    ensures Inv(CommitText(a, ic, text, why), e)
  {
    PlumbingAges(a, e);
    hide Send, UpdateUI, Drained, Plumbing;
    var s := a.(out := a.out + [Commit(ic, text, why)],
                comp := Comp("", [], [], false, a.comp.revision + 1, a.comp.epoch, "", "", [], a.comp.source),
                page := a.page.(start := 0, selected := 0),
                link := a.link.(recovered := false));
    ClearResets(s, e);
    InvIgnoresDisplay(Send(s, Clear, NoHandler), UpdateUI(Send(s, Clear, NoHandler)), e);
  }

  /** Text that chose no candidate. */
  lemma TextKeeps(a: State, e: Env, ic: Ic, text: string, why: Reason)
    requires Plumbing(a, e) && Told(a.link.wire, a.out, e) && !why.Chosen?
    ensures Inv(CommitText(a, ic, text, why), e)
  {
    hide CommitText;
    WordsSnoc(a.out, Commit(ic, text, why));
    CommitTextKeeps(a, e, ic, text, why);
  }

  /** A choice from current candidates names a word of the daemon's cache. */
  lemma ChoiceIsHeld(a: State, e: Env, index: nat)
    requires Inv(a, e) && Sound(a) && a.comp.current && index < |a.comp.cands|
    ensures a.link.wire == [] && e.replies == [] && a.link.handlers == []
    ensures index < |e.d.cache| && e.d.cache[index].text == a.comp.cands[index] && e.d.cache[index].cover == CoverAt(a.comp, index)
    ensures Choice(a.comp, index).Chosen? && Word(Choice(a.comp, index)) == a.comp.cands[index]
    ensures e.sure ==> e.d.cache[index].id.Some? && e.d.spans && !e.lost && e.d.known && |a.comp.buf| < D.SENT_SIZE
  {
  }

  /** The branch the addon takes is the one the daemon will take, when the candidate has an id. */
  lemma PlumbingOfSelect(a: State, e: Env, index: nat, purpose: Purpose, h: Handler)
    requires Inv(a, e) && Sound(a) && a.comp.current && index < |a.comp.cands|
    requires CoversPrefix(purpose) == KeepsRest(a.comp, index)
    requires purpose.Prefix? ==> purpose.cover == CoverAt(a.comp, index)
    requires !h.OptHandler? && (h.CandHandler? ==> h.revision == a.comp.revision && h.buf != "")
    ensures Plumbing(Written(a, Select(index, a.comp.cands[index], purpose), h), e)
  {
    ChoiceIsHeld(a, e, index);
  }

  lemma CommitWholeKeeps(a: State, e: Env, ic: Ic, index: nat, purpose: Purpose, text: string)
    requires Inv(a, e) && Sound(a) && a.comp.current && index < |a.comp.cands|
    requires !purpose.Prefix? && CoversPrefix(purpose) == KeepsRest(a.comp, index)
    ensures Inv(CommitText(Send(a, Select(index, a.comp.cands[index], purpose), NoHandler), ic, text, Choice(a.comp, index)), e)
  {
    hide CommitText, Send;
    var c := Select(index, a.comp.cands[index], purpose);
    SendIsWritten(a, c, NoHandler);
    ChoiceIsHeld(a, e, index);
    PlumbingOfSelect(a, e, index, purpose, NoHandler);
    WordsSnoc(a.out, Commit(ic, text, Choice(a.comp, index)));
    CommitTextKeeps(Send(a, c, NoHandler), e, ic, text, Choice(a.comp, index));
  }

  /** A prefix selection leaves behind the pipe the letters the addon keeps, or is lost. */
  lemma PrefixMirrors(s: Session, d: D.State, c: Cmd, buf: string)
    requires Mirrors(s, buf) && c.Select? && c.purpose.Prefix? && c.index < |d.cache|
    requires 0 < d.cache[c.index].cover < |buf|
    ensures Mirrors(After(s, d, c), buf[d.cache[c.index].cover..])
    ensures !s.lost && |buf| < D.SENT_SIZE && d.spans && d.cache[c.index].id.Some? ==> !After(s, d, c).lost
  {
  }

  lemma CommitPrefixKeeps(a: State, e: Env, ic: Ic, index: nat)
    requires Inv(a, e) && Sound(a) && a.comp.current && index < |a.comp.cands| && KeepsRest(a.comp, index)
    ensures Inv(CommitCandidate(a, ic, index), e)
  {
    hide Send, UpdateUI, Words, Choice, After, Inv, Sound;
    var text, cover := a.comp.cands[index], CoverAt(a.comp, index);
    var c := Select(index, text, Prefix(cover));
    var s := a.(out := a.out + [Commit(ic, text, Choice(a.comp, index))],
                comp := a.comp.(buf := a.comp.buf[cover..], cands := [], covers := [], current := false,
                                revision := a.comp.revision + 1,
                                consumed := a.comp.consumed + a.comp.buf[..cover]),
                page := a.page.(start := 0, selected := 0));
    PrefixWritten(a, e, ic, index, s);
    InvIgnoresDisplay(Send(s, c, HandlerNow(s)), UpdateUI(Send(s, c, HandlerNow(s))), e);
  }

  lemma PrefixWritten(a: State, e: Env, ic: Ic, index: nat, s: State)
    requires Inv(a, e) && Sound(a) && a.comp.current && index < |a.comp.cands| && KeepsRest(a.comp, index)
    requires s.link == a.link && s.comp.revision == a.comp.revision + 1 && !s.comp.current
    requires s.comp.buf == a.comp.buf[CoverAt(a.comp, index)..]
    requires s.out == a.out + [Commit(ic, a.comp.cands[index], Choice(a.comp, index))]
    ensures Inv(Send(s, Select(index, a.comp.cands[index], Prefix(CoverAt(a.comp, index))), HandlerNow(s)), e)
  {
    hide Send, Words, Choice, After, Plumbing, Sound, Mirrors;
    ChoiceIsHeld(a, e, index);
    var c := Select(index, a.comp.cands[index], Prefix(CoverAt(a.comp, index)));
    var r := Written(s, c, HandlerNow(s));
    assert Send(s, c, HandlerNow(s)) == r by { AliveOf(a, e); SendIsWritten(s, c, HandlerNow(s)); }
    assert Plumbing(r, e) by { PrefixPlumbing(a, e, index, s); }
    WordsSnoc(a.out, Commit(ic, a.comp.cands[index], Choice(a.comp, index)));
    DrainedSnoc(Session(e.d.sent, e.d.known, e.lost), e.d, [], c);
    PrefixMirrors(Session(e.d.sent, e.d.known, e.lost), e.d, c, a.comp.buf);
    assert r.link.wire == [c] && r.link.handlers == [HandlerNow(s)];
  }

  lemma AliveOf(a: State, e: Env)
    requires Plumbing(a, e)
    ensures Alive(a.link)
  {
  }

  lemma PrefixPlumbing(a: State, e: Env, index: nat, s: State)
    requires Inv(a, e) && Sound(a) && a.comp.current && index < |a.comp.cands| && KeepsRest(a.comp, index)
    requires s.link == a.link && s.comp.revision == a.comp.revision + 1 && s.comp.buf != ""
    ensures Plumbing(Written(s, Select(index, a.comp.cands[index], Prefix(CoverAt(a.comp, index))), HandlerNow(s)), e)
  {
    ChoiceIsHeld(a, e, index);
  }

  lemma CommitCandidateKeeps(a: State, e: Env, ic: Ic, index: int)
    requires Inv(a, e) && Sound(a)
    ensures Inv(CommitCandidate(a, ic, index), e)
  {
    hide CommitText, Send, UpdateUI;
    if a.comp.current && 0 <= index < |a.comp.cands| {
      if KeepsRest(a.comp, index) {
        CommitPrefixKeeps(a, e, ic, index);
      } else {
        CommitWholeKeeps(a, e, ic, index, Whole, a.comp.cands[index]);
      }
    }
  }

  lemma {:induction false} WordsIgnoreForwards(out: seq<Output>, more: seq<Output>)
    requires forall k :: 0 <= k < |more| ==> more[k].Forward?
    ensures Words(out + more) == Words(out)
    decreases |more|
  {
    if more == [] {
      assert out + more == out;
    } else {
      var n := |more| - 1;
      assert (out + more)[..|out + more| - 1] == out + more[..n];
      WordsIgnoreForwards(out, more[..n]);
    }
  }

  lemma ReleasesForward(ic: Ic, q: seq<Queued>)
    ensures forall k :: 0 <= k < |Releases(ic, q)| ==> Releases(ic, q)[k].Forward?
  {
  }

  lemma ForwardKeeps(a: State, e: Env, more: seq<Output>)
    requires Inv(a, e) && forall k :: 0 <= k < |more| ==> more[k].Forward?
    ensures Inv(a.(out := a.out + more), e)
  {
    hide Words, Plumbing, Drained;
    PlumbingIgnoresDisplay(a, a.(out := a.out + more), e);
    WordsIgnoreForwards(a.out, more);
  }

  lemma FallbackKeeps(a: State, e: Env, ic: Ic)
    requires Plumbing(a, e) && Told(a.link.wire, a.out, e)
    ensures Inv(Fallback(a, ic), e)
  {
    hide CommitText, Plumbing, Drained, Words, Releases, PendingRaw, OnlyLast, InStep;
    var s := a.(defer := Disarm(a.defer).(queued := [], fates := a.defer.fates + FlushFates(a.defer.queued)));
    assert Plumbing(s, e) by { PlumbingIgnoresDisplay(a, s, e); }
    var raw, why := PendingRaw(a.comp, a.defer), Raw(a.comp.buf, a.defer.pending, a.defer.queued);
    TextKeeps(s, e, ic, raw, why);
    ReleasesForward(ic, a.defer.queued);
    ForwardKeeps(CommitText(s, ic, raw, why), e, Releases(ic, a.defer.queued));
  }

  lemma PlumbingIgnoresDisplay(a: State, b: State, e: Env)
    requires Plumbing(a, e) && b.comp == a.comp && SamePipes(a.link, b.link)
    ensures Plumbing(b, e)
  {
  }

  lemma ArmKeeps(a: State, e: Env, ic: Ic)
    requires Inv(a, e)
    ensures Inv(Arm(a, ic), e)
  {
    hide Plumbing, Drained, Words, UpdateUI, Fallback;
    var armed := UpdateUI(a.(defer := a.defer.(pending := true, timer := Some(Timer(ic, a.comp.epoch)))));
    InvIgnoresDisplay(a, armed, e);
    FallbackKeeps(armed, e, ic);
  }

  /** Backspace in the pinyin: C, then what is left is sent again. */
  lemma ReplayKeeps(a: State, e: Env, b: State)
    requires Plumbing(a, e) && Told(a.link.wire, a.out, e)
    requires b == Send(a.(comp := b.comp), Clear, NoHandler) && b.comp.revision == a.comp.revision + 1
    requires !b.comp.current && Letters(b.comp.buf)
    ensures b.comp.buf == "" ==> Inv(b, e)
    ensures b.comp.buf != "" ==> Inv(Request(b, b.comp.buf), e)
    ensures Plumbing(b, e) && Told(b.link.wire, b.out, e)
  {
    hide Send, Request, Plumbing, Drained, Words, Inv, Quiet, SelectTexts, Mirrors;
    var s := a.(comp := b.comp);
    BumpQuiets(a, s, e);
    ClearResets(s, e);
    EmptyMirror();
    if b.comp.buf == "" {
      QuietIsGood(b, e);
    } else {
      assert b.comp.buf == "" + b.comp.buf;
      RequestExtends(b, e, "", b.comp.buf);
    }
  }

  /** Behind a C and with no pinyin there is nothing to be out of step. */
  lemma QuietIsGood(a: State, e: Env)
    requires Plumbing(a, e) && Quiet(a.link.handlers, a.comp.revision) && !a.comp.current && Told(a.link.wire, a.out, e)
    requires SessionAhead(a, e) == Session("", true, false) && a.comp.buf == ""
    ensures Inv(a, e)
  {
    hide Plumbing, Told, Drained;
  }

  lemma PendingBackspaceKeeps(a: State, e: Env, ic: Ic)
    requires Inv(a, e) && Sound(a)
    ensures Inv(PendingBackspace(a, ic).st, e)
  {
    hide Send, Request, Plumbing, Drained, Words, UpdateUI, Fallback, LastPress, DropLastPress, OnlyLast, InStep, Mirrors;
    if LastPress(a.defer.queued) < |a.defer.queued| {
      InvIgnoresDisplay(a, UpdateUI(a.(defer := DropLastPress(a.defer))), e);
    } else {
      var buf := DropLast(a.comp.buf);
      var s := Send(a.(comp := a.comp.(buf := buf, revision := a.comp.revision + 1, current := false,
                                       cands := [], covers := [], typed := DropLast(a.comp.typed), typists := DropLast(a.comp.typists))),
                    Clear, NoHandler);
      ReplayKeeps(a, e, s);
      if buf == "" {
        FallbackKeeps(s, e, ic);
      } else {
        InvIgnoresDisplay(Request(s, buf), UpdateUI(Request(s, buf)), e);
      }
    }
  }

  lemma PendingKeyKeeps(a: State, e: Env, ic: Ic, ev: Event)
    requires Inv(a, e) && Sound(a)
    ensures Inv(PendingKey(a, ic, ev).st, e)
  {
    hide Plumbing, Drained, Words, UpdateUI, Fallback, ClearAll, PendingBackspace, Sound, OnlyLast, InStep, Mirrors, Enqueue;
    var s := a.(defer := Enqueue(a.defer, ic, ev));
    InvIgnoresDisplay(a, s, e);
    InvIgnoresDisplay(s, UpdateUI(s), e);
    FallbackKeeps(s, e, ic);
    FallbackKeeps(a, e, ic);
    ClearAllKeeps(a, e);
    InvIgnoresDisplay(ClearAll(a), UpdateUI(ClearAll(a)), e);
    PendingBackspaceKeeps(a, e, ic);
  }

  lemma LetterKeyKeeps(a: State, e: Env, c: char)
    requires Inv(a, e) && Sound(a) && 'a' <= c <= 'z'
    ensures Inv(LetterKey(a, c), e)
  {
    hide Plumbing, Drained, Words, UpdateUI, Request, Sound, Shown, LinkGoes, StaysGivenUp, Quiet, OnlyLast;
    var s := if a.comp.buf == "" then a.(link := a.link.(recovered := false)) else a;
    AliveOf(a, e);
    assert EnsureEngine(s) == s;
    var t := s.(comp := s.comp.(revision := s.comp.revision + 1, buf := s.comp.buf + [c], current := false,
                                typed := s.comp.typed + [c], typists := s.comp.typists + [s.ic]));
    BumpQuiets(a, t, e);
    PlumbingIgnoresDisplay(t, UpdateUI(t), e);
    RequestExtends(UpdateUI(t), e, a.comp.buf, [c]);
  }

  lemma PunctKeyKeeps(a: State, e: Env, ic: Ic, ev: Event)
    requires Inv(a, e) && Sound(a)
    ensures Inv(PunctKey(a, ic, ev).st, e)
  {
    hide Plumbing, Drained, Words, CommitText, Send, Sound, OnlyLast, InStep, Mirrors;
    if a.comp.buf != "" {
      if Selectable(a) && 0 <= a.page.selected < |a.comp.cands| {
        CommitWholeKeeps(a, e, ic, a.page.selected, Punctuated(KeepsRest(a.comp, a.page.selected)),
                         a.comp.cands[a.page.selected] + ev.punct);
      } else {
        TextKeeps(a, e, ic, a.comp.buf + ev.punct, Literal);
      }
    } else {
      TextOutputKeeps(a, e, ic, ev.punct, Literal);
    }
  }

  /** Text committed outside a composition, or before it is cleared. */
  lemma TextOutputKeeps(a: State, e: Env, ic: Ic, text: string, why: Reason)
    requires Inv(a, e) && !why.Chosen?
    ensures Inv(a.(out := a.out + [Commit(ic, text, why)]), e)
  {
    hide Plumbing, Drained, Words;
    PlumbingIgnoresDisplay(a, a.(out := a.out + [Commit(ic, text, why)]), e);
    WordsSnoc(a.out, Commit(ic, text, why));
  }

  lemma DigitKeyKeeps(a: State, e: Env, ic: Ic, sym: nat)
    requires Inv(a, e) && Sound(a) && IsDigitKey(sym)
    ensures Inv(DigitKey(a, ic, sym).st, e)
  {
    hide Inv, CommitCandidate;
    CommitCandidateKeeps(a, e, ic, a.page.start + if sym == 0x30 then 9 else sym - 0x31);
  }

  lemma BackspaceKeyKeeps(a: State, e: Env)
    requires Inv(a, e) && Sound(a)
    ensures Inv(BackspaceKey(a), e)
  {
    hide Send, Request, Plumbing, Drained, Words, UpdateUI, OnlyLast, Mirrors;
    var buf := DropLast(a.comp.buf);
    var s := Send(a.(comp := a.comp.(buf := buf, revision := a.comp.revision + 1, current := false,
                                     typed := DropLast(a.comp.typed), typists := DropLast(a.comp.typists))),
                  Clear, NoHandler);
    ReplayKeeps(a, e, s);
    if buf == "" {
      var t := s.(comp := s.comp.(cands := [], covers := []), page := s.page.(start := 0, selected := 0));
      assert Inv(t, e) by { InvForgetsCandidates(s, t, e); }
      InvIgnoresDisplay(t, UpdateUI(t), e);
    } else {
      InvIgnoresDisplay(Request(s, buf), UpdateUI(Request(s, buf)), e);
    }
  }

  lemma InvForgetsCandidates(a: State, b: State, e: Env)
    requires Inv(a, e) && b.comp == a.comp.(cands := [], covers := []) && b.link == a.link && b.out == a.out
    ensures Inv(b, e)
  {
  }

  lemma IdleKeyKeeps(a: State, e: Env, ic: Ic, ev: Event)
    requires Inv(a, e) && Sound(a)
    ensures Inv(IdleKey(a, ic, ev).st, e)
  {
    hide Inv, Sound, UpdateUI, LetterKey, PunctKey, DigitKey, BackspaceKey, CommitCandidate, Arm, CommitText, ClearAll,
      ArrowMove, PageBack, PageForward, MustRedraw, LinkGoes, QueueMoves, Shown, Kept;
    var s := if MustRedraw(a) then UpdateUI(a) else a;
    assert Inv(s, e) && Sound(s) by { RedrawKeepsAll(a, e); }
    if IsLower(ev.sym) || IsUpper(ev.sym) {
      LetterKeyKeeps(s, e, LetterOf(ev.sym));
      if s.comp.buf == "" && IsUpper(ev.sym) {
        TextOutputKeeps(s, e, ic, [ev.sym as char], Literal);
      }
    } else {
      PagingKeysKeep(s, e, ev.sym);
      if Owned(ev.sym) {
        PunctKeyKeeps(s, e, ic, ev);
      } else if IsDigitKey(ev.sym) {
        DigitKeyKeeps(s, e, ic, ev.sym);
      } else {
        EndKeysKeep(s, e, ic);
      }
    }
  }

  lemma RedrawKeepsAll(a: State, e: Env)
    requires Inv(a, e) && Sound(a)
    ensures Inv(UpdateUI(a), e) && Sound(UpdateUI(a))
  {
    KeptOnDisplay(a, UpdateUI(a), e);
  }

  lemma PagingKeysKeep(a: State, e: Env, sym: nat)
    requires Inv(a, e)
    ensures Inv(UpdateUI(a.(page := ArrowMove(a.page, sym, PageSize(a.config), |a.comp.cands|))), e)
    ensures Inv(UpdateUI(a.(page := PageBack(a.page, PageSize(a.config)))), e)
    ensures Inv(UpdateUI(a.(page := PageForward(a.page, PageSize(a.config)))), e)
  {
    hide Inv;
    RedrawKeeps(a, e, ArrowMove(a.page, sym, PageSize(a.config), |a.comp.cands|));
    RedrawKeeps(a, e, PageBack(a.page, PageSize(a.config)));
    RedrawKeeps(a, e, PageForward(a.page, PageSize(a.config)));
  }

  lemma KeptOnDisplay(a: State, b: State, e: Env)
    requires Inv(a, e) && Sound(a) && b.comp == a.comp && b.link == a.link && b.out == a.out
    ensures Inv(b, e) && Sound(b)
  {
    InvIgnoresDisplay(a, b, e);
  }

  lemma RedrawKeeps(a: State, e: Env, page: Page)
    requires Inv(a, e)
    ensures Inv(UpdateUI(a.(page := page)), e)
  {
    InvIgnoresDisplay(a, UpdateUI(a.(page := page)), e);
  }

  lemma EndKeysKeep(a: State, e: Env, ic: Ic)
    requires Inv(a, e) && Sound(a)
    ensures Inv(CommitCandidate(a, ic, a.page.selected), e) && Inv(Arm(a, ic), e)
    ensures Inv(CommitText(a, ic, a.comp.buf, Literal), e)
    ensures Inv(BackspaceKey(a), e) && Inv(UpdateUI(ClearAll(a)), e)
  {
    hide Plumbing, OnlyLast, InStep, Mirrors, Words, Drained, Sound, CommitCandidate, Arm, CommitText, BackspaceKey, ClearAll, UpdateUI;
    CommitCandidateKeeps(a, e, ic, a.page.selected);
    ArmKeeps(a, e, ic);
    TextKeeps(a, e, ic, a.comp.buf, Literal);
    BackspaceKeyKeeps(a, e);
    ClearAllKeeps(a, e);
    InvIgnoresDisplay(ClearAll(a), UpdateUI(ClearAll(a)), e);
  }

  lemma ProcessKeyKeeps(a: State, e: Env, ic: Ic, ev: Event)
    requires Inv(a, e) && Sound(a)
    ensures Inv(ProcessKey(a, ic, ev).st, e)
  {
    hide Plumbing, OnlyLast, InStep, Mirrors, Words, Drained, Sound, IdleKey, PendingKey, ClearAll;
    ClearAllKeeps(a, e);
    var s := Focus(a, ic);
    assert Sound(s) && Inv(s, e) by {
      ClearAllIsSound(a);
      KeptOnDisplay(if a.ic == Some(ic) then a else ClearAll(a), s, e);
    }
    if s.defer.pending {
      PendingKeyKeeps(s, e, ic, ev);
    } else {
      IdleKeyKeeps(s, e, ic, ev);
    }
  }

  lemma {:induction false} DrainKeeps(a: State, e: Env, ic: Ic)
    requires Inv(a, e) && Sound(a) && a.ic == Some(ic) && OwnedBy(a.defer.queued, ic)
    ensures Inv(Drain(a, ic), e)
    decreases |a.defer.queued|
  {
    if !a.defer.pending && a.defer.queued != [] {
      hide Inv, Sound, ProcessKey;
      var q := a.defer.queued[0];
      var popped := a.(defer := a.defer.(queued := a.defer.queued[1..]));
      KeptOnDisplay(a, popped, e);
      ProcessKeyKeeps(popped, e, ic, q.event);
      DrainOneIsSound(popped, ic, q.event);
      var r := ProcessKey(popped, ic, q.event);
      var out := if r.accepted then r.st.out
                 else r.st.out + [Forward(ic, q.event.raw, q.event.release, q.event.time)];
      var forwarded := r.st.(out := out);
      assert Inv(forwarded, e) && Sound(forwarded) by {
        if !r.accepted {
          ForwardKeeps(r.st, e, [Forward(ic, q.event.raw, q.event.release, q.event.time)]);
        }
        ForwardIsSound(r.st, forwarded);
      }
      var s := forwarded.(defer := r.st.defer.(fates := r.st.defer.fates + [Processed(q, r.accepted)]));
      KeptOnDisplay(forwarded, s, e);
      DrainKeeps(s, e, ic);
    }
  }

  lemma ForwardIsSound(a: State, b: State)
    requires Sound(a) && b == a.(out := b.out)
    requires b.out == a.out || (|b.out| == |a.out| + 1 && a.out <= b.out && b.out[|a.out|].Forward?)
    ensures Sound(b)
  {
  }

  // ---------------------------------------------------------------- a delivered line

  lemma UnexpectedKeeps(a: State, e: Env, ic: Ic)
    requires Inv(a, e) && Sound(a) && a.comp.buf != "" && !a.comp.current
    requires Quiet(a.link.handlers, a.comp.revision)
    ensures Inv(Unexpected(a, ic), e)
  {
    hide Send, Request, Plumbing, Drained, Words, Fallback, OnlyLast, InStep, Mirrors, Quiet;
    if a.link.recovered {
      FallbackKeeps(a, e, ic);
    } else {
      var s := a.(link := a.link.(recovered := true));
      PlumbingIgnoresDisplay(a, s, e);
      ClearResets(s, e);
      assert SessionAhead(Send(s, Clear, NoHandler), e) == Session("", true, false);
      assert Mirrors(SessionAhead(Send(s, Clear, NoHandler), e), "") by { EmptyMirror(); }
      assert "" + a.comp.buf == a.comp.buf;
      assert Letters(a.comp.buf) by { LettersOf(a); }
      RequestExtends(Send(s, Clear, NoHandler), e, "", a.comp.buf);
    }
  }

  lemma EmptyMirror()
    ensures Mirrors(Session("", true, false), "")
  {
  }

  lemma LettersOf(a: State)
    requires Sound(a)
    ensures Letters(a.comp.buf)
  {
  }

  /** A candidate line for the present pinyin, delivered last, is the daemon's cache. */
  lemma ShowCandidatesKeeps(a: State, e: Env, h: Handler, line: string)
    requires Inv(a, e)
    requires IsCurrent(a, h) ==> a.link.handlers == [] && a.link.spans && e.d.spans && (e.sure ==> |a.comp.buf| < D.SENT_SIZE)
    requires IsCurrent(a, h) && IsCandLine(line) ==> e.d.cache != [] && line == PrintCands(true, D.Entries(e.d.cache))
    ensures Inv(ShowCandidates(a, h, line), e)
  {
    hide Plumbing, Drained, Words, UpdateUI;
    var es := Parsed(a.link.spans, line);
    var s := a.(comp := a.comp.(cands := Texts(es), covers := Covers(es), current := IsCurrent(a, h),
                                source := Some(Source(h, line, a.link.spans))),
                page := a.page.(start := 0, selected := 0));
    if IsCurrent(a, h) && IsCandLine(line) {
      CleanCache(a, e);
      CandRoundTrip(true, D.Entries(e.d.cache));
      assert VisibleAll(true, D.Entries(e.d.cache)) == D.Entries(e.d.cache);
    }
    PlumbingIgnoresSource(a, s, e);
    InvIgnoresDisplay(s, UpdateUI(s), e);
  }

  lemma CleanCache(a: State, e: Env)
    requires Plumbing(a, e)
    ensures CleanEntries(D.Entries(e.d.cache))
  {
  }

  lemma PlumbingIgnoresSource(a: State, b: State, e: Env)
    requires Plumbing(a, e) && b.comp.revision == a.comp.revision && b.link == a.link
    ensures Plumbing(b, e)
  {
  }

  lemma TakePendingKeeps(a: State, e: Env, ic: Ic)
    requires Inv(a, e) && Sound(a) && a.ic == Some(ic) && OwnedBy(a.defer.queued, ic)
    ensures Inv(TakePending(a, ic), e)
  {
    hide Plumbing, OnlyLast, InStep, Mirrors, Words, Drained, Sound, CommitCandidate, Fallback, Drain;
    if a.comp.cands == [] {
      FallbackKeeps(a, e, ic);
    } else {
      var s := a.(defer := Disarm(a.defer));
      KeptOnDisplay(a, s, e);
      CommitCandidateKeeps(s, e, ic, s.page.selected);
      CommitCandidateIsSound(s, ic, s.page.selected);
      DrainKeeps(CommitCandidate(s, ic, s.page.selected), e, ic);
    }
  }

  /** The head of the handlers is called with the first reply under way. */
  function Popped(a: State): State
    requires a.link.handlers != []
  {
    a.(link := a.link.(handlers := a.link.handlers[1..],
                       spans := if a.link.handlers[0].OptHandler? then true else a.link.spans))
  }

  function Tail(e: Env): Env
    requires e.replies != []
  {
    e.(replies := e.replies[1..])
  }

  lemma PoppedKeeps(a: State, e: Env)
    requires Inv(a, e) && e.replies != []
    ensures a.link.handlers != [] && !a.comp.current && Inv(Popped(a), Tail(e))
    ensures a.link.handlers[0].OptHandler? ==> e.replies[0] == "OK"
  {
    hide Drained, Words, PrintCands, CleanEntries, D.Entries, IsCandLine, Mirrors, Letters;
  }

  /** A handler for the present pinyin has the last reply of all, and it is the daemon's cache. */
  lemma CurrentIsLast(a: State, e: Env)
    requires Inv(a, e) && e.replies != []
    requires a.link.handlers != [] && IsCurrent(a, a.link.handlers[0])
    ensures Popped(a).link.handlers == [] && a.link.spans && e.d.spans && a.comp.buf != ""
    ensures IsCandLine(e.replies[0]) ==> e.d.cache != [] && e.replies[0] == PrintCands(true, D.Entries(e.d.cache))
  {
    hide Drained, Words;
  }

  lemma OnReplyKeeps(a: State, e: Env)
    requires Inv(a, e) && Sound(a) && e.replies != [] && a.link.handlers != []
    requires (e.sure ==> |a.comp.buf| < D.SENT_SIZE) && Waiting(a)
    ensures Inv(OnReply(a.(link := a.link.(handlers := a.link.handlers[1..])), a.link.handlers[0], e.replies[0]), Tail(e))
  {
    hide Plumbing, OnlyLast, InStep, Mirrors, Words, Drained, Sound, Unexpected, ShowCandidates, TakePending, IsCandLine;
    PoppedKeeps(a, e);
    var h, line, b := a.link.handlers[0], e.replies[0], Popped(a);
    if h.CandHandler? && line != "SKIP" && (IsCurrent(b, h) || IsPreview(b, h, line)) {
      assert Sound(b) by { AliveOf(a, e); SoundIgnoresLink(a, b); }
      if IsCurrent(b, h) {
        CurrentIsLast(a, e);
      }
      if line != "EMPTY" && !IsCandLine(line) {
        UnexpectedKeeps(b, Tail(e), b.ic.value);
      } else {
        ShowCandidatesKeeps(b, Tail(e), h, line);
        ShowCandidatesIsSound(b, h, line);
        if IsCurrent(b, h) && b.defer.pending {
          TakePendingKeeps(ShowCandidates(b, h, line), Tail(e), b.ic.value);
        }
      }
    }
  }

  lemma SoundIgnoresLink(a: State, b: State)
    requires Sound(a) && a.link.handlers != [] && b == Popped(a)
    requires a.link.alive
    ensures Sound(b)
  {
  }

  // ---------------------------------------------------------------- a command served

  /** Sessions that no later command can tell apart. */
  predicate Same(s: Session, t: Session) {
    s.known == t.known && s.lost == t.lost && (s.known ==> s.sent == t.sent)
  }

  lemma {:induction false} DrainedSame(s: Session, t: Session, d: D.State, wire: seq<Cmd>)
    requires Same(s, t)
    ensures Same(Drained(s, d, wire), Drained(t, d, wire))
    decreases |wire|
  {
    if wire != [] {
      DrainedSame(s, t, d, wire[..|wire| - 1]);
    }
  }

  lemma {:induction false} DrainedSplits(s: Session, d: D.State, v: seq<Cmd>, w: seq<Cmd>)
    ensures Drained(s, d, v + w) == Drained(Drained(s, d, v), d, w)
    decreases |w|
  {
    if w == [] {
      assert v + w == v;
    } else {
      var n := |w| - 1;
      assert (v + w)[..|v + w| - 1] == v + w[..n];
      DrainedSplits(s, d, v, w[..n]);
    }
  }

  lemma {:induction false} DrainedIgnoresDaemon(s: Session, d: D.State, d': D.State, wire: seq<Cmd>)
    requires forall k :: 0 <= k < |wire| ==> !wire[k].Select?
    ensures Drained(s, d, wire) == Drained(s, d', wire)
    decreases |wire|
  {
    if wire != [] {
      DrainedIgnoresDaemon(s, d, d', wire[..|wire| - 1]);
    }
  }

  function Fed(s: Session, keys: string): Session {
    if s.known && |s.sent| + |keys| < D.SENT_SIZE then s.(sent := s.sent + keys) else s.(known := false)
  }

  lemma {:induction false} BatchesAhead(s: Session, d: D.State, cs: seq<Cmd>)
    requires forall k :: 0 <= k < |cs| ==> cs[k].Batch?
    requires s.known ==> |s.sent| < D.SENT_SIZE
    ensures Same(Drained(s, d, cs), Fed(s, D.Flat(Payloads(cs))))
    decreases |cs|
  {
    if cs == [] {
      assert s.sent + "" == s.sent;
    } else {
      var n := |cs| - 1;
      BatchesAhead(s, d, cs[..n]);
      assert Payloads(cs) == Payloads(cs[..n]) + [Payload(cs[n])];
      D.FlatSnoc(Payloads(cs[..n]), Payload(cs[n]));
      assert s.sent + D.Flat(Payloads(cs[..n])) + Payload(cs[n]) == s.sent + D.Flat(Payloads(cs));
    }
  }

  lemma DeliveredLength(keys: string)
    ensures |Delivered(keys)| <= LINE_KEEP - 2
  {
  }

  lemma RenderedSelectFits(c: Cmd)
    requires c.Select? && c.index <= D.MAX_CAND
    ensures |Render(c)| <= LINE_KEEP
  {
    if c.index >= 10 {
      assert |PrintNat(c.index / 10)| == 1;
    }
  }

  /** The daemon reads the head of the wire as it was meant. */
  lemma HeadIsRead(a: State, e: Env)
    requires Inv(a, e) && a.link.wire != []
    ensures Dispatch(Cut(Render(a.link.wire[0]))) == Meaning(a.link.wire[0])
  {
    var c := a.link.wire[0];
    if c.Select? {
      RenderedSelectFits(c);
    }
    DispatchOfRendered(c);
  }

  /** The joint state after a command, as the addon's side of the pipes sees it. */
  function Served(e: Env, c: Cmd, a: D.Answer): Env {
    Env(a.d, e.replies + a.replies,
        if c.Clear? then false else if c.Select? then e.lost || !Agrees(e.d, c) else e.lost,
        if c.Select? && c.index < |e.d.cache| then e.learned + [e.d.cache[c.index].text] else e.learned, e.ready, e.sure)
  }

  function Shortened(a: State, n: nat): State
    requires n <= |a.link.wire|
  {
    a.(link := a.link.(wire := a.link.wire[n..]))
  }

  /** A merged run feeds the session as its batches would one by one. */
  lemma RunServes(e: Env, wire: seq<Cmd>, n: nat, found: Option<seq<D.Cand>>)
    requires MayMerge(wire, n) && wire[0].Batch? && (e.d.known ==> |e.d.sent| < D.SENT_SIZE)
    ensures var keys := D.Merge(Payload(wire[0]), Payloads(wire[1..n + 1])).keys;
            var d := D.Batch(e.d, keys, n, found).d;
            Same(Session(d.sent, d.known, e.lost), Drained(Session(e.d.sent, e.d.known, e.lost), e.d, wire[..n + 1]))
  {
    var s := Session(e.d.sent, e.d.known, e.lost);
    var head, rest, batches := Payload(wire[0]), Payloads(wire[1..n + 1]), wire[..n + 1];
    assert Payloads(batches) == [head] + rest && Payloads(batches)[1..] == rest;
    DeliveredLength(wire[0].keys);
    D.MergeKeepsAllOrFills(head, rest);
    assert rest[..n] == rest;
    assert D.Flat(Payloads(batches)) == head + D.Flat(rest);
    BatchesAhead(s, e.d, batches);
    FeedAllIsFed(e.d, D.Merge(head, rest).keys, D.Flat(Payloads(batches)), e.lost);
  }

  lemma FeedAllIsFed(d: D.State, keys: string, all: string, lost: bool)
    requires d.known ==> |d.sent| < D.SENT_SIZE
    requires keys == all || (|keys| == D.KEYS_SIZE - 1 && |all| >= D.KEYS_SIZE - 1)
    ensures var r := D.FeedAll(d, keys);
            Same(Session(r.sent, r.known, lost), Fed(Session(d.sent, d.known, lost), all))
  {
    D.FeedAllSent(d, keys);
  }

  /** What one command does to the session is what was foreseen while it was in the pipe. */
  lemma ServesAsForeseen(a: State, e: Env, n: nat, found: Option<seq<D.Cand>>)
    requires Inv(a, e) && MayMerge(a.link.wire, n) && Fetchable(found)
    ensures var f := Served(e, a.link.wire[0], D.Handle(e.d, OrderAt(a.link.wire, n), n, found));
            Same(Session(f.d.sent, f.d.known, f.lost),
                 Drained(Session(e.d.sent, e.d.known, e.lost), e.d, a.link.wire[..n + 1]))
  {
    hide InStep, OnlyLast, Mirrors, Words, Render, Dispatch, Cut, D.Merge;
    HeadIsRead(a, e);
    var c := a.link.wire[0];
    if c.Batch? {
      RunServes(e, a.link.wire, n, found);
    } else {
      NoMergeOf(a.link.wire, n);
      assert a.link.wire[..1] == [c] && a.link.wire[..1][..0] == [];
      OneServes(e, c, found);
    }
  }

  lemma NoMergeOf(wire: seq<Cmd>, n: nat)
    requires MayMerge(wire, n) && !wire[0].Batch?
    ensures n == 0
  {
  }

  lemma OneServes(e: Env, c: Cmd, found: Option<seq<D.Cand>>)
    requires !c.Batch?
    ensures var f := Served(e, c, D.Handle(e.d, Meaning(c), 0, found));
            Same(Session(f.d.sent, f.d.known, f.lost), Drained(Session(e.d.sent, e.d.known, e.lost), e.d, [c]))
  {
    var s := Session(e.d.sent, e.d.known, e.lost);
    assert [c][..0] == [];
    assert Drained(s, e.d, [c]) == After(Drained(s, e.d, []), e.d, c);
  }

  lemma ReplyCounts(a: State, e: Env, n: nat, found: Option<seq<D.Cand>>)
    requires Inv(a, e) && MayMerge(a.link.wire, n) && Fetchable(found)
    ensures var rs := D.Handle(e.d, OrderAt(a.link.wire, n), n, found).replies;
            |rs| == n + 1 && forall k :: 0 <= k < |rs| ==> rs[k] != ""
  {
    hide InStep, OnlyLast, Mirrors, Words, Render, Dispatch, Cut, D.Merge, D.Handle;
    HeadIsRead(a, e);
    D.OneReplyEach(e.d, OrderAt(a.link.wire, n), n, found);
  }

  /** The last candidate line tells the cache. */
  predicate Tells(a: D.Answer) {
    a.replies != [] && IsCandLine(a.replies[|a.replies| - 1]) ==>
      a.d.cache != [] && a.replies[|a.replies| - 1] == PrintCands(a.d.spans, D.Entries(a.d.cache))
  }

  lemma ReplyTells(d: D.State, found: Option<seq<D.Cand>>)
    requires Within(d) && Fetchable(found)
    ensures Within(D.Reply(d, found).d) && Tells(D.Reply(d, found)) && D.Reply(d, found).d.spans == d.spans
  {
    SkipsAreNotCands();
  }

  lemma KeysTell(d: D.State, keys: string, n: nat, found: Option<seq<D.Cand>>)
    requires Within(d) && Fetchable(found)
    ensures Within(D.Batch(d, keys, n, found).d) && Tells(D.Batch(d, keys, n, found)) && D.Batch(d, keys, n, found).d.spans == d.spans
  {
    hide D.Reply, D.FeedAll, CleanEntries, IsCandLine, PrintCands;
    SkipsAreNotCands();
    D.FeedAllSent(d, keys);
    ReplyTells(D.FeedAll(d, keys), found);
  }

  lemma SelectTells(d: D.State, rank: int, found: Option<seq<D.Cand>>)
    requires Within(d) && Fetchable(found)
    ensures Within(D.Select(d, rank, found).d) && Tells(D.Select(d, rank, found)) && D.Select(d, rank, found).d.spans == d.spans
  {
    hide D.Reply, CleanEntries, IsCandLine, PrintCands;
    SkipsAreNotCands();
    if D.Choosable(d, rank) && D.IsPartial(d, rank) {
      var c := d.cache[rank];
      ReplyTells(d.(calls := d.calls + [D.Learn(c.text, c.id.value, c.cover)], sent := d.sent[c.cover..]), found);
    }
  }

  /** After a command the daemon is within its bounds and its last candidate line tells its cache. */
  lemma ServedDaemonOk(a: State, e: Env, n: nat, found: Option<seq<D.Cand>>)
    requires Inv(a, e) && MayMerge(a.link.wire, n) && Fetchable(found)
    ensures var f := D.Handle(e.d, OrderAt(a.link.wire, n), n, found);
            && Within(f.d) && Tells(f) && f.d.spans == (e.d.spans || a.link.wire[0].OptSpans?)
            && (a.link.wire[0].OptSpans? ==> f.replies == ["OK"])
  {
    hide InStep, OnlyLast, Mirrors, Words, Render, Dispatch, Cut, D.Merge, Drained, D.Batch, D.Select, PrintCands, IsCandLine;
    HeadIsRead(a, e);
    SkipsAreNotCands();
    match OrderAt(a.link.wire, n)
    case Keys(_, keys) => KeysTell(e.d, keys, n, found);
    case Choose(rank) => SelectTells(e.d, rank, found);
    case _ => NothingCached();
  }

  lemma NothingCached()
    ensures CleanEntries(D.Entries([]))
  {
  }

  lemma SkipsAreNotCands()
    ensures !IsCandLine("EMPTY") && !IsCandLine("OK") && !IsCandLine("ERR") && !IsCandLine("SKIP")
  {
    assert "EMPTY"[..5][0] != "CAND\t"[0];
  }

  lemma ServeKeeps(a: State, e: Env, n: nat, found: Option<seq<D.Cand>>)
    requires Inv(a, e) && MayMerge(a.link.wire, n) && Fetchable(found)
    requires e.sure ==> HaveIds(D.Handle(e.d, OrderAt(a.link.wire, n), n, found).d.cache)
    ensures Inv(Shortened(a, n + 1), Served(e, a.link.wire[0], D.Handle(e.d, OrderAt(a.link.wire, n), n, found)))
  {
    hide Words, D.Handle, OrderAt, After, MayMerge, Plumbing, Told, Drained;
    assert n < |a.link.wire| by { MergeIsShort(a.link.wire, n); }
    ReplyCounts(a, e, n, found);
    ServedDaemonOk(a, e, n, found);
    ServesAsForeseen(a, e, n, found);
    var answer := D.Handle(e.d, OrderAt(a.link.wire, n), n, found);
    var f := Served(e, a.link.wire[0], answer);
    PipesAfterServe(a, e, n, answer);
    ToldAfterServe(a, e, n, answer);
    MirrorsAfterServe(a, e, n, f);
    SomeoneWaits(a, e);
  }

  lemma SomeoneWaits(a: State, e: Env)
    requires Plumbing(a, e) && a.link.wire != []
    ensures a.link.handlers != []
  {
  }

  /** The pipes after a command whose answer keeps the daemon within its bounds. */
  lemma PipesAfterServe(a: State, e: Env, n: nat, answer: D.Answer)
    requires Plumbing(a, e) && n < |a.link.wire| && |answer.replies| == n + 1
    requires forall k :: 0 <= k < n + 1 ==> answer.replies[k] != ""
    requires Within(answer.d) && Tells(answer) && (e.sure ==> HaveIds(answer.d.cache))
    requires answer.d.spans == (e.d.spans || a.link.wire[0].OptSpans?) && (a.link.wire[0].OptSpans? ==> answer.replies == ["OK"])
    ensures Plumbing(Shortened(a, n + 1), Served(e, a.link.wire[0], answer))
  {
    hide Paired, SameMode, SelectsHeld, DaemonOk, Tells, Letters;
    PairedAfterServe(a, e, n, answer);
    ModeAfterServe(a, e, n, answer);
    SelectsAfterServe(a, e, n, answer);
    LastReplyAfterServe(a, e, n, answer);
    ShortenedWire(a, n);
  }

  lemma ShortenedWire(a: State, n: nat)
    requires n < |a.link.wire|
    ensures var r := Shortened(a, n + 1);
            |r.link.wire| == |a.link.wire| - n - 1 && forall k :: 0 <= k < |r.link.wire| ==> r.link.wire[k] == a.link.wire[n + 1 + k]
  {
  }

  lemma PairedAfterServe(a: State, e: Env, n: nat, answer: D.Answer)
    requires Paired(a.link, e) && n < |a.link.wire| && |answer.replies| == n + 1
    requires forall k :: 0 <= k < n + 1 ==> answer.replies[k] != ""
    ensures Paired(Shortened(a, n + 1).link, Served(e, a.link.wire[0], answer))
  {
    ShortenedWire(a, n);
  }

  lemma ModeAfterServe(a: State, e: Env, n: nat, answer: D.Answer)
    requires Paired(a.link, e) && SameMode(a.link, e) && n < |a.link.wire| && |answer.replies| == n + 1
    requires answer.d.spans == (e.d.spans || a.link.wire[0].OptSpans?) && (a.link.wire[0].OptSpans? ==> answer.replies == ["OK"])
    ensures SameMode(Shortened(a, n + 1).link, Served(e, a.link.wire[0], answer))
  {
    ShortenedWire(a, n);
  }

  lemma SelectsAfterServe(a: State, e: Env, n: nat, answer: D.Answer)
    requires SelectsHeld(a.link.wire, e) && n < |a.link.wire|
    ensures SelectsHeld(Shortened(a, n + 1).link.wire, Served(e, a.link.wire[0], answer))
  {
    hide HoldsChoice;
    ShortenedWire(a, n);
  }

  lemma LastReplyAfterServe(a: State, e: Env, n: nat, answer: D.Answer)
    requires n < |a.link.wire| && |answer.replies| == n + 1 && Within(answer.d) && Tells(answer) && (e.sure ==> HaveIds(answer.d.cache))
    ensures DaemonOk(Shortened(a, n + 1).link.wire, Served(e, a.link.wire[0], answer))
  {
    hide Within, HaveIds, IsCandLine, PrintCands, D.Entries;
    var f := Served(e, a.link.wire[0], answer);
    assert f.replies[|f.replies| - 1] == answer.replies[n];
  }

  lemma ToldAfterServe(a: State, e: Env, n: nat, answer: D.Answer)
    requires Plumbing(a, e) && Told(a.link.wire, a.out, e) && n < |a.link.wire|
    ensures Told(a.link.wire[n + 1..], a.out, Served(e, a.link.wire[0], answer))
  {
  }

  lemma MergeIsShort(wire: seq<Cmd>, n: nat)
    requires MayMerge(wire, n)
    ensures n < |wire|
  {
  }

  lemma MirrorsAfterServe(a: State, e: Env, n: nat, f: Env)
    requires Inv(a, e) && n < |a.link.wire|
    requires Same(Session(f.d.sent, f.d.known, f.lost),
                  Drained(Session(e.d.sent, e.d.known, e.lost), e.d, a.link.wire[..n + 1]))
    ensures Mirrors(SessionAhead(Shortened(a, n + 1), f), a.comp.buf)
    ensures e.sure ==> !SessionAhead(Shortened(a, n + 1), f).lost
  {
    hide Words, After, Drained;
    var s, t := Session(e.d.sent, e.d.known, e.lost), Session(f.d.sent, f.d.known, f.lost);
    var front, rest := a.link.wire[..n + 1], a.link.wire[n + 1..];
    assert a.link.wire == front + rest;
    DrainedSplits(s, e.d, front, rest);
    DrainedIgnoresDaemon(Drained(s, e.d, front), e.d, f.d, rest);
    DrainedSame(t, Drained(s, e.d, front), f.d, rest);
  }

  // ---------------------------------------------------------------- whole runs

  /** The replies on their way once READY has been seen. */
  function RepliesComing(p: Pair): seq<string> {
    if p.addon.link.ready then p.inbox else if p.inbox != [] then p.inbox[1..] else []
  }

  function EnvOf(p: Pair, sure: bool): Env { Env(p.daemon, RepliesComing(p), p.lost, p.learned, p.addon.link.ready, sure) }

  /** What a selection needs so as not to be lost: candidates with ids, and pinyin the daemon can hold. */
  predicate Trusty(p: Pair) { HaveIds(p.daemon.cache) && |p.addon.comp.buf| < D.SENT_SIZE }

  /** READY is the first line, and the daemon says it once. */
  predicate Phased(p: Pair) {
    if p.addon.link.ready then p.booted
    else if p.booted then p.inbox != [] && p.inbox[0] == "READY"
    else p.inbox == []
  }

  ghost predicate Good(p: Pair, sure: bool) {
    AtRest(p.addon) && Phased(p) && Inv(p.addon, EnvOf(p, sure))
  }

  lemma BeginIsGood(config: int, sure: bool)
    ensures Good(Begin(config), sure)
  {
    hide AtRest, Init, Inv;
    InitAtRest(config, []);
    InitLink(config);
    BeginInv(Begin(config).addon, sure);
  }

  lemma BeginInv(a: State, sure: bool)
    requires a.comp == Comp("", [], [], false, 0, 0, "", "", [], None) && a.out == []
    requires a.link == Link(true, false, [OptHandler], [OptSpans], 1, false, false, false, false, 1, [])
    ensures Inv(a, Env(D.Start(), [], false, [], false, sure))
  {
    hide IsCandLine, PrintCands, D.Entries, Drained, After;
    var s, d := Session("", true, false), D.Start();
    NothingCached();
    assert [OptSpans][..0] == [];
    assert Drained(s, d, [OptSpans]) == s by { FirstOfPipe(s, d); }
  }

  lemma FirstOfPipe(s: Session, d: D.State)
    ensures Drained(s, d, [OptSpans]) == s
  {
    assert [OptSpans][..0] == [];
    assert Drained(s, d, []) == s;
  }

  lemma InitLink(config: int)
    ensures var a := Init(config, []);
            && a.comp == Comp("", [], [], false, 0, 0, "", "", [], None) && a.out == []
            && a.ic == None && a.defer == Defer(false, None, [], [], [])
            && a.link == Link(true, false, [OptHandler], [OptSpans], 1, false, false, false, false, 1, [])
  {
    hide Lost, Die;
    var l := Link(true, false, [], [], 1, false, false, false, false, 1, []);
    assert Start(Link(false, false, [], [], 0, false, false, false, false, 0, [])) == Drawn(true, l);
    var s := State(Comp("", [], [], false, 0, 0, "", "", [], None), Page(0, 0, 0), Defer(false, None, [], [], []), l,
                   None, config, Panel("", 0, [], 0), []);
    SendIsWritten(s, OptSpans, OptHandler);
    assert Init(config, []) == Send(s, OptSpans, OptHandler);
  }

  lemma ActIsGood(p: Pair, input: Input, sure: bool)
    requires Good(p, sure) && OwnTurn(input)
    ensures Good(Act(p, input), sure)
  {
    hide AtRest, Inv, Sound, ProcessKey, Fallback, CommitCandidate, OnReset, OnDeactivate;
    StepAtRest(p.addon, input, []);
    AtRestIsSound(p.addon);
    var e := EnvOf(p, sure);
    var a := p.addon.(link := p.addon.link.(luck := []));
    assert a == p.addon by { LuckIsSpent(p.addon, e); }
    match input {
      case Key(ic, ev) => ProcessKeyKeeps(a, e, ic, ev);
      case PendingTimer => if a.defer.timer.Some? { FallbackFromInv(a, e, a.defer.timer.value.ic); }
      case Click(ic, index) => CommitCandidateKeeps(a, e, ic, index);
      case Reset(_) => OnResetKeeps(a, e);
      case Deactivate(ic, switching) => OnDeactivateKeeps(a, e, ic, switching);
      case _ => KeptOnDisplay(a, Step(a, input, []), e);
    }
    assert Inv(Act(p, input).addon, e);
    assert AtRest(Act(p, input).addon);
    assert Act(p, input).addon.link.ready == p.addon.link.ready by { ReadyOf(Act(p, input).addon, e); ReadyOf(a, e); }
    assert EnvOf(Act(p, input), sure) == e;
    assert Phased(Act(p, input));
  }

  lemma ReadyOf(a: State, e: Env)
    requires Inv(a, e)
    ensures a.link.ready == e.ready
  {
  }

  lemma LuckIsSpent(a: State, e: Env)
    requires Inv(a, e)
    ensures a.(link := a.link.(luck := [])) == a
  {
  }

  lemma FallbackFromInv(a: State, e: Env, ic: Ic)
    requires Inv(a, e)
    ensures Inv(Fallback(a, ic), e)
  {
    hide Fallback, Plumbing, OnlyLast, InStep, Mirrors, Words, Drained;
    FallbackKeeps(a, e, ic);
  }

  lemma OnResetKeeps(a: State, e: Env)
    requires Inv(a, e)
    ensures Inv(OnReset(a), e)
  {
    hide Send, ClearAll, Words, Drained, UpdateUI, Mirrors, InStep, OnlyLast;
    AliveOf(a, e);
    SendIsWritten(a, Save, NoHandler);
    assert Plumbing(Written(a, Save, NoHandler), e);
    ClearAllKeeps(Written(a, Save, NoHandler), e);
    var s := ClearAll(Written(a, Save, NoHandler));
    InvIgnoresDisplay(s, UpdateUI(s), e);
  }

  lemma OnDeactivateKeeps(a: State, e: Env, ic: Ic, switching: bool)
    requires Inv(a, e)
    ensures Inv(OnDeactivate(a, ic, switching), e)
  {
    hide Plumbing, ClearAll, Words, Drained, UpdateUI, Mirrors, InStep, OnlyLast;
    var why := Raw(a.comp.buf, a.defer.pending, HeldPresses(a.defer.queued));
    TextOutputKeeps(a, e, ic, PendingRaw(a.comp, a.defer), why);
    InvIgnoresDisplay(a.(out := a.out + [Commit(ic, PendingRaw(a.comp, a.defer), why)]), SwitchAway(a, ic), e);
    var c := if switching && a.comp.buf != "" then SwitchAway(a, ic) else a;
    ClearAllKeeps(c, e);
    InvIgnoresDisplay(ClearAll(c), UpdateUI(ClearAll(c)), e);
  }

  lemma DeliverIsGood(p: Pair, sure: bool)
    requires Good(p, sure) && (sure ==> Trusty(p)) && p.inbox != []
    ensures Good(Deliver(p), sure)
  {
    hide AtRest, Sound, OnReply, Plumbing, OnlyLast, InStep, Mirrors, Words, Drained;
    StepAtRest(p.addon, Line(p.inbox[0]), []);
    AtRestIsSound(p.addon);
    var e, a := EnvOf(p, sure), p.addon;
    assert a.(link := a.link.(luck := [])) == a by { LuckIsSpent(a, e); }
    AliveOf(a, e);
    if a.link.ready {
      PoppedKeeps(a, e);
      assert p.inbox[0] != "" by { FirstReply(a, e); }
      OnReplyKeeps(a, e);
      ReadyOf(Deliver(p).addon, Tail(e));
    } else {
      assert Inv(Deliver(p).addon, EnvOf(Deliver(p), sure)) by { ReadyKeeps(p, sure); }
    }
  }

  lemma FirstReply(a: State, e: Env)
    requires Inv(a, e) && e.replies != []
    ensures e.replies[0] != ""
  {
  }

  lemma ReadyKeeps(p: Pair, sure: bool)
    requires Inv(p.addon, EnvOf(p, sure)) && Phased(p) && !p.addon.link.ready && p.inbox != []
    ensures Inv(Deliver(p).addon, EnvOf(Deliver(p), sure))
  {
    hide Words, Drained;
  }

  lemma BootIsGood(p: Pair, sure: bool)
    requires Good(p, sure) && !p.booted
    ensures Good(Boot(p), sure)
  {
    assert ["READY"][1..] == [];
    assert EnvOf(Boot(p), sure) == EnvOf(p, sure);
  }

  lemma ServeIsGood(p: Pair, n: nat, found: Option<seq<D.Cand>>, sure: bool)
    requires Good(p, sure) && p.booted && MayMerge(p.addon.link.wire, n) && Fetchable(found)
    requires sure ==> HaveIds(Serve(p, n, found).daemon.cache)
    ensures Good(Serve(p, n, found), sure)
  {
    hide Plumbing, OnlyLast, InStep, Mirrors, Words, Drained, MayMerge, OrderAt, D.Handle, Settled, InOrder;
    ServeKeeps(p.addon, EnvOf(p, sure), n, found);
    MergeIsShort(p.addon.link.wire, n);
    var q := Serve(p, n, found);
    assert EnvOf(q, sure) == Served(EnvOf(p, sure), p.addon.link.wire[0], D.Handle(p.daemon, OrderAt(p.addon.link.wire, n), n, found));
    assert AtRest(q.addon) by { AtRestIgnoresWire(p.addon, q.addon); }
  }

  lemma AtRestIgnoresWire(a: State, b: State)
    requires AtRest(a) && b == a.(link := a.link.(wire := b.link.wire))
    ensures AtRest(b)
  {
    hide Settled, InOrder;
  }

  /** Every state of every run is good, and more so when the run is trusty. */
  lemma {:induction false} EveryPairIsGood(ps: seq<Pair>, config: int, sure: bool)
    requires IsRun(ps, config) && (sure ==> forall k :: 0 <= k < |ps| ==> Trusty(ps[k]))
    ensures forall k :: 0 <= k < |ps| ==> Good(ps[k], sure)
    decreases |ps|
  {
    hide Good, Next;
    if |ps| == 1 {
      BeginIsGood(config, sure);
    } else {
      var n := |ps| - 1;
      PrefixIsRun(ps, config);
      EveryPairIsGood(ps[..n], config, sure);
      assert ps[..n][n - 1] == ps[n - 1];
      assert Next(ps[n - 1], ps[n]);
      StepIsGood(ps[n - 1], ps[n], sure);
    }
  }

  lemma PrefixIsRun(ps: seq<Pair>, config: int)
    requires IsRun(ps, config) && |ps| > 1
    ensures IsRun(ps[..|ps| - 1], config)
  {
    hide Next;
    var qs := ps[..|ps| - 1];
    forall k | 0 < k < |qs| ensures Next(qs[k - 1], qs[k]) {
      assert qs[k - 1] == ps[k - 1] && qs[k] == ps[k];
    }
  }

  lemma StepIsGood(p: Pair, q: Pair, sure: bool)
    requires Good(p, sure) && Next(p, q) && (sure ==> Trusty(p) && Trusty(q))
    ensures Good(q, sure)
  {
    hide Good, Act, Deliver, Boot, Serve, MayMerge;
    if input :| OwnTurn(input) && q == Act(p, input) {
      ActIsGood(p, input, sure);
    } else if p.inbox != [] && q == Deliver(p) {
      DeliverIsGood(p, sure);
    } else if !p.booted && q == Boot(p) {
      BootIsGood(p, sure);
    } else {
      var n: nat, found :| p.booted && MayMerge(p.addon.link.wire, n) && Fetchable(found) && q == Serve(p, n, found);
      ServeIsGood(p, n, found, sure);
    }
  }
}
