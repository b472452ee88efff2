/**
 * The Fcitx addon as a state machine on values: what each method of EngineProc and
 * WeTypeEngine does to the state. WeTypeEngine.dfy holds the class that refines it.
 *
 * The outcomes of coming writes and forks are part of the state (Link.luck), so that sending
 * stays a function although a failed write stops the engine, fails the waiting handlers,
 * restarts the engine and replays the pinyin, all before it returns. That such chains end is
 * shown by their measure: a composition recovers once.
 *
 * Contracts on these functions say what a caller can rely on without looking inside.
 */
module Addon {
  import opened Basics
  import opened Codec
  import opened Wire

  type Ic = nat   // an input context; never reused after it is destroyed

  // ---------------------------------------------------------------- keys

  const KEY_BACKSPACE: nat := 0xff08
  const KEY_RETURN: nat := 0xff0d
  const KEY_ESCAPE: nat := 0xff1b
  const KEY_LEFT: nat := 0xff51
  const KEY_UP: nat := 0xff52
  const KEY_RIGHT: nat := 0xff53
  const KEY_DOWN: nat := 0xff54
  const KEY_PAGE_UP: nat := 0xff55
  const KEY_PAGE_DOWN: nat := 0xff56
  const KEY_KP_ADD: nat := 0xffab
  const KEY_SPACE: nat := 0x20
  const KEY_MINUS: nat := 0x2d
  const KEY_EQUAL: nat := 0x3d
  const KEY_PLUS: nat := 0x2b

  /**
   * A key event. `text` is the printable text of the key ("" when it prints nothing);
   * `punct` and `wide` are the answers of punctFor and fullwidthPunctuation at the moment the
   * key is processed, left open here.
   */
  datatype Event = Event(sym: nat, raw: nat, release: bool, time: int, shortcut: bool,
                         shift: bool, text: string, punct: string, wide: bool)

  predicate IsLower(sym: nat) { 0x61 <= sym <= 0x7a }
  predicate IsUpper(sym: nat) { 0x41 <= sym <= 0x5a }
  predicate IsArrow(sym: nat) { KEY_LEFT <= sym <= KEY_DOWN }
  predicate IsDigitKey(sym: nat) { 0x30 <= sym <= 0x39 }

  /** ownsPunctuation: every ASCII symbol but the grave accent. */
  predicate Owned(sym: nat) {
    (0x21 <= sym <= 0x2f || 0x3a <= sym <= 0x40 || 0x5b <= sym <= 0x60 || 0x7b <= sym <= 0x7e) && sym != 0x60
  }

  function LetterOf(sym: nat): (c: char)
    requires IsLower(sym) || IsUpper(sym)
    ensures 'a' <= c <= 'z'
  {
    if IsLower(sym) then sym as char else (sym + 0x20) as char
  }

  // ---------------------------------------------------------------- state

  datatype Handler =
    | NoHandler
    | OptHandler
    | CandHandler(ic: Option<Ic>, epoch: nat, revision: nat, buf: string)

  /** Where cands and covers were last read from. */
  datatype Source = Source(handler: Handler, line: string, spans: bool)

  /**
   * buf_, cands_, covers_, candidatesCurrent_, revision_, epoch_; and four records kept for
   * the statements: the letters typed and not deleted since the composition began, those
   * that partial selections consumed, the contexts whose keys the letters typed were, one for
   * each, and the reply the candidates were read from.
   */
  datatype Comp = Comp(buf: string, cands: seq<string>, covers: seq<int>, current: bool,
                       revision: nat, epoch: nat, typed: string, consumed: string,
                       typists: seq<Option<Ic>>, source: Option<Source>)

  /** windowStart_, selected_, renderedPageSize_ */
  datatype Page = Page(start: int, selected: int, rendered: int)

  /** A deferred key event; `id` numbers the events deferred, in order; `owner` is whose key it was. */
  datatype Queued = Queued(id: nat, owner: Ic, event: Event)

  datatype Fate =
    | Processed(key: Queued, accepted: bool)   // taken from the queue; forwarded unless accepted
    | Flushed(key: Queued)                     // part of a raw commit
    | Deleted(key: Queued)                     // removed by Backspace
    | Cancelled(key: Queued)

  datatype Timer = Timer(ic: Ic, epoch: nat)

  /**
   * pending_, pendingTimer_, queued_; `log` and `fates` record the events ever deferred and what
   * became of each.
   */
  datatype Defer = Defer(pending: bool, timer: Option<Timer>, queued: seq<Queued>,
                         log: seq<Queued>, fates: seq<Fate>)

  /**
   * EngineProc plus spansEnabled_, recoveryTried_ and the restart timer. `wire` holds the
   * commands written and not yet read by the engine process, `forks` counts forks since the
   * last READY, `luck` the outcomes of coming writes and forks (success when it runs out).
   */
  datatype Link = Link(alive: bool, ready: bool, handlers: seq<Handler>, wire: seq<Cmd>,
                       fails: nat, gaveUp: bool, restart: bool, spans: bool, recovered: bool,
                       forks: nat, luck: seq<bool>)

  /**
   * Why text was committed: as literal text; as the raw text of a composition, a pending Space
   * and the deferred keys with it; or because candidate `index` of `source` was chosen when the
   * composition stood at buf, revision and epoch.
   */
  datatype Reason =
    | Literal
    | Raw(letters: string, spaced: bool, keys: seq<Queued>)
    | Chosen(index: nat, source: Source, buf: string, revision: nat, epoch: nat)

  datatype Output =
    | Commit(ic: Ic, text: string, why: Reason)
    | Forward(ic: Ic, raw: nat, release: bool, time: int)

  /** The input panel last drawn: preedit and the visible candidates from index start. */
  datatype Panel = Panel(preedit: string, start: int, items: seq<string>, cursor: int)

  datatype State = State(comp: Comp, page: Page, defer: Defer, link: Link, ic: Option<Ic>,
                         config: int, panel: Panel, out: seq<Output>)

  /** The letters typed are all of the context that has the composition. */
  predicate OwnLetters(st: State) {
    && |st.comp.typists| == |st.comp.typed|
    && (st.ic.Some? ==> forall k :: 0 <= k < |st.comp.typists| ==> st.comp.typists[k] == st.ic)
  }

  /** What failing handlers and replays never touch. */
  predicate Kept(a: State, b: State) {
    a.comp == b.comp && a.defer == b.defer && a.ic == b.ic && a.config == b.config && a.out == b.out
  }

  // ---------------------------------------------------------------- paging and display

  function PageSize(config: int): (n: int)
    ensures 1 <= n <= 10 && (1 <= config <= 10 ==> n == config) && (config < 1 || config > 10 ==> n == 5)
  {
    if 1 <= config <= 10 then config else 5
  }

  function Clamp(x: int, lo: int, hi: int): int {
    if x < lo then lo else if hi < x then hi else x
  }

  /** normalizePage: the page after alignment. */
  function Normalized(p: Page, count: nat, size: int): Page
    requires size > 0
  {
    if count == 0 then p.(start := 0, selected := 0)
    else
      var start := Clamp(p.start, 0, count - 1) / size * size;
      p.(start := start, selected := Clamp(p.selected, start, Min(start + size, count) - 1))
  }

  /** normalizePage's result: whether the panel must be drawn again. */
  predicate MustRedraw(st: State) {
    var size := PageSize(st.config);
    || Normalized(st.page, |st.comp.cands|, size) != st.page
    || (st.comp.cands != [] && st.page.rendered != size)
  }

  /** The texts of the deferred presses, in order. */
  function PressText(q: seq<Queued>): string {
    if q == [] then ""
    else (if q[0].event.release then "" else q[0].event.text) + PressText(q[1..])
  }

  /** pendingRaw: the pinyin, the pending Space and the deferred presses as plain text. */
  function PendingRaw(comp: Comp, defer: Defer): string {
    comp.buf + (if defer.pending then " " else "") + PressText(defer.queued)
  }

  function Preedit(comp: Comp, defer: Defer): string {
    if defer.pending then PendingRaw(comp, defer) else comp.buf
  }

  function Draw(comp: Comp, defer: Defer, page: Page, size: int): Panel
    requires 1 <= size <= 10 && page == Normalized(page, |comp.cands|, size)
  {
    if comp.cands == [] then Panel(Preedit(comp, defer), 0, [], 0)
    else
      PageBounds(page, |comp.cands|, size);
      Panel(Preedit(comp, defer), page.start,
            comp.cands[page.start..Min(page.start + size, |comp.cands|)], page.selected - page.start)
  }

  lemma PageBounds(p: Page, count: nat, size: int)
    requires 1 <= size <= 10 && count > 0
    ensures var n := Normalized(p, count, size);
            0 <= n.start <= n.selected < Min(n.start + size, count) && n.start % size == 0
  {
    Floor(Clamp(p.start, 0, count - 1), size);
  }

  /** Rounding down to a whole page. */
  lemma Floor(c: nat, size: int)
    requires 1 <= size <= 10
    ensures 0 <= c / size * size <= c < c / size * size + size
    ensures (c / size * size) % size == 0
    ensures c % size == 0 ==> c / size * size == c
  {
    assert c == c / size * size + c % size;
    MultipleOf(c / size, size);
  }

  lemma NormalizedTwice(p: Page, count: nat, size: int)
    requires 1 <= size <= 10
    ensures var n := Normalized(p, count, size); Normalized(n, count, size) == n
  {
    if count > 0 {
      PageBounds(p, count, size);
      Floor(Normalized(p, count, size).start, size);
    }
  }

  /**
   * The panel on screen: while there is pinyin, its preedit is the pinyin, or everything held while a
   * Space waits; its candidates are the page that the window and cursor say.
   */
  predicate Shown(st: State) {
    && (st.comp.buf != "" ==> st.panel.preedit == Preedit(st.comp, st.defer))
    && (st.comp.cands != [] ==>
      && PageOk(st.page, |st.comp.cands|, st.page.rendered)
      && st.panel.start == st.page.start
      && st.panel.items == st.comp.cands[st.page.start..Min(st.page.start + st.page.rendered, |st.comp.cands|)]
      && st.panel.cursor == st.page.selected - st.page.start)
  }

  /** An aligned window that holds the selected candidate. */
  predicate PageOk(p: Page, count: nat, size: int) {
    && 1 <= size <= 10 && 0 <= p.start && p.start % size == 0
    && p.start <= p.selected < Min(p.start + size, count)
  }

  function UpdateUI(st: State): (r: State)
    ensures Kept(st, r) && r.link == st.link && Shown(r) && r.page.rendered == PageSize(st.config)
  {
    if st.comp.cands != [] then PageBounds(st.page, |st.comp.cands|, PageSize(st.config)); Redrawn(st)
    else Redrawn(st)
  }

  function Redrawn(st: State): (r: State)
    ensures Kept(st, r) && r.link == st.link
  {
    var size := PageSize(st.config);
    NormalizedTwice(st.page, |st.comp.cands|, size);
    var page := Normalized(st.page, |st.comp.cands|, size).(rendered := size);
    assert page == Normalized(page, |st.comp.cands|, size);
    st.(page := page, panel := Draw(st.comp, st.defer, page, size))
  }

  // ---------------------------------------------------------------- the engine process

  datatype Drawn = Drawn(ok: bool, link: Link)

  function DrawLuck(l: Link): (d: Drawn)
    ensures d.link == l.(luck := d.link.luck)
  {
    if l.luck == [] then Drawn(true, l) else Drawn(l.luck[0], l.(luck := l.luck[1..]))
  }

  /** start(): false when it gave up or could not fork. */
  function Start(l: Link): (d: Drawn)
    ensures d.link.alive == d.ok && d.link.handlers == l.handlers && (d.ok && !l.alive ==> d.link.wire == [])
    ensures d.link.recovered == l.recovered && LinkGoes(l, d.link) && StaysGivenUp(l, d.link)
  {
    if l.alive then Drawn(true, l)
    else if l.fails >= 5 then Drawn(false, l.(gaveUp := true))
    else
      var d := DrawLuck(l);
      if !d.ok then d
      else Drawn(true, d.link.(alive := true, ready := false, wire := [],
                               fails := l.fails + 1, forks := l.forks + 1))
  }

  /**
   * The process bookkeeping: no more than five forks since the last READY, giving up only
   * with no process, and no handler waiting on a dead one.
   */
  predicate LinkOk(l: Link) {
    && l.forks == l.fails <= 5
    && (l.gaveUp ==> !l.alive && l.fails == 5)
    && (!l.alive ==> l.handlers == [])
  }

  /** Giving up is for good. */
  predicate StaysGivenUp(before: Link, after: Link) { before.gaveUp ==> after.gaveUp }

  /** While its engine lives and takes every write, the addon only adds to what it wrote. */
  predicate Continues(before: Link, after: Link) {
    before.alive && before.luck == [] ==> after.alive && after.luck == [] && before.wire <= after.wire
  }

  predicate LinkGoes(before: Link, after: Link) {
    LinkOk(before) ==> LinkOk(after) && (before.gaveUp ==> after.gaveUp)
  }

  /** The engine, if there is one, is a new one: it was asked for spans, then sent the whole pinyin. */
  predicate Renewed(st: State) {
    st.link.alive ==> st.link.recovered && st.comp.buf != "" && st.link.wire == [OptSpans, Batch(st.comp.buf)]
  }

  /** No handler waits that was captured at a later revision. */
  predicate NoneLater(st: State) {
    forall k :: 0 <= k < |st.link.handlers| && st.link.handlers[k].CandHandler? ==> st.link.handlers[k].revision <= st.comp.revision
  }

  /** Failing the handlers in hs restarts nothing: the composition recovered before, or none is for its pinyin. */
  predicate RestartsNothing(st: State, hs: seq<Handler>) {
    st.link.recovered || forall k :: 0 <= k < |hs| ==> !IsCurrent(st, hs[k])
  }

  /** Recovery may start once: the measure of every chain send, die, failed handlers, replay. */
  function Rank(st: State): nat { if st.link.recovered then 0 else 1 }

  /** A command written, and its handler waiting. */
  function Written(st: State, c: Cmd, h: Handler): (r: State)
    ensures Kept(st, r) && Rank(r) == Rank(st) && (st.link.alive ==> LinkGoes(st.link, r.link))
    ensures Shown(st) ==> Shown(r)
    ensures NoneLater(st) && (h.CandHandler? ==> h.revision <= st.comp.revision) ==> NoneLater(r)
  {
    st.(link := st.link.(wire := st.link.wire + [c], handlers := st.link.handlers + [h]))
  }

  function Send(st: State, c: Cmd, h: Handler): (r: State)
    ensures Kept(st, r) && Rank(r) <= Rank(st) && LinkGoes(st.link, r.link)
    ensures Shown(st) ==> Shown(r)
    ensures StaysGivenUp(st.link, r.link) && Continues(st.link, r.link)
    ensures OwnLetters(st) ==> OwnLetters(r)
    ensures st.link.alive && st.link.luck == [] ==> r == Written(st, c, h)
    ensures LinkOk(st.link) ==> Renewed(r) || (st.link.alive && r.link.wire == st.link.wire + [c])
    ensures RestartsNothing(st, st.link.handlers) && !h.CandHandler? && r.link.alive ==>
              st.link.alive && r.link.wire == st.link.wire + [c] && r.link.handlers == st.link.handlers + [h]
    ensures NoneLater(st) && (h.CandHandler? ==> h.revision <= st.comp.revision) ==> NoneLater(r)
    decreases Rank(st), 4, 0
  {
    hide Preedit, PageOk, UpdateUI, Lost, Die;
    if !st.link.alive then Lost(st, h)
    else
      var d := DrawLuck(st.link);
      if d.ok then Written(st.(link := d.link), c, h)
      else Lost(Die(st.(link := d.link)), h)
  }

  /** die(): stop(), which fails the waiting handlers, then the restart timer. */
  function Die(st: State): (r: State)
    ensures Kept(st, r) && Rank(r) <= Rank(st) && LinkGoes(st.link, r.link)
    ensures Shown(st) ==> Shown(r)
    ensures StaysGivenUp(st.link, r.link)
    ensures OwnLetters(st) ==> OwnLetters(r)
    ensures LinkOk(st.link) ==> Renewed(r)
    ensures NoneLater(r)
    ensures RestartsNothing(st, st.link.handlers) ==>
              !r.link.alive && r.link.handlers == [] && r.link.wire == [] && (r.link.restart || r.link.gaveUp)
    decreases Rank(st), 3, 0
  {
    hide Preedit, PageOk;
    var stopped := st.(link := st.link.(alive := false, ready := false, wire := [], handlers := []));
    var s := FailAll(stopped, st.link.handlers);
    if s.link.restart || s.link.gaveUp then s else s.(link := s.link.(restart := true))
  }

  /** failPendingHandlers on the handlers swapped out. */
  function FailAll(st: State, hs: seq<Handler>): (r: State)
    ensures Kept(st, r) && Rank(r) <= Rank(st) && LinkGoes(st.link, r.link)
    ensures Shown(st) ==> Shown(r)
    ensures StaysGivenUp(st.link, r.link) && Continues(st.link, r.link)
    ensures OwnLetters(st) ==> OwnLetters(r)
    ensures LinkOk(st.link) && Renewed(st) ==> Renewed(r)
    ensures NoneLater(st) ==> NoneLater(r)
    ensures RestartsNothing(st, hs) ==> r.link == st.link.(spans := r.link.spans)
    decreases Rank(st), 2, |hs|
  {
    hide Shown, PageOk, UpdateUI;
    if hs == [] then st else FailAll(Lost(st, hs[0]), hs[1..])
  }

  predicate ForThisComposition(st: State, h: Handler) {
    h.CandHandler? && st.ic.Some? && h.ic == st.ic && h.epoch == st.comp.epoch
  }

  predicate IsCurrent(st: State, h: Handler) {
    ForThisComposition(st, h) && h.revision == st.comp.revision && h.buf == st.comp.buf
  }

  /** A handler called with "": the reply is lost with its engine. */
  function Lost(st: State, h: Handler): (r: State)
    ensures Kept(st, r) && Rank(r) <= Rank(st) && LinkGoes(st.link, r.link)
    ensures Shown(st) ==> Shown(r)
    ensures StaysGivenUp(st.link, r.link) && Continues(st.link, r.link)
    ensures OwnLetters(st) ==> OwnLetters(r)
    ensures h.CandHandler? && !IsCurrent(st, h) ==> r == st
    ensures h.CandHandler? && st.link.recovered ==> r.link == st.link
    ensures LinkOk(st.link) && Renewed(st) ==> Renewed(r)
    ensures NoneLater(st) ==> NoneLater(r)
    ensures !h.CandHandler? ==> r == st.(link := st.link.(spans := r.link.spans))
    decreases Rank(st), 1, 0
  {
    hide UpdateUI, PageOk, Preedit;
    match h
    case NoHandler => st
    case OptHandler => st.(link := st.link.(spans := false))
    case CandHandler(_, _, _, _) =>
      if !IsCurrent(st, h) then st
      else
        var shown := UpdateUI(st);
        if shown.comp.buf == "" || shown.link.recovered then shown
        else Restarted(shown.(link := shown.link.(recovered := true)))
  }

  /** The engine is started again, when it is gone, and sent the unfinished pinyin. */
  function Restarted(st: State): (r: State)
    ensures Kept(st, r) && Rank(r) <= Rank(st) && LinkGoes(st.link, r.link)
    ensures Shown(st) ==> Shown(r)
    ensures StaysGivenUp(st.link, r.link) && Continues(st.link, r.link)
    ensures OwnLetters(st) ==> OwnLetters(r)
    ensures LinkOk(st.link) && !st.link.alive && st.link.recovered && st.comp.buf != "" ==> Renewed(r)
    ensures NoneLater(st) ==> NoneLater(r)
    decreases Rank(st), 7, 0
  {
    hide Shown;
    var s := EnsureEngine(st);
    Request(s, s.comp.buf)
  }

  function EnsureEngine(st: State): (r: State)
    ensures Kept(st, r) && Rank(r) <= Rank(st) && LinkGoes(st.link, r.link)
    ensures Shown(st) ==> Shown(r)
    ensures StaysGivenUp(st.link, r.link) && Continues(st.link, r.link)
    ensures OwnLetters(st) ==> OwnLetters(r)
    ensures st.link.alive || st.link.gaveUp ==> r == st
    ensures LinkOk(st.link) && !st.link.alive && r.link.alive ==> r.link.wire == [OptSpans] && r.link.handlers == [OptHandler]
    ensures NoneLater(st) ==> NoneLater(r)
    decreases Rank(st), 5, 0
  {
    hide PageOk, Preedit, Start, Send;
    if st.link.alive || st.link.gaveUp then st
    else
      var d := Start(st.link.(spans := false));
      var s := st.(link := d.link);
      if d.ok then Send(s, OptSpans, OptHandler) else s
  }

  /** candidateHandler() */
  function HandlerNow(st: State): Handler {
    CandHandler(st.ic, st.comp.epoch, st.comp.revision, st.comp.buf)
  }

  /** requestCandidates */
  function Request(st: State, keys: string): (r: State)
    ensures Kept(st, r) && Rank(r) <= Rank(st) && LinkGoes(st.link, r.link)
    ensures Shown(st) ==> Shown(r)
    ensures StaysGivenUp(st.link, r.link) && Continues(st.link, r.link)
    ensures OwnLetters(st) ==> OwnLetters(r)
    ensures st.comp.buf == "" || keys == "" ==> r == st
    ensures st.link.alive && st.link.luck == [] && st.comp.buf != "" && keys != "" ==>
              r == Written(st, Batch(keys), HandlerNow(st))
    ensures LinkOk(st.link) && st.comp.buf != "" && keys != "" ==>
              Renewed(r) || r.link.wire == (if st.link.alive then st.link.wire else [OptSpans]) + [Batch(keys)]
    ensures NoneLater(st) ==> NoneLater(r)
    decreases Rank(st), 6, 0
  {
    hide Shown, PageOk;
    if st.comp.buf == "" || keys == "" then st
    else
      var s := EnsureEngine(st);
      Send(s, Batch(keys), HandlerNow(s))
  }

  // ---------------------------------------------------------------- committing

  function CommitText(st: State, ic: Ic, text: string, why: Reason): (r: State)
    ensures r.defer == st.defer && r.ic == st.ic && r.config == st.config && LinkGoes(st.link, r.link)
    ensures r.out == st.out + [Commit(ic, text, why)]
    ensures r.comp == Comp("", [], [], false, st.comp.revision + 1, st.comp.epoch, "", "", [], st.comp.source)
    ensures Shown(r)
    ensures StaysGivenUp(st.link, r.link) && Continues(st.link, r.link)
    ensures OwnLetters(st) ==> OwnLetters(r)
  {
    var s := st.(out := st.out + [Commit(ic, text, why)],
                 comp := Comp("", [], [], false, st.comp.revision + 1, st.comp.epoch, "", "", [], st.comp.source),
                 page := st.page.(start := 0, selected := 0),
                 link := st.link.(recovered := false));
    UpdateUI(Send(s, Clear, NoHandler))
  }

  function CoverAt(comp: Comp, index: nat): int {
    if index < |comp.covers| then comp.covers[index] else 0
  }

  /** commitCandidate keeps composing when the candidate covers a proper prefix. */
  predicate KeepsRest(comp: Comp, index: nat) {
    0 < CoverAt(comp, index) < |comp.buf|
  }

  function Choice(comp: Comp, index: nat): Reason {
    match comp.source
    case Some(source) => Chosen(index, source, comp.buf, comp.revision, comp.epoch)
    case None => Literal
  }

  function CommitCandidate(st: State, ic: Ic, index: int): (r: State)
    ensures r.defer == st.defer && r.ic == st.ic && r.config == st.config
    ensures !st.comp.current ==> r == st
    ensures Shown(st) || (st.comp.current && 0 <= index < |st.comp.cands|) ==> Shown(r)
    ensures st.comp.current && 0 <= index < |st.comp.cands| ==>
              r.out == st.out + [Commit(ic, st.comp.cands[index], Choice(st.comp, index))] && !r.comp.current
    ensures !(st.comp.current && 0 <= index < |st.comp.cands|) ==> r == st
    ensures StaysGivenUp(st.link, r.link) && Continues(st.link, r.link)
    ensures OwnLetters(st) ==> OwnLetters(r)
  {
    if !st.comp.current || index < 0 || index >= |st.comp.cands| then st
    else if !KeepsRest(st.comp, index) then
      CommitText(Send(st, Select(index, st.comp.cands[index], Whole), NoHandler), ic, st.comp.cands[index],
                 Choice(st.comp, index))
    else
      var text := st.comp.cands[index];
      var cover := CoverAt(st.comp, index);
      var s := st.(out := st.out + [Commit(ic, text, Choice(st.comp, index))],
                   comp := st.comp.(buf := st.comp.buf[cover..], cands := [], covers := [], current := false,
                                    revision := st.comp.revision + 1,
                                    consumed := st.comp.consumed + st.comp.buf[..cover]),
                   page := st.page.(start := 0, selected := 0));
      UpdateUI(Send(s, Select(index, text, Prefix(cover)), HandlerNow(s)))
  }

  // ---------------------------------------------------------------- the pending Space

  function Ids(q: seq<Queued>): seq<nat> {
    seq(|q|, k requires 0 <= k < |q| => q[k].id)
  }

  function FlushFates(q: seq<Queued>): seq<Fate> {
    seq(|q|, k requires 0 <= k < |q| => Flushed(q[k]))
  }

  function CancelFates(q: seq<Queued>): seq<Fate> {
    seq(|q|, k requires 0 <= k < |q| => Cancelled(q[k]))
  }

  /** When the input method is switched the presses are committed and the releases dropped. */
  function SwitchFates(q: seq<Queued>): seq<Fate> {
    seq(|q|, k requires 0 <= k < |q| => if q[k].event.release then Cancelled(q[k]) else Flushed(q[k]))
  }

  function HeldPresses(q: seq<Queued>): seq<Queued> {
    if q == [] then [] else (if q[0].event.release then [] else [q[0]]) + HeldPresses(q[1..])
  }

  function Disarm(d: Defer): Defer { d.(pending := false, timer := None) }

  function CancelPending(d: Defer): Defer {
    Disarm(d).(queued := [], fates := d.fates + CancelFates(d.queued))
  }

  /** The releases a fallback forwards after the raw text. */
  function Releases(ic: Ic, q: seq<Queued>): seq<Output> {
    if q == [] then []
    else (if q[0].event.release then [Forward(ic, q[0].event.raw, true, q[0].event.time)] else [])
         + Releases(ic, q[1..])
  }

  /** An event loop turn with no Space pending defers nothing: the queue stays or is settled as a whole. */
  predicate QueueMoves(d: Defer, r: Defer) {
    && r.log == d.log
    && (|| (r.queued == d.queued && r.fates == d.fates)
        || (r.queued == [] && (r.fates == d.fates + FlushFates(d.queued) || r.fates == d.fates + CancelFates(d.queued))))
  }

  function Fallback(st: State, ic: Ic): (r: State)
    ensures !r.defer.pending && r.defer.queued == [] && r.ic == st.ic && r.config == st.config
    ensures QueueMoves(st.defer, r.defer)
    ensures Shown(r)
    ensures StaysGivenUp(st.link, r.link) && Continues(st.link, r.link)
    ensures OwnLetters(st) ==> OwnLetters(r)
  {
    var raw := PendingRaw(st.comp, st.defer);
    var d := Disarm(st.defer).(queued := [], fates := st.defer.fates + FlushFates(st.defer.queued));
    var s := CommitText(st.(defer := d), ic, raw, Raw(st.comp.buf, st.defer.pending, st.defer.queued));
    s.(out := s.out + Releases(ic, st.defer.queued))
  }

  function Arm(st: State, ic: Ic): (r: State)
    ensures QueueMoves(st.defer, r.defer) && r.ic == st.ic
    ensures Shown(r)
    ensures StaysGivenUp(st.link, r.link) && Continues(st.link, r.link)
    ensures OwnLetters(st) ==> OwnLetters(r)
  {
    var armed := UpdateUI(st.(defer := st.defer.(pending := true, timer := Some(Timer(ic, st.comp.epoch)))));
    if (armed.comp.current && armed.comp.cands == []) || armed.link.gaveUp then Fallback(armed, ic)
    else armed
  }

  /** clearAll without its optional redraw. */
  function ClearAll(st: State): (r: State)
    ensures r.defer == CancelPending(st.defer) && r.ic == st.ic && r.config == st.config && r.out == st.out
    ensures LinkGoes(st.link, r.link)
    ensures r.comp == Comp("", [], [], false, st.comp.revision + 1, st.comp.epoch + 1, "", "", [], st.comp.source)
    ensures Shown(r)
    ensures StaysGivenUp(st.link, r.link) && Continues(st.link, r.link)
    ensures OwnLetters(st) ==> OwnLetters(r)
  {
    var s := st.(defer := CancelPending(st.defer),
                 comp := Comp("", [], [], false, st.comp.revision + 1, st.comp.epoch + 1, "", "", [], st.comp.source),
                 page := st.page.(start := 0, selected := 0),
                 link := st.link.(recovered := false));
    Send(s, Clear, NoHandler)
  }

  // ---------------------------------------------------------------- keys

  /** The state after a key and whether the addon accepted the event. */
  datatype Result = Result(st: State, accepted: bool)

  /** The last deferred press, or |q| when there is none. */
  function LastPress(q: seq<Queued>): (n: nat)
    ensures n <= |q|
    ensures n < |q| ==> !q[n].event.release && forall k :: n < k < |q| ==> q[k].event.release
    ensures n == |q| ==> forall k :: 0 <= k < |q| ==> q[k].event.release
  {
    LastPressBelow(q, |q|)
  }

  function LastPressBelow(q: seq<Queued>, end: nat): (n: nat)
    requires end <= |q| && forall k :: end <= k < |q| ==> q[k].event.release
    ensures n <= |q|
    ensures n < |q| ==> !q[n].event.release && forall k :: n < k < |q| ==> q[k].event.release
    ensures n == |q| ==> forall k :: 0 <= k < |q| ==> q[k].event.release
  {
    if end == 0 then |q|
    else if !q[end - 1].event.release then end - 1
    else LastPressBelow(q, end - 1)
  }

  /** The first release of `raw` at or after `from`, or |q|. */
  function ReleaseOf(q: seq<Queued>, raw: nat, from: nat): (n: nat)
    requires from <= |q|
    ensures from <= n <= |q|
    ensures n < |q| ==> q[n].event.release && q[n].event.raw == raw
    ensures forall k :: from <= k < n ==> !(q[k].event.release && q[k].event.raw == raw)
    decreases |q| - from
  {
    if from == |q| || (q[from].event.release && q[from].event.raw == raw) then from
    else ReleaseOf(q, raw, from + 1)
  }

  function RemoveAt<T>(s: seq<T>, i: nat): (r: seq<T>)
    requires i < |s|
    ensures |r| == |s| - 1
  {
    s[..i] + s[i + 1..]
  }

  /** Backspace on the deferred queue: its last press goes, and the first later release of that key. */
  function DropLastPress(d: Defer): Defer
    requires LastPress(d.queued) < |d.queued|
  {
    var n := LastPress(d.queued);
    var rest := RemoveAt(d.queued, n);
    var r := ReleaseOf(rest, d.queued[n].event.raw, n);
    if r == |rest| then d.(queued := rest, fates := d.fates + [Deleted(d.queued[n])])
    else d.(queued := RemoveAt(rest, r),
            fates := d.fates + [Deleted(d.queued[n]), Deleted(rest[r])])
  }

  function PendingBackspace(st: State, ic: Ic): (r: Result)
    ensures Shown(r.st)
    ensures StaysGivenUp(st.link, r.st.link) && Continues(st.link, r.st.link)
    ensures OwnLetters(st) ==> OwnLetters(r.st)
  {
    if LastPress(st.defer.queued) < |st.defer.queued| then
      Result(UpdateUI(st.(defer := DropLastPress(st.defer))), true)
    else
      var buf := DropLast(st.comp.buf);
      var s := Send(st.(comp := st.comp.(buf := buf, revision := st.comp.revision + 1, current := false,
                                         cands := [], covers := [], typed := DropLast(st.comp.typed), typists := DropLast(st.comp.typists))),
                    Clear, NoHandler);
      Result(if buf == "" then Fallback(s, ic) else UpdateUI(Request(s, buf)), true)
  }

  function DropLast<T(==)>(s: seq<T>): seq<T> { if s == [] then [] else s[..|s| - 1] }

  function Enqueue(d: Defer, ic: Ic, e: Event): Defer {
    var key := Queued(|d.log|, ic, e);
    d.(queued := d.queued + [key], log := d.log + [key])
  }

  /** processKey while a Space is pending. */
  function PendingKey(st: State, ic: Ic, e: Event): (r: Result)
    ensures Shown(r.st)
    ensures StaysGivenUp(st.link, r.st.link) && Continues(st.link, r.st.link)
    ensures OwnLetters(st) ==> OwnLetters(r.st)
  {
    if !e.release && !e.shortcut && e.sym == KEY_ESCAPE then Result(UpdateUI(ClearAll(st)), true)
    else if !e.release && !e.shortcut && e.sym == KEY_BACKSPACE then PendingBackspace(st, ic)
    else if !e.release && (e.text == "" || e.shortcut) then
      Result(Fallback(st, ic), !e.shortcut && e.sym == KEY_RETURN)
    else
      var d := Enqueue(st.defer, ic, e);
      var s := st.(defer := d);
      Result(if |d.queued| >= 256 then Fallback(s, ic) else UpdateUI(s), true)
  }

  function LetterKey(st: State, c: char): (r: State)
    ensures r.comp.buf == st.comp.buf + [c] && !r.comp.current
    ensures r.defer == st.defer && r.ic == st.ic && r.out == st.out && r.config == st.config
    ensures Shown(r)
    ensures StaysGivenUp(st.link, r.link) && Continues(st.link, r.link)
    ensures OwnLetters(st) ==> OwnLetters(r)
  {
    var s := if st.comp.buf == "" then st.(link := st.link.(recovered := false)) else st;
    var replay := !s.link.alive && s.comp.buf != "";
    var e := EnsureEngine(s);
    var t := e.(comp := e.comp.(revision := e.comp.revision + 1, buf := e.comp.buf + [c], current := false,
                                typed := e.comp.typed + [c], typists := e.comp.typists + [e.ic]));
    Request(UpdateUI(t), if replay then t.comp.buf else [c])
  }

  function ArrowMove(p: Page, sym: nat, size: int, count: nat): Page {
    if sym == KEY_LEFT && p.selected > p.start then p.(selected := p.selected - 1)
    else if sym == KEY_RIGHT && p.selected + 1 < Min(p.start + size, count) then p.(selected := p.selected + 1)
    else if sym == KEY_UP && p.start > 0 then PageBack(p, size)
    else if sym == KEY_DOWN && p.start + size < count then PageForward(p, size)
    else p
  }

  function PageBack(p: Page, size: int): Page {
    p.(start := Max(0, p.start - size), selected := Max(0, p.start - size))
  }

  function PageForward(p: Page, size: int): Page {
    p.(start := p.start + size, selected := p.start + size)
  }

  predicate Selectable(st: State) { st.comp.current && st.comp.cands != [] }

  function PunctKey(st: State, ic: Ic, e: Event): (r: Result)
    ensures r.st.defer == st.defer && r.st.ic == st.ic && r.st.config == st.config
    ensures Shown(st) ==> Shown(r.st)
    ensures StaysGivenUp(st.link, r.st.link) && Continues(st.link, r.st.link)
    ensures OwnLetters(st) ==> OwnLetters(r.st)
  {
    if st.comp.buf != "" then
      if e.punct == "" then Result(st, false)
      else if Selectable(st) && 0 <= st.page.selected < |st.comp.cands| then
        var text := st.comp.cands[st.page.selected];
        var purpose := Punctuated(KeepsRest(st.comp, st.page.selected));
        Result(CommitText(Send(st, Select(st.page.selected, text, purpose), NoHandler), ic, text + e.punct,
                          Choice(st.comp, st.page.selected)), true)
      else Result(CommitText(st, ic, st.comp.buf + e.punct, Literal), true)
    else if e.wide then Result(st.(out := st.out + [Commit(ic, e.punct, Literal)]), true)
    else Result(st, false)
  }

  function DigitKey(st: State, ic: Ic, sym: nat): (r: Result)
    requires IsDigitKey(sym)
    ensures r.st.defer == st.defer && r.st.ic == st.ic && r.st.config == st.config
    ensures Shown(st) ==> Shown(r.st)
    ensures StaysGivenUp(st.link, r.st.link) && Continues(st.link, r.st.link)
    ensures OwnLetters(st) ==> OwnLetters(r.st)
  {
    var ordinal: int := if sym == 0x30 then 9 else sym - 0x31;
    var index := st.page.start + ordinal;
    if ordinal < PageSize(st.config) && Selectable(st) && index < |st.comp.cands| then
      Result(CommitCandidate(st, ic, index), true)
    else Result(st, false)
  }

  function BackspaceKey(st: State): (r: State)
    ensures r.defer == st.defer && r.ic == st.ic && r.out == st.out && r.config == st.config
    ensures Shown(r)
    ensures StaysGivenUp(st.link, r.link) && Continues(st.link, r.link)
    ensures OwnLetters(st) ==> OwnLetters(r)
  {
    var buf := DropLast(st.comp.buf);
    var s := Send(st.(comp := st.comp.(buf := buf, revision := st.comp.revision + 1, current := false,
                                       typed := DropLast(st.comp.typed), typists := DropLast(st.comp.typists))),
                  Clear, NoHandler);
    if buf == "" then UpdateUI(s.(comp := s.comp.(cands := [], covers := []),
                                  page := s.page.(start := 0, selected := 0)))
    else UpdateUI(Request(s, buf))
  }

  /** processKey for a press with no Space pending and no shortcut modifier. */
  function IdleKey(st0: State, ic: Ic, e: Event): (r: Result)
    ensures r.st.ic == st0.ic && QueueMoves(st0.defer, r.st.defer)
    ensures Shown(st0) ==> Shown(r.st)
    ensures StaysGivenUp(st0.link, r.st.link) && Continues(st0.link, r.st.link)
    ensures OwnLetters(st0) ==> OwnLetters(r.st)
  {
    hide UpdateUI, LetterKey, PunctKey, DigitKey, CommitCandidate, Arm, CommitText, BackspaceKey, ClearAll, ArrowMove, PageOk, Preedit;
    var st := if MustRedraw(st0) then UpdateUI(st0) else st0;
    var composing := st.comp.buf != "";
    var size := PageSize(st.config);
    if !composing && IsUpper(e.sym) && e.shift then
      Result(st.(out := st.out + [Commit(ic, [e.sym as char], Literal)]), true)
    else if IsLower(e.sym) || IsUpper(e.sym) then Result(LetterKey(st, LetterOf(e.sym)), true)
    else if composing && Selectable(st) && IsArrow(e.sym) then
      Result(UpdateUI(st.(page := ArrowMove(st.page, e.sym, size, |st.comp.cands|))), true)
    else if composing && (e.sym == KEY_MINUS || e.sym == KEY_PAGE_UP) then
      Result(if st.page.start > 0 then UpdateUI(st.(page := PageBack(st.page, size))) else st, true)
    else if composing && (e.sym == KEY_EQUAL || e.sym == KEY_PLUS || e.sym == KEY_KP_ADD || e.sym == KEY_PAGE_DOWN) then
      Result(if st.comp.current && st.page.start + size < |st.comp.cands|
             then UpdateUI(st.(page := PageForward(st.page, size))) else st, true)
    else if Owned(e.sym) then PunctKey(st, ic, e)
    else if 0x31 <= e.sym <= 0x39 || (e.sym == 0x30 && size >= 10) then DigitKey(st, ic, e.sym)
    else if e.sym == KEY_SPACE && composing then
      Result(if Selectable(st) then CommitCandidate(st, ic, st.page.selected) else Arm(st, ic), true)
    else if e.sym == KEY_RETURN && composing then Result(CommitText(st, ic, st.comp.buf, Literal), true)
    else if e.sym == KEY_BACKSPACE && composing then Result(BackspaceKey(st), true)
    else if e.sym == KEY_ESCAPE && composing then Result(UpdateUI(ClearAll(st)), true)
    else Result(st, false)
  }

  function Focus(st: State, ic: Ic): (r: State)
    ensures Shown(st) ==> Shown(r)
    ensures StaysGivenUp(st.link, r.link) && Continues(st.link, r.link)
    ensures OwnLetters(st) ==> OwnLetters(r)
  {
    (if st.ic == Some(ic) then st else ClearAll(st)).(ic := Some(ic))
  }

  function ProcessKey(st: State, ic: Ic, e: Event): (r: Result)
    ensures r.st.ic == Some(ic)
    ensures !st.defer.pending && st.ic == Some(ic) ==> QueueMoves(st.defer, r.st.defer)
    ensures Shown(st) ==> Shown(r.st)
    ensures StaysGivenUp(st.link, r.st.link) && Continues(st.link, r.st.link)
    ensures OwnLetters(st) ==> OwnLetters(r.st)
  {
    var s := Focus(st, ic);
    if s.defer.pending then PendingKey(s, ic, e)
    else if e.shortcut || e.release then Result(s, false)
    else IdleKey(s, ic, e)
  }

  /**
   * drainQueued: deferred events are processed again in order until a new Space is pending.
   * Nothing is deferred meanwhile, so the queue only shrinks.
   */
  function Drain(st: State, ic: Ic): (r: State)
    ensures r.defer.queued == [] || r.defer.pending || r.ic != Some(ic)
    ensures r.ic == st.ic
    ensures Shown(st) ==> Shown(r)
    ensures StaysGivenUp(st.link, r.link) && Continues(st.link, r.link)
    ensures OwnLetters(st) ==> OwnLetters(r)
    decreases |st.defer.queued|
  {
    hide ProcessKey, PageOk;
    if st.defer.pending || st.defer.queued == [] || st.ic != Some(ic) then st
    else
      var q := st.defer.queued[0];
      var r := ProcessKey(st.(defer := st.defer.(queued := st.defer.queued[1..])), ic, q.event);
      var out := if r.accepted then r.st.out
                 else r.st.out + [Forward(ic, q.event.raw, q.event.release, q.event.time)];
      Drain(r.st.(out := out, defer := r.st.defer.(fates := r.st.defer.fates + [Processed(q, r.accepted)])), ic)
  }

  // ---------------------------------------------------------------- replies

  predicate IsPreview(st: State, h: Handler, line: string) {
    && ForThisComposition(st, h) && !IsCurrent(st, h)
    && h.buf != "" && |st.comp.buf| > |h.buf| && StartsWith(st.comp.buf, h.buf) && IsCandLine(line)
  }

  function Texts(es: seq<Entry>): seq<string> { seq(|es|, k requires 0 <= k < |es| => es[k].text) }

  function Covers(es: seq<Entry>): seq<int> { seq(|es|, k requires 0 <= k < |es| => es[k].cover) }

  /** The candidates a reply line brings; EMPTY brings none. */
  function Parsed(spans: bool, line: string): seq<Entry> {
    if IsCandLine(line) then ParseCands(spans, line) else []
  }

  /** The reply to a partial selection that the engine did not keep composing. */
  function Unexpected(st: State, ic: Ic): (r: State)
    ensures r.ic == st.ic
    ensures Shown(st) ==> Shown(r)
    ensures StaysGivenUp(st.link, r.link) && Continues(st.link, r.link)
    ensures OwnLetters(st) ==> OwnLetters(r)
  {
    if st.link.recovered then (if st.defer.pending then Fallback(st, ic) else st)
    else
      var s := Send(st.(link := st.link.(recovered := true)), Clear, NoHandler);
      Request(s, s.comp.buf)
  }

  /** The new candidates are shown; a pending Space then takes the first of them. */
  function ShowCandidates(st: State, h: Handler, line: string): (r: State)
    ensures r.defer == st.defer && r.ic == st.ic && r.out == st.out && r.link == st.link
    ensures r.comp.buf == st.comp.buf && r.comp.revision == st.comp.revision && r.comp.epoch == st.comp.epoch
    ensures Shown(r)
    ensures StaysGivenUp(st.link, r.link) && Continues(st.link, r.link)
    ensures OwnLetters(st) ==> OwnLetters(r)
  {
    var es := Parsed(st.link.spans, line);
    UpdateUI(st.(comp := st.comp.(cands := Texts(es), covers := Covers(es), current := IsCurrent(st, h),
                                  source := Some(Source(h, line, st.link.spans))),
                 page := st.page.(start := 0, selected := 0)))
  }

  function TakePending(st: State, ic: Ic): (r: State)
    ensures r.ic == st.ic
    ensures Shown(st) && st.comp.current ==> Shown(r)
    ensures StaysGivenUp(st.link, r.link) && Continues(st.link, r.link)
    ensures OwnLetters(st) ==> OwnLetters(r)
  {
    if st.comp.cands == [] then Fallback(st, ic)
    else Drain(CommitCandidate(st.(defer := Disarm(st.defer)), ic, st.page.selected), ic)
  }

  /** A handler called with a nonempty line. */
  function OnReply(st: State, h: Handler, line: string): (r: State)
    ensures r.ic == st.ic
    ensures Shown(st) ==> Shown(r)
    ensures StaysGivenUp(st.link, r.link) && Continues(st.link, r.link)
    ensures OwnLetters(st) ==> OwnLetters(r)
  {
    match h
    case NoHandler => st
    case OptHandler => st.(link := st.link.(spans := line == "OK"))
    case CandHandler(_, _, _, _) =>
      if line == "SKIP" || !(IsCurrent(st, h) || IsPreview(st, h, line)) then st
      else if line != "EMPTY" && !IsCandLine(line) then Unexpected(st, st.ic.value)
      else
        var s := ShowCandidates(st, h, line);
        if IsCurrent(st, h) && st.defer.pending then TakePending(s, st.ic.value) else s
  }

  /** onLine */
  function OnLine(st: State, line: string): (r: State)
    ensures Shown(st) ==> Shown(r)
    ensures StaysGivenUp(st.link, r.link) && Continues(st.link, r.link)
    ensures OwnLetters(st) ==> OwnLetters(r)
  {
    if !st.link.alive then st
    else if !st.link.ready then
      if line == "READY" then st.(link := st.link.(ready := true, fails := 0, forks := 0)) else st
    else if line == "" || st.link.handlers == [] then st
    else OnReply(st.(link := st.link.(handlers := st.link.handlers[1..])), st.link.handlers[0], line)
  }

  // ---------------------------------------------------------------- the event loop

  datatype Input =
    | Key(ic: Ic, event: Event)
    | Line(line: string)                       // a line from the engine process
    | Exit                                     // end of file, or the 90 s start timeout
    | RestartTimer
    | PendingTimer
    | Click(ic: Ic, index: int)                // a candidate of the panel is clicked
    | Reset(ic: Ic)
    | Deactivate(ic: Ic, switching: bool)
    | Configure(size: int)
    | Destroy(ic: Ic)

  function HasComposition(st: State): bool { st.comp.buf != "" || st.comp.cands != [] }

  function OnReset(st: State): (r: State)
    ensures Shown(st) ==> Shown(r)
    ensures StaysGivenUp(st.link, r.link) && Continues(st.link, r.link)
    ensures OwnLetters(st) ==> OwnLetters(r)
  {
    var s := ClearAll(Send(st, Save, NoHandler));
    if HasComposition(st) then UpdateUI(s) else s
  }

  function OnDeactivate(st: State, ic: Ic, switching: bool): (r: State)
    ensures Shown(st) ==> Shown(r)
    ensures StaysGivenUp(st.link, r.link) && Continues(st.link, r.link)
    ensures OwnLetters(st) ==> OwnLetters(r)
  {
    var s := ClearAll(if switching && st.comp.buf != "" then SwitchAway(st, ic) else st);
    if HasComposition(st) then UpdateUI(s) else s
  }

  /** The raw text is committed before the composition is cleared. */
  function SwitchAway(st: State, ic: Ic): (r: State)
    ensures r.comp == st.comp && r.page == st.page && r.panel == st.panel
    ensures StaysGivenUp(st.link, r.link) && Continues(st.link, r.link)
    ensures OwnLetters(st) ==> OwnLetters(r)
  {
    var why := Raw(st.comp.buf, st.defer.pending, HeldPresses(st.defer.queued));
    st.(out := st.out + [Commit(ic, PendingRaw(st.comp, st.defer), why)],
        defer := st.defer.(queued := [], fates := st.defer.fates + SwitchFates(st.defer.queued)))
  }

  function OnPendingTimer(st: State): (r: State)
    ensures Shown(st) ==> Shown(r)
    ensures StaysGivenUp(st.link, r.link) && Continues(st.link, r.link)
    ensures OwnLetters(st) ==> OwnLetters(r)
  {
    match st.defer.timer
    case None => st
    case Some(t) =>
      if st.ic == Some(t.ic) && t.epoch == st.comp.epoch && st.defer.pending then Fallback(st, t.ic) else st
  }

  function OnRestartTimer(st: State): (r: State)
    ensures Shown(st) ==> Shown(r)
    ensures StaysGivenUp(st.link, r.link) && Continues(st.link, r.link)
    ensures OwnLetters(st) ==> OwnLetters(r)
  {
    if !st.link.restart then st
    else
      var s := st.(link := st.link.(restart := false));
      if s.link.alive then s else Restarted(s)
  }

  predicate FromEngine(input: Input) { input.Line? || input.Exit? || input.RestartTimer? || input.PendingTimer? }

  /** What the engine process and the timers bring. */
  function EngineTurn(st: State, input: Input): (r: State)
    requires FromEngine(input)
    ensures Shown(st) ==> Shown(r)
    ensures StaysGivenUp(st.link, r.link) && (!input.Exit? ==> Continues(st.link, r.link))
    ensures OwnLetters(st) ==> OwnLetters(r)
  {
    match input
    case Line(line) => OnLine(st, line)
    case Exit => if st.link.alive then Die(st) else st
    case RestartTimer => OnRestartTimer(st)
    case PendingTimer => OnPendingTimer(st)
  }

  /** What the user and Fcitx bring. */
  function UserTurn(st: State, input: Input): (r: State)
    requires !FromEngine(input)
    ensures Shown(st) ==> Shown(r)
    ensures StaysGivenUp(st.link, r.link) && Continues(st.link, r.link)
    ensures OwnLetters(st) ==> OwnLetters(r)
  {
    match input
    case Key(ic, e) => ProcessKey(st, ic, e).st
    case Click(ic, index) => CommitCandidate(st, ic, index)
    case Reset(ic) => OnReset(st)
    case Deactivate(ic, switching) => OnDeactivate(st, ic, switching)
    case Configure(size) => st.(config := size)
    case Destroy(ic) => if st.ic == Some(ic) then st.(ic := None) else st
  }

  /** One turn of the event loop; `luck` gives the outcomes of its writes and forks. */
  function Step(st0: State, input: Input, luck: seq<bool>): (r: State)
    ensures Shown(st0) ==> Shown(r)
    ensures StaysGivenUp(st0.link, r.link) && (!input.Exit? && luck == [] ==> Continues(st0.link.(luck := []), r.link))
    ensures OwnLetters(st0) ==> OwnLetters(r)
  {
    hide EngineTurn, UserTurn, PageOk, Preedit;
    var st := st0.(link := st0.link.(luck := luck));
    if FromEngine(input) then EngineTurn(st, input) else UserTurn(st, input)
  }

  /** The constructor: an empty composition and an engine started eagerly. */
  function Init(config: int, luck: seq<bool>): (r: State)
    ensures Shown(r)
  {
    EnsureEngine(State(Comp("", [], [], false, 0, 0, "", "", [], None), Page(0, 0, 0),
                       Defer(false, None, [], [], []),
                       Link(false, false, [], [], 0, false, false, false, false, 0, luck),
                       None, config, Panel("", 0, [], 0), []))
  }

  datatype Turn = Turn(input: Input, luck: seq<bool>)

  function Run(st: State, turns: seq<Turn>): State
    decreases |turns|
  {
    if turns == [] then st
    else
      var last := turns[|turns| - 1];
      Step(Run(st, turns[..|turns| - 1]), last.input, last.luck)
  }
}
