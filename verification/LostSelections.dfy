/**
 * A selection that is lost, and the run that gets there: the condition of the session mirror is needed.
 *
 * A candidate that covers a proper prefix and came without an id is clicked, and the next letter
 * typed before the daemon's ERR is read. The addon takes the ERR for stale, the daemon keeps the
 * letters the addon consumed, and the candidates then shown are for a pinyin that is not the one
 * on screen.
 *
 * First six steps from any state with such a candidate, then a run from the start that reaches
 * one.
 */
module LostSelections {
  import opened Basics
  import opened Codec
  import opened Wire
  import opened Addon
  import opened AddonRuns
  import opened Joint
  import opened JointRuns
  import opened JointTheorems

  // ---------------------------------------------------------------- six steps from a prefix without id

  /** A quiet pair with a selectable prefix candidate that came without an id. */
  predicate PrefixWithoutId(p: Pair, i: nat) {
    && p.booted && p.addon.link.ready && Alive(p.addon.link) && p.addon.link.wire == [] && p.addon.link.handlers == []
    && p.inbox == [] && p.addon.comp.current && i < |p.addon.comp.cands| && |p.addon.comp.cands| <= |p.daemon.cache| <= D.MAX_CAND
    && KeepsRest(p.addon.comp, i) && p.daemon.cache[i].id == None
    && p.daemon.spans && p.addon.link.spans && p.daemon.known && p.daemon.sent == p.addon.comp.buf
    && |p.addon.comp.buf| + 1 < D.SENT_SIZE && !p.addon.defer.pending
  }

  function ClickedThenTyped(p: Pair, ic: Ic, i: nat, e: Event): Pair {
    Act(Act(p, Click(ic, i)), Key(ic, e))
  }

  /** The addon after the click and the letter: two commands under way, each with its handler. */
  predicate TwoUnderWay(p: Pair, a: State, ic: Ic, i: nat, c: char)
    requires i < |p.addon.comp.cands| && KeepsRest(p.addon.comp, i)
  {
    var rest := p.addon.comp.buf[CoverAt(p.addon.comp, i)..];
    var revision := p.addon.comp.revision;
    && Alive(a.link) && a.link.ready && a.link.spans && a.ic == Some(ic) && !a.defer.pending
    && a.link.wire == [Select(i, p.addon.comp.cands[i], Prefix(CoverAt(p.addon.comp, i))), Batch([c])]
    && a.link.handlers == [CandHandler(Some(ic), a.comp.epoch, revision + 1, rest),
                           CandHandler(Some(ic), a.comp.epoch, revision + 2, rest + [c])]
    && a.comp.buf == rest + [c] && a.comp.revision == revision + 2
  }

  lemma AfterClick(p: Pair, ic: Ic, i: nat)
    requires PrefixWithoutId(p, i) && p.addon.ic == Some(ic)
    ensures var a := Act(p, Click(ic, i)).addon; var rest := p.addon.comp.buf[CoverAt(p.addon.comp, i)..];
            && a.link == p.addon.link.(wire := [Select(i, p.addon.comp.cands[i], Prefix(CoverAt(p.addon.comp, i)))],
                                       handlers := [CandHandler(Some(ic), a.comp.epoch, p.addon.comp.revision + 1, rest)])
            && a.ic == Some(ic) && !a.defer.pending && a.comp.buf == rest && a.comp.revision == p.addon.comp.revision + 1
  {
    hide Send, UpdateUI;
    var a := p.addon;
    assert a.(link := a.link.(luck := [])) == a;
    var text, cover := a.comp.cands[i], CoverAt(a.comp, i);
    var s := a.(out := a.out + [Commit(ic, text, Choice(a.comp, i))],
                comp := a.comp.(buf := a.comp.buf[cover..], cands := [], covers := [], current := false,
                                revision := a.comp.revision + 1,
                                consumed := a.comp.consumed + a.comp.buf[..cover]),
                page := a.page.(start := 0, selected := 0));
    SendIsWritten(s, Select(i, text, Prefix(cover)), HandlerNow(s));
  }

  predicate LetterPress(e: Event) { IsLower(e.sym) && !e.release && !e.shortcut }

  lemma LetterUnderWay(a: State, ic: Ic, e: Event)
    requires Alive(a.link) && a.ic == Some(ic) && !a.defer.pending && LetterPress(e)
    ensures var r := ProcessKey(a, ic, e).st; var c := LetterOf(e.sym);
            && r.comp.buf == a.comp.buf + [c] && r.comp.revision == a.comp.revision + 1 && r.comp.epoch == a.comp.epoch
            && r.link == a.link.(wire := a.link.wire + [Batch([c])], handlers := a.link.handlers + [HandlerNow(r)],
                                 recovered := r.link.recovered)
            && r.ic == a.ic && r.defer == a.defer
  {
    hide UpdateUI, Request, PunctKey, DigitKey, BackspaceKey, CommitCandidate, Arm, CommitText, ClearAll, PendingKey, Send;
    var r := if MustRedraw(a) then UpdateUI(a) else a;
    var s := if r.comp.buf == "" then r.(link := r.link.(recovered := false)) else r;
    var t := s.(comp := s.comp.(revision := s.comp.revision + 1, buf := s.comp.buf + [LetterOf(e.sym)], current := false,
                                typed := s.comp.typed + [LetterOf(e.sym)], typists := s.comp.typists + [s.ic]));
    assert EnsureEngine(s) == s;
    RequestIsWritten(UpdateUI(t), [LetterOf(e.sym)]);
  }

  lemma AfterTyping(p: Pair, ic: Ic, i: nat, e: Event)
    requires PrefixWithoutId(p, i) && p.addon.ic == Some(ic)
    requires LetterPress(e)
    ensures TwoUnderWay(p, ClickedThenTyped(p, ic, i, e).addon, ic, i, LetterOf(e.sym))
    ensures ClickedThenTyped(p, ic, i, e) == p.(addon := ClickedThenTyped(p, ic, i, e).addon)
  {
    hide ProcessKey, CommitCandidate;
    AfterClick(p, ic, i);
    var a := Act(p, Click(ic, i)).addon;
    assert a.(link := a.link.(luck := [])) == a;
    LetterUnderWay(a, ic, e);
  }

  /** The daemon answers ERR to the selection, feeds the letter to its old session and shows cs. */
  lemma AfterServing(t: Pair, text: string, i: nat, cover: nat, c: char, cs: seq<D.Cand>)
    requires t.addon.link.wire == [Select(i, text, Prefix(cover)), Batch([c])] && 'a' <= c <= 'z'
    requires i < |t.daemon.cache| <= D.MAX_CAND && t.daemon.cache[i].id == None && t.inbox == []
    requires t.daemon.known && t.daemon.spans && |t.daemon.sent| + 1 < D.SENT_SIZE
    ensures MayMerge(t.addon.link.wire, 0) && MayMerge(Serve(t, 0, None).addon.link.wire, 0) && Serve(t, 0, None).booted == t.booted
    ensures var q := Serve(Serve(t, 0, None), 0, Some(cs));
            && q.addon == t.addon.(link := t.addon.link.(wire := []))
            && q.inbox == ["ERR", PrintCands(true, D.Entries(cs))] && q.booted == t.booted
            && q.daemon.known && q.daemon.sent == t.daemon.sent + [c]
  {
    hide Dispatch, Render, Cut, MayMerge;
    RenderedSelectFits(t.addon.link.wire[0]);
    DispatchOfRendered(t.addon.link.wire[0]);
    assert MayMerge(t.addon.link.wire, 0) by { HeadAlone(t.addon.link.wire); }
    var s := Serve(t, 0, None);
    assert s.daemon == t.daemon && s.inbox == ["ERR"];
    assert s.addon.link.wire == [Batch([c])];
    LetterServed(s, c, Some(cs));
  }

  lemma HeadAlone(wire: seq<Cmd>)
    requires wire != []
    ensures MayMerge(wire, 0)
  {
    assert Payloads(wire[1..1]) == [];
  }

  lemma LetterServed(t: Pair, c: char, found: Option<seq<D.Cand>>)
    requires t.addon.link.wire != [] && t.addon.link.wire[0] == Batch([c]) && 'a' <= c <= 'z'
    requires t.daemon.known && t.daemon.spans && |t.daemon.sent| + 1 < D.SENT_SIZE
    ensures MayMerge(t.addon.link.wire, 0)
    ensures var q := Serve(t, 0, found);
            && q.addon == t.addon.(link := t.addon.link.(wire := t.addon.link.wire[1..]))
            && q.inbox == t.inbox + [if found == None then "EMPTY" else PrintCands(true, D.Entries(found.value))]
            && q.booted == t.booted && q.lost == t.lost
            && q.daemon.known && q.daemon.spans && q.daemon.sent == t.daemon.sent + [c]
            && q.daemon.cache == (if found == None then t.daemon.cache else found.value)
  {
    hide Dispatch, Render, Cut, PrintCands, D.Entries;
    HeadAlone(t.addon.link.wire);
    DispatchOfRendered(Batch([c]));
    assert OrderAt(t.addon.link.wire, 0) == Keys(true, [c]);
    assert D.FeedAll(t.daemon, [c]) == D.FeedAll(D.Feed(t.daemon, c), [c][1..]);
    assert D.FeedAll(t.daemon, [c]) == D.Feed(t.daemon, c);
    assert D.Skips(0) == [];
  }

  /** A line that is no candidate line, for an older revision, changes nothing. */
  lemma StaleLineIgnored(a: State, line: string)
    requires Alive(a.link) && a.link.ready && a.link.handlers != [] && line != "" && !IsCandLine(line)
    requires a.link.handlers[0].CandHandler? && a.link.handlers[0].revision != a.comp.revision
    ensures Step(a, Line(line), []) == a.(link := a.link.(handlers := a.link.handlers[1..]))
  {
    hide ShowCandidates, TakePending, Unexpected;
    assert a.(link := a.link.(luck := [])) == a;
  }

  /** A candidate line for the present pinyin makes its candidates current. */
  lemma CurrentLineShown(a: State, line: string)
    requires Alive(a.link) && a.link.ready && a.link.handlers != [] && IsCandLine(line) && !a.defer.pending
    requires IsCurrent(a, a.link.handlers[0])
    ensures var r := Step(a, Line(line), []);
            && r.comp.current && r.comp.buf == a.comp.buf && r.ic == a.ic && r.defer == a.defer
            && r.comp.cands == Texts(ParseCands(a.link.spans, line))
            && r.link == a.link.(handlers := a.link.handlers[1..])
  {
    hide ShowCandidates, TakePending, Unexpected, ParseCands;
    assert a.(link := a.link.(luck := [])) == a;
    assert line[0] == 'C';
    ShowCandidatesCurrent(a.(link := a.link.(handlers := a.link.handlers[1..])), a.link.handlers[0], line);
  }

  /** The addon ignores the ERR, which is for an older revision, and shows cs as current. */
  lemma AfterReading(q: Pair, line: string)
    requires Alive(q.addon.link) && q.addon.link.ready && q.addon.link.wire == [] && q.inbox == ["ERR", line]
    requires |q.addon.link.handlers| == 2 && IsCurrent(q.addon, q.addon.link.handlers[1]) && !q.addon.defer.pending
    requires q.addon.link.handlers[0].CandHandler? && q.addon.link.handlers[0].revision != q.addon.comp.revision
    requires IsCandLine(line)
    ensures Deliver(q).inbox != []
    ensures var r := Deliver(Deliver(q));
            && r.addon.link.wire == [] && r.inbox == [] && r.addon.comp.current && r.daemon == q.daemon
            && r.addon.comp.buf == q.addon.comp.buf
  {
    hide Step;
    assert !IsCandLine("ERR");
    StaleLineIgnored(q.addon, "ERR");
    CurrentLineShown(Deliver(q).addon, line);
  }

  lemma ShowCandidatesCurrent(a: State, h: Handler, line: string)
    ensures ShowCandidates(a, h, line).comp.current == IsCurrent(a, h)
    ensures IsCandLine(line) ==> ShowCandidates(a, h, line).comp.cands == Texts(ParseCands(a.link.spans, line))
  {
  }

  /**
   * The mirror's condition cannot be dropped. When such a candidate is clicked and a letter is
   * typed before the daemon's ERR is read, the ERR finds a newer revision and is ignored: after
   * these six steps all commands are answered and the candidates are current, the daemon knows
   * its letters, yet they are not the addon's pinyin.
   */
  lemma LostSelectionBreaksMirror(p: Pair, ic: Ic, i: nat, e: Event, cs: seq<D.Cand>) returns (path: seq<Pair>)
    requires PrefixWithoutId(p, i) && p.addon.ic == Some(ic)
    requires LetterPress(e)
    requires Fetchable(Some(cs)) && cs != []
    ensures |path| == 7 && path[0] == p && forall k :: 0 < k < |path| ==> Next(path[k - 1], path[k])
    ensures var q := path[6];
            && q.addon.link.wire == [] && q.inbox == [] && q.addon.comp.current
            && q.daemon.known && q.daemon.sent == p.addon.comp.buf + [LetterOf(e.sym)]
            && q.addon.comp.buf == p.addon.comp.buf[CoverAt(p.addon.comp, i)..] + [LetterOf(e.sym)]
            && q.daemon.sent != q.addon.comp.buf
  {
    hide Serve, Deliver, Act, MayMerge, IsCandLine, PrintCands, Next;
    AfterTyping(p, ic, i, e);
    var p1 := Act(p, Click(ic, i));
    var p2, c := ClickedThenTyped(p, ic, i, e), LetterOf(e.sym);
    AfterServing(p2, p.addon.comp.cands[i], i, CoverAt(p.addon.comp, i), c, cs);
    var p3 := Serve(p2, 0, None);
    var p4 := Serve(p3, 0, Some(cs));
    CandRoundTrip(true, D.Entries(cs));
    AfterReading(p4, PrintCands(true, D.Entries(cs)));
    var p5 := Deliver(p4);
    path := [p, p1, p2, p3, p4, p5, Deliver(p5)];
    ActIsNext(p, Click(ic, i));
    ActIsNext(p1, Key(ic, e));
    ServeIsNext(p2, None);
    ServeIsNext(p3, Some(cs));
    DeliverIsNext(p4);
    DeliverIsNext(p5);
  }

  lemma ActIsNext(p: Pair, input: Input)
    requires OwnTurn(input)
    ensures Next(p, Act(p, input))
  {
  }

  lemma ServeIsNext(p: Pair, found: Option<seq<D.Cand>>)
    requires p.booted && MayMerge(p.addon.link.wire, 0) && Fetchable(found)
    ensures Next(p, Serve(p, 0, found))
  {
  }

  lemma DeliverIsNext(p: Pair)
    requires p.inbox != []
    ensures Next(p, Deliver(p))
  {
  }

  // ---------------------------------------------------------------- a run that gets there

  lemma Extends(ps: seq<Pair>, config: int, q: Pair)
    requires IsRun(ps, config) && Next(ps[|ps| - 1], q)
    ensures IsRun(ps + [q], config)
  {
    hide Next;
    var qs := ps + [q];
    forall k | 0 < k < |qs| ensures Next(qs[k - 1], qs[k]) {
      assert k < |ps| ==> qs[k - 1] == ps[k - 1] && qs[k] == ps[k];
    }
  }

  /** The engine is up, its mode is set, and nothing has been typed. */
  predicate Idle(p: Pair) {
    && p.booted && p.inbox == [] && !p.lost && p.daemon == D.Start().(spans := true)
    && Alive(p.addon.link) && p.addon.link.ready && p.addon.link.spans && p.addon.link.wire == [] && p.addon.link.handlers == []
    && p.addon.ic == None && !p.addon.defer.pending && p.addon.comp.buf == ""
  }

  lemma OptServed(p: Pair)
    requires p.addon.link.wire == [OptSpans]
    ensures MayMerge(p.addon.link.wire, 0)
    ensures Serve(p, 0, None) == p.(addon := p.addon.(link := p.addon.link.(wire := [])), loop := Serve(p, 0, None).loop,
                                    daemon := p.daemon.(spans := true), inbox := p.inbox + ["OK"])
  {
    hide Dispatch, Render, Cut;
    assert Payloads(p.addon.link.wire[1..1]) == [];
    DispatchOfRendered(OptSpans);
  }

  lemma ReadyRead(p: Pair)
    requires p.inbox == ["READY", "OK"] && Alive(p.addon.link) && !p.addon.link.ready && p.addon.link.handlers == [OptHandler]
    ensures Deliver(p).inbox != []
    ensures var q := Deliver(Deliver(p));
            q == p.(inbox := [], addon := p.addon.(link := p.addon.link.(ready := true, fails := 0, forks := 0,
                                                                         handlers := [], spans := true)))
  {
    var a := p.addon;
    assert a.(link := a.link.(luck := [])) == a;
    assert Deliver(p) == p.(inbox := ["OK"], addon := a.(link := a.link.(ready := true, fails := 0, forks := 0)));
  }

  /** The engine starts, answers OPT, and the addon reads both lines. */
  lemma Starts(config: int) returns (ps: seq<Pair>)
    ensures IsRun(ps, config) && Idle(ps[|ps| - 1])
  {
    hide Init, Next, Serve, Deliver, MayMerge;
    InitLink(config);
    var p0 := Begin(config);
    var p1 := Boot(p0);
    assert p1.inbox == ["READY"];
    OptServed(p1);
    var p2 := Serve(p1, 0, None);
    assert p2.inbox == ["READY", "OK"];
    ReadyRead(p2);
    ps := [p0];
    BootIsNext(p0);
    Extends(ps, config, p1);
    ServeIsNext(p1, None);
    Extends(ps + [p1], config, p2);
    DeliverIsNext(p2);
    Extends(ps + [p1] + [p2], config, Deliver(p2));
    DeliverIsNext(Deliver(p2));
    Extends(ps + [p1] + [p2] + [Deliver(p2)], config, Deliver(Deliver(p2)));
    ps := ps + [p1] + [p2] + [Deliver(p2)] + [Deliver(Deliver(p2))];
  }

  lemma BootIsNext(p: Pair)
    requires !p.booted
    ensures Next(p, Boot(p))
  {
  }

  /** Two letters from idle: three commands under way, only the last for the present pinyin. */
  predicate TwoLetters(p: Pair, q: Pair, ic: Ic, c1: char, c2: char) {
    var a := q.addon;
    && q == p.(addon := a) && Alive(a.link) && a.link.ready && a.link.spans && a.ic == Some(ic) && !a.defer.pending
    && a.link.wire == [Clear, Batch([c1]), Batch([c2])] && a.comp.buf == [c1, c2]
    && |a.link.handlers| == 3 && a.link.handlers[0] == NoHandler
    && a.link.handlers[1].CandHandler? && a.link.handlers[1].revision != a.comp.revision
    && IsCurrent(a, a.link.handlers[2])
  }

  lemma TypeTwo(p: Pair, ic: Ic, e1: Event, e2: Event)
    requires Idle(p) && LetterPress(e1) && LetterPress(e2)
    ensures TwoLetters(p, Act(Act(p, Key(ic, e1)), Key(ic, e2)), ic, LetterOf(e1.sym), LetterOf(e2.sym))
  {
    hide ProcessKey;
    var a := p.addon;
    assert a.(link := a.link.(luck := [])) == a;
    FirstLetter(a, ic, e1);
    var b := Act(p, Key(ic, e1)).addon;
    assert b.(link := b.link.(luck := [])) == b;
    LetterUnderWay(b, ic, e2);
    assert [LetterOf(e1.sym)] + [LetterOf(e2.sym)] == [LetterOf(e1.sym), LetterOf(e2.sym)];
  }

  /** The first key of an input context clears first. */
  lemma FirstLetter(a: State, ic: Ic, e: Event)
    requires Alive(a.link) && a.ic == None && LetterPress(e) && !a.defer.pending
    ensures var r := ProcessKey(a, ic, e).st; var c := LetterOf(e.sym);
            && r.comp.buf == [c] && r.ic == Some(ic) && !r.defer.pending
            && r.link == a.link.(wire := a.link.wire + [Clear, Batch([c])],
                                 handlers := a.link.handlers + [NoHandler, HandlerNow(r)], recovered := r.link.recovered)
  {
    hide Send, IdleKey, PendingKey;
    var s := Focus(a, ic);
    assert s.link == a.link.(wire := a.link.wire + [Clear], handlers := a.link.handlers + [NoHandler], recovered := false);
    LetterUnderWay(s, ic, e);
    assert ProcessKey(a, ic, e) == ProcessKey(s, ic, e);
    assert a.link.wire + [Clear] + [Batch([LetterOf(e.sym)])] == a.link.wire + [Clear, Batch([LetterOf(e.sym)])];
  }

  lemma ClearServed(t: Pair)
    requires t.addon.link.wire != [] && t.addon.link.wire[0] == Clear
    ensures MayMerge(t.addon.link.wire, 0)
    ensures Serve(t, 0, None) == t.(addon := t.addon.(link := t.addon.link.(wire := t.addon.link.wire[1..])), loop := Serve(t, 0, None).loop,
                                    daemon := D.Clear(t.daemon).d, inbox := t.inbox + ["OK"], lost := false)
  {
    hide Dispatch, Render, Cut;
    HeadAlone(t.addon.link.wire);
    DispatchOfRendered(Clear);
  }

  /** The daemon answers C and the two letters, showing cs for the second. */
  lemma ServeThree(p: Pair, t: Pair, ic: Ic, c1: char, c2: char, cs: seq<D.Cand>) returns (s1: Pair, s2: Pair, s3: Pair)
    requires Idle(p) && TwoLetters(p, t, ic, c1, c2) && 'a' <= c1 <= 'z' && 'a' <= c2 <= 'z' && Fetchable(Some(cs))
    ensures Next(t, s1) && Next(s1, s2) && Next(s2, s3)
    ensures s3.addon == t.addon.(link := t.addon.link.(wire := []))
    ensures s3.inbox == ["OK", "EMPTY", PrintCands(true, D.Entries(cs))]
    ensures s3.booted && !s3.lost && s3.daemon.cache == cs
  {
    hide Serve, MayMerge, PrintCands, Next;
    ClearServed(t);
    s1 := Serve(t, 0, None);
    LetterServed(s1, c1, None);
    s2 := Serve(s1, 0, None);
    assert s2.inbox == ["OK", "EMPTY"];
    LetterServed(s2, c2, Some(cs));
    s3 := Serve(s2, 0, Some(cs));
    ServeIsNext(t, None);
    ServeIsNext(s1, None);
    ServeIsNext(s2, Some(cs));
  }

  lemma OkIgnored(a: State)
    requires Alive(a.link) && a.link.ready && a.link.handlers != [] && a.link.handlers[0] == NoHandler
    ensures Step(a, Line("OK"), []) == a.(link := a.link.(handlers := a.link.handlers[1..]))
  {
    assert a.(link := a.link.(luck := [])) == a;
  }

  /** The addon reads the three answers; the last makes its candidates current. */
  lemma ReadThree(s: Pair, line: string) returns (r1: Pair, r2: Pair, r3: Pair)
    requires Alive(s.addon.link) && s.addon.link.ready && !s.addon.defer.pending && IsCandLine(line)
    requires s.inbox == ["OK", "EMPTY", line] && |s.addon.link.handlers| == 3 && s.addon.link.handlers[0] == NoHandler
    requires s.addon.link.handlers[1].CandHandler? && s.addon.link.handlers[1].revision != s.addon.comp.revision
    requires IsCurrent(s.addon, s.addon.link.handlers[2])
    ensures Next(s, r1) && Next(r1, r2) && Next(r2, r3)
    ensures r3 == s.(inbox := [], addon := r3.addon) && r3.addon.ic == s.addon.ic && !r3.addon.defer.pending
    ensures r3.addon.comp.current && r3.addon.comp.buf == s.addon.comp.buf
    ensures r3.addon.comp.cands == Texts(ParseCands(s.addon.link.spans, line)) && r3.addon.link.ready
  {
    hide Step, Next, ParseCands;
    assert !IsCandLine("EMPTY") by { assert "EMPTY"[..5][0] != "CAND\t"[0]; }
    OkIgnored(s.addon);
    r1 := Deliver(s);
    assert r1.inbox == ["EMPTY", line];
    StaleLineIgnored(r1.addon, "EMPTY");
    r2 := Deliver(r1);
    assert r2.inbox == [line] && r2.addon.link.handlers == [s.addon.link.handlers[2]];
    CurrentLineShown(r2.addon, line);
    r3 := Deliver(r2);
    DeliverIsNext(s);
    DeliverIsNext(r1);
    DeliverIsNext(r2);
  }

  /** A run from the start to a prefix candidate without an id, for whatever candidates the engine shows. */
  lemma RunToPrefix(config: int, ic: Ic, e1: Event, e2: Event, cs: seq<D.Cand>, i: nat) returns (ps: seq<Pair>)
    requires LetterPress(e1) && LetterPress(e2) && Fetchable(Some(cs))
    requires i < |cs| && cs[i].cover == 1 && cs[i].id == None
    ensures IsRun(ps, config) && PrefixWithoutId(ps[|ps| - 1], i) && ps[|ps| - 1].addon.ic == Some(ic)
  {
    hide Next, Idle, PrefixWithoutId;
    ps := Starts(config);
    var more := PrefixSteps(ps[|ps| - 1], ic, e1, e2, cs);
    ps := ExtendBy(ps, config, more);
    RunIsQuiet(ps, config, i);
  }

  /** Two letters typed, answered and read. */
  lemma PrefixSteps(p: Pair, ic: Ic, e1: Event, e2: Event, cs: seq<D.Cand>) returns (more: seq<Pair>)
    requires Idle(p) && LetterPress(e1) && LetterPress(e2) && Fetchable(Some(cs)) && cs != []
    ensures more != [] && Next(p, more[0]) && forall k :: 0 < k < |more| ==> Next(more[k - 1], more[k])
    ensures var r := more[|more| - 1];
            && r.booted && r.inbox == [] && !r.lost && r.addon.comp.current && r.addon.link.ready && !r.addon.defer.pending
            && |r.addon.comp.buf| == 2 && |r.addon.comp.cands| == |r.daemon.cache| && r.daemon.cache == cs && r.addon.ic == Some(ic)
  {
    hide Next, Idle, Act, Deliver, Serve, IsCandLine, PrintCands;
    var q1 := Act(p, Key(ic, e1));
    var q2 := Act(q1, Key(ic, e2));
    TypeTwo(p, ic, e1, e2);
    var s1, s2, s3 := ServeThree(p, q2, ic, LetterOf(e1.sym), LetterOf(e2.sym), cs);
    CandRoundTrip(true, D.Entries(cs));
    var r1, r2, r3 := ReadThree(s3, PrintCands(true, D.Entries(cs)));
    ActIsNext(p, Key(ic, e1));
    ActIsNext(q1, Key(ic, e2));
    more := [q1, q2, s1, s2, s3, r1, r2, r3];
  }

  lemma {:induction false} ExtendBy(ps: seq<Pair>, config: int, more: seq<Pair>) returns (qs: seq<Pair>)
    requires IsRun(ps, config) && more != [] && Next(ps[|ps| - 1], more[0])
    requires forall k :: 0 < k < |more| ==> Next(more[k - 1], more[k])
    ensures IsRun(qs, config) && qs[|qs| - 1] == more[|more| - 1]
    decreases |more|
  {
    hide Next;
    Extends(ps, config, more[0]);
    if |more| == 1 {
      qs := ps + more;
      assert more == [more[0]];
    } else {
      forall k | 0 < k < |more[1..]| ensures Next(more[1..][k - 1], more[1..][k]) {
        assert Next(more[k], more[k + 1]);
      }
      qs := ExtendBy(ps + [more[0]], config, more[1..]);
    }
  }

  /** What every run keeps makes such a pair quiet. */
  lemma RunIsQuiet(ps: seq<Pair>, config: int, i: nat)
    requires IsRun(ps, config)
    requires var p := ps[|ps| - 1];
             && p.booted && p.inbox == [] && !p.lost && p.addon.comp.current && p.addon.link.ready && !p.addon.defer.pending
             && |p.addon.comp.buf| == 2 && |p.addon.comp.cands| == |p.daemon.cache|
             && i < |p.daemon.cache| && p.daemon.cache[i].cover == 1 && p.daemon.cache[i].id == None
    ensures PrefixWithoutId(ps[|ps| - 1], i)
  {
    hide Next, AtRest, Words, Drained, Mirrors;
    EveryPairIsGood(ps, config, false);
    var p := ps[|ps| - 1];
    AtRestIsSound(p.addon);
    ChoiceIsHeld(p.addon, EnvOf(p, false), i);
    QuietMirror(p, i);
    ServedSessionMirror(ps, config, |ps| - 1);
  }

  /**
   * A whole run that breaks the mirror: two letters, candidates of which one covers the first letter and
   * has no id, a click on it, and one more letter before the ERR is read. Everything is answered and the
   * candidates are current, yet the daemon's letters are not the pinyin.
   */
  lemma RunBreaksMirror(config: int, ic: Ic, e1: Event, e2: Event, e3: Event, cs: seq<D.Cand>, i: nat) returns (ps: seq<Pair>)
    requires LetterPress(e1) && LetterPress(e2) && LetterPress(e3) && Fetchable(Some(cs))
    requires i < |cs| && cs[i].cover == 1 && cs[i].id == None
    ensures IsRun(ps, config)
    ensures var q := ps[|ps| - 1];
            && q.addon.link.wire == [] && q.inbox == [] && q.addon.comp.current
            && q.daemon.known && q.daemon.sent != q.addon.comp.buf
  {
    hide Next, PrefixWithoutId, KeepsRest;
    ps := RunToPrefix(config, ic, e1, e2, cs, i);
    var path := LostSelectionBreaksMirror(ps[|ps| - 1], ic, i, e3, cs);
    forall k | 0 < k < |path[1..]| ensures Next(path[1..][k - 1], path[1..][k]) {
      assert Next(path[k], path[k + 1]);
    }
    ps := ExtendBy(ps, config, path[1..]);
  }
}
