/** What the joint runs mean for the person typing. */
module JointTheorems {
  import opened Basics
  import opened Wire
  import opened Addon
  import opened AddonRuns
  import opened Joint
  import opened JointRuns

  /**
   * Selection agreement. Whenever the daemon is about to act on `S i`, its cache still holds
   * at i the text the addon committed; that text, under its id, is what the engine is told to
   * learn. When along the run every cached candidate had an id and the pinyin was at most 255
   * letters, no selection is lost, and the daemon keeps composing exactly when the candidate
   * covered a proper prefix: as the addon does, except behind a punctuation key.
   */
  lemma SelectionAgreement(ps: seq<Pair>, config: int, k: nat, found: Option<seq<D.Cand>>)
    requires IsRun(ps, config) && k < |ps|
    requires ps[k].addon.link.wire != [] && ps[k].addon.link.wire[0].Select? && MayMerge(ps[k].addon.link.wire, 0)
    ensures var p := ps[k]; var Select(i, text, purpose) := p.addon.link.wire[0]; var q := Serve(p, 0, found);
            && i < |p.daemon.cache| && p.daemon.cache[i].text == text && (purpose.Prefix? ==> p.daemon.cache[i].cover == purpose.cover)
            && q.daemon.calls == p.daemon.calls +
                 (match p.daemon.cache[i].id case Some(id) => [D.Learn(text, id, p.daemon.cache[i].cover)] case None => [])
            && ((forall j :: 0 <= j <= k ==> Trusty(ps[j])) ==>
                  !p.lost && D.Choosable(p.daemon, i) && D.IsPartial(p.daemon, i) == CoversPrefix(purpose))
  {
    hide Good, OrderAt, HoldsChoice, Trusty, IsRun;
    EveryPairIsGood(ps, config, false);
    HeadOfGood(ps[k], false);
    SelectServed(ps[k], found);
    if forall j :: 0 <= j <= k ==> Trusty(ps[j]) {
      TrustyIsGood(ps, config, k);
      TrustySelect(ps[k]);
    }
  }

  /** The daemon acting on a selection it holds. */
  lemma SelectServed(p: Pair, found: Option<seq<D.Cand>>)
    requires p.addon.link.wire != [] && p.addon.link.wire[0].Select?
    requires HoldsChoice(EnvOf(p, false), p.addon.link.wire[0]) && OrderAt(p.addon.link.wire, 0) == Choose(p.addon.link.wire[0].index)
    ensures var Select(i, text, purpose) := p.addon.link.wire[0]; var q := Serve(p, 0, found);
            && i < |p.daemon.cache| && p.daemon.cache[i].text == text && (purpose.Prefix? ==> p.daemon.cache[i].cover == purpose.cover)
            && q.daemon.calls == p.daemon.calls +
                 (match p.daemon.cache[i].id case Some(id) => [D.Learn(text, id, p.daemon.cache[i].cover)] case None => [])
  {
    hide OrderAt;
  }

  lemma TrustySelect(p: Pair)
    requires Good(p, true) && Trusty(p) && p.addon.link.wire != [] && p.addon.link.wire[0].Select?
    ensures var Select(i, text, purpose) := p.addon.link.wire[0];
            !p.lost && D.Choosable(p.daemon, i) && D.IsPartial(p.daemon, i) == CoversPrefix(purpose)
  {
    HeadOfGood(p, true);
  }

  lemma TrustyIsGood(ps: seq<Pair>, config: int, k: nat)
    requires IsRun(ps, config) && k < |ps| && forall j :: 0 <= j <= k ==> Trusty(ps[j])
    ensures Good(ps[k], true)
  {
    hide Good, Trusty, Next;
    var qs := ps[..k + 1];
    forall j | 0 < j < |qs| ensures Next(qs[j - 1], qs[j]) {
      assert qs[j - 1] == ps[j - 1] && qs[j] == ps[j];
    }
    EveryPairIsGood(qs, config, true);
  }

  lemma HeadSelectHeld(a: State, e: Env)
    requires Inv(a, e) && a.link.wire != [] && a.link.wire[0].Select?
    ensures HoldsChoice(e, a.link.wire[0]) && e.d.spans
  {
  }

  lemma HeadOfGood(p: Pair, sure: bool)
    requires Good(p, sure) && p.addon.link.wire != [] && p.addon.link.wire[0].Select?
    ensures HoldsChoice(EnvOf(p, sure), p.addon.link.wire[0]) && p.daemon.spans
    ensures MayMerge(p.addon.link.wire, 0) && OrderAt(p.addon.link.wire, 0) == Choose(p.addon.link.wire[0].index)
  {
    hide Render, Dispatch, Cut;
    assert Payloads(p.addon.link.wire[1..1]) == [];
    HeadSelectHeld(p.addon, EnvOf(p, sure));
    HeadIsRead(p.addon, EnvOf(p, sure));
  }

  /**
   * What the recorded purpose says: the candidate, by the reply it was read from, covers a proper
   * prefix of the pinyin it is chosen for. A symbol ends the composition either way: C follows its S.
   */
  lemma PurposeIsRecorded(a: State, ic: Ic, e: Event)
    requires Alive(a.link) && Selectable(a) && a.comp.buf != "" && e.punct != "" && 0 <= a.page.selected < |a.comp.cands|
    ensures var i := a.page.selected; var rest := 0 < CoverAt(a.comp, i) < |a.comp.buf|;
            && PunctKey(a, ic, e).st.link.wire == a.link.wire + [Select(i, a.comp.cands[i], Punctuated(rest)), Clear]
            && CommitCandidate(a, ic, i).link.wire ==
                 a.link.wire + (if rest then [Select(i, a.comp.cands[i], Prefix(CoverAt(a.comp, i)))] else [Select(i, a.comp.cands[i], Whole), Clear])
  {
    hide UpdateUI, Send;
    var i := a.page.selected;
    assert CommitText(Send(a, Select(i, a.comp.cands[i], Whole), NoHandler), ic, a.comp.cands[i], Choice(a.comp, i)).link.wire
        == a.link.wire + [Select(i, a.comp.cands[i], Whole)] + [Clear];
  }

  /**
   * The exact condition on a click. Served, a selection from a composition with none lost before it is
   * lost if and only if the candidate covers a proper prefix and came without an id, or the pinyin had
   * more than 255 letters.
   */
  lemma LostExactlyWhen(ps: seq<Pair>, config: int, k: nat, ic: Ic, i: nat, found: Option<seq<D.Cand>>)
    requires IsRun(ps, config) && k < |ps| && !ps[k].lost
    requires ps[k].addon.comp.current && i < |ps[k].addon.comp.cands|
    ensures var p := ps[k]; var q := Act(p, Click(ic, i));
            && q.addon.link.wire != [] && MayMerge(q.addon.link.wire, 0) && i < |p.daemon.cache|
            && Serve(q, 0, found).lost ==
                 (KeepsRest(p.addon.comp, i) && (p.daemon.cache[i].id == None || |p.addon.comp.buf| >= D.SENT_SIZE))
  {
    hide Good, MayMerge, Serve, KeepsRest, Act, IsRun;
    EveryPairIsGood(ps, config, false);
    var p, q := ps[k], Act(ps[k], Click(ic, i));
    ActIsGood(p, Click(ic, i), false);
    ClickWrites(p, ic, i);
    ServedClick(q, i, found);
    QuietMirror(p, i);
  }

  /**
   * And the exact condition of the mirror itself. After a click from a composition with nothing lost,
   * the session behind the pipe is the pinyin on screen, unless the candidate covers a proper prefix
   * and either came without an id, or was chosen for more than 255 letters of which fewer are left.
   */
  lemma MirrorKeptExactly(ps: seq<Pair>, config: int, k: nat, ic: Ic, i: nat)
    requires IsRun(ps, config) && k < |ps| && !ps[k].lost
    requires ps[k].addon.comp.current && i < |ps[k].addon.comp.cands|
    ensures var p := ps[k]; var q := Act(p, Click(ic, i)); var buf, cover := p.addon.comp.buf, CoverAt(p.addon.comp, i);
            && i < |p.daemon.cache|
            && (Reflects(Ahead(q), q.addon.comp.buf) <==>
                  !(0 < cover < |buf| && (if |buf| < D.SENT_SIZE then p.daemon.cache[i].id == None else |buf| - cover < D.SENT_SIZE)))
  {
    hide Good, Act, IsRun, Drained, Reflects;
    EveryPairIsGood(ps, config, false);
    var p, q := ps[k], Act(ps[k], Click(ic, i));
    ClickWrites(p, ic, i);
    QuietMirror(p, i);
    var s := SessionOf(p);
    assert Drained(s, q.daemon, []) == s by { NothingAhead(s, q.daemon); }
    DrainedSnoc(s, q.daemon, [], q.addon.link.wire[0]);
    assert [] + [q.addon.link.wire[0]] == [q.addon.link.wire[0]];
    if KeepsRest(p.addon.comp, i) {
      AfterPrefix(s, q.daemon, q.addon.link.wire[0], p.addon.comp.buf);
    } else {
      DrainedSnoc(s, q.daemon, [q.addon.link.wire[0]], Clear);
      assert [q.addon.link.wire[0]] + [Clear] == q.addon.link.wire;
      EmptyReflects();
    }
  }

  lemma NothingAhead(s: Session, d: D.State)
    ensures Drained(s, d, []) == s
  {
  }

  lemma EmptyReflects()
    ensures Reflects(Session("", true, false), "")
  {
  }

  lemma AfterPrefix(s: Session, d: D.State, c: Cmd, buf: string)
    requires c.Select? && c.purpose.Prefix? && c.index < |d.cache| && c.purpose.cover == d.cache[c.index].cover
    requires Reflects(s, buf) && d.spans && 0 < c.purpose.cover < |buf|
    ensures Reflects(After(s, d, c), buf[c.purpose.cover..]) <==>
              !(if |buf| < D.SENT_SIZE then d.cache[c.index].id == None else |buf| - c.purpose.cover < D.SENT_SIZE)
  {
    assert |buf[c.purpose.cover..]| < |buf|;
  }

  lemma ServedClick(q: Pair, i: nat, found: Option<seq<D.Cand>>)
    requires Good(q, false) && q.addon.link.wire != [] && q.addon.link.wire[0].Select? && q.addon.link.wire[0].index == i
    requires !q.addon.link.wire[0].purpose.Punctuated? && !q.lost
    ensures MayMerge(q.addon.link.wire, 0) && i < |q.daemon.cache|
    ensures Serve(q, 0, found).lost ==
              (q.addon.link.wire[0].purpose.Prefix? && (q.daemon.cache[i].id == None || !q.daemon.known))
  {
    hide Good, OrderAt, D.Handle;
    HeadOfGood(q, false);
    assert Payloads(q.addon.link.wire[1..1]) == [];
  }

  lemma ClickWrites(p: Pair, ic: Ic, i: nat)
    requires Good(p, false) && p.addon.comp.current && i < |p.addon.comp.cands|
    ensures var q := Act(p, Click(ic, i)); var text, cover := p.addon.comp.cands[i], CoverAt(p.addon.comp, i);
            && q.daemon == p.daemon && q.lost == p.lost
            && (if KeepsRest(p.addon.comp, i)
                then q.addon.link.wire == [Select(i, text, Prefix(cover))] && q.addon.comp.buf == p.addon.comp.buf[cover..]
                else q.addon.link.wire == [Select(i, text, Whole), Clear] && q.addon.comp.buf == "")
  {
    hide AtRest, Words, Drained, Mirrors, Send, UpdateUI, Good;
    var a := p.addon;
    QuietPair(p);
    assert a.(link := a.link.(luck := [])) == a;
  }

  lemma QuietPair(p: Pair)
    requires Good(p, false) && p.addon.comp.current
    ensures Alive(p.addon.link) && p.addon.link.wire == []
  {
    hide AtRest, Words, Drained, Mirrors;
  }

  lemma QuietMirror(p: Pair, i: nat)
    requires Good(p, false) && p.addon.comp.current && i < |p.addon.comp.cands| && !p.lost
    ensures p.daemon.known == (|p.addon.comp.buf| < D.SENT_SIZE) && Reflects(SessionOf(p), p.addon.comp.buf) && p.daemon.spans
    ensures i < |p.daemon.cache| && p.daemon.cache[i].cover == CoverAt(p.addon.comp, i)
  {
    hide AtRest, Words;
    AtRestIsSound(p.addon);
    ChoiceIsHeld(p.addon, EnvOf(p, false), i);
  }

  /**
   * Session mirror. In every state of every run the session behind the pipe holds exactly the
   * pinyin on screen: the daemon knows its letters exactly while they are at most 255, unless
   * a selection was lost since the last C; and none is lost in a trusty run.
   */
  lemma SessionMirror(ps: seq<Pair>, config: int, k: nat)
    requires IsRun(ps, config) && k < |ps|
    ensures var p := ps[k];
            !Ahead(p).lost ==>
              && Ahead(p).known == (|p.addon.comp.buf| < D.SENT_SIZE)
              && (Ahead(p).known ==> Ahead(p).sent == p.addon.comp.buf)
    ensures (forall j :: 0 <= j <= k ==> Trusty(ps[j])) ==>
              !Ahead(ps[k]).lost && Ahead(ps[k]).known && Ahead(ps[k]).sent == ps[k].addon.comp.buf
  {
    hide Good, Drained, IsRun, Trusty, Mirrors;
    EveryPairIsGood(ps, config, false);
    MirrorOfGood(ps[k], false);
    if forall j :: 0 <= j <= k ==> Trusty(ps[j]) {
      TrustyIsGood(ps, config, k);
      MirrorOfGood(ps[k], true);
    }
  }

  lemma MirrorOfGood(p: Pair, sure: bool)
    requires Good(p, sure) && (sure ==> Trusty(p))
    ensures !Ahead(p).lost || sure ==>
              !Ahead(p).lost && Ahead(p).known == (|p.addon.comp.buf| < D.SENT_SIZE)
              && (Ahead(p).known ==> Ahead(p).sent == p.addon.comp.buf)
    ensures sure ==> Ahead(p).known
  {
    hide Drained, AtRest, Words;
  }

  /** With every command served, the daemon itself holds the pinyin. */
  lemma ServedSessionMirror(ps: seq<Pair>, config: int, k: nat)
    requires IsRun(ps, config) && k < |ps|
    requires ps[k].addon.link.wire == [] && !ps[k].lost && |ps[k].addon.comp.buf| < D.SENT_SIZE
    ensures ps[k].daemon.known && ps[k].daemon.sent == ps[k].addon.comp.buf
  {
    SessionMirror(ps, config, k);
  }

  /**
   * Whatever can be selected on screen is the daemon's cache, index for index, with every
   * command answered and every answer read; and what the daemon was told to select, with what
   * is still under way, are the candidates the addon committed, one for one and in order.
   */
  lemma LearnedWordsAreCommitted(ps: seq<Pair>, config: int, k: nat)
    requires IsRun(ps, config) && k < |ps|
    ensures var p := ps[k];
            && (p.addon.comp.current && p.addon.comp.cands != [] ==>
                  && p.addon.link.handlers == [] && p.addon.link.wire == [] && RepliesComing(p) == []
                  && p.addon.comp.cands == Texts(D.Entries(p.daemon.cache))
                  && p.addon.comp.covers == Covers(D.Entries(p.daemon.cache)))
            && p.learned + SelectTexts(p.addon.link.wire) == Words(p.addon.out)
            && |p.addon.link.handlers| == |p.addon.link.wire| + |RepliesComing(p)|
  {
    EveryPairIsGood(ps, config, false);
    hide Drained, Words;
  }
}
