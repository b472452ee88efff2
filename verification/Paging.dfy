/** The candidate window: navigation, and what a label or a click selects. */
module Paging {
  import opened Basics
  import opened Addon

  /** Whatever the indices and the new page size, alignment gives a window that holds the selection. */
  lemma AlignmentIsOk(p: Page, count: nat, size: int)
    requires 1 <= size <= 10
    ensures count > 0 ==> PageOk(Normalized(p, count, size), count, size)
    ensures Normalized(Normalized(p, count, size), count, size) == Normalized(p, count, size)
    ensures PageOk(p, count, size) ==> Normalized(p, count, size) == p
  {
    NormalizedTwice(p, count, size);
    if count > 0 {
      PageBounds(p, count, size);
    }
    if PageOk(p, count, size) {
      Floor(p.start, size);
    }
  }

  /** Alignment goes to the page that holds the old start, or the nearest candidate to it, and moves the selection no further than it must. */
  lemma AlignmentKeepsPlace(p: Page, count: nat, size: int)
    requires 1 <= size <= 10 && count > 0
    ensures var n := Normalized(p, count, size);
            && n.start <= (if p.start < 0 then 0 else Min(p.start, count - 1)) < n.start + size
            && (n.start <= p.selected < Min(n.start + size, count) ==> n.selected == p.selected)
            && (p.selected < n.start ==> n.selected == n.start)
            && (p.selected >= Min(n.start + size, count) ==> n.selected == Min(n.start + size, count) - 1)
  {
    Floor(Clamp(p.start, 0, count - 1), size);
  }

  predicate CanGoForward(p: Page, count: nat, size: int) { p.start + size < count }

  /** Forward keeps the window aligned, and back from there is the page it came from. */
  lemma ForwardThenBack(p: Page, count: nat, size: int)
    requires PageOk(p, count, size) && CanGoForward(p, count, size)
    ensures PageOk(PageForward(p, size), count, size)
    ensures PageBack(PageForward(p, size), size) == p.(selected := p.start)
  {
    NextMultiple(p.start, size);
  }

  lemma NextMultiple(start: int, size: int)
    requires 1 <= size <= 10 && start % size == 0 && start >= 0
    ensures (start + size) % size == 0
    ensures start > 0 ==> start >= size && (start - size) % size == 0
  {
    var q := start / size;
    assert start == q * size + start % size;
    assert (q + 1) * size == start + size;
    MultipleOf(q + 1, size);
    if q > 0 {
      assert (q - 1) * size == start - size;
      MultipleOf(q - 1, size);
    }
  }

  lemma BackThenForward(p: Page, count: nat, size: int)
    requires PageOk(p, count, size) && p.start > 0
    ensures PageOk(PageBack(p, size), count, size)
    ensures PageForward(PageBack(p, size), size) == p.(selected := p.start)
  {
    NextMultiple(p.start, size);
  }

  /** The arrow keys never leave the aligned window. */
  lemma ArrowsStayOk(p: Page, sym: nat, count: nat, size: int)
    requires PageOk(p, count, size)
    ensures PageOk(ArrowMove(p, sym, size, count), count, size)
  {
    if p.start > 0 {
      BackThenForward(p, count, size);
    }
    if CanGoForward(p, count, size) {
      ForwardThenBack(p, count, size);
    }
  }

  function ForwardTimes(p: Page, count: nat, size: int, n: nat): Page {
    if n == 0 then p
    else
      var q := ForwardTimes(p, count, size, n - 1);
      if CanGoForward(q, count, size) then PageForward(q, size) else q
  }

  /** Paging forward from the first page shows every candidate. */
  lemma {:induction false} ForwardReaches(count: nat, size: int, rendered: int, index: nat)
    requires 1 <= size <= 10 && index < count
    ensures var p := ForwardTimes(Page(0, 0, rendered), count, size, index / size);
            PageOk(p, count, size) && p.start <= index < p.start + size
  {
    hide ForwardTimes;
    WholePages(index, size);
    ForwardStarts(count, size, rendered, index / size);
  }

  lemma WholePages(index: nat, size: int)
    requires size > 0
    ensures index / size * size <= index < index / size * size + size
  {
    assert index == index / size * size + index % size;
  }

  lemma {:induction false} ForwardStarts(count: nat, size: int, rendered: int, n: nat)
    requires 1 <= size <= 10 && n * size < count
    ensures ForwardTimes(Page(0, 0, rendered), count, size, n) == Page(n * size, n * size, rendered)
    ensures PageOk(Page(n * size, n * size, rendered), count, size)
  {
    MultipleOf(n, size);
    if n > 0 {
      assert (n - 1) * size == n * size - size;
      ForwardStarts(count, size, rendered, n - 1);
    }
  }

  /** The label drawn before the k-th visible candidate. */
  function LabelKey(k: nat): nat { if k == 9 then 0x30 else 0x31 + k }

  /** The state in which a key is looked up: the panel is first redrawn when the page size changed. */
  function Refreshed(st: State): State { if MustRedraw(st) then UpdateUI(st) else st }

  /** Every run leaves on screen the window of candidates the state speaks of. */
  lemma {:induction false} EveryRunIsShown(config: int, luck: seq<bool>, turns: seq<Turn>)
    ensures Shown(Run(Init(config, luck), turns))
    decreases |turns|
  {
    hide Step, Init;
    if turns != [] {
      EveryRunIsShown(config, luck, turns[..|turns| - 1]);
    }
  }

  /** Before a key acts, the panel shows a full page of the present size. */
  lemma RefreshedPanel(st: State)
    requires Shown(st) && st.comp.cands != []
    ensures var s := Refreshed(st); var size := PageSize(st.config);
            && Kept(st, s) && Shown(s) && PageOk(s.page, |s.comp.cands|, size)
            && |s.panel.items| == Min(size, |s.comp.cands| - s.page.start)
            && forall k :: 0 <= k < |s.panel.items| ==> s.panel.items[k] == s.comp.cands[s.page.start + k]
  {
    if !MustRedraw(st) {
      AlignmentIsOk(st.page, |st.comp.cands|, PageSize(st.config));
    }
  }

  /** The text a state's last output committed, when there is one. */
  predicate CommittedNext(before: State, after: State, ic: Ic, text: string) {
    |after.out| > |before.out| && after.out[|before.out|].Commit?
    && after.out[|before.out|].ic == ic && after.out[|before.out|].text == text
  }

  /**
   * A digit key on current candidates commits exactly the candidate drawn with that label,
   * and a digit that labels nothing commits nothing.
   */
  lemma DigitSelectsItsLabel(st: State, ic: Ic, e: Event, k: nat)
    requires Shown(st) && st.comp.current && st.comp.cands != [] && st.comp.buf != ""
    requires st.ic == Some(ic) && !st.defer.pending && !e.release && !e.shortcut
    requires k < 10 && e.sym == LabelKey(k)
    ensures var items := Refreshed(st).panel.items;
            if k < |items| then CommittedNext(st, ProcessKey(st, ic, e).st, ic, items[k]) && ProcessKey(st, ic, e).accepted
            else ProcessKey(st, ic, e).st.out == st.out
  {
    hide UpdateUI, DigitKey, Shown, MustRedraw;
    RefreshedPanel(st);
    DigitIsLookedUp(st, ic, e, k);
    DigitCommits(Refreshed(st), ic, k);
  }

  /** A digit key gets as far as the lookup, unless it is 0 and labels nothing. */
  lemma DigitIsLookedUp(st: State, ic: Ic, e: Event, k: nat)
    requires st.comp.buf != "" && st.ic == Some(ic) && !st.defer.pending && !e.release && !e.shortcut
    requires k < 10 && e.sym == LabelKey(k)
    ensures ProcessKey(st, ic, e) ==
            if k < 9 || PageSize(st.config) >= 10 then DigitKey(Refreshed(st), ic, e.sym) else Result(Refreshed(st), false)
  {
    hide DigitKey, Shown, MustRedraw, CommitText, CommitCandidate, PunctKey, LetterKey, BackspaceKey, ClearAll, Arm;
  }

  /** What the lookup commits. */
  lemma DigitCommits(s: State, ic: Ic, k: nat)
    requires s.comp.current && k < 10 && s.comp.cands != [] && PageOk(s.page, |s.comp.cands|, PageSize(s.config))
    requires |s.panel.items| == Min(PageSize(s.config), |s.comp.cands| - s.page.start)
    requires forall i :: 0 <= i < |s.panel.items| ==> s.panel.items[i] == s.comp.cands[s.page.start + i]
    ensures if k < |s.panel.items|
            then CommittedNext(s, DigitKey(s, ic, LabelKey(k)).st, ic, s.panel.items[k]) && DigitKey(s, ic, LabelKey(k)).accepted
            else DigitKey(s, ic, LabelKey(k)) == Result(s, false)
  {
    hide Shown, CommitCandidate, CommittedNext;
    if k < |s.panel.items| {
      CandidateCommits(s, ic, s.page.start + k);
    }
  }

  lemma CandidateCommits(st: State, ic: Ic, index: int)
    requires st.comp.current && 0 <= index < |st.comp.cands|
    ensures CommittedNext(st, CommitCandidate(st, ic, index), ic, st.comp.cands[index])
  {
  }

  /** A click on the k-th drawn candidate commits that text, or nothing while it is not current. */
  lemma ClickSelectsItsItem(st: State, ic: Ic, k: nat)
    requires Shown(st) && st.comp.cands != [] && k < |st.panel.items|
    ensures var r := Step(st, Click(ic, st.panel.start + k), []);
            if st.comp.current then CommittedNext(st, r, ic, st.panel.items[k]) else r.out == st.out
  {
    hide CommitText, CommitCandidate, UpdateUI;
    if st.comp.current {
      CandidateCommits(st.(link := st.link.(luck := [])), ic, st.panel.start + k);
    }
  }
}
