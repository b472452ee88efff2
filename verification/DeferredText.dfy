/** The keys typed behind a pending Space, against a plain append/delete-last editor. */
module DeferredText {
  import opened Basics
  import opened Addon
  import opened AddonRuns
  import opened Wire

  /** The reference: the pinyin, then one Space, then the presses typed behind it. */
  datatype Editor = Editor(letters: string, presses: seq<string>)

  function Concat(ts: seq<string>): string {
    if ts == [] then "" else ts[0] + Concat(ts[1..])
  }

  function TextOf(ed: Editor): string { ed.letters + " " + Concat(ed.presses) }

  /** Typing appends, Backspace deletes the last thing typed, a release changes nothing. */
  function Typed(ed: Editor, e: Event): Editor {
    if e.release then ed
    else if e.sym == KEY_BACKSPACE then
      if ed.presses != [] then ed.(presses := ed.presses[..|ed.presses| - 1])
      else ed.(letters := DropLast(ed.letters))
    else ed.(presses := ed.presses + [e.text])
  }

  function TypedAll(ed: Editor, es: seq<Event>): Editor
    decreases |es|
  {
    if es == [] then ed else TypedAll(Typed(ed, es[0]), es[1..])
  }

  /** Releases, Backspace and printable presses: what a pending Space holds back. */
  predicate Deferrable(e: Event) {
    e.release || (!e.shortcut && e.sym != KEY_ESCAPE && (e.sym == KEY_BACKSPACE || e.text != ""))
  }

  function Presses(q: seq<Queued>): seq<string> {
    if q == [] then [] else (if q[0].event.release then [] else [q[0].event.text]) + Presses(q[1..])
  }

  function EditorOf(st: State): Editor { Editor(st.comp.buf, Presses(st.defer.queued)) }

  lemma {:induction false} PressTextIsConcat(q: seq<Queued>)
    ensures PressText(q) == Concat(Presses(q))
  {
    if q != [] {
      PressTextIsConcat(q[1..]);
      if q[0].event.release {
        assert Presses(q) == Presses(q[1..]);
      } else {
        assert Presses(q)[1..] == Presses(q[1..]);
      }
    }
  }

  /** What a fallback would commit is what the editor holds. */
  lemma RawIsWritten(st: State)
    requires st.defer.pending
    ensures PendingRaw(st.comp, st.defer) == TextOf(EditorOf(st))
  {
    PressTextIsConcat(st.defer.queued);
  }

  lemma {:induction false} PressesAppend(p: seq<Queued>, q: seq<Queued>)
    ensures Presses(p + q) == Presses(p) + Presses(q)
  {
    if p == [] {
      assert p + q == q;
    } else {
      assert (p + q)[1..] == p[1..] + q;
      PressesAppend(p[1..], q);
    }
  }

  lemma {:induction false} ReleasesHaveNoPresses(q: seq<Queued>)
    requires forall k :: 0 <= k < |q| ==> q[k].event.release
    ensures Presses(q) == []
  {
    if q != [] {
      ReleasesHaveNoPresses(q[1..]);
    }
  }

  lemma PressesAround(q: seq<Queued>, n: nat)
    requires n < |q|
    ensures Presses(q) == Presses(q[..n]) + Presses([q[n]]) + Presses(q[n + 1..])
    ensures Presses(RemoveAt(q, n)) == Presses(q[..n]) + Presses(q[n + 1..])
  {
    hide Presses;
    SplitAround(q, n);
    PressesOfThree(q[..n], [q[n]], q[n + 1..]);
    PressesAppend(q[..n], q[n + 1..]);
  }

  lemma SplitAround(q: seq<Queued>, n: nat)
    requires n < |q|
    ensures q == q[..n] + [q[n]] + q[n + 1..]
  {
  }

  lemma PressesOfThree(a: seq<Queued>, b: seq<Queued>, c: seq<Queued>)
    ensures Presses(a + b + c) == Presses(a) + Presses(b) + Presses(c)
  {
    hide Presses;
    PressesAppend(a + b, c);
    PressesAppend(a, b);
  }

  /**
   * Backspace on the queue removes the last press and, when there is one, the first later
   * release of the same key; every other event stays, in order.
   */
  lemma BackspaceRemovesOneKey(d: Defer) returns (n: nat, r: nat)
    requires LastPress(d.queued) < |d.queued|
    ensures n < |d.queued| && !d.queued[n].event.release && n < r <= |d.queued|
    ensures forall k :: n < k < |d.queued| ==> d.queued[k].event.release
    ensures forall k :: n < k < r ==> d.queued[k].event.raw != d.queued[n].event.raw
    ensures r < |d.queued| ==> d.queued[r].event.raw == d.queued[n].event.raw
    ensures DropLastPress(d).queued ==
            d.queued[..n] + d.queued[n + 1..r] + (if r < |d.queued| then d.queued[r + 1..] else [])
  {
    hide LastPress, ReleaseOf;
    n := LastPress(d.queued);
    var rest := RemoveAt(d.queued, n);
    var m := ReleaseOf(rest, d.queued[n].event.raw, n);
    r := m + 1;
    RemovedTwice(d.queued, n, m);
    assert forall k :: n <= k < |rest| ==> rest[k] == d.queued[k + 1];
    forall k | n < k < r ensures d.queued[k].event.raw != d.queued[n].event.raw {
      assert rest[k - 1] == d.queued[k];
    }
  }

  lemma RemovedTwice(q: seq<Queued>, n: nat, m: nat)
    requires n <= m < |q|
    ensures RemoveAt(q, n) == q[..n] + q[n + 1..m + 1] + q[m + 1..]
    ensures m + 1 < |q| ==> RemoveAt(RemoveAt(q, n), m) == q[..n] + q[n + 1..m + 1] + q[m + 2..]
  {
  }

  lemma BackspaceDropsLastPress(d: Defer)
    requires LastPress(d.queued) < |d.queued|
    ensures Presses(d.queued) != []
    ensures Presses(DropLastPress(d).queued) == Presses(d.queued)[..|Presses(d.queued)| - 1]
  {
    hide LastPress, ReleaseOf, RemoveAt;
    var q := d.queued;
    var n := LastPress(q);
    var rest := RemoveAt(q, n);
    var r := ReleaseOf(rest, q[n].event.raw, n);
    PressesAround(q, n);
    ReleasesHaveNoPresses(q[n + 1..]);
    assert Presses([q[n]]) == [q[n].event.text];
    assert Presses(rest) == Presses(q[..n]);
    if r < |rest| {
      PressesAround(rest, r);
      ReleasesHaveNoPresses([rest[r]]);
    }
  }

  /** The raw text comes next, and only releases behind it. */
  predicate FlushedAs(before: seq<Output>, after: seq<Output>, ic: Ic, text: string) {
    && before < after && after[|before|].Commit? && after[|before|].ic == ic
    && after[|before|].text == text && after[|before|].why.Raw?
    && forall k :: |before| < k < |after| ==> after[k].Forward? && after[k].release
  }

  /** How one deferred event ends the wait: the pinyin is gone, or it is the 256th event. */
  predicate EndsWait(st: State, e: Event) {
    if !e.release && e.sym == KEY_BACKSPACE && !e.shortcut then
      Presses(st.defer.queued) == [] && |st.comp.buf| == 1
    else |st.defer.queued| + 1 == 256
  }

  /**
   * One deferred event moves the raw text exactly as the editor; when it ends the wait, what
   * is committed is the editor's text with this event included, and only releases follow it.
   */
  lemma DeferredKeyIsTyped(st: State, ic: Ic, e: Event)
    requires AtRest(st) && st.defer.pending && st.ic == Some(ic) && Deferrable(e)
    ensures ProcessKey(st, ic, e).accepted
    ensures var r := ProcessKey(st, ic, e).st;
            && r.defer.pending == !EndsWait(st, e)
            && (r.defer.pending ==> r.out == st.out && EditorOf(r) == Typed(EditorOf(st), e))
            && (!r.defer.pending ==> FlushedAs(st.out, r.out, ic, TextOf(Typed(EditorOf(st), e))))
  {
    hide AtRest;
    assert st.comp.buf != "" && |st.defer.queued| < 256 by { Unhidden(st); }
    if !e.release && e.sym == KEY_BACKSPACE && !e.shortcut {
      BackspaceIsTyped(st, ic, e);
    } else {
      DeferredEventIsTyped(st, ic, e);
    }
  }

  lemma Unhidden(st: State)
    requires AtRest(st) && st.defer.pending
    ensures st.comp.buf != "" && |st.defer.queued| < 256
  {
  }

  lemma FallbackCommits(st: State, ic: Ic)
    requires st.defer.pending
    ensures FlushedAs(st.out, Fallback(st, ic).out, ic, TextOf(EditorOf(st)))
  {
    RawIsWritten(st);
    OnlyReleases(ic, st.defer.queued);
  }

  lemma OnlyReleases(ic: Ic, q: seq<Queued>)
    ensures forall k :: 0 <= k < |Releases(ic, q)| ==> Releases(ic, q)[k].Forward? && Releases(ic, q)[k].release
  {
  }

  lemma DeferredEventIsTyped(st: State, ic: Ic, e: Event)
    requires st.defer.pending && st.ic == Some(ic) && Deferrable(e) && |st.defer.queued| < 256
    requires e.release || e.sym != KEY_BACKSPACE || e.shortcut
    ensures var r := ProcessKey(st, ic, e).st;
            && r.defer.pending == (|st.defer.queued| + 1 < 256)
            && (r.defer.pending ==> r.out == st.out && EditorOf(r) == Typed(EditorOf(st), e))
            && (!r.defer.pending ==> FlushedAs(st.out, r.out, ic, TextOf(Typed(EditorOf(st), e))))
  {
    hide Fallback, UpdateUI, PendingBackspace, ClearAll, Send;
    var s := st.(defer := Enqueue(st.defer, ic, e));
    PressesAppend(st.defer.queued, [Queued(|st.defer.log|, ic, e)]);
    assert EditorOf(s) == Typed(EditorOf(st), e);
    FallbackCommits(s, ic);
  }

  lemma BackspaceIsTyped(st: State, ic: Ic, e: Event)
    requires st.defer.pending && st.ic == Some(ic) && st.comp.buf != ""
    requires !e.release && e.sym == KEY_BACKSPACE && !e.shortcut
    ensures var r := ProcessKey(st, ic, e).st;
            && r.defer.pending == !(Presses(st.defer.queued) == [] && |st.comp.buf| == 1)
            && (r.defer.pending ==> r.out == st.out && EditorOf(r) == Typed(EditorOf(st), e))
            && (!r.defer.pending ==> FlushedAs(st.out, r.out, ic, TextOf(Typed(EditorOf(st), e))))
  {
    hide Fallback, UpdateUI, Request, Send, ClearAll;
    if LastPress(st.defer.queued) < |st.defer.queued| {
      BackspaceDropsLastPress(st.defer);
    } else {
      ReleasesHaveNoPresses(st.defer.queued);
      var s := Send(st.(comp := st.comp.(buf := DropLast(st.comp.buf), revision := st.comp.revision + 1, current := false,
                                         cands := [], covers := [], typed := DropLast(st.comp.typed), typists := DropLast(st.comp.typists))),
                    Clear, NoHandler);
      FallbackCommits(s, ic);
    }
  }

  function PressKeys(st: State, ic: Ic, es: seq<Event>): State
    decreases |es|
  {
    if es == [] then st else PressKeys(ProcessKey(st, ic, es[0]).st, ic, es[1..])
  }

  /** The wait outlives each of the events. */
  predicate StillWaiting(st: State, ic: Ic, es: seq<Event>)
    decreases |es|
  {
    st.defer.pending && (es == [] || StillWaiting(ProcessKey(st, ic, es[0]).st, ic, es[1..]))
  }

  /**
   * Any run of deferred keys with no reply in between: nothing is committed or forwarded and
   * the raw text is the editor's.
   */
  lemma {:induction false} DeferredKeysAreTyped(st: State, ic: Ic, es: seq<Event>)
    requires AtRest(st) && st.ic == Some(ic) && StillWaiting(st, ic, es)
    requires forall k :: 0 <= k < |es| ==> Deferrable(es[k])
    ensures AtRest(PressKeys(st, ic, es)) && PressKeys(st, ic, es).out == st.out
    ensures PendingRaw(PressKeys(st, ic, es).comp, PressKeys(st, ic, es).defer) == TextOf(TypedAll(EditorOf(st), es))
    decreases |es|
  {
    hide AtRest, ProcessKey;
    if es == [] {
      RawIsWritten(st);
    } else {
      var r := ProcessKey(st, ic, es[0]).st;
      DeferredKeyIsTyped(st, ic, es[0]);
      ProcessKeyAtRest(st, ic, es[0]);
      DeferredKeysAreTyped(r, ic, es[1..]);
    }
  }

  /**
   * Enter, navigation, a shortcut, the five-second timer or a switch of the input method then
   * commit exactly that text, before anything else is output.
   */
  lemma DeferredTextIsCommitted(st: State, ic: Ic, es: seq<Event>, e: Event, luck: seq<bool>)
    requires AtRest(st) && st.ic == Some(ic) && StillWaiting(st, ic, es)
    requires forall k :: 0 <= k < |es| ==> Deferrable(es[k])
    requires !Deferrable(e) && (e.sym != KEY_ESCAPE || e.shortcut)
    ensures var text := TextOf(TypedAll(EditorOf(st), es)); var w := PressKeys(st, ic, es);
            && FlushedAs(st.out, ProcessKey(w, ic, e).st.out, ic, text)
            && ProcessKey(w, ic, e).accepted == (e.sym == KEY_RETURN && !e.shortcut)
            && FlushedAs(st.out, Step(w, PendingTimer, luck).out, ic, text)
            && FlushedAs(st.out, Step(w, Deactivate(ic, true), luck).out, ic, text)
  {
    hide AtRest, ProcessKey, Step, FlushedAs, TextOf, EditorOf;
    DeferredKeysAreTyped(st, ic, es);
    LastKeysStillWait(st, ic, es);
    var w := PressKeys(st, ic, es);
    RawIsWritten(w);
    KeyFlushes(w, ic, e);
    TimerFlushes(w, ic, luck);
    SwitchFlushes(w, ic, luck);
  }

  lemma KeyFlushes(w: State, ic: Ic, e: Event)
    requires w.defer.pending && w.ic == Some(ic) && !Deferrable(e) && (e.sym != KEY_ESCAPE || e.shortcut)
    ensures FlushedAs(w.out, ProcessKey(w, ic, e).st.out, ic, TextOf(EditorOf(w)))
    ensures ProcessKey(w, ic, e).accepted == (e.sym == KEY_RETURN && !e.shortcut)
  {
    hide Fallback, ClearAll, PendingBackspace;
    FallbackCommits(w, ic);
  }

  lemma TimerFlushes(w: State, ic: Ic, luck: seq<bool>)
    requires AtRest(w) && w.defer.pending && w.ic == Some(ic)
    ensures FlushedAs(w.out, Step(w, PendingTimer, luck).out, ic, TextOf(EditorOf(w)))
  {
    hide AtRest, Fallback;
    TimerIsSet(w, ic);
    FallbackCommits(w.(link := w.link.(luck := luck)), ic);
  }

  lemma SwitchFlushes(w: State, ic: Ic, luck: seq<bool>)
    requires AtRest(w) && w.defer.pending && w.ic == Some(ic)
    ensures FlushedAs(w.out, Step(w, Deactivate(ic, true), luck).out, ic, TextOf(EditorOf(w)))
  {
    hide AtRest, ClearAll, UpdateUI, TextOf, EditorOf;
    TimerIsSet(w, ic);
    RawIsWritten(w);
  }

  lemma TimerIsSet(st: State, ic: Ic)
    requires AtRest(st) && st.defer.pending && st.ic == Some(ic)
    ensures st.defer.timer == Some(Timer(ic, st.comp.epoch)) && st.comp.buf != ""
  {
  }

  lemma {:induction false} LastKeysStillWait(st: State, ic: Ic, es: seq<Event>)
    requires st.ic == Some(ic) && StillWaiting(st, ic, es)
    ensures PressKeys(st, ic, es).defer.pending && PressKeys(st, ic, es).ic == Some(ic)
    decreases |es|
  {
    hide ProcessKey;
    if es != [] {
      LastKeysStillWait(ProcessKey(st, ic, es[0]).st, ic, es[1..]);
    }
  }
}
