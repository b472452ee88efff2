/**
 * The addon's class. Its fields are grouped as Addon.dfy groups them: composition, candidate
 * window, deferred keys, link to the engine, input context, page size, panel and output.
 *
 * Each method updates them step by step, as the source's method does, and is proved to do what
 * the function it is specified by says: View() after the call is that function of View()
 * before it. Turn is one turn of the event loop and Turns any run of them: a new addon is at rest, in
 * session with its engine, its panel in step and its letters those of its context, and so it is after
 * every turn. The handlers say besides what their caller wants.
 */
module WeTypeEngine {
  import opened Basics
  import opened Codec
  import opened Wire
  import opened Addon
  import opened AddonRuns
  import opened Effects
  import Paging
  import opened Replays
  import A = Addon

  class WeTypeEngine {
    var comp: Comp
    var page: Page
    var defer: Defer
    var link: Link
    var ic: Option<Ic>
    var config: int
    var panel: Panel
    var out: seq<Output>

    ghost function View(): State
      reads this
    {
      State(comp, page, defer, link, ic, config, panel, out)
    }

    constructor (config: int, luck: seq<bool>)
      ensures View() == A.Init(config, luck)
      ensures AtRest(View()) && InSession(View()) && A.Shown(View()) && OwnLetters(View())
    {
      comp := Comp("", [], [], false, 0, 0, "", "", [], None);
      page := Page(0, 0, 0);
      defer := Defer(false, None, [], [], []);
      link := Link(false, false, [], [], 0, false, false, false, false, 0, luck);
      ic, this.config, panel, out := None, config, Panel("", 0, [], 0), [];
      new;
      hide A.EnsureEngine, AtRest, InSession;
      EnsureEngine();
      InitAtRest(config, luck);
      InitStays(config, luck);
    }

    // ---------------------------------------------------------------- paging and display

    /** normalizePage */
    method NormalizePage() returns (redraw: bool)
      modifies this`page
      ensures redraw == A.MustRedraw(old(View()))
      ensures page == A.Normalized(old(page), |comp.cands|, A.PageSize(config))
    {
      var was, count, size := page, |comp.cands|, A.PageSize(config);
      if count == 0 {
        page := page.(start := 0, selected := 0);
      } else {
        page := page.(start := A.Clamp(page.start, 0, count - 1));
        page := page.(start := page.start / size * size);
        page := page.(selected := A.Clamp(page.selected, page.start, Min(page.start + size, count) - 1));
      }
      redraw := was != page || (comp.cands != [] && page.rendered != size);
    }

    /** pendingRaw */
    method PendingRaw() returns (raw: string)
      ensures raw == A.PendingRaw(comp, defer)
    {
      raw := comp.buf;
      if defer.pending {
        raw := raw + " ";
      }
      ghost var front := raw;
      assert front == comp.buf + (if defer.pending then " " else "");
      var q, i := defer.queued, 0;
      assert q[0..] == q;
      while i < |q|
        invariant i <= |q| && front + A.PressText(q) == raw + A.PressText(q[i..])
      {
        assert q[i..][1..] == q[i + 1..];
        if !q[i].event.release {
          raw := raw + q[i].event.text;
        }
        i := i + 1;
      }
      assert q[i..] == [] && raw + "" == raw;
    }

    /** updateUI: the window is aligned, so the cursor is in it; then its candidates are drawn one by one. */
    method UpdateUI()
      modifies this`page, this`panel
      ensures View() == A.UpdateUI(old(View()))
    {
      hide A.PendingRaw, A.Normalized, A.Shown, A.MustRedraw, A.PageSize;
      var _ := NormalizePage();
      var size := A.PageSize(config);
      NormalizedTwice(old(page), |comp.cands|, size);
      page := page.(rendered := size);
      var preedit := comp.buf;
      if defer.pending {
        preedit := PendingRaw();
      }
      panel := Panel(preedit, 0, [], 0);
      if comp.cands != [] {
        PageBounds(old(page), |comp.cands|, size);
        var start, end := page.start, Min(page.start + size, |comp.cands|);
        var items := DrawItems(start, end);
        panel := Panel(preedit, start, items, page.selected - start);
      }
    }

    method DrawItems(start: nat, end: nat) returns (items: seq<string>)
      requires start <= end <= |comp.cands|
      ensures items == comp.cands[start..end]
    {
      items := [];
      var index := start;
      while index < end
        invariant start <= index <= end && items == comp.cands[start..index]
      {
        items := items + [comp.cands[index]];
        index := index + 1;
      }
    }

    // ---------------------------------------------------------------- the engine process

    method DrawLuck() returns (ok: bool)
      modifies this`link
      ensures Drawn(ok, link) == A.DrawLuck(old(link))
    {
      ok := link.luck == [] || link.luck[0];
      link := link.(luck := if link.luck == [] then [] else link.luck[1..]);
    }

    /** start(), as the addon sees it. */
    method Start() returns (ok: bool)
      modifies this`link
      ensures Drawn(ok, link) == A.Start(old(link))
    {
      if link.alive {
        return true;
      }
      if link.fails >= 5 {
        link := link.(gaveUp := true);
        return false;
      }
      ok := DrawLuck();
      if ok {
        link := link.(alive := true, ready := false, wire := []);
        link := link.(fails := link.fails + 1, forks := link.forks + 1);
      }
    }

    /** send() */
    method Send(c: Cmd, h: Handler)
      modifies this
      ensures View() == A.Send(old(View()), c, h)
      decreases A.Rank(View()), 4, 0
    {
      hide A.Lost, A.Die, A.DrawLuck;
      if !link.alive {
        LoseReply(h);
        return;
      }
      var ok := DrawLuck();
      if !ok {
        Die();
        LoseReply(h);
        return;
      }
      link := link.(wire := link.wire + [c], handlers := link.handlers + [h]);
    }

    /** die(): stop(), then the exit callback, which arms the restart timer. */
    method Die()
      modifies this
      ensures View() == A.Die(old(View()))
      decreases A.Rank(View()), 3, 0
    {
      hide A.FailAll;
      link := link.(alive := false, ready := false, wire := []);
      FailPendingHandlers();
      ScheduleRestart();
    }

    /** scheduleRestart */
    method ScheduleRestart()
      modifies this`link
      ensures link == if old(link).restart || old(link).gaveUp then old(link) else old(link).(restart := true)
    {
      if link.restart || link.gaveUp {
        return;
      }
      link := link.(restart := true);
    }

    /** failPendingHandlers: a failing handler may restart the engine; what it queues is not failed here. */
    method FailPendingHandlers()
      modifies this
      ensures View() == A.FailAll(old(View()).(link := old(link).(handlers := [])), old(link).handlers)
      decreases A.Rank(View()), 2, 0
    {
      hide A.Lost;
      var failed := link.handlers;
      link := link.(handlers := []);
      ghost var was := View();
      var i := 0;
      assert failed[0..] == failed;
      while i < |failed|
        invariant i <= |failed| && A.FailAll(was, failed) == A.FailAll(View(), failed[i..])
        invariant A.Rank(View()) <= A.Rank(was)
      {
        assert failed[i..][1..] == failed[i + 1..];
        LoseReply(failed[i]);
        i := i + 1;
      }
      assert failed[i..] == [];
    }

    /** A handler called with "". */
    method LoseReply(h: Handler)
      modifies this
      ensures View() == A.Lost(old(View()), h)
      decreases A.Rank(View()), 1, 0
    {
      hide A.UpdateUI, A.EnsureEngine, A.Request;
      match h {
        case NoHandler =>
        case OptHandler => link := link.(spans := false);
        case CandHandler(owner, epoch, revision, buf) =>
          if owner == None || owner != ic || epoch != comp.epoch {
            return;
          }
          if revision == comp.revision && buf == comp.buf {
            UpdateUI();
            if comp.buf != "" && !link.recovered {
              link := link.(recovered := true);
              EnsureEngine();
              RequestCandidates(comp.buf);
            }
          }
      }
    }

    /** ensureEngine */
    method EnsureEngine()
      modifies this
      ensures View() == A.EnsureEngine(old(View()))
      decreases A.Rank(View()), 5, 0
    {
      hide A.Start, A.Send;
      if link.alive || link.gaveUp {
        return;
      }
      link := link.(spans := false);
      var ok := Start();
      if ok {
        Send(OptSpans, OptHandler);
      }
    }

    /** requestCandidates */
    method RequestCandidates(keys: string)
      modifies this
      ensures View() == A.Request(old(View()), keys)
      decreases A.Rank(View()), 6, 0
    {
      hide A.EnsureEngine, A.Send;
      if comp.buf == "" || keys == "" {
        return;
      }
      EnsureEngine();
      Send(Batch(keys), CandHandler(ic, comp.epoch, comp.revision, comp.buf));
    }

    // ---------------------------------------------------------------- committing

    /** commitText */
    method CommitText(owner: Ic, text: string, why: Reason)
      modifies this
      ensures View() == A.CommitText(old(View()), owner, text, why)
    {
      hide A.UpdateUI, A.Send;
      out := out + [Commit(owner, text, why)];
      comp := comp.(revision := comp.revision + 1, buf := "", cands := [], covers := [], current := false);
      comp := comp.(typed := "", consumed := "", typists := []);
      page := page.(start := 0, selected := 0);
      link := link.(recovered := false);
      Send(Clear, NoHandler);
      UpdateUI();
    }

    /** commitCandidate */
    method CommitCandidate(owner: Ic, index: int)
      modifies this
      ensures View() == A.CommitCandidate(old(View()), owner, index)
      ensures old(AtRest(View())) ==> Sound(View())
    {
      hide A.UpdateUI, A.Send, A.CommitText, A.Choice, AtRest, Sound;
      if AtRest(View()) {
        AtRestIsSound(View());
        CommitCandidateIsSound(View(), owner, index);
      }
      if !comp.current || index < 0 || index >= |comp.cands| {
        return;
      }
      var cover := if index < |comp.covers| then comp.covers[index] else 0;
      var text, why := comp.cands[index], A.Choice(comp, index);
      if cover <= 0 || cover >= |comp.buf| {
        Send(Select(index, text, Whole), NoHandler);
        CommitText(owner, text, why);
        return;
      }
      out := out + [Commit(owner, text, why)];
      comp := comp.(consumed := comp.consumed + comp.buf[..cover]);
      comp := comp.(revision := comp.revision + 1, buf := comp.buf[cover..]);
      comp := comp.(cands := [], covers := [], current := false);
      page := page.(start := 0, selected := 0);
      Send(Select(index, text, Prefix(cover)), CandHandler(ic, comp.epoch, comp.revision, comp.buf));
      UpdateUI();
    }

    // ---------------------------------------------------------------- the pending Space

    /** disarmPending: the queue stays, and a timer that fires after all does nothing. */
    method DisarmPending()
      modifies this`defer
      ensures defer == A.Disarm(old(defer))
      ensures A.OnPendingTimer(View()) == View()
    {
      defer := defer.(pending := false);
      defer := defer.(timer := None);
    }

    /** cancelPending */
    method CancelPending()
      modifies this`defer
      ensures defer == A.CancelPending(old(defer))
    {
      DisarmPending();
      defer := defer.(fates := defer.fates + A.CancelFates(defer.queued));
      defer := defer.(queued := []);
    }

    /** fallbackPending: the raw text, then the releases that were held back. */
    method FallbackPending(owner: Ic)
      modifies this
      ensures View() == A.Fallback(old(View()), owner)
    {
      hide A.CommitText, A.PendingRaw;
      var raw := PendingRaw();
      var keys, why := defer.queued, Raw(comp.buf, defer.pending, defer.queued);
      defer := defer.(queued := [], fates := defer.fates + A.FlushFates(keys));
      DisarmPending();
      CommitText(owner, raw, why);
      ForwardReleases(owner, keys);
    }

    method ForwardReleases(owner: Ic, keys: seq<Queued>)
      modifies this`out
      ensures out == old(out) + A.Releases(owner, keys)
    {
      var i := 0;
      assert keys[0..] == keys;
      while i < |keys|
        invariant i <= |keys| && old(out) + A.Releases(owner, keys) == out + A.Releases(owner, keys[i..])
      {
        assert keys[i..][1..] == keys[i + 1..];
        if keys[i].event.release {
          out := out + [Forward(owner, keys[i].event.raw, true, keys[i].event.time)];
        }
        i := i + 1;
      }
      assert keys[i..] == [] && out + [] == out;
    }

    /** armPending */
    method ArmPending(owner: Ic)
      modifies this
      ensures View() == A.Arm(old(View()), owner)
      ensures WaitsOnly(old(View()), View(), owner) <==> !NothingToAwait(old(View()))
      ensures NothingToAwait(old(View())) ==> !defer.pending && comp.buf == ""
    {
      hide A.UpdateUI, A.Fallback;
      ArmWaits(View(), owner);
      defer := defer.(pending := true);
      defer := defer.(timer := Some(Timer(owner, comp.epoch)));
      UpdateUI();
      if (comp.current && comp.cands == []) || link.gaveUp {
        FallbackPending(owner);
      }
    }

    /** clearAll, without its optional redraw. */
    method ClearAll()
      modifies this
      ensures View() == A.ClearAll(old(View()))
    {
      hide A.Send;
      CancelPending();
      comp := comp.(epoch := comp.epoch + 1, revision := comp.revision + 1);
      comp := comp.(buf := "", cands := [], covers := [], current := false, typed := "", consumed := "", typists := []);
      page := page.(start := 0, selected := 0);
      link := link.(recovered := false);
      Send(Clear, NoHandler);
    }

    // ---------------------------------------------------------------- keys

    /** The search from the back for the last deferred press. */
    method FindLastPress() returns (n: nat)
      ensures n == A.LastPress(defer.queued)
    {
      var q := defer.queued;
      n := |q|;
      while n > 0 && q[n - 1].event.release
        invariant n <= |q| && (forall k :: n <= k < |q| ==> q[k].event.release) && A.LastPress(q) == A.LastPressBelow(q, n)
      {
        n := n - 1;
      }
      return if n == 0 then |q| else n - 1;
    }

    /** std::find_if for the release of a key. */
    method FindRelease(q: seq<Queued>, raw: nat, from: nat) returns (n: nat)
      requires from <= |q|
      ensures n == A.ReleaseOf(q, raw, from)
    {
      n := from;
      while n < |q| && !(q[n].event.release && q[n].event.raw == raw)
        invariant from <= n <= |q| && A.ReleaseOf(q, raw, from) == A.ReleaseOf(q, raw, n)
      {
        n := n + 1;
      }
    }

    /** Backspace with a Space pending: the last deferred press goes, or else the last letter. */
    method PendingBackspace(owner: Ic)
      modifies this
      ensures Result(View(), true) == A.PendingBackspace(old(View()), owner)
    {
      hide A.UpdateUI, A.Send, A.Fallback, A.Request, A.LastPress, A.DropLastPress;
      var press := FindLastPress();
      if press < |defer.queued| {
        DeletePress(press);
        UpdateUI();
        return;
      }
      comp := comp.(buf := A.DropLast(comp.buf), revision := comp.revision + 1, current := false);
      comp := comp.(cands := [], covers := [], typed := A.DropLast(comp.typed), typists := A.DropLast(comp.typists));
      Send(Clear, NoHandler);
      if comp.buf == "" {
        FallbackPending(owner);
      } else {
        RequestCandidates(comp.buf);
        UpdateUI();
      }
    }

    /** The press is deleted, and the release of the same key behind it. */
    method DeletePress(press: nat)
      requires press == A.LastPress(defer.queued) < |defer.queued|
      modifies this`defer
      ensures defer == A.DropLastPress(old(defer))
    {
      hide A.LastPress, A.ReleaseOf;
      var key := defer.queued[press];
      defer := defer.(queued := A.RemoveAt(defer.queued, press), fates := defer.fates + [Deleted(key)]);
      var release := FindRelease(defer.queued, key.event.raw, press);
      if release < |defer.queued| {
        TwoFates(old(defer).fates, key, defer.queued[release]);
        defer := defer.(fates := defer.fates + [Deleted(defer.queued[release])]);
        defer := defer.(queued := A.RemoveAt(defer.queued, release));
      }
    }

    /** processKey while a Space is pending. */
    method PendingKey(owner: Ic, e: Event) returns (accepted: bool)
      modifies this
      ensures Result(View(), accepted) == A.PendingKey(old(View()), owner, e)
    {
      hide A.UpdateUI, A.ClearAll, A.Fallback, A.PendingBackspace;
      if !e.release && !e.shortcut && e.sym == KEY_ESCAPE {
        ClearAll();
        UpdateUI();
        return true;
      }
      if !e.release && !e.shortcut && e.sym == KEY_BACKSPACE {
        PendingBackspace(owner);
        return true;
      } else if !e.release && (e.text == "" || e.shortcut) {
        FallbackPending(owner);
        return !e.shortcut && e.sym == KEY_RETURN;
      } else {
        var key := Queued(|defer.log|, owner, e);
        defer := defer.(queued := defer.queued + [key]);
        defer := defer.(log := defer.log + [key]);
        if |defer.queued| >= 256 {
          FallbackPending(owner);
        } else {
          UpdateUI();
        }
        return true;
      }
    }

    /** A letter. */
    method LetterKey(c: char)
      modifies this
      ensures View() == A.LetterKey(old(View()), c)
    {
      hide A.UpdateUI, A.EnsureEngine, A.Request, A.Renewed, A.NoneLater, A.Continues, A.StaysGivenUp, A.Shown;
      if comp.buf == "" {
        link := link.(recovered := false);
      }
      var replay := !link.alive && comp.buf != "";
      EnsureEngine();
      comp := comp.(revision := comp.revision + 1, buf := comp.buf + [c], current := false,
                    typed := comp.typed + [c], typists := comp.typists + [ic]);
      UpdateUI();
      RequestCandidates(if replay then comp.buf else [c]);
    }

    /** An arrow key. */
    method ArrowKey(sym: nat)
      modifies this`page, this`panel
      ensures View() == A.UpdateUI(old(View()).(page := A.ArrowMove(old(page), sym, A.PageSize(config), |comp.cands|)))
    {
      hide A.UpdateUI;
      var size := A.PageSize(config);
      if sym == KEY_LEFT && page.selected > page.start {
        page := page.(selected := page.selected - 1);
      } else if sym == KEY_RIGHT && page.selected + 1 < Min(page.start + size, |comp.cands|) {
        page := page.(selected := page.selected + 1);
      } else if sym == KEY_UP && page.start > 0 {
        page := page.(start := Max(0, page.start - size));
        page := page.(selected := page.start);
      } else if sym == KEY_DOWN && page.start + size < |comp.cands| {
        page := page.(start := page.start + size);
        page := page.(selected := page.start);
      }
      UpdateUI();
    }

    /** A punctuation key. */
    method PunctKey(owner: Ic, e: Event) returns (accepted: bool)
      requires comp.current && comp.cands != [] ==> 0 <= page.selected < |comp.cands|
      modifies this
      ensures Result(View(), accepted) == A.PunctKey(old(View()), owner, e)
    {
      hide A.Send, A.CommitText;
      if comp.buf != "" {
        var chosen := comp.current && comp.cands != [];
        var text := if chosen then comp.cands[page.selected] else comp.buf;
        var why := if chosen then A.Choice(comp, page.selected) else Literal;
        if e.punct == "" {
          return false;
        }
        if chosen {
          Send(Select(page.selected, text, Punctuated(A.KeepsRest(comp, page.selected))), NoHandler);
        }
        CommitText(owner, text + e.punct, why);
        return true;
      }
      if e.wide {
        out := out + [Commit(owner, e.punct, Literal)];
        return true;
      }
      return false;
    }

    /** A digit key. */
    method DigitKey(owner: Ic, sym: nat) returns (accepted: bool)
      requires IsDigitKey(sym)
      modifies this
      ensures Result(View(), accepted) == A.DigitKey(old(View()), owner, sym)
    {
      hide A.CommitCandidate;
      var ordinal: int := if sym == 0x30 then 9 else sym - 0x31;
      var index := page.start + ordinal;
      if ordinal < A.PageSize(config) && comp.current && comp.cands != [] && index < |comp.cands| {
        CommitCandidate(owner, index);
        return true;
      }
      return false;
    }

    /** Backspace: the session is rebuilt and the shorter pinyin replayed. */
    method BackspaceKey()
      requires comp.buf != ""
      modifies this
      ensures View() == A.BackspaceKey(old(View()))
    {
      hide A.UpdateUI, A.Send, A.Request;
      comp := comp.(buf := comp.buf[..|comp.buf| - 1], revision := comp.revision + 1);
      comp := comp.(current := false, typed := A.DropLast(comp.typed), typists := A.DropLast(comp.typists));
      Send(Clear, NoHandler);
      if comp.buf == "" {
        comp := comp.(cands := [], covers := []);
        page := page.(start := 0, selected := 0);
        UpdateUI();
      } else {
        RequestCandidates(comp.buf);
        UpdateUI();
      }
    }

    /** processKey for a press with no Space pending and no shortcut modifier: the tests in their order. */
    method IdleKey(owner: Ic, e: Event) returns (accepted: bool)
      modifies this
      ensures Result(View(), accepted) == A.IdleKey(old(View()), owner, e)
    {
      hide A.IdleKey, A.UpdateUI, A.LetterKey, A.MustRedraw, A.PageSize, Paged, Committed, OnePageAway, A.Shown, PageOk;
      IdleKeyByKind(View(), owner, e);
      Align();
      accepted := true;
      if comp.buf == "" && IsUpper(e.sym) && e.shift {
        out := out + [Commit(owner, [e.sym as char], Literal)];
      } else if IsLower(e.sym) || IsUpper(e.sym) {
        LetterKey(LetterOf(e.sym));
      } else {
        var paged := PageKey(e.sym);
        if !paged {
          accepted := CommitKey(owner, e);
        }
      }
    }

    /** The keys that move in the candidate list. */
    method PageKey(sym: nat) returns (paged: bool)
      modifies this`page, this`panel
      ensures paged == (Paged(old(View()), sym) != None) && View() == (if paged then Paged(old(View()), sym).value else old(View()))
      ensures PageOk(old(page), |comp.cands|, A.PageSize(config)) ==> OnePageAway(old(page), page, |comp.cands|, A.PageSize(config))
      ensures paged ==> A.Shown(View()) || View() == old(View())
    {
      hide A.UpdateUI, A.ArrowMove, A.PageSize;
      if PageOk(page, |comp.cands|, A.PageSize(config)) && Paged(View(), sym).Some? {
        PagedStays(View(), sym);
      }
      if comp.buf == "" {
        return false;
      }
      if comp.current && comp.cands != [] && IsArrow(sym) {
        ArrowKey(sym);
      } else if sym == KEY_MINUS || sym == KEY_PAGE_UP {
        GoBack();
      } else if sym == KEY_EQUAL || sym == KEY_PLUS || sym == KEY_KP_ADD || sym == KEY_PAGE_DOWN {
        GoForward();
      } else {
        return false;
      }
      return true;
    }

    /** The keys that commit or end a composition. */
    method CommitKey(owner: Ic, e: Event) returns (accepted: bool)
      requires comp.cands != [] ==> 0 <= page.selected < |comp.cands|
      modifies this
      ensures Result(View(), accepted) == Committed(old(View()), owner, e)
    {
      hide A.PunctKey, A.DigitKey, Edited, A.PageSize;
      if Owned(e.sym) {
        accepted := PunctKey(owner, e);
      } else if 0x31 <= e.sym <= 0x39 || (e.sym == 0x30 && A.PageSize(config) >= 10) {
        accepted := DigitKey(owner, e.sym);
      } else {
        accepted := EditKey(owner, e.sym);
      }
    }

    /** The redraw before any key when the page size changed: the selection then is within the candidates. */
    method Align()
      modifies this`page, this`panel
      ensures View() == if A.MustRedraw(old(View())) then A.UpdateUI(old(View())) else old(View())
      ensures comp.cands != [] ==> 0 <= page.selected < |comp.cands|
    {
      var was := page;
      var redraw := NormalizePage();
      if comp.cands != [] {
        PageBounds(was, |comp.cands|, A.PageSize(config));
      }
      if redraw {
        NormalizedTwice(was, |comp.cands|, A.PageSize(config));
        UpdateUI();
        RedrawnAlike(old(View()), page.rendered);
      }
    }

    method GoBack()
      modifies this`page, this`panel
      ensures View() == if old(page).start > 0 then A.UpdateUI(old(View()).(page := A.PageBack(old(page), A.PageSize(config)))) else old(View())
    {
      hide A.UpdateUI;
      if page.start > 0 {
        page := page.(start := Max(0, page.start - A.PageSize(config)));
        page := page.(selected := page.start);
        UpdateUI();
      }
    }

    method GoForward()
      modifies this`page, this`panel
      ensures View() == if comp.current && old(page).start + A.PageSize(config) < |comp.cands|
                        then A.UpdateUI(old(View()).(page := A.PageForward(old(page), A.PageSize(config)))) else old(View())
    {
      hide A.UpdateUI;
      if comp.current && page.start + A.PageSize(config) < |comp.cands| {
        page := page.(start := page.start + A.PageSize(config));
        page := page.(selected := page.start);
        UpdateUI();
      }
    }

    /** Space, Enter, Backspace and Escape while composing. */
    method EditKey(owner: Ic, sym: nat) returns (accepted: bool)
      modifies this
      ensures Result(View(), accepted) == Edited(old(View()), owner, sym)
      ensures Edits(old(View()), View(), accepted, owner, sym)
    {
      hide A.UpdateUI, A.CommitCandidate, A.Arm, A.CommitText, A.BackspaceKey, A.ClearAll, Edits;
      EditedEdits(View(), owner, sym);
      if comp.buf == "" {
        return false;
      }
      if sym == KEY_SPACE {
        if comp.current && comp.cands != [] {
          CommitCandidate(owner, page.selected);
        } else {
          ArmPending(owner);
        }
      } else if sym == KEY_RETURN {
        CommitText(owner, comp.buf, Literal);
      } else if sym == KEY_BACKSPACE {
        BackspaceKey();
      } else if sym == KEY_ESCAPE {
        ClearAll();
        UpdateUI();
      } else {
        return false;
      }
      return true;
    }

    /** processKey */
    method ProcessKey(owner: Ic, e: Event) returns (accepted: bool)
      modifies this
      ensures Result(View(), accepted) == A.ProcessKey(old(View()), owner, e)
      ensures old(AtRest(View())) ==> AtRest(View())
      ensures old(ic) != Some(owner) ==> StartedOver(old(View()), View(), owner, e)
    {
      hide A.ClearAll, A.PendingKey, A.IdleKey, AtRest, StartedOver;
      if ic != Some(owner) {
        NewContextStartsOver(View(), owner, e);
      }
      if AtRest(View()) {
        ProcessKeyAtRest(View(), owner, e);
      }
      if ic != Some(owner) {
        ClearAll();
      }
      ic := Some(owner);
      if defer.pending {
        accepted := PendingKey(owner, e);
        return;
      }
      if e.shortcut || e.release {
        return false;
      }
      accepted := IdleKey(owner, e);
    }

    /** drainQueued: each deferred event is processed again, until a Space is pending once more. */
    method DrainQueued(owner: Ic)
      modifies this
      ensures View() == A.Drain(old(View()), owner)
    {
      hide A.ProcessKey;
      ghost var was := View();
      while !defer.pending && defer.queued != [] && ic == Some(owner)
        invariant A.Drain(was, owner) == A.Drain(View(), owner)
        decreases |defer.queued|
      {
        var key := defer.queued[0];
        defer := defer.(queued := defer.queued[1..]);
        var accepted := ProcessKey(owner, key.event);
        if !accepted {
          out := out + [Forward(owner, key.event.raw, key.event.release, key.event.time)];
        }
        defer := defer.(fates := defer.fates + [Processed(key, accepted)]);
      }
    }

    // ---------------------------------------------------------------- replies

    /** The getline loop over a CAND line. */
    method ParseCands(line: string) returns (es: seq<Entry>)
      requires IsCandLine(line)
      ensures es == Codec.ParseCands(link.spans, line)
    {
      hide ParseItems, ParseItem;
      es := [];
      var body := line[5..];
      ghost var all := ParseItems(link.spans, body);
      while body != ""
        invariant all == es + ParseItems(link.spans, body)
        decreases |body|
      {
        var tab := Find(body, '\t');
        ParseUnrolls(link.spans, body);
        match ParseItem(link.spans, body[..tab]) {
          case Some(e) => es := es + [e];
          case None =>
        }
        body := if tab == |body| then "" else body[tab + 1..];
      }
      NothingToParse(link.spans);
    }

    /** A reply that is neither a candidate list, SKIP nor EMPTY: the session is rebuilt, once. */
    method UnexpectedReply(owner: Ic)
      modifies this
      ensures View() == A.Unexpected(old(View()), owner)
    {
      hide A.Fallback, A.Send, A.Request;
      if link.recovered {
        if defer.pending {
          FallbackPending(owner);
        }
        return;
      }
      link := link.(recovered := true);
      Send(Clear, NoHandler);
      RequestCandidates(comp.buf);
    }

    method ShowCandidates(h: Handler, line: string)
      modifies this`comp, this`page, this`panel
      ensures View() == A.ShowCandidates(old(View()), h, line)
    {
      hide A.UpdateUI, Codec.ParseCands;
      var es := [];
      if IsCandLine(line) {
        es := ParseCands(line);
      }
      var current := h.CandHandler? && ic.Some? && h.ic == ic && h.epoch == comp.epoch && h.revision == comp.revision && h.buf == comp.buf;
      comp := comp.(cands := A.Texts(es), covers := A.Covers(es));
      comp := comp.(current := current, source := Some(Source(h, line, link.spans)));
      page := page.(start := 0, selected := 0);
      UpdateUI();
    }

    /** A handler called with a line. */
    method TakeReply(h: Handler, line: string)
      modifies this
      ensures View() == A.OnReply(old(View()), h, line)
      ensures old(AtRest(View())) ==> AtRest(View())
    {
      hide A.Unexpected, A.ShowCandidates, A.Fallback, A.CommitCandidate, A.Drain, AtRest;
      if AtRest(View()) {
        OnReplyAtRest(View(), h, line);
      }
      match h {
        case NoHandler =>
        case OptHandler => link := link.(spans := line == "OK");
        case CandHandler(owner, epoch, revision, buf) =>
          if owner == None || owner != ic || epoch != comp.epoch || line == "SKIP" {
            return;
          }
          var current := revision == comp.revision && buf == comp.buf;
          var preview := !current && buf != "" && |comp.buf| > |buf| && StartsWith(comp.buf, buf) && IsCandLine(line);
          if !current && !preview {
            return;
          }
          if line != "EMPTY" && !IsCandLine(line) {
            UnexpectedReply(ic.value);
            return;
          }
          ShowCandidates(h, line);
          if current && defer.pending {
            if comp.cands == [] {
              FallbackPending(ic.value);
            } else {
              DisarmPending();
              CommitCandidate(ic.value, page.selected);
              DrainQueued(owner.value);
            }
          }
      }
    }

    /** onLine */
    method OnLine(line: string)
      modifies this
      ensures View() == A.OnLine(old(View()), line)
      ensures old(AtRest(View())) ==> AtRest(View())
    {
      hide A.OnReply, AtRest;
      if AtRest(View()) {
        OnLineAtRest(View(), line);
      }
      if !link.alive {
        return;
      }
      if !link.ready {
        if line == "READY" {
          link := link.(ready := true, fails := 0, forks := 0);
        }
        return;
      }
      if line != "" && link.handlers != [] {
        var h := link.handlers[0];
        link := link.(handlers := link.handlers[1..]);
        TakeReply(h, line);
      }
    }

    // ---------------------------------------------------------------- events

    method Reset()
      modifies this
      ensures View() == A.OnReset(old(View()))
      ensures out == old(out) && comp.buf == "" && defer.queued == []
      ensures old(AtRest(View())) ==> AtRest(View())
    {
      hide A.Send, A.ClearAll, A.UpdateUI, AtRest;
      if AtRest(View()) {
        OnResetAtRest(View());
      }
      var had := comp.buf != "" || comp.cands != [];
      Send(Save, NoHandler);
      ClearAll();
      if had {
        UpdateUI();
      }
    }

    method Deactivate(owner: Ic, switching: bool)
      modifies this
      ensures View() == A.OnDeactivate(old(View()), owner, switching)
      ensures comp.buf == "" && defer.queued == [] && |out| == |old(out)| + (if switching && old(comp.buf) != "" then 1 else 0)
      ensures switching && old(comp.buf) != "" ==> out[|old(out)|].Commit? && out[|old(out)|].text == A.PendingRaw(old(comp), old(defer))
      ensures old(AtRest(View())) ==> AtRest(View())
    {
      hide A.ClearAll, A.UpdateUI, A.PendingRaw, AtRest;
      if AtRest(View()) {
        OnDeactivateAtRest(View(), owner, switching);
      }
      if switching && comp.buf != "" {
        var raw := PendingRaw();
        out := out + [Commit(owner, raw, Raw(comp.buf, defer.pending, A.HeldPresses(defer.queued)))];
        defer := defer.(fates := defer.fates + A.SwitchFates(defer.queued), queued := []);
      }
      var had := comp.buf != "" || comp.cands != [];
      ClearAll();
      if had {
        UpdateUI();
      }
    }

    /** The five-second timer of a pending Space. */
    method PendingTimer()
      modifies this
      ensures View() == A.OnPendingTimer(old(View()))
    {
      hide A.Fallback;
      match defer.timer {
        case None =>
        case Some(t) =>
          if ic == Some(t.ic) && t.epoch == comp.epoch && defer.pending {
            FallbackPending(t.ic);
          }
      }
    }

    /** The restart timer: the new session is empty, so the unfinished pinyin is replayed. */
    method RestartTimer()
      modifies this
      ensures View() == A.OnRestartTimer(old(View()))
    {
      hide A.EnsureEngine, A.Request;
      if !link.restart {
        return;
      }
      link := link.(restart := false);
      if link.alive {
        return;
      }
      EnsureEngine();
      RequestCandidates(comp.buf);
    }

    /** One turn of the event loop. */
    method Turn(input: Input, luck: seq<bool>)
      modifies this
      ensures View() == A.Step(old(View()), input, luck)
      ensures old(AtRest(View())) ==> AtRest(View())
      ensures old(AtRest(View()) && InSession(View())) ==> InSession(View())
      ensures old(A.Shown(View())) ==> A.Shown(View())
      ensures old(OwnLetters(View())) ==> OwnLetters(View())
    {
      hide A.ProcessKey, A.OnLine, A.Die, A.OnRestartTimer, A.OnPendingTimer, A.CommitCandidate, A.OnReset, A.OnDeactivate, AtRest, InSession;
      if AtRest(View()) {
        StepAtRest(View(), input, luck);
        if InSession(View()) {
          StepStays(View(), input, luck);
        }
      }
      link := link.(luck := luck);
      match input {
        case Key(owner, e) => var _ := ProcessKey(owner, e);
        case Line(line) => OnLine(line);
        case Exit =>
          if link.alive {
            Die();
          }
        case RestartTimer => RestartTimer();
        case PendingTimer => PendingTimer();
        case Click(owner, index) => CommitCandidate(owner, index);
        case Reset(_) => Reset();
        case Deactivate(owner, switching) => Deactivate(owner, switching);
        case Configure(size) => config := size;
        case Destroy(owner) =>
          if ic == Some(owner) {
            ic := None;
          }
      }
    }

    /** Any run of the event loop. */
    method Turns(turns: seq<Turn>)
      modifies this
      ensures View() == A.Run(old(View()), turns)
      ensures old(AtRest(View())) ==> AtRest(View())
      ensures old(AtRest(View()) && InSession(View())) ==> InSession(View())
      ensures old(A.Shown(View())) ==> A.Shown(View())
      ensures old(OwnLetters(View())) ==> OwnLetters(View())
    {
      hide A.Step, AtRest, A.Shown, InSession, OwnLetters;
      var i := 0;
      while i < |turns|
        invariant i <= |turns| && View() == A.Run(old(View()), turns[..i])
        invariant old(AtRest(View())) ==> AtRest(View())
        invariant old(AtRest(View()) && InSession(View())) ==> InSession(View())
        invariant old(A.Shown(View())) ==> A.Shown(View())
        invariant old(OwnLetters(View())) ==> OwnLetters(View())
      {
        Turn(turns[i].input, turns[i].luck);
        i := i + 1;
        assert turns[..i][..i - 1] == turns[..i - 1];
      }
      assert turns[..i] == turns;
    }
  }

  /** A key by its kind: a capital outside a composition, a letter, a move in the list, or any other. */
  lemma IdleKeyByKind(st0: State, owner: Ic, e: Event)
    ensures var st := if A.MustRedraw(st0) then A.UpdateUI(st0) else st0;
            A.IdleKey(st0, owner, e) ==
            if st.comp.buf == "" && IsUpper(e.sym) && e.shift then
              Result(st.(out := st.out + [Commit(owner, [e.sym as char], Literal)]), true)
            else if IsLower(e.sym) || IsUpper(e.sym) then Result(A.LetterKey(st, LetterOf(e.sym)), true)
            else if Paged(st, e.sym).Some? then Result(Paged(st, e.sym).value, true)
            else Committed(st, owner, e)
  {
    hide A.UpdateUI, A.LetterKey, A.ArrowMove, A.PunctKey, A.DigitKey, A.CommitCandidate, A.Arm, A.CommitText,
      A.BackspaceKey, A.ClearAll, A.MustRedraw, A.PageSize, A.PageBack, A.PageForward;
  }

  /** What the keys do that neither type a letter nor move in the list. */
  function Committed(st: State, owner: Ic, e: Event): Result {
    if Owned(e.sym) then A.PunctKey(st, owner, e)
    else if 0x31 <= e.sym <= 0x39 || (e.sym == 0x30 && A.PageSize(st.config) >= 10) then A.DigitKey(st, owner, e.sym)
    else Edited(st, owner, e.sym)
  }

  /** What the arrows and the paging keys do while composing. */
  function Paged(st: State, sym: nat): Option<State> {
    var size := A.PageSize(st.config);
    if st.comp.buf == "" then None
    else if A.Selectable(st) && IsArrow(sym) then
      Some(A.UpdateUI(st.(page := A.ArrowMove(st.page, sym, size, |st.comp.cands|))))
    else if sym == KEY_MINUS || sym == KEY_PAGE_UP then
      Some(if st.page.start > 0 then A.UpdateUI(st.(page := A.PageBack(st.page, size))) else st)
    else if sym == KEY_EQUAL || sym == KEY_PLUS || sym == KEY_KP_ADD || sym == KEY_PAGE_DOWN then
      Some(if st.comp.current && st.page.start + size < |st.comp.cands|
           then A.UpdateUI(st.(page := A.PageForward(st.page, size))) else st)
    else None
  }

  /** What Space, Enter, Backspace and Escape do. */
  function Edited(st: State, owner: Ic, sym: nat): Result {
    if st.comp.buf == "" then Result(st, false)
    else if sym == KEY_SPACE then
      Result(if A.Selectable(st) then A.CommitCandidate(st, owner, st.page.selected) else A.Arm(st, owner), true)
    else if sym == KEY_RETURN then Result(A.CommitText(st, owner, st.comp.buf, Literal), true)
    else if sym == KEY_BACKSPACE then Result(A.BackspaceKey(st), true)
    else if sym == KEY_ESCAPE then Result(A.UpdateUI(A.ClearAll(st)), true)
    else Result(st, false)
  }

  /**
   * What the person typing sees of such a key: nothing outside a composition; Enter commits the pinyin
   * and Escape drops it; Backspace takes its last letter; a Space commits the selected candidate and
   * keeps what it does not cover, or waits, or, with nothing to wait for, flushes what was typed.
   */
  predicate Edits(a: State, b: State, accepted: bool, owner: Ic, sym: nat) {
    && (a.comp.buf == "" ==> !accepted && b == a)
    && (a.comp.buf != "" && sym == KEY_RETURN ==>
          accepted && b.comp.buf == "" && b.out == a.out + [Commit(owner, a.comp.buf, Literal)])
    && (a.comp.buf != "" && sym == KEY_ESCAPE ==> accepted && b.comp.buf == "" && b.defer.queued == [] && b.out == a.out)
    && (a.comp.buf != "" && sym == KEY_BACKSPACE ==> accepted && b.comp.buf == A.DropLast(a.comp.buf) && b.out == a.out)
    && (a.comp.buf != "" && sym == KEY_SPACE ==>
          && accepted
          && (!A.Selectable(a) ==> b.defer.pending == !NothingToAwait(a))
          && (if A.Selectable(a) then
                0 <= a.page.selected < |a.comp.cands| ==>
                  && |b.out| == |a.out| + 1 && b.out[|a.out|].Commit? && b.out[|a.out|].text == a.comp.cands[a.page.selected]
                  && |b.comp.buf| < |a.comp.buf| && a.comp.buf[|a.comp.buf| - |b.comp.buf|..] == b.comp.buf
              else if b.defer.pending then b.out == a.out && b.comp == a.comp
              else |b.out| > |a.out| && b.out[|a.out|].Commit? && b.out[|a.out|].text == A.PendingRaw(a.comp, a.defer.(pending := true))))
  }

  /** Every editing key does what it says. */
  lemma EditedEdits(st: State, owner: Ic, sym: nat)
    ensures Edits(st, Edited(st, owner, sym).st, Edited(st, owner, sym).accepted, owner, sym)
  {
    hide A.Send, A.UpdateUI, A.Request, A.CommitText, A.Fallback;
    if st.comp.buf != "" && sym == KEY_SPACE && !A.Selectable(st) {
      RawComesFirst(A.UpdateUI(st.(defer := st.defer.(pending := true, timer := Some(Timer(owner, st.comp.epoch))))), owner);
    }
  }

  lemma RawComesFirst(st: State, owner: Ic)
    ensures var r := A.Fallback(st, owner);
            |r.out| > |st.out| && r.out[|st.out|].Commit? && r.out[|st.out|].text == A.PendingRaw(st.comp, st.defer)
  {
  }

  /** Where a paging key leaves the window: aligned, holding the selection, and at most one page from where it was. */
  predicate OnePageAway(p: Page, q: Page, count: nat, size: int) {
    PageOk(q, count, size) && (q.start == p.start || q.start == p.start + size || q.start == p.start - size)
  }

  lemma PagedStays(st: State, sym: nat)
    requires PageOk(st.page, |st.comp.cands|, A.PageSize(st.config)) && Paged(st, sym).Some?
    ensures OnePageAway(st.page, Paged(st, sym).value.page, |st.comp.cands|, A.PageSize(st.config))
  {
    var p, count, size := st.page, |st.comp.cands|, A.PageSize(st.config);
    Paging.ArrowsStayOk(p, sym, count, size);
    Paging.AlignmentIsOk(A.ArrowMove(p, sym, size, count), count, size);
    if p.start > 0 {
      Paging.BackThenForward(p, count, size);
      Paging.AlignmentIsOk(A.PageBack(p, size), count, size);
    }
    if Paging.CanGoForward(p, count, size) {
      Paging.ForwardThenBack(p, count, size);
      Paging.AlignmentIsOk(A.PageForward(p, size), count, size);
    }
  }

  lemma NothingToParse(spans: bool)
    ensures ParseItems(spans, "") == []
  {
  }

  lemma ParseUnrolls(spans: bool, body: string)
    requires body != ""
    ensures var tab := Find(body, '\t');
            ParseItems(spans, body) ==
            (match ParseItem(spans, body[..tab]) case Some(e) => [e] case None => [])
            + ParseItems(spans, if tab == |body| then "" else body[tab + 1..])
  {
  }

  lemma TwoFates(fates: seq<Fate>, a: Queued, b: Queued)
    ensures fates + [Deleted(a)] + [Deleted(b)] == fates + [Deleted(a), Deleted(b)]
  {
  }

  /** Aligning first changes nothing of what a redraw shows. */
  lemma RedrawnAlike(st: State, rendered: int)
    ensures A.UpdateUI(st.(page := A.Normalized(st.page, |st.comp.cands|, A.PageSize(st.config)))) == A.UpdateUI(st)
  {
    NormalizedTwice(st.page, |st.comp.cands|, A.PageSize(st.config));
  }
}
