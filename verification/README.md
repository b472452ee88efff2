# WeType input method: verified model

The repository drives a proprietary pinyin engine from an Fcitx 5 addon. The addon
(`fcitx5-wetype/src/wetype.cpp`) runs the engine in a child process and talks to it in lines;
the child is a harness (`harness/jinterop.c`) that loads the engine behind a fake JNI. This
project models both ends, the pipes between them, and the stores the harness must keep sound, and
proves what every run keeps.

`dafny verify dfyconfig.toml` checks the whole project.

## How it is laid out

| file | contents |
|---|---|
| `Basics.dfy`, `Codec.dfy`, `Wire.dfy` | shared vocabulary; the CAND reply format; the command lines |
| `Addon.dfy` | the addon as functions on one state value: every method of `WeTypeEngine`, and `EngineProc` as it sees it |
| `Effects.dfy` | what single keys, replies, deaths and timers do, told without naming how they are handled |
| `AddonRuns.dfy`, `Commits.dfy`, `Replays.dfy`, `Paging.dfy` | what every run of the addon keeps; what each commit may say; the session with the engine over deaths and replays; the candidate window |
| `DeferredFates.dfy`, `FatesOfTurns.dfy`, `DeferredText.dfy` | what becomes of deferred keys, told by the output; which turn gives which fate; the text behind a pending Space |
| `WeTypeEngine.dfy` | the addon's class: fields updated step by step, each method proved against its function |
| `EngineProc.dfy` | the engine process object: replies, handlers, deaths, re-entrant failures |
| `LineReader.dfy` | both line readers, over every way of cutting a stream into reads |
| `Daemon.dfy`, `DaemonLoop.dfy` | the daemon's commands as functions; its loop over a byte stream, and what merging batches means |
| `Fetch.dfy` | copying candidates out of the engine's batches and releasing the objects |
| `Joint.dfy`, `JointRuns.dfy`, `JointTheorems.dfy`, `JointLoop.dfy`, `LostSelections.dfy` | addon, pipes and daemon as one transition system; its daemon as the loop that reads bytes; the run on which the two ends part |
| `Iterators.dfy` | ownership of the engine's candidate iterators between two threads |
| `Registry.dfy` | the fake-JNI object registry |
| `MallocTrace.dfy` | the allocation tracer |

The addon, the daemon loop, the readers, the iterator hub, the registry and the tracer are classes
that change their fields and arrays in place, as the source does. Where statements range over
whole runs, a class is specified by functions on the value of its state (`View()`), and the run
theorems are about those functions. The engine is an environment: it shows any candidates, or
none, at any time, hands out any iterator that is not still out, and may die at any write or fork.
Outcomes of reads, polls, writes, forks, allocations and the clock are inputs, so every statement
holds for all of them.

Some fields only serve the statements: in `Addon.Comp` the letters typed and consumed, whose
keys the letters were and the reply the candidates came from, in `Defer` the events deferred and the fate of each, in `Link` the number of
forks and the outcomes of coming writes, in `Commit` why the text was committed, and in a joint state
the words the daemon was told to select and the passes of its loop. The calls the daemon makes to the engine
carry the cover of a learned candidate, which says what the engine then still holds.

## What the proofs found

- **Punctuation drops letters.** A symbol key on a candidate that covers a proper prefix commits the
  candidate and ends the composition; the letters not covered are gone, where Space would keep them
  (`AddonRuns.PunctuationDropsRest`). The README of the repository promises no lost text only for the
  asynchronous Space, so this is stated, not assumed away.
- **A lost selection can desynchronise the two ends.** A prefix candidate without an id is answered
  ERR. When the next letter is typed before that ERR is read, the addon ignores it as stale and the
  daemon keeps the letters the addon consumed; `LostSelections.RunBreaksMirror` is such a run from the
  start. A selection is lost if and only if its candidate covers a proper prefix and has no id, or the
  pinyin had more than 255 letters (`JointTheorems.LostExactlyWhen`): with ids, and at most 255 letters,
  nothing is lost and the session mirror holds in every state (`JointTheorems.SessionMirror`). The
  mirror itself then fails too, but for one case: with more than 255 letters before the click and after
  it, both ends agree that they are too many (`JointTheorems.MirrorKeptExactly`).
- **A symbol on a prefix candidate** is the one selection on which the ends take different branches: the
  daemon keeps composing, the addon ends the composition and its C follows at once
  (`JointTheorems.SelectionAgreement`, `JointTheorems.PurposeIsRecorded`).
- **A click or a switch can name another context.** Keys, replies and timers commit only to the context that
  typed the letters, because a key of another context starts over (`Effects.NewContextStartsOver`). A click on
  the panel and a switch of the input method commit to the context of their own event without comparing it:
  the letters then go home if and only if that is the context that has the composition
  (`Commits.LettersGoHome`).
- **Releasing a startup object corrupts the registry at the next sweep**, because
  the last entry takes its place in the protected prefix or the sweep sets the count back to the
  prefix length; it happens if and only if an unpinned object of the prefix is released
  (`Registry.StartupObjectsMustNotBeReleased`). The callers release only objects registered
  later.
- **Call site 0** is taken for any empty slot by the tracer's table. The site sums stay exact through
  such a block if and only if its search finds no slot (`MallocTrace.SiteZeroNeedsAFullTable`); totals
  and bins are exact always. A return address is never 0, so this needs a caller that passes 0.
- **Lines over 8191 bytes** lose their whole 8192-byte blocks from the front rather than being discarded
  to their newline, as the comment on the buffer suggests (`LineReader.LinesAreTrimmed`): a stream is
  read exactly if and only if no line is that long (`LineReader.LinesAreExact`).
- **Merged batches** keep every letter if and only if they are at most 511 together
  (`Daemon.MergeIsWhole`); batches of at most 64 letters always do, 447 letters and then 65 do not
  (`Daemon.MergeCutsLongPayload`).

## Model

| member | source | states |
|---|---|---|
| Codec.AtoiOfPrinted | harness/jinterop.c:1062 | a cover printed with %d is read back by atoi as the same number, whatever non-digit follows, negative numbers included |
| Codec.ItemRoundTrip | harness/jinterop.c:1062-1063 | one printed candidate holds no tab or newline and parses back to its cover and text, even when the text itself has colons |
| Codec.ParseStep | fcitx5-wetype/src/wetype.cpp:717-729 | the getline loop takes exactly one item off a tab-separated line and goes on behind the tab |
| Codec.ItemsRoundTrip | harness/jinterop.c:1056-1069 | every nonempty list of items prints to a line that parses back to the list, index for index |
| Codec.CandRoundTrip | fcitx5-wetype/src/wetype.cpp:714-731 | a CAND line printed by the daemon gives the addon the same texts in order, with the same covers in spans mode and cover 0 without |
| Codec.CandModesMustAgree | fcitx5-wetype/src/wetype.cpp:719-725 | covers printed for an addon that does not expect them would become part of the text on screen: why both ends must share the mode |
| Wire.DispatchOfRendered | harness/jinterop.c:1167-1297 | the daemon's chain of string tests reads each command line the addon writes as the command meant, losing only what the 511 bytes of its line buffer cut from a batch |
| Wire.DispatchOfBatch | harness/jinterop.c:1204-1209 | a B line of letters is a batch of exactly its letters, up to the line buffer |
| Wire.DispatchOfSelect | harness/jinterop.c:1250-1251 | atoi on an S line gives back the index the addon printed |
| Addon.PageSize | fcitx5-wetype/src/wetype.cpp:502-505 | the configured page size counts when it is between 1 and 10, and 5 otherwise |
| Paging.AlignmentKeepsPlace | fcitx5-wetype/src/wetype.cpp:507-524 | alignment goes to the page that holds the old start, or the nearest candidate to it, and moves the selection no further than into that page |
| Addon.PageBounds | fcitx5-wetype/src/wetype.cpp:507-524 | after alignment the window starts at a multiple of the page size and the selection is inside window and list |
| Addon.NormalizedTwice | fcitx5-wetype/src/wetype.cpp:507-524 | aligning an aligned page changes nothing |
| Addon.UpdateUI | fcitx5-wetype/src/wetype.cpp:526-563 | a redraw touches neither composition nor pipes and leaves on screen exactly the window the indices speak of |
| Addon.Start | fcitx5-wetype/src/wetype.cpp:205-278 | start() succeeds only with a live process and keeps forks since READY at most five, giving up for good |
| Addon.Send | fcitx5-wetype/src/wetype.cpp:317-331 | sending, however many deaths, failing handlers and replays it sets off, ends, never touches composition, queue or output, and keeps the fork bound; afterwards the command is written behind the others, or the engine is gone or renewed with the whole pinyin |
| Addon.Die | fcitx5-wetype/src/wetype.cpp:280-314 | after the death and all it sets off either there is no engine, or a new one that was asked for spans and then sent the whole pinyin; with no waiting handler for the present pinyin, or after a recovery, the process is gone, nothing waits and the restart timer is armed unless it gave up; composition, queue, context and output are untouched |
| Addon.FailAll | fcitx5-wetype/src/wetype.cpp:390-397 | failing the handlers that were swapped out ends even though each may restart the engine and send again; the engine is renewed at most once, and not at all when none is for the present pinyin |
| Addon.Lost | fcitx5-wetype/src/wetype.cpp:678-699 | a lost reply recovers at most once a composition, and not for another composition, revision or pinyin; an engine started for it was asked for spans and then sent the whole pinyin |
| Addon.EnsureEngine | fcitx5-wetype/src/wetype.cpp:654-664 | an engine started here has been sent OPT spans and nothing else; a live engine, or one given up, is left alone; composition, queue, context and output are kept |
| Addon.Request | fcitx5-wetype/src/wetype.cpp:750-756 | the batch is written behind what a live engine has, or behind OPT spans to one just started, or the engine is gone or renewed with the whole pinyin; composition, queue, context and output are kept |
| Addon.CommitText | fcitx5-wetype/src/wetype.cpp:596-611 | commitText outputs exactly its text and leaves an empty composition at the next revision with the panel in step |
| Addon.CommitCandidate | fcitx5-wetype/src/wetype.cpp:613-637 | candidates that are not current are never committed; the deferred queue is untouched |
| Addon.Fallback | fcitx5-wetype/src/wetype.cpp:796-804 | after a raw fallback no Space is pending, the queue is empty and each of its events is accounted for |
| Addon.ClearAll | fcitx5-wetype/src/wetype.cpp:856-869 | clearAll cancels the queue, raises epoch and revision and outputs nothing |
| Addon.LastPress | fcitx5-wetype/src/wetype.cpp:892-894 | the search from the back finds the last press: behind it are only releases |
| Addon.ReleaseOf | fcitx5-wetype/src/wetype.cpp:898-900 | the search forward finds the first release of that raw key |
| Addon.Drain | fcitx5-wetype/src/wetype.cpp:822-834 | draining ends, and stops only with an empty queue, a Space pending again or another input context |
| WeTypeEngine.WeTypeEngine.constructor | fcitx5-wetype/src/wetype.cpp:426-458 | a new addon has an empty composition, has started its engine as `Addon.Init` says, and is at rest, in session, with its panel in step and letters of its context only |
| WeTypeEngine.WeTypeEngine.NormalizePage | fcitx5-wetype/src/wetype.cpp:507-524 | the in-place alignment gives the aligned page and reports exactly when the panel must be redrawn |
| WeTypeEngine.WeTypeEngine.PendingRaw | fcitx5-wetype/src/wetype.cpp:777-784 | the loop gives the pinyin, the pending Space and the deferred presses in order |
| WeTypeEngine.WeTypeEngine.UpdateUI | fcitx5-wetype/src/wetype.cpp:526-563 | the drawing loop puts the aligned window's candidates on the panel, cursor on the selection |
| WeTypeEngine.WeTypeEngine.Start | fcitx5-wetype/src/wetype.cpp:205-278 | start() goes through its guards in order and counts the attempt only when it forks |
| WeTypeEngine.WeTypeEngine.Send | fcitx5-wetype/src/wetype.cpp:317-331 | writing queues command and handler together; a failed write kills the engine first and then fails this handler, which may itself restart and send |
| WeTypeEngine.WeTypeEngine.Die | fcitx5-wetype/src/wetype.cpp:385-388 | die() stops, fails the handlers that waited, then arms the restart timer |
| WeTypeEngine.WeTypeEngine.FailPendingHandlers | fcitx5-wetype/src/wetype.cpp:392-397 | the loop fails the handlers swapped out in order; what they queue meanwhile stays |
| WeTypeEngine.WeTypeEngine.LoseReply | fcitx5-wetype/src/wetype.cpp:678-699 | a handler called with "" redraws and, once a composition, restarts the engine and replays the pinyin, only when it still speaks for the present pinyin |
| WeTypeEngine.WeTypeEngine.EnsureEngine | fcitx5-wetype/src/wetype.cpp:654-664 | a started engine is asked for spans before anything else |
| WeTypeEngine.WeTypeEngine.RequestCandidates | fcitx5-wetype/src/wetype.cpp:750-756 | the handler is captured after the engine was ensured, at the present epoch, revision and pinyin |
| WeTypeEngine.WeTypeEngine.CommitText | fcitx5-wetype/src/wetype.cpp:596-611 | text out, composition emptied, C sent, panel redrawn, in that order |
| WeTypeEngine.WeTypeEngine.CommitCandidate | fcitx5-wetype/src/wetype.cpp:613-637 | a candidate that covers a proper prefix keeps the rest composing; any other ends the composition; one not current does nothing; letters and freshness are kept |
| WeTypeEngine.WeTypeEngine.FallbackPending | fcitx5-wetype/src/wetype.cpp:796-804 | the raw text is committed, then the releases held back are forwarded in order |
| WeTypeEngine.WeTypeEngine.ForwardReleases | fcitx5-wetype/src/wetype.cpp:801-803 | exactly the releases of the queue are forwarded, in order |
| WeTypeEngine.WeTypeEngine.ArmPending | fcitx5-wetype/src/wetype.cpp:806-820 | a Space waits, with its timer and nothing else changed, if and only if there is something to wait for: not current candidates that are none, and an engine not given up; otherwise the composition is over |
| WeTypeEngine.WeTypeEngine.ClearAll | fcitx5-wetype/src/wetype.cpp:856-868 | the composition, the queue and the session are reset |
| WeTypeEngine.WeTypeEngine.FindLastPress | fcitx5-wetype/src/wetype.cpp:892-894 | the backward loop finds the last deferred press |
| WeTypeEngine.WeTypeEngine.FindRelease | fcitx5-wetype/src/wetype.cpp:898-900 | the forward loop finds the first later release of that key |
| WeTypeEngine.WeTypeEngine.PendingBackspace | fcitx5-wetype/src/wetype.cpp:890-920 | the last press and one release of it go, or else the last letter, and the wait goes on while letters are left |
| WeTypeEngine.WeTypeEngine.PendingKey | fcitx5-wetype/src/wetype.cpp:881-933 | Escape cancels, Backspace edits, navigation and shortcuts flush, everything else is deferred and the 256th event flushes |
| WeTypeEngine.WeTypeEngine.LetterKey | fcitx5-wetype/src/wetype.cpp:966-986 | a letter extends the pinyin; it alone is sent, or the whole pinyin when the engine had died |
| WeTypeEngine.WeTypeEngine.ArrowKey | fcitx5-wetype/src/wetype.cpp:988-1009 | the arrows move within the window and by whole pages, and are consumed at the ends |
| WeTypeEngine.WeTypeEngine.PunctKey | fcitx5-wetype/src/wetype.cpp:1036-1055 | a symbol commits the selected current candidate, or the pinyin, with the symbol behind it |
| WeTypeEngine.WeTypeEngine.DigitKey | fcitx5-wetype/src/wetype.cpp:1057-1067 | a digit selects within the window among current candidates |
| WeTypeEngine.WeTypeEngine.BackspaceKey | fcitx5-wetype/src/wetype.cpp:1085-1104 | the session is cleared and the shorter pinyin replayed, or the panel emptied |
| WeTypeEngine.WeTypeEngine.IdleKey | fcitx5-wetype/src/wetype.cpp:942-1112 | the key tests in their order, after the panel was aligned to the page size |
| WeTypeEngine.WeTypeEngine.PageKey | fcitx5-wetype/src/wetype.cpp:988-1031 | a paging key leaves an aligned window that holds the selection, at most one page from where it was, and the panel in step |
| WeTypeEngine.WeTypeEngine.Align | fcitx5-wetype/src/wetype.cpp:943 | the redraw before a key leaves the selection inside the candidates, so that no branch reads past them |
| WeTypeEngine.WeTypeEngine.EditKey | fcitx5-wetype/src/wetype.cpp:1069-1111 | outside a composition nothing; Enter commits exactly the pinyin and Escape drops it without output; Backspace takes the last letter; Space commits the selected candidate and keeps exactly a suffix of the pinyin, or else waits exactly when there is something to wait for, and flushes the raw text when there is not |
| WeTypeEngine.WeTypeEngine.ProcessKey | fcitx5-wetype/src/wetype.cpp:873-1115 | a key from another input context starts over: new epoch, nothing pending or held, a pinyin empty or of its one letter, no commit but its own; a pending Space takes precedence over everything; an addon at rest is at rest after any key |
| WeTypeEngine.WeTypeEngine.DrainQueued | fcitx5-wetype/src/wetype.cpp:822-834 | the loop processes deferred events one by one, forwards those not accepted, and stops when a Space is pending again |
| WeTypeEngine.WeTypeEngine.ParseCands | fcitx5-wetype/src/wetype.cpp:714-730 | the getline loop gives the entries `Codec.ParseCands` specifies |
| WeTypeEngine.WeTypeEngine.UnexpectedReply | fcitx5-wetype/src/wetype.cpp:700-711 | the session is rebuilt once a composition, and a pending Space falls back when that was already tried |
| WeTypeEngine.WeTypeEngine.ShowCandidates | fcitx5-wetype/src/wetype.cpp:712-735 | the candidates and covers of the line are shown from the first page, selectable only when they answer the present pinyin |
| WeTypeEngine.WeTypeEngine.TakeReply | fcitx5-wetype/src/wetype.cpp:672-746 | stale replies are dropped, previews shown, a pending Space takes the first current candidate and the queue is drained; an addon at rest is at rest after any reply |
| WeTypeEngine.WeTypeEngine.OnLine | fcitx5-wetype/src/wetype.cpp:358-377 | lines before READY are noise; each later nonempty line goes to the first waiting handler; an addon at rest is at rest after any line |
| WeTypeEngine.WeTypeEngine.Reset | fcitx5-wetype/src/wetype.cpp:468-475 | SAVE, then everything cleared without output, the panel redrawn only if there was something |
| WeTypeEngine.WeTypeEngine.Deactivate | fcitx5-wetype/src/wetype.cpp:478-495 | switching the input method commits the raw text, once; everything is cleared |
| WeTypeEngine.WeTypeEngine.PendingTimer | fcitx5-wetype/src/wetype.cpp:809-817 | the five-second timer falls back only for the composition that armed it |
| WeTypeEngine.WeTypeEngine.RestartTimer | fcitx5-wetype/src/wetype.cpp:642-651 | a restarted engine gets the unfinished pinyin again |
| WeTypeEngine.WeTypeEngine.Turn | fcitx5-wetype/src/wetype.cpp:870-1115 | one event-loop turn of the class is one step of the state machine, and keeps it at rest, in session, with its panel in step and letters of its context only |
| WeTypeEngine.WeTypeEngine.Turns | fcitx5-wetype/src/wetype.cpp:870-1115 | over any list of turns the object is the run of the state machine: from a new addon it stays at rest (fresh candidates, letters conserved, every deferred key told), in session with its engine, with its panel in step and letters of its context only |
| AddonRuns.EveryRunIsAtRest | fcitx5-wetype/src/wetype.cpp:670-747 | over every run (any keys, replies, deaths, timers, failing writes): selectable candidates are the parse of a reply captured at the present epoch, revision and pinyin; letters typed are letters consumed plus pinyin left; a pending Space has pinyin, no current candidates and its timer, and holds only releases and printable presses of its context; every deferred event has exactly one fate, told by the output, and is served in order; at most five forks without READY |
| AddonRuns.OutputTellsFates | fcitx5-wetype/src/wetype.cpp:796-834 | over every run: the events forwarded are, in order and one for one, the deferred events processed and not accepted and the releases flushed; the presses in raw commits are those flushed, and each raw commit (on switching included) says exactly the pinyin, the Space and its presses; events cancelled or deleted are in neither; a drained release is never accepted, a plain letter always |
| AddonRuns.GivenUpForGood | fcitx5-wetype/src/wetype.cpp:205-210 | once the addon has given up on its engine it has none in any later run |
| Commits.EveryCommitIsLicensed | fcitx5-wetype/src/wetype.cpp:596-637 | over every run every commit is allowed by a moment of the run: a candidate only in a state where candidates are current for the present pinyin, and the one that the key, click or reply chooses, with the symbol if a symbol key chose it; raw text of the pinyin held; and otherwise only the pinyin at Enter, the pinyin with the key's own symbol where no candidate can be selected, or the capital typed; and its context is the one whose composition that is, or the one a click or a switch names |
| Commits.EveryRunOwnsLetters | fcitx5-wetype/src/wetype.cpp:873-879 | over every run, whose key each letter was being recorded, the letters of the composition are all of the context that has it |
| Commits.LettersGoHome | fcitx5-wetype/src/wetype.cpp:878 | so a commit by a key, a reply or the timer goes to the context that typed its letters; a click or a switch sends it there if and only if that is the context it names |
| Commits.TurnIsLicensed | fcitx5-wetype/src/wetype.cpp:613-637 | and turn by turn: each new commit of a turn is allowed by one of that turn's own moments, drained keys included, and output is never taken back |
| Commits.IdleKeySays | fcitx5-wetype/src/wetype.cpp:942-1112 | each key with no Space pending commits only what the state aligned for it allows |
| Commits.PendingTakesFirst | fcitx5-wetype/src/wetype.cpp:736-745 | the reply a pending Space waits for commits its first candidate, once, and then the keys held are served until none is left or a Space waits again |
| Effects.SpaceWaits | README.md:167-173 | a Space without selectable candidates waits, with its timer set and nothing committed or changed, if and only if there is something to wait for (no current reply without candidates, no engine given up); otherwise the pinyin and the Space are committed at once |
| Effects.NewContextStartsOver | fcitx5-wetype/src/wetype.cpp:878-879 | a key of another input context starts over: a later epoch, nothing pending or held, a pinyin that is empty or this key's one letter, and no new commit but the key's own symbol or capital |
| Effects.LetterIsTyped | fcitx5-wetype/src/wetype.cpp:951-986 | a letter key types its own letter, small inside a composition, commits nothing; a shifted capital outside one is committed as it is |
| Effects.SymbolOutside | fcitx5-wetype/src/wetype.cpp:1050-1055 | outside a composition a symbol is committed in its wide form if it has one there and left alone otherwise |
| Effects.SymbolInside | fcitx5-wetype/src/wetype.cpp:1036-1049 | inside one a symbol that is no paging key ends the composition, committing the selected current candidate, or else the pinyin, with the symbol behind it |
| Effects.OthersPass | fcitx5-wetype/src/wetype.cpp:935-942 | releases, shortcuts, digits with nothing to select and keys that mean nothing at the moment are left to the application and change no composition |
| Effects.BackKeysMove | fcitx5-wetype/src/wetype.cpp:999-1022 | minus, Page Up and Up go to the first candidate of the page before, and are consumed on the first page without effect |
| Effects.ForwardKeysMove | fcitx5-wetype/src/wetype.cpp:1002-1031 | equal, plus, Page Down and Down go to the first candidate of the next page, and are consumed without effect on the last and while candidates are not current |
| Effects.SideKeysMove | fcitx5-wetype/src/wetype.cpp:992-998 | Left and Right move the selection by one candidate within its page |
| Effects.StartsEagerly | fcitx5-wetype/src/wetype.cpp:426-458 | where fork and write succeed the addon starts its engine with itself and asks it for spans |
| Effects.RestartTimerRestarts | fcitx5-wetype/src/wetype.cpp:642-651 | while fewer than five starts have failed, and forks and writes now succeed, the restart timer starts an engine, which gets OPT spans and the whole unfinished pinyin; after five it gives up |
| Effects.DeathRecovers | fcitx5-wetype/src/wetype.cpp:678-699 | when the engine dies with a request for the present pinyin unanswered, a new one that can be started is started at once and sent the whole pinyin, once a composition |
| Effects.LetterRestarts | fcitx5-wetype/src/wetype.cpp:966-986 | a letter typed with no engine starts one where that can be started, which gets the whole pinyin with it |
| Effects.PreviewIsShown | fcitx5-wetype/src/wetype.cpp:677-735 | a reply for a proper prefix of the pinyin is shown from its first page and cannot be selected from |
| Effects.StaleIsIgnored | fcitx5-wetype/src/wetype.cpp:677-684 | SKIP and a reply for another composition, context or pinyin change nothing |
| Effects.CurrentIsShown | fcitx5-wetype/src/wetype.cpp:712-735 | a reply for the present pinyin is shown from its first page and can be selected from |
| Effects.NothingToTake | fcitx5-wetype/src/wetype.cpp:700-737 | a reply without candidates while a Space waits, or a second unexpected one, commits everything held as it was typed, then forwards the releases held |
| Effects.NothingToShow | fcitx5-wetype/src/wetype.cpp:700-735 | without a Space pending a reply without candidates leaves the pinyin with none, and a second unexpected reply changes nothing |
| Effects.UnexpectedRebuilds | fcitx5-wetype/src/wetype.cpp:700-711 | the first reply that is no candidate line makes the session new: C and the whole pinyin follow what was written |
| Effects.ReadyForgives | fcitx5-wetype/src/wetype.cpp:358-370 | READY makes the engine ready and forgives its failed starts; any other line before it is noise |
| Effects.DeactivationEnds | fcitx5-wetype/src/wetype.cpp:478-495 | deactivation ends the composition in a new epoch with the panel empty; a switch of the input method first commits all that was typed, to its own context, anything else nothing |
| Effects.ResetEnds | fcitx5-wetype/src/wetype.cpp:468-475 | a reset ends it likewise, without output |
| Effects.ResetSaves | fcitx5-wetype/src/wetype.cpp:468-475 | and saves the words learned before it ends the session |
| FatesOfTurns.TurnGives | fcitx5-wetype/src/wetype.cpp:786-834 | a held key is cancelled only by Escape behind the Space, a reset, a deactivation (when switching only its releases) or a key of another context; deleted only by Backspace; processed only when a reply came; flushed only by a key, a reply, the timer or a switch |
| FatesOfTurns.EveryTurnGives | fcitx5-wetype/src/wetype.cpp:786-834 | so over every run, turn by turn |
| FatesOfTurns.ReplyKeepsKeys | README.md:167-173 | nothing typed behind a Space is lost when a reply comes: each held key is still held, was processed, or is in the raw text or forwarded with it |
| FatesOfTurns.DrainLosesNothing | fcitx5-wetype/src/wetype.cpp:822-834 | draining cancels and deletes nothing although it processes keys that can clear a composition |
| FatesOfTurns.EscapeCancels | fcitx5-wetype/src/wetype.cpp:881-888 | Escape behind a pending Space cancels everything held and outputs nothing |
| Replays.EveryRunIsInSession | fcitx5-wetype/src/wetype.cpp:639-756 | over every run, with deaths, failing forks and failing writes: while an engine lives, the commands written to it since its fork (keys added, C, prefixes taken by selections) add up to exactly the pinyin on screen, so a replay restores what a death took and is never sent on top of it |
| Replays.StepStays | fcitx5-wetype/src/wetype.cpp:639-756 | each turn keeps that |
| Replays.ReplayStays | fcitx5-wetype/src/wetype.cpp:906-915 | C and the rest of the pinyin leave the engine with that rest, whether or not it outlived the C |
| AddonRuns.StepAtRest | fcitx5-wetype/src/wetype.cpp:873-1115 | each event-loop turn keeps all of that, from any state that has it |
| AddonRuns.ProcessKeyAtRest | fcitx5-wetype/src/wetype.cpp:873-1115 | each key keeps the freshness, conservation and queue invariants |
| AddonRuns.DrainAtRest | fcitx5-wetype/src/wetype.cpp:822-834 | draining keeps them although it re-enters key processing and commits along the way, each event forwarded exactly when it was not accepted |
| DeferredFates.DrainedKeyIsServed | fcitx5-wetype/src/wetype.cpp:826-833 | draining serves the first deferred event as processKey does, then forwards it exactly when it was not accepted, before anything else, and notes which |
| DeferredFates.DrainGrows | fcitx5-wetype/src/wetype.cpp:822-834 | draining takes back no output and no fate |
| DeferredFates.FallbackTells | fcitx5-wetype/src/wetype.cpp:796-804 | a fallback forwards exactly the releases of the queue behind a raw commit of exactly its presses |
| DeferredFates.SwitchAwayTells | fcitx5-wetype/src/wetype.cpp:478-488 | switching commits exactly the presses held back; the releases are dropped |
| DeferredFates.DroppedKeysAreSilent | fcitx5-wetype/src/wetype.cpp:791-794 | a cancelled or deleted event is in no raw commit, and the events forwarded are others |
| DeferredFates.OneFateEach | fcitx5-wetype/src/wetype.cpp:786-834 | no event meets two fates |
| AddonRuns.OnReplyAtRest | fcitx5-wetype/src/wetype.cpp:670-747 | each reply keeps them: in particular a stale or preview reply never makes candidates selectable |
| AddonRuns.CommitCandidateIsSound | fcitx5-wetype/src/wetype.cpp:613-637 | committing a candidate keeps freshness, conservation and the justification of all output |
| AddonRuns.DropLastPressInOrder | fcitx5-wetype/src/wetype.cpp:890-902 | deleting a deferred press leaves the service order of the others |
| AddonRuns.SelectionShrinks | fcitx5-wetype/src/wetype.cpp:613-637 | every selection commits its candidate and strictly shrinks the pinyin, taking exactly the covered prefix, so repeated selection ends |
| AddonRuns.PunctuationDropsRest | fcitx5-wetype/src/wetype.cpp:1036-1047 | a symbol key and a Space commit the same candidate, the key with its symbol behind; the pinyin left differs exactly when the candidate covers a proper prefix, and what the Space keeps and the symbol drops is the rest of the letters typed; without selectable candidates the whole pinyin is committed |
| DeferredText.BackspaceRemovesOneKey | fcitx5-wetype/src/wetype.cpp:890-905 | Backspace removes the last press and at most one later release of the same key; every other event stays in order |
| DeferredText.BackspaceDropsLastPress | fcitx5-wetype/src/wetype.cpp:890-905 | as text, Backspace removes exactly the last press |
| DeferredText.DeferredKeyIsTyped | fcitx5-wetype/src/wetype.cpp:881-933 | each key behind a pending Space does to the pending text what typing does in a plain append/delete-last editor; on the key that ends the wait exactly that text is committed, on the 256th event too |
| DeferredText.DeferredKeysAreTyped | fcitx5-wetype/src/wetype.cpp:777-784 | any sequence of such keys leaves pendingRaw() equal to the editor's text and outputs nothing |
| DeferredText.DeferredTextIsCommitted | README.md:167-173 | Enter, navigation, shortcuts, the five-second timer and a switch of the input method then commit that text verbatim, before anything is passed on |
| DeferredText.FallbackCommits | fcitx5-wetype/src/wetype.cpp:796-804 | a fallback commits the editor's text and then forwards releases only |
| Paging.AlignmentIsOk | fcitx5-wetype/src/wetype.cpp:507-524 | from any indices and any new page size alignment gives a valid window, is idempotent, and leaves a valid window alone |
| Paging.ForwardThenBack | fcitx5-wetype/src/wetype.cpp:1022-1031 | when forward moves, back from there is the page it came from |
| Paging.BackThenForward | fcitx5-wetype/src/wetype.cpp:1014-1021 | when back moves, forward from there is the page it came from |
| Paging.ArrowsStayOk | fcitx5-wetype/src/wetype.cpp:988-1009 | arrow keys never leave a valid window |
| Paging.ForwardReaches | fcitx5-wetype/src/wetype.cpp:1022-1031 | repeated forward shows every candidate of the list |
| Paging.EveryRunIsShown | fcitx5-wetype/src/wetype.cpp:526-563 | in every state of every run the panel shows the window that windowStart_ and selected_ speak of, and with pinyin left its preedit is the pinyin, or everything held while a Space waits |
| Paging.RefreshedPanel | fcitx5-wetype/src/wetype.cpp:943 | before a key acts the panel shows a full page of the present size, index for index |
| Paging.DigitSelectsItsLabel | fcitx5-wetype/src/wetype.cpp:1057-1067 | a digit key on current candidates commits exactly the candidate drawn with that label, and a digit that labels nothing commits nothing |
| Paging.ClickSelectsItsItem | fcitx5-wetype/src/wetype.cpp:551-554 | a click commits the candidate drawn there, or nothing while candidates are not current |
| EngineProc.EngineProc.constructor | fcitx5-wetype/src/wetype.cpp:185 | a new EngineProc has no process, no handler and empty books |
| EngineProc.EngineProc.Start | fcitx5-wetype/src/wetype.cpp:205-278 | a fork starts a process that owes no reply and has nothing of its predecessor's left to read; at most five forks without READY, giving up is for good |
| EngineProc.EngineProc.Send | fcitx5-wetype/src/wetype.cpp:317-331 | the handler waits behind all others, or is called with "" exactly once |
| EngineProc.EngineProc.Fail | fcitx5-wetype/src/wetype.cpp:318-329 | the handler is called with "", once, and may call back into start and send |
| EngineProc.EngineProc.RunOps | fcitx5-wetype/src/wetype.cpp:183 | whatever a handler does when called, the books stay sound and the chain of calls ends |
| EngineProc.EngineProc.Die | fcitx5-wetype/src/wetype.cpp:280-314 | every handler waiting at the death gets ""; what waits afterwards was sent since |
| EngineProc.EngineProc.FailPending | fcitx5-wetype/src/wetype.cpp:392-397 | those swapped out fail once each; what waits afterwards was sent meanwhile and is not failed here |
| EngineProc.EngineProc.OnLine | fcitx5-wetype/src/wetype.cpp:358-377 | a nonempty line after READY goes to the first waiting handler and to no other |
| EngineProc.EngineProc.OnReadable | fcitx5-wetype/src/wetype.cpp:341-356 | the loop takes every complete line out of the buffer, also when a handler's restart empties the buffer meanwhile |
| EngineProc.AnswerIsSound | fcitx5-wetype/src/wetype.cpp:371-376 | replies of a process answer its commands in the order they were sent: the k-th nonempty line after READY goes to the handler of the k-th command |
| EngineProc.ForkIsSound | fcitx5-wetype/src/wetype.cpp:264-268 | no line of a dead process reaches a handler of its successor |
| EngineProc.DeathIsSound | fcitx5-wetype/src/wetype.cpp:280-314 | at a death every waiting handler becomes due a call |
| EngineProc.FailIsSound | fcitx5-wetype/src/wetype.cpp:393-396 | a failed handler is struck off the calls that are due |
| EngineProc.SeeIsSound | fcitx5-wetype/src/wetype.cpp:361-377 | READY, noise before it and lines nobody waits for change no pairing |
| EngineProc.ReadIsSound | fcitx5-wetype/src/wetype.cpp:349 | bytes appended to the buffer are the lines still to come |
| EngineProc.TakeIsSound | fcitx5-wetype/src/wetype.cpp:350-354 | taking the first line off the buffer keeps the framing of the whole stream |
| EngineProc.ExactlyOnce | fcitx5-wetype/src/wetype.cpp:316-331 | every command ever submitted has had exactly one handler call or is waiting, never both, never twice |
| EngineProc.RepliesSnoc | fcitx5-wetype/src/wetype.cpp:358-377 | which lines count as replies, one more line at a time |
| LineReader.CommandReader.ReadSome | harness/jinterop.c:1083-1087 | a read takes a nonempty piece of the stream, at most the room left, and loses nothing |
| LineReader.CommandReader.Fill | harness/jinterop.c:1077-1088 | reading, waiting or dropping a full buffer changes nothing about the next line of the stream |
| LineReader.CommandReader.Read | harness/jinterop.c:1091-1104 | cmd_read gives the next line of the stream, cut to the caller's buffer, for every way of cutting the stream into reads, and never waits while a line is buffered |
| LineReader.CommandReader.NextIsBatch | harness/jinterop.c:1107-1111 | a peek consumes nothing, and says batch exactly when a B line is buffered whole |
| LineReader.CommandReader.ReadAll | harness/jinterop.c:1077-1111 | with peeks anywhere in between, the lines read are exactly the lines of the stream in order |
| LineReader.LinesAreTrimmed | harness/jinterop.c:1077-1104 | for every stream the lines read are those between its newlines, each without its whole 8192-byte blocks from the front |
| LineReader.LinesAreExact | harness/jinterop.c:1082 | they are exactly the lines of the stream if and only if every line is at most 8191 bytes |
| LineReader.FirstLineIsTrimmed | harness/jinterop.c:1077-1104 | the first line, however long, and none in a stream without newline |
| LineReader.SplitAppends | fcitx5-wetype/src/wetype.cpp:349-355 | lines of a stream read in two pieces are the lines of the whole |
| LineReader.LineBuffer.OnReadable | fcitx5-wetype/src/wetype.cpp:349-355 | the addon's buffer yields the complete lines and keeps the rest |
| LineReader.LineBuffer.ReadChunks | fcitx5-wetype/src/wetype.cpp:341-356 | any chunks give the lines of the whole stream, without a length limit |
| Daemon.FeedAllSent | harness/jinterop.c:1226-1233 | after any keys the daemon knows all letters exactly when they fit 255 |
| Daemon.MergeKeepsAll | harness/jinterop.c:1208-1217 | queued payloads of at most 64 bytes are never cut by the 512-byte buffer |
| Daemon.MergeKeepsAllOrFills | harness/jinterop.c:1208-1217 | whatever the payloads, the merge holds all letters or a full buffer of them |
| Daemon.MergeIsWhole | harness/jinterop.c:1208-1217 | for every batch and queue: the merge holds all letters if and only if they are at most 511, and otherwise their first 511 |
| Daemon.CoalescingRefines | harness/jinterop.c:1204-1247 | a merged run gives the engine the same keys, ends with the same letters, and says SKIP for all but the last batch and for that what one-at-a-time processing says |
| Daemon.OneReplyEach | harness/jinterop.c:1174-1296 | every command but Q and a blank line has one nonempty reply, a merged run one for each of its batches |
| Daemon.FeedAllPresses | harness/jinterop.c:1226-1232 | any keys are pressed at the engine one by one, in order, none else |
| Daemon.CallsOf | harness/jinterop.c:1225-1294 | what each command asks of the engine: the keys of a batch, the first key of an L, the chosen candidate with its text, id and cover, a new session at C, and nothing else |
| Daemon.AnswersOf | harness/jinterop.c:1183-1294 | what each command answers and leaves: keys, and a selection that keeps composing, the candidates then cached or EMPTY; a selection ERR if and only if its rank has no cached id; C a session with nothing sent and nothing cached |
| Daemon.HandleIsTruthful | harness/jinterop.c:1225-1294 | each command keeps the known letters equal to what folding the calls (keys append, a new session empties, a learned prefix drops its cover) says the engine holds |
| DaemonLoop.DaemonLoop.Reply | harness/jinterop.c:1056-1069 | candidates are cached and printed, or EMPTY says there are none |
| DaemonLoop.DaemonLoop.Press | harness/jinterop.c:1226-1232 | the engine is given that key, down and up, behind its earlier calls, and it joins the known letters while they fit |
| DaemonLoop.DaemonLoop.PressAll | harness/jinterop.c:1226-1233 | the key loop feeds a batch whole and an L command's first key |
| DaemonLoop.DaemonLoop.Gather | harness/jinterop.c:1211-1218 | the loop takes leading batches in order, reads nothing else, and stops only when no whole batch is buffered or the key buffer has no room for one more |
| DaemonLoop.DaemonLoop.Keys | harness/jinterop.c:1204-1247 | a B or L command with the batches merged into it |
| DaemonLoop.DaemonLoop.Select | harness/jinterop.c:1250-1277 | a rank without cached id is ERR; a covered proper prefix leaves the rest composing; anything else forgets the letters |
| DaemonLoop.DaemonLoop.DropSent | harness/jinterop.c:1268-1269 | the memmove leaves exactly the letters behind the prefix |
| DaemonLoop.DaemonLoop.Clear | harness/jinterop.c:1278-1294 | a new session: nothing sent, nothing cached |
| DaemonLoop.DaemonLoop.Handle | harness/jinterop.c:1168-1296 | the string tests in their order, each command answered as specified |
| DaemonLoop.DaemonLoop.Run | harness/jinterop.c:1166-1307 | for every way of cutting the stream into reads and every outcome of the polls the loop says READY, answers the lines of the stream in order up to Q or its end, and says BYE; the letters it takes as known are at the end those the engine was given and holds |
| DaemonLoop.MergingRefines | harness/jinterop.c:1204-1247 | every run with payloads of at most 64 letters equals a run without merging: same engine calls, same final state, same replies but EMPTY in place of SKIP |
| DaemonLoop.OneReplyPerLine | harness/jinterop.c:1167-1297 | in every run, whatever was merged, each line before Q that is not blank gets exactly one reply |
| DaemonLoop.RunIsTruthful | harness/jinterop.c:1166-1297 | over every run, merging included, the letters the loop takes as known are those the engine holds |
| DaemonLoop.MergedKeys | harness/jinterop.c:1208-1217 | the key buffer after a merge is the concatenation of the payloads |
| DaemonLoop.MergedPass | harness/jinterop.c:1204-1247 | a merged pass does what its batches do one by one while the engine shows nothing in between |
| Fetch.Cap | harness/jinterop.c:885-892 | the cap is the number wanted when that is between 10 and 72, else the nearer bound |
| Fetch.CopyTells | harness/jinterop.c:904-925 | a cache entry has the candidate's own cover, the first 255 bytes of its text, and its whole id if and only if that is not empty, at most a megabyte and there was room for it |
| Fetch.AskBatches | harness/jinterop.c:896-903 | batches are asked for until one is short or missing, at most cap/10 |
| Fetch.CopyIn | harness/jinterop.c:904-925 | the nested loops cache the candidates with text, in order, up to the cap, with id bytes and cover copied |
| Fetch.HandedOutTwice | harness/jinterop.c:928-940 | the scan says dup exactly when some array or candidate address came twice; with batches of ten its table holds all of them |
| Fetch.PointersFit | harness/jinterop.c:929 | seven batches of ten have at most 77 addresses, within the 79 of the table |
| Fetch.NotYetReleased | harness/jinterop.c:941-951 | without repeats no candidate or array is released before it is read |
| Fetch.ReleaseAll | harness/jinterop.c:941-951 | each id, candidate and array is released in order, each read before its release |
| Fetch.FetchCands | harness/jinterop.c:884-961 | the cache holds the visible candidates of the batches in order, cut at the cap; objects are released exactly when no address came twice |
| JointRuns.EveryPairIsGood | fcitx5-wetype/src/wetype.cpp:316-1115 | in every state of every interleaving of addon turns, daemon commands and pipes: replies and handlers pair up, both ends use the same mode, a selection is under way only as the next command for a candidate the cache still holds, and the session behind the pipe mirrors the pinyin; in a run whose cached candidates have ids and whose pinyin is at most 255 letters no selection is lost |
| JointRuns.StepIsGood | fcitx5-wetype/src/wetype.cpp:316-1115 | each joint step keeps that |
| JointRuns.ServeKeeps | harness/jinterop.c:1166-1296 | each daemon command keeps it, a merged run of batches included |
| JointRuns.ServesAsForeseen | harness/jinterop.c:1225-1293 | what a command does to the session is what was foreseen while it was in the pipe |
| JointRuns.ProcessKeyKeeps | fcitx5-wetype/src/wetype.cpp:873-1115 | each key keeps it |
| JointRuns.OnReplyKeeps | fcitx5-wetype/src/wetype.cpp:670-747 | each reply read keeps it, recovery replay included |
| JointRuns.CommitCandidateKeeps | fcitx5-wetype/src/wetype.cpp:613-637 | each selection keeps it: the cache still holds the committed text at that index when S is written |
| JointTheorems.SelectionAgreement | harness/jinterop.c:1250-1277 | whenever the daemon acts on S i its cache holds at i the text the addon committed; that text, under its id, is what the engine learns; and when along the run cached candidates had ids and the pinyin at most 255 letters, nothing is lost and the daemon keeps composing exactly when the candidate covered a proper prefix, for Space, click, digit and symbol alike |
| JointTheorems.PurposeIsRecorded | fcitx5-wetype/src/wetype.cpp:1036-1047 | that is the addon's own branch for a selection; behind a symbol the addon ends the composition either way, and C follows at once |
| JointTheorems.LostExactlyWhen | harness/jinterop.c:1253-1268 | a click is lost at the daemon if and only if its candidate covers a proper prefix and came without an id or the pinyin had more than 255 letters |
| JointTheorems.MirrorKeptExactly | harness/jinterop.c:1253-1277 | after a click with nothing lost before it the daemon's session, behind the pipe, is the pinyin on screen, except if and only if the candidate covers a proper prefix and has no id, or was chosen for more than 255 letters of which at most 255 are left |
| JointTheorems.SessionMirror | fcitx5-wetype/src/wetype.cpp:966-986 | folding the commands still in the pipe over the daemon's letters gives the addon's pinyin, known exactly while at most 255 letters, unless a selection was lost since the last C; and none is lost while cached candidates have ids and the pinyin is at most 255 letters |
| JointTheorems.ServedSessionMirror | harness/jinterop.c:1225-1233 | with the pipe empty the daemon itself holds the pinyin |
| JointLoop.EngineHoldsPinyin | harness/jinterop.c:1225-1294 | and over every joint run the engine holds exactly what the daemon knows: with the pipe empty, nothing lost and at most 255 letters, the pinyin on screen |
| JointTheorems.LearnedWordsAreCommitted | fcitx5-wetype/src/wetype.cpp:613-637 | selectable candidates are the daemon's cache index for index with nothing under way, and the words selected at the daemon are the candidates committed at the addon, one for one in order |
| JointLoop.EveryRunIsALoopRun | harness/jinterop.c:1166-1297 | in every state of every joint run the commands served are a run of the daemon's loop over the lines the addon wrote, in its order: same state, and what the addon reads is READY and then what the loop says |
| JointLoop.LoopReadsTheRun | harness/jinterop.c:1077-1104 | and of the loop that reads their bytes, for commands of at most 8191 bytes |
| LostSelections.LostSelectionBreaksMirror | fcitx5-wetype/src/wetype.cpp:700-711 | six steps from a prefix candidate without id to a state where all is answered, candidates are current, and the daemon's letters are not the addon's pinyin: the mirror's condition is needed |
| LostSelections.RunToPrefix | harness/jinterop.c:1174-1247 | a run from the start to such a candidate: two letters, and whatever candidates the engine shows with one that covers one letter and has no id |
| LostSelections.RunBreaksMirror | fcitx5-wetype/src/wetype.cpp:700-711 | a whole run from the start that ends out of step with everything answered |
| Iterators.CandidateHub.AddMatch | harness/jinterop.c:472-481 | the input known is the first 255 letters of all match strings so far, whatever stands between them |
| Iterators.AccumulatedIsPrefix | harness/jinterop.c:472-481 | what one match string adds: its letters, in order, while they fit 255 |
| Iterators.CandidateHub.SetNewIterator | harness/jinterop.c:508-521 | a new iterator is bound to the last complete input; one still in the slot is lost |
| Iterators.CandidateHub.DropOldest | harness/jinterop.c:318-321 | the memmove drops exactly the oldest event |
| Iterators.CandidateHub.OnBatchEvent | harness/jinterop.c:310-334 | the pending iterator joins the queue; a full queue loses exactly its oldest |
| Iterators.CandidateHub.Interfere | harness/jinterop.c:310-334 | any steps of the engine thread keep the balance of iterators; orderly steps lose none |
| Iterators.CandidateHub.Delete | harness/jinterop.c:963-965 | only an iterator held by the daemon, live and not yet returned, is deleted |
| Iterators.CandidateHub.DropEvents | harness/jinterop.c:968-977 | everything queued is returned, in order, once |
| Iterators.CandidateHub.Absorb | harness/jinterop.c:1008-1020 | the newest event wins and every older one is returned, once, in order |
| Iterators.CandidateHub.WaitCand | harness/jinterop.c:990-1039 | the newest event taken is returned, exact iff it is known and equals expected, all older ones given back; a non-exact answer comes only with the queue found empty and time up, or when quiet_ms have passed since the last events were dealt with and none has come since they were taken, after a known mismatch or with unknown input |
| Iterators.CandidateHub.Keep | harness/jinterop.c:956-960 | the fetched iterator becomes current and the old current one is returned |
| Iterators.CandidateHub.ReturnCurrent | harness/jinterop.c:1284-1298 | the current iterator is returned at C and Q |
| Iterators.CandidateHub.Serve | harness/jinterop.c:1204-1294 | each command first returns what was queued; of what a search takes the newest becomes current and the others, and the one replaced, are returned, each once and in order; C returns the current one; the daemon then holds no other, whatever the engine thread does meanwhile |
| Iterators.CandidateHub.RunDaemon | harness/jinterop.c:1166-1298 | over the daemon's whole life, under every interleaving, each captured iterator was returned exactly once, or lost from slot or queue, or is still in slot or queue; nothing is lost while the engine thread is orderly |
| Iterators.OnePlaceEach | harness/jinterop.c:289-298 | an iterator is in at most one of slot, queue, a waiting daemon's hands, current, lost; and returned as often as captured, or once less while out |
| Iterators.ClosedBooks | docs/engine-iterator-leak.md:1-16 | nothing is returned more often than it was captured |
| Iterators.OrderlyWeakens | harness/jinterop.c:318-326 | fewer iterators waiting keep an orderly future orderly |
| Registry.Table.Find | harness/jinterop.c:80-83 | the first entry with the pointer, or none |
| Registry.Table.Add | harness/jinterop.c:66-79 | an entry is appended, the array doubling when full; without memory the object is left unregistered |
| Registry.Table.PinBy | harness/jinterop.c:85-96 | the pin count changes by delta, not below zero |
| Registry.Table.Free | harness/jinterop.c:97-111 | an object is freed once and the note of the newest byte array cleared if it was that |
| Registry.Table.ReleaseOne | harness/jinterop.c:113-124 | an unpinned object leaves by swapping in the last entry; a pinned one stays |
| Registry.Table.Compact | harness/jinterop.c:132-142 | the in-place compaction keeps the entries that stay in order and collects the others without overflowing their array |
| Registry.Table.SweepAll | harness/jinterop.c:127-152 | a sweep is the specified step on the table |
| Registry.StepIsSound | harness/jinterop.c:66-154 | each operation keeps pointers distinct, pins nonnegative, the prefix in place, and every registered object in exactly one of table, freed, missed; the newest byte array is never one that was freed |
| Registry.EveryHistoryIsSound | harness/jinterop.c:66-154 | over every history so does the whole run: no object is freed more often than registered, nor while in the table; the startup prefix stays |
| Registry.StartupIsKept | harness/jinterop.c:1120-1122 | what is registered when the daemon starts stays in place for its whole life, over every admissible history before and after |
| Registry.PinnedStays | harness/jinterop.c:85-96 | an object pinned is in the table with exactly the pins it is owed and is not freed, through any admissible history whose unpins leave it one |
| Registry.SweepIsExact | harness/jinterop.c:135-142 | an entry is in the table after a sweep if and only if it is of the startup prefix, pinned, or younger than grace; each other one was freed, once; the order of the rest is kept |
| Registry.RegisterStamps | harness/jinterop.c:66-79 | a registered object is in the table with the time of its registration and no pin, unless memory ran out |
| Registry.YoungStays | harness/jinterop.c:127-142 | over any admissible history without a release of it and without a sweep grace or more after its registration, an object is in the table and not freed |
| Registry.GraceHolds | harness/jinterop.c:127-142 | so an object registered at some time is freed by no sweep before that time plus grace |
| Registry.SweepParts | harness/jinterop.c:136-140 | kept and freed entries together are the entries swept |
| Registry.SwapRemoved | harness/jinterop.c:119 | filling the hole with the last entry loses exactly the entry removed |
| Registry.StartupObjectsMustNotBeReleased | harness/jinterop.c:113-142 | release then sweep keeps table and prefix right if and only if the object released is not an unpinned one of the startup prefix; otherwise the prefix changes or a freed entry is back in the table |
| MallocTrace.BinOf | harness/malloc_trace.c:45-49 | the loop gives the first bin that holds the size, the last one holding the rest |
| MallocTrace.OneSlotEach | harness/malloc_trace.c:53-66 | a call site sits in one slot |
| MallocTrace.FullIsForGood | harness/malloc_trace.c:53-66 | a site that found no slot never gets one: tracked from its first allocation or never |
| MallocTrace.ClaimIsNew | harness/malloc_trace.c:58-63 | a slot can be claimed only for a site that is neither tracked nor without place |
| MallocTrace.ClaimIsExact | harness/malloc_trace.c:58-63 | a claim by any thread keeps every count exact |
| MallocTrace.Tracer.Find | harness/malloc_trace.c:53-66 | with other threads claiming between any two steps, the search finds a tracked site, claims for a new one the first empty slot it comes to, and fails only when all 16 are others' |
| MallocTrace.Tracer.Interfere | harness/malloc_trace.c:60-63 | the claims other threads can make keep the table's order |
| MallocTrace.Tracer.CountNew | harness/malloc_trace.c:143-151 | all totals and the bin follow the block that came, and the site's counters too until a block of call site 0 is put in an empty slot |
| MallocTrace.Tracer.CountDel | harness/malloc_trace.c:152-160 | and the block that goes, by the site recorded at its allocation |
| MallocTrace.Tracer.Malloc | harness/malloc_trace.c:203-213 | an allocation adds one block to the books, a failed one none |
| MallocTrace.Tracer.Memalign | harness/malloc_trace.c:214-225 | the block is aligned, lies in what the allocator gave, right behind its header for small alignments, with the allocator's own pointer in that header |
| MallocTrace.Tracer.Realloc | harness/malloc_trace.c:233-247 | the caller gets the address behind the new header, 0 when the allocator failed, and the allocator's answer for a foreign pointer; a block of ours keeps its site; a failed realloc changes nothing |
| MallocTrace.Tracer.Free | harness/malloc_trace.c:248-259 | the block leaves the books and the allocator gets back exactly the pointer it gave |
| MallocTrace.Tracer.Dump | harness/malloc_trace.c:70-101 | the list printed has the eight sites with most live bytes, largest first, and no site left out has more |
| MallocTrace.AddIsExact | harness/malloc_trace.c:143-150 | site counters stay the sums over live blocks (modulo 2^64) when a block comes |
| MallocTrace.DelIsExact | harness/malloc_trace.c:152-160 | and when one goes |
| MallocTrace.AddTotals | harness/malloc_trace.c:143-147 | bytes, objects and every bin stay the sums over live blocks when a block comes |
| MallocTrace.DelTotals | harness/malloc_trace.c:152-156 | and when one goes |
| MallocTrace.DelReturned | harness/malloc_trace.c:256-258 | each pointer from the allocator is held by one live block or has gone back, once |
| MallocTrace.CountersDoNotUnderflow | harness/malloc_trace.c:152-160 | while the true sum fits a word the counter is that sum and never underflows |
| MallocTrace.InsertIsBest | harness/malloc_trace.c:82-91 | inserting before the first smaller rank keeps the eight largest in order |
| MallocTrace.SiteZeroNeedsAFullTable | harness/malloc_trace.c:53-64 | a block of call site 0 keeps the site sums exact if and only if its search found no slot: any empty slot is taken for its own and left unclaimed |
| MallocTrace.SiteZeroSharesASlot | harness/malloc_trace.c:53-64 | a real site that then claims that slot has the other block's bytes in its count |

## Left out

- WeTypeEngine.WeTypeEngine.PunctKey: which symbol a key gives (the table, quote parity, the digit before the cursor, field capabilities) is an input of the key event, because it is a finite table and does not touch the composition.
- WeTypeEngine.WeTypeEngine.UpdateUI: styled preedit, glossary annotations and the panel's layout are not drawn; the panel is the preedit text, the visible candidates and the cursor.
- WeTypeEngine.WeTypeEngine.Send: the process is seen as fields of the addon there; the real reply pairing is `EngineProc`. A partial write counts as a whole one, as in the source.
- EngineProc.EngineProc.OnLine: when more replies come than commands were sent, a surplus line is dropped and pairing from then on is not claimed; `JointRuns` shows the daemon never sends one.
- EngineProc.EngineProc.Die: waiting for the child, SIGKILL and the 90-second watchdog are one event.
- JointTheorems.SelectionAgreement: for the life of one engine process; across a restart the code does not resynchronise replies with the old cache.
- JointTheorems.SessionMirror: claims nothing between a lost selection and the next C, where it is false (`LostSelections.RunBreaksMirror`).
- DaemonLoop.DaemonLoop.Handle: X and PING are answered without calling the engine; a session id of 0 is not modelled, create_session is taken to succeed.
- DaemonLoop.DaemonLoop.Keys: garbage-collecting the engine's own sessions and the sweep at each command are not repeated there; the sweep is `Registry`.
- DaemonLoop.MergingRefines: for payloads of at most 64 letters; longer ones are cut when they do not fit (`Daemon.MergeIsWhole`).
- JointLoop.LoopReadsTheRun: for batches of at most 8189 letters; a longer one is taken as cut to 511 bytes in the joint runs, where the reader drops its whole 8192-byte blocks.
- Iterators.CandidateHub.RunDaemon: the engine is taken never to hand out an iterator still out.
- Fetch.HandedOutTwice: for batches of at most ten, which is what the daemon asks for.
- Registry.Table.Add: the engine's allocator is taken not to return an object still registered or missed; counts of pins and of entries pinned, kept for logs only, are not modelled.
- MallocTrace.Tracer.Malloc: the site counters are claimed only until a block of call site 0 is counted in an empty slot, from where they are wrong; the bootstrap arena, whose blocks are never freed, is not part of the books.
- MallocTrace.Tracer.Realloc: contents of over-aligned blocks after realloc are not modelled.
- MallocTrace.Tracer.Find: other threads claim slots at any moment, but the counters of one block are added without interruption.
- Text is a sequence of characters: UTF-8 and the byte lengths of candidates are not modelled, and candidate text is taken to hold no tab or newline.
- The order in which the shared string pointers of fake-JNI objects are freed: candidate text is a value copied at fetch.
- `segmentPinyin`, log rotation, glossary parsing, session configuration and the one-shot debug modes: display, input/output or finite tables.
- The large-block ring and frame-pointer backtraces of the tracer: diagnostics.
