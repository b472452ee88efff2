/**
 * run_daemon as a loop over the command reader: whatever way the stream is cut into reads and
 * the polls fall, it answers the lines in order, some batches merged, and any such run is one
 * in which no batch was merged.
 */
module DaemonLoop {
  import opened Basics
  import opened Codec
  import opened Wire
  import LineReader
  import D = Daemon

  // ---------------------------------------------------------------- runs over lines

  /** One pass of the loop: batches merged into this one, and what the engine then shows. */
  datatype Turn = Turn(taken: nat, found: Option<seq<D.Cand>>)

  /** What follows "B ". */
  function LinePayload(line: string): string { if |line| < 2 then "" else line[2..] }

  function LinePayloads(lines: seq<string>): (ps: seq<string>)
    ensures |ps| == |lines|
  {
    seq(|lines|, k requires 0 <= k < |lines| => LinePayload(lines[k]))
  }

  /** The loop merges only batches, and only while its key buffer has room. */
  predicate MayTake(lines: seq<string>, taken: nat) {
    && taken < |lines|
    && (taken > 0 ==>
          && Dispatch(lines[0]).Keys? && Dispatch(lines[0]).batch
          && (forall k :: 1 <= k <= taken ==> StartsWith(lines[k], "B "))
          && D.Merge(Dispatch(lines[0]).keys, LinePayloads(lines[1..taken + 1])).taken == taken)
  }

  function OrderOf(lines: seq<string>, taken: nat): Order
    requires MayTake(lines, taken)
  {
    if taken == 0 then Dispatch(lines[0])
    else Keys(true, D.Merge(Dispatch(lines[0]).keys, LinePayloads(lines[1..taken + 1])).keys)
  }

  /** A run up to Q or the end of the stream. */
  ghost predicate IsRun(lines: seq<string>, turns: seq<Turn>)
    decreases |lines|
  {
    if lines == [] || Dispatch(lines[0]).Quit? then turns == []
    else turns != [] && MayTake(lines, turns[0].taken) && IsRun(lines[turns[0].taken + 1..], turns[1..])
  }

  function RunOver(d: D.State, lines: seq<string>, turns: seq<Turn>): D.Answer
    requires IsRun(lines, turns)
    decreases |lines|
  {
    if turns == [] then D.Answer(d, [])
    else
      var a := D.Handle(d, OrderOf(lines, turns[0].taken), turns[0].taken, turns[0].found);
      var rest := RunOver(a.d, lines[turns[0].taken + 1..], turns[1..]);
      D.Answer(rest.d, a.replies + rest.replies)
  }

  /** The same run without merging: the engine is given no time to show the intermediate batches. */
  function Unmerged(turns: seq<Turn>): seq<Turn> {
    if turns == [] then []
    else QuietTurns(turns[0].taken) + ([Turn(0, turns[0].found)] + Unmerged(turns[1..]))
  }

  function QuietTurns(n: nat): seq<Turn> { seq(n, _ => Turn(0, None)) }

  /** SKIP and EMPTY both show no candidates. */
  function Plain(reply: string): string { if reply == "SKIP" then "EMPTY" else reply }

  function AllPlain(replies: seq<string>): seq<string> {
    seq(|replies|, k requires 0 <= k < |replies| => Plain(replies[k]))
  }

  /** Batches of at most 64 letters, as one key press sends. */
  predicate SmallBatches(lines: seq<string>) {
    forall k :: 0 <= k < |lines| && StartsWith(lines[k], "B ") ==> IsSmall(lines[k])
  }

  predicate IsSmall(line: string) {
    StartsWith(line, "B ") && 0 < |LinePayload(line)| <= 64 && Dispatch(line) == Keys(true, LinePayload(line))
  }

  function Empties(n: nat): seq<string> { seq(n, _ => "EMPTY") }

  /** Over every run the letters the loop takes as known are those the engine holds. */
  lemma {:induction false} RunIsTruthful(d: D.State, lines: seq<string>, turns: seq<Turn>)
    requires IsRun(lines, turns) && D.Truthful(d)
    ensures D.Truthful(RunOver(d, lines, turns).d)
    decreases |lines|
  {
    hide D.Truthful, D.Handle, Dispatch, OrderOf;
    if turns != [] {
      var t := turns[0];
      D.HandleIsTruthful(d, OrderOf(lines, t.taken), t.taken, t.found);
      RunIsTruthful(D.Handle(d, OrderOf(lines, t.taken), t.taken, t.found).d, lines[t.taken + 1..], turns[1..]);
    }
  }

  lemma RunStep(d: D.State, lines: seq<string>, t: Turn, turns: seq<Turn>)
    requires lines != [] && !Dispatch(lines[0]).Quit? && MayTake(lines, t.taken) && IsRun(lines[t.taken + 1..], turns)
    ensures IsRun(lines, [t] + turns)
    ensures var a := D.Handle(d, OrderOf(lines, t.taken), t.taken, t.found);
            var rest := RunOver(a.d, lines[t.taken + 1..], turns);
            RunOver(d, lines, [t] + turns) == D.Answer(rest.d, a.replies + rest.replies)
  {
    hide Dispatch, MayTake, OrderOf, D.Handle;
    assert ([t] + turns)[1..] == turns;
  }

  /** Small batches with no candidates in between: the keys go in, and each is answered EMPTY. */
  lemma {:induction false} QuietRun(d: D.State, lines: seq<string>, n: nat, turns: seq<Turn>)
    requires n <= |lines| && IsRun(lines[n..], turns) && forall k :: 0 <= k < n ==> IsSmall(lines[k])
    ensures IsRun(lines, QuietTurns(n) + turns)
    ensures var rest := RunOver(D.FeedAll(d, D.Flat(LinePayloads(lines[..n]))), lines[n..], turns);
            RunOver(d, lines, QuietTurns(n) + turns) == D.Answer(rest.d, Empties(n) + rest.replies)
    decreases n
  {
    if n == 0 {
      NoQuietTurns(turns);
      assert lines[0..] == lines && LinePayloads(lines[..0]) == [];
    } else {
      hide Dispatch, MayTake, OrderOf, D.Handle, IsRun, RunOver, LinePayloads, LinePayload, D.FeedAll, D.Flat, Empties, QuietTurns;
      QuietShape(lines, n, turns);
      QuietRun(D.FeedAll(d, LinePayload(lines[0])), lines[1..], n - 1, turns);
      NotQuit(lines);
      QuietPass(d, lines[0]);
      RunStep(d, lines, Turn(0, None), QuietTurns(n - 1) + turns);
      QuietFeed(d, lines, n);
      OneMoreEmpty(n, RunOver(D.FeedAll(d, D.Flat(LinePayloads(lines[..n]))), lines[n..], turns).replies);
    }
  }

  lemma QuietShape(lines: seq<string>, n: nat, turns: seq<Turn>)
    requires 0 < n <= |lines|
    ensures lines[1..][n - 1..] == lines[n..] && QuietTurns(n) + turns == [Turn(0, None)] + (QuietTurns(n - 1) + turns)
  {
  }

  lemma NoQuietTurns(turns: seq<Turn>)
    ensures QuietTurns(0) + turns == turns && Empties(0) == []
  {
  }

  lemma OneMoreEmpty(n: nat, replies: seq<string>)
    requires n > 0
    ensures ["EMPTY"] + (Empties(n - 1) + replies) == Empties(n) + replies
  {
  }

  lemma QuietPass(d: D.State, line: string)
    requires IsSmall(line)
    ensures D.Handle(d, Dispatch(line), 0, None) == D.Answer(D.FeedAll(d, LinePayload(line)), ["EMPTY"])
  {
    hide Dispatch;
    assert D.Skips(0) + ["EMPTY"] == ["EMPTY"];
  }

  lemma QuietFeed(d: D.State, lines: seq<string>, n: nat)
    requires 0 < n <= |lines|
    ensures D.FeedAll(D.FeedAll(d, LinePayload(lines[0])), D.Flat(LinePayloads(lines[1..][..n - 1]))) == D.FeedAll(d, D.Flat(LinePayloads(lines[..n])))
  {
    assert LinePayloads(lines[..n])[1..] == LinePayloads(lines[1..][..n - 1]);
    D.FeedAllSplits(d, LinePayload(lines[0]), D.Flat(LinePayloads(lines[1..][..n - 1])));
  }

  /** What a merged pass does is what its batches do quietly, one by one. */
  lemma MergedPass(d: D.State, lines: seq<string>, t: Turn)
    requires MayTake(lines, t.taken) && SmallBatches(lines) && t.taken > 0
    ensures forall k :: 0 <= k <= t.taken ==> IsSmall(lines[k])
    ensures var a := D.Handle(d, OrderOf(lines, t.taken), t.taken, t.found);
            var b := D.Handle(D.FeedAll(d, D.Flat(LinePayloads(lines[..t.taken]))), OrderOf(lines[t.taken..], 0), 0, t.found);
            a.d == b.d && a.replies == D.Skips(t.taken) + b.replies
  {
    hide Dispatch, D.Merge, D.FeedAll, D.Flat;
    var n := t.taken;
    BatchIsSmall(lines[0]);
    assert forall k :: 0 <= k <= n ==> IsSmall(lines[k]);
    MergedKeys(lines, n);
    var keys, front, last := OrderOf(lines, n).keys, D.Flat(LinePayloads(lines[..n])), LinePayload(lines[n]);
    assert keys[|keys| - |last|..] == last && keys[..|keys| - |last|] == front;
    QuietReplies(d, keys, last, n, t.found);
  }

  lemma MergedKeys(lines: seq<string>, n: nat)
    requires MayTake(lines, n) && n > 0 && forall k :: 0 <= k <= n ==> IsSmall(lines[k])
    ensures OrderOf(lines, n) == Keys(true, D.Flat(LinePayloads(lines[..n])) + LinePayload(lines[n]))
  {
    hide Dispatch, LinePayload;
    var first, queue := LinePayload(lines[0]), LinePayloads(lines[1..n + 1]);
    forall k | 0 <= k < |queue| ensures |queue[k]| <= 64 {
      assert queue[k] == LinePayload(lines[k + 1]);
    }
    D.MergeKeepsAll(first, queue);
    assert queue[..n] == queue;
    var front := LinePayloads(lines[..n]);
    assert front + [LinePayload(lines[n])] == [first] + queue;
    D.FlatSnoc(front, LinePayload(lines[n]));
    assert ([first] + queue)[1..] == queue;
  }

  lemma QuietReplies(d: D.State, keys: string, last: string, n: nat, found: Option<seq<D.Cand>>)
    requires last != "" && |keys| >= |last| && keys[|keys| - |last|..] == last
    ensures var front := keys[..|keys| - |last|];
            var b := D.Batch(D.FeedAll(d, front), last, 0, found);
            D.Batch(d, keys, n, found) == D.Answer(b.d, D.Skips(n) + b.replies)
  {
    var front := keys[..|keys| - |last|];
    assert keys == front + last;
    D.FeedAllSplits(d, front, last);
    assert D.Skips(0) == [];
  }

  /** Only B and L lines are keys, and only B a batch. */
  lemma BatchIsSmall(line: string)
    requires Dispatch(line).Keys? && Dispatch(line).batch
    ensures StartsWith(line, "B ")
  {
    var l := StripReturns(line);
    StripIsPrefix(line);
    assert l[0] == 'B' && l[..2] == "B ";
    assert line[..2] == l[..2];
  }

  lemma {:induction false} StripIsPrefix(line: string)
    ensures StripReturns(line) <= line
  {
    if line != "" && (line[|line| - 1] == '\r' || line[|line| - 1] == '\n') {
      StripIsPrefix(line[..|line| - 1]);
    }
  }

  /**
   * Over every run with small batches, merging is only a way of not looking at intermediate
   * candidates: the unmerged run ends in the same state, with the same calls to the engine, and
   * gives the same replies but for EMPTY in place of SKIP.
   */
  lemma {:induction false} MergingRefines(d: D.State, lines: seq<string>, turns: seq<Turn>)
    requires IsRun(lines, turns) && SmallBatches(lines)
    ensures IsRun(lines, Unmerged(turns))
    ensures RunOver(d, lines, Unmerged(turns)).d == RunOver(d, lines, turns).d
    ensures AllPlain(RunOver(d, lines, Unmerged(turns)).replies) == AllPlain(RunOver(d, lines, turns).replies)
    decreases |lines|
  {
    if turns != [] {
      hide Dispatch, D.Handle, AllPlain, LinePayloads, D.FeedAll, D.Flat, OrderOf, MayTake;
      var t, n := turns[0], turns[0].taken;
      var a := D.Handle(d, OrderOf(lines, n), n, t.found);
      var rest := lines[n + 1..];
      MergingRefines(a.d, rest, turns[1..]);
      var tail := [Turn(0, t.found)] + Unmerged(turns[1..]);
      assert lines[n..] != [] && lines[n..][1..] == rest by { TakesSome(lines, n); }
      if n == 0 {
        NoQuietTurns(tail);
        RunStep(d, lines, Turn(0, t.found), Unmerged(turns[1..]));
        PlainJoins(a.replies, RunOver(a.d, rest, turns[1..]).replies);
        PlainJoins(a.replies, RunOver(a.d, rest, Unmerged(turns[1..])).replies);
      } else {
        MergedPass(d, lines, t);
        NotQuit(lines[n..]);
        RunStep(D.FeedAll(d, D.Flat(LinePayloads(lines[..n]))), lines[n..], Turn(0, t.found), Unmerged(turns[1..]));
        QuietRun(d, lines, n, tail);
        var b := D.Handle(D.FeedAll(d, D.Flat(LinePayloads(lines[..n]))), OrderOf(lines[n..], 0), 0, t.found);
        SkipsArePlain(n, b.replies, RunOver(a.d, rest, turns[1..]).replies, RunOver(a.d, rest, Unmerged(turns[1..])).replies);
      }
    }
  }

  lemma TakesSome(lines: seq<string>, n: nat)
    requires MayTake(lines, n)
    ensures n < |lines|
  {
  }

  lemma NotQuit(lines: seq<string>)
    requires lines != [] && IsSmall(lines[0])
    ensures !Dispatch(lines[0]).Quit? && MayTake(lines, 0) && OrderOf(lines, 0) == Dispatch(lines[0])
  {
  }

  lemma PlainJoins(a: seq<string>, b: seq<string>)
    ensures AllPlain(a + b) == AllPlain(a) + AllPlain(b)
  {
  }

  lemma SkipsArePlain(n: nat, b: seq<string>, merged: seq<string>, single: seq<string>)
    requires AllPlain(merged) == AllPlain(single)
    ensures AllPlain(D.Skips(n) + b + merged) == AllPlain(Empties(n) + (b + single))
  {
    PlainJoins(D.Skips(n) + b, merged);
    PlainJoins(D.Skips(n), b);
    PlainJoins(Empties(n), b + single);
    PlainJoins(b, single);
    assert AllPlain(D.Skips(n)) == AllPlain(Empties(n));
  }

  /** The lines before Q that want an answer: all but the blank ones. */
  function Answerable(lines: seq<string>): nat {
    if lines == [] || Dispatch(lines[0]).Quit? then 0
    else (if Dispatch(lines[0]).Ignored? then 0 else 1) + Answerable(lines[1..])
  }

  /** In every run, whatever was merged, each line that wants an answer gets one, in order. */
  lemma {:induction false} OneReplyPerLine(d: D.State, lines: seq<string>, turns: seq<Turn>)
    requires IsRun(lines, turns)
    ensures |RunOver(d, lines, turns).replies| == Answerable(lines)
    decreases |lines|
  {
    if turns == [] {
      assert Answerable(lines) == 0;
    } else {
      hide Dispatch, D.Handle, D.Merge, LinePayloads, Answerable;
      var t := turns[0];
      var a := D.Handle(d, OrderOf(lines, t.taken), t.taken, t.found);
      OneReplyPerLine(a.d, lines[t.taken + 1..], turns[1..]);
      if Dispatch(lines[0]).Ignored? {
        IgnoredCountsNothing(lines);
        IgnoredSaysNothing(d, t.found);
      } else {
        D.OneReplyEach(d, OrderOf(lines, t.taken), t.taken, t.found);
        AnswerableBatches(lines, t.taken);
      }
    }
  }

  lemma IgnoredCountsNothing(lines: seq<string>)
    requires lines != [] && Dispatch(lines[0]).Ignored?
    ensures Answerable(lines) == Answerable(lines[1..])
  {
    hide Dispatch;
  }

  lemma IgnoredSaysNothing(d: D.State, found: Option<seq<D.Cand>>)
    ensures D.Handle(d, Ignored, 0, found).replies == []
  {
  }

  lemma {:induction false} AnswerableBatches(lines: seq<string>, n: nat)
    requires n < |lines| && !Dispatch(lines[0]).Ignored? && !Dispatch(lines[0]).Quit?
    requires forall k :: 1 <= k <= n ==> StartsWith(lines[k], "B ")
    ensures Answerable(lines) == n + 1 + Answerable(lines[n + 1..])
  {
    hide Dispatch;
    if n > 0 {
      BatchIsAnswered(lines[1]);
      AnswerableBatches(lines[1..], n - 1);
      assert lines[1..][n..] == lines[n + 1..];
    }
  }

  lemma BatchIsAnswered(line: string)
    requires StartsWith(line, "B ")
    ensures Dispatch(line).Keys?
  {
    StripKeeps(line);
    var l := StripReturns(line);
    assert l[0] == 'B' && l[1] == ' ' && l[..2] == "B ";
  }

  lemma {:induction false} StripKeeps(line: string)
    requires |line| >= 2 && line[1] != '\r' && line[1] != '\n'
    ensures |StripReturns(line)| >= 2 && StripReturns(line)[..2] == line[..2]
  {
    if line[|line| - 1] == '\r' || line[|line| - 1] == '\n' {
      StripKeeps(line[..|line| - 1]);
    }
  }

  // ---------------------------------------------------------------- the loop

  /** The commands of a stream as the 512-byte line buffer holds them. */
  ghost function Commands(u: string): seq<string> {
    CutAll(LineReader.AllLines(u))
  }

  function CutAll(lines: seq<string>): (cs: seq<string>)
    ensures |cs| == |lines|
  {
    seq(|lines|, k requires 0 <= k < |lines| => Cut(lines[k]))
  }

  lemma CommandsUnroll(u: string)
    ensures match LineReader.NextLine(u)
            case NoLine => Commands(u) == []
            case Line(text, rest) => Commands(u) == [Cut(text)] + Commands(rest)
  {
    LineReader.NextLineShrinks(u);
  }

  /** The batches gathered so far, and the key buffer. */
  ghost predicate Gathered(first: string, lines: seq<string>, n: nat, keys: string) {
    && n <= |lines| && (forall k :: 0 <= k < n ==> StartsWith(lines[k], "B "))
    && D.Merge(first, LinePayloads(lines[..n])) == D.Merged(keys, n)
  }

  lemma NothingGathered(first: string, lines: seq<string>)
    ensures Gathered(first, lines, 0, first)
  {
    assert LinePayloads(lines[..0]) == [];
  }

  lemma {:induction false} MergeSnoc(keys: string, queue: seq<string>, next: string)
    requires var m := D.Merge(keys, queue); m.taken == |queue| && |m.keys| + 64 < D.KEYS_SIZE
    ensures D.Merge(keys, queue + [next]) == D.Merged(D.Joined(D.Merge(keys, queue).keys, next), |queue| + 1)
    decreases |queue|
  {
    if queue == [] {
      assert queue + [next] == [next] && [next][1..] == [];
      assert D.Merge(D.Joined(keys, next), []) == D.Merged(D.Joined(keys, next), 0);
    } else {
      assert (queue + [next])[1..] == queue[1..] + [next] && (queue + [next])[0] == queue[0];
      MergeSnoc(D.Joined(keys, queue[0]), queue[1..], next);
    }
  }

  lemma GatheredMore(first: string, lines: seq<string>, n: nat, keys: string)
    requires Gathered(first, lines, n, keys) && |keys| + 64 < D.KEYS_SIZE && n < |lines| && StartsWith(lines[n], "B ")
    ensures Gathered(first, lines, n + 1, D.Joined(keys, LinePayload(lines[n])))
  {
    assert LinePayloads(lines[..n + 1]) == LinePayloads(lines[..n]) + [LinePayload(lines[n])];
    MergeSnoc(first, LinePayloads(lines[..n]), LinePayload(lines[n]));
  }

  class DaemonLoop {
    const reader: LineReader.CommandReader
    const sent: array<char>
    var sentN: nat
    var known: bool
    var spans: bool
    var cache: seq<D.Cand>                  // g_ct, g_cid, g_ccover
    var shows: seq<Option<seq<D.Cand>>>     // what waits and fetches will bring
    var calls: seq<D.Call>
    var replies: seq<string>

    ghost predicate Valid()
      reads this, reader, reader.buf
    {
      reader.Valid() && sent != reader.buf && sent.Length == D.SENT_SIZE && Fits()
    }

    ghost predicate Fits()
      reads this`sentN
    {
      sentN < D.SENT_SIZE
    }

    ghost function View(): D.State
      reads this, sent
      requires sentN <= sent.Length
    {
      D.State(sent[..sentN], known, spans, cache, calls)
    }

    constructor (src: string, sizes: seq<nat>, polls: seq<bool>, shows: seq<Option<seq<D.Cand>>>)
      ensures Valid() && View() == D.Start() && D.Truthful(View()) && replies == [] && reader.Unread() == src
      ensures fresh(reader) && fresh(reader.buf) && fresh(sent)
    {
      reader := new LineReader.CommandReader(src, sizes, polls);
      sent := new char[D.SENT_SIZE];
      sentN, known, spans, cache, this.shows, calls, replies := 0, true, false, [], shows, [], [];
    }

    /** daemon_wait_cand and daemon_fetch_cands: nothing, or the candidates fetched. */
    method WaitAndFetch() returns (found: Option<seq<D.Cand>>)
      modifies this`shows
      ensures if old(shows) == [] then found == None && shows == [] else [found] + shows == old(shows)
    {
      if shows == [] {
        return None;
      }
      found := shows[0];
      shows := shows[1..];
    }

    /** The candidates are cached and sent, or EMPTY. */
    method Reply(found: Option<seq<D.Cand>>)
      requires Valid()
      modifies this`cache, this`replies
      ensures var a := D.Reply(old(View()), found); View() == a.d && replies == old(replies) + a.replies
    {
      match found {
        case None => replies := replies + ["EMPTY"];
        case Some(cs) =>
          cache := cs;
          replies := replies + [PrintCands(spans, D.Entries(cs))];
      }
    }

    method Skip(n: nat)
      modifies this`replies
      ensures replies == old(replies) + D.Skips(n)
    {
      var i := 0;
      assert D.Skips(0) == [];
      while i < n
        invariant i <= n && replies == old(replies) + D.Skips(i)
      {
        assert D.Skips(i + 1) == D.Skips(i) + ["SKIP"];
        replies := replies + ["SKIP"];
        i := i + 1;
      }
    }

    /** One key goes down and up; it joins the letters known as long as they fit. */
    method Press(key: char)
      requires sent.Length == D.SENT_SIZE && Fits()
      modifies this`sentN, this`known, this`calls, sent
      ensures Fits() && View() == D.Feed(old(View()), key)
      ensures calls == old(calls) + [D.Press(key)] && (known ==> sent[..sentN] == old(sent[..sentN]) + [key])
    {
      calls := calls + [D.Press(key)];
      if known && sentN + 1 < D.SENT_SIZE {
        ghost var was := sent[..sentN];
        sent[sentN] := key;
        sentN := sentN + 1;
        assert sent[..sentN] == was + [key];
      } else {
        known := false;
      }
    }

    /** The keys of a B command, or the first of an L command. */
    method PressAll(keys: string, single: bool)
      requires sent.Length == D.SENT_SIZE && Fits() && keys != ""
      modifies this`sentN, this`known, this`calls, sent
      ensures Fits() && View() == if single then D.Feed(old(View()), keys[0]) else D.FeedAll(old(View()), keys)
    {
      hide D.Feed;
      ghost var was := View();
      var p := 0;
      assert keys[0..] == keys;
      while p < |keys|
        invariant p <= |keys| && Fits() && D.FeedAll(was, keys) == D.FeedAll(View(), keys[p..])
        invariant single ==> p == 0 && View() == was
      {
        assert keys[p..][0] == keys[p] && keys[p..][1..] == keys[p + 1..];
        Press(keys[p]);
        p := p + 1;
        if single {
          return;
        }
      }
      assert keys[p..] == "";
    }

    /**
     * The batches already waiting in the pipe join the key buffer, in order; it stops only with the
     * buffer short of room, or when the line that is there next, if any, is not a batch.
     */
    method Gather(first: string) returns (keys: string, skipped: nat)
      requires Valid() && |first| < D.KEYS_SIZE
      modifies reader, reader.buf
      ensures Valid() && View() == old(View())
      ensures Gathered(first, old(Commands(reader.Unread())), skipped, keys)
      ensures Commands(reader.Unread()) == old(Commands(reader.Unread()))[skipped..]
      ensures |keys| + 64 >= D.KEYS_SIZE || !reader.BatchBuffered()
    {
      hide Gathered, Commands;
      keys, skipped := first, 0;
      ghost var lines := Commands(reader.Unread());
      NothingGathered(first, lines);
      while |keys| + 64 < D.KEYS_SIZE
        invariant Valid() && View() == old(View()) && skipped <= |lines|
        invariant Gathered(first, lines, skipped, keys) && Commands(reader.Unread()) == lines[skipped..]
        decreases |lines| - skipped
      {
        ghost var u := reader.Unread();
        CommandsUnroll(u);
        var batch := reader.NextIsBatch();
        CommandsUnroll(reader.Unread());
        if !batch {
          SameNext(u, reader.Unread());
          return;
        }
        ghost var text := LineReader.NextLine(reader.Unread()).text;
        assert StartsWith(Cut(text), "B ") by { CutStarts(text); }
        SameNext(u, reader.Unread());
        u := reader.Unread();
        var ok, next := reader.Read(D.KEYS_SIZE, false);
        assert ok;
        assert lines[skipped..][0] == next == lines[skipped];
        assert lines[skipped..][1..] == lines[skipped + 1..];
        GatheredMore(first, lines, skipped, keys);
        keys, skipped := D.Joined(keys, next[2..]), skipped + 1;
      }
    }

    /** An L or B command, with the batches merged into it. */
    method Keys(batch: bool, first: string) returns (taken: nat, found: Option<seq<D.Cand>>)
      requires Valid() && |first| < D.KEYS_SIZE
      modifies this`sentN, this`known, this`cache, this`shows, this`calls, this`replies, sent, reader, reader.buf
      ensures Valid() && (!batch ==> taken == 0)
      ensures taken <= |old(Commands(reader.Unread()))| && Commands(reader.Unread()) == old(Commands(reader.Unread()))[taken..]
      ensures var lines := old(Commands(reader.Unread()));
              && (taken > 0 ==> (forall k :: 0 <= k < taken ==> StartsWith(lines[k], "B ")) && D.Merge(first, LinePayloads(lines[..taken])).taken == taken)
              && var keys := if taken == 0 then first else D.Merge(first, LinePayloads(lines[..taken])).keys;
                 var a := if batch then D.Batch(old(View()), keys, taken, found) else D.SingleKey(old(View()), keys, found);
                 View() == a.d && replies == old(replies) + a.replies
    {
      hide D.Reply, D.Feed, D.FeedAll, D.Merge, Commands;
      var keys := first;
      taken, found := 0, None;
      if batch {
        keys, taken := Gather(first);
        if taken == 0 {
          MergeOfNone(first);
        }
      }
      if keys == "" {
        Skip(taken);
        replies := replies + ["EMPTY"];
        return;
      }
      PressAll(keys, !batch);
      found := WaitAndFetch();
      Skip(taken);
      Reply(found);
    }

    /** An S command: the engine learns the word, and keeps composing what a prefix leaves. */
    method Select(rank: int) returns (found: Option<seq<D.Cand>>)
      requires Valid()
      modifies this`sentN, this`known, this`cache, this`shows, this`calls, this`replies, sent
      ensures Valid()
      ensures var a := D.Select(old(View()), rank, found); View() == a.d && replies == old(replies) + a.replies
    {
      hide D.Reply;
      found := None;
      if rank < 0 || rank >= |cache| || cache[rank].id == None {
        replies := replies + ["ERR"];
        return;
      }
      var cover := cache[rank].cover;
      var partial := spans && known && cover > 0 && cover < sentN;
      calls := calls + [D.Learn(cache[rank].text, cache[rank].id.value, cover)];
      if !partial {
        sentN, known := 0, false;
        assert sent[..0] == "";
        replies := replies + ["OK"];
        return;
      }
      DropSent(cover);
      found := WaitAndFetch();
      Reply(found);
    }

    /** memmove of the letters that stay. */
    method DropSent(cover: nat)
      requires sent.Length == D.SENT_SIZE && Fits() && cover <= sentN
      modifies this`sentN, sent
      ensures Fits() && sent[..sentN] == old(sent[..sentN])[cover..]
    {
      sentN := sentN - cover;
      forall k | 0 <= k < sentN {
        sent[k] := sent[k + cover];
      }
    }

    /** A C command: a new session. */
    method Clear()
      requires Valid()
      modifies this`sentN, this`known, this`cache, this`calls, this`replies
      ensures Valid()
      ensures var a := D.Clear(old(View())); View() == a.d && replies == old(replies) + a.replies
    {
      cache := [];
      calls := calls + [D.Renew];
      sentN, known := 0, true;
      assert sent[..0] == "";
      replies := replies + ["OK"];
    }

    /** One command but Q, by the tests in their order. */
    method Handle(line: string) returns (ghost t: Turn)
      requires Valid() && |line| < D.KEYS_SIZE && !Dispatch(line).Quit?
      modifies this, sent, reader, reader.buf
      ensures Valid()
      ensures var lines := [line] + old(Commands(reader.Unread()));
              && MayTake(lines, t.taken) && Commands(reader.Unread()) == lines[t.taken + 1..]
              && var a := D.Handle(old(View()), OrderOf(lines, t.taken), t.taken, t.found);
                 View() == a.d && replies == old(replies) + a.replies
    {
      hide D.Batch, D.SingleKey, D.Select, D.Clear, D.Merge, Commands, Dispatch, LinePayloads;
      ghost var lines := Commands(reader.Unread());
      t := Turn(0, None);
      assert ([line] + lines)[1..] == lines;
      match Dispatch(line) {
        case Ignored =>
        case Quit =>
        case Ping => replies := replies + ["PONG"];
        case Debug => replies := replies + ["OK\t0"];
        case SetSpans => spans := true; replies := replies + ["OK"];
        case SaveNow => replies := replies + ["OK"];
        case Keys(batch, first) =>
          KeysAreShort(line);
          var taken, found := Keys(batch, first);
          t := Turn(taken, found);
          TakenWith(line, lines, taken);
        case Choose(rank) =>
          var found := Select(rank);
          t := Turn(0, found);
        case Restart => Clear();
        case Unknown => replies := replies + ["ERR"];
      }
    }

    /** The whole stream, up to Q or its end: READY, one answer a line or merged run, BYE. */
    method Run() returns (ghost turns: seq<Turn>)
      requires Valid()
      modifies this, sent, reader, reader.buf
      ensures Valid() && IsRun(old(Commands(reader.Unread())), turns)
      ensures var a := RunOver(old(View()), old(Commands(reader.Unread())), turns);
              View() == a.d && replies == old(replies) + ["READY"] + a.replies + ["BYE"]
      ensures old(D.Truthful(View())) ==> D.Truthful(View())
    {
      hide Commands, D.Handle, MayTake, OrderOf, Dispatch, D.Truthful;
      ghost var lines, was := Commands(reader.Unread()), View();
      replies := replies + ["READY"];
      turns := [];
      ghost var before := replies;
      FollowsStarts(was, lines, before);
      while true
        invariant Valid() && Follows(was, lines, turns, Commands(reader.Unread()), View(), replies, before)
        decreases |Commands(reader.Unread())|
      {
        ghost var left, d, said := Commands(reader.Unread()), View(), replies;
        CommandsUnroll(reader.Unread());
        var ok, line := reader.Read(D.KEYS_SIZE, true);
        if !ok || Dispatch(line).Quit? {
          FollowsEnds(was, lines, turns, left, d, said, before);
          break;
        }
        assert left == [line] + Commands(reader.Unread());
        ghost var t := Handle(line);
        FollowsMore(was, lines, turns, left, d, said, before, t);
        turns := turns + [t];
      }
      replies := replies + ["BYE"];
      if D.Truthful(was) {
        RunIsTruthful(was, lines, turns);
      }
    }
  }

  /** The turns so far take the loop from the start of the stream to what is left of it. */
  ghost predicate Follows(was: D.State, lines: seq<string>, turns: seq<Turn>, left: seq<string>, d: D.State,
                          replies: seq<string>, before: seq<string>) {
    forall rest :: IsRun(left, rest) ==>
      && IsRun(lines, turns + rest)
      && RunOver(was, lines, turns + rest).d == RunOver(d, left, rest).d
      && before + RunOver(was, lines, turns + rest).replies == replies + RunOver(d, left, rest).replies
  }

  lemma FollowsStarts(was: D.State, lines: seq<string>, before: seq<string>)
    ensures Follows(was, lines, [], lines, was, before, before)
  {
    assert forall rest: seq<Turn> :: [] + rest == rest;
  }

  lemma FollowsMore(was: D.State, lines: seq<string>, turns: seq<Turn>, left: seq<string>, d: D.State,
                    said: seq<string>, before: seq<string>, t: Turn)
    requires Follows(was, lines, turns, left, d, said, before)
    requires left != [] && !Dispatch(left[0]).Quit? && MayTake(left, t.taken)
    ensures t.taken < |left|
    ensures var a := D.Handle(d, OrderOf(left, t.taken), t.taken, t.found);
            Follows(was, lines, turns + [t], left[t.taken + 1..], a.d, said + a.replies, before)
  {
    hide Dispatch, D.Handle, MayTake, OrderOf;
    TakesSome(left, t.taken);
    var a := D.Handle(d, OrderOf(left, t.taken), t.taken, t.found);
    forall rest | IsRun(left[t.taken + 1..], rest)
      ensures IsRun(lines, turns + [t] + rest)
      ensures RunOver(was, lines, turns + [t] + rest).d == RunOver(a.d, left[t.taken + 1..], rest).d
      ensures before + RunOver(was, lines, turns + [t] + rest).replies == said + a.replies + RunOver(a.d, left[t.taken + 1..], rest).replies
    {
      RunStep(d, left, t, rest);
      assert turns + [t] + rest == turns + ([t] + rest);
    }
  }

  lemma FollowsEnds(was: D.State, lines: seq<string>, turns: seq<Turn>, left: seq<string>, d: D.State,
                    said: seq<string>, before: seq<string>)
    requires Follows(was, lines, turns, left, d, said, before)
    requires left == [] || Dispatch(left[0]).Quit?
    ensures IsRun(lines, turns) && RunOver(was, lines, turns).d == d
    ensures before + RunOver(was, lines, turns).replies == said
  {
    hide Dispatch;
    assert IsRun(left, []) && turns + [] == turns && RunOver(d, left, []).replies == [];
  }

  lemma TakenWith(line: string, lines: seq<string>, taken: nat)
    requires taken <= |lines|
    ensures ([line] + lines)[1..taken + 1] == lines[..taken] && ([line] + lines)[taken + 1..] == lines[taken..]
    ensures forall k :: 1 <= k <= taken ==> ([line] + lines)[k] == lines[k - 1]
  {
  }

  lemma MergeOfNone(first: string)
    ensures D.Merge(first, []) == D.Merged(first, 0)
  {
  }

  lemma KeysAreShort(line: string)
    requires Dispatch(line).Keys? && |line| < D.KEYS_SIZE
    ensures |Dispatch(line).keys| < D.KEYS_SIZE
  {
    StripIsPrefix(line);
  }

  /** Streams with the same next line have the same commands. */
  lemma SameNext(u: string, v: string)
    requires LineReader.NextLine(u) == LineReader.NextLine(v)
    ensures Commands(u) == Commands(v)
  {
    CommandsUnroll(u);
    CommandsUnroll(v);
  }

  lemma CutStarts(text: string)
    requires StartsWith(text, "B ")
    ensures StartsWith(Cut(text), "B ")
  {
    assert Cut(text)[..2] == text[..2];
  }
}
