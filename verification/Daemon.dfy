/** The harness daemon's command loop: the composition it believes in, its candidate cache and its replies. */
module Daemon {
  import opened Basics
  import opened Codec
  import opened Wire

  /** A cached candidate: text, a copy of the engine's id when it came with one, letters covered. */
  datatype Cand = Cand(text: string, id: Option<string>, cover: int)

  /** What the engine is asked to do. */
  datatype Call =
    | Press(key: char)                     // process_input "d k" then "u k"
    | Learn(text: string, id: string, cover: int)   // select_candidate, of a candidate that covers so many letters
    | Renew                                // destroy_session, create_session

  /** sent, sent_known, spans, the candidate cache, and the calls made so far. */
  datatype State = State(sent: string, known: bool, spans: bool, cache: seq<Cand>, calls: seq<Call>)

  const SENT_SIZE := 256
  const KEYS_SIZE := 512
  const MAX_CAND := 72

  function Start(): State { State("", true, false, [], []) }

  function Entries(cs: seq<Cand>): (es: seq<Entry>)
    ensures |es| == |cs| && forall k :: 0 <= k < |cs| ==> es[k] == Entry(cs[k].cover, cs[k].text)
  {
    seq(|cs|, k requires 0 <= k < |cs| => Entry(cs[k].cover, cs[k].text))
  }

  // ---------------------------------------------------------------- keys

  function Feed(d: State, key: char): State {
    var c := d.(calls := d.calls + [Press(key)]);
    if c.known && |c.sent| + 1 < SENT_SIZE then c.(sent := c.sent + [key]) else c.(known := false)
  }

  function FeedAll(d: State, keys: string): State
    decreases |keys|
  {
    if keys == "" then d else FeedAll(Feed(d, keys[0]), keys[1..])
  }

  /** strncat into the 512-byte key buffer. */
  function Joined(keys: string, next: string): string {
    if |keys| + |next| < KEYS_SIZE then keys + next
    else if |keys| < KEYS_SIZE then keys + next[..KEYS_SIZE - 1 - |keys|] else keys
  }

  /** How many of the batches queued behind `keys` the loop merges, and the keys it gathers. */
  datatype Merged = Merged(keys: string, taken: nat)

  function Merge(keys: string, queue: seq<string>): (m: Merged)
    ensures m.taken <= |queue|
    decreases |queue|
  {
    if |keys| + 64 < KEYS_SIZE && queue != [] then
      var m := Merge(Joined(keys, queue[0]), queue[1..]);
      Merged(m.keys, m.taken + 1)
    else Merged(keys, 0)
  }

  // ---------------------------------------------------------------- replies

  /** What one command changes and says. */
  datatype Answer = Answer(d: State, replies: seq<string>)

  /** Wait and fetch: None when no candidates came in time, else what was fetched. */
  function Reply(d: State, found: Option<seq<Cand>>): Answer {
    match found
    case None => Answer(d, ["EMPTY"])
    case Some(cs) => Answer(d.(cache := cs), [PrintCands(d.spans, Entries(cs))])
  }

  function Skips(n: nat): seq<string> { seq(n, _ => "SKIP") }

  /** A B command with `skipped` more merged into it. */
  function Batch(d: State, keys: string, skipped: nat, found: Option<seq<Cand>>): Answer {
    if keys == "" then Answer(d, Skips(skipped) + ["EMPTY"])
    else
      var a := Reply(FeedAll(d, keys), found);
      Answer(a.d, Skips(skipped) + a.replies)
  }

  function SingleKey(d: State, keys: string, found: Option<seq<Cand>>): Answer {
    if keys == "" then Answer(d, ["EMPTY"]) else Reply(Feed(d, keys[0]), found)
  }

  predicate Choosable(d: State, rank: int) {
    0 <= rank < |d.cache| && d.cache[rank].id.Some?
  }

  /** The engine keeps composing only a proper prefix of letters it is known to hold. */
  predicate IsPartial(d: State, rank: int)
    requires Choosable(d, rank)
  {
    d.spans && d.known && 0 < d.cache[rank].cover < |d.sent|
  }

  function Select(d: State, rank: int, found: Option<seq<Cand>>): Answer {
    if !Choosable(d, rank) then Answer(d, ["ERR"])
    else
      var c := d.cache[rank];
      var s := d.(calls := d.calls + [Learn(c.text, c.id.value, c.cover)]);
      if IsPartial(d, rank) then Reply(s.(sent := s.sent[c.cover..]), found)
      else Answer(s.(sent := "", known := false), ["OK"])
  }

  function Clear(d: State): Answer {
    Answer(d.(sent := "", known := true, cache := [], calls := d.calls + [Renew]), ["OK"])
  }

  /** One command but Q; PING and X are answered without touching the composition. */
  function Handle(d: State, order: Order, skipped: nat, found: Option<seq<Cand>>): Answer {
    match order
    case Ping => Answer(d, ["PONG"])
    case Debug => Answer(d, ["OK\t0"])
    case SetSpans => Answer(d.(spans := true), ["OK"])
    case SaveNow => Answer(d, ["OK"])
    case Keys(batch, keys) => if batch then Batch(d, keys, skipped, found) else SingleKey(d, keys, found)
    case Choose(rank) => Select(d, rank, found)
    case Restart => Clear(d)
    case Unknown => Answer(d, ["ERR"])
    case Ignored => Answer(d, [])
    case Quit => Answer(d, [])
  }

  // ---------------------------------------------------------------- what the engine holds

  function KeyPresses(keys: string): seq<Call> { seq(|keys|, k requires 0 <= k < |keys| => Press(keys[k])) }

  /** Any keys are pressed one by one, in order. */
  lemma {:induction false} FeedAllPresses(d: State, keys: string)
    ensures FeedAll(d, keys).calls == d.calls + KeyPresses(keys)
    decreases |keys|
  {
    if keys == "" {
      assert d.calls + KeyPresses(keys) == d.calls;
    } else {
      FeedAllPresses(Feed(d, keys[0]), keys[1..]);
      assert KeyPresses(keys) == [Press(keys[0])] + KeyPresses(keys[1..]);
    }
  }

  /** What the engine is asked to do by each command. */
  lemma CallsOf(d: State, order: Order, skipped: nat, found: Option<seq<Cand>>)
    ensures Handle(d, order, skipped, found).d.calls == d.calls +
            match order
            case Keys(true, keys) => KeyPresses(keys)
            case Keys(false, keys) => KeyPresses(if keys == "" then "" else keys[..1])
            case Choose(rank) =>
              (if 0 <= rank < |d.cache| && d.cache[rank].id.Some?
               then [Learn(d.cache[rank].text, d.cache[rank].id.value, d.cache[rank].cover)] else [])
            case Restart => [Renew]
            case _ => []
  {
    if order.Keys? {
      FeedAllPresses(d, order.keys);
      assert KeyPresses("") == [];
      if order.keys != "" {
        assert KeyPresses(order.keys[..1]) == [Press(order.keys[0])];
      }
    }
  }

  /**
   * What it answers. Keys and a selection that keeps composing are answered with the candidates now cached, or
   * EMPTY with the cache as it was; a selection is ERR if and only if there is no id for it, and OK when the
   * composition is over.
   */
  lemma AnswersOf(d: State, order: Order, skipped: nat, found: Option<seq<Cand>>)
    ensures var a := Handle(d, order, skipped, found); var n := if order.Keys? && order.batch then skipped else 0;
            !order.Ignored? && !order.Quit? ==> |a.replies| == n + 1 && forall k :: 0 <= k < n ==> a.replies[k] == "SKIP"
    ensures var a := Handle(d, order, skipped, found);
            order.Keys? ==> Offers(d, a, order.keys != "", found)
    ensures var a := Handle(d, order, skipped, found);
            order.Choose? ==>
              (a.replies == ["ERR"] <==> !(0 <= order.rank < |d.cache| && d.cache[order.rank].id.Some?))
    ensures var a := Handle(d, order, skipped, found);
            order.Choose? && a.replies != ["ERR"] ==>
              if d.spans && d.known && 0 < d.cache[order.rank].cover < |d.sent|
              then Offers(d, a, true, found) && a.d.sent == d.sent[d.cache[order.rank].cover..] && a.d.known
              else a.replies == ["OK"] && !a.d.known && a.d.cache == d.cache
    ensures order.Restart? ==>
              var a := Handle(d, order, skipped, found);
              a.replies == ["OK"] && a.d.sent == "" && a.d.known && a.d.cache == [] && a.d.spans == d.spans
    ensures order.SetSpans? ==> Handle(d, order, skipped, found) == Answer(d.(spans := true), ["OK"])
    ensures order.SaveNow? ==> Handle(d, order, skipped, found) == Answer(d, ["OK"])
  {
    if order.Keys? {
      FeedAllKeeps(d, order.keys);
    }
  }

  /** The last reply: the candidates found, now cached, or EMPTY. */
  predicate Offers(d: State, a: Answer, asked: bool, found: Option<seq<Cand>>) {
    a.replies != [] &&
    if asked && found.Some? then
      a.d.cache == found.value && a.replies[|a.replies| - 1] == PrintCands(d.spans, Entries(a.d.cache))
    else a.d.cache == d.cache && a.replies[|a.replies| - 1] == "EMPTY"
  }

  lemma FeedAllKeeps(d: State, keys: string)
    ensures FeedAll(d, keys).cache == d.cache && FeedAll(d, keys).spans == d.spans
    decreases |keys|
  {
  }

  /**
   * The letters an engine holds after the calls made to it: a key adds one, a new session has none, and a
   * selection leaves what the candidate does not cover.
   */
  function Holds(calls: seq<Call>): string {
    if calls == [] then "" else LettersAfter(Holds(calls[..|calls| - 1]), calls[|calls| - 1])
  }

  function LettersAfter(letters: string, c: Call): string {
    if c.Press? then letters + [c.key]
    else if c.Learn? && 0 < c.cover < |letters| then letters[c.cover..] else ""
  }

  lemma HoldsSnoc(calls: seq<Call>, c: Call)
    ensures Holds(calls + [c]) == LettersAfter(Holds(calls), c)
  {
    assert (calls + [c])[..|calls|] == calls;
  }

  /** The letters the daemon takes as known are those its engine holds. */
  predicate Truthful(d: State) { d.known ==> Holds(d.calls) == d.sent }

  lemma {:induction false} FeedAllIsTruthful(d: State, keys: string)
    requires Truthful(d)
    ensures Truthful(FeedAll(d, keys))
    decreases |keys|
  {
    hide Holds;
    if keys != "" {
      HoldsSnoc(d.calls, Press(keys[0]));
      FeedAllIsTruthful(Feed(d, keys[0]), keys[1..]);
    }
  }

  /** Every command keeps the daemon truthful about its engine. */
  lemma HandleIsTruthful(d: State, order: Order, skipped: nat, found: Option<seq<Cand>>)
    requires Truthful(d)
    ensures Truthful(Handle(d, order, skipped, found).d)
  {
    hide Holds;
    match order {
      case Keys(_, keys) =>
        FeedAllIsTruthful(d, keys);
        if keys != "" {
          HoldsSnoc(d.calls, Press(keys[0]));
        }
      case Choose(rank) =>
        if Choosable(d, rank) {
          var c := d.cache[rank];
          HoldsSnoc(d.calls, Learn(c.text, c.id.value, c.cover));
        }
      case Restart => HoldsSnoc(d.calls, Renew);
      case _ =>
    }
  }

  // ---------------------------------------------------------------- coalescing

  lemma {:induction false} FeedAllSplits(d: State, a: string, b: string)
    ensures FeedAll(d, a + b) == FeedAll(FeedAll(d, a), b)
    decreases |a|
  {
    if a == "" {
      assert a + b == b;
    } else {
      assert (a + b)[1..] == a[1..] + b;
      FeedAllSplits(Feed(d, a[0]), a[1..], b);
    }
  }

  /** The letters known to the daemon after any keys: all of them, as long as they fit. */
  lemma {:induction false} FeedAllSent(d: State, keys: string)
    requires d.known ==> |d.sent| < SENT_SIZE
    ensures var r := FeedAll(d, keys);
            && r.known == (d.known && |d.sent| + |keys| < SENT_SIZE)
            && (r.known ==> r.sent == d.sent + keys)
            && r.spans == d.spans && r.cache == d.cache
    decreases |keys|
  {
    if keys != "" {
      FeedAllSent(Feed(d, keys[0]), keys[1..]);
      assert d.sent + [keys[0]] + keys[1..] == d.sent + keys;
    } else {
      assert d.sent + keys == d.sent;
    }
  }

  /** Batches handled one at a time, each with its own candidates. */
  function OneByOne(d: State, queue: seq<string>, found: seq<Option<seq<Cand>>>): Answer
    requires |queue| == |found|
    decreases |queue|
  {
    if queue == [] then Answer(d, [])
    else
      var a := Batch(d, queue[0], 0, found[0]);
      var rest := OneByOne(a.d, queue[1..], found[1..]);
      Answer(rest.d, a.replies + rest.replies)
  }

  function Flat(queue: seq<string>): string {
    if queue == [] then "" else queue[0] + Flat(queue[1..])
  }

  /** Payloads of at most 64 bytes are never cut by the merge. */
  lemma {:induction false} MergeKeepsAll(keys: string, queue: seq<string>)
    requires |keys| < KEYS_SIZE && forall k :: 0 <= k < |queue| ==> |queue[k]| <= 64
    ensures var m := Merge(keys, queue); m.keys == keys + Flat(queue[..m.taken]) && |m.keys| < KEYS_SIZE
    decreases |queue|
  {
    var m := Merge(keys, queue);
    if |keys| + 64 < KEYS_SIZE && queue != [] {
      MergeKeepsAll(keys + queue[0], queue[1..]);
      assert queue[..m.taken][0] == queue[0] && queue[..m.taken][1..] == queue[1..][..m.taken - 1];
    } else {
      assert queue[..0] == [] && keys + "" == keys;
    }
  }

  /** Whatever the payloads, the merge holds all their letters or a full buffer of them. */
  lemma {:induction false} MergeKeepsAllOrFills(keys: string, queue: seq<string>)
    requires |keys| < KEYS_SIZE
    ensures var m := Merge(keys, queue); var all := keys + Flat(queue[..m.taken]);
            m.keys == all || (|m.keys| == KEYS_SIZE - 1 && |all| >= KEYS_SIZE - 1)
    decreases |queue|
  {
    var m := Merge(keys, queue);
    if |keys| + 64 < KEYS_SIZE && queue != [] {
      MergeKeepsAllOrFills(Joined(keys, queue[0]), queue[1..]);
      assert queue[..m.taken][0] == queue[0] && queue[..m.taken][1..] == queue[1..][..m.taken - 1];
    } else {
      assert queue[..0] == [] && keys + "" == keys;
    }
  }

  /** What the merge holds are the first letters of all, as many as fit. */
  lemma {:induction false} MergeIsPrefix(keys: string, queue: seq<string>)
    requires |keys| < KEYS_SIZE
    ensures var m := Merge(keys, queue); m.keys <= keys + Flat(queue[..m.taken]) && |m.keys| < KEYS_SIZE
    decreases |queue|
  {
    var m := Merge(keys, queue);
    if |keys| + 64 < KEYS_SIZE && queue != [] {
      var j := Joined(keys, queue[0]);
      MergeIsPrefix(j, queue[1..]);
      assert queue[..m.taken][0] == queue[0] && queue[..m.taken][1..] == queue[1..][..m.taken - 1];
      if |keys| + |queue[0]| < KEYS_SIZE {
        assert keys + (queue[0] + Flat(queue[1..][..m.taken - 1])) == j + Flat(queue[1..][..m.taken - 1]);
      } else {
        assert Merge(j, queue[1..]) == Merged(j, 0);
        assert j + Flat(queue[1..][..0]) == j;
        assert keys + (queue[0] + Flat(queue[1..][..0])) == keys + queue[0];
      }
    } else {
      assert queue[..0] == [] && keys + "" == keys;
    }
  }

  /** The merge holds every letter if and only if they are at most 511. */
  lemma MergeIsWhole(keys: string, queue: seq<string>)
    requires |keys| < KEYS_SIZE
    ensures var m := Merge(keys, queue); var all := keys + Flat(queue[..m.taken]);
            && (m.keys == all <==> |all| < KEYS_SIZE)
            && (|all| >= KEYS_SIZE ==> m.keys == all[..KEYS_SIZE - 1])
  {
    MergeIsPrefix(keys, queue);
    MergeKeepsAllOrFills(keys, queue);
  }

  /** A longer payload can be cut: 447 letters and then 65 lose one. */
  lemma MergeCutsLongPayload(keys: string, payload: string)
    requires |keys| == 447 && |payload| == 65
    ensures Merge(keys, [payload]).taken == 1 && |Merge(keys, [payload]).keys| == 511
  {
    assert Merge(Joined(keys, payload), []) == Merged(Joined(keys, payload), 0);
    assert [payload][1..] == [];
  }

  /** The composition and the calls to the engine, without the candidate cache. */
  function Session(d: State): State { d.(cache := []) }

  lemma FeedAllIgnoresCache(d: State, e: State, keys: string)
    requires Session(d) == Session(e)
    ensures Session(FeedAll(d, keys)) == Session(FeedAll(e, keys))
    decreases |keys|
  {
    if keys != "" {
      FeedAllIgnoresCache(Feed(d, keys[0]), Feed(e, keys[0]), keys[1..]);
    }
  }

  lemma {:induction false} OneByOneFeeds(d: State, queue: seq<string>, found: seq<Option<seq<Cand>>>)
    requires |queue| == |found|
    ensures Session(OneByOne(d, queue, found).d) == Session(FeedAll(d, Flat(queue)))
    ensures |OneByOne(d, queue, found).replies| == |queue|
    decreases |queue|
  {
    if queue != [] {
      var a := Batch(d, queue[0], 0, found[0]);
      OneByOneFeeds(a.d, queue[1..], found[1..]);
      assert Session(a.d) == Session(FeedAll(d, queue[0]));
      FeedAllIgnoresCache(a.d, FeedAll(d, queue[0]), Flat(queue[1..]));
      FeedAllSplits(d, queue[0], Flat(queue[1..]));
    }
  }

  lemma {:induction false} OneByOneSnoc(d: State, queue: seq<string>, found: seq<Option<seq<Cand>>>, keys: string, last: Option<seq<Cand>>)
    requires |queue| == |found|
    ensures var a := OneByOne(d, queue, found);
            var b := OneByOne(d, queue + [keys], found + [last]);
            b.d == Batch(a.d, keys, 0, last).d && b.replies == a.replies + Batch(a.d, keys, 0, last).replies
    decreases |queue|
  {
    if queue == [] {
      assert queue + [keys] == [keys] && found + [last] == [last];
      var b := Batch(d, keys, 0, last);
      assert OneByOne(b.d, [keys][1..], [last][1..]) == Answer(b.d, []);
    } else {
      var a := Batch(d, queue[0], 0, found[0]);
      assert (queue + [keys])[1..] == queue[1..] + [keys] && (found + [last])[1..] == found[1..] + [last];
      OneByOneSnoc(a.d, queue[1..], found[1..], keys, last);
    }
  }

  /**
   * Merging refines handling one at a time. Whatever candidates the engine would have shown
   * for the intermediate batches: the engine receives the same keys, the daemon knows the same
   * letters, there are as many replies, all but the last say SKIP, and the last is the same.
   */
  lemma CoalescingRefines(d: State, first: string, queue: seq<string>, found: seq<Option<seq<Cand>>>, last: Option<seq<Cand>>)
    requires |first| < KEYS_SIZE && first != "" && forall k :: 0 <= k < |queue| ==> 0 < |queue[k]| <= 64
    requires var m := Merge(first, queue); m.taken > 0 && |found| == m.taken
    ensures var m := Merge(first, queue);
            var merged := Batch(d, m.keys, m.taken, last);
            var single := OneByOne(d, [first] + queue[..m.taken], found + [last]);
            && Session(merged.d) == Session(single.d)
            && (last.Some? ==> merged.d == single.d)
            && |merged.replies| == |single.replies| == m.taken + 1
            && merged.replies[m.taken] == single.replies[m.taken]
            && forall k :: 0 <= k < m.taken ==> merged.replies[k] == "SKIP"
  {
    var m := Merge(first, queue);
    MergeKeepsAll(first, queue);
    var all := [first] + queue[..m.taken];
    assert Flat(all) == m.keys by { assert all[1..] == queue[..m.taken]; }
    OneByOneFeeds(d, all, found + [last]);
    var front, keys := all[..m.taken], all[m.taken];
    assert all == front + [keys];
    OneByOneSnoc(d, front, found, keys, last);
    OneByOneFeeds(d, front, found);
    LastBatchAgrees(d, front, keys, found, m.keys, m.taken, last);
  }

  lemma {:induction false} FlatSnoc(queue: seq<string>, keys: string)
    ensures Flat(queue + [keys]) == Flat(queue) + keys
    decreases |queue|
  {
    if queue == [] {
      assert [keys][1..] == [];
      assert queue + [keys] == [keys];
    } else {
      assert (queue + [keys])[1..] == queue[1..] + [keys];
      FlatSnoc(queue[1..], keys);
    }
  }

  lemma LastBatchAgrees(d: State, front: seq<string>, keys: string, found: seq<Option<seq<Cand>>>,
                        all: string, skipped: nat, last: Option<seq<Cand>>)
    requires |front| == |found| && keys != "" && all == Flat(front + [keys]) && all != ""
    requires Session(OneByOne(d, front, found).d) == Session(FeedAll(d, Flat(front)))
    ensures var a := OneByOne(d, front, found).d;
            && (last.Some? ==> Batch(d, all, skipped, last).d == Batch(a, keys, 0, last).d)
            && Batch(d, all, skipped, last).replies[skipped] == Batch(a, keys, 0, last).replies[0]
  {
    var a := OneByOne(d, front, found).d;
    FlatSnoc(front, keys);
    FeedAllSplits(d, Flat(front), keys);
    FeedAllIgnoresCache(a, FeedAll(d, Flat(front)), keys);
  }

  /** Every command but Q and a blank line has one reply, and a merged run one for each of its batches. */
  lemma OneReplyEach(d: State, order: Order, skipped: nat, found: Option<seq<Cand>>)
    requires !order.Ignored? && !order.Quit? && (skipped > 0 ==> order.Keys? && order.batch)
    ensures |Handle(d, order, skipped, found).replies| == skipped + 1
    ensures forall k :: 0 <= k <= skipped ==> Handle(d, order, skipped, found).replies[k] != ""
  {
    if found.Some? {
      assert PrintCands(d.spans, Entries(found.value)) != "";
    }
  }
}
