/** The daemon of the joint runs is the loop that reads bytes: its passes over the lines of the pipe. */
module JointLoop {
  import opened Basics
  import opened Wire
  import opened Addon
  import opened AddonRuns
  import opened Joint
  import opened JointRuns
  import opened JointTheorems
  import LineReader

  /** The lines of commands, as the daemon's line buffer holds them. */
  function Rendered(cs: seq<Cmd>): (lines: seq<string>)
    ensures |lines| == |cs|
  {
    seq(|cs|, k requires 0 <= k < |cs| => Cut(Render(cs[k])))
  }

  /** The bytes of the pipe. */
  function Bytes(cs: seq<Cmd>): string {
    if cs == [] then "" else Render(cs[0]) + "\n" + Bytes(cs[1..])
  }

  /** The passes so far are a run of the loop over the lines served, which leaves the daemon's state and its replies. */
  ghost predicate IsLoopRun(p: Pair) {
    var lines := Rendered(p.loop.served);
    L.IsRun(lines, p.loop.turns) && L.RunOver(D.Start(), lines, p.loop.turns) == D.Answer(p.daemon, p.loop.said)
  }

  /** What is in the inbox is the end of what the daemon said. */
  predicate InboxIsSaid(p: Pair) {
    if p.booted then IsEnd(p.inbox, ["READY"] + p.loop.said)
    else p.inbox == [] && p.loop == Passes([], [], [])
  }

  predicate IsEnd(end: seq<string>, all: seq<string>) { |end| <= |all| && all[|all| - |end|..] == end }

  /** None of the lines ends the loop. */
  predicate NoQuit(lines: seq<string>) { forall k :: 0 <= k < |lines| ==> !Dispatch(lines[k]).Quit? }

  // ---------------------------------------------------------------- one more pass

  /** A run that has used its lines up goes on with a pass over what comes next. */
  lemma {:induction false} OneMorePass(d: D.State, lines: seq<string>, turns: seq<L.Turn>, more: seq<string>, t: L.Turn)
    requires L.IsRun(lines, turns) && NoQuit(lines)
    requires L.MayTake(more, t.taken) && |more| == t.taken + 1 && NoQuit(more)
    ensures L.IsRun(lines + more, turns + [t])
    ensures var r := L.RunOver(d, lines, turns); var a := D.Handle(r.d, L.OrderOf(more, t.taken), t.taken, t.found);
            L.RunOver(d, lines + more, turns + [t]) == D.Answer(a.d, r.replies + a.replies)
    decreases |lines|
  {
    hide Dispatch, D.Handle, D.Merge, L.IsRun, L.RunOver, L.MayTake, L.OrderOf;
    if lines == [] {
      NoPass(d, turns);
      assert lines + more == more && turns + [t] == [t];
      LastPass(d, more, t);
    } else {
      FirstPass(lines, turns);
      var u, rest := turns[0], turns[1..];
      OneMorePass(D.Handle(d, L.OrderOf(lines, u.taken), u.taken, u.found).d, lines[u.taken + 1..], rest, more, t);
      PassBefore(d, lines, u, rest, more, t);
      assert turns == [u] + rest;
    }
  }

  lemma NoPass(d: D.State, turns: seq<L.Turn>)
    requires L.IsRun([], turns)
    ensures turns == [] && L.RunOver(d, [], turns) == D.Answer(d, [])
  {
  }

  lemma FirstPass(lines: seq<string>, turns: seq<L.Turn>)
    requires L.IsRun(lines, turns) && lines != [] && NoQuit(lines)
    ensures turns != [] && L.MayTake(lines, turns[0].taken) && turns[0].taken < |lines|
    ensures L.IsRun(lines[turns[0].taken + 1..], turns[1..]) && NoQuit(lines[turns[0].taken + 1..])
  {
    hide Dispatch, D.Merge;
  }

  /** A pass in front of a run that goes on. */
  lemma PassBefore(d: D.State, lines: seq<string>, u: L.Turn, rest: seq<L.Turn>, more: seq<string>, t: L.Turn)
    requires L.MayTake(lines, u.taken) && u.taken < |lines| && NoQuit(lines)
    requires L.MayTake(more, t.taken)
    requires var left := lines[u.taken + 1..];
             L.IsRun(left, rest) && L.IsRun(left + more, rest + [t])
    requires var a := D.Handle(d, L.OrderOf(lines, u.taken), u.taken, u.found); var left := lines[u.taken + 1..];
             var r := L.RunOver(a.d, left, rest); var b := D.Handle(r.d, L.OrderOf(more, t.taken), t.taken, t.found);
             L.RunOver(a.d, left + more, rest + [t]) == D.Answer(b.d, r.replies + b.replies)
    ensures L.IsRun(lines, [u] + rest) && L.IsRun(lines + more, [u] + rest + [t])
    ensures var r := L.RunOver(d, lines, [u] + rest); var b := D.Handle(r.d, L.OrderOf(more, t.taken), t.taken, t.found);
            L.RunOver(d, lines + more, [u] + rest + [t]) == D.Answer(b.d, r.replies + b.replies)
  {
    hide Dispatch, D.Handle, D.Merge, L.IsRun, L.RunOver, L.MayTake, L.OrderOf;
    PassAlike(lines, more, u.taken);
    assert [u] + rest + [t] == [u] + (rest + [t]);
    L.RunStep(d, lines + more, u, rest + [t]);
    L.RunStep(d, lines, u, rest);
    var a := D.Handle(d, L.OrderOf(lines, u.taken), u.taken, u.found);
    var r := L.RunOver(a.d, lines[u.taken + 1..], rest);
    var b := D.Handle(r.d, L.OrderOf(more, t.taken), t.taken, t.found);
    assert a.replies + (r.replies + b.replies) == a.replies + r.replies + b.replies;
  }

  lemma LastPass(d: D.State, more: seq<string>, t: L.Turn)
    requires L.MayTake(more, t.taken) && |more| == t.taken + 1 && !Dispatch(more[0]).Quit?
    ensures L.IsRun(more, [t])
    ensures var a := D.Handle(d, L.OrderOf(more, t.taken), t.taken, t.found); L.RunOver(d, more, [t]) == D.Answer(a.d, [] + a.replies)
  {
    hide Dispatch, D.Handle, D.Merge;
    assert more[t.taken + 1..] == [];
    assert L.IsRun([], []);
    L.RunStep(d, more, t, []);
    assert [t] + [] == [t];
  }

  /** A pass looks no further than the lines it takes. */
  lemma PassAlike(lines: seq<string>, more: seq<string>, n: nat)
    requires L.MayTake(lines, n)
    ensures L.MayTake(lines + more, n) && L.OrderOf(lines + more, n) == L.OrderOf(lines, n)
    ensures (lines + more)[n + 1..] == lines[n + 1..] + more
  {
    assert (lines + more)[1..n + 1] == lines[1..n + 1];
    assert forall k :: 0 <= k <= n ==> (lines + more)[k] == lines[k];
  }

  // ---------------------------------------------------------------- the joint steps

  lemma BatchLine(keys: string)
    requires Letters(keys)
    ensures var l := Cut(Render(Batch(keys)));
            StartsWith(l, "B ") && L.LinePayload(l) == Delivered(keys) && Dispatch(l) == Keys(true, Delivered(keys))
  {
    var l := Cut(Render(Batch(keys)));
    DispatchOfBatch(keys);
    assert l == "B " + Delivered(keys);
    assert l[..2] == "B ";
  }

  /** A command of the joint model, with the batches merged into it, is one pass of the loop. */
  lemma ServeIsAPass(p: Pair, n: nat)
    requires Good(p, false) && MayMerge(p.addon.link.wire, n)
    ensures var wire := p.addon.link.wire; var lines := Rendered(wire[..n + 1]);
            L.MayTake(lines, n) && L.OrderOf(lines, n) == OrderAt(wire, n) && NoQuit(lines)
  {
    hide Dispatch, Render, Cut, D.Merge, AtRest, Letters, L.LinePayload, Payload;
    var wire := p.addon.link.wire;
    var lines := Rendered(wire[..n + 1]);
    WireOfGood(p);
    HeadIsRead(p.addon, EnvOf(p, false));
    assert lines[0] == Cut(Render(wire[0]));
    if n > 0 {
      forall k | 0 <= k <= n
        ensures StartsWith(lines[k], "B ") && L.LinePayload(lines[k]) == Payload(wire[k]) && Dispatch(lines[k]) == Keys(true, Payload(wire[k]))
      {
        PayloadOfBatch(wire[k]);
      }
      assert L.LinePayloads(lines[1..n + 1]) == Payloads(wire[1..n + 1]);
    } else {
      NothingMerged(wire);
    }
  }

  lemma PayloadOfBatch(c: Cmd)
    requires c.Batch? && Letters(c.keys)
    ensures var l := Cut(Render(c)); StartsWith(l, "B ") && L.LinePayload(l) == Payload(c) && Dispatch(l) == Keys(true, Payload(c))
  {
    BatchLine(c.keys);
  }

  lemma NothingMerged(wire: seq<Cmd>)
    requires MayMerge(wire, 0)
    ensures OrderAt(wire, 0) == Dispatch(Cut(Render(wire[0])))
  {
    hide Dispatch, Render, Cut;
    assert Payloads(wire[1..1]) == [];
  }

  lemma WireOfGood(p: Pair)
    requires Good(p, false)
    ensures WireLetters(p.addon.link.wire) && Inv(p.addon, EnvOf(p, false))
  {
  }

  /** Addon turns only add to the pipe, and serving moves from its front. */
  lemma StepAdds(p: Pair, q: Pair)
    requires Good(p, false) && Next(p, q)
    ensures p.loop.served + p.addon.link.wire <= q.loop.served + q.addon.link.wire
  {
    hide Good, Act, Deliver, Boot, Serve, MayMerge, Fetchable;
    LinkOfGood(p);
    if input :| OwnTurn(input) && q == Act(p, input) {
      TurnAdds(p, input);
    } else if p.inbox != [] && q == Deliver(p) {
      TurnAdds(p, Line(p.inbox[0]));
      DeliverActs(p);
    } else if !p.booted && q == Boot(p) {
      BootAdds(p);
    } else {
      var n: nat, found :| p.booted && MayMerge(p.addon.link.wire, n) && Fetchable(found) && q == Serve(p, n, found);
      ServeMoves(p, n, found);
    }
  }

  lemma TurnAdds(p: Pair, input: Input)
    requires Alive(p.addon.link) && !input.Exit?
    ensures var q := Act(p, input); p.loop.served + p.addon.link.wire <= q.loop.served + q.addon.link.wire
  {
    hide Step;
    var s := p.addon.link;
    assert s.(luck := []) == s;
    assert Continues(s, Step(p.addon, input, []).link);
    Longer(p.loop.served, s.wire, Step(p.addon, input, []).link.wire);
  }

  lemma Longer(front: seq<Cmd>, a: seq<Cmd>, b: seq<Cmd>)
    requires a <= b
    ensures front + a <= front + b
  {
  }

  lemma DeliverActs(p: Pair)
    requires p.inbox != []
    ensures Deliver(p).loop == p.loop && Deliver(p).addon == Act(p, Line(p.inbox[0])).addon
    ensures Act(p, Line(p.inbox[0])).loop == p.loop
  {
    hide Step;
  }

  lemma BootAdds(p: Pair)
    ensures Boot(p).loop == p.loop && Boot(p).addon == p.addon
  {
  }

  lemma ServeMoves(p: Pair, n: nat, found: Option<seq<D.Cand>>)
    requires MayMerge(p.addon.link.wire, n)
    ensures var q := Serve(p, n, found); q.loop.served + q.addon.link.wire == p.loop.served + p.addon.link.wire
  {
    hide MayMerge, OrderAt, D.Handle, Agrees;
    var wire := p.addon.link.wire;
    MergeIsShort(wire, n);
    assert wire == wire[..n + 1] + wire[n + 1..];
    Regrouped(p.loop.served, wire[..n + 1], wire[n + 1..]);
  }

  lemma Regrouped(a: seq<Cmd>, b: seq<Cmd>, c: seq<Cmd>)
    ensures a + (b + c) == (a + b) + c
  {
  }

  lemma LinkOfGood(p: Pair)
    requires Good(p, false)
    ensures Alive(p.addon.link)
  {
  }

  // ---------------------------------------------------------------- whole runs

  predicate AllRead(p: Pair) { NoQuit(Rendered(p.loop.served)) && OneLineEach(p.loop.served) }

  predicate OneLineEach(cs: seq<Cmd>) { forall k :: 0 <= k < |cs| ==> '\n' !in Render(cs[k]) }

  lemma LinesOfWire(wire: seq<Cmd>)
    requires WireLetters(wire)
    ensures OneLineEach(wire)
  {
    hide Render, Letters;
    forall k | 0 <= k < |wire| ensures '\n' !in Render(wire[k]) {
      OneLine(wire[k]);
    }
  }

  lemma OneLine(c: Cmd)
    requires c.Batch? ==> Letters(c.keys)
    ensures '\n' !in Render(c)
  {
    match c
    case Batch(keys) => DispatchOfBatch(keys);
    case Select(index, _, _) => DispatchOfSelect(index);
    case _ => DispatchOfWord(c);
  }

  lemma RenderedJoins(a: seq<Cmd>, b: seq<Cmd>)
    ensures Rendered(a + b) == Rendered(a) + Rendered(b)
  {
  }

  lemma ServeGoesOn(p: Pair, n: nat, found: Option<seq<D.Cand>>)
    requires Good(p, false) && MayMerge(p.addon.link.wire, n) && p.booted
    requires IsLoopRun(p) && AllRead(p) && InboxIsSaid(p)
    ensures IsLoopRun(Serve(p, n, found)) && AllRead(Serve(p, n, found)) && InboxIsSaid(Serve(p, n, found))
  {
    hide Good, MayMerge, OrderAt, D.Handle, Dispatch, Render, Cut, L.IsRun, L.RunOver, L.MayTake, L.OrderOf, Rendered, WireLetters;
    var wire, q := p.addon.link.wire, Serve(p, n, found);
    WireOfGood(p);
    LinesOfWire(wire);
    MergeIsShort(wire, n);
    ServeIsAPass(p, n);
    RenderedJoins(p.loop.served, wire[..n + 1]);
    OneMorePass(D.Start(), Rendered(p.loop.served), p.loop.turns, Rendered(wire[..n + 1]), L.Turn(n, found));
    SaidMore(p, q, D.Handle(p.daemon, OrderAt(wire, n), n, found).replies);
  }

  lemma SaidMore(p: Pair, q: Pair, more: seq<string>)
    requires p.booted && InboxIsSaid(p) && q.booted && q.inbox == p.inbox + more && q.loop.said == p.loop.said + more
    ensures InboxIsSaid(q)
  {
    hide IsEnd;
    Reassociate(["READY"], p.loop.said, more);
    EndOfMore(["READY"] + p.loop.said, p.inbox, more);
  }

  lemma Reassociate(a: seq<string>, b: seq<string>, c: seq<string>)
    ensures a + (b + c) == (a + b) + c
  {
  }

  lemma EndOfMore(all: seq<string>, end: seq<string>, more: seq<string>)
    requires IsEnd(end, all)
    ensures IsEnd(end + more, all + more)
  {
    var n := |all| - |end|;
    assert all == all[..n] + end;
    Reassociate(all[..n], end, more);
    assert (all[..n] + (end + more))[n..] == end + more;
  }

  /**
   * In every state of every joint run the commands served are a run of the daemon's loop over the lines
   * the addon wrote, in the order it wrote them: the loop's state is the daemon's, and what the addon
   * reads is READY and then what the loop says.
   */
  lemma {:induction false} EveryRunIsALoopRun(ps: seq<Pair>, config: int)
    requires IsRun(ps, config)
    ensures forall k :: 0 <= k < |ps| ==> IsLoopRun(ps[k]) && AllRead(ps[k]) && InboxIsSaid(ps[k])
    ensures forall k :: 0 < k < |ps| ==>
              ps[k - 1].loop.served + ps[k - 1].addon.link.wire <= ps[k].loop.served + ps[k].addon.link.wire
    decreases |ps|
  {
    hide Next, IsLoopRun, AllRead, InboxIsSaid, Good;
    EveryPairIsGood(ps, config, false);
    if |ps| == 1 {
      StartIsALoopRun(config);
    } else {
      var n := |ps| - 1;
      PrefixIsRun(ps, config);
      EveryRunIsALoopRun(ps[..n], config);
      assert ps[..n][n - 1] == ps[n - 1];
      assert Next(ps[n - 1], ps[n]);
      StepAdds(ps[n - 1], ps[n]);
      StepIsALoopRun(ps[n - 1], ps[n]);
      forall k | 0 < k < |ps|
        ensures ps[k - 1].loop.served + ps[k - 1].addon.link.wire <= ps[k].loop.served + ps[k].addon.link.wire
      {
        if k < n {
          assert ps[..n][k - 1] == ps[k - 1] && ps[..n][k] == ps[k];
        }
      }
    }
  }

  lemma StartIsALoopRun(config: int)
    ensures IsLoopRun(Begin(config)) && AllRead(Begin(config)) && InboxIsSaid(Begin(config))
  {
    hide Init;
    assert Rendered([]) == [];
  }

  lemma StepIsALoopRun(p: Pair, q: Pair)
    requires Good(p, false) && Next(p, q) && IsLoopRun(p) && AllRead(p) && InboxIsSaid(p)
    ensures IsLoopRun(q) && AllRead(q) && InboxIsSaid(q)
  {
    hide Step, Good, Serve, MayMerge, Fetchable, L.IsRun, L.RunOver, Rendered, NoQuit;
    if exists n: nat, found :: p.booted && MayMerge(p.addon.link.wire, n) && Fetchable(found) && q == Serve(p, n, found) {
      var n: nat, found :| p.booted && MayMerge(p.addon.link.wire, n) && Fetchable(found) && q == Serve(p, n, found);
      ServeGoesOn(p, n, found);
    } else {
      BootSays(p);
    }
  }

  lemma BootSays(p: Pair)
    requires InboxIsSaid(p)
    ensures !p.booted ==> InboxIsSaid(Boot(p))
    ensures p.inbox != [] ==> p.booted && InboxIsSaid(p.(inbox := p.inbox[1..]))
  {
  }

  // ---------------------------------------------------------------- bytes

  /** Commands of at most 8191 bytes, written one after another, are read back line by line. */
  lemma {:induction false} BytesAreLines(cs: seq<Cmd>)
    requires forall k :: 0 <= k < |cs| ==> |Render(cs[k])| < LineReader.IN_SIZE && '\n' !in Render(cs[k])
    ensures L.Commands(Bytes(cs)) == Rendered(cs)
    decreases |cs|
  {
    hide Render, Cut;
    if cs == [] {
      LineReader.FirstLineIsTrimmed("");
    } else {
      var line, rest := Render(cs[0]), Bytes(cs[1..]);
      var u := Bytes(cs);
      assert u == line + "\n" + rest;
      FindIs(u, '\n', |line|);
      assert u[..|line|] == line && u[|line| + 1..] == rest;
      BytesAreLines(cs[1..]);
      L.CommandsUnroll(u);
      assert Rendered(cs) == [Cut(line)] + Rendered(cs[1..]);
    }
  }

  /**
   * So the daemon of the joint runs is the loop that reads bytes: over the bytes of the commands served,
   * of at most 8191 each, the passes are a run of the loop, with the daemon's state and its replies.
   */
  lemma LoopReadsTheRun(ps: seq<Pair>, config: int, k: nat)
    requires IsRun(ps, config) && k < |ps|
    requires forall j :: 0 <= j < |ps[k].loop.served| ==> |Render(ps[k].loop.served[j])| < LineReader.IN_SIZE
    ensures var p := ps[k]; var lines := L.Commands(Bytes(p.loop.served));
            L.IsRun(lines, p.loop.turns) && L.RunOver(D.Start(), lines, p.loop.turns) == D.Answer(p.daemon, p.loop.said)
  {
    hide Render, Next, NoQuit, L.IsRun, L.RunOver;
    EveryRunIsALoopRun(ps, config);
    BytesAreLines(ps[k].loop.served);
  }

  // ---------------------------------------------------------------- the engine itself

  /**
   * The session mirror reaches the engine. In every state of every joint run the letters the daemon knows
   * are those its engine was given and holds; with the pipe empty, no selection lost and at most 255
   * letters, the engine holds exactly the pinyin on screen.
   */
  lemma EngineHoldsPinyin(ps: seq<Pair>, config: int, k: nat)
    requires IsRun(ps, config) && k < |ps|
    ensures ps[k].daemon.known ==> D.Holds(ps[k].daemon.calls) == ps[k].daemon.sent
    ensures ps[k].addon.link.wire == [] && !ps[k].lost && |ps[k].addon.comp.buf| < D.SENT_SIZE ==>
              D.Holds(ps[k].daemon.calls) == ps[k].addon.comp.buf
  {
    hide Next, L.RunOver, Rendered;
    EveryRunIsALoopRun(ps, config);
    L.RunIsTruthful(D.Start(), Rendered(ps[k].loop.served), ps[k].loop.turns);
    if ps[k].addon.link.wire == [] && !ps[k].lost && |ps[k].addon.comp.buf| < D.SENT_SIZE {
      ServedSessionMirror(ps, config, k);
    }
  }
}
