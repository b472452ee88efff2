/**
 * Addon, pipes and daemon as one transition system, for the life of one engine process: the
 * addon's turns, the daemon's commands and the pipes interleave freely.
 */
module Joint {
  import opened Basics
  import opened Codec
  import opened Wire
  import opened Addon
  import D = Daemon
  import L = DaemonLoop

  /**
   * `inbox` holds the lines written by the daemon and not yet read by the addon; the commands
   * under way are addon.link.wire. Three records serve the statements: `lost`, set when the
   * daemon does not take the branch the addon took for a selection and cleared by the next C,
   * `learned`, the cached text at each rank the daemon was told to select, and `loop`.
   */
  datatype Pair = Pair(addon: State, daemon: D.State, booted: bool, inbox: seq<string>,
                       lost: bool, learned: seq<string>, loop: Passes)

  /** The commands served so far, the passes of the daemon's loop that served them, and what they said. */
  datatype Passes = Passes(served: seq<Cmd>, turns: seq<L.Turn>, said: seq<string>)

  // ---------------------------------------------------------------- steps

  /** The turns of the addon that need no line and no death of the engine. */
  predicate OwnTurn(input: Input) {
    !input.Line? && !input.Exit? && !input.RestartTimer?
  }

  function Act(p: Pair, input: Input): Pair {
    p.(addon := Step(p.addon, input, []))
  }

  function Deliver(p: Pair): Pair
    requires p.inbox != []
  {
    p.(addon := Step(p.addon, Line(p.inbox[0]), []), inbox := p.inbox[1..])
  }

  function Boot(p: Pair): Pair { p.(booted := true, inbox := p.inbox + ["READY"]) }

  function Payload(c: Cmd): string { if c.Batch? then Delivered(c.keys) else "" }

  function Payloads(cs: seq<Cmd>): (ps: seq<string>)
    ensures |ps| == |cs|
  {
    seq(|cs|, k requires 0 <= k < |cs| => Payload(cs[k]))
  }

  /** The daemon may merge the next n batches into its command: they wait, and its buffer has room before each. */
  predicate MayMerge(wire: seq<Cmd>, n: nat) {
    n < |wire|
    && (n > 0 ==> wire[0].Batch?)
    && (forall k :: 0 < k <= n ==> wire[k].Batch?)
    && D.Merge(Payload(wire[0]), Payloads(wire[1..n + 1])).taken == n
  }

  /** What the engine may find: at most 72 candidates with proper texts. */
  predicate Fetchable(found: Option<seq<D.Cand>>) {
    found.Some? ==> |found.value| <= D.MAX_CAND && CleanEntries(D.Entries(found.value))
  }

  /** The order the daemon acts on when it reads the head of the wire and merges n batches. */
  function OrderAt(wire: seq<Cmd>, n: nat): Order
    requires MayMerge(wire, n)
  {
    match Dispatch(Cut(Render(wire[0])))
    case Keys(true, keys) => Keys(true, D.Merge(keys, Payloads(wire[1..n + 1])).keys)
    case other => other
  }

  /** Whether the daemon takes the addon's branch for a selection. */
  predicate Agrees(d: D.State, c: Cmd)
    requires c.Select?
  {
    c.purpose.Prefix? == (D.Choosable(d, c.index) && D.IsPartial(d, c.index))
  }

  function Serve(p: Pair, n: nat, found: Option<seq<D.Cand>>): Pair
    requires MayMerge(p.addon.link.wire, n)
  {
    var wire := p.addon.link.wire;
    var a := D.Handle(p.daemon, OrderAt(wire, n), n, found);
    var c := wire[0];
    Pair(p.addon.(link := p.addon.link.(wire := wire[n + 1..])), a.d, p.booted, p.inbox + a.replies,
         if c.Clear? then false else if c.Select? then p.lost || !Agrees(p.daemon, c) else p.lost,
         if c.Select? && c.index < |p.daemon.cache| then p.learned + [p.daemon.cache[c.index].text] else p.learned,
         Passes(p.loop.served + wire[..n + 1], p.loop.turns + [L.Turn(n, found)], p.loop.said + a.replies))
  }

  /** Start: the addon's constructor, and a daemon still loading. */
  function Begin(config: int): Pair {
    Pair(Init(config, []), D.Start(), false, [], false, [], Passes([], [], []))
  }

  ghost predicate Next(p: Pair, q: Pair) {
    || (exists input :: OwnTurn(input) && q == Act(p, input))
    || (p.inbox != [] && q == Deliver(p))
    || (!p.booted && q == Boot(p))
    || (exists n: nat, found :: p.booted && MayMerge(p.addon.link.wire, n) && Fetchable(found) && q == Serve(p, n, found))
  }

  ghost predicate IsRun(ps: seq<Pair>, config: int) {
    ps != [] && ps[0] == Begin(config) && forall k :: 0 < k < |ps| ==> Next(ps[k - 1], ps[k])
  }

  // ---------------------------------------------------------------- the session behind the pipe

  /** The letters the daemon knows, and whether its session is the addon's. */
  datatype Session = Session(sent: string, known: bool, lost: bool)

  /** What one command still in the pipe will do to the session. */
  function After(s: Session, d: D.State, c: Cmd): Session {
    match c
    case Batch(keys) =>
      var fits := s.known && |s.sent| + |Delivered(keys)| < D.SENT_SIZE;
      if fits then s.(sent := s.sent + Delivered(keys)) else s.(known := false)
    case Clear => Session("", true, false)
    case Select(index, _, purpose) =>
      var view := d.(sent := s.sent, known := s.known);
      var lost := s.lost || !Agrees(view, c);
      if !D.Choosable(view, index) then s.(lost := lost)
      else if D.IsPartial(view, index) then Session(s.sent[d.cache[index].cover..], s.known, lost)
      else Session("", false, lost)
    case _ => s
  }

  /** The session once the daemon has served the whole pipe. */
  function Drained(s: Session, d: D.State, wire: seq<Cmd>): Session {
    if wire == [] then s else After(Drained(s, d, wire[..|wire| - 1]), d, wire[|wire| - 1])
  }

  function SessionOf(p: Pair): Session { Session(p.daemon.sent, p.daemon.known, p.lost) }

  function Ahead(p: Pair): Session { Drained(SessionOf(p), p.daemon, p.addon.link.wire) }

  /**
   * The mirror: with no selection lost, the session behind the pipe holds exactly the addon's
   * pinyin, and the daemon knows its letters exactly while they are at most 255.
   */
  predicate Mirrors(s: Session, buf: string) { !s.lost ==> Reflects(s, buf) }

  predicate Reflects(s: Session, buf: string) { s.known == (|buf| < D.SENT_SIZE) && (s.known ==> s.sent == buf) }
}
