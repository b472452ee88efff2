/** Command lines from the addon to the daemon. */
module Wire {
  import opened Basics
  import opened Codec

  /**
   * Why the addon selects: to end the composition, to keep composing what lies behind the letters
   * covered, or under a punctuation key, which ends the composition whether or not the candidate covers only a prefix of it.
   */
  datatype Purpose = Whole | Prefix(cover: nat) | Punctuated(prefix: bool)

  /** Whether the candidate covers a proper prefix of the pinyin it was chosen for. */
  predicate CoversPrefix(purpose: Purpose) { purpose.Prefix? || (purpose.Punctuated? && purpose.prefix) }

  /**
   * The commands the addon writes. Select also records, for the statements only, the
   * candidate text the addon committed and its purpose; neither crosses the pipe.
   */
  datatype Cmd =
    | OptSpans
    | Save
    | Batch(keys: string)
    | Select(index: nat, committed: string, purpose: Purpose)
    | Clear

  function Render(c: Cmd): string {
    match c
    case OptSpans => "OPT spans"
    case Save => "SAVE"
    case Batch(keys) => "B " + keys
    case Select(index, _, _) => "S " + PrintNat(index)
    case Clear => "C"
  }

  /** The daemon's line buffer keeps 511 bytes of a command. */
  const LINE_KEEP := 511

  function Cut(line: string): string {
    if |line| <= LINE_KEEP then line else line[..LINE_KEEP]
  }

  /** What run_daemon makes of a line: the string tests in their order. */
  datatype Order =
    | Ignored
    | Quit
    | Ping
    | Debug
    | SetSpans
    | SaveNow
    | Keys(batch: bool, keys: string)
    | Choose(rank: int)
    | Restart
    | Unknown

  function StripReturns(line: string): string {
    if line != "" && (line[|line| - 1] == '\r' || line[|line| - 1] == '\n')
    then StripReturns(line[..|line| - 1]) else line
  }

  function Dispatch(line: string): Order {
    var l := StripReturns(line);
    if l == "" then Ignored
    else if l == "Q" then Quit
    else if l == "PING" then Ping
    else if StartsWith(l, "X ") then Debug
    else if l == "OPT spans" then SetSpans
    else if l == "SAVE" then SaveNow
    else if StartsWith(l, "L ") || StartsWith(l, "B ") then Keys(l[0] == 'B', l[2..])
    else if l[0] == 'S' then Choose(Atoi(l[1..]))
    else if l == "C" then Restart
    else Unknown
  }

  /** Pinyin letters, the only keys the addon sends. */
  predicate Letters(s: string) {
    forall k :: 0 <= k < |s| ==> 'a' <= s[k] <= 'z'
  }

  /** What the line buffer leaves of a batch. */
  function Delivered(keys: string): string {
    if |keys| <= LINE_KEEP - 2 then keys else keys[..LINE_KEEP - 2]
  }

  function Meaning(c: Cmd): Order {
    match c
    case OptSpans => SetSpans
    case Save => SaveNow
    case Batch(keys) => Keys(true, Delivered(keys))
    case Select(index, _, _) => Choose(index)
    case Clear => Restart
  }

  /** The daemon reads every command as the addon meant it; a batch loses only what the line buffer cuts. */
  lemma DispatchOfRendered(c: Cmd)
    requires c.Batch? ==> Letters(c.keys)
    requires c.Select? ==> |Render(c)| <= LINE_KEEP
    ensures '\n' !in Render(c) && Dispatch(Cut(Render(c))) == Meaning(c)
  {
    match c
    case Batch(keys) => DispatchOfBatch(keys);
    case Select(index, _, _) => DispatchOfSelect(index);
    case _ => DispatchOfWord(c);
  }

  lemma DispatchOfWord(c: Cmd)
    requires c.OptSpans? || c.Save? || c.Clear?
    ensures '\n' !in Render(c) && Dispatch(Render(c)) == Meaning(c)
  {
    assert StripReturns(Render(c)) == Render(c);
    assert Render(c)[0] != 'X' && Render(c)[0] != 'L' && Render(c)[0] != 'B';
  }

  lemma DispatchOfBatch(keys: string)
    requires Letters(keys)
    ensures '\n' !in Render(Batch(keys)) && Dispatch(Cut(Render(Batch(keys)))) == Keys(true, Delivered(keys))
  {
    var l := Cut(Render(Batch(keys)));
    assert l == "B " + Delivered(keys);
    assert l[|l| - 1] != '\r' && l[|l| - 1] != '\n';
    assert l[0] == 'B' && l[1] == ' ' && l[2..] == Delivered(keys);
    assert l[..2] == "B ";
  }

  lemma DispatchOfSelect(index: nat)
    ensures '\n' !in "S " + PrintNat(index) && Dispatch("S " + PrintNat(index)) == Choose(index)
  {
    var digits := PrintNat(index);
    var l := "S " + digits;
    assert l[0] == 'S' && l[1] == ' ' && IsDigit(l[|l| - 1]);
    assert l[1..] == " " + digits;
    BlankThenDigits(digits);
    AtoiOfPrinted(index, "");
    assert PrintInt(index) + "" == digits;
  }

  lemma BlankThenDigits(digits: string)
    requires digits != "" && IsDigit(digits[0])
    ensures Atoi(" " + digits) == Atoi(digits)
  {
    assert (" " + digits)[1..] == digits;
    assert SkipBlanks(digits) == digits;
  }
}
