/** Lines out of byte streams: the daemon's bounded command buffer and the addon's growing one. */
module LineReader {
  import opened Basics

  const IN_SIZE := 8192

  datatype Next = Line(text: string, rest: string) | NoLine

  /**
   * The next command in a stream, whatever the chunks it comes in: the text before the first
   * newline, after dropping the 8192-byte blocks that fill the buffer without one.
   */
  function NextLine(u: string): Next
    decreases |u|
  {
    var n := Find(u, '\n');
    if n < |u| && n < IN_SIZE then Line(u[..n], u[n + 1..])
    else if |u| >= IN_SIZE then NextLine(u[IN_SIZE..])
    else NoLine
  }

  function AllLines(u: string): seq<string>
    decreases |u|
  {
    match NextLine(u)
    case NoLine => []
    case Line(text, rest) => NextLineShrinks(u); [text] + AllLines(rest)
  }

  lemma {:induction false} NextLineShrinks(u: string)
    ensures NextLine(u).Line? ==> |NextLine(u).rest| < |u|
    decreases |u|
  {
    var n := Find(u, '\n');
    if !(n < |u| && n < IN_SIZE) && |u| >= IN_SIZE {
      NextLineShrinks(u[IN_SIZE..]);
    }
  }

  /** A full buffer without a newline says nothing about the line that follows. */
  lemma DiscardKeepsNext(full: string, rest: string)
    requires |full| == IN_SIZE && forall k :: 0 <= k < |full| ==> full[k] != '\n'
    ensures NextLine(full + rest) == NextLine(rest)
  {
    var u := full + rest;
    assert forall k :: 0 <= k < IN_SIZE ==> u[k] == full[k];
    assert u[IN_SIZE..] == rest;
  }

  /** What the stream means to anyone: the pieces that end in a newline. */
  function Split(u: string): seq<string>
    decreases |u|
  {
    var n := Find(u, '\n');
    if n == |u| then [] else [u[..n]] + Split(u[n + 1..])
  }

  /** What follows the last newline. */
  function Remainder(u: string): string
    decreases |u|
  {
    var n := Find(u, '\n');
    if n == |u| then u else Remainder(u[n + 1..])
  }

  /** What reading leaves of a line: its whole 8192-byte blocks are dropped from the front. */
  function Trimmed(line: string): string { line[|line| - |line| % IN_SIZE..] }

  function AllTrimmed(lines: seq<string>): seq<string> {
    seq(|lines|, k requires 0 <= k < |lines| => Trimmed(lines[k]))
  }

  /** The first line of any stream, however long; a stream without a newline has none. */
  lemma {:induction false} FirstLineIsTrimmed(u: string)
    ensures var n := Find(u, '\n');
            NextLine(u) == if n == |u| then NoLine else Line(Trimmed(u[..n]), u[n + 1..])
    decreases |u|
  {
    var n := Find(u, '\n');
    if |u| >= IN_SIZE && n >= IN_SIZE {
      var v := u[IN_SIZE..];
      FindIs(v, '\n', n - IN_SIZE);
      FirstLineIsTrimmed(v);
      if n < |u| {
        assert v[..n - IN_SIZE] == u[..n][IN_SIZE..] && v[n - IN_SIZE + 1..] == u[n + 1..];
        BlocksGo(u[..n]);
      }
    }
  }

  lemma BlocksGo(line: string)
    requires |line| >= IN_SIZE
    ensures Trimmed(line) == Trimmed(line[IN_SIZE..])
  {
    assert (|line| - IN_SIZE) % IN_SIZE == |line| % IN_SIZE;
  }

  /** Every stream is read as its lines, each without its whole blocks of 8192 bytes. */
  lemma {:induction false} LinesAreTrimmed(u: string)
    ensures AllLines(u) == AllTrimmed(Split(u))
    decreases |u|
  {
    hide Trimmed, AllTrimmed, NextLine;
    var n := Find(u, '\n');
    FirstLineIsTrimmed(u);
    if n < |u| {
      LinesAreTrimmed(u[n + 1..]);
      OneMoreTrimmed([u[..n]], Split(u[n + 1..]));
    } else {
      OneMoreTrimmed([], []);
    }
  }

  lemma OneMoreTrimmed(a: seq<string>, b: seq<string>)
    ensures AllTrimmed(a + b) == AllTrimmed(a) + AllTrimmed(b)
    ensures |a| == 1 ==> AllTrimmed(a) == [Trimmed(a[0])]
    ensures a == [] ==> AllTrimmed(a) == []
  {
  }

  /** The lines are exactly those of the stream if and only if each of them is at most 8191 bytes. */
  lemma {:induction false} LinesAreExact(u: string)
    ensures AllLines(u) == Split(u) <==> forall s :: s in Split(u) ==> |s| < IN_SIZE
  {
    hide Split, AllLines, Trimmed;
    LinesAreTrimmed(u);
    TrimmedAlike(Split(u));
  }

  lemma TrimmedAlike(lines: seq<string>)
    ensures AllTrimmed(lines) == lines <==> forall s :: s in lines ==> |s| < IN_SIZE
  {
    hide Trimmed;
    forall k | 0 <= k < |lines| ensures AllTrimmed(lines)[k] == lines[k] <==> |lines[k]| < IN_SIZE {
      ShortIsWhole(lines[k]);
    }
    if forall s :: s in lines ==> |s| < IN_SIZE {
      assert forall k :: 0 <= k < |lines| ==> lines[k] in lines;
    }
  }

  lemma ShortIsWhole(line: string)
    ensures Trimmed(line) == line <==> |line| < IN_SIZE
  {
    assert |Trimmed(line)| == |line| % IN_SIZE;
  }

  // ---------------------------------------------------------------- the daemon's reader

  function Clipped(text: string, cap: nat): string
    requires cap > 0
  {
    if |text| < cap then text else text[..cap - 1]
  }

  /** g_in and g_in_len, with the unread stream and the outcomes of coming reads and polls. */
  class CommandReader {
    const buf: array<char>
    var len: nat
    var src: string
    var sizes: seq<nat>
    var polls: seq<bool>

    ghost predicate Valid()
      reads this
    {
      buf.Length == IN_SIZE && len <= IN_SIZE
    }

    ghost function Unread(): string
      reads this, buf
      requires Valid()
    {
      buf[..len] + src
    }

    /** A complete line is in the buffer. */
    ghost predicate LineBuffered()
      reads this`len, buf
      requires len <= buf.Length
    {
      '\n' in buf[..len]
    }

    /** It is a B command. */
    ghost predicate BatchBuffered()
      reads this`len, buf
      requires len <= buf.Length
    {
      LineBuffered() && len > 2 && buf[0] == 'B' && buf[1] == ' '
    }

    constructor (src: string, sizes: seq<nat>, polls: seq<bool>)
      ensures Valid() && fresh(buf) && Unread() == src
    {
      buf := new char[IN_SIZE];
      len, this.src, this.sizes, this.polls := 0, src, sizes, polls;
    }

    /** read(2): at least one byte when there is any, at most the room left. */
    method ReadSome() returns (got: bool)
      requires Valid() && len < IN_SIZE
      modifies this`len, this`src, this`sizes, buf
      ensures Valid() && Unread() == old(Unread()) && got == (old(src) != "")
      ensures if got then |src| < |old(src)| else src == old(src) && len == old(len)
    {
      got := src != "";
      if got {
        var want := if sizes == [] then |src| else sizes[0];
        sizes := if sizes == [] then [] else sizes[1..];
        var room := IN_SIZE - len;
        var r := if want < 1 then 1 else want;
        r := if r < room then r else room;
        r := if r < |src| then r else |src|;
        CopyIn(r);
        len, src := len + r, src[r..];
      }
    }

    method CopyIn(r: nat)
      requires Valid() && len + r <= IN_SIZE && r <= |src|
      modifies buf
      ensures buf[..len + r] == old(buf[..len]) + src[..r]
    {
      ghost var before := buf[..len];
      var k := 0;
      while k < r
        invariant k <= r && buf[..len + k] == before + src[..k]
      {
        buf[len + k] := src[k];
        k := k + 1;
        assert buf[..len + k] == buf[..len + k - 1] + [src[k - 1]];
      }
    }

    /** cmd_fill: called when no complete line is buffered. */
    method Fill(block: bool) returns (got: bool)
      requires Valid() && forall k :: 0 <= k < len ==> buf[k] != '\n'
      modifies this, buf
      ensures Valid() && NextLine(Unread()) == old(NextLine(Unread()))
      ensures if got then |src| < |old(src)| else src == old(src)
      ensures block && !got ==> src == "" && NextLine(Unread()) == NoLine
      ensures !got ==> forall k :: 0 <= k < len ==> buf[k] != '\n'
    {
      if !block {
        var ready := polls == [] || polls[0];
        polls := if polls == [] then [] else polls[1..];
        if !ready {
          return false;
        }
      }
      if len == IN_SIZE {
        DiscardKeepsNext(buf[..], src);
        assert buf[..len] == buf[..];
        len := 0;
        assert buf[..0] + src == src;
      }
      got := ReadSome();
      if !got {
        assert Unread() == buf[..len];
      }
    }

    /** memchr over the buffered bytes. */
    method FindNewline() returns (n: nat)
      requires Valid()
      ensures n <= len && (n < len ==> buf[n] == '\n') && forall k :: 0 <= k < n ==> buf[k] != '\n'
    {
      n := 0;
      while n < len && buf[n] != '\n'
        invariant n <= len && forall k :: 0 <= k < n ==> buf[k] != '\n'
      {
        n := n + 1;
      }
    }

    lemma BufferedLine(n: nat)
      requires Valid() && n < len && buf[n] == '\n' && forall k :: 0 <= k < n ==> buf[k] != '\n'
      ensures NextLine(Unread()) == Line(buf[..n], buf[n + 1..len] + src)
    {
      var u := Unread();
      FindIs(u, '\n', n);
      assert u[..n] == buf[..n] && u[n + 1..] == buf[n + 1..len] + src;
    }

    /** memmove of what follows the line. */
    method Shift(n: nat)
      requires Valid() && n <= len
      modifies this`len, buf
      ensures len == old(len) - n && buf[..len] == old(buf[..len])[n..]
    {
      forall k | 0 <= k < len - n {
        buf[k] := buf[k + n];
      }
      len := len - n;
    }

    /** cmd_read: the next line cut to cap - 1 bytes; without blocking it may report none yet. */
    method Read(cap: nat, block: bool) returns (ok: bool, line: string)
      requires Valid() && cap > 0
      modifies this, buf
      ensures Valid()
      ensures !ok ==> NextLine(Unread()) == old(NextLine(Unread()))
      ensures block ==> ok == old(NextLine(Unread())).Line?
      ensures old(LineBuffered()) ==> ok
      ensures ok ==> old(NextLine(Unread())).Line? && Unread() == old(NextLine(Unread())).rest
                     && line == Clipped(old(NextLine(Unread())).text, cap)
    {
      ghost var next := NextLine(Unread());
      while true
        invariant Valid() && NextLine(Unread()) == next
        invariant old(LineBuffered()) ==> LineBuffered()
        decreases |src|
      {
        var n := FindNewline();
        if n < len {
          BufferedLine(n);
          line := Clipped(buf[..n], cap);
          Shift(n + 1);
          return true, line;
        }
        var got := Fill(block);
        if !got {
          return false, "";
        }
      }
    }

    /** cmd_next_is_batch: a peek that consumes nothing. */
    method NextIsBatch() returns (batch: bool)
      requires Valid()
      modifies this, buf
      ensures Valid() && NextLine(Unread()) == old(NextLine(Unread()))
      ensures batch ==> NextLine(Unread()).Line? && StartsWith(NextLine(Unread()).text, "B ")
      ensures batch == BatchBuffered()
    {
      ghost var next := NextLine(Unread());
      while true
        invariant Valid() && NextLine(Unread()) == next
        decreases |src|
      {
        var n := FindNewline();
        if n < len {
          BufferedLine(n);
          return len > 2 && buf[0] == 'B' && buf[1] == ' ';
        }
        var got := Fill(false);
        if !got {
          return false;
        }
      }
    }

    /**
     * Reading everything, with peeks wherever the daemon makes them: the lines are those of the
     * stream, for every way of cutting it into reads and every outcome of the polls.
     */
    method ReadAll(cap: nat, peeks: seq<bool>) returns (lines: seq<string>)
      requires Valid() && cap > 0
      modifies this, buf
      ensures |lines| == |old(AllLines(Unread()))|
      ensures forall k :: 0 <= k < |lines| ==> lines[k] == Clipped(old(AllLines(Unread()))[k], cap)
    {
      ghost var all := AllLines(Unread());
      ghost var left := all;
      lines := [];
      var i := 0;
      ghost var bound := |all|;
      while true
        invariant Valid() && left == AllLines(Unread()) && |lines| <= |all| && left == all[|lines|..]
        invariant forall k :: 0 <= k < |lines| ==> lines[k] == Clipped(all[k], cap)
        decreases |all| - |lines|
      {
        if i < |peeks| && peeks[i] {
          var _ := NextIsBatch();
        }
        i := i + 1;
        var ok, line := Read(cap, true);
        if !ok {
          return;
        }
        left := left[1..];
        lines := lines + [line];
      }
    }
  }

  // ---------------------------------------------------------------- the addon's reader

  lemma {:induction false} SplitAppends(a: string, b: string)
    ensures Split(a + b) == Split(a) + Split(Remainder(a) + b)
    ensures Remainder(a + b) == Remainder(Remainder(a) + b)
    decreases |a|
  {
    var n := Find(a, '\n');
    if n < |a| {
      FirstLineAppends(a, b, n);
      SplitAppends(a[n + 1..], b);
      assert Split(a) == [a[..n]] + Split(a[n + 1..]);
    }
  }

  lemma FirstLineAppends(a: string, b: string, n: nat)
    requires n < |a| && n == Find(a, '\n')
    ensures Split(a + b) == [a[..n]] + Split(a[n + 1..] + b) && Remainder(a + b) == Remainder(a[n + 1..] + b)
  {
    FindIs(a + b, '\n', n);
    assert (a + b)[n + 1..] == a[n + 1..] + b && (a + b)[..n] == a[..n];
  }

  lemma {:induction false} RemainderIsOpen(u: string)
    ensures Split(Remainder(u)) == []
    decreases |u|
  {
    var n := Find(u, '\n');
    if n < |u| {
      RemainderIsOpen(u[n + 1..]);
    }
  }

  /** rbuf_ and the loop of onReadable. */
  class LineBuffer {
    var rbuf: string

    constructor ()
      ensures rbuf == ""
    {
      rbuf := "";
    }

    /** Appends a chunk and takes out every complete line. */
    method OnReadable(chunk: string) returns (lines: seq<string>)
      modifies this
      ensures lines == Split(old(rbuf) + chunk) && rbuf == Remainder(old(rbuf) + chunk)
    {
      rbuf := rbuf + chunk;
      lines := [];
      var pos := Find(rbuf, '\n');
      while pos < |rbuf|
        invariant pos == Find(rbuf, '\n')
        invariant lines + Split(rbuf) == Split(old(rbuf) + chunk) && Remainder(rbuf) == Remainder(old(rbuf) + chunk)
        decreases |rbuf|
      {
        FirstOfSplit(lines, rbuf);
        hide Split, Remainder;
        lines := lines + [rbuf[..pos]];
        rbuf := rbuf[pos + 1..];
        pos := Find(rbuf, '\n');
      }
    }

    /** Any chunks give the lines of the whole stream, in order and without a length limit. */
    method ReadChunks(chunks: seq<string>) returns (lines: seq<string>)
      requires Split(rbuf) == []
      modifies this
      ensures lines == Split(old(rbuf) + Assembled(chunks)) && rbuf == Remainder(old(rbuf) + Assembled(chunks))
    {
      hide Split, Remainder;
      lines := [];
      var i := 0;
      while i < |chunks|
        invariant i <= |chunks|
        invariant Split(rbuf) == []
        invariant lines + Split(rbuf + Assembled(chunks[i..])) == Split(old(rbuf) + Assembled(chunks))
        invariant Remainder(rbuf + Assembled(chunks[i..])) == Remainder(old(rbuf) + Assembled(chunks))
      {
        var rest := Assembled(chunks[i + 1..]);
        assert rbuf + Assembled(chunks[i..]) == (rbuf + chunks[i]) + rest;
        SplitAppends(rbuf + chunks[i], rest);
        RemainderIsOpen(rbuf + chunks[i]);
        var more := OnReadable(chunks[i]);
        lines := lines + more;
        i := i + 1;
      }
      assert rbuf + Assembled([]) == rbuf;
      OpenIsRemainder(rbuf);
    }
  }

  lemma FirstOfSplit(before: seq<string>, u: string)
    requires Find(u, '\n') < |u|
    ensures var n := Find(u, '\n');
            before + Split(u) == before + [u[..n]] + Split(u[n + 1..]) && Remainder(u) == Remainder(u[n + 1..])
  {
    hide Split, Remainder, Find;
    var n := Find(u, '\n');
    SplitUnrolls(u);
    RemainderUnrolls(u);
    Regroup(before, [u[..n]], Split(u[n + 1..]));
  }

  lemma SplitUnrolls(u: string)
    requires Find(u, '\n') < |u|
    ensures var n := Find(u, '\n'); Split(u) == [u[..n]] + Split(u[n + 1..])
  {
    hide Find;
  }

  lemma RemainderUnrolls(u: string)
    requires Find(u, '\n') < |u|
    ensures Remainder(u) == Remainder(u[Find(u, '\n') + 1..])
  {
    hide Find;
  }

  lemma Regroup(a: seq<string>, b: seq<string>, c: seq<string>)
    ensures a + (b + c) == a + b + c
  {
  }

  lemma OpenIsRemainder(u: string)
    requires Split(u) == []
    ensures Remainder(u) == u
  {
  }

  function Assembled(chunks: seq<string>): string {
    if chunks == [] then "" else chunks[0] + Assembled(chunks[1..])
  }
}
