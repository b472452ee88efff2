/** The text of the line protocol: numbers, CAND replies and command lines. */
module Codec {
  import opened Basics

  // ---------------------------------------------------------------- decimal numbers

  predicate IsDigit(c: char) { '0' <= c <= '9' }

  function DigitChar(d: nat): char
    requires d < 10
  {
    '0' + d as char
  }

  /** printf("%u") and std::to_string of a non-negative number. */
  function PrintNat(n: nat): (s: string)
    ensures |s| > 0 && forall k :: 0 <= k < |s| ==> IsDigit(s[k])
  {
    if n < 10 then [DigitChar(n)] else PrintNat(n / 10) + [DigitChar(n % 10)]
  }

  /** printf("%d"). */
  function PrintInt(i: int): string {
    if i < 0 then "-" + PrintNat(-i) else PrintNat(i)
  }

  /** The digits at the start of s, continuing the number acc. */
  function DigitsValue(s: string, acc: nat): nat {
    if s == "" || !IsDigit(s[0]) then acc
    else DigitsValue(s[1..], acc * 10 + (s[0] - '0') as nat)
  }

  function SkipBlanks(s: string): string {
    if s != "" && (s[0] == ' ' || '\t' <= s[0] <= '\r') then SkipBlanks(s[1..]) else s
  }

  /** atoi without its overflow, which is undefined in C. */
  function Atoi(s: string): int {
    var t := SkipBlanks(s);
    if t != "" && t[0] == '-' then -(DigitsValue(t[1..], 0) as int)
    else if t != "" && t[0] == '+' then DigitsValue(t[1..], 0)
    else DigitsValue(t, 0)
  }

  lemma {:induction false} DigitsAppend(ds: string, rest: string, acc: nat)
    requires forall k :: 0 <= k < |ds| ==> IsDigit(ds[k])
    requires rest == "" || !IsDigit(rest[0])
    ensures DigitsValue(ds + rest, acc) == DigitsValue(ds, acc)
  {
    if ds == "" {
      assert ds + rest == rest;
    } else {
      assert (ds + rest)[1..] == ds[1..] + rest;
      DigitsAppend(ds[1..], rest, acc * 10 + (ds[0] - '0') as nat);
    }
  }

  lemma {:induction false} DigitsSnoc(ds: string, d: char, acc: nat)
    requires IsDigit(d) && forall k :: 0 <= k < |ds| ==> IsDigit(ds[k])
    ensures DigitsValue(ds + [d], acc) == DigitsValue(ds, acc) * 10 + (d - '0') as nat
  {
    if ds == "" {
      assert ds + [d] == [d];
      assert DigitsValue([d], acc) == DigitsValue("", acc * 10 + (d - '0') as nat);
    } else {
      assert (ds + [d])[1..] == ds[1..] + [d];
      DigitsSnoc(ds[1..], d, acc * 10 + (ds[0] - '0') as nat);
    }
  }

  lemma {:induction false} DigitsOfPrinted(n: nat)
    ensures DigitsValue(PrintNat(n), 0) == n
  {
    if n < 10 {
      var d := DigitChar(n);
      assert DigitsValue([d], 0) == DigitsValue([d][1..], n);
    } else {
      DigitsOfPrinted(n / 10);
      DigitsSnoc(PrintNat(n / 10), DigitChar(n % 10), 0);
    }
  }

  /** atoi undoes "%d", whatever non-digit follows the number. */
  lemma {:induction false} AtoiOfPrinted(i: int, rest: string)
    requires rest == "" || !IsDigit(rest[0])
    ensures Atoi(PrintInt(i) + rest) == i
  {
    var digits := PrintNat(if i < 0 then -i else i);
    DigitsAppend(digits, rest, 0);
    DigitsOfPrinted(if i < 0 then -i else i);
    assert IsDigit(digits[0]) && (digits + rest)[0] == digits[0];
    hide PrintNat, DigitsValue;
    var s := PrintInt(i) + rest;
    assert i < 0 ==> s[0] == '-' && s[1..] == digits + rest;
    assert SkipBlanks(s) == s;
  }

  lemma PrintIntChars(i: int, c: char)
    requires c in PrintInt(i)
    ensures IsDigit(c) || c == '-'
  {
  }

  // ---------------------------------------------------------------- CAND replies

  /** One candidate as it crosses the pipe: its text and the letters it covers. */
  datatype Entry = Entry(cover: int, text: string)

  /** What the model assumes of candidate text. */
  predicate CleanText(t: string) {
    t != "" && '\t' !in t && '\n' !in t
  }

  predicate CleanEntries(es: seq<Entry>) {
    forall k :: 0 <= k < |es| ==> CleanText(es[k].text)
  }

  function PrintItem(spans: bool, e: Entry): string {
    if spans then PrintInt(e.cover) + ":" + e.text else e.text
  }

  function PrintItems(spans: bool, es: seq<Entry>): string {
    if es == [] then "" else "\t" + PrintItem(spans, es[0]) + PrintItems(spans, es[1..])
  }

  /** daemon_reply_cands; a daemon that fetched nothing says EMPTY. */
  function PrintCands(spans: bool, es: seq<Entry>): (line: string)
    ensures line == "EMPTY" || StartsWith(line, "CAND")
  {
    if es == [] then "EMPTY" else "CAND" + PrintItems(spans, es)
  }

  predicate IsCandLine(line: string) { StartsWith(line, "CAND\t") }

  /** One tab-separated item; None is an item the addon skips. */
  function ParseItem(spans: bool, item: string): Option<Entry> {
    if spans then
      var colon := Find(item, ':');
      if colon == |item| || item[colon + 1..] == "" then None
      else Some(Entry(Atoi(item), item[colon + 1..]))
    else if item == "" then None else Some(Entry(0, item))
  }

  /** The std::getline loop over the text after "CAND\t". */
  function ParseItems(spans: bool, body: string): seq<Entry>
    decreases |body|
  {
    if body == "" then []
    else
      var tab := Find(body, '\t');
      var head := match ParseItem(spans, body[..tab]) case Some(e) => [e] case None => [];
      if tab == |body| then head else head + ParseItems(spans, body[tab + 1..])
  }

  function ParseCands(spans: bool, line: string): seq<Entry>
    requires IsCandLine(line)
  {
    ParseItems(spans, line[5..])
  }

  /** What survives of an entry in each mode. */
  function Visible(spans: bool, e: Entry): Entry {
    if spans then e else Entry(0, e.text)
  }

  function VisibleAll(spans: bool, es: seq<Entry>): (vs: seq<Entry>)
    ensures |vs| == |es| && forall k :: 0 <= k < |es| ==> vs[k] == Visible(spans, es[k])
  {
    if es == [] then [] else [Visible(spans, es[0])] + VisibleAll(spans, es[1..])
  }

  lemma ItemRoundTrip(spans: bool, e: Entry)
    requires CleanText(e.text)
    ensures PrintItem(spans, e) != "" && '\t' !in PrintItem(spans, e) && '\n' !in PrintItem(spans, e)
    ensures ParseItem(spans, PrintItem(spans, e)) == Some(Visible(spans, e))
  {
    if spans {
      var digits := PrintInt(e.cover);
      var item := PrintItem(spans, e);
      assert item == digits + (":" + e.text);
      assert item[..|digits|] == digits;
      forall c | c in digits ensures IsDigit(c) || c == '-' { PrintIntChars(e.cover, c); }
      FindIs(item, ':', |digits|);
      assert item[|digits| + 1..] == e.text;
      AtoiOfPrinted(e.cover, ":" + e.text);
    }
  }

  /** The first step of the parser on an item followed by nothing or by a tab. */
  lemma ParseStep(spans: bool, item: string, tail: string)
    requires item != "" && '\t' !in item && (tail == "" || tail[0] == '\t')
    ensures ParseItems(spans, item + tail) ==
            (match ParseItem(spans, item) case Some(e) => [e] case None => [])
            + (if tail == "" then [] else ParseItems(spans, tail[1..]))
  {
    var body := item + tail;
    assert body[..|item|] == item;
    FindIs(body, '\t', |item|);
    if tail != "" {
      assert body[|item| + 1..] == tail[1..];
    }
  }

  lemma {:induction false} ItemsRoundTrip(spans: bool, es: seq<Entry>)
    requires es != [] && CleanEntries(es)
    ensures PrintItems(spans, es) != "" && PrintItems(spans, es)[0] == '\t'
    ensures '\n' !in PrintItems(spans, es)
    ensures ParseItems(spans, PrintItems(spans, es)[1..]) == VisibleAll(spans, es)
  {
    var item := PrintItem(spans, es[0]);
    var tail := PrintItems(spans, es[1..]);
    assert PrintItems(spans, es)[1..] == item + tail;
    ItemRoundTrip(spans, es[0]);
    if es[1..] != [] {
      ItemsRoundTrip(spans, es[1..]);
    }
    ParseStep(spans, item, tail);
  }

  /**
   * Every nonempty candidate list survives the pipe index for index: with its covers when
   * both ends use spans, with cover 0 when neither does. The line has no newline of its own.
   */
  lemma {:induction false} CandRoundTrip(spans: bool, es: seq<Entry>)
    requires es != [] && CleanEntries(es)
    ensures IsCandLine(PrintCands(spans, es)) && '\n' !in PrintCands(spans, es)
    ensures ParseCands(spans, PrintCands(spans, es)) == VisibleAll(spans, es)
  {
    ItemsRoundTrip(spans, es);
    var line := PrintCands(spans, es);
    var items := PrintItems(spans, es);
    assert line == "CAND" + items;
    assert line[..5] == "CAND" + items[..1] == "CAND\t";
    assert line[5..] == items[1..];
  }

  /**
   * Both ends must use the same mode: with covers printed and not expected, the addon
   * would show and commit the number and the colon as candidate text.
   */
  lemma CandModesMustAgree(e: Entry)
    requires CleanText(e.text)
    ensures ParseItem(false, PrintItem(true, e)) == Some(Entry(0, PrintInt(e.cover) + ":" + e.text))
    ensures ParseItem(false, PrintItem(true, e)).value.text != e.text
  {
    ItemRoundTrip(true, e);
    assert |PrintInt(e.cover) + ":" + e.text| > |e.text|;
  }
}
