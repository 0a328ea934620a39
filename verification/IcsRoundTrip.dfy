/**
  The outbound feed read back by the parser: the content lines come back as they were
  printed, whatever the titles hold, and with them the events.
*/
module IcsRoundTrip {
  import opened Options
  import opened Civil
  import opened Recurrence
  import opened Core
  import opened IcsText
  import opened Seqs
  import opened IcsParse

  // ---- text ------------------------------------------------------------------

  /** Every line break as LF. */
  function UnixBreaks(s: string): string {
    if s == "" then ""
    else if s[0] == '\r' && |s| > 1 && s[1] == '\n' then ['\n'] + UnixBreaks(s[2..])
    else if s[0] == '\r' then ['\n'] + UnixBreaks(s[1..])
    else [s[0]] + UnixBreaks(s[1..])
  }

  lemma UnescapePairFront(c: char, rest: string)
    ensures Unescape(['\\', c] + rest) == [Unescaped(c)] + Unescape(rest)
  {
    assert (['\\', c] + rest)[2..] == rest;
  }

  lemma UnescapeFront(c: char, rest: string)
    requires c != '\\'
    ensures Unescape([c] + rest) == [c] + Unescape(rest)
  {
    assert ([c] + rest)[1..] == rest;
  }

  /** Escaping and unescaping a text only turns its line breaks into LF. */
  lemma {:induction false} UnescapeEscape(s: string)
    ensures Unescape(Escape(s)) == UnixBreaks(s)
    decreases |s|
  {
    if s != "" {
      if s[0] == '\r' && |s| > 1 && s[1] == '\n' {
        UnescapeEscape(s[2..]);
        UnescapePairFront('n', Escape(s[2..]));
      } else {
        UnescapeEscape(s[1..]);
        if s[0] == '\r' || s[0] == '\n' {
          UnescapePairFront('n', Escape(s[1..]));
        } else if s[0] == '\\' || s[0] == ';' || s[0] == ',' {
          UnescapePairFront(s[0], Escape(s[1..]));
        } else {
          UnescapeFront(s[0], Escape(s[1..]));
        }
      }
    }
  }

  // ---- numbers and stamps ----------------------------------------------------

  function Pow10(k: nat): nat {
    if k == 0 then 1 else 10 * Pow10(k - 1)
  }

  /** A padded number reads back wherever it stands. */
  lemma {:induction false} PadReads(s: string, from: nat, n: nat, k: nat)
    requires from + k <= |s| && s[from..from + k] == Pad(n, k) && n < Pow10(k)
    ensures Digits(s, from, k) && Number(s, from, k) == n
  {
    if k > 0 {
      var p := Pad(n, k);
      assert s[from..from + k][..k - 1] == s[from..from + k - 1];
      assert p[..k - 1] == Pad(n / 10, k - 1) && p[k - 1] == DigitChar(n % 10);
      assert s[from + k - 1] == p[k - 1];
      PadReads(s, from, n / 10, k - 1);
    }
  }

  lemma {:induction false} PadIsOneLine(n: nat, k: nat)
    ensures OneLine(Pad(n, k))
  {
    if k > 0 {
      PadIsOneLine(n / 10, k - 1);
    }
  }

  lemma {:induction false} ItoaIsOneLine(n: nat)
    ensures OneLine(Itoa(n))
  {
    if n >= 10 {
      ItoaIsOneLine(n / 10);
    }
  }

  lemma StampIsOneLine(second: int)
    ensures OneLine(Stamp(second))
  {
    var day, clock := second / 86400, second % 86400;
    var y := YearOf(day);
    var n: nat := if y < 0 then -y else y;
    PadIsOneLine(n, 4);
    ItoaIsOneLine(n);
    assert OneLine(YearText(y));
    PadIsOneLine(MonthOf(day), 2);
    PadIsOneLine(DayOf(day), 2);
    PadIsOneLine(clock / 3600, 2);
    PadIsOneLine(clock / 60 % 60, 2);
    PadIsOneLine(clock % 60, 2);
  }

  /** The parts of a stamp of a four-digit year. */
  lemma StampParts(y: string, m: string, d: string, h: string, mi: string, s: string)
    requires |y| == 4 && |m| == |d| == |h| == |mi| == |s| == 2
    ensures var v := y + m + d + ['T'] + h + mi + s + ['Z'];
      && |v| == 16 && v[8] == 'T' && v[15] == 'Z'
      && v[0..4] == y && v[4..6] == m && v[6..8] == d && v[9..11] == h && v[11..13] == mi && v[13..15] == s
  {
  }

  predicate FourDigitYear(second: int) {
    0 <= YearOf(second / 86400) <= 9999
  }

  lemma StampShape(second: int)
    requires FourDigitYear(second)
    ensures var v := Stamp(second);
      var day, clock := second / 86400, second % 86400;
      && |v| == 16 && v[8] == 'T' && v[15] == 'Z'
      && v[0..4] == Pad(YearOf(day), 4) && v[4..6] == Pad(MonthOf(day), 2) && v[6..8] == Pad(DayOf(day), 2)
      && v[9..11] == Pad(clock / 3600, 2) && v[11..13] == Pad(clock / 60 % 60, 2) && v[13..15] == Pad(clock % 60, 2)
  {
    var day, clock := second / 86400, second % 86400;
    StampParts(Pad(YearOf(day), 4), Pad(MonthOf(day), 2), Pad(DayOf(day), 2), Pad(clock / 3600, 2), Pad(clock / 60 % 60, 2), Pad(clock % 60, 2));
  }

  lemma DigitsJoin(s: string, a: nat, n: nat, m: nat)
    requires Digits(s, a, n) && Digits(s, a + n, m)
    ensures Digits(s, a, n + m)
  {
  }

  lemma DateReads(v: string, day: int)
    requires |v| >= 8 && 0 <= YearOf(day) <= 9999
    requires v[0..4] == Pad(YearOf(day), 4) && v[4..6] == Pad(MonthOf(day), 2) && v[6..8] == Pad(DayOf(day), 2)
    ensures DateAt(v) == Some(day)
  {
    assert Pow10(1) == 10 && Pow10(2) == 100 && Pow10(3) == 1000 && Pow10(4) == 10000;
    PadReads(v, 0, YearOf(day), 4);
    PadReads(v, 4, MonthOf(day), 2);
    PadReads(v, 6, DayOf(day), 2);
    DigitsJoin(v, 0, 4, 2);
    DigitsJoin(v, 0, 6, 2);
    DateRoundTrip(day);
  }

  lemma ClockParts(clock: nat)
    requires clock < 86400
    ensures clock / 3600 < 24 && clock / 60 % 60 < 60 && clock % 60 < 60
    ensures clock / 3600 * 3600 + clock / 60 % 60 * 60 + clock % 60 == clock
  {
    assert clock / 3600 == clock / 60 / 60;
  }

  lemma ClockReads(v: string, clock: nat)
    requires |v| >= 15 && v[8] == 'T' && clock < 86400
    requires v[9..11] == Pad(clock / 3600, 2) && v[11..13] == Pad(clock / 60 % 60, 2) && v[13..15] == Pad(clock % 60, 2)
    ensures ClockAt(v) == Some(clock)
  {
    assert Pow10(1) == 10 && Pow10(2) == 100;
    PadReads(v, 9, clock / 3600, 2);
    PadReads(v, 11, clock / 60 % 60, 2);
    PadReads(v, 13, clock % 60, 2);
    DigitsJoin(v, 9, 2, 2);
    DigitsJoin(v, 9, 4, 2);
    ClockParts(clock);
  }

  lemma UtcReads(pl: Places, v: string, day: int, clock: int)
    requires |v| == 16 && v[15] == 'Z' && DateAt(v) == Some(day) && ClockAt(v) == Some(clock)
    ensures ParseTime(pl, v, map[]) == Some(Moment(day * 86400 + clock, false, UTC))
  {
    assert ParamOf(map[], "VALUE") == "";
  }

  /** A printed stamp reads back as the second it was printed from. */
  lemma StampReads(pl: Places, second: int)
    requires FourDigitYear(second)
    ensures ParseTime(pl, Stamp(second), map[]) == Some(Moment(second, false, UTC))
  {
    var v := Stamp(second);
    StampShape(second);
    DateReads(v, second / 86400);
    ClockReads(v, second % 86400);
    UtcReads(pl, v, second / 86400, second % 86400);
  }

  // ---- folding and unfolding -------------------------------------------------

  /** Joins a first line and its continuations, each without its leading blank. */
  function Rejoin(lines: seq<string>, n: nat): string
    requires n <= |lines| && forall i | 0 < i < |lines| :: lines[i] != ""
  {
    if n == 0 then "" else Rejoin(lines, n - 1) + if n == 1 then lines[0] else lines[n - 1][1..]
  }

  predicate Continues(lines: seq<string>) {
    forall i | 0 < i < |lines| :: lines[i] != "" && lines[i][0] == ' '
  }

  predicate Fits(lines: seq<string>) {
    forall i | 0 <= i < |lines| :: OneLine(lines[i]) && Octets(lines[i]) <= LIMIT
  }

  function Lines(f: Folding): seq<string> {
    f.broken + [f.last]
  }

  lemma {:induction false} RejoinPrefix(a: seq<string>, b: seq<string>, n: nat)
    requires n <= |a| && n <= |b| && a[..n] == b[..n] && Continues(a) && Continues(b)
    ensures Rejoin(a, n) == Rejoin(b, n)
  {
    if n > 0 {
      assert a[..n][..n - 1] == a[..n - 1] && b[..n][..n - 1] == b[..n - 1];
      assert a[n - 1] == a[..n][n - 1] && b[n - 1] == b[..n][n - 1];
      RejoinPrefix(a, b, n - 1);
    }
  }

  /** What folding keeps: the text, the limit, and the leading blanks. */
  lemma {:induction false} FoldKeeps(s: string, n: nat)
    requires n <= |s| && OneLine(s)
    ensures var lines := Lines(Fold(s, n));
      && Continues(lines) && Fits(lines) && Rejoin(lines, |lines|) == s[..n]
      && (n > 0 ==> lines[0] != "" && lines[0][0] == s[0])
  {
    if n > 0 {
      FoldKeeps(s, n - 1);
      var f, g := Fold(s, n - 1), Fold(s, n);
      assert s[..n] == s[..n - 1] + [s[n - 1]];
      if Breaks(s, n - 1) {
        assert n > 1 by {
          assert n == 1 ==> f.last == "" && Octets(f.last) == 0;
        }
        FoldBreaks(f, [' ', s[n - 1]], s[..n - 1], s[n - 1]);
      } else {
        OctetsMore(f.last, s[n - 1]);
        FoldGoesOn(f, s[..n - 1], s[n - 1]);
      }
    }
  }

  lemma FoldBreaks(f: Folding, next: string, text: string, c: char)
    requires next == [' ', c] && c != '\r' && c != '\n'
    requires Continues(Lines(f)) && Fits(Lines(f)) && Rejoin(Lines(f), |Lines(f)|) == text
    ensures var lines := Lines(f) + [next];
      Continues(lines) && Fits(lines) && Rejoin(lines, |lines|) == text + [c]
  {
    var lines := Lines(f) + [next];
    OctetsMore("", ' ');
    OctetsMore([' '], c);
    assert [' '] + [c] == next && "" + [' '] == [' '];
    RejoinPrefix(Lines(f), lines, |Lines(f)|);
    assert next[1..] == [c];
  }

  /** The last line, one rune longer. */
  lemma LongerFits(lines: seq<string>, c: char)
    requires lines != [] && Continues(lines) && Fits(lines) && c != '\r' && c != '\n'
    requires Octets(lines[|lines| - 1] + [c]) <= LIMIT
    ensures var more := lines[|lines| - 1 := lines[|lines| - 1] + [c]]; Continues(more) && Fits(more)
  {
  }

  lemma LongerText(lines: seq<string>, c: char)
    requires lines != [] && Continues(lines)
    ensures var more := lines[|lines| - 1 := lines[|lines| - 1] + [c]];
      Continues(more) && Rejoin(more, |more|) == Rejoin(lines, |lines|) + [c]
  {
    var n := |lines| - 1;
    var more := lines[n := lines[n] + [c]];
    assert more[..n] == lines[..n];
    RejoinPrefix(lines, more, n);
    if n > 0 {
      assert (lines[n] + [c])[1..] == lines[n][1..] + [c];
      Assoc(Rejoin(lines, n), lines[n][1..], [c]);
    }
  }

  lemma FoldGoesOn(f: Folding, text: string, c: char)
    requires c != '\r' && c != '\n' && Octets(f.last + [c]) <= LIMIT
    requires Continues(Lines(f)) && Fits(Lines(f)) && Rejoin(Lines(f), |Lines(f)|) == text
    ensures var lines := Lines(f.(last := f.last + [c]));
      Continues(lines) && Fits(lines) && Rejoin(lines, |lines|) == text + [c]
  {
    LongerFits(Lines(f), c);
    LongerText(Lines(f), c);
    assert Lines(f.(last := f.last + [c])) == Lines(f)[|f.broken| := f.last + [c]];
  }

  lemma {:induction false} ReplaceOneLine(text: string, l: string)
    requires OneLine(l)
    ensures ReplaceCrlf(text + l) == ReplaceCrlf(text) + l
  {
    if l == "" {
      assert text + l == text;
    } else {
      var n := |l| - 1;
      ReplaceOneLine(text, l[..n]);
      assert (text + l)[..|text + l| - 1] == text + l[..n];
      assert l == l[..n] + [l[n]];
    }
  }

  lemma ReplaceBreak(text: string)
    ensures ReplaceCrlf(text + CRLF) == ReplaceCrlf(text) + ['\n']
  {
    var t := text + CRLF;
    assert t[..|t| - 2] == text;
  }

  lemma {:induction false} SplitOneLine(text: string, l: string)
    requires OneLine(l)
    ensures var a, b := Split(text, '\n'), Split(text + l, '\n');
      b == a[..|a| - 1] + [a[|a| - 1] + l]
  {
    if l == "" {
      assert text + l == text;
      assert Split(text, '\n')[|Split(text, '\n')| - 1] + l == Split(text, '\n')[|Split(text, '\n')| - 1];
    } else {
      var n := |l| - 1;
      SplitOneLine(text, l[..n]);
      assert (text + l)[..|text + l| - 1] == text + l[..n];
      assert l == l[..n] + [l[n]];
      var a, b := Split(text, '\n'), Split(text + l[..n], '\n');
      var k := |a| - 1;
      assert b[..k] == a[..k] && b[k] == a[k] + l[..n];
      Assoc(a[k], l[..n], [l[n]]);
    }
  }

  lemma SplitBreak(text: string)
    ensures Split(text + ['\n'], '\n') == Split(text, '\n') + [""]
  {
    assert (text + ['\n'])[..|text|] == text;
  }

  /** Written lines come apart again, with nothing after the last break. */
  lemma {:induction false} TextSplits(lines: seq<string>)
    requires forall i | 0 <= i < |lines| :: OneLine(lines[i])
    ensures Split(ReplaceCrlf(TextOf(lines)), '\n') == lines + [""]
  {
    if lines != [] {
      var n := |lines| - 1;
      TextSplits(lines[..n]);
      TextSplitsMore(TextOf(lines[..n]), lines[..n], lines[n]);
      assert lines == lines[..n] + [lines[n]];
    }
  }

  /** One more written line is one more split line. */
  lemma TextSplitsMore(front: string, lines: seq<string>, l: string)
    requires OneLine(l) && Split(ReplaceCrlf(front), '\n') == lines + [""]
    ensures Split(ReplaceCrlf(front + l + CRLF), '\n') == lines + [l] + [""]
  {
    var r := ReplaceCrlf(front);
    ReplaceOneLine(front, l);
    ReplaceBreak(front + l);
    SplitOneLine(r, l);
    SplitBreak(r + l);
    assert (lines + [""])[..|lines|] == lines && "" + l == l;
  }

  /** A content line starts with a name, never with a blank. */
  predicate Starts(s: string) {
    s != "" && s[0] != ' ' && s[0] != '\t' && OneLine(s)
  }

  lemma JoinMore(a: seq<string>, l: string)
    ensures JoinAll(a + [l]) == JoinLine(JoinAll(a), l)
  {
    assert (a + [l])[..|a|] == a;
  }

  /** The physical lines of one content line join to it. */
  lemma {:induction false} JoinPhysical(a: seq<string>, lines: seq<string>, m: nat)
    requires 1 <= m <= |lines| && Continues(lines) && lines[0] != "" && lines[0][0] != ' ' && lines[0][0] != '\t'
    ensures JoinAll(a + lines[..m]) == Joining(JoinAll(a).Flushed(), Rejoin(lines, m), true)
  {
    if m == 1 {
      assert lines[..1] == [lines[0]];
      JoinMore(a, lines[0]);
      assert Rejoin(lines, 1) == Rejoin(lines, 0) + lines[0] == lines[0];
    } else {
      JoinPhysical(a, lines, m - 1);
      assert a + lines[..m] == (a + lines[..m - 1]) + [lines[m - 1]];
      JoinMore(a + lines[..m - 1], lines[m - 1]);
    }
  }

  lemma JoinContentLine(a: seq<string>, s: string)
    requires Starts(s)
    ensures JoinAll(a + Physical(s)) == Joining(JoinAll(a).Flushed(), s, true)
    ensures Fits(Physical(s))
  {
    FoldKeeps(s, |s|);
    var lines := Physical(s);
    JoinPhysical(a, lines, |lines|);
    assert lines[..|lines|] == lines && s[..|s|] == s;
  }

  /** A name the parser takes as it is. */
  predicate PlainName(name: string) {
    name != "" && forall i | 0 <= i < |name| :: ('A' <= name[i] <= 'Z') || name[i] == '-'
  }

  predicate Plain(p: Prop) {
    PlainName(p.name) && OneLine(p.value)
  }

  function PrintedAll(props: seq<Prop>): seq<string> {
    if props == [] then [] else PrintedAll(props[..|props| - 1]) + [props[|props| - 1].Printed()]
  }

  lemma FitsJoin(a: seq<string>, b: seq<string>)
    requires Fits(a) && Fits(b)
    ensures Fits(a + b)
  {
  }

  lemma {:induction false} ContentLinesJoin(props: seq<Prop>)
    requires forall i | 0 <= i < |props| :: Plain(props[i])
    ensures JoinAll(PhysicalLines(props)).Flushed() == PrintedAll(props)
    ensures Fits(PhysicalLines(props))
  {
    if props != [] {
      var n := |props| - 1;
      ContentLinesJoin(props[..n]);
      assert Plain(props[n]);
      JoinContentLine(PhysicalLines(props[..n]), props[n].Printed());
      FitsJoin(PhysicalLines(props[..n]), Physical(props[n].Printed()));
    }
  }

  /** Unfolding the text of content lines gives them back: none is lost, split, or started by a value. */
  lemma UnfoldFold(props: seq<Prop>)
    requires forall i | 0 <= i < |props| :: Plain(props[i])
    ensures Unfolded(TextOf(PhysicalLines(props))) == PrintedAll(props)
  {
    var lines := PhysicalLines(props);
    ContentLinesJoin(props);
    TextSplits(lines);
    JoinMore(lines, "");
  }

  // ---- the parser on a printed property --------------------------------------

  lemma {:induction false} ColonAfterName(name: string, value: string, i: nat)
    requires PlainName(name) && i <= |name|
    ensures Colon(name + [':'] + value, i, false) == |name|
    decreases |name| - i
  {
    if i < |name| {
      assert (name + [':'] + value)[i] == name[i];
      ColonAfterName(name, value, i + 1);
    }
  }

  lemma {:induction false} SplitPlain(s: string)
    requires forall i | 0 <= i < |s| :: s[i] != ';'
    ensures Split(s, ';') == [s]
  {
    if s != "" {
      SplitPlain(s[..|s| - 1]);
      assert s == s[..|s| - 1] + [s[|s| - 1]];
    }
  }

  lemma PrintedSplits(p: Prop)
    requires PlainName(p.name)
    ensures SplitLine(p.Printed()) == Line(p.name, map[], p.value)
  {
    var line := p.Printed();
    ColonAfterName(p.name, p.value, 0);
    assert line[..|p.name|] == p.name && line[|p.name| + 1..] == p.value;
    SplitPlain(p.name);
    assert Upper(p.name) == p.name;
  }

  /** The walk over printed properties. */
  function WalkProps(pl: Places, w: Walk, props: seq<Prop>): Walk {
    if props == [] then w
    else
      var p := props[|props| - 1];
      WalkLine(pl, WalkProps(pl, w, props[..|props| - 1]), Line(p.name, map[], p.value))
  }

  const NOTHING: Walk := Walk([], [], None)

  lemma {:induction false} WalkPrinted(pl: Places, props: seq<Prop>)
    requires forall i | 0 <= i < |props| :: Plain(props[i])
    ensures WalkAll(pl, PrintedAll(props)) == WalkProps(pl, NOTHING, props)
  {
    if props != [] {
      var n := |props| - 1;
      WalkPrinted(pl, props[..n]);
      assert Plain(props[n]);
      PrintedSplits(props[n]);
    }
  }

  lemma {:induction false} WalkJoin(pl: Places, w: Walk, a: seq<Prop>, b: seq<Prop>)
    ensures WalkProps(pl, w, a + b) == WalkProps(pl, WalkProps(pl, w, a), b)
  {
    if b == [] {
      assert a + b == a;
    } else {
      WalkJoin(pl, w, a, b[..|b| - 1]);
      assert (a + b)[..|a + b| - 1] == a + b[..|b| - 1];
    }
  }

  lemma WalkOne(pl: Places, w: Walk, p: Prop)
    ensures WalkProps(pl, w, [p]) == WalkLine(pl, w, Line(p.name, map[], p.value))
  {
    assert [p][..0] == [];
    assert WalkProps(pl, w, []) == w;
  }

  // ---- the events come back --------------------------------------------------

  /** Ids that fit on a line and four-digit years. */
  predicate Printable(e: Entry) {
    && OneLine(e.id)
    && FourDigitYear(SecondOf(e.startsAt))
    && (e.endsAt.Some? ==> FourDigitYear(SecondOf(e.endsAt.value)))
  }

  /** The event that was printed, as a parser should see it; without an end it ends at its start. */
  function ReadBack(e: Entry): IcsEvent {
    IcsEvent(e.id + "@stattii", UnixBreaks(e.title), "", SecondOf(e.startsAt),
             if e.endsAt.Some? then SecondOf(e.endsAt.value) else SecondOf(e.startsAt),
             false, "", [], [], 0, StatusText(e.status), UTC)
  }

  /** The start is not in the first second of year 1, which prints as the zero time. */
  predicate StartKept(e: Entry) {
    SecondOf(e.startsAt) != 0
  }

  /** Nor is the end. */
  predicate EndKept(e: Entry) {
    e.endsAt.Some? ==> SecondOf(e.endsAt.value) != 0
  }

  /** The event that comes back: an end that reads as the zero time gives way to the start. */
  function Returned(e: Entry): IcsEvent {
    if EndKept(e) then ReadBack(e) else ReadBack(e).(end := SecondOf(e.startsAt))
  }

  /** What one printed event adds. */
  function AfterEntry(w: Walk, e: Entry): Walk {
    if StartKept(e) then Walk(w.events + [Returned(e)], w.skipped, None)
    else Walk(w.events, w.skipped + [IcsSkipped(e.id + "@stattii", UnixBreaks(e.title), MissingUidOrStart)], None)
  }

  function AfterEntries(entries: seq<Entry>, n: nat): Walk
    requires n <= |entries|
  {
    if n == 0 then NOTHING else AfterEntry(AfterEntries(entries, n - 1), entries[n - 1])
  }

  /** The walk with this event open and nothing wrong in it. */
  function Opened(w: Walk, cur: IcsEvent): Walk {
    w.(cur := Some(Reading(cur, None)))
  }

  lemma WalkMore(pl: Places, w: Walk, props: seq<Prop>, p: Prop)
    ensures WalkProps(pl, w, props + [p]) == WalkLine(pl, WalkProps(pl, w, props), Line(p.name, map[], p.value))
  {
    assert (props + [p])[..|props|] == props;
  }

  lemma WalkOpening(pl: Places, w: Walk, uid: string, stamp: string, start: string, second: Instant)
    requires ParseTime(pl, start, map[]) == Some(Moment(second, false, UTC))
    ensures WalkProps(pl, w, [Prop("BEGIN", "VEVENT"), Prop("UID", uid), Prop("DTSTAMP", stamp), Prop("DTSTART", start)])
         == Opened(w, EMPTY_EVENT.(uid := uid, start := second))
  {
    var p := [Prop("BEGIN", "VEVENT")];
    WalkOne(pl, w, p[0]);
    WalkMore(pl, w, p, Prop("UID", uid));
    p := p + [Prop("UID", uid)];
    WalkMore(pl, w, p, Prop("DTSTAMP", stamp));
    p := p + [Prop("DTSTAMP", stamp)];
    WalkMore(pl, w, p, Prop("DTSTART", start));
    assert p + [Prop("DTSTART", start)] == [Prop("BEGIN", "VEVENT"), Prop("UID", uid), Prop("DTSTAMP", stamp), Prop("DTSTART", start)];
  }

  lemma WalkTimes(pl: Places, w: Walk, e: Entry, stamp: string)
    requires Printable(e)
    ensures WalkProps(pl, w, TimeProps(e.id + "@stattii", stamp, Stamp(SecondOf(e.startsAt)), EndStamp(e)))
         == Opened(w, EMPTY_EVENT.(uid := e.id + "@stattii", start := SecondOf(e.startsAt),
                                   end := if e.endsAt.Some? then SecondOf(e.endsAt.value) else 0))
  {
    var uid, start := e.id + "@stattii", Stamp(SecondOf(e.startsAt));
    var four := [Prop("BEGIN", "VEVENT"), Prop("UID", uid), Prop("DTSTAMP", stamp), Prop("DTSTART", start)];
    StampReads(pl, SecondOf(e.startsAt));
    WalkOpening(pl, w, uid, stamp, start, SecondOf(e.startsAt));
    if e.endsAt.Some? {
      StampReads(pl, SecondOf(e.endsAt.value));
      WalkMore(pl, w, four, Prop("DTEND", EndStamp(e).value));
    } else {
      assert four + [] == four;
    }
  }

  lemma WalkTitle(pl: Places, w: Walk, e: Entry, cur: IcsEvent)
    requires cur.uid != "" && !cur.allDay
    ensures var done := cur.(summary := UnixBreaks(e.title), status := StatusText(e.status));
      WalkProps(pl, Opened(w, cur), TitleProps(e))
      == if cur.start == 0 then Walk(w.events, w.skipped + [IcsSkipped(cur.uid, done.summary, MissingUidOrStart)], None)
         else Walk(w.events + [done.(end := if cur.end != 0 then cur.end else cur.start)], w.skipped, None)
  {
    var p := [Prop("SUMMARY", Escape(e.title))];
    UnescapeEscape(e.title);
    UpperStatus(e.status);
    WalkOne(pl, Opened(w, cur), p[0]);
    WalkMore(pl, Opened(w, cur), p, Prop("SEQUENCE", Itoa(e.seqNo)));
    p := p + [Prop("SEQUENCE", Itoa(e.seqNo))];
    WalkMore(pl, Opened(w, cur), p, Prop("STATUS", StatusText(e.status)));
    p := p + [Prop("STATUS", StatusText(e.status))];
    WalkMore(pl, Opened(w, cur), p, Prop("END", "VEVENT"));
    assert p + [Prop("END", "VEVENT")] == TitleProps(e);
  }

  lemma UpperStatus(s: Status)
    ensures Upper(StatusText(s)) == StatusText(s)
  {
  }

  lemma WalkEntry(pl: Places, w: Walk, e: Entry, now: Time)
    requires Printable(e)
    ensures WalkProps(pl, w, EntryProps(e, now)) == AfterEntry(w, e)
  {
    var uid := e.id + "@stattii";
    var stamp := Stamp(SecondOf(now));
    var cur := EMPTY_EVENT.(uid := uid, start := SecondOf(e.startsAt), end := if e.endsAt.Some? then SecondOf(e.endsAt.value) else 0);
    WalkTimes(pl, w, e, stamp);
    WalkTitle(pl, w, e, cur);
    WalkJoin(pl, w, TimeProps(uid, stamp, Stamp(SecondOf(e.startsAt)), EndStamp(e)), TitleProps(e));
  }

  /** The i-th list reads as the i-th event, wherever the walk stands. */
  ghost predicate ReadsAs(pl: Places, lists: seq<seq<Prop>>, entries: seq<Entry>, i: nat, w: Walk)
    requires |lists| == |entries|
  {
    i < |lists| ==> WalkProps(pl, w, lists[i]) == AfterEntry(w, entries[i])
  }

  lemma {:induction false} WalkEntries(pl: Places, lists: seq<seq<Prop>>, entries: seq<Entry>, n: nat)
    requires n <= |entries| == |lists|
    requires forall i: nat, w {:trigger ReadsAs(pl, lists, entries, i, w)} :: ReadsAs(pl, lists, entries, i, w)
    ensures WalkProps(pl, NOTHING, Flat(lists, n)) == AfterEntries(entries, n)
  {
    if n > 0 {
      WalkEntries(pl, lists, entries, n - 1);
      WalkJoin(pl, NOTHING, Flat(lists, n - 1), lists[n - 1]);
      assert ReadsAs(pl, lists, entries, n - 1, AfterEntries(entries, n - 1));
    }
  }

  lemma EntriesRead(pl: Places, entries: seq<Entry>, now: Time)
    requires forall i | 0 <= i < |entries| :: Printable(entries[i])
    ensures WalkProps(pl, NOTHING, Flat(EntryLists(entries, now), |entries|)) == AfterEntries(entries, |entries|)
  {
    var lists := EntryLists(entries, now);
    forall i: nat, w ensures ReadsAs(pl, lists, entries, i, w) {
      if i < |lists| {
        WalkEntry(pl, w, entries[i], now);
      }
    }
    WalkEntries(pl, lists, entries, |entries|);
  }

  lemma WalkHead(pl: Places, name: string)
    ensures WalkProps(pl, NOTHING, HeadProps(name)) == NOTHING
  {
    var p := [Prop("BEGIN", "VCALENDAR")];
    WalkOne(pl, NOTHING, p[0]);
    WalkMore(pl, NOTHING, p, Prop("VERSION", "2.0"));
    p := p + [Prop("VERSION", "2.0")];
    WalkMore(pl, NOTHING, p, Prop("PRODID", "-//stattii//stattii//EN"));
    p := p + [Prop("PRODID", "-//stattii//stattii//EN")];
    WalkMore(pl, NOTHING, p, Prop("CALSCALE", "GREGORIAN"));
    p := p + [Prop("CALSCALE", "GREGORIAN")];
    WalkMore(pl, NOTHING, p, Prop("X-WR-CALNAME", Escape(name)));
    if name == "" {
      assert p == HeadProps(name);
    } else {
      assert p + [Prop("X-WR-CALNAME", Escape(name))] == HeadProps(name);
    }
  }

  lemma EntryIsPlain(e: Entry, now: Time)
    requires OneLine(e.id)
    ensures forall i | 0 <= i < |EntryProps(e, now)| :: Plain(EntryProps(e, now)[i])
  {
    StampIsOneLine(SecondOf(now));
    StampIsOneLine(SecondOf(e.startsAt));
    if e.endsAt.Some? {
      StampIsOneLine(SecondOf(e.endsAt.value));
    }
    EscapeIsOneLine(e.title);
    ItoaIsOneLine(e.seqNo);
    TimesPlain(e.id, Stamp(SecondOf(now)), Stamp(SecondOf(e.startsAt)), EndStamp(e));
    TitlePlain(e);
  }

  lemma TimesPlain(id: string, stamp: string, start: string, end: Option<string>)
    requires OneLine(id) && OneLine(stamp) && OneLine(start) && (end.Some? ==> OneLine(end.value))
    ensures var props := TimeProps(id + "@stattii", stamp, start, end);
      forall i | 0 <= i < |props| :: Plain(props[i])
  {
    assert PlainName("BEGIN") && PlainName("UID") && PlainName("DTSTAMP") && PlainName("DTSTART") && PlainName("DTEND");
    assert OneLine("VEVENT") && OneLine(id + "@stattii");
  }

  lemma TitlePlain(e: Entry)
    requires OneLine(Escape(e.title)) && OneLine(Itoa(e.seqNo))
    ensures forall i | 0 <= i < |TitleProps(e)| :: Plain(TitleProps(e)[i])
  {
    assert PlainName("SUMMARY") && PlainName("SEQUENCE") && PlainName("STATUS") && PlainName("END");
    assert OneLine("VEVENT") && OneLine(StatusText(e.status));
  }

  predicate AllPlain(props: seq<Prop>) {
    forall i | 0 <= i < |props| :: Plain(props[i])
  }

  lemma {:induction false} ListsArePlain(lists: seq<seq<Prop>>, n: nat)
    requires n <= |lists| && forall i | 0 <= i < |lists| :: AllPlain(lists[i])
    ensures AllPlain(Flat(lists, n))
  {
    if n > 0 {
      ListsArePlain(lists, n - 1);
      assert AllPlain(lists[n - 1]);
    }
  }

  lemma EntriesArePlain(entries: seq<Entry>, now: Time)
    requires forall i | 0 <= i < |entries| :: OneLine(entries[i].id)
    ensures AllPlain(Flat(EntryLists(entries, now), |entries|))
  {
    var lists := EntryLists(entries, now);
    forall i | 0 <= i < |lists| ensures AllPlain(lists[i]) {
      EntryIsPlain(entries[i], now);
    }
    ListsArePlain(lists, |lists|);
  }

  lemma HeadNamesPlain()
    ensures PlainName("BEGIN") && PlainName("VERSION") && PlainName("PRODID") && PlainName("CALSCALE")
    ensures PlainName("X-WR-CALNAME") && PlainName("END")
  {
  }

  lemma HeadValuesPlain()
    ensures OneLine("VCALENDAR") && OneLine("2.0") && OneLine("-//stattii//stattii//EN") && OneLine("GREGORIAN")
  {
  }

  lemma HeadIsPlain(name: string)
    ensures AllPlain(HeadProps(name)) && Plain(FOOT)
  {
    EscapeIsOneLine(name);
    HeadNamesPlain();
    HeadValuesPlain();
  }

  lemma CalendarIsPlain(name: string, entries: seq<Entry>, now: Time)
    requires forall i | 0 <= i < |entries| :: OneLine(entries[i].id)
    ensures forall i | 0 <= i < |CalendarProps(name, entries, now)| :: Plain(CalendarProps(name, entries, now)[i])
  {
    HeadIsPlain(name);
    EntriesArePlain(entries, now);
  }

  /**
    Whatever the titles and the name hold, the feed unfolds to exactly its content lines, so no
    title starts one, and no physical line is longer than 74 octets.
  */
  lemma TitlesStayOnTheirLine(name: string, entries: seq<Entry>, now: Time)
    requires forall i | 0 <= i < |entries| :: OneLine(entries[i].id)
    ensures var props := CalendarProps(name, entries, now);
      && Unfolded(TextOf(PhysicalLines(props))) == PrintedAll(props)
      && (forall i | 0 <= i < |PhysicalLines(props)| :: Octets(PhysicalLines(props)[i]) <= 74 && OneLine(PhysicalLines(props)[i]))
  {
    CalendarIsPlain(name, entries, now);
    UnfoldFold(CalendarProps(name, entries, now));
    ContentLinesJoin(CalendarProps(name, entries, now));
  }

  /** Parsing the printed feed gives the events back, in order, under their ids. */
  lemma ParseFeed(pl: Places, name: string, entries: seq<Entry>, now: Time)
    requires forall i | 0 <= i < |entries| :: Printable(entries[i])
    ensures WalkAll(pl, Unfolded(TextOf(PhysicalLines(CalendarProps(name, entries, now))))) == AfterEntries(entries, |entries|)
  {
    var props := CalendarProps(name, entries, now);
    var body := Flat(EntryLists(entries, now), |entries|);
    CalendarIsPlain(name, entries, now);
    TitlesStayOnTheirLine(name, entries, now);
    WalkPrinted(pl, props);
    WalkHead(pl, name);
    EntriesRead(pl, entries, now);
    WalkJoin(pl, NOTHING, HeadProps(name), body);
    WalkMore(pl, NOTHING, HeadProps(name) + body, FOOT);
  }

  /** An end in the first second of year 1 is the only thing about an event with a start that changes. */
  lemma ReturnedIff(e: Entry)
    requires StartKept(e)
    ensures Returned(e) == ReadBack(e) <==> EndKept(e)
    ensures Returned(e).(end := ReadBack(e).end) == ReadBack(e)
  {
  }

  /** All the events come back as they are. */
  ghost predicate ComesBack(entries: seq<Entry>, n: nat, events: seq<IcsEvent>)
    requires n <= |entries|
  {
    |events| == n && forall i | 0 <= i < n :: events[i] == ReadBack(entries[i])
  }

  /**
    Nothing is skipped exactly when every start is kept, and every event comes back as it is
    exactly when every start and every end is kept.
  */
  lemma {:induction false} EveryEventReadBack(entries: seq<Entry>, n: nat)
    requires n <= |entries|
    ensures var w := AfterEntries(entries, n);
      && |w.events| + |w.skipped| == n && w.cur.None?
      && (w.skipped == [] <==> forall i | 0 <= i < n :: StartKept(entries[i]))
      && (w.skipped == [] ==> forall i | 0 <= i < n :: w.events[i] == Returned(entries[i]))
      && (ComesBack(entries, n, w.events) <==> forall i | 0 <= i < n :: StartKept(entries[i]) && EndKept(entries[i]))
  {
    if n > 0 {
      var w := AfterEntries(entries, n - 1);
      EveryEventReadBack(entries, n - 1);
      if w.skipped == [] && StartKept(entries[n - 1]) {
        ReturnedIff(entries[n - 1]);
        ComesBackMore(entries, n - 1, w.events);
      }
    }
  }

  lemma ComesBackMore(entries: seq<Entry>, n: nat, events: seq<IcsEvent>)
    requires n < |entries| && |events| == n && StartKept(entries[n])
    ensures ComesBack(entries, n + 1, events + [Returned(entries[n])]) <==> ComesBack(entries, n, events) && EndKept(entries[n])
  {
    var all := events + [Returned(entries[n])];
    ReturnedIff(entries[n]);
    if ComesBack(entries, n + 1, all) {
      forall i | 0 <= i < n ensures events[i] == ReadBack(entries[i]) {
        assert all[i] == events[i];
      }
      assert all[n] == Returned(entries[n]);
    }
  }

  /** Printing and parsing undo each other, up to starts and ends in the first second of year 1. */
  method FeedThenParse(pl: Places, name: string, entries: seq<Entry>, now: Time) returns (events: seq<IcsEvent>, skipped: seq<IcsSkipped>)
    requires forall i | 0 <= i < |entries| :: Printable(entries[i])
    ensures |events| + |skipped| == |entries|
    ensures skipped == [] <==> forall i | 0 <= i < |entries| :: StartKept(entries[i])
    ensures skipped == [] ==> forall i | 0 <= i < |entries| :: events[i] == Returned(entries[i])
    ensures ComesBack(entries, |entries|, events) <==> forall i | 0 <= i < |entries| :: StartKept(entries[i]) && EndKept(entries[i])
  {
    var raw := Feed(name, entries, now);
    events, skipped := Parse(pl, raw);
    ParseFeed(pl, name, entries, now);
    EveryEventReadBack(entries, |entries|);
  }

  // ---- the two inputs that do not come back ----------------------------------

  const SECOND: Time := 1_000_000_000

  /** An event that starts one nanosecond into year 1. */
  const FIRST_SECOND_START: Entry := Entry("event", "first light", 1, None, 0, Scheduled)

  /** An event of the second day of year 1 that ends one nanosecond into the year, before it starts. */
  const FIRST_SECOND_END: Entry := Entry("event", "first light", 86400 * SECOND, Some(1), 0, Scheduled)

  lemma EarlyYear(day: int)
    requires 0 <= day < 365
    ensures YearOf(day) == 1
  {
    YearLength(1);
    assert DaysBeforeYear(1) == 0 && DaysBeforeYear(2) == 365;
    var y := YearOf(day);
    if y < 1 {
      YearsGrow(y + 1, 1);
    } else if y > 1 {
      YearsGrow(2, y);
    }
  }

  lemma PlainPrintable(e: Entry)
    requires e == FIRST_SECOND_START || e == FIRST_SECOND_END
    ensures Printable(e)
  {
    EarlyYear(0);
    EarlyYear(1);
  }

  /** A calendar of one event. */
  lemma AloneInFeed(pl: Places, name: string, e: Entry, now: Time)
    requires Printable(e)
    ensures WalkAll(pl, Unfolded(TextOf(PhysicalLines(CalendarProps(name, [e], now))))) == AfterEntry(NOTHING, e)
  {
    ParseFeed(pl, name, [e], now);
    assert AfterEntries([e], 0) == NOTHING;
  }

  /** A start in the first second of year 1 is listed as missing, although the event has one. */
  lemma FirstSecondStartIsSkipped(pl: Places, name: string, now: Time)
    ensures var e := FIRST_SECOND_START;
      var w := WalkAll(pl, Unfolded(TextOf(PhysicalLines(CalendarProps(name, [e], now)))));
      w.events == [] && w.skipped == [IcsSkipped(e.id + "@stattii", UnixBreaks(e.title), MissingUidOrStart)]
  {
    PlainPrintable(FIRST_SECOND_START);
    AloneInFeed(pl, name, FIRST_SECOND_START, now);
  }

  lemma AfterFirstSecondEnd()
    ensures var w := AfterEntry(NOTHING, FIRST_SECOND_END);
      && w.skipped == [] && |w.events| == 1
      && w.events[0].end == w.events[0].start == 86400 && ReadBack(FIRST_SECOND_END).end == 0
  {
    assert SecondOf(FIRST_SECOND_END.startsAt) == 86400 && SecondOf(1) == 0;
  }

  /** An end there comes back as the start. */
  lemma FirstSecondEndIsLost(pl: Places, name: string, now: Time)
    ensures var e := FIRST_SECOND_END;
      var w := WalkAll(pl, Unfolded(TextOf(PhysicalLines(CalendarProps(name, [e], now)))));
      && w.skipped == [] && |w.events| == 1
      && w.events[0].end == w.events[0].start == 86400 && ReadBack(e).end == 0
  {
    PlainPrintable(FIRST_SECOND_END);
    AloneInFeed(pl, name, FIRST_SECOND_END, now);
    AfterFirstSecondEnd();
  }
}
