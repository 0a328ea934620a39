/**
  The key under which an occurrence is stored (occurrenceKey in internal/icsimport/expand.go):
  one text for each uid and original start, and for no other.
*/
module OccurrenceKeys {
  import opened Civil
  import opened Recurrence
  import opened FeedExpansion
  import opened IcsText
  import opened IcsParse
  import opened IcsRoundTrip

  // ---- the key ---------------------------------------------------------------

  /** An instant as RFC 3339 writes it in UTC, behind the year. */
  function AfterYear(second: Instant): string {
    var day, clock := second / 86400, second % 86400;
    ['-'] + Pad(MonthOf(day), 2) + ['-'] + Pad(DayOf(day), 2)
    + ['T'] + Pad(clock / 3600, 2) + [':'] + Pad(clock / 60 % 60, 2) + [':'] + Pad(clock % 60, 2) + ['Z']
  }

  function Rfc3339(second: Instant): string {
    YearText(YearOf(second / 86400)) + AfterYear(second)
  }

  /** The uid and the original start, joined by a slash. */
  function KeyText(k: Key): string {
    k.uid + ['/'] + Rfc3339(k.original)
  }

  predicate NoSlash(s: string) {
    forall i | 0 <= i < |s| :: s[i] != '/'
  }

  lemma {:induction false} PadNoSlash(n: nat, k: nat)
    ensures NoSlash(Pad(n, k))
  {
    if k > 0 {
      PadNoSlash(n / 10, k - 1);
    }
  }

  lemma {:induction false} ItoaNoSlash(n: nat)
    ensures NoSlash(Itoa(n))
  {
    if n >= 10 {
      ItoaNoSlash(n / 10);
    }
  }

  lemma StampNoSlash(second: Instant)
    ensures NoSlash(Rfc3339(second))
  {
    var day, clock := second / 86400, second % 86400;
    var y := YearOf(day);
    var n: nat := if y < 0 then -y else y;
    PadNoSlash(n, 4);
    ItoaNoSlash(n);
    assert NoSlash(YearText(y));
    PadNoSlash(MonthOf(day), 2);
    PadNoSlash(DayOf(day), 2);
    PadNoSlash(clock / 3600, 2);
    PadNoSlash(clock / 60 % 60, 2);
    PadNoSlash(clock % 60, 2);
  }

  /** Two texts that end in slash-free parts behind a slash agree in both parts. */
  lemma CutAtLastSlash(a: string, x: string, b: string, y: string)
    requires NoSlash(x) && NoSlash(y) && a + ['/'] + x == b + ['/'] + y
    ensures a == b && x == y
  {
    var t := a + ['/'] + x;
    assert t[|a|] == '/' && t[|b|] == '/' by {
      assert (b + ['/'] + y)[|b|] == '/';
    }
    assert |a| == |b|;
    assert t[..|a|] == a && t[|a| + 1..] == x;
    assert (b + ['/'] + y)[..|b|] == b && (b + ['/'] + y)[|b| + 1..] == y;
  }

  // ---- the stamp is one-to-one -----------------------------------------------

  lemma {:induction false} PadTells(n: nat, m: nat, k: nat)
    requires n < Pow10(k) && m < Pow10(k) && Pad(n, k) == Pad(m, k)
    ensures n == m
  {
    PadReads(Pad(n, k), 0, n, k);
    PadReads(Pad(m, k), 0, m, k);
  }

  lemma PadTells2(n: nat, m: nat)
    requires n < 100 && m < 100 && Pad(n, 2) == Pad(m, 2)
    ensures n == m
  {
    assert Pow10(1) == 10 && Pow10(2) == 100;
    PadTells(n, m, 2);
  }

  lemma {:induction false} NumberPrefix(s: string, t: string, n: nat)
    requires Digits(s, 0, n) && n <= |t| && s[..n] == t[..n]
    ensures Digits(t, 0, n) && Number(s, 0, n) == Number(t, 0, n)
  {
    forall i | 0 <= i < n ensures t[i] == s[i] {
      assert s[..n][i] == t[..n][i];
    }
    if n > 0 {
      assert s[..n - 1] == s[..n][..n - 1] == t[..n][..n - 1] == t[..n - 1];
      NumberPrefix(s, t, n - 1);
    }
  }

  lemma {:induction false} ItoaReads(n: nat)
    ensures Digits(Itoa(n), 0, |Itoa(n)|) && Number(Itoa(n), 0, |Itoa(n)|) == n
    ensures n >= 10 ==> |Itoa(n)| == |Itoa(n / 10)| + 1
  {
    if n >= 10 {
      var front := Itoa(n / 10);
      ItoaReads(n / 10);
      NumberPrefix(front, Itoa(n), |front|);
      assert Itoa(n) == front + [DigitChar(n % 10)];
    }
  }

  lemma LongYear(n: nat)
    requires n > 9999
    ensures |Itoa(n)| >= 5
  {
    ItoaReads(n);
    ItoaReads(n / 10);
    ItoaReads(n / 10 / 10);
    ItoaReads(n / 10 / 10 / 10);
    assert n / 10 / 10 / 10 >= 10;
  }

  function YearDigits(n: nat): string {
    if n <= 9999 then Pad(n, 4) else Itoa(n)
  }

  lemma DigitsTell(n: nat, m: nat)
    requires YearDigits(n) == YearDigits(m)
    ensures n == m
  {
    assert Pow10(1) == 10 && Pow10(2) == 100 && Pow10(3) == 1000 && Pow10(4) == 10000;
    if n <= 9999 && m <= 9999 {
      PadTells(n, m, 4);
    } else if n > 9999 && m > 9999 {
      ItoaReads(n);
      ItoaReads(m);
    } else {
      LongYear(if n > 9999 then n else m);
    }
  }

  lemma YearStartsWithDigit(n: nat)
    ensures YearDigits(n) != "" && YearDigits(n)[0] != '-'
  {
    if n <= 9999 {
      assert Pow10(1) == 10 && Pow10(2) == 100 && Pow10(3) == 1000 && Pow10(4) == 10000;
      PadReads(Pad(n, 4), 0, n, 4);
    } else {
      ItoaReads(n);
      LongYear(n);
    }
  }

  lemma YearTells(y: int, z: int)
    requires YearText(y) == YearText(z)
    ensures y == z
  {
    var n: nat := if y < 0 then -y else y;
    var m: nat := if z < 0 then -z else z;
    assert YearText(y) == if y < 0 then ['-'] + YearDigits(n) else YearDigits(n);
    assert YearText(z) == if z < 0 then ['-'] + YearDigits(m) else YearDigits(m);
    YearStartsWithDigit(n);
    YearStartsWithDigit(m);
    assert (y < 0) == (z < 0);
    if y < 0 {
      assert (['-'] + YearDigits(n))[1..] == YearDigits(n) && (['-'] + YearDigits(m))[1..] == YearDigits(m);
    }
    DigitsTell(n, m);
  }

  lemma TailParts(m: string, d: string, h: string, mi: string, s: string)
    requires |m| == |d| == |h| == |mi| == |s| == 2
    ensures var v := ['-'] + m + ['-'] + d + ['T'] + h + [':'] + mi + [':'] + s + ['Z'];
      |v| == 16 && v[1..3] == m && v[4..6] == d && v[7..9] == h && v[10..12] == mi && v[13..15] == s
  {
  }

  lemma TailShape(second: Instant)
    ensures var v := AfterYear(second);
      var day, clock := second / 86400, second % 86400;
      && |v| == 16 && v[1..3] == Pad(MonthOf(day), 2) && v[4..6] == Pad(DayOf(day), 2)
      && v[7..9] == Pad(clock / 3600, 2) && v[10..12] == Pad(clock / 60 % 60, 2) && v[13..15] == Pad(clock % 60, 2)
  {
    var day, clock := second / 86400, second % 86400;
    TailParts(Pad(MonthOf(day), 2), Pad(DayOf(day), 2), Pad(clock / 3600, 2), Pad(clock / 60 % 60, 2), Pad(clock % 60, 2));
  }

  lemma ClockTells(a: nat, b: nat)
    requires a < 86400 && b < 86400
    requires Pad(a / 3600, 2) == Pad(b / 3600, 2) && Pad(a / 60 % 60, 2) == Pad(b / 60 % 60, 2) && Pad(a % 60, 2) == Pad(b % 60, 2)
    ensures a == b
  {
    ClockParts(a);
    ClockParts(b);
    PadTells2(a / 3600, b / 3600);
    PadTells2(a / 60 % 60, b / 60 % 60);
    PadTells2(a % 60, b % 60);
  }

  lemma DayTells(a: int, b: int)
    requires YearText(YearOf(a)) == YearText(YearOf(b))
    requires Pad(MonthOf(a), 2) == Pad(MonthOf(b), 2) && Pad(DayOf(a), 2) == Pad(DayOf(b), 2)
    ensures a == b
  {
    YearTells(YearOf(a), YearOf(b));
    PadTells2(MonthOf(a), MonthOf(b));
    PadTells2(DayOf(a), DayOf(b));
    DateRoundTrip(a);
    DateRoundTrip(b);
  }

  lemma StampTells(a: Instant, b: Instant)
    requires Rfc3339(a) == Rfc3339(b)
    ensures a == b
  {
    var s, t := Rfc3339(a), Rfc3339(b);
    var x, y := YearText(YearOf(a / 86400)), YearText(YearOf(b / 86400));
    TailShape(a);
    TailShape(b);
    assert |x| == |y|;
    assert s[..|x|] == x && t[..|y|] == y && s[|x|..] == AfterYear(a) && t[|y|..] == AfterYear(b);
    DayTells(a / 86400, b / 86400);
    ClockTells(a % 86400, b % 86400);
  }

  /** The text names the uid and the original start, whatever the uid holds. */
  lemma KeyTells(k: Key, l: Key)
    requires KeyText(k) == KeyText(l)
    ensures k == l
  {
    StampNoSlash(k.original);
    StampNoSlash(l.original);
    CutAtLastSlash(k.uid, Rfc3339(k.original), l.uid, Rfc3339(l.original));
    StampTells(k.original, l.original);
  }
}
