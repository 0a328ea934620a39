/**
  Showing channels without their credentials and writing an edited list back
  (internal/core/redact.go, PatchChannels in internal/core/people.go). How a target is cut
  down to scheme and host, and how text is trimmed, are library behaviour: parameters.
*/
module Redaction {
  import opened Options
  import opened Core
  import opened Seqs

  const MARK: string := "[redacted]"

  predicate PartAt(s: string, part: string, i: nat) {
    i + |part| <= |s| && s[i..i + |part|] == part
  }

  predicate Contains(s: string, part: string) {
    exists i: nat | i <= |s| :: PartAt(s, part, i)
  }

  /** A target as every view shows it: cut, and marked when anything was dropped. */
  function ShownTarget(raw: string, redact: string -> string): string {
    var out := redact(raw);
    if out != MARK && out != raw && out + "/" != raw then out + "/" + MARK else out
  }

  function ShownAddress(a: Address, redact: string -> string): Address {
    if a.kind == "webhook" then Address(a.kind, ShownTarget(a.to, redact)) else a
  }

  function Shown(channels: seq<Address>, redact: string -> string): (r: seq<Address>)
    ensures |r| == |channels| && forall i | 0 <= i < |r| :: r[i] == ShownAddress(channels[i], redact)
  {
    seq(|channels|, i requires 0 <= i < |channels| => ShownAddress(channels[i], redact))
  }

  method ShownChannels(channels: seq<Address>, redact: string -> string) returns (out: seq<Address>)
    ensures out == Shown(channels, redact)
  {
    out := [];
    for i := 0 to |channels|
      invariant out == Shown(channels[..i], redact)
    {
      var to := if channels[i].kind == "webhook" then ShownTarget(channels[i].to, redact) else channels[i].to;
      out := out + [Address(channels[i].kind, to)];
    }
    assert channels[..|channels|] == channels;
  }

  /** An outbox row as a view shows it. */
  function ShownRow(o: Item, redact: string -> string): Item {
    o.(to := ShownAddress(Address(o.kind, o.to), redact).to)
  }

  function ShownRows(rows: seq<Item>, redact: string -> string): (r: seq<Item>)
    ensures |r| == |rows| && forall i | 0 <= i < |r| :: r[i] == ShownRow(rows[i], redact)
  {
    seq(|rows|, i requires 0 <= i < |rows| => ShownRow(rows[i], redact))
  }

  method ShowRows(rows: seq<Item>, redact: string -> string) returns (out: seq<Item>)
    ensures out == ShownRows(rows, redact)
  {
    out := [];
    for i := 0 to |rows|
      invariant |out| == i && forall j | 0 <= j < i :: out[j] == ShownRow(rows[j], redact)
    {
      out := out + [ShownRow(rows[i], redact)];
    }
  }

  /** The in-place cut of a view's own copies. */
  method ShowInPlace(items: array<Address>, redact: string -> string)
    modifies items
    ensures items[..] == Shown(old(items[..]), redact)
  {
    for i := 0 to items.Length
      invariant forall j | 0 <= j < i :: items[j] == ShownAddress(old(items[j]), redact)
      invariant forall j | i <= j < items.Length :: items[j] == old(items[j])
    {
      items[i] := ShownAddress(items[i], redact);
    }
  }

  /** A display that stands for a hidden target. */
  predicate Marked(a: Address) {
    a.kind == "webhook" && Contains(a.to, MARK)
  }

  // ---- the two-slot edit -----------------------------------------------------

  /** The target of the first channel of this kind. */
  function FirstOf(channels: seq<Address>, kind: string): string {
    if channels == [] then ""
    else if channels[0].kind == kind then channels[0].to
    else FirstOf(channels[1..], kind)
  }

  /** Everything outside the first e-mail and the first telegram channel. */
  function Others(channels: seq<Address>, email: bool, telegram: bool): seq<Address> {
    if channels == [] then []
    else if channels[0].kind == "email" && !email then Others(channels[1..], true, telegram)
    else if channels[0].kind == "telegram" && !telegram then Others(channels[1..], email, true)
    else [channels[0]] + Others(channels[1..], email, telegram)
  }

  function Slot(channels: seq<Address>, kind: string, edit: Option<string>, trim: string -> string): seq<Address> {
    var to := if edit.Some? then trim(edit.value) else FirstOf(channels, kind);
    if to == "" then [] else [Address(kind, to)]
  }

  function Patched(channels: seq<Address>, email: Option<string>, telegram: Option<string>, trim: string -> string): seq<Address> {
    Slot(channels, "email", email, trim) + Slot(channels, "telegram", telegram, trim) + Others(channels, false, false)
  }

  /** The first target so far, once one was seen. */
  function FirstFrom(channels: seq<Address>, kind: string, seen: bool, to: string): string {
    if seen then to else FirstOf(channels, kind)
  }

  /** The two slots' targets and the rest, in one pass over the list. */
  method SplitSlots(existing: seq<Address>) returns (emailTo: string, tgTo: string, others: seq<Address>)
    ensures emailTo == FirstOf(existing, "email") && tgTo == FirstOf(existing, "telegram")
    ensures others == Others(existing, false, false)
  {
    emailTo, tgTo := "", "";
    others := [];
    var seenEmail, seenTelegram := false, false;
    var i := 0;
    assert existing[0..] == existing;
    while i < |existing|
      invariant 0 <= i <= |existing|
      invariant FirstOf(existing, "email") == FirstFrom(existing[i..], "email", seenEmail, emailTo)
      invariant FirstOf(existing, "telegram") == FirstFrom(existing[i..], "telegram", seenTelegram, tgTo)
      invariant Others(existing, false, false) == others + Others(existing[i..], seenEmail, seenTelegram)
      invariant (!seenEmail ==> emailTo == "") && (!seenTelegram ==> tgTo == "")
    {
      var ch := existing[i];
      var rest := existing[i..];
      assert rest[1..] == existing[i + 1..] && rest[0] == ch;
      if ch.kind == "email" && !seenEmail {
        seenEmail, emailTo := true, ch.to;
      } else if ch.kind == "telegram" && !seenTelegram {
        seenTelegram, tgTo := true, ch.to;
      } else {
        Assoc(others, [ch], Others(rest[1..], seenEmail, seenTelegram));
        others := others + [ch];
      }
      i := i + 1;
    }
    assert existing[i..] == [] && others + [] == others;
  }

  method PatchChannels(existing: seq<Address>, email: Option<string>, telegram: Option<string>, trim: string -> string) returns (out: seq<Address>)
    ensures out == Patched(existing, email, telegram, trim)
  {
    var emailTo, tgTo, others := SplitSlots(existing);
    if email.Some? {
      emailTo := trim(email.value);
    }
    if telegram.Some? {
      tgTo := trim(telegram.value);
    }
    out := [];
    if emailTo != "" {
      out := out + [Address("email", emailTo)];
    }
    if tgTo != "" {
      out := out + [Address("telegram", tgTo)];
    }
    out := out + others;
  }

  // ---- restoring -------------------------------------------------------------

  /** The stored webhook targets with this display, in order. */
  function TargetsOf(stored: seq<Address>, display: string, redact: string -> string): seq<string> {
    if stored == [] then []
    else
      (if stored[0].kind == "webhook" && ShownTarget(stored[0].to, redact) == display then [stored[0].to] else [])
      + TargetsOf(stored[1..], display, redact)
  }

  function PoolAt(pool: map<string, seq<string>>, display: string): seq<string> {
    if display in pool then pool[display] else []
  }

  /** Each marked display takes the next stored target it stands for. */
  function Restored(pool: map<string, seq<string>>, incoming: seq<Address>): Option<seq<Address>>
    decreases |incoming|
  {
    if incoming == [] then Some([])
    else
      var ch := incoming[0];
      if !Marked(ch) then
        var rest := Restored(pool, incoming[1..]);
        if rest.None? then None else Some([ch] + rest.value)
      else if PoolAt(pool, ch.to) == [] then None
      else
        var vals := pool[ch.to];
        var rest := Restored(pool[ch.to := vals[1..]], incoming[1..]);
        if rest.None? then None else Some([Address(ch.kind, vals[0])] + rest.value)
  }

  /** The pool holds exactly the stored targets, by display. */
  ghost predicate Pools(pool: map<string, seq<string>>, stored: seq<Address>, redact: string -> string) {
    forall display :: PoolAt(pool, display) == TargetsOf(stored, display, redact)
  }

  lemma {:induction false} TargetsMore(stored: seq<Address>, ch: Address, display: string, redact: string -> string)
    ensures TargetsOf(stored + [ch], display, redact) == TargetsOf(stored, display, redact) + TargetsOf([ch], display, redact)
  {
    if stored != [] {
      assert (stored + [ch])[1..] == stored[1..] + [ch];
      TargetsMore(stored[1..], ch, display, redact);
    } else {
      assert stored + [ch] == [ch];
    }
  }

  lemma TargetsOne(ch: Address, display: string, redact: string -> string)
    ensures TargetsOf([ch], display, redact) == if ch.kind == "webhook" && ShownTarget(ch.to, redact) == display then [ch.to] else []
  {
    assert [ch][1..] == [];
  }

  /** The stored targets by display. */
  function PoolOf(stored: seq<Address>, redact: string -> string): map<string, seq<string>> {
    if stored == [] then map[]
    else
      var pool := PoolOf(stored[..|stored| - 1], redact);
      var ch := stored[|stored| - 1];
      var d := ShownTarget(ch.to, redact);
      if ch.kind == "webhook" then pool[d := PoolAt(pool, d) + [ch.to]] else pool
  }

  lemma {:induction false} PoolOfPools(stored: seq<Address>, redact: string -> string)
    ensures Pools(PoolOf(stored, redact), stored, redact)
  {
    if stored != [] {
      var n := |stored| - 1;
      PoolOfPools(stored[..n], redact);
      assert stored == stored[..n] + [stored[n]];
      forall display ensures PoolAt(PoolOf(stored, redact), display) == TargetsOf(stored, display, redact) {
        TargetsMore(stored[..n], stored[n], display, redact);
        TargetsOne(stored[n], display, redact);
        assert PoolAt(PoolOf(stored[..n], redact), display) == TargetsOf(stored[..n], display, redact);
      }
    }
  }

  method BuildPool(stored: seq<Address>, redact: string -> string) returns (pool: map<string, seq<string>>)
    ensures pool == PoolOf(stored, redact)
  {
    pool := map[];
    for i := 0 to |stored|
      invariant pool == PoolOf(stored[..i], redact)
    {
      assert stored[..i + 1][..i] == stored[..i];
      var ch := stored[i];
      if ch.kind == "webhook" {
        var d := ShownTarget(ch.to, redact);
        pool := pool[d := PoolAt(pool, d) + [ch.to]];
      }
    }
    assert stored[..|stored|] == stored;
  }

  /** Puts a stored webhook target back where a write carries its display; refuses a display that stands for none. */
  method RestoreShown(stored: seq<Address>, incoming: seq<Address>, redact: string -> string) returns (r: Option<seq<Address>>)
    ensures r == Restored(PoolOf(stored, redact), incoming)
  {
    var pool := BuildPool(stored, redact);
    ghost var whole := Restored(pool, incoming);
    var out: seq<Address> := [];
    var i := 0;
    assert incoming[0..] == incoming;
    assert whole == Before([], whole) by { NothingBefore(whole); }
    while i < |incoming|
      invariant 0 <= i <= |incoming|
      invariant whole == Before(out, Restored(pool, incoming[i..]))
    {
      var ch := incoming[i];
      assert incoming[i..][1..] == incoming[i + 1..];
      if Marked(ch) {
        var vals := PoolAt(pool, ch.to);
        if |vals| == 0 {
          return None;
        }
        BeforeMore(out, Address(ch.kind, vals[0]), Restored(pool[ch.to := vals[1..]], incoming[i + 1..]));
        pool := pool[ch.to := vals[1..]];
        ch := Address(ch.kind, vals[0]);
      } else {
        BeforeMore(out, ch, Restored(pool, incoming[i + 1..]));
      }
      out := out + [ch];
      i := i + 1;
    }
    assert incoming[i..] == [] && out + [] == out;
    r := Some(out);
  }

  /** What was restored already, before the rest. */
  function Before(out: seq<Address>, rest: Option<seq<Address>>): Option<seq<Address>> {
    if rest.None? then None else Some(out + rest.value)
  }

  lemma NothingBefore(rest: Option<seq<Address>>)
    ensures Before([], rest) == rest
  {
    if rest.Some? {
      assert [] + rest.value == rest.value;
    }
  }

  lemma BeforeMore(out: seq<Address>, a: Address, rest: Option<seq<Address>>)
    ensures Before(out + [a], rest) == Before(out, if rest.None? then None else Some([a] + rest.value))
  {
    if rest.Some? {
      assert (out + [a]) + rest.value == out + ([a] + rest.value);
    }
  }

  // ---- the round trip --------------------------------------------------------

  /** What a stored channel is after being shown and written back. */
  function WrittenBack(a: Address, redact: string -> string): Address {
    if a.kind == "webhook" && !Marked(ShownAddress(a, redact)) then ShownAddress(a, redact) else a
  }

  function AllWrittenBack(channels: seq<Address>, redact: string -> string): (r: seq<Address>)
    ensures |r| == |channels| && forall i | 0 <= i < |r| :: r[i] == WrittenBack(channels[i], redact)
  {
    seq(|channels|, i requires 0 <= i < |channels| => WrittenBack(channels[i], redact))
  }

  lemma MarkedAtEnd(s: string)
    ensures Contains(s + "/" + MARK, MARK)
  {
    var t := s + "/" + MARK;
    assert PartAt(t, MARK, |s| + 1);
  }

  lemma MarkIsMarked()
    ensures Contains(MARK, MARK)
  {
    assert PartAt(MARK, MARK, 0);
  }

  /** A webhook comes back exactly, or without one trailing slash when its display was not marked. */
  lemma WrittenBackIs(a: Address, redact: string -> string)
    ensures var b := WrittenBack(a, redact);
      && b.kind == a.kind
      && (b.to == a.to || (b.to + "/" == a.to && !Marked(ShownAddress(a, redact))))
      && (Marked(ShownAddress(a, redact)) || a.kind != "webhook" ==> b == a)
  {
    MarkedAtEnd(redact(a.to));
    MarkIsMarked();
  }

  /** Shown channels in stored order restore to the stored ones. */
  lemma {:induction false} RestoresShown(pool: map<string, seq<string>>, channels: seq<Address>, redact: string -> string)
    requires Pools(pool, channels, redact)
    ensures Restored(pool, Shown(channels, redact)) == Some(AllWrittenBack(channels, redact))
    decreases |channels|
  {
    var shown := Shown(channels, redact);
    if channels != [] {
      var a, rest := channels[0], channels[1..];
      var d := ShownTarget(a.to, redact);
      assert shown[1..] == Shown(rest, redact);
      assert AllWrittenBack(channels, redact) == [WrittenBack(a, redact)] + AllWrittenBack(rest, redact);
      if Marked(shown[0]) {
        assert PoolAt(pool, d) == TargetsOf(channels, d, redact) == [a.to] + TargetsOf(rest, d, redact);
        var next := pool[d := pool[d][1..]];
        forall display ensures PoolAt(next, display) == TargetsOf(rest, display, redact) {
          assert PoolAt(pool, display) == TargetsOf(channels, display, redact);
        }
        RestoresShown(next, rest, redact);
      } else {
        UnmarkedRestores(pool, channels, redact);
      }
    }
  }

  /** The pool without the targets nobody asks for. */
  lemma UnmarkedRestores(pool: map<string, seq<string>>, channels: seq<Address>, redact: string -> string)
    requires channels != [] && Pools(pool, channels, redact) && !Marked(ShownAddress(channels[0], redact))
    ensures Restored(pool, Shown(channels, redact)) == Some(AllWrittenBack(channels, redact))
    decreases |channels|, 0
  {
    var a, rest := channels[0], channels[1..];
    var d := ShownTarget(a.to, redact);
    assert PoolAt(pool, d) == TargetsOf(channels, d, redact);
    assert a.kind == "webhook" ==> TargetsOf(channels, d, redact) == [a.to] + TargetsOf(rest, d, redact);
    var next := if a.kind == "webhook" then pool[d := pool[d][1..]] else pool;
    forall display ensures PoolAt(next, display) == TargetsOf(rest, display, redact) {
      assert PoolAt(pool, display) == TargetsOf(channels, display, redact);
    }
    RestoresShown(next, rest, redact);
    UnaskedPool(pool, next, Shown(rest, redact), d);
    assert Shown(channels, redact)[1..] == Shown(rest, redact);
    assert AllWrittenBack(channels, redact) == [WrittenBack(a, redact)] + AllWrittenBack(rest, redact);
  }

  /** Pools that differ only under a display that is not marked restore alike. */
  lemma {:induction false} UnaskedPool(a: map<string, seq<string>>, b: map<string, seq<string>>, incoming: seq<Address>, d: string)
    requires forall display | display != d || Contains(d, MARK) :: PoolAt(a, display) == PoolAt(b, display)
    ensures Restored(a, incoming) == Restored(b, incoming)
    decreases |incoming|
  {
    if incoming != [] {
      var ch := incoming[0];
      if !Marked(ch) {
        UnaskedPool(a, b, incoming[1..], d);
      } else if PoolAt(a, ch.to) != [] {
        assert PoolAt(b, ch.to) == PoolAt(a, ch.to);
        var vals := a[ch.to];
        var c, e := a[ch.to := vals[1..]], b[ch.to := vals[1..]];
        forall display | display != d || Contains(d, MARK) ensures PoolAt(c, display) == PoolAt(e, display) {
          assert PoolAt(a, display) == PoolAt(b, display);
        }
        UnaskedPool(c, e, incoming[1..], d);
      }
    }
  }

  /** Slots hold no webhook, so the pool serves the others exactly. */
  lemma {:induction false} OthersShown(channels: seq<Address>, email: bool, telegram: bool, redact: string -> string)
    ensures Others(Shown(channels, redact), email, telegram) == Shown(Others(channels, email, telegram), redact)
    decreases |channels|
  {
    if channels != [] {
      var a, rest := channels[0], channels[1..];
      assert Shown(channels, redact)[1..] == Shown(rest, redact);
      if a.kind == "email" && !email {
        OthersShown(rest, true, telegram, redact);
      } else if a.kind == "telegram" && !telegram {
        OthersShown(rest, email, true, redact);
      } else {
        OthersShown(rest, email, telegram, redact);
        assert Shown([a] + Others(rest, email, telegram), redact) == [ShownAddress(a, redact)] + Shown(Others(rest, email, telegram), redact);
      }
    }
  }

  lemma {:induction false} OthersTargets(channels: seq<Address>, email: bool, telegram: bool, display: string, redact: string -> string)
    ensures TargetsOf(Others(channels, email, telegram), display, redact) == TargetsOf(channels, display, redact)
    decreases |channels|
  {
    if channels != [] {
      var a, rest := channels[0], channels[1..];
      if a.kind == "email" && !email {
        OthersTargets(rest, true, telegram, display, redact);
      } else if a.kind == "telegram" && !telegram {
        OthersTargets(rest, email, true, display, redact);
      } else {
        OthersTargets(rest, email, telegram, display, redact);
        assert ([a] + Others(rest, email, telegram))[1..] == Others(rest, email, telegram);
      }
    }
  }

  lemma {:induction false} FirstShown(channels: seq<Address>, kind: string, redact: string -> string)
    requires kind != "webhook"
    ensures FirstOf(Shown(channels, redact), kind) == FirstOf(channels, kind)
    decreases |channels|
  {
    if channels != [] {
      assert Shown(channels, redact)[1..] == Shown(channels[1..], redact);
      FirstShown(channels[1..], kind, redact);
    }
  }

  lemma SlotRestores(pool: map<string, seq<string>>, slot: seq<Address>, incoming: seq<Address>)
    requires |slot| <= 1 && forall i | 0 <= i < |slot| :: slot[i].kind != "webhook"
    ensures Restored(pool, slot + incoming) == Before(slot, Restored(pool, incoming))
  {
    if slot == [] {
      assert slot + incoming == incoming;
      NothingBefore(Restored(pool, incoming));
    } else {
      assert slot == [slot[0]] && (slot + incoming)[1..] == incoming && (slot + incoming)[0] == slot[0];
    }
  }

  /** Patching a shown list patches the stored one's slots and shows its others. */
  lemma PatchedShown(stored: seq<Address>, email: Option<string>, telegram: Option<string>, redact: string -> string, trim: string -> string)
    ensures Patched(Shown(stored, redact), email, telegram, trim)
         == Slot(stored, "email", email, trim) + (Slot(stored, "telegram", telegram, trim) + Shown(Others(stored, false, false), redact))
  {
    SlotShown(stored, "email", email, redact, trim);
    SlotShown(stored, "telegram", telegram, redact, trim);
    OthersShown(stored, false, false, redact);
    Assoc(Slot(stored, "email", email, trim), Slot(stored, "telegram", telegram, trim), Shown(Others(stored, false, false), redact));
  }

  lemma SlotShown(stored: seq<Address>, kind: string, edit: Option<string>, redact: string -> string, trim: string -> string)
    requires kind != "webhook"
    ensures Slot(Shown(stored, redact), kind, edit, trim) == Slot(stored, kind, edit, trim)
  {
    FirstShown(stored, kind, redact);
  }

  lemma OthersPool(pool: map<string, seq<string>>, stored: seq<Address>, redact: string -> string)
    requires Pools(pool, stored, redact)
    ensures Pools(pool, Others(stored, false, false), redact)
  {
    forall display ensures PoolAt(pool, display) == TargetsOf(Others(stored, false, false), display, redact) {
      OthersTargets(stored, false, false, display, redact);
      assert PoolAt(pool, display) == TargetsOf(stored, display, redact);
    }
  }

  /**
    Showing a person's channels, editing the two slots and writing the list back never fails:
    every channel outside the slots comes back in order, marked webhooks exactly.
  */
  lemma EditKeepsTheOthers(stored: seq<Address>, email: Option<string>, telegram: Option<string>, redact: string -> string, trim: string -> string)
    ensures Restored(PoolOf(stored, redact), Patched(Shown(stored, redact), email, telegram, trim))
         == Some(Slot(stored, "email", email, trim) + (Slot(stored, "telegram", telegram, trim)
                 + AllWrittenBack(Others(stored, false, false), redact)))
  {
    var pool := PoolOf(stored, redact);
    var others := Others(stored, false, false);
    var e, t := Slot(stored, "email", email, trim), Slot(stored, "telegram", telegram, trim);
    PoolOfPools(stored, redact);
    PatchedShown(stored, email, telegram, redact, trim);
    OthersPool(pool, stored, redact);
    RestoresShown(pool, others, redact);
    SlotRestores(pool, t, Shown(others, redact));
    SlotRestores(pool, e, t + Shown(others, redact));
  }

  /** The whole trip: view, edit, write. */
  method EditChannels(stored: seq<Address>, email: Option<string>, telegram: Option<string>, redact: string -> string, trim: string -> string)
    returns (r: Option<seq<Address>>)
    ensures r == Some(Slot(stored, "email", email, trim) + (Slot(stored, "telegram", telegram, trim)
                      + AllWrittenBack(Others(stored, false, false), redact)))
  {
    var shown := ShownChannels(stored, redact);
    var edited := PatchChannels(shown, email, telegram, trim);
    r := RestoreShown(stored, edited, redact);
    EditKeepsTheOthers(stored, email, telegram, redact, trim);
  }

  /** A marked display that stands for no stored target is refused. */
  lemma {:induction false} StrangerRefused(pool: map<string, seq<string>>, incoming: seq<Address>, i: nat)
    requires i < |incoming| && Marked(incoming[i])
    requires PoolAt(pool, incoming[i].to) == []
    ensures Restored(pool, incoming) == None
    decreases i
  {
    if i > 0 {
      var ch := incoming[0];
      if !Marked(ch) {
        StrangerRefused(pool, incoming[1..], i - 1);
      } else if PoolAt(pool, ch.to) != [] {
        StrangerRefused(pool[ch.to := pool[ch.to][1..]], incoming[1..], i - 1);
      }
    }
  }
}
