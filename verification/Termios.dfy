/** Conversion between `struct termios` and the record `Unix.terminal_io`
    (src/unix/unix_c/unix_termios_conversion.c), driven by a flat table of words that both
    directions interpret. */
module Termios {

  // Operations, speeds and flag words, as the table numbers them.
  const BOOL := 0
  const ENUM := 1
  const SPEED := 2
  const CHAR := 3
  const END := 4
  const INPUT := 0
  const OUTPUT := 1
  const DEFAULT_BAUD := 9600

  /** A flag word, as the set of the positions of its one bits. */
  type Flags = set<nat>

  /** A word of the table: a number, or a pattern for a flag word. */
  datatype Word = Num(n: int) | Bits(b: Flags)

  /** What a run of words of the table means. */
  datatype Entry =
    | BoolAt(field: nat, mask: Flags)
    | EnumAt(field: nat, ofs: int, mask: Flags, values: seq<Flags>)
    | SpeedOf(direction: nat)
    | CharAt(which: nat)

  datatype Rate = Rate(speed: nat, baud: int)

  /** The table of speeds, and the speeds that `cfsetospeed` and `cfsetispeed` do not accept. */
  datatype Speeds = Speeds(rates: seq<Rate>, refused: set<nat>)

  /** A value of `struct termios`; `flags` holds the input, output, control and local modes. */
  datatype Status = Status(flags: seq<Flags>, ispeed: nat, ospeed: nat, cc: seq<int>)

  datatype Code = Done | Einval | Failed

  function Words(e: Entry): (r: seq<Word>) {
    match e
    case BoolAt(field, mask) => [Num(BOOL), Num(field), Bits(mask)]
    case EnumAt(field, ofs, mask, values) =>
      [Num(ENUM), Num(field), Num(ofs), Num(|values|), Bits(mask)] +
      seq(|values|, i requires 0 <= i < |values| => Bits(values[i]))
    case SpeedOf(direction) => [Num(SPEED), Num(direction)]
    case CharAt(which) => [Num(CHAR), Num(which)]
  }

  /** The table that describes `es`. */
  function Flatten(es: seq<Entry>): (r: seq<Word>) {
    if es == [] then [Num(END)] else Words(es[0]) + Flatten(es[1..])
  }

  /** The first position of `x`, or the length. */
  function IndexOf<X(==)>(s: seq<X>, x: X): (i: nat)
    ensures i <= |s| && (i < |s| ==> s[i] == x) && (forall j :: 0 <= j < i ==> s[j] != x)
  {
    if s == [] || s[0] == x then 0 else 1 + IndexOf(s[1..], x)
  }

  function Take(w: Flags, mask: Flags): Flags { w * mask }

  function Raise(w: Flags, mask: Flags): Flags { w + mask }

  function Lower(w: Flags, mask: Flags): Flags { w - mask }

  function Put(w: Flags, mask: Flags, v: Flags): Flags { (w - mask) + v }

  function RateSpeeds(rates: seq<Rate>): (r: seq<nat>)
    ensures |r| == |rates| && forall i :: 0 <= i < |r| ==> r[i] == rates[i].speed
  {
    seq(|rates|, i requires 0 <= i < |rates| => rates[i].speed)
  }

  function RateBauds(rates: seq<Rate>): (r: seq<int>)
    ensures |r| == |rates| && forall i :: 0 <= i < |r| ==> r[i] == rates[i].baud
  {
    seq(|rates|, i requires 0 <= i < |rates| => rates[i].baud)
  }

  // ------------------------------------------------------------------------------------------
  // Meaning of one entry
  // ------------------------------------------------------------------------------------------

  /** The part of a status that an entry covers. */
  datatype Slot = Pattern(b: Flags) | Line(speed: nat) | Cell(c: int)

  /** The entry names parts of the status that exist. */
  ghost predicate Fits(e: Entry, t: Status) {
    match e
    case BoolAt(field, _) => field < 4 && |t.flags| == 4
    case EnumAt(field, _, _, _) => field < 4 && |t.flags| == 4
    case SpeedOf(direction) => direction == INPUT || direction == OUTPUT
    case CharAt(which) => which < |t.cc|
  }

  ghost predicate AllFit(es: seq<Entry>, t: Status) {
    forall i :: 0 <= i < |es| ==> Fits(es[i], t)
  }

  ghost function SlotOf(e: Entry, t: Status): Slot
    requires Fits(e, t)
  {
    match e
    case BoolAt(field, mask) => Pattern(Take(t.flags[field], mask))
    case EnumAt(field, _, mask, _) => Pattern(Take(t.flags[field], mask))
    case SpeedOf(direction) => Line(if direction == OUTPUT then t.ospeed else t.ispeed)
    case CharAt(which) => Cell(t.cc[which])
  }

  /** What encoding one entry stores over `old`. */
  ghost function Encoded(e: Entry, t: Status, sp: Speeds, was: int): int
    requires Fits(e, t)
  {
    match e
    case BoolAt(field, mask) => if Take(t.flags[field], mask) != {} then 1 else 0
    case EnumAt(field, ofs, mask, values) =>
      var i := IndexOf(values, Take(t.flags[field], mask));
      if i < |values| then i + ofs else was
    case SpeedOf(direction) =>
      var i := IndexOf(RateSpeeds(sp.rates), if direction == OUTPUT then t.ospeed else t.ispeed);
      if i < |sp.rates| then sp.rates[i].baud else DEFAULT_BAUD
    case CharAt(which) => t.cc[which]
  }

  /** What decoding one value makes of the status. */
  ghost function Decoded(e: Entry, t: Status, sp: Speeds, v: int): (r: (Status, Code))
    requires Fits(e, t)
    ensures |r.0.flags| == |t.flags| && |r.0.cc| == |t.cc|
  {
    match e
    case BoolAt(field, mask) =>
      var w := t.flags[field];
      (t.(flags := t.flags[field := if v != 0 then Raise(w, mask) else Lower(w, mask)]), Done)
    case EnumAt(field, ofs, mask, values) =>
      var i := v - ofs;
      if 0 <= i < |values| then (t.(flags := t.flags[field := Put(t.flags[field], mask, values[i])]), Done)
      else (t, Einval)
    case SpeedOf(direction) =>
      var i := IndexOf(RateBauds(sp.rates), v);
      if i == |sp.rates| then (t, Einval)
      else if sp.rates[i].speed in sp.refused then (t, Failed)
      else if direction == OUTPUT then (t.(ospeed := sp.rates[i].speed), Done)
      else (t.(ispeed := sp.rates[i].speed), Done)
    case CharAt(which) => (t.(cc := t.cc[which := v % 256]), Done)
  }

  // ------------------------------------------------------------------------------------------
  // Meaning of a table
  // ------------------------------------------------------------------------------------------

  ghost function EncodeAll(es: seq<Entry>, t: Status, sp: Speeds, dst: seq<int>): (r: seq<int>)
    requires |dst| == |es| && AllFit(es, t)
    ensures |r| == |es| && forall i :: 0 <= i < |r| ==> r[i] == Encoded(es[i], t, sp, dst[i])
  {
    seq(|es|, i requires 0 <= i < |es| => Encoded(es[i], t, sp, dst[i]))
  }

  /** The first value that cannot be decoded ends the work; what was decoded before stays. */
  ghost function DecodeAll(es: seq<Entry>, t: Status, sp: Speeds, src: seq<int>): (r: (Status, Code))
    requires |src| == |es| && AllFit(es, t)
    ensures |r.0.flags| == |t.flags| && |r.0.cc| == |t.cc|
  {
    if es == [] then (t, Done)
    else
      var r := Decoded(es[0], t, sp, src[0]);
      if r.1 == Done then DecodeAll(es[1..], r.0, sp, src[1..]) else r
  }

  // ------------------------------------------------------------------------------------------
  // The two interpreters
  // ------------------------------------------------------------------------------------------

  class Terminal {
    var flags: seq<Flags>
    var ispeed: nat
    var ospeed: nat
    var cc: seq<int>

    ghost function View(): Status
      reads this
    {
      Status(flags, ispeed, ospeed, cc)
    }

    constructor (flags: seq<Flags>, ispeed: nat, ospeed: nat, cc: seq<int>)
      ensures View() == Status(flags, ispeed, ospeed, cc)
    {
      this.flags, this.ispeed, this.ospeed, this.cc := flags, ispeed, ospeed, cc;
    }

    method EncodeSpeed(direction: nat, sp: Speeds) returns (baud: int)
      requires direction == INPUT || direction == OUTPUT
      ensures forall was :: baud == Encoded(SpeedOf(direction), View(), sp, was)
    {
      var i := FindSpeed(sp.rates, if direction == OUTPUT then ospeed else ispeed);
      baud := DEFAULT_BAUD;
      if i < |sp.rates| {
        baud := sp.rates[i].baud;
      }
    }

    method EncodeEnum(table: seq<Word>, start: nat, was: int, ghost e: Entry) returns (v: int)
      requires e.EnumAt? && start > 0 && Holds(table, start - 1, e) && Fits(e, View())
      ensures forall sp :: v == Encoded(e, View(), sp, was)
    {
      Layout(table, start - 1, e);
      hide Holds, Words, Take, IndexOf;
      var pc := start;
      var w, ofs, num, msk := flags[table[pc].n], table[pc + 1].n, table[pc + 2].n, table[pc + 3].b;
      pc := pc + 4;
      v := was;
      var i := FindPattern(table, pc, num, Take(w, msk), e.values);
      if i < num {
        v := i + ofs;
      }
    }

    /** One turn of the loop of `encode_terminal_status`, for a destination that holds `was`. */
    method EncodeEntry(table: seq<Word>, start: nat, sp: Speeds, was: int, ghost e: Entry) returns (pc: nat, v: int)
      requires Holds(table, start, e) && Fits(e, View())
      ensures pc == start + |Words(e)| && v == Encoded(e, View(), sp, was)
    {
      Layout(table, start, e);
      hide Holds, Words, Take, Put, Raise, Lower, IndexOf;
      var op := table[start].n;
      pc, v := start + 1, was;
      if op == BOOL {
        v := if Take(flags[table[pc].n], table[pc + 1].b) != {} then 1 else 0;
        pc := pc + 2;
      } else if op == ENUM {
        v := EncodeEnum(table, pc, was, e);
        pc := pc + 4 + table[pc + 2].n;
      } else if op == SPEED {
        v := EncodeSpeed(table[pc].n, sp);
        pc := pc + 1;
      } else {
        v := cc[table[pc].n];
        pc := pc + 1;
      }
    }

    /** `encode_terminal_status`: reads the table word by word and fills the record `dst`. */
    method Encode(table: seq<Word>, sp: Speeds, dst: array<int>, ghost es: seq<Entry>)
      requires table == Flatten(es) && dst.Length == |es| && AllFit(es, View())
      modifies dst
      ensures dst[..] == EncodeAll(es, View(), sp, old(dst[..]))
    {
      ghost var was, t := dst[..], View();
      var pc: nat, d: nat := 0, 0;
      TableStart(es);
      hide Flatten, Words, Holds, Encoded;
      while table[pc] != Num(END)
        invariant At(table, pc, es, d)
        invariant forall k :: 0 <= k < d ==> dst[k] == Encoded(es[k], t, sp, was[k])
        invariant forall k :: d <= k < |es| ==> dst[k] == was[k]
        decreases |es| - d
      {
        EntryAt(table, pc, es, d);
        pc, dst[d] := EncodeEntry(table, pc, sp, dst[d], es[d]);
        d := d + 1;
      }
      TableEnd(table, pc, es, d);
    }

    method DecodeSpeed(direction: nat, sp: Speeds, baud: int) returns (code: Code)
      requires direction == INPUT || direction == OUTPUT
      modifies this
      ensures (View(), code) == Decoded(SpeedOf(direction), old(View()), sp, baud)
    {
      code := Done;
      var i := FindBaud(sp.rates, baud);
      if i == |sp.rates| {
        code := Einval;
      } else if sp.rates[i].speed in sp.refused {
        code := Failed;
      } else if direction == OUTPUT {
        ospeed := sp.rates[i].speed;
      } else {
        ispeed := sp.rates[i].speed;
      }
    }

    /** One turn of the loop of `decode_terminal_status`. */
    method DecodeEntry(table: seq<Word>, start: nat, sp: Speeds, v: int, ghost e: Entry) returns (pc: nat, code: Code)
      requires Holds(table, start, e) && Fits(e, View())
      modifies this
      ensures code == Done ==> pc == start + |Words(e)|
      ensures (View(), code) == Decoded(e, old(View()), sp, v)
    {
      Layout(table, start, e);
      hide Holds, Words, Take, Put, Raise, Lower, IndexOf;
      var op := table[start].n;
      pc, code := start + 1, Done;
      if op == BOOL {
        var f, msk := table[pc].n, table[pc + 1].b;
        pc := pc + 2;
        flags := flags[f := if v != 0 then Raise(flags[f], msk) else Lower(flags[f], msk)];
      } else if op == ENUM {
        var f, ofs, num, msk := table[pc].n, table[pc + 1].n, table[pc + 2].n, table[pc + 3].b;
        pc := pc + 4;
        var i := v - ofs;
        if 0 <= i < num {
          flags := flags[f := Put(flags[f], msk, table[pc + i].b)];
        } else {
          return pc, Einval;
        }
        pc := pc + num;
      } else if op == SPEED {
        var which := table[pc].n;
        pc := pc + 1;
        code := DecodeSpeed(which, sp, v);
      } else {
        cc := cc[table[pc].n := v % 256];
        pc := pc + 1;
      }
    }

    /** `decode_terminal_status`: sets the parts of the status that the table covers. */
    method Decode(table: seq<Word>, sp: Speeds, src: seq<int>, ghost es: seq<Entry>) returns (code: Code)
      requires table == Flatten(es) && |src| == |es| && AllFit(es, View())
      modifies this
      ensures (View(), code) == DecodeAll(es, old(View()), sp, src)
    {
      ghost var t := View();
      var pc: nat, d: nat := 0, 0;
      TableStart(es);
      assert es[0..] == es && src[0..] == src;
      hide Flatten, Words, Holds, Decoded;
      while table[pc] != Num(END)
        invariant At(table, pc, es, d) && AllFit(es, View())
        invariant DecodeAll(es[d..], View(), sp, src[d..]) == DecodeAll(es, t, sp, src)
        decreases |es| - d
      {
        EntryAt(table, pc, es, d);
        assert src[d..][0] == src[d] && src[d..][1..] == src[d + 1..];
        assert es[d..][0] == es[d] && es[d..][1..] == es[d + 1..];
        ghost var now := View();
        pc, code := DecodeEntry(table, pc, sp, src[d], es[d]);
        if code != Done {
          return;
        }
        d := d + 1;
      }
      TableEnd(table, pc, es, d);
      code := Done;
    }
  }

  method FindPattern(table: seq<Word>, pc: nat, num: int, x: Flags, ghost values: seq<Flags>) returns (i: nat)
    requires num == |values| && pc + num <= |table|
    requires forall k :: pc <= k < pc + num ==> table[k] == Bits(values[k - pc])
    ensures i == IndexOf(values, x)
  {
    i := 0;
    while i < num && table[pc + i].b != x
      invariant i <= num && forall k :: 0 <= k < i ==> values[k] != x
      decreases num - i
    {
      i := i + 1;
    }
  }

  method FindSpeed(rates: seq<Rate>, speed: nat) returns (i: nat)
    ensures i == IndexOf(RateSpeeds(rates), speed)
  {
    i := 0;
    while i < |rates| && rates[i].speed != speed
      invariant i <= |rates| && forall k :: 0 <= k < i ==> rates[k].speed != speed
    {
      i := i + 1;
    }
  }

  method FindBaud(rates: seq<Rate>, baud: int) returns (i: nat)
    ensures i == IndexOf(RateBauds(rates), baud)
  {
    i := 0;
    while i < |rates| && rates[i].baud != baud
      invariant i <= |rates| && forall k :: 0 <= k < i ==> rates[k].baud != baud
    {
      i := i + 1;
    }
  }

  /** The interpreter stands before entry `d`. */
  ghost predicate At(table: seq<Word>, pc: nat, es: seq<Entry>, d: nat) {
    pc < |table| && d <= |es| && table[pc..] == Flatten(es[d..])
  }

  lemma TableStart(es: seq<Entry>)
    ensures At(Flatten(es), 0, es, 0)
  {
    assert es[0..] == es && Flatten(es)[0..] == Flatten(es);
  }

  lemma TableEnd(table: seq<Word>, pc: nat, es: seq<Entry>, d: nat)
    requires At(table, pc, es, d) && table[pc] == Num(END)
    ensures d == |es| && es[d..] == []
  {
    assert table[pc] == table[pc..][0];
  }

  /** The words of `e` stand at `pc`. */
  ghost predicate Holds(table: seq<Word>, pc: nat, e: Entry) {
    var ws := Words(e);
    pc + |ws| < |table| && forall k :: pc <= k < pc + |ws| ==> table[k] == ws[k - pc]
  }

  lemma Layout(table: seq<Word>, pc: nat, e: Entry)
    requires Holds(table, pc, e)
    ensures pc + |Words(e)| < |table|
    ensures match e
            case BoolAt(f, m) =>
              |Words(e)| == 3 && table[pc] == Num(BOOL) && table[pc + 1] == Num(f) && table[pc + 2] == Bits(m)
            case EnumAt(f, ofs, m, values) =>
              && |Words(e)| == 5 + |values| && table[pc] == Num(ENUM) && table[pc + 1] == Num(f)
              && table[pc + 2] == Num(ofs) && table[pc + 3] == Num(|values|) && table[pc + 4] == Bits(m)
              && forall k :: pc + 5 <= k < pc + 5 + |values| ==> table[k] == Bits(values[k - (pc + 5)])
            case SpeedOf(direction) => |Words(e)| == 2 && table[pc] == Num(SPEED) && table[pc + 1] == Num(direction)
            case CharAt(which) => |Words(e)| == 2 && table[pc] == Num(CHAR) && table[pc + 1] == Num(which)
  {
  }

  lemma EntryAt(table: seq<Word>, pc: nat, es: seq<Entry>, d: nat)
    requires At(table, pc, es, d) && table[pc] != Num(END)
    ensures d < |es| && Holds(table, pc, es[d]) && At(table, pc + |Words(es[d])|, es, d + 1)
  {
    assert table[pc] == table[pc..][0];
    var ws := Words(es[d]);
    assert es[d..][0] == es[d] && es[d..][1..] == es[d + 1..];
    assert table[pc..] == ws + Flatten(es[d + 1..]);
    assert |Flatten(es[d + 1..])| > 0;
    assert table[pc + |ws|..] == table[pc..][|ws|..];
    forall k | pc <= k < pc + |ws| ensures table[k] == ws[k - pc] {
      assert table[k] == table[pc..][k - pc];
    }
  }

  // ------------------------------------------------------------------------------------------
  // Round trips
  // ------------------------------------------------------------------------------------------

  /** The entry loses nothing: a flag is one bit, and an enumeration names every pattern under its
      mask once and nothing else. */
  ghost predicate Faithful(e: Entry) {
    match e
    case BoolAt(_, mask) => exists b :: mask == {b}
    case EnumAt(_, _, mask, values) =>
      && (forall w: Flags :: Take(w, mask) in values)
      && (forall i :: 0 <= i < |values| ==> Take(values[i], mask) == values[i])
      && (forall i, k :: 0 <= i < k < |values| ==> values[i] != values[k])
    case SpeedOf(_) => true
    case CharAt(_) => true
  }

  ghost predicate Injective(rates: seq<Rate>) {
    forall i, k :: 0 <= i < k < |rates| ==> rates[i].speed != rates[k].speed && rates[i].baud != rates[k].baud
  }

  ghost function MaskIn(e: Entry, field: nat): Flags {
    match e
    case BoolAt(f, m) => if f == field then m else {}
    case EnumAt(f, _, m, _) => if f == field then m else {}
    case SpeedOf(_) => {}
    case CharAt(_) => {}
  }

  /** The entries cover different parts. */
  ghost predicate Apart(a: Entry, b: Entry) {
    && (forall field :: Take(MaskIn(a, field), MaskIn(b, field)) == {})
    && (a.SpeedOf? && b.SpeedOf? ==> a.direction != b.direction)
    && (a.CharAt? && b.CharAt? ==> a.which != b.which)
  }

  ghost predicate AllFaithful(es: seq<Entry>) {
    forall i :: 0 <= i < |es| ==> Faithful(es[i])
  }

  ghost predicate AllApart(es: seq<Entry>) {
    forall i, k :: 0 <= i < k < |es| ==> Apart(es[i], es[k])
  }

  /** A value that decoding takes. */
  ghost predicate Accepted(e: Entry, v: int, sp: Speeds) {
    match e
    case BoolAt(_, _) => true
    case EnumAt(_, ofs, _, values) => 0 <= v - ofs < |values|
    case SpeedOf(_) =>
      var i := IndexOf(RateBauds(sp.rates), v);
      i < |sp.rates| && sp.rates[i].speed !in sp.refused
    case CharAt(_) => true
  }

  /** What is in the slot of an entry after decoding an accepted value. */
  ghost function Written(e: Entry, v: int, sp: Speeds): Slot
    requires Accepted(e, v, sp)
  {
    match e
    case BoolAt(_, mask) => Pattern(if v != 0 then mask else {})
    case EnumAt(_, ofs, _, values) => Pattern(values[v - ofs])
    case SpeedOf(_) => Line(sp.rates[IndexOf(RateBauds(sp.rates), v)].speed)
    case CharAt(_) => Cell(v % 256)
  }

  /** The value that reading back an accepted value gives: flags become 0 or 1, characters bytes. */
  function Canonical(e: Entry, v: int): int {
    match e
    case BoolAt(_, _) => if v != 0 then 1 else 0
    case EnumAt(_, _, _, _) => v
    case SpeedOf(_) => v
    case CharAt(_) => v % 256
  }

  /** A speed that the table lists and the system accepts. */
  ghost predicate Restorable(e: Entry, t: Status, sp: Speeds) {
    e.SpeedOf? ==>
      var s := if e.direction == OUTPUT then t.ospeed else t.ispeed;
      s !in sp.refused && s in RateSpeeds(sp.rates)
  }

  ghost predicate Bytes(t: Status) {
    forall i :: 0 <= i < |t.cc| ==> 0 <= t.cc[i] < 256
  }

  // Facts about flag words.

  lemma PutFacts(w: Flags, mask: Flags, v: Flags)
    requires Take(v, mask) == v
    ensures Take(Put(w, mask, v), mask) == v && Lower(Put(w, mask, v), mask) == Lower(w, mask)
  {
  }

  lemma RaiseFacts(w: Flags, mask: Flags)
    ensures Take(Raise(w, mask), mask) == mask && Lower(Raise(w, mask), mask) == Lower(w, mask)
  {
  }

  lemma LowerFacts(w: Flags, mask: Flags)
    ensures Take(Lower(w, mask), mask) == {} && Lower(Lower(w, mask), mask) == Lower(w, mask)
  {
  }

  /** Two words that differ under one mask only agree under any disjoint mask. */
  lemma OtherBits(w: Flags, w': Flags, mask: Flags, other: Flags)
    requires Lower(w', mask) == Lower(w, mask) && Take(mask, other) == {}
    ensures Take(w', other) == Take(w, other)
  {
    forall b ensures b in Take(w', other) <==> b in Take(w, other) {
      assert b in other ==> b !in mask by {
        assert b in other && b in mask ==> b in Take(mask, other);
      }
      assert b in Lower(w', mask) <==> b in Lower(w, mask);
    }
  }

  // One entry: reading back what was written, and writing back what was read.

  lemma FirstIndex<X>(s: seq<X>, x: X, i: nat)
    requires i < |s| && s[i] == x && forall j :: 0 <= j < i ==> s[j] != x
    ensures IndexOf(s, x) == i
  {
  }

  lemma BoolDecoded(e: Entry, t: Status, sp: Speeds, v: int)
    requires e.BoolAt? && Fits(e, t)
    ensures
      var t' := Decoded(e, t, sp, v).0;
      && Fits(e, t') && SlotOf(e, t') == Written(e, v, sp)
      && Lower(t'.flags[e.field], e.mask) == Lower(t.flags[e.field], e.mask)
  {
    RaiseFacts(t.flags[e.field], e.mask);
    LowerFacts(t.flags[e.field], e.mask);
    hide Take, Raise, Lower;
  }

  lemma EnumDecoded(e: Entry, t: Status, sp: Speeds, v: int)
    requires e.EnumAt? && Fits(e, t) && Faithful(e) && Accepted(e, v, sp)
    ensures
      var t' := Decoded(e, t, sp, v).0;
      && Fits(e, t') && SlotOf(e, t') == Written(e, v, sp)
      && Lower(t'.flags[e.field], e.mask) == Lower(t.flags[e.field], e.mask)
  {
    PutFacts(t.flags[e.field], e.mask, e.values[v - e.ofs]);
    hide Take, Put, Lower;
  }

  /** What decoding does to a status: it fails exactly on a value that is not accepted, and then
      changes nothing; otherwise it writes the slot. */
  lemma DecodedSlot(e: Entry, t: Status, sp: Speeds, v: int)
    requires Fits(e, t) && Faithful(e)
    ensures
      var r := Decoded(e, t, sp, v);
      && (r.1 == Done <==> Accepted(e, v, sp))
      && (r.1 != Done ==> r.0 == t)
      && (r.1 == Done ==> Fits(e, r.0) && SlotOf(e, r.0) == Written(e, v, sp))
  {
    if e.BoolAt? {
      BoolDecoded(e, t, sp, v);
    } else if e.EnumAt? && Accepted(e, v, sp) {
      EnumDecoded(e, t, sp, v);
    }
    hide Take, Put, Raise, Lower, Faithful, IndexOf;
  }

  lemma DecodedFrame(e: Entry, t: Status, sp: Speeds, v: int, other: Entry)
    requires Fits(e, t) && Faithful(e) && Fits(other, t) && Apart(e, other)
    ensures
      var t' := Decoded(e, t, sp, v).0;
      Fits(other, t') && SlotOf(other, t') == SlotOf(other, t)
  {
    var t' := Decoded(e, t, sp, v).0;
    if (e.BoolAt? || e.EnumAt?) && (other.BoolAt? || other.EnumAt?) && e.field == other.field && Accepted(e, v, sp) {
      if e.BoolAt? {
        BoolDecoded(e, t, sp, v);
      } else {
        EnumDecoded(e, t, sp, v);
      }
      assert Take(MaskIn(e, e.field), MaskIn(other, e.field)) == {};
      OtherBits(t.flags[e.field], t'.flags[e.field], e.mask, other.mask);
    }
    hide Take, Put, Raise, Lower, Faithful, IndexOf, Apart;
  }

  lemma ReadsBack(e: Entry, t: Status, sp: Speeds, v: int, was: int)
    requires Fits(e, t) && Faithful(e) && Injective(sp.rates)
    requires Accepted(e, v, sp) && SlotOf(e, t) == Written(e, v, sp)
    ensures Encoded(e, t, sp, was) == Canonical(e, v)
  {
    if e.EnumAt? {
      FirstIndex(e.values, e.values[v - e.ofs], v - e.ofs);
    } else if e.SpeedOf? {
      var i := IndexOf(RateBauds(sp.rates), v);
      FirstIndex(RateSpeeds(sp.rates), sp.rates[i].speed, i);
    }
    hide Take;
  }

  /** Decoding what was encoded gives the slot back exactly if its speed is in the table and accepted. */
  lemma WritesBack(e: Entry, t: Status, sp: Speeds, was: int)
    requires Fits(e, t) && Faithful(e) && Injective(sp.rates) && Bytes(t)
    ensures
      var v := Encoded(e, t, sp, was);
      Restorable(e, t, sp) <==> Accepted(e, v, sp) && Written(e, v, sp) == SlotOf(e, t)
  {
    var v := Encoded(e, t, sp, was);
    if e.BoolAt? {
      var b :| e.mask == {b};
      assert Take(t.flags[e.field], e.mask) == if b in t.flags[e.field] then e.mask else {};
    } else if e.EnumAt? {
      assert Take(t.flags[e.field], e.mask) in e.values;
    } else if e.SpeedOf? {
      var s := if e.direction == OUTPUT then t.ospeed else t.ispeed;
      var i := IndexOf(RateSpeeds(sp.rates), s);
      if i < |sp.rates| {
        FirstIndex(RateBauds(sp.rates), v, i);
      }
    }
    hide Take, Put, Raise, Lower, Faithful, IndexOf;
  }

  // Whole tables.

  lemma {:induction false} SlotKept(es: seq<Entry>, t: Status, sp: Speeds, src: seq<int>, e: Entry)
    requires |src| == |es| && AllFit(es, t) && Fits(e, t) && AllFaithful(es)
    requires forall i :: 0 <= i < |es| ==> Apart(es[i], e)
    ensures
      var t' := DecodeAll(es, t, sp, src).0;
      Fits(e, t') && SlotOf(e, t') == SlotOf(e, t)
  {
    if es != [] {
      DecodedFrame(es[0], t, sp, src[0], e);
      hide Decoded, Apart, Faithful, SlotOf;
      var r := Decoded(es[0], t, sp, src[0]);
      if r.1 == Done {
        SlotKept(es[1..], r.0, sp, src[1..], e);
      }
    }
  }

  ghost predicate AllAccepted(es: seq<Entry>, src: seq<int>, sp: Speeds)
    requires |src| == |es|
  {
    forall i :: 0 <= i < |es| ==> Accepted(es[i], src[i], sp)
  }

  /** Decoding succeeds exactly if every value is accepted, and then every slot has what its value says. */
  lemma {:induction false} DecodeWrites(es: seq<Entry>, t: Status, sp: Speeds, src: seq<int>)
    requires |src| == |es| && AllFit(es, t) && AllFaithful(es) && AllApart(es)
    ensures
      var r := DecodeAll(es, t, sp, src);
      && (r.1 == Done <==> AllAccepted(es, src, sp))
      && AllFit(es, r.0)
      && (r.1 == Done ==> forall i :: 0 <= i < |es| ==> SlotOf(es[i], r.0) == Written(es[i], src[i], sp))
  {
    if es != [] {
      DecodedSlot(es[0], t, sp, src[0]);
      hide Decoded, Apart, Faithful, SlotOf, Accepted, Written;
      var r := Decoded(es[0], t, sp, src[0]);
      if r.1 == Done {
        var es', src' := es[1..], src[1..];
        SlotKept(es', r.0, sp, src', es[0]) by {
          forall i | 0 <= i < |es'| ensures Apart(es'[i], es[0]) {
            ApartSymmetric(es[0], es[i + 1]);
          }
        }
        DecodeWrites(es', r.0, sp, src');
        var t' := DecodeAll(es, t, sp, src);
        assert t' == DecodeAll(es', r.0, sp, src');
        forall i | 0 <= i < |es|
          ensures Accepted(es[i], src[i], sp) <==> i == 0 || Accepted(es'[i - 1], src'[i - 1], sp)
        {
        }
        if AllAccepted(es', src', sp) {
          assert forall i :: 0 < i < |es| ==> es[i] == es'[i - 1] && src[i] == src'[i - 1];
        }
      }
    }
  }

  lemma ApartSymmetric(a: Entry, b: Entry)
    requires Apart(a, b)
    ensures Apart(b, a)
  {
    forall field ensures Take(MaskIn(b, field), MaskIn(a, field)) == {} {
      assert Take(MaskIn(a, field), MaskIn(b, field)) == {};
    }
  }

  /** The bits of a flag word that a table covers. */
  ghost function Cover(es: seq<Entry>, field: nat): Flags {
    set i, b | 0 <= i < |es| && b in MaskIn(es[i], field) :: b
  }

  /** `t1` with everything the table covers taken from `t0`. */
  ghost function Overlay(es: seq<Entry>, t0: Status, t1: Status): Status
    requires |t0.flags| == 4 && |t1.flags| == 4 && |t0.cc| == |t1.cc|
  {
    Status(
      seq(4, f requires 0 <= f < 4 => Put(t1.flags[f], Cover(es, f), Take(t0.flags[f], Cover(es, f)))),
      if SpeedOf(INPUT) in es then t0.ispeed else t1.ispeed,
      if SpeedOf(OUTPUT) in es then t0.ospeed else t1.ospeed,
      seq(|t0.cc|, i requires 0 <= i < |t0.cc| => if CharAt(i) in es then t0.cc[i] else t1.cc[i]))
  }

  /** Nothing that the table does not cover has changed. */
  ghost predicate Elsewhere(es: seq<Entry>, t: Status, t': Status) {
    && |t'.flags| == |t.flags| && |t'.cc| == |t.cc|
    && (forall f :: 0 <= f < |t.flags| ==> Lower(t'.flags[f], Cover(es, f)) == Lower(t.flags[f], Cover(es, f)))
    && (SpeedOf(INPUT) !in es ==> t'.ispeed == t.ispeed)
    && (SpeedOf(OUTPUT) !in es ==> t'.ospeed == t.ospeed)
    && (forall i :: 0 <= i < |t.cc| && CharAt(i) !in es ==> t'.cc[i] == t.cc[i])
  }

  lemma WiderLower(w: Flags, w': Flags, mask: Flags, wider: Flags)
    requires Lower(w', mask) == Lower(w, mask) && mask <= wider
    ensures Lower(w', wider) == Lower(w, wider)
  {
    forall b ensures b in Lower(w', wider) <==> b in Lower(w, wider) {
      assert b in Lower(w', mask) <==> b in Lower(w, mask);
    }
  }

  lemma DecodedElsewhere(e: Entry, t: Status, sp: Speeds, v: int, all: seq<Entry>)
    requires Fits(e, t) && Faithful(e) && e in all
    ensures Elsewhere(all, t, Decoded(e, t, sp, v).0)
  {
    var t' := Decoded(e, t, sp, v).0;
    if (e.BoolAt? || e.EnumAt?) && Accepted(e, v, sp) {
      if e.BoolAt? {
        BoolDecoded(e, t, sp, v);
      } else {
        EnumDecoded(e, t, sp, v);
      }
      assert e.mask <= Cover(all, e.field) by {
        var i :| 0 <= i < |all| && all[i] == e;
        assert forall b :: b in e.mask ==> b in MaskIn(all[i], e.field);
      }
      WiderLower(t.flags[e.field], t'.flags[e.field], e.mask, Cover(all, e.field));
    }
    hide Take, Put, Raise, Lower, Faithful, IndexOf, Cover;
  }

  lemma {:induction false} DecodeElsewhere(es: seq<Entry>, t: Status, sp: Speeds, src: seq<int>, all: seq<Entry>)
    requires |src| == |es| && AllFit(es, t) && AllFaithful(es) && forall i :: 0 <= i < |es| ==> es[i] in all
    ensures Elsewhere(all, t, DecodeAll(es, t, sp, src).0)
  {
    if es != [] {
      DecodedElsewhere(es[0], t, sp, src[0], all);
      hide Decoded, Faithful, Cover, Lower;
      var r := Decoded(es[0], t, sp, src[0]);
      if r.1 == Done {
        DecodeElsewhere(es[1..], r.0, sp, src[1..], all);
      }
    }
  }

  ghost predicate SameSlots(es: seq<Entry>, t: Status, t': Status)
    requires AllFit(es, t) && AllFit(es, t')
  {
    forall i :: 0 <= i < |es| ==> SlotOf(es[i], t) == SlotOf(es[i], t')
  }

  lemma OverlayFlags(es: seq<Entry>, f: nat, t0: Status, t1: Status, t': Status)
    requires f < 4 && |t0.flags| == |t1.flags| == |t'.flags| == 4
    requires Lower(t'.flags[f], Cover(es, f)) == Lower(t1.flags[f], Cover(es, f))
    requires AllFit(es, t0) && AllFit(es, t') && SameSlots(es, t', t0)
    ensures t'.flags[f] == Put(t1.flags[f], Cover(es, f), Take(t0.flags[f], Cover(es, f)))
  {
    var w, c := t'.flags[f], Cover(es, f);
    forall b ensures b in w <==> b in Put(t1.flags[f], c, Take(t0.flags[f], c)) {
      assert b in Lower(w, c) <==> b in Lower(t1.flags[f], c);
      if b in c {
        var i :| 0 <= i < |es| && b in MaskIn(es[i], f);
        assert SlotOf(es[i], t') == SlotOf(es[i], t0);
        assert b in Take(w, es[i].mask) <==> b in Take(t0.flags[f], es[i].mask);
      }
    }
  }

  lemma OverlayIs(es: seq<Entry>, t0: Status, t1: Status, t': Status)
    requires |t0.flags| == |t1.flags| == 4 && |t0.cc| == |t1.cc|
    requires AllFit(es, t0) && AllFit(es, t') && SameSlots(es, t', t0) && Elsewhere(es, t1, t')
    ensures t' == Overlay(es, t0, t1)
  {
    var o := Overlay(es, t0, t1);
    assert t'.flags == o.flags by {
      forall f | 0 <= f < 4 ensures t'.flags[f] == o.flags[f] {
        OverlayFlags(es, f, t0, t1, t');
      }
    }
    assert t'.cc == o.cc by {
      forall i | 0 <= i < |t'.cc| ensures t'.cc[i] == o.cc[i] {
        OverlayCell(es, i, t0, t1, t');
      }
    }
    OverlaySpeed(es, INPUT, t0, t1, t');
    OverlaySpeed(es, OUTPUT, t0, t1, t');
  }

  lemma OverlayCell(es: seq<Entry>, i: nat, t0: Status, t1: Status, t': Status)
    requires AllFit(es, t0) && AllFit(es, t') && SameSlots(es, t', t0) && Elsewhere(es, t1, t')
    requires i < |t'.cc| == |t0.cc|
    ensures t'.cc[i] == if CharAt(i) in es then t0.cc[i] else t1.cc[i]
  {
    if CharAt(i) in es {
      var k :| 0 <= k < |es| && es[k] == CharAt(i);
      assert SlotOf(es[k], t') == SlotOf(es[k], t0);
    }
  }

  lemma OverlaySpeed(es: seq<Entry>, d: nat, t0: Status, t1: Status, t': Status)
    requires AllFit(es, t0) && AllFit(es, t') && SameSlots(es, t', t0) && Elsewhere(es, t1, t')
    requires d == INPUT || d == OUTPUT
    ensures SpeedOf(d) in es ==> SlotOf(SpeedOf(d), t') == SlotOf(SpeedOf(d), t0)
    ensures SpeedOf(d) !in es ==> SlotOf(SpeedOf(d), t') == SlotOf(SpeedOf(d), t1)
  {
    if SpeedOf(d) in es {
      var k :| 0 <= k < |es| && es[k] == SpeedOf(d);
      assert SlotOf(es[k], t') == SlotOf(es[k], t0);
    }
  }

  lemma OverlaySlots(es: seq<Entry>, t0: Status, t1: Status)
    requires |t0.flags| == |t1.flags| == 4 && |t0.cc| == |t1.cc| && AllFit(es, t0)
    ensures AllFit(es, Overlay(es, t0, t1)) && SameSlots(es, Overlay(es, t0, t1), t0)
  {
    var o := Overlay(es, t0, t1);
    forall i | 0 <= i < |es| ensures SlotOf(es[i], o) == SlotOf(es[i], t0) {
      var e := es[i];
      assert e in es;
      if e.BoolAt? || e.EnumAt? {
        var w, c := t0.flags[e.field], Cover(es, e.field);
        assert forall b :: b in MaskIn(es[i], e.field) ==> b in c;
        assert Take(Put(t1.flags[e.field], c, Take(w, c)), e.mask) == Take(w, e.mask);
      }
    }
  }

  ghost predicate AllRestorable(es: seq<Entry>, t: Status, sp: Speeds) {
    forall i :: 0 <= i < |es| ==> Restorable(es[i], t, sp)
  }

  /** Decoding into `t1` what was encoded from `t0` succeeds and restores every covered part,
      leaving the rest of `t1` alone, exactly if the covered speeds of `t0` are in the table and accepted.
      In any case nothing else in `t1` changes. */
  lemma DecodeAfterEncode(es: seq<Entry>, sp: Speeds, t0: Status, t1: Status, dst: seq<int>)
    requires |dst| == |es| && |t0.flags| == |t1.flags| == 4 && |t0.cc| == |t1.cc| && Bytes(t0)
    requires AllFit(es, t0) && AllFit(es, t1) && AllFaithful(es) && AllApart(es) && Injective(sp.rates)
    ensures
      var r := DecodeAll(es, t1, sp, EncodeAll(es, t0, sp, dst));
      && (r == (Overlay(es, t0, t1), Done) <==> AllRestorable(es, t0, sp))
      && Elsewhere(es, t1, r.0)
  {
    var src := EncodeAll(es, t0, sp, dst);
    var r := DecodeAll(es, t1, sp, src);
    DecodeElsewhere(es, t1, sp, src, es);
    DecodeWrites(es, t1, sp, src);
    forall i | 0 <= i < |es|
      ensures Restorable(es[i], t0, sp) <==>
              Accepted(es[i], src[i], sp) && Written(es[i], src[i], sp) == SlotOf(es[i], t0)
    {
      WritesBack(es[i], t0, sp, dst[i]);
    }
    OverlaySlots(es, t0, t1);
    hide Restorable, Accepted, Written, SlotOf, Encoded, DecodeAll, Elsewhere, Overlay, Faithful, Apart;
    if AllRestorable(es, t0, sp) {
      OverlayIs(es, t0, t1, r.0);
    }
  }

  /** A status read and written back is unchanged. */
  lemma StatusSurvives(es: seq<Entry>, sp: Speeds, t: Status, dst: seq<int>)
    requires |dst| == |es| && |t.flags| == 4 && Bytes(t)
    requires AllFit(es, t) && AllFaithful(es) && AllApart(es) && Injective(sp.rates) && AllRestorable(es, t, sp)
    ensures DecodeAll(es, t, sp, EncodeAll(es, t, sp, dst)) == (t, Done)
  {
    DecodeAfterEncode(es, sp, t, t, dst);
    OverlayIs(es, t, t, t);
  }

  /** Encoding after a successful decoding gives back the decoded record, exactly if its flags were
      0 or 1 and its characters bytes. */
  lemma EncodeAfterDecode(es: seq<Entry>, sp: Speeds, t: Status, src: seq<int>, dst: seq<int>)
    requires |src| == |dst| == |es| && AllFit(es, t) && AllFaithful(es) && AllApart(es) && Injective(sp.rates)
    requires DecodeAll(es, t, sp, src).1 == Done
    ensures
      var t' := DecodeAll(es, t, sp, src).0;
      && AllFit(es, t')
      && (EncodeAll(es, t', sp, dst) == src <==> forall i :: 0 <= i < |es| ==> Canonical(es[i], src[i]) == src[i])
      && (forall i :: 0 <= i < |es| ==> EncodeAll(es, t', sp, dst)[i] == Canonical(es[i], src[i]))
  {
    var t' := DecodeAll(es, t, sp, src).0;
    DecodeWrites(es, t, sp, src);
    forall i | 0 <= i < |es| ensures EncodeAll(es, t', sp, dst)[i] == Canonical(es[i], src[i]) {
      ReadsBack(es[i], t', sp, src[i], dst[i]);
    }
    hide Accepted, Written, SlotOf, Encoded, DecodeAll, Faithful, Apart, Canonical;
  }

  /** A speed that the table does not list comes back as the one that stands for 9600. */
  lemma UnlistedSpeed(t: Status, sp: Speeds, was: int, i: nat)
    requires i < |sp.rates| && sp.rates[i].baud == DEFAULT_BAUD && sp.rates[i].speed !in sp.refused
    requires Injective(sp.rates) && t.ospeed !in RateSpeeds(sp.rates)
    ensures DecodeAll([SpeedOf(OUTPUT)], t, sp, EncodeAll([SpeedOf(OUTPUT)], t, sp, [was])) ==
            (t.(ospeed := sp.rates[i].speed), Done)
    ensures sp.rates[i].speed != t.ospeed
  {
    FirstIndex(RateBauds(sp.rates), DEFAULT_BAUD, i);
    assert RateSpeeds(sp.rates)[i] == sp.rates[i].speed;
  }

  /** For instance: speed 99, in a table that lists speed 13 for 9600 only. */
  lemma UnlistedSpeedInstance()
    ensures
      var es, sp, t := [SpeedOf(OUTPUT)], Speeds([Rate(13, 9600)], {}), Status([{}, {}, {}, {}], 13, 99, []);
      DecodeAll(es, t, sp, EncodeAll(es, t, sp, [0])) == (t.(ospeed := 13), Done)
  {
    UnlistedSpeed(Status([{}, {}, {}, {}], 13, 99, []), Speeds([Rate(13, 9600)], {}), 0, 0);
  }
}
