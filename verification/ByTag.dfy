/**
  Decoding in terms of tag bytes: what a message holds after a sequence of declared fields in any
  order, slot by slot.
 */
module ByTag {
  import opened Options
  import opened Wire
  import opened Schema
  import opened Fields
  import opened Message
  import opened Decode

  type uint64 = u: int | 0 <= u < TWO_64

  /** A field as written: its tag byte, and a varint or length-delimited bytes. */
  datatype Item = Varint(tag: byte, u: uint64) | Text(tag: byte, b: slice)

  function ItemBytes(x: Item): (r: seq<byte>)
    ensures |r| > 0
  {
    match x
    case Varint(tag, u) => [tag] + EncVarint(u)
    case Text(tag, b) => [tag] + (EncVarint(|b|) + b)
  }

  function AllItems(xs: seq<Item>): seq<byte> {
    if xs == [] then [] else ItemBytes(xs[0]) + AllItems(xs[1..])
  }

  // ---------------------------------------------------------------------------
  // One item
  // ---------------------------------------------------------------------------

  /** The item is a field of slot `k`, of this kind. */
  predicate Fits(S: MsgTable, t: nat, x: Item, k: nat, kind: Kind) {
    && k < |Def(S, t)| && KindIn(Def(S, t)[k].fields, x.tag / 8) == Some(kind)
    && x.tag % 8 == KindWire(kind) && x.Varint? == (KindWire(kind) == 0)
  }

  function FieldOf(x: Item, k: nat, kind: Kind): Field {
    match x
    case Varint(tag, u) => Number(k, tag / 8, if kind.KNumber32? then ToI32(u) else ToI64(u))
    case Text(tag, b) => Bytes(k, tag / 8, kind, b)
  }

  lemma FieldFitsOf(S: MsgTable, t: nat, x: Item, k: nat, kind: Kind)
    requires Fits(S, t, x, k, kind)
    ensures FieldFits(S, t, FieldOf(x, k, kind))
  {
  }

  lemma ItemTag(S: MsgTable, t: nat, x: Item, k: nat, kind: Kind)
    requires Fits(S, t, x, k, kind)
    ensures 8 <= x.tag < 128 && Lookup(Def(S, t), x.tag / 8) == Some((k, kind))
  {
    LookupInSlot(S, t, k, x.tag / 8);
  }

  lemma TagByte(d: slice)
    requires d != [] && 8 <= d[0] < 128
    ensures VarintAt(d, 0, 0) == Ok((d[0], 1))
    ensures ToI32(d[0] % TWO_64 / 8) == d[0] / 8 && d[0] / 8 >= 1
  {
  }

  lemma VarintHere(d: slice, u: uint64)
    requires d != [] && d[1..] == EncVarint(u)
    ensures VarintAt(d, 1, 0) == Ok((u, |d|))
  {
    hide EncVarint;
    assert d[1..1 + |EncVarint(u)|] == d[1..];
    VarintRoundTrip(d, 1, u);
    hide VarintAt;
  }

  lemma Slices(d: seq<byte>, x: seq<byte>, b: seq<byte>)
    requires d != [] && d[1..] == x + b
    ensures |d| == 1 + |x| + |b| && d[1..1 + |x|] == x && d[|d| - |b|..|d|] == b
  {
    assert d[1..1 + |x|] == d[1..][..|x|];
    assert d[|d| - |b|..|d|] == d[1..][|x|..];
  }

  lemma SpanFrom(d: slice, len: nat, a: nat)
    requires d != [] && VarintAt(d, 1, 0) == Ok((len, a)) && a + len == |d|
    ensures SpanAt(d, 1) == Ok((a, |d|))
  {
    hide VarintAt, ToI64;
  }

  lemma SpanHere(d: slice, b: seq<byte>)
    requires |d| == 1 + |EncVarint(|b|)| + |b| && d[1..1 + |EncVarint(|b|)|] == EncVarint(|b|)
    ensures |b| < |d| - 1 && SpanAt(d, 1) == Ok((|d| - |b|, |d|))
  {
    hide EncVarint, VarintAt, SpanAt;
    VarintRoundTrip(d, 1, |b|);
    SpanFrom(d, |b|, |d| - |b|);
  }

  lemma KnownHere(S: MsgTable, t: nat, d: slice, k: nat, kind: Kind)
    requires d != [] && 8 <= d[0] < 128 && d[0] % 8 == KindWire(kind) && Lookup(Def(S, t), d[0] / 8) == Some((k, kind))
    ensures FieldAt(S, t, d, 0) == KnownAt(k, d[0] / 8, kind, d, 1)
  {
    TagByte(d);
    hide VarintAt, Lookup, ToI32, KnownAt;
  }

  lemma ItemAt(S: MsgTable, t: nat, x: Item, k: nat, kind: Kind)
    requires Fits(S, t, x, k, kind) && |ItemBytes(x)| < TWO_63
    ensures FieldAt(S, t, ItemBytes(x), 0) == Ok((FieldOf(x, k, kind), |ItemBytes(x)|))
  {
    hide VarintAt, Lookup, EncVarint, SpanAt, ToI32, ToI64, FieldAt;
    var d: slice := ItemBytes(x);
    ItemTag(S, t, x, k, kind);
    KnownHere(S, t, d, k, kind);
    if x.Varint? {
      VarintHere(d, x.u);
    } else {
      Slices(d, EncVarint(|x.b|), x.b);
      SpanHere(d, x.b);
    }
  }

  // ---------------------------------------------------------------------------
  // One slot
  // ---------------------------------------------------------------------------

  /** The message an embedded field is decoded into. */
  function Into(S: MsgTable, def: SlotDef, old_: Slot, sub: nat): Msg {
    if def.rule != Repeated && def.rule != Oneof && old_.entries != [] && old_.entries[0].v.Sub?
    then old_.entries[0].v.m
    else Empty(S, sub)
  }

  /** What a slot that holds `old_` makes of an item: `None` if an embedded message is refused. */
  function Stored(S: MsgTable, def: SlotDef, old_: Slot, x: Item): Option<Slot> {
    var num := x.tag / 8;
    match KindIn(def.fields, num)
    case None => Some(old_)
    case Some(kind) =>
      match x
      case Varint(_, u) =>
        var i := if kind.KNumber32? then ToI32(u) else ToI64(u);
        Some(Slot(Store(def.rule, old_.entries, Entry(num, Num(i)))))
      case Text(_, b) =>
        if !kind.KMessage? then Some(Slot(Store(def.rule, old_.entries, Entry(num, Raw(b)))))
        else
          match DecodeMsg(S, kind.t, b, Into(S, def, old_, kind.t))
          case Err(_) => None
          case Ok(m) => Some(Slot(Store(def.rule, old_.entries, Entry(num, Sub(m)))))
  }

  function Gather(S: MsgTable, def: SlotDef, old_: Slot, xs: seq<Item>): Option<Slot>
    decreases |xs|
  {
    if xs == [] then Some(old_)
    else
      match Stored(S, def, old_, xs[0])
      case None => None
      case Some(s) => Gather(S, def, s, xs[1..])
  }

  ghost predicate Touched(def: SlotDef, xs: seq<Item>) {
    exists i :: 0 <= i < |xs| && KindIn(def.fields, xs[i].tag / 8).Some?
  }

  // ---------------------------------------------------------------------------
  // All slots
  // ---------------------------------------------------------------------------

  ghost predicate FitsSome(S: MsgTable, t: nat, x: Item) {
    exists k, kind :: Fits(S, t, x, k, kind)
  }

  ghost predicate AllFit(S: MsgTable, t: nat, xs: seq<Item>) {
    forall i :: 0 <= i < |xs| ==> FitsSome(S, t, xs[i])
  }

  lemma AppliedHere(S: MsgTable, t: nat, m: Msg, x: Item, k: nat, kind: Kind)
    requires Fits(S, t, x, k, kind) && |m.slots| == |Def(S, t)|
    ensures FieldFits(S, t, FieldOf(x, k, kind))
    ensures match Stored(S, Def(S, t)[k], m.slots[k], x)
            case None => Apply(S, t, m, FieldOf(x, k, kind)).Err?
            case Some(s) => Apply(S, t, m, FieldOf(x, k, kind)) == Ok(m.(slots := m.slots[k := s]))
  {
    FieldFitsOf(S, t, x, k, kind);
    hide DecodeMsg, FieldFits, ToI32, ToI64, KindWire, KindIn;
    if x.Text? && kind.KMessage? {
      assert Base(S, t, m, k, kind.t) == Into(S, Def(S, t)[k], m.slots[k], kind.t);
    }
  }

  lemma OthersKept(S: MsgTable, t: nat, x: Item, k: nat, kind: Kind, j: nat)
    requires Fits(S, t, x, k, kind) && j < |Def(S, t)| && j != k
    ensures KindIn(Def(S, t)[j].fields, x.tag / 8).None?
  {
    LookupInSlot(S, t, k, x.tag / 8);
    if KindIn(Def(S, t)[j].fields, x.tag / 8).Some? { LookupInSlot(S, t, j, x.tag / 8); }
  }

  /** The outcome of decoding, from what the slots gather. */
  ghost predicate Outcome(S: MsgTable, t: nat, m: Msg, has: set<nat>, xs: seq<Item>, r: Result<(Msg, set<nat>)>)
    requires |m.slots| == |Def(S, t)|
  {
    if exists k :: 0 <= k < |m.slots| && Gather(S, Def(S, t)[k], m.slots[k], xs).None? then r.Err?
    else
      && r.Ok? && |r.value.0.slots| == |m.slots| && r.value.0.unrecognized == m.unrecognized
      && (forall k :: 0 <= k < |m.slots| ==> Gather(S, Def(S, t)[k], m.slots[k], xs) == Some(r.value.0.slots[k]))
      && forall k :: k in r.value.1 <==> k in has || (0 <= k < |m.slots| && Touched(Def(S, t)[k], xs))
  }

  lemma OutcomeNone(S: MsgTable, t: nat, m: Msg, has: set<nat>)
    requires |m.slots| == |Def(S, t)|
    ensures Outcome(S, t, m, has, [], Ok((m, has)))
  {
  }

  lemma TouchedStep(def: SlotDef, xs: seq<Item>)
    requires xs != []
    ensures Touched(def, xs) <==> KindIn(def.fields, xs[0].tag / 8).Some? || Touched(def, xs[1..])
  {
    hide KindIn;
    if Touched(def, xs[1..]) {
      var i :| 0 <= i < |xs[1..]| && KindIn(def.fields, xs[1..][i].tag / 8).Some?;
      assert xs[i + 1] == xs[1..][i];
    }
    if Touched(def, xs) && KindIn(def.fields, xs[0].tag / 8).None? {
      var i :| 0 <= i < |xs| && KindIn(def.fields, xs[i].tag / 8).Some?;
      assert xs[1..][i - 1] == xs[i];
    }
  }

  lemma GatherStep(S: MsgTable, def: SlotDef, old_: Slot, s: Slot, xs: seq<Item>)
    requires xs != [] && Stored(S, def, old_, xs[0]) == Some(s)
    ensures Gather(S, def, old_, xs) == Gather(S, def, s, xs[1..])
  {
    hide Stored;
  }

  lemma OutcomeStep(S: MsgTable, t: nat, m: Msg, has: set<nat>, xs: seq<Item>, k: nat, kind: Kind, s: Slot,
                    r: Result<(Msg, set<nat>)>)
    requires |m.slots| == |Def(S, t)| && xs != [] && Fits(S, t, xs[0], k, kind)
    requires Stored(S, Def(S, t)[k], m.slots[k], xs[0]) == Some(s)
    requires Outcome(S, t, m.(slots := m.slots[k := s]), has + {k}, xs[1..], r)
    ensures Outcome(S, t, m, has, xs, r)
  {
    var m' := m.(slots := m.slots[k := s]);
    forall j | 0 <= j < |m.slots|
      ensures Gather(S, Def(S, t)[j], m.slots[j], xs) == Gather(S, Def(S, t)[j], m'.slots[j], xs[1..])
      ensures Touched(Def(S, t)[j], xs) <==> j == k || Touched(Def(S, t)[j], xs[1..])
    {
      TouchedStep(Def(S, t)[j], xs);
      if j != k { OthersKept(S, t, xs[0], k, kind, j); }
      hide Gather, Touched;
      GatherStep(S, Def(S, t)[j], m.slots[j], m'.slots[j], xs);
    }
    hide Gather, Touched, Stored, Fits;
  }

  lemma OutcomeFailed(S: MsgTable, t: nat, m: Msg, has: set<nat>, xs: seq<Item>, k: nat, r: Result<(Msg, set<nat>)>)
    requires |m.slots| == |Def(S, t)| && xs != [] && k < |m.slots| && r.Err?
    requires Stored(S, Def(S, t)[k], m.slots[k], xs[0]).None?
    ensures Outcome(S, t, m, has, xs, r)
  {
    assert Gather(S, Def(S, t)[k], m.slots[k], xs).None?;
  }

  lemma FirstItem(S: MsgTable, t: nat, d: slice, i: nat, xs: seq<Item>, k: nat, kind: Kind)
    requires i <= |d| && d[i..] == AllItems(xs) && xs != [] && Fits(S, t, xs[0], k, kind)
    ensures i < |d| && FieldAt(S, t, d, i) == Ok((FieldOf(xs[0], k, kind), i + |ItemBytes(xs[0])|))
    ensures i + |ItemBytes(xs[0])| <= |d| && d[i + |ItemBytes(xs[0])|..] == AllItems(xs[1..])
  {
    hide ItemBytes, FieldAt, Fits, FieldOf;
    var x := ItemBytes(xs[0]);
    assert |d| - i == |x| + |AllItems(xs[1..])|;
    ItemAt(S, t, xs[0], k, kind);
    assert x[0..|x|] == x && d[i..i + |x|] == d[i..][..|x|];
    FieldSame(S, t, x, 0, d, i);
    assert d[i + |x|..] == d[i..][|x|..];
  }

  lemma {:induction false} ItemsDecode(S: MsgTable, t: nat, d: slice, i: nat, xs: seq<Item>, m: Msg, has: set<nat>)
    requires i <= |d| && d[i..] == AllItems(xs) && AllFit(S, t, xs) && |m.slots| == |Def(S, t)|
    ensures Outcome(S, t, m, has, xs, DecodeFrom(S, t, d, i, m, has))
    decreases |xs|
  {
    hide Outcome, FieldAt, Apply, AllItems, Fits, FieldOf, Stored;
    if xs == [] {
      assert |d[i..]| == 0 by { NoItems(); }
      OutcomeNone(S, t, m, has);
    } else {
      assert FitsSome(S, t, xs[0]);
      var k: nat, kind :| Fits(S, t, xs[0], k, kind);
      FitsSlot(S, t, xs[0], k, kind);
      FirstItem(S, t, d, i, xs, k, kind);
      AppliedHere(S, t, m, xs[0], k, kind);
      var n := i + |ItemBytes(xs[0])|;
      match Stored(S, Def(S, t)[k], m.slots[k], xs[0])
      case None => OutcomeFailed(S, t, m, has, xs, k, DecodeFrom(S, t, d, i, m, has));
      case Some(s) =>
        var m' := m.(slots := m.slots[k := s]);
        ItemsDecode(S, t, d, n, xs[1..], m', has + {k});
        OutcomeStep(S, t, m, has, xs, k, kind, s, DecodeFrom(S, t, d, n, m', has + {k}));
    }
  }

  lemma FitsSlot(S: MsgTable, t: nat, x: Item, k: nat, kind: Kind)
    requires Fits(S, t, x, k, kind)
    ensures k < |Def(S, t)| && Seen(FieldOf(x, k, kind)) == {k}
  {
  }

  lemma NoItems()
    ensures AllItems([]) == []
  {
  }

  /**
    Decoding declared fields, in any order and number: every slot holds what it gathers, an embedded
    message that is refused makes the whole refused, and so does a required field that is missing.
   */
  lemma DecodeByTag(S: MsgTable, t: nat, xs: seq<Item>)
    requires AllFit(S, t, xs) && |AllItems(xs)| < TWO_63
    ensures var r := DecodeMsg(S, t, AllItems(xs), Empty(S, t)); var def := Def(S, t);
      if exists k :: 0 <= k < |def| && Gather(S, def[k], Slot([]), xs).None? then r.Err?
      else if exists k :: 0 <= k < |def| && def[k].rule == Required && !Touched(def[k], xs)
      then r == Err(RequiredNotSet)
      else
        && r.Ok? && r.value.unrecognized == [] && |r.value.slots| == |def|
        && forall k :: 0 <= k < |def| ==> Gather(S, def[k], Slot([]), xs) == Some(r.value.slots[k])
  {
    hide AllItems, DecodeFrom, Gather, Touched;
    var d: slice, m := AllItems(xs), Empty(S, t);
    assert d[0..] == d;
    ItemsDecode(S, t, d, 0, xs, m, {});
    var r := DecodeFrom(S, t, d, 0, m, {});
    if r.Ok? {
      var def, has := Def(S, t), r.value.1;
      assert RequiredSlots(def) <= has <==> forall k :: k in RequiredSlots(def) ==> k in has;
      if k :| 0 <= k < |def| && def[k].rule == Required && !Touched(def[k], xs) {
        assert k in RequiredSlots(def) && k !in has;
      }
    }
  }
}
