/**
  Decoding into a message is merging, and decoding a concatenation is merging what its
  parts decode to ("Last One Wins" in the Protocol Buffers Encoding specification).
 */
module Merge {
  import opened Options
  import opened Wire
  import opened Schema
  import opened Fields
  import opened Message
  import opened Decode
  import opened Canonical

  function DefAt(S: MsgTable, t: nat, k: nat): SlotDef {
    if k < |Def(S, t)| then Def(S, t)[k] else SlotDef(Optional, [])
  }

  /**
    `b` merged into `a`: repeated fields append, embedded messages merge, everything else
    set in `b` replaces what `a` has; a oneof is replaced even when both hold the same
    alternative.
   */
  function MergeMsg(S: MsgTable, t: nat, a: Msg, b: Msg): (r: Msg)
    ensures |r.slots| == |a.slots|
    decreases b
  {
    Msg(seq(|a.slots|, k requires 0 <= k < |a.slots| =>
              if k < |b.slots| then MergeSlot(S, DefAt(S, t, k), a.slots[k], b.slots[k]) else a.slots[k]),
        a.unrecognized + b.unrecognized)
  }

  function MergeSlot(S: MsgTable, def: SlotDef, a: Slot, b: Slot): Slot
    decreases b
  {
    if b.entries == [] then a
    else if def.rule == Repeated then Slot(a.entries + b.entries)
    else if def.rule == Oneof || a.entries == [] then b
    else Slot([MergeEntry(S, def, a.entries[0], b.entries[0])])
  }

  function MergeEntry(S: MsgTable, def: SlotDef, a: Entry, b: Entry): Entry
    decreases b
  {
    match KindIn(def.fields, b.num)
    case Some(KMessage(sub)) => if a.v.Sub? && b.v.Sub? then Entry(b.num, MergeSub(S, sub, a.v, b.v)) else b
    case _ => b
  }

  function MergeSub(S: MsgTable, sub: nat, a: Val, b: Val): Val
    requires a.Sub? && b.Sub?
    decreases b
  {
    Sub(MergeMsg(S, sub, a.m, b.m))
  }

  // ---------------------------------------------------------------------------
  // Merging is a monoid on the messages of a type
  // ---------------------------------------------------------------------------

  lemma MergeEmptyRight(S: MsgTable, t: nat, m: Msg)
    ensures MergeMsg(S, t, m, Empty(S, t)) == m
  {
    assert m.unrecognized + [] == m.unrecognized;
    assert MergeMsg(S, t, m, Empty(S, t)).slots == m.slots;
  }

  lemma MergeEmptyLeft(S: MsgTable, t: nat, m: Msg)
    requires MsgOk(S, t, m, Typed)
    ensures MergeMsg(S, t, Empty(S, t), m) == m
  {
    assert [] + m.unrecognized == m.unrecognized;
    assert Shape(S, t, m, Typed);
    forall k | 0 <= k < |m.slots|
      ensures MergeSlot(S, DefAt(S, t, k), Slot([]), m.slots[k]) == m.slots[k]
    {
      assert Slot([] + m.slots[k].entries) == m.slots[k];
    }
    assert MergeMsg(S, t, Empty(S, t), m).slots == m.slots;
  }

  /** Two values of one field that is neither repeated nor in a oneof. */
  ghost predicate Twins(S: MsgTable, def: SlotDef, a: Entry, b: Entry) {
    |def.fields| == 1 && def.rule != Oneof && EntryOk(S, def, a, Typed) && EntryOk(S, def, b, Typed)
  }

  /** They have the same number, and embedded messages are of the same type. */
  lemma TwinSubs(S: MsgTable, def: SlotDef, a: Entry, b: Entry)
    requires Twins(S, def, a, b)
    ensures a.num == b.num
    ensures var kind := KindIn(def.fields, b.num).value;
            kind.KMessage? ==> && a.v.Sub? && MsgOk(S, kind.t, a.v.m, Typed)
                               && b.v.Sub? && MsgOk(S, kind.t, b.v.m, Typed)
  {
    OnlyField(def.fields, a.num, b.num);
    var kind := KindIn(def.fields, b.num).value;
    assert ValOk(S, kind, a.v, Typed) && ValOk(S, kind, b.v, Typed);
  }

  lemma {:induction false} MergeTyped(S: MsgTable, t: nat, a: Msg, b: Msg)
    requires MsgOk(S, t, a, Typed) && MsgOk(S, t, b, Typed)
    ensures MsgOk(S, t, MergeMsg(S, t, a, b), Typed)
    decreases b
  {
    assert Shape(S, t, a, Typed) && Shape(S, t, b, Typed);
    var r := MergeMsg(S, t, a, b);
    forall k | 0 <= k < |r.slots| ensures SlotOk(S, Def(S, t)[k], r.slots[k], Typed) {
      MergeSlotTyped(S, Def(S, t)[k], a.slots[k], b.slots[k]);
    }
    assert Shape(S, t, r, Typed);
  }

  lemma {:induction false} MergeSlotTyped(S: MsgTable, def: SlotDef, a: Slot, b: Slot)
    requires def.rule == Oneof || |def.fields| == 1
    requires SlotOk(S, def, a, Typed) && SlotOk(S, def, b, Typed)
    ensures SlotOk(S, def, MergeSlot(S, def, a, b), Typed)
    decreases b
  {
    if b.entries != [] && def.rule != Repeated && def.rule != Oneof && a.entries != [] {
      MergeEntryTyped(S, def, a.entries[0], b.entries[0]);
    }
  }

  lemma {:induction false} MergeEntryTyped(S: MsgTable, def: SlotDef, a: Entry, b: Entry)
    requires Twins(S, def, a, b)
    ensures EntryOk(S, def, MergeEntry(S, def, a, b), Typed)
    decreases b
  {
    TwinSubs(S, def, a, b);
    var kind := KindIn(def.fields, b.num).value;
    if kind.KMessage? {
      MergeTyped(S, kind.t, a.v.m, b.v.m);
      assert ValOk(S, kind, MergeEntry(S, def, a, b).v, Typed);
    }
  }

  lemma {:induction false} MergeAssociative(S: MsgTable, t: nat, a: Msg, b: Msg, c: Msg)
    requires MsgOk(S, t, a, Typed) && MsgOk(S, t, b, Typed) && MsgOk(S, t, c, Typed)
    ensures MergeMsg(S, t, MergeMsg(S, t, a, b), c) == MergeMsg(S, t, a, MergeMsg(S, t, b, c))
    decreases c
  {
    assert Shape(S, t, a, Typed) && Shape(S, t, b, Typed) && Shape(S, t, c, Typed);
    var l, r := MergeMsg(S, t, MergeMsg(S, t, a, b), c), MergeMsg(S, t, a, MergeMsg(S, t, b, c));
    assert l.unrecognized == r.unrecognized;
    forall k | 0 <= k < |a.slots| ensures l.slots[k] == r.slots[k] {
      var def := Def(S, t)[k];
      MergeSlotAssociative(S, def, a.slots[k], b.slots[k], c.slots[k]);
    }
    assert l.slots == r.slots;
  }

  lemma {:induction false} MergeSlotAssociative(S: MsgTable, def: SlotDef, a: Slot, b: Slot, c: Slot)
    requires def.rule == Oneof || |def.fields| == 1
    requires SlotOk(S, def, a, Typed) && SlotOk(S, def, b, Typed) && SlotOk(S, def, c, Typed)
    ensures MergeSlot(S, def, MergeSlot(S, def, a, b), c) == MergeSlot(S, def, a, MergeSlot(S, def, b, c))
    decreases c
  {
    if def.rule == Repeated {
      assert a.entries + b.entries + c.entries == a.entries + (b.entries + c.entries);
    } else if def.rule != Oneof && a.entries != [] && b.entries != [] && c.entries != [] {
      MergeEntryAssociative(S, def, a.entries[0], b.entries[0], c.entries[0]);
    }
  }

  lemma {:induction false} MergeEntryAssociative(S: MsgTable, def: SlotDef, a: Entry, b: Entry, c: Entry)
    requires Twins(S, def, a, b) && Twins(S, def, b, c)
    ensures MergeEntry(S, def, MergeEntry(S, def, a, b), c) == MergeEntry(S, def, a, MergeEntry(S, def, b, c))
    decreases c
  {
    TwinSubs(S, def, a, b);
    TwinSubs(S, def, b, c);
    var kind := KindIn(def.fields, c.num).value;
    if kind.KMessage? {
      MergeAssociative(S, kind.t, a.v.m, b.v.m, c.v.m);
    }
  }

  // ---------------------------------------------------------------------------
  // Decoding into a message is merging
  // ---------------------------------------------------------------------------

  function Merged(S: MsgTable, t: nat, m: Msg, r: Result<Msg>): Result<Msg> {
    match r
    case Ok(x) => Ok(MergeMsg(S, t, m, x))
    case Err(e) => Err(e)
  }

  /** Storing a value after or before merging, when it comes to the same in its slot. */
  lemma PutMerged(S: MsgTable, t: nat, m: Msg, x: Msg, k: nat, e: Entry, e': Entry)
    requires |m.slots| == |x.slots| == |Def(S, t)| && k < |Def(S, t)|
    requires var def := Def(S, t)[k];
             MergeSlot(S, def, m.slots[k], Slot(Store(def.rule, x.slots[k].entries, e)))
             == Slot(Store(def.rule, MergeSlot(S, def, m.slots[k], x.slots[k]).entries, e'))
    ensures MergeMsg(S, t, m, Put(S, t, x, k, e)) == Put(S, t, MergeMsg(S, t, m, x), k, e')
  {
    hide MergeSlot, Store;
    var l, r := MergeMsg(S, t, m, Put(S, t, x, k, e)), Put(S, t, MergeMsg(S, t, m, x), k, e');
    assert l.slots == r.slots;
  }

  /** A value that is not an embedded message simply replaces, or is appended. */
  lemma PlainMerged(S: MsgTable, t: nat, m: Msg, x: Msg, k: nat, e: Entry)
    requires |m.slots| == |x.slots| == |Def(S, t)| && k < |Def(S, t)|
    requires e.v.Sub? ==> Def(S, t)[k].rule == Repeated || Def(S, t)[k].rule == Oneof
    ensures MergeMsg(S, t, m, Put(S, t, x, k, e)) == Put(S, t, MergeMsg(S, t, m, x), k, e)
  {
    var def, a, b := Def(S, t)[k], m.slots[k], x.slots[k];
    if def.rule == Repeated {
      assert a.entries + (b.entries + [e]) == (a.entries + b.entries) + [e];
      assert b.entries == [] ==> a.entries + b.entries == a.entries;
    }
    PutMerged(S, t, m, x, k, e, e);
  }

  /** The slot of an embedded message holds one of its type, or nothing. */
  lemma EmbeddedSlot(S: MsgTable, t: nat, m: Msg, k: nat, num: nat, sub: nat)
    requires MsgOk(S, t, m, Typed) && k < |Def(S, t)|
    requires Def(S, t)[k].rule != Repeated && Def(S, t)[k].rule != Oneof
    requires KindIn(Def(S, t)[k].fields, num) == Some(KMessage(sub))
    ensures |m.slots| == |Def(S, t)| && |m.slots[k].entries| <= 1
    ensures m.slots[k].entries != [] ==> m.slots[k].entries[0].num == num && m.slots[k].entries[0].v.Sub?
    ensures MsgOk(S, sub, Base(S, t, m, k, sub), Typed)
  {
    assert Shape(S, t, m, Typed);
    var def := Def(S, t)[k];
    assert SlotOk(S, def, m.slots[k], Typed);
    if m.slots[k].entries != [] {
      var e := m.slots[k].entries[0];
      assert EntryOk(S, def, e, Typed);
      OnlyField(def.fields, e.num, num);
      assert ValOk(S, KMessage(sub), e.v, Typed);
    } else {
      EmptyShape(S, sub, Typed);
    }
  }

  lemma MergeSubSlot(S: MsgTable, def: SlotDef, num: nat, sub: nat, s: Msg, w: Msg)
    requires def.rule != Repeated && def.rule != Oneof && KindIn(def.fields, num) == Some(KMessage(sub))
    ensures MergeSlot(S, def, Slot([Entry(num, Sub(s))]), Slot([Entry(num, Sub(w))]))
            == Slot([Entry(num, Sub(MergeMsg(S, sub, s, w)))])
  {
    assert MergeSub(S, sub, Sub(s), Sub(w)) == Sub(MergeMsg(S, sub, s, w));
    assert MergeEntry(S, def, Entry(num, Sub(s)), Entry(num, Sub(w))) == Entry(num, MergeSub(S, sub, Sub(s), Sub(w)));
  }

  /** Where the bases of the two decodings differ, they differ by what is already there. */
  lemma BaseMerged(S: MsgTable, t: nat, m: Msg, x: Msg, k: nat, num: nat, sub: nat, delta: Msg)
    requires MsgOk(S, t, m, Typed) && MsgOk(S, t, x, Typed) && MsgOk(S, sub, delta, Typed) && k < |Def(S, t)|
    requires Def(S, t)[k].rule != Repeated && Def(S, t)[k].rule != Oneof
    requires KindIn(Def(S, t)[k].fields, num) == Some(KMessage(sub))
    ensures |m.slots| == |x.slots| == |Def(S, t)|
    ensures var y, z := Base(S, t, x, k, sub), Base(S, t, MergeMsg(S, t, m, x), k, sub);
            MergeSlot(S, Def(S, t)[k], m.slots[k], Slot([Entry(num, Sub(MergeMsg(S, sub, y, delta)))]))
            == Slot([Entry(num, Sub(MergeMsg(S, sub, z, delta)))])
  {
    EmbeddedSlot(S, t, m, k, num, sub);
    EmbeddedSlot(S, t, x, k, num, sub);
    var def, mk, xk := Def(S, t)[k], m.slots[k], x.slots[k];
    assert MergeMsg(S, t, m, x).slots[k] == MergeSlot(S, def, mk, xk);
    var y, z := Base(S, t, x, k, sub), Base(S, t, MergeMsg(S, t, m, x), k, sub);
    hide MsgOk, MergeMsg;
    if mk.entries == [] {
      assert y == z;
    } else {
      var s := mk.entries[0].v.m;
      assert mk == Slot([Entry(num, Sub(s))]);
      MergeSubSlot(S, def, num, sub, s, MergeMsg(S, sub, y, delta));
      if xk.entries == [] {
        MergeEmptyLeft(S, sub, delta);
      } else {
        assert xk == Slot([Entry(num, Sub(y))]);
        MergeSubSlot(S, def, num, sub, s, y);
        MergeAssociative(S, sub, s, y, delta);
      }
    }
  }

  /** An embedded message merges with the one already there. */
  lemma {:induction false} EmbeddedMerged(S: MsgTable, t: nat, m: Msg, x: Msg, f: Field)
    requires MsgOk(S, t, m, Typed) && MsgOk(S, t, x, Typed)
    requires FieldFits(S, t, f) && f.Bytes? && f.kind.KMessage?
    requires Def(S, t)[f.slot].rule != Repeated && Def(S, t)[f.slot].rule != Oneof
    ensures Apply(S, t, MergeMsg(S, t, m, x), f) == Merged(S, t, m, Apply(S, t, x, f))
    decreases PayloadLength(f), 3, 0
  {
    var sub, k := f.kind.t, f.slot;
    var mx := MergeMsg(S, t, m, x);
    MergeTyped(S, t, m, x);
    EmbeddedSlot(S, t, x, k, f.num, sub);
    EmbeddedSlot(S, t, mx, k, f.num, sub);
    var y, z := Base(S, t, x, k, sub), Base(S, t, mx, k, sub);
    DecodeMerges(S, sub, f.b, y);
    DecodeMerges(S, sub, f.b, z);
    var d := DecodeMsg(S, sub, f.b, Empty(S, sub));
    if d.Ok? {
      EmptyShape(S, sub, Typed);
      DecodeOk(S, sub, f.b, Empty(S, sub), Typed);
      hide MsgOk, DecodeMsg, Base, MergeMsg, MergeSlot, Put;
      BaseMerged(S, t, m, x, k, f.num, sub, d.value);
      PutMerged(S, t, m, x, k, Entry(f.num, Sub(MergeMsg(S, sub, y, d.value))),
                Entry(f.num, Sub(MergeMsg(S, sub, z, d.value))));
    }
  }

  lemma {:induction false} ApplyMerged(S: MsgTable, t: nat, m: Msg, x: Msg, f: Field)
    requires MsgOk(S, t, m, Typed) && MsgOk(S, t, x, Typed) && FieldFits(S, t, f)
    ensures Apply(S, t, MergeMsg(S, t, m, x), f) == Merged(S, t, m, Apply(S, t, x, f))
    decreases PayloadLength(f), 4, 0
  {
    assert Shape(S, t, m, Typed) && Shape(S, t, x, Typed);
    hide MsgOk, SlotOk, DecodeMsg, MergeSlot, Put;
    match f
    case Unknown(raw) =>
      assert m.unrecognized + x.unrecognized + raw == m.unrecognized + (x.unrecognized + raw);
      assert MergeMsg(S, t, m, x.(unrecognized := x.unrecognized + raw)).slots == MergeMsg(S, t, m, x).slots;
    case Number(k, num, n) =>
      PlainMerged(S, t, m, x, k, Entry(num, Num(n)));
    case Bytes(k, num, kind, b) =>
      if kind.KMessage? {
        var rule := Def(S, t)[k].rule;
        if rule == Repeated || rule == Oneof {
          var d := DecodeMsg(S, kind.t, b, Empty(S, kind.t));
          if d.Ok? { PlainMerged(S, t, m, x, k, Entry(num, Sub(d.value))); }
        } else {
          EmbeddedMerged(S, t, m, x, f);
        }
      } else {
        PlainMerged(S, t, m, x, k, Entry(num, Raw(b)));
      }
  }

  lemma {:induction false} DecodeFromMerges(S: MsgTable, t: nat, d: slice, i: nat, m: Msg, x: Msg, has: set<nat>)
    requires MsgOk(S, t, m, Typed) && MsgOk(S, t, x, Typed) && i <= |d| && HasWithin(x, has)
    ensures DecodeFrom(S, t, d, i, MergeMsg(S, t, m, x), has) ==
            match DecodeFrom(S, t, d, i, x, has)
            case Ok((x', has')) => Ok((MergeMsg(S, t, m, x'), has'))
            case Err(e) => Err(e)
    decreases |d|, 1, |d| - i
  {
    if i < |d| && FieldAt(S, t, d, i).Ok? {
      var (f, n) := FieldAt(S, t, d, i).value;
      hide FieldAt, Apply, MergeMsg, Shape, HasWithin;
      ApplyMerged(S, t, m, x, f);
      var r := Apply(S, t, x, f);
      if r.Ok? {
        ApplyShape(S, t, d, i, x, has, Typed);
        DecodeFromMerges(S, t, d, n, m, r.value, has + Seen(f));
      }
    }
  }

  /**
    `Unmarshal` into a message accepts the same bytes as into an empty one, fails with the
    same error, and gives that message with the decoded one merged into it.
   */
  lemma {:induction false} DecodeMerges(S: MsgTable, t: nat, d: slice, m: Msg)
    requires MsgOk(S, t, m, Typed)
    ensures DecodeMsg(S, t, d, m) == Merged(S, t, m, DecodeMsg(S, t, d, Empty(S, t)))
    decreases |d|, 2, 0
  {
    EmptyShape(S, t, Typed);
    hide MergeMsg, Shape, DecodeFrom;
    MergeEmptyRight(S, t, m);
    DecodeFromMerges(S, t, d, 0, m, Empty(S, t), {});
  }

  /** Decoding a concatenation is merging. */
  lemma ConcatenationMerges(S: MsgTable, t: nat, d1: slice, d2: slice)
    requires |d1 + d2| < TWO_63
    requires DecodeMsg(S, t, d1, Empty(S, t)).Ok? && DecodeMsg(S, t, d2, Empty(S, t)).Ok?
    ensures DecodeMsg(S, t, d1 + d2, Empty(S, t))
            == Ok(MergeMsg(S, t, DecodeMsg(S, t, d1, Empty(S, t)).value, DecodeMsg(S, t, d2, Empty(S, t)).value))
  {
    var m1 := DecodeMsg(S, t, d1, Empty(S, t)).value;
    EmptyShape(S, t, Typed);
    DecodeOk(S, t, d1, Empty(S, t), Typed);
    DecodeMerges(S, t, d2, m1);
    DecodeTwice(S, t, d1, d2, Empty(S, t));
  }

  /** `Unmarshal` of a concatenation is `Unmarshal` of the second part after the first. */
  lemma DecodeTwice(S: MsgTable, t: nat, d1: slice, d2: slice, m: Msg)
    requires |d1 + d2| < TWO_63
    requires DecodeMsg(S, t, d1, m).Ok? && DecodeMsg(S, t, d2, DecodeMsg(S, t, d1, m).value).Ok?
    ensures DecodeMsg(S, t, d1 + d2, m) == DecodeMsg(S, t, d2, DecodeMsg(S, t, d1, m).value)
  {
    hide DecodeFrom;
    var (m1, has1) := DecodeFrom(S, t, d1, 0, m, {}).value;
    var (m2, has2) := DecodeFrom(S, t, d2, 0, m1, {}).value;
    PresenceBits(S, t, d2, 0, m1, {}, has1);
    assert has1 + {} == has1;
    FeedsConcat(S, t, d1, d2, m, {}, m1, has1, m2, has1 + has2);
  }
}
