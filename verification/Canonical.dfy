/**
  What `Unmarshal` returns: well-typed messages, and from an empty message canonical ones.
 */
module Canonical {
  import opened Options
  import opened Wire
  import opened Schema
  import opened Skip
  import opened Fields
  import opened Message
  import opened Decode

  /** The presence bits do not exceed what the message holds. */
  ghost predicate HasWithin(m: Msg, has: set<nat>) {
    forall k :: k in has ==> k < |m.slots| && m.slots[k].entries != []
  }

  lemma ConcatAppend(rs: seq<seq<byte>>, r: seq<byte>)
    ensures Concat(rs + [r]) == Concat(rs) + r
  {
    if rs == [] {
      assert Concat([r]) == r + Concat([]);
    } else {
      ConcatAppend(rs[1..], r);
      assert (rs + [r])[1..] == rs[1..] + [r];
    }
  }

  lemma UnknownRecordsAppend(S: MsgTable, t: nat, rs: seq<seq<byte>>, r: seq<byte>)
    requires UnknownRecords(S, t, rs) && UnknownRecord(S, t, r)
    ensures UnknownRecords(S, t, rs + [r])
  {
    hide UnknownRecord;
    if rs != [] {
      UnknownRecordsAppend(S, t, rs[1..], r);
      assert (rs + [r])[1..] == rs[1..] + [r];
    }
  }

  /** Appending the record just skipped keeps the unrecognized bytes a run of whole records. */
  lemma UnknownRunAppend(S: MsgTable, t: nat, u: seq<byte>, d: slice, i: nat)
    requires UnknownRun(S, t, u)
    requires i < |d| && FieldAt(S, t, d, i).Ok? && FieldAt(S, t, d, i).value.0.Unknown?
    ensures UnknownRun(S, t, u + FieldAt(S, t, d, i).value.0.raw)
  {
    var (f, n) := FieldAt(S, t, d, i).value;
    assert f.raw == d[i..n] by { UnknownIsRaw(S, t, d, i); }
    assert Same(d, i, n, f.raw, 0);
    FieldSame(S, t, d, i, f.raw, 0);
    hide FieldAt;
    var rs :| UnknownRecords(S, t, rs) && u == Concat(rs);
    UnknownRecordsAppend(S, t, rs, f.raw);
    ConcatAppend(rs, f.raw);
  }

  lemma PutShape(S: MsgTable, t: nat, m: Msg, slot: nat, e: Entry, q: Level)
    requires Shape(S, t, m, q) && slot < |Def(S, t)| && EntryOk(S, Def(S, t)[slot], e, q)
    ensures Shape(S, t, Put(S, t, m, slot, e), q)
  {
    hide EntryOk, UnknownRun;
    var m', def := Put(S, t, m, slot, e), Def(S, t);
    forall k | 0 <= k < |m'.slots| ensures SlotOk(S, def[k], m'.slots[k], q) {
      assert SlotOk(S, def[k], m.slots[k], q);
    }
  }

  /** The message an embedded field is decoded into is well shaped for that field's type. */
  lemma BaseShape(S: MsgTable, t: nat, m: Msg, slot: nat, num: nat, sub: nat, q: Level)
    requires Shape(S, t, m, q) && slot < |Def(S, t)|
    requires KindIn(Def(S, t)[slot].fields, num) == Some(KMessage(sub))
    ensures Shape(S, sub, Base(S, t, m, slot, sub), q)
  {
    EmptyShape(S, sub, q);
    hide UnknownRun;
    var def, s := Def(S, t)[slot], m.slots[slot];
    assert SlotOk(S, def, s, q);
    if def.rule != Oneof && s.entries != [] && s.entries[0].v.Sub? {
      var e := s.entries[0];
      assert EntryOk(S, def, e, q);
      assert |def.fields| == 1;
      OnlyField(def.fields, e.num, num);
      assert ValOk(S, KMessage(sub), e.v, q);
      assert MsgOk(S, sub, e.v.m, q);
    }
  }

  lemma OnlyField(fields: seq<FieldDef>, a: nat, b: nat)
    requires |fields| == 1 && KindIn(fields, a).Some? && KindIn(fields, b).Some?
    ensures a == b
  {
    assert fields[1..] == [];
  }

  lemma UnknownShape(S: MsgTable, t: nat, d: slice, i: nat, m: Msg, q: Level)
    requires Shape(S, t, m, q)
    requires i < |d| && FieldAt(S, t, d, i).Ok? && FieldAt(S, t, d, i).value.0.Unknown?
    ensures Shape(S, t, m.(unrecognized := m.unrecognized + FieldAt(S, t, d, i).value.0.raw), q)
  {
    hide FieldAt, UnknownRun, SlotOk;
    if Clean.AtMost(q) { UnknownRunAppend(S, t, m.unrecognized, d, i); }
  }

  lemma PutHas(S: MsgTable, t: nat, m: Msg, slot: nat, e: Entry, has: set<nat>)
    requires slot < |m.slots| && HasWithin(m, has)
    ensures HasWithin(Put(S, t, m, slot, e), has + {slot})
  {
  }

  lemma {:induction false} EntryShape(S: MsgTable, t: nat, m: Msg, f: Field, v: Val, has: set<nat>, q: Level)
    requires Shape(S, t, m, q) && HasWithin(m, has)
    requires FieldFits(S, t, f) && !f.Unknown?
    requires ValOk(S, KindIn(Def(S, t)[f.slot].fields, f.num).value, v, q)
    ensures var m' := Put(S, t, m, f.slot, Entry(f.num, v));
            Shape(S, t, m', q) && HasWithin(m', has + Seen(f))
  {
    var e := Entry(f.num, v);
    assert EntryOk(S, Def(S, t)[f.slot], e, q);
    hide EntryOk, ValOk, Put, HasWithin, UnknownRun;
    PutShape(S, t, m, f.slot, e, q);
    PutHas(S, t, m, f.slot, e, has);
  }

  /** One field keeps the message well shaped and the presence bits within it. */
  lemma {:induction false} ApplyShape(S: MsgTable, t: nat, d: slice, i: nat, m: Msg, has: set<nat>, q: Level)
    requires q == Typed || q == Canonical
    requires Shape(S, t, m, q) && HasWithin(m, has)
    requires i < |d| && FieldAt(S, t, d, i).Ok? && Apply(S, t, m, FieldAt(S, t, d, i).value.0).Ok?
    ensures var f := FieldAt(S, t, d, i).value.0; var m' := Apply(S, t, m, f).value;
            Shape(S, t, m', q) && HasWithin(m', has + Seen(f))
    decreases |d|, 0, 0
  {
    var f := FieldAt(S, t, d, i).value.0;
    hide FieldAt, Shape, Put, Base, DecodeMsg;
    match f
    case Unknown(raw) =>
      UnknownShape(S, t, d, i, m, q);
      assert has + Seen(f) == has;
    case Number(slot, num, n) =>
      EntryShape(S, t, m, f, Num(n), has, q);
    case Bytes(slot, num, kind, b) =>
      if kind.KMessage? {
        SubShape(S, t, m, f, has, q);
      } else {
        EntryShape(S, t, m, f, Raw(b), has, q);
      }
  }

  lemma {:induction false} SubShape(S: MsgTable, t: nat, m: Msg, f: Field, has: set<nat>, q: Level)
    requires (q == Typed || q == Canonical) && Shape(S, t, m, q) && HasWithin(m, has)
    requires FieldFits(S, t, f) && f.Bytes? && f.kind.KMessage? && Apply(S, t, m, f).Ok?
    ensures Shape(S, t, Apply(S, t, m, f).value, q) && HasWithin(Apply(S, t, m, f).value, has + Seen(f))
    decreases |f.b|, 3, 0
  {
    hide Shape, Put, Base, DecodeMsg, HasWithin;
    var base := Base(S, t, m, f.slot, f.kind.t);
    BaseShape(S, t, m, f.slot, f.num, f.kind.t, q);
    DecodeOk(S, f.kind.t, f.b, base, q);
    EntryShape(S, t, m, f, Sub(DecodeMsg(S, f.kind.t, f.b, base).value), has, q);
  }

  lemma {:induction false} DecodeFromOk(S: MsgTable, t: nat, d: slice, i: nat, m: Msg, has: set<nat>, q: Level)
    requires (q == Typed || q == Canonical) && Shape(S, t, m, q) && HasWithin(m, has)
    requires i <= |d| && DecodeFrom(S, t, d, i, m, has).Ok?
    ensures var (m', has') := DecodeFrom(S, t, d, i, m, has).value;
            Shape(S, t, m', q) && HasWithin(m', has')
    decreases |d|, 1, |d| - i
  {
    if i < |d| {
      var (f, n) := FieldAt(S, t, d, i).value;
      hide FieldAt, Apply, Shape, HasWithin;
      ApplyShape(S, t, d, i, m, has, q);
      DecodeFromOk(S, t, d, n, Apply(S, t, m, f).value, has + Seen(f), q);
    }
  }

  /**
    Whatever `Unmarshal` accepts gives a message of the type with its required fields set
    (in every embedded message too), so that `Marshal` never rejects it; into a message
    that was canonical but for its required fields, the empty one in particular, it gives
    a canonical one.
   */
  lemma {:induction false} DecodeOk(S: MsgTable, t: nat, d: slice, m: Msg, q: Level)
    requires (q == Typed || q == Canonical) && Shape(S, t, m, q)
    requires DecodeMsg(S, t, d, m).Ok?
    ensures MsgOk(S, t, DecodeMsg(S, t, d, m).value, q)
    decreases |d|, 2, 0
  {
    hide Shape;
    DecodeFromOk(S, t, d, 0, m, {}, q);
    var (m', has) := DecodeFrom(S, t, d, 0, m, {}).value;
    forall k | 0 <= k < |m'.slots| && k < |Def(S, t)| ensures SlotSet(Def(S, t)[k], m'.slots[k]) {
      if Def(S, t)[k].rule == Required {
        assert k in RequiredSlots(Def(S, t));
        assert k in has;
      }
    }
  }

  lemma DecodeCanonical(S: MsgTable, t: nat, d: slice)
    requires DecodeMsg(S, t, d, Empty(S, t)).Ok?
    ensures MsgOk(S, t, DecodeMsg(S, t, d, Empty(S, t)).value, Canonical)
  {
    EmptyShape(S, t, Canonical);
    DecodeOk(S, t, d, Empty(S, t), Canonical);
  }

  /** An undeclared record, in terms of the grammar: its first tag names no declared field. */
  lemma UnknownRecordIff(S: MsgTable, t: nat, r: seq<byte>)
    requires |r| < TWO_63
    ensures UnknownRecord(S, t, r) <==>
            exists rec :: WellFormed(rec) && Render(rec) == r && UndeclaredTag(S, t, rec.tag)
  {
    hide VarintAt, ToI32, Lookup, SkipFrom, IsVarint, VarintValue;
    if UnknownRecord(S, t, r) {
      UnknownTag(r, 0);
      assert r[0..] == r && r[0..|r|] == r;
      var rec := RecordAt(r, 0);
      TagFirst(rec);
      VarintHere(r, 0, rec.tag);
    }
    if rec :| WellFormed(rec) && Render(rec) == r && UndeclaredTag(S, t, rec.tag) {
      TagFirst(rec);
      assert r[0..] == r && r[0..|r|] == r;
      VarintHere(r, 0, rec.tag);
      SkipIffRecord(r, 0, |r|);
    }
  }

  predicate UndeclaredTag(S: MsgTable, t: nat, tag: seq<byte>) {
    var num := ToI32(VarintValue(tag) % TWO_64 / 8);
    num > 0 && Lookup(Def(S, t), num).None?
  }

  /** The record's tag has the number and the wire type of a field of the message. */
  predicate DeclaredAs(S: MsgTable, t: nat, rec: Record, k: nat, kind: Kind) {
    var num := ToI32(VarintValue(rec.tag) % TWO_64 / 8);
    num > 0 && Lookup(Def(S, t), num) == Some((k, kind)) && WireType(rec.tag) == KindWire(kind)
  }

  /** What such a record says. */
  function Says(rec: Record, k: nat, kind: Kind): Field
    requires ToI32(VarintValue(rec.tag) % TWO_64 / 8) > 0
  {
    var num := ToI32(VarintValue(rec.tag) % TWO_64 / 8);
    match rec
    case Varint(_, number) =>
      var v := VarintValue(number);
      Number(k, num, if kind.KNumber32? then ToI32(v) else ToI64(v))
    case Delimited(_, _, body) => Bytes(k, num, kind, body)
    case _ => Unknown([])
  }

  ghost predicate Declares(S: MsgTable, t: nat, r: seq<byte>, f: Field, rec: Record, k: nat, kind: Kind) {
    WellFormed(rec) && Render(rec) == r && DeclaredAs(S, t, rec, k, kind) && f == Says(rec, k, kind)
  }

  lemma KnownField(S: MsgTable, t: nat, r: slice, f: Field)
    requires r != [] && FieldAt(S, t, r, 0) == Ok((f, |r|)) && !f.Unknown?
    ensures VarintAt(r, 0, 0).Ok?
    ensures var (wire, j) := VarintAt(r, 0, 0).value; var num := ToI32(wire % TWO_64 / 8);
      && num > 0 && Lookup(Def(S, t), num).Some?
      && var (k, kind) := Lookup(Def(S, t), num).value;
         wire % 8 == KindWire(kind) && KnownAt(k, num, kind, r, j) == Ok((f, |r|))
  {
    hide VarintAt, ToI32, Lookup, KnownAt;
  }

  /** What is read after the tag, as a record. */
  lemma KnownRecord(r: slice, j: nat, k: nat, num: nat, kind: Kind, f: Field) returns (rec: Record)
    requires j <= |r| && IsVarint(r[0..j]) && WireType(r[0..j]) == KindWire(kind)
    requires KnownAt(k, num, kind, r, j) == Ok((f, |r|))
    ensures WellFormed(rec) && Render(rec) == r && rec.tag == r[0..j]
    ensures match rec
            case Varint(_, number) =>
              f == Number(k, num, if kind.KNumber32? then ToI32(VarintValue(number)) else ToI64(VarintValue(number)))
            case Delimited(_, _, body) => f == Bytes(k, num, kind, body)
            case _ => false
  {
    hide VarintValue, IsVarint, WireType, VarintAt, ToI32, ToI64;
    var (v, a) := VarintAt(r, j, 0).value;
    VarintAtSound(r, j, 0);
    if KindWire(kind) == 0 {
      rec := Varint(r[0..j], r[j..a]);
    } else {
      rec := Delimited(r[0..j], r[j..a], r[a..|r|]);
    }
  }

  lemma DeclaredSound(S: MsgTable, t: nat, r: slice, f: Field)
    requires r != [] && FieldAt(S, t, r, 0) == Ok((f, |r|)) && !f.Unknown?
    ensures exists rec, k, kind :: Declares(S, t, r, f, rec, k, kind)
  {
    hide FieldAt, VarintAt, VarintValue, IsVarint, ToI32, ToI64, Lookup, KnownAt, WellFormed, Render;
    KnownField(S, t, r, f);
    VarintAtSound(r, 0, 0);
    var (wire, j) := VarintAt(r, 0, 0).value;
    var num := ToI32(wire % TWO_64 / 8);
    var (k, kind) := Lookup(Def(S, t), num).value;
    var rec := KnownRecord(r, j, k, num, kind, f);
    assert Declares(S, t, r, f, rec, k, kind);
  }

  lemma DeclaredComplete(S: MsgTable, t: nat, r: slice, f: Field, rec: Record, k: nat, kind: Kind)
    requires r != [] && Declares(S, t, r, f, rec, k, kind)
    ensures FieldAt(S, t, r, 0) == Ok((f, |r|)) && !f.Unknown?
  {
    hide VarintAt, VarintValue, IsVarint, ToI32, ToI64, Lookup;
    TagFirst(rec);
    VarintHere(r, 0, rec.tag);
    var j := |rec.tag|;
    match rec
    case Varint(_, number) => VarintHere(r, j, number);
    case Delimited(_, len, body) =>
      VarintHere(r, j, len);
      assert r[j + |len|..|r|] == body;
    case _ =>
  }

  /**
    A declared field, in terms of the grammar: a record is accepted for it if and only if its tag has
    the field's number and the wire type of its kind.
   */
  lemma DeclaredFieldIff(S: MsgTable, t: nat, r: slice, f: Field)
    requires r != []
    ensures FieldAt(S, t, r, 0) == Ok((f, |r|)) && !f.Unknown? <==>
            exists rec, k, kind :: Declares(S, t, r, f, rec, k, kind)
  {
    hide FieldAt, Declares;
    if FieldAt(S, t, r, 0) == Ok((f, |r|)) && !f.Unknown? { DeclaredSound(S, t, r, f); }
    if rec, k: nat, kind :| Declares(S, t, r, f, rec, k, kind) { DeclaredComplete(S, t, r, f, rec, k, kind); }
  }
}
