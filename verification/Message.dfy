/**
  Messages in memory. A slot holds the values of one struct field: none or one for
  an optional or required field (a nil or set pointer), any number for a repeated
  field, none or one tagged value for a oneof.
 */
module Message {
  import opened Wire
  import opened Schema
  import opened Fields

  datatype Val =
    | Num(i: int)
    | Raw(b: seq<byte>)
    | Sub(m: Msg)
    | NilPayload  // a oneof wrapper around a nil payload

  datatype Entry = Entry(num: nat, v: Val)

  datatype Slot = Slot(entries: seq<Entry>)

  datatype Msg = Msg(slots: seq<Slot>, unrecognized: seq<byte>)

  function EmptySlots(n: nat): (r: seq<Slot>)
    ensures |r| == n && forall k :: 0 <= k < n ==> r[k] == Slot([])
  {
    seq(n, _ => Slot([]))
  }

  /** `&T{}` */
  function Empty(S: MsgTable, t: nat): Msg {
    Msg(EmptySlots(|Def(S, t)|), [])
  }

  /** One record of a field the message type does not declare. */
  predicate UnknownRecord(S: MsgTable, t: nat, r: seq<byte>) {
    0 < |r| < TWO_63 && FieldAt(S, t, r, 0) == Ok((Unknown(r), |r|))
  }

  function Concat(rs: seq<seq<byte>>): seq<byte> {
    if rs == [] then [] else rs[0] + Concat(rs[1..])
  }

  predicate UnknownRecords(S: MsgTable, t: nat, rs: seq<seq<byte>>) {
    rs == [] || (UnknownRecord(S, t, rs[0]) && UnknownRecords(S, t, rs[1..]))
  }

  /** `u` is a run of records of undeclared fields. */
  ghost predicate UnknownRun(S: MsgTable, t: nat, u: seq<byte>) {
    exists rs :: UnknownRecords(S, t, rs) && u == Concat(rs)
  }

  /**
    How much is asked of a message, at every level of nesting.
    - `Typed`: only what Go's types enforce;
    - `Complete`: also that required fields are set;
    - `Clean`: also that the unrecognized bytes are whole records of undeclared fields;
    - `Canonical`: also that no oneof wrapper is around nil.
   */
  datatype Level = Typed | Complete | Clean | Canonical {
    function Rank(): nat {
      match this
      case Typed => 0
      case Complete => 1
      case Clean => 2
      case Canonical => 3
    }

    predicate AtMost(q: Level) {
      Rank() <= q.Rank()
    }
  }

  ghost predicate MsgOk(S: MsgTable, t: nat, m: Msg, q: Level)
    decreases m, 1
  {
    Shape(S, t, m, q) && (q != Typed ==> RequiredSet(S, t, m))
  }

  /** All that is asked, except that the message's own required fields be set. */
  ghost predicate Shape(S: MsgTable, t: nat, m: Msg, q: Level)
    decreases m, 0
  {
    && |m.slots| == |Def(S, t)|
    && (forall k :: 0 <= k < |m.slots| ==> SlotOk(S, Def(S, t)[k], m.slots[k], q))
    && (Clean.AtMost(q) ==> UnknownRun(S, t, m.unrecognized))
  }

  predicate RequiredSet(S: MsgTable, t: nat, m: Msg) {
    forall k :: 0 <= k < |m.slots| && k < |Def(S, t)| ==> SlotSet(Def(S, t)[k], m.slots[k])
  }

  predicate SlotSet(def: SlotDef, s: Slot) {
    def.rule == Required ==> s.entries != []
  }

  ghost predicate SlotOk(S: MsgTable, def: SlotDef, s: Slot, q: Level)
    decreases s
  {
    && (def.rule != Repeated ==> |s.entries| <= 1)
    && forall j :: 0 <= j < |s.entries| ==> EntryOk(S, def, s.entries[j], q)
  }

  ghost predicate EntryOk(S: MsgTable, def: SlotDef, e: Entry, q: Level)
    decreases e
  {
    match KindIn(def.fields, e.num)
    case None => false
    case Some(kind) => ValOk(S, kind, e.v, q) || (e.v.NilPayload? && def.rule == Oneof && q != Canonical)
  }

  ghost predicate ValOk(S: MsgTable, kind: Kind, v: Val, q: Level)
    decreases v
  {
    match kind
    case KNumber32 => v.Num? && -TWO_31 <= v.i < TWO_31
    case KNumber64 => v.Num? && -TWO_63 <= v.i < TWO_63
    case KBytes => v.Raw?
    case KMessage(t) => v.Sub? && MsgOk(S, t, v.m, q)
  }

  lemma {:induction false} MsgOkWeaken(S: MsgTable, t: nat, m: Msg, q: Level, q': Level)
    requires MsgOk(S, t, m, q) && q'.AtMost(q)
    ensures MsgOk(S, t, m, q')
    decreases m
  {
    assert Shape(S, t, m, q);
    forall k | 0 <= k < |m.slots| ensures SlotOk(S, Def(S, t)[k], m.slots[k], q') {
      SlotOkWeaken(S, Def(S, t)[k], m.slots[k], q, q');
    }
    assert Shape(S, t, m, q');
  }

  lemma {:induction false} SlotOkWeaken(S: MsgTable, def: SlotDef, s: Slot, q: Level, q': Level)
    requires SlotOk(S, def, s, q) && q'.AtMost(q)
    ensures SlotOk(S, def, s, q')
    decreases s
  {
    forall j | 0 <= j < |s.entries| ensures EntryOk(S, def, s.entries[j], q') {
      EntryOkWeaken(S, def, s.entries[j], q, q');
    }
  }

  lemma {:induction false} EntryOkWeaken(S: MsgTable, def: SlotDef, e: Entry, q: Level, q': Level)
    requires EntryOk(S, def, e, q) && q'.AtMost(q)
    ensures EntryOk(S, def, e, q')
    decreases e
  {
    var kind := KindIn(def.fields, e.num).value;
    if kind.KMessage? && !e.v.NilPayload? {
      assert ValOk(S, kind, e.v, q);
      MsgOkWeaken(S, kind.t, e.v.m, q, q');
      assert ValOk(S, kind, e.v, q');
    }
  }

  /** The empty message lacks at most its required fields. */
  lemma EmptyShape(S: MsgTable, t: nat, q: Level)
    ensures Shape(S, t, Empty(S, t), q)
  {
    var none: seq<seq<byte>> := [];
    assert UnknownRecords(S, t, none) && Concat(none) == [];
  }
}
