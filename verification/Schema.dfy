/**
  What the generated code of one message type is made from: its fields, their
  numbers and kinds, which of them are required, repeated or alternatives of one
  oneof. One struct field of the Go message is one slot here.
 */
module Schema {
  import opened Options

  /** `KNumber32` also stands for the enums, which are `int32`; `KBytes` also for strings. */
  datatype Kind = KNumber32 | KNumber64 | KBytes | KMessage(t: nat)

  datatype FieldDef = FieldDef(num: nat, kind: Kind)

  datatype Rule = Required | Optional | Repeated | Oneof

  /** A slot holds one field, or all the alternatives of one oneof. */
  datatype SlotDef = SlotDef(rule: Rule, fields: seq<FieldDef>)

  type MsgDef = seq<SlotDef>

  function KindWire(kind: Kind): nat {
    if kind.KNumber32? || kind.KNumber64? then 0 else 2
  }

  function KindIn(fields: seq<FieldDef>, num: int): Option<Kind> {
    if fields == [] then None
    else if fields[0].num == num then Some(fields[0].kind)
    else KindIn(fields[1..], num)
  }

  /** The `switch fieldNum` of `Unmarshal`: the slot and the kind of a field number. */
  function Lookup(def: MsgDef, num: int): (r: Option<(nat, Kind)>)
    ensures r.Some? ==> r.value.0 < |def| && KindIn(def[r.value.0].fields, num) == Some(r.value.1)
    ensures r.None? <==> forall k :: 0 <= k < |def| ==> KindIn(def[k].fields, num).None?
  {
    if def == [] then None
    else
      match KindIn(def[0].fields, num)
      case Some(kind) => Some((0, kind))
      case None =>
        match Lookup(def[1..], num)
        case None => None
        case Some((k, kind)) => Some((k + 1, kind))
  }

  /** A field of slot `k` is found there, and its tag is one byte. */
  predicate FieldOk(def: MsgDef, k: nat, num: int)
    requires k < |def|
  {
    KindIn(def[k].fields, num).Some? ==>
      1 <= num <= 15 && Lookup(def, num) == Some((k, KindIn(def[k].fields, num).value))
  }

  /** Moreover only a oneof has several fields. */
  ghost predicate DefOk(def: MsgDef) {
    && (forall k :: 0 <= k < |def| ==> def[k].rule == Oneof || |def[k].fields| == 1)
    && (forall k, num :: 0 <= k < |def| ==> FieldOk(def, k, num))
  }

  type MsgTable = s: seq<MsgDef> | forall t :: 0 <= t < |s| ==> DefOk(s[t]) witness []

  function Def(S: MsgTable, t: nat): (def: MsgDef)
    ensures DefOk(def)
  {
    if t < |S| then S[t] else []
  }

  lemma LookupInSlot(S: MsgTable, t: nat, k: nat, num: int)
    requires k < |Def(S, t)| && KindIn(Def(S, t)[k].fields, num).Some?
    ensures 1 <= num <= 15
    ensures Lookup(Def(S, t), num) == Some((k, KindIn(Def(S, t)[k].fields, num).value))
  {
    assert FieldOk(Def(S, t), k, num);
  }
}
