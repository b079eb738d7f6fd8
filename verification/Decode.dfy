/**
  Decoding: what `Unmarshal` makes of a byte slice and the message it is called on.
 */
module Decode {
  import opened Wire
  import opened Schema
  import opened Fields
  import opened Message

  function RuleOf(S: MsgTable, t: nat, slot: nat): Rule {
    if slot < |Def(S, t)| then Def(S, t)[slot].rule else Optional
  }

  /** Repeated fields append; all others, oneofs included, replace. */
  function Store(rule: Rule, old_: seq<Entry>, e: Entry): seq<Entry> {
    if rule == Repeated then old_ + [e] else [e]
  }

  function Put(S: MsgTable, t: nat, m: Msg, slot: nat, e: Entry): Msg {
    if slot < |m.slots| then
      m.(slots := m.slots[slot := Slot(Store(RuleOf(S, t, slot), m.slots[slot].entries, e))])
    else m
  }

  /** The message an embedded field is decoded into: the one already there, unless the
      field is repeated or in a oneof. */
  function Base(S: MsgTable, t: nat, m: Msg, slot: nat, sub: nat): Msg {
    if && RuleOf(S, t, slot) != Repeated && RuleOf(S, t, slot) != Oneof
       && slot < |m.slots| && m.slots[slot].entries != [] && m.slots[slot].entries[0].v.Sub?
    then m.slots[slot].entries[0].v.m
    else Empty(S, sub)
  }

  function PayloadLength(f: Field): nat {
    if f.Bytes? then |f.b| else 0
  }

  function Apply(S: MsgTable, t: nat, m: Msg, f: Field): Result<Msg>
    requires FieldFits(S, t, f)
    decreases PayloadLength(f), 3, 0
  {
    match f
    case Unknown(raw) => Ok(m.(unrecognized := m.unrecognized + raw))
    case Number(slot, num, n) => Ok(Put(S, t, m, slot, Entry(num, Num(n))))
    case Bytes(slot, num, kind, b) =>
      if kind.KMessage? then
        var sub :- DecodeMsg(S, kind.t, b, Base(S, t, m, slot, kind.t));
        Ok(Put(S, t, m, slot, Entry(num, Sub(sub))))
      else Ok(Put(S, t, m, slot, Entry(num, Raw(b))))
  }

  function Seen(f: Field): set<nat> {
    if f.Unknown? then {} else {f.slot}
  }

  /** The loop of `Unmarshal`, with the presence bits it collects. */
  function DecodeFrom(S: MsgTable, t: nat, d: slice, i: nat, m: Msg, has: set<nat>): Result<(Msg, set<nat>)>
    requires i <= |d|
    decreases |d|, 1, |d| - i
  {
    if i == |d| then Ok((m, has))
    else
      var (f, n) :- FieldAt(S, t, d, i);
      var m' :- Apply(S, t, m, f);
      DecodeFrom(S, t, d, n, m', has + Seen(f))
  }

  function RequiredSlots(def: MsgDef): set<nat> {
    set k | 0 <= k < |def| && def[k].rule == Required
  }

  function DecodeMsg(S: MsgTable, t: nat, d: slice, m: Msg): Result<Msg>
    decreases |d|, 2, 0
  {
    var (m', has) :- DecodeFrom(S, t, d, 0, m, {});
    if RequiredSlots(Def(S, t)) <= has then Ok(m') else Err(RequiredNotSet)
  }

  /** `Unmarshal` into the message `m0`. */
  method Unmarshal(S: MsgTable, t: nat, dAtA: slice, m0: Msg) returns (r: Result<Msg>)
    ensures r == DecodeMsg(S, t, dAtA, m0)
    decreases |dAtA|, 1
  {
    hide FieldAt, FieldFits, Put, Base, RequiredSlots;
    var m, hasFields: set<nat> := m0, {};
    var iNdEx := 0;
    while iNdEx < |dAtA|
      invariant 0 <= iNdEx <= |dAtA|
      invariant DecodeFrom(S, t, dAtA, 0, m0, {}) == DecodeFrom(S, t, dAtA, iNdEx, m, hasFields)
    {
      var field :- ReadField(S, t, dAtA, iNdEx);
      var (f, n) := field;
      var updated := UpdateMsg(S, t, m, f, |dAtA|);
      m :- updated;
      hasFields := hasFields + Seen(f);
      iNdEx := n;
    }
    if !(RequiredSlots(Def(S, t)) <= hasFields) { return Err(RequiredNotSet); }
    return Ok(m);
  }

  method UpdateMsg(S: MsgTable, t: nat, m: Msg, f: Field, ghost limit: nat) returns (r: Result<Msg>)
    requires FieldFits(S, t, f) && PayloadLength(f) < limit
    ensures r == Apply(S, t, m, f)
    decreases limit, 0
  {
    match f
    case Unknown(raw) => return Ok(m.(unrecognized := m.unrecognized + raw));
    case Number(slot, num, n) => return Ok(Put(S, t, m, slot, Entry(num, Num(n))));
    case Bytes(slot, num, kind, b) =>
      if kind.KMessage? {
        var sub :- Unmarshal(S, kind.t, b, Base(S, t, m, slot, kind.t));
        return Ok(Put(S, t, m, slot, Entry(num, Sub(sub))));
      } else {
        return Ok(Put(S, t, m, slot, Entry(num, Raw(b))));
      }
  }

  // ---------------------------------------------------------------------------
  // Decoding piece by piece
  // ---------------------------------------------------------------------------

  /** What follows in the slice does not change how its beginning is decoded. */
  lemma {:induction false} DecodePrefix(S: MsgTable, t: nat, d: slice, e: slice, i: nat, m: Msg, has: set<nat>)
    requires i <= |d| && Same(d, 0, |d|, e, 0)
    requires DecodeFrom(S, t, d, i, m, has).Ok?
    ensures var (m1, has1) := DecodeFrom(S, t, d, i, m, has).value;
            DecodeFrom(S, t, e, i, m, has) == DecodeFrom(S, t, e, |d|, m1, has1)
    decreases |d| - i
  {
    if i < |d| {
      var (f, n) := FieldAt(S, t, d, i).value;
      hide FieldAt, Apply, Same;
      SamePart(d, 0, |d|, e, 0, i, n);
      FieldSame(S, t, d, i, e, i);
      DecodePrefix(S, t, d, e, n, Apply(S, t, m, f).value, has + Seen(f));
    }
  }

  lemma DecodeForward(S: MsgTable, t: nat, d: slice, i: nat, m: Msg, has: set<nat>)
    requires i < |d| && FieldAt(S, t, d, i).Ok? && Apply(S, t, m, FieldAt(S, t, d, i).value.0).Ok?
    ensures var (f, n) := FieldAt(S, t, d, i).value;
            DecodeFrom(S, t, d, i, m, has) == DecodeFrom(S, t, d, n, Apply(S, t, m, f).value, has + Seen(f))
  {
    hide FieldAt, Apply;
  }

  lemma DecodeFirst(S: MsgTable, t: nat, d: slice, i: nat, m: Msg, has: set<nat>)
    requires i < |d| && DecodeFrom(S, t, d, i, m, has).Ok?
    ensures FieldAt(S, t, d, i).Ok? && Apply(S, t, m, FieldAt(S, t, d, i).value.0).Ok?
  {
    hide FieldAt, Apply;
  }

  lemma DecodeEnd(S: MsgTable, t: nat, d: slice, m: Msg, has: set<nat>)
    ensures DecodeFrom(S, t, d, |d|, m, has) == Ok((m, has))
  {
    hide FieldAt, Apply;
  }

  /** Nor does what comes before. */
  lemma {:induction false} DecodeSuffix(S: MsgTable, t: nat, d: slice, e: slice, i: nat, j: nat, m: Msg, has: set<nat>)
    requires i <= |d| && Same(d, i, |d|, e, j) && j + |d| - i == |e|
    requires DecodeFrom(S, t, d, i, m, has).Ok?
    ensures DecodeFrom(S, t, e, j, m, has) == DecodeFrom(S, t, d, i, m, has)
    decreases |d| - i
  {
    hide DecodeFrom, FieldAt, Apply, Same, Seen;
    if i == |d| {
      DecodeEnd(S, t, d, m, has);
      DecodeEnd(S, t, e, m, has);
    } else {
      DecodeFirst(S, t, d, i, m, has);
      var (f, n) := FieldAt(S, t, d, i).value;
      SamePart(d, i, |d|, e, j, i, n);
      FieldSame(S, t, d, i, e, j);
      DecodeForward(S, t, d, i, m, has);
      DecodeForward(S, t, e, j, m, has);
      SamePart(d, i, |d|, e, j, n, |d|);
      DecodeSuffix(S, t, d, e, n, j + n - i, Apply(S, t, m, f).value, has + Seen(f));
    }
  }

  /** Decoding `b` takes `(m, has)` to `(m', has')`. */
  ghost predicate Feeds(S: MsgTable, t: nat, b: seq<byte>, m: Msg, has: set<nat>, m': Msg, has': set<nat>) {
    |b| < TWO_63 && DecodeFrom(S, t, b, 0, m, has) == Ok((m', has'))
  }

  /** Decoding a concatenation is decoding its parts in order. */
  lemma FeedsConcat(S: MsgTable, t: nat, a: seq<byte>, b: seq<byte>,
                    m: Msg, has: set<nat>, m1: Msg, has1: set<nat>, m2: Msg, has2: set<nat>)
    requires Feeds(S, t, a, m, has, m1, has1) && Feeds(S, t, b, m1, has1, m2, has2)
    requires |a + b| < TWO_63
    ensures Feeds(S, t, a + b, m, has, m2, has2)
  {
    hide DecodeFrom;
    assert Same(a, 0, |a|, a + b, 0) && Same(b, 0, |b|, a + b, |a|);
    DecodePrefix(S, t, a, a + b, 0, m, has);
    DecodeSuffix(S, t, b, a + b, 0, |a|, m1, has1);
  }

  /** One field on its own. */
  lemma FeedsField(S: MsgTable, t: nat, d: seq<byte>, f: Field, m: Msg, m': Msg, has: set<nat>)
    requires 0 < |d| < TWO_63 && FieldAt(S, t, d, 0) == Ok((f, |d|))
    requires Apply(S, t, m, f) == Ok(m')
    ensures Feeds(S, t, d, m, has, m', has + Seen(f))
  {
    hide FieldAt, Apply;
    assert DecodeFrom(S, t, d, |d|, m', has + Seen(f)) == Ok((m', has + Seen(f)));
  }

  /** Presence bits only accumulate, and do not influence anything else. */
  lemma {:induction false} PresenceBits(S: MsgTable, t: nat, d: slice, i: nat, m: Msg, has: set<nat>, more: set<nat>)
    requires i <= |d|
    ensures DecodeFrom(S, t, d, i, m, more + has) ==
            match DecodeFrom(S, t, d, i, m, has)
            case Ok((m', has')) => Ok((m', more + has'))
            case Err(e) => Err(e)
    decreases |d| - i
  {
    if i < |d| && FieldAt(S, t, d, i).Ok? {
      var (f, n) := FieldAt(S, t, d, i).value;
      hide FieldAt, Apply;
      var r := Apply(S, t, m, f);
      if r.Ok? {
        PresenceBits(S, t, d, n, r.value, has + Seen(f), more);
        assert more + has + Seen(f) == more + (has + Seen(f));
      }
    }
  }
}
