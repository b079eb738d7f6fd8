/**
  Decoding what was encoded gives the message back.
 */
module RoundTrip {
  import opened Options
  import opened Wire
  import opened Schema
  import opened Fields
  import opened Message
  import opened Encode
  import opened Decode
  import opened Canonical

  // ---------------------------------------------------------------------------
  // One field
  // ---------------------------------------------------------------------------

  lemma TagAt(d: slice, num: nat, wireType: nat)
    requires d != [] && d[0] == Tag(num, wireType) && 1 <= num <= 15 && wireType < 8
    ensures VarintAt(d, 0, 0) == Ok((8 * num + wireType, 1))
    ensures (8 * num + wireType) % 8 == wireType && ToI32((8 * num + wireType) % TWO_64 / 8) == num
  {
  }

  lemma DeclaredFieldAt(S: MsgTable, t: nat, d: slice, k: nat, num: nat, kind: Kind)
    requires d != [] && k < |Def(S, t)| && KindIn(Def(S, t)[k].fields, num) == Some(kind)
    requires 1 <= num <= 15 ==> d[0] == Tag(num, KindWire(kind))
    ensures 1 <= num <= 15 && FieldAt(S, t, d, 0) == KnownAt(k, num, kind, d, 1)
  {
    LookupInSlot(S, t, k, num);
    TagAt(d, num, KindWire(kind));
    hide VarintAt, Lookup, ToI32, KnownAt, Tag;
  }

  lemma NumberFieldAt(S: MsgTable, t: nat, k: nat, num: nat, i: int)
    requires k < |Def(S, t)|
    requires var kind := KindIn(Def(S, t)[k].fields, num);
             (kind == Some(KNumber32) && -TWO_31 <= i < TWO_31) || (kind == Some(KNumber64) && -TWO_63 <= i < TWO_63)
    ensures var d := NumberField(num, i);
            0 < |d| < TWO_63 && FieldAt(S, t, d, 0) == Ok((Number(k, num, i), |d|))
  {
    hide VarintAt, EncVarint, FieldAt, ToI32, ToI64, ToU64;
    var d := NumberField(num, i);
    VarintOf(d, num, i);
    DeclaredFieldAt(S, t, d, k, num, KindIn(Def(S, t)[k].fields, num).value);
  }

  lemma VarintOf(d: seq<byte>, num: nat, i: int)
    requires d == NumberField(num, i)
    ensures 0 < |d| < TWO_63 && VarintAt(d, 1, 0) == Ok((ToU64(i), |d|))
  {
    hide ToU64;
    var x := EncVarint(ToU64(i));
    EncVarintBound(ToU64(i));
    assert d[1..1 + |x|] == x;
    VarintRoundTrip(d, 1, ToU64(i));
  }

  lemma DelimitedFieldAt(S: MsgTable, t: nat, k: nat, num: nat, kind: Kind, b: seq<byte>)
    requires k < |Def(S, t)| && KindIn(Def(S, t)[k].fields, num) == Some(kind) && KindWire(kind) == 2
    requires |DelimitedField(num, b)| < TWO_63
    ensures var d := DelimitedField(num, b);
            0 < |d| < TWO_63 && FieldAt(S, t, d, 0) == Ok((Bytes(k, num, kind, b), |d|))
  {
    var d: slice := DelimitedField(num, b);
    SpanOf(d, num, b);
    assert d[|d| - |b|..|d|] == b;
    hide SpanAt, EncVarint, FieldAt;
    DeclaredFieldAt(S, t, d, k, num, kind);
  }

  lemma SpanOf(d: slice, num: nat, b: seq<byte>)
    requires d == DelimitedField(num, b)
    ensures |b| < |d| - 1 && SpanAt(d, 1) == Ok((|d| - |b|, |d|))
  {
    var x := EncVarint(|b|);
    assert d[1..1 + |x|] == x;
    VarintRoundTrip(d, 1, |b|);
    hide VarintAt, EncVarint, ToI64;
  }

  lemma {:induction false} FeedEntry(S: MsgTable, t: nat, k: nat, e: Entry, m: Msg, has: set<nat>)
    requires k < |Def(S, t)| && EntryOk(S, Def(S, t)[k], e, Canonical)
    requires |m.slots| == |Def(S, t)| && (Def(S, t)[k].rule != Repeated ==> m.slots[k].entries == [])
    requires |EncodeEntry(e)| < TWO_63
    ensures Feeds(S, t, EncodeEntry(e), m, has, Put(S, t, m, k, e), has + {k})
    decreases e
  {
    var kind := KindIn(Def(S, t)[k].fields, e.num).value;
    assert ValOk(S, kind, e.v, Canonical);
    hide FieldAt, Feeds, NumberField, DelimitedField, Put, MsgOk, DecodeMsg;
    match e.v
    case Num(i) =>
      NumberFieldAt(S, t, k, e.num, i);
      FeedsField(S, t, NumberField(e.num, i), Number(k, e.num, i), m, Put(S, t, m, k, e), has);
    case Raw(b) =>
      DelimitedFieldAt(S, t, k, e.num, kind, b);
      FeedsField(S, t, DelimitedField(e.num, b), Bytes(k, e.num, kind, b), m, Put(S, t, m, k, e), has);
    case Sub(sub) =>
      var b := EncodeMsg(sub);
      DelimitedLength(e.num, b);
      DelimitedFieldAt(S, t, k, e.num, kind, b);
      RoundTrips(S, kind.t, sub);
      assert Base(S, t, m, k, kind.t) == Empty(S, kind.t);
      FeedsField(S, t, DelimitedField(e.num, b), Bytes(k, e.num, kind, b), m, Put(S, t, m, k, e), has);
    case NilPayload =>
  }

  lemma DelimitedLength(num: nat, b: seq<byte>)
    ensures |b| < |DelimitedField(num, b)|
  {
  }

  // ---------------------------------------------------------------------------
  // All the fields, in order
  // ---------------------------------------------------------------------------

  /** `m` with `es` appended to slot `k`. */
  function Extend(m: Msg, k: nat, es: seq<Entry>): Msg
    requires k < |m.slots|
  {
    m.(slots := m.slots[k := Slot(m.slots[k].entries + es)])
  }

  lemma {:induction false} FeedEntries(S: MsgTable, t: nat, k: nat, es: seq<Entry>, m: Msg, has: set<nat>)
    requires k < |Def(S, t)| && forall j :: 0 <= j < |es| ==> EntryOk(S, Def(S, t)[k], es[j], Canonical)
    requires |m.slots| == |Def(S, t)|
    requires Def(S, t)[k].rule != Repeated ==> |m.slots[k].entries + es| <= 1
    requires |EncodeEntries(es)| < TWO_63
    ensures Feeds(S, t, EncodeEntries(es), m, has, Extend(m, k, es), has + if es == [] then {} else {k})
    decreases es
  {
    if es == [] {
      assert m.slots[k].entries + es == m.slots[k].entries;
      assert m.slots[k := m.slots[k]] == m.slots;
      assert Extend(m, k, es) == m;
      assert has + {} == has;
    } else {
      var m1, m2 := Put(S, t, m, k, es[0]), Extend(m, k, es);
      assert m1.slots[k].entries == m.slots[k].entries + [es[0]];
      assert m.slots[k].entries + [es[0]] + es[1..] == m.slots[k].entries + es;
      assert Extend(m1, k, es[1..]) == m2;
      hide Feeds, EncodeEntry, EntryOk, Put, Extend;
      FeedEntry(S, t, k, es[0], m, has);
      FeedEntries(S, t, k, es[1..], m1, has + {k});
      var has2 := has + {k} + if es[1..] == [] then {} else {k};
      assert has2 == has + {k};
      FeedsConcat(S, t, EncodeEntry(es[0]), EncodeEntries(es[1..]), m, has, m1, has + {k}, m2, has2);
    }
  }

  /** The message with only its first `k` slots filled in. */
  function Upto(ss: seq<Slot>, k: nat): Msg
    requires k <= |ss|
  {
    Msg(ss[..k] + EmptySlots(|ss| - k), [])
  }

  lemma UptoNext(ss: seq<Slot>, k: nat)
    requires k < |ss|
    ensures Upto(ss, k).slots[k] == Slot([])
    ensures Extend(Upto(ss, k), k, ss[k].entries) == Upto(ss, k + 1)
  {
    assert Slot([] + ss[k].entries) == ss[k];
    assert (ss[..k] + EmptySlots(|ss| - k))[k := ss[k]] == ss[..k + 1] + EmptySlots(|ss| - k - 1);
  }

  lemma {:induction false} FeedSlots(S: MsgTable, t: nat, ss: seq<Slot>, k: nat, has: set<nat>) returns (has': set<nat>)
    requires |ss| == |Def(S, t)| && k <= |ss|
    requires forall j :: 0 <= j < |ss| ==> SlotOk(S, Def(S, t)[j], ss[j], Canonical)
    requires |EncodeSlots(ss[k..])| < TWO_63
    ensures Feeds(S, t, EncodeSlots(ss[k..]), Upto(ss, k), has, Msg(ss, []), has')
    ensures has <= has' && forall j :: k <= j < |ss| && ss[j].entries != [] ==> j in has'
    decreases ss, |ss| - k
  {
    if k == |ss| {
      assert ss[..k] + EmptySlots(0) == ss;
      has' := has;
    } else {
      var es := ss[k].entries;
      SlotsFrom(ss, k);
      UptoNext(ss, k);
      assert SlotOk(S, Def(S, t)[k], ss[k], Canonical);
      assert forall j :: 0 <= j < |es| ==> EntryOk(S, Def(S, t)[k], es[j], Canonical);
      assert |[] + es| == |es|;
      hide Feeds, SlotOk, EntryOk, EncodeEntries, EncodeSlots, Upto, Extend;
      FeedEntries(S, t, k, es, Upto(ss, k), has);
      var mid := has + if es == [] then {} else {k};
      has' := FeedSlots(S, t, ss, k + 1, mid);
      FeedsConcat(S, t, EncodeEntries(es), EncodeSlots(ss[k + 1..]),
                  Upto(ss, k), has, Upto(ss, k + 1), mid, Msg(ss, []), has');
    }
  }

  lemma FeedRecord(S: MsgTable, t: nat, r: seq<byte>, m: Msg, has: set<nat>)
    requires UnknownRecord(S, t, r)
    ensures Feeds(S, t, r, m, has, m.(unrecognized := m.unrecognized + r), has)
  {
    hide FieldAt, Feeds;
    assert has + Seen(Unknown(r)) == has;
    FeedsField(S, t, r, Unknown(r), m, m.(unrecognized := m.unrecognized + r), has);
  }

  lemma {:induction false} FeedUnknown(S: MsgTable, t: nat, rs: seq<seq<byte>>, m: Msg, has: set<nat>)
    requires UnknownRecords(S, t, rs) && |Concat(rs)| < TWO_63
    ensures Feeds(S, t, Concat(rs), m, has, m.(unrecognized := m.unrecognized + Concat(rs)), has)
  {
    if rs == [] {
      assert m.unrecognized + [] == m.unrecognized;
    } else {
      var r, rest := rs[0], Concat(rs[1..]);
      assert UnknownRecord(S, t, r) && UnknownRecords(S, t, rs[1..]) && Concat(rs) == r + rest;
      hide FieldAt, Feeds, UnknownRecord, UnknownRecords, Concat;
      var m1 := m.(unrecognized := m.unrecognized + r);
      assert m.unrecognized + r + rest == m.unrecognized + (r + rest);
      FeedRecord(S, t, r, m, has);
      FeedUnknown(S, t, rs[1..], m1, has);
      FeedsConcat(S, t, r, rest, m, has, m1, has, m1.(unrecognized := m1.unrecognized + rest), has);
    }
  }

  // ---------------------------------------------------------------------------
  // The results
  // ---------------------------------------------------------------------------

  /** `Unmarshal` of `Marshal` is the identity on canonical messages. */
  lemma {:induction false} RoundTrips(S: MsgTable, t: nat, m: Msg)
    requires MsgOk(S, t, m, Canonical) && |EncodeMsg(m)| < TWO_63
    ensures DecodeMsg(S, t, EncodeMsg(m), Empty(S, t)) == Ok(m)
    decreases m
  {
    assert Shape(S, t, m, Canonical);
    assert m.slots[0..] == m.slots && m.slots[..0] + EmptySlots(|m.slots|) == EmptySlots(|m.slots|);
    assert Upto(m.slots, 0) == Empty(S, t);
    var rs :| UnknownRecords(S, t, rs) && m.unrecognized == Concat(rs);
    assert [] + Concat(rs) == m.unrecognized;
    hide Feeds, SlotOk, EncodeSlots, UnknownRecords;
    var has := FeedSlots(S, t, m.slots, 0, {});
    FeedUnknown(S, t, rs, Msg(m.slots, []), has);
    FeedsConcat(S, t, EncodeSlots(m.slots), m.unrecognized, Empty(S, t), {}, Msg(m.slots, []), has, m, has);
    FeedsWhole(S, t, EncodeMsg(m), m, has);
  }

  lemma FeedsWhole(S: MsgTable, t: nat, b: seq<byte>, m: Msg, has: set<nat>)
    requires Feeds(S, t, b, Empty(S, t), {}, m, has)
    requires |m.slots| == |Def(S, t)| && RequiredSet(S, t, m)
    requires forall j :: 0 <= j < |m.slots| && m.slots[j].entries != [] ==> j in has
    ensures DecodeMsg(S, t, b, Empty(S, t)) == Ok(m)
  {
    hide DecodeFrom;
    forall k | k in RequiredSlots(Def(S, t)) ensures k in has {
      assert SlotSet(Def(S, t)[k], m.slots[k]);
    }
  }

  /**
    Canonicalisation: re-encoding what was decoded, however the input was written, and
    decoding again gives the same message, unrecognized bytes included. (`Marshal` does
    allocate `|EncodeMsg(m)|` bytes, so that length is one of a slice.)
   */
  lemma Recoding(S: MsgTable, t: nat, d: slice)
    requires DecodeMsg(S, t, d, Empty(S, t)).Ok?
    ensures var m := DecodeMsg(S, t, d, Empty(S, t)).value;
            && MsgOk(S, t, m, Complete)
            && (|EncodeMsg(m)| < TWO_63 ==> DecodeMsg(S, t, EncodeMsg(m), Empty(S, t)) == Ok(m))
  {
    hide DecodeMsg, MsgOk;
    var m := DecodeMsg(S, t, d, Empty(S, t)).value;
    DecodeCanonical(S, t, d);
    MsgOkWeaken(S, t, m, Canonical, Complete);
    if |EncodeMsg(m)| < TWO_63 { RoundTrips(S, t, m); }
  }

  /** The canonical messages are exactly those that some byte string decodes to. */
  lemma CanonicalIffDecodable(S: MsgTable, t: nat, m: Msg)
    requires |EncodeMsg(m)| < TWO_63
    ensures MsgOk(S, t, m, Canonical) <==> exists d: slice :: DecodeMsg(S, t, d, Empty(S, t)) == Ok(m)
  {
    hide DecodeMsg, MsgOk;
    if MsgOk(S, t, m, Canonical) { RoundTrips(S, t, m); }
    if d: slice :| DecodeMsg(S, t, d, Empty(S, t)) == Ok(m) { DecodeCanonical(S, t, d); }
  }

  // ---------------------------------------------------------------------------
  // Oneof wrappers around nil
  // ---------------------------------------------------------------------------

  /** The message without its oneof wrappers around nil, at every level. */
  function Normal(m: Msg): Msg
    decreases m
  {
    Msg(NormalSlots(m.slots), m.unrecognized)
  }

  function NormalSlots(ss: seq<Slot>): (r: seq<Slot>)
    ensures |r| == |ss|
    decreases ss
  {
    if ss == [] then [] else [Slot(NormalEntries(ss[0].entries))] + NormalSlots(ss[1..])
  }

  function NormalEntries(es: seq<Entry>): (r: seq<Entry>)
    ensures |r| <= |es|
    decreases es
  {
    if es == [] then [] else NormalEntry(es[0]) + NormalEntries(es[1..])
  }

  function NormalEntry(e: Entry): (r: seq<Entry>)
    ensures |r| <= 1
    decreases e
  {
    match e.v
    case NilPayload => []
    case Sub(m) => [Entry(e.num, Sub(Normal(m)))]
    case _ => [e]
  }

  /** Such a wrapper encodes to nothing. */
  lemma {:induction false} NormalEncoding(m: Msg)
    ensures EncodeMsg(Normal(m)) == EncodeMsg(m)
    decreases m
  {
    NormalSlotsEncoding(m.slots);
  }

  lemma {:induction false} NormalSlotsEncoding(ss: seq<Slot>)
    ensures EncodeSlots(NormalSlots(ss)) == EncodeSlots(ss)
    decreases ss
  {
    if ss != [] {
      NormalEntriesEncoding(ss[0].entries);
      NormalSlotsEncoding(ss[1..]);
      assert NormalSlots(ss)[1..] == NormalSlots(ss[1..]);
    }
  }

  lemma {:induction false} NormalEntriesEncoding(es: seq<Entry>)
    ensures EncodeEntries(NormalEntries(es)) == EncodeEntries(es)
    decreases es
  {
    if es != [] {
      NormalEntryEncoding(es[0]);
      NormalEntriesEncoding(es[1..]);
      var rest := NormalEntries(es[1..]);
      if NormalEntry(es[0]) == [] {
        assert NormalEntries(es) == [] + rest == rest;
        assert EncodeEntries(es) == [] + EncodeEntries(es[1..]);
      } else {
        var x := NormalEntry(es[0])[0];
        assert NormalEntries(es) == [x] + rest && ([x] + rest)[1..] == rest;
        assert EncodeEntries([x] + rest) == EncodeEntry(x) + EncodeEntries(rest);
      }
    }
  }

  lemma {:induction false} NormalEntryEncoding(e: Entry)
    ensures NormalEntry(e) == [] ==> EncodeEntry(e) == []
    ensures NormalEntry(e) != [] ==> EncodeEntry(NormalEntry(e)[0]) == EncodeEntry(e)
    decreases e
  {
    if e.v.Sub? { NormalEncoding(e.v.m); }
  }

  lemma {:induction false} NormalCanonical(S: MsgTable, t: nat, m: Msg)
    requires MsgOk(S, t, m, Clean)
    ensures MsgOk(S, t, Normal(m), Canonical)
    decreases m
  {
    assert Shape(S, t, m, Clean);
    var ss := NormalSlots(m.slots);
    forall k | 0 <= k < |ss|
      ensures SlotOk(S, Def(S, t)[k], ss[k], Canonical) && SlotSet(Def(S, t)[k], ss[k])
    {
      NormalSlotAt(m.slots, k);
      NormalSlotCanonical(S, Def(S, t)[k], m.slots[k]);
      assert SlotSet(Def(S, t)[k], m.slots[k]);
    }
    assert Shape(S, t, Normal(m), Canonical);
  }

  lemma {:induction false} NormalSlotAt(ss: seq<Slot>, k: nat)
    requires k < |ss|
    ensures NormalSlots(ss)[k] == Slot(NormalEntries(ss[k].entries))
  {
    if k > 0 { NormalSlotAt(ss[1..], k - 1); }
  }

  lemma {:induction false} NormalSlotCanonical(S: MsgTable, def: SlotDef, s: Slot)
    requires SlotOk(S, def, s, Clean)
    ensures SlotOk(S, def, Slot(NormalEntries(s.entries)), Canonical)
    ensures SlotSet(def, s) ==> SlotSet(def, Slot(NormalEntries(s.entries)))
    decreases s
  {
    NormalEntriesCanonical(S, def, s.entries);
    hide Normal;
    if def.rule == Required && s.entries != [] {
      assert EntryOk(S, def, s.entries[0], Clean);
    }
  }

  lemma {:induction false} NormalEntriesCanonical(S: MsgTable, def: SlotDef, es: seq<Entry>)
    requires forall j :: 0 <= j < |es| ==> EntryOk(S, def, es[j], Clean)
    ensures forall j :: 0 <= j < |NormalEntries(es)| ==> EntryOk(S, def, NormalEntries(es)[j], Canonical)
    decreases es
  {
    if es != [] {
      NormalEntryCanonical(S, def, es[0]);
      NormalEntriesCanonical(S, def, es[1..]);
      assert NormalEntries(es) == NormalEntry(es[0]) + NormalEntries(es[1..]);
    }
  }

  lemma {:induction false} NormalEntryCanonical(S: MsgTable, def: SlotDef, e: Entry)
    requires EntryOk(S, def, e, Clean)
    ensures NormalEntry(e) != [] ==> EntryOk(S, def, NormalEntry(e)[0], Canonical)
    decreases e
  {
    var kind := KindIn(def.fields, e.num).value;
    if e.v.Sub? {
      assert ValOk(S, kind, e.v, Clean);
      NormalCanonical(S, kind.t, e.v.m);
      assert ValOk(S, kind, Sub(Normal(e.v.m)), Canonical);
    }
  }

  /**
    The round trip for every complete message tree: what comes back is the message without
    its wrappers around nil. It is the message itself if and only if it has none.
   */
  lemma RoundTripUpToNil(S: MsgTable, t: nat, m: Msg)
    requires MsgOk(S, t, m, Clean) && |EncodeMsg(m)| < TWO_63
    ensures DecodeMsg(S, t, EncodeMsg(m), Empty(S, t)) == Ok(Normal(m))
    ensures DecodeMsg(S, t, EncodeMsg(m), Empty(S, t)) == Ok(m) <==> MsgOk(S, t, m, Canonical)
  {
    hide DecodeMsg, MsgOk;
    NormalEncoding(m);
    NormalCanonical(S, t, m);
    RoundTrips(S, t, Normal(m));
    if MsgOk(S, t, m, Canonical) { RoundTrips(S, t, m); }
  }
}
