/**
  Encoding: `Size`, the bytes a message stands for, and the in-place encoder that
  fills a pre-sized buffer from its end (`Marshal`, `MarshalToSizedBuffer`).
 */
module Encode {
  import opened Wire
  import opened Schema
  import opened Message

  // ---------------------------------------------------------------------------
  // The forward encoder
  // ---------------------------------------------------------------------------

  /** The tag byte of a field whose number is at most 15, as all are here. */
  function Tag(num: nat, wireType: nat): byte {
    (8 * num + wireType) % 256
  }

  function NumberField(num: nat, i: int): seq<byte> {
    [Tag(num, 0)] + EncVarint(ToU64(i))
  }

  function DelimitedField(num: nat, b: seq<byte>): seq<byte> {
    [Tag(num, 2)] + EncVarint(|b|) + b
  }

  function EncodeMsg(m: Msg): seq<byte>
    decreases m
  {
    EncodeSlots(m.slots) + m.unrecognized
  }

  function EncodeSlots(ss: seq<Slot>): seq<byte>
    decreases ss
  {
    if ss == [] then [] else EncodeEntries(ss[0].entries) + EncodeSlots(ss[1..])
  }

  function EncodeEntries(es: seq<Entry>): seq<byte>
    decreases es
  {
    if es == [] then [] else EncodeEntry(es[0]) + EncodeEntries(es[1..])
  }

  function EncodeEntry(e: Entry): seq<byte>
    decreases e
  {
    match e.v
    case Num(i) => NumberField(e.num, i)
    case Raw(b) => DelimitedField(e.num, b)
    case Sub(m) => DelimitedField(e.num, EncodeMsg(m))
    case NilPayload => []
  }

  // ---------------------------------------------------------------------------
  // Size
  // ---------------------------------------------------------------------------

  /** `Size`: computed with `sovP2Pd`, without encoding anything. */
  function Size(m: Msg): nat
    decreases m
  {
    SizeSlots(m.slots) + |m.unrecognized|
  }

  function SizeSlots(ss: seq<Slot>): nat
    decreases ss
  {
    if ss == [] then 0 else SizeEntries(ss[0].entries) + SizeSlots(ss[1..])
  }

  function SizeEntries(es: seq<Entry>): nat
    decreases es
  {
    if es == [] then 0 else SizeEntry(es[0]) + SizeEntries(es[1..])
  }

  function SizeEntry(e: Entry): nat
    decreases e
  {
    match e.v
    case Num(i) => 1 + Sov(ToU64(i))
    case Raw(b) => 1 + |b| + Sov(|b|)
    case Sub(m) => 1 + Size(m) + Sov(Size(m))
    case NilPayload => 0
  }

  /** `Size` is the length of the encoding. */
  lemma {:induction false} SizeIsLength(m: Msg)
    ensures Size(m) == |EncodeMsg(m)|
    decreases m
  {
    SizeSlotsIsLength(m.slots);
  }

  lemma {:induction false} SizeSlotsIsLength(ss: seq<Slot>)
    ensures SizeSlots(ss) == |EncodeSlots(ss)|
    decreases ss
  {
    if ss != [] {
      SizeEntriesIsLength(ss[0].entries);
      SizeSlotsIsLength(ss[1..]);
    }
  }

  lemma {:induction false} SizeEntriesIsLength(es: seq<Entry>)
    ensures SizeEntries(es) == |EncodeEntries(es)|
    decreases es
  {
    if es != [] {
      SizeEntryIsLength(es[0]);
      SizeEntriesIsLength(es[1..]);
    }
  }

  lemma {:induction false} SizeEntryIsLength(e: Entry)
    ensures SizeEntry(e) == |EncodeEntry(e)|
    decreases e
  {
    hide EncVarint, Sov;
    match e.v
    case Num(i) => SovIsLength(ToU64(i));
    case Raw(b) => SovIsLength(|b|);
    case Sub(m) =>
      SizeIsLength(m);
      SovIsLength(Size(m));
    case NilPayload =>
  }

  // ---------------------------------------------------------------------------
  // The in-place encoder
  // ---------------------------------------------------------------------------

  /** `now` is `was` with `x` written so that it ends just before `hi`. */
  predicate Wrote(now: seq<byte>, was: seq<byte>, hi: nat, x: seq<byte>) {
    |x| <= hi <= |was| && now == Splice(was, hi - |x|, x)
  }

  /** `now` differs from `was` in the window `[lo, hi)` at most. */
  predicate Outside(now: seq<byte>, was: seq<byte>, lo: nat, hi: nat) {
    lo <= hi <= |was| == |now| && now[..lo] == was[..lo] && now[hi..] == was[hi..]
  }

  lemma WroteMore(now: seq<byte>, mid: seq<byte>, was: seq<byte>, hi: nat, x: seq<byte>, y: seq<byte>)
    requires Wrote(mid, was, hi, x) && Wrote(now, mid, hi - |x|, y)
    ensures Wrote(now, was, hi, y + x)
  {
    SpliceBefore(was, hi - |x| - |y|, y, x);
  }

  lemma OutsideAfter(now: seq<byte>, mid: seq<byte>, was: seq<byte>, lo: nat, hi: nat, x: seq<byte>)
    requires Wrote(mid, was, hi, x) && lo <= hi - |x| && Outside(now, mid, lo, hi - |x|)
    ensures Outside(now, was, lo, hi)
  {
    assert now[..lo] == mid[..lo] == was[..lo];
    assert now[hi..] == now[hi - |x|..][|x|..] == mid[hi - |x|..][|x|..] == mid[hi..] == was[hi..];
  }

  /** `i -= len(b); copy(dAtA[i:], b)` */
  method CopyBefore(dAtA: array<byte>, hi: nat, b: seq<byte>) returns (i: nat)
    requires |b| <= hi <= dAtA.Length
    modifies dAtA
    ensures i == hi - |b| && Wrote(dAtA[..], old(dAtA[..]), hi, b)
  {
    i := hi - |b|;
    forall k | 0 <= k < |b| { dAtA[i + k] := b[k]; }
    assert dAtA[..] == Splice(old(dAtA[..]), i, b);
  }

  /** `i = encodeVarintP2Pd(dAtA, i, v); i--; dAtA[i] = tag` */
  method PutHeader(dAtA: array<byte>, hi: nat, v: nat, tag: byte) returns (i: nat)
    requires v < TWO_64 && 1 + Sov(v) <= hi <= dAtA.Length
    modifies dAtA
    ensures i == hi - 1 - |EncVarint(v)| && Wrote(dAtA[..], old(dAtA[..]), hi, [tag] + EncVarint(v))
  {
    SovIsLength(v);
    hide Sov, EncVarint;
    i := EncodeVarint(dAtA, hi, v);
    ghost var mid := dAtA[..];
    i := i - 1;
    dAtA[i] := tag;
    assert dAtA[..] == Splice(mid, i, [tag]);
    WroteMore(dAtA[..], mid, old(dAtA[..]), hi, EncVarint(v), [tag]);
  }

  /** One value of a field. The window `[lo, hi)` is the sub-slice the source passes. */
  method MarshalEntry(S: MsgTable, def: SlotDef, e: Entry, dAtA: array<byte>, lo: nat, hi: nat)
    returns (r: Result<nat>)
    requires EntryOk(S, def, e, Typed)
    requires lo + SizeEntry(e) <= hi <= dAtA.Length < TWO_63
    modifies dAtA
    ensures r.Ok? <==> EntryOk(S, def, e, Complete)
    ensures r.Ok? ==> r.value == SizeEntry(e) && Wrote(dAtA[..], old(dAtA[..]), hi, EncodeEntry(e))
    ensures r.Err? ==> r.error == RequiredNotSet && Outside(dAtA[..], old(dAtA[..]), lo, hi)
    decreases e, 0
  {
    SizeEntryIsLength(e);
    hide Wrote, Outside, EncVarint, Sov, ToU64, MsgOk;
    var i := hi;
    ghost var body: seq<byte> := [];
    match e.v {
      case Num(x) =>
        i := PutHeader(dAtA, i, ToU64(x), Tag(e.num, 0));
        return Ok(hi - i);
      case Raw(b) =>
        i := CopyBefore(dAtA, i, b);
        body := b;
      case Sub(m) =>
        SizeIsLength(m);
        var size :- MarshalToSizedBuffer(S, KindIn(def.fields, e.num).value.t, m, dAtA, lo, i);
        i := i - size;
        body := EncodeMsg(m);
      case NilPayload =>
        assert Wrote(dAtA[..], dAtA[..], hi, []) by { NothingWrote(dAtA[..], hi); }
        return Ok(0);
    }
    ghost var mid := dAtA[..];
    i := PutHeader(dAtA, i, hi - i, Tag(e.num, 2));
    WroteMore(dAtA[..], mid, old(dAtA[..]), hi, body, [Tag(e.num, 2)] + EncVarint(|body|));
    return Ok(hi - i);
  }

  lemma NothingWrote(s: seq<byte>, hi: nat)
    requires hi <= |s|
    ensures Wrote(s, s, hi, [])
  {
  }

  method MarshalSlot(S: MsgTable, def: SlotDef, s: Slot, dAtA: array<byte>, lo: nat, hi: nat)
    returns (r: Result<nat>)
    requires SlotOk(S, def, s, Typed)
    requires lo + SizeEntries(s.entries) <= hi <= dAtA.Length < TWO_63
    modifies dAtA
    ensures r.Ok? <==> SlotOk(S, def, s, Complete) && SlotSet(def, s)
    ensures r.Ok? ==> r.value == SizeEntries(s.entries) && Wrote(dAtA[..], old(dAtA[..]), hi, EncodeEntries(s.entries))
    ensures r.Err? ==> r.error == RequiredNotSet && Outside(dAtA[..], old(dAtA[..]), lo, hi)
    decreases s, 0
  {
    if def.rule == Required && s.entries == [] {
      return Err(RequiredNotSet);
    }
    r := MarshalEntries(S, def, s.entries, dAtA, lo, hi);
  }

  /** One more value in front of what was written already. */
  method MarshalNext(S: MsgTable, def: SlotDef, e: Entry, dAtA: array<byte>, lo: nat, i: nat, hi: nat,
                     ghost was: seq<byte>, ghost tail: seq<byte>)
    returns (r: Result<nat>)
    requires EntryOk(S, def, e, Typed)
    requires lo + SizeEntry(e) <= i == hi - |tail| && hi <= dAtA.Length < TWO_63
    requires Wrote(dAtA[..], was, hi, tail)
    modifies dAtA
    ensures r.Ok? <==> EntryOk(S, def, e, Complete)
    ensures r.Ok? ==> r.value == SizeEntry(e) && Wrote(dAtA[..], was, hi, EncodeEntry(e) + tail)
    ensures r.Err? ==> r.error == RequiredNotSet && Outside(dAtA[..], was, lo, hi)
    decreases e, 1
  {
    SizeEntryIsLength(e);
    hide Wrote, Outside, EntryOk, EncodeEntry, SizeEntry;
    ghost var mid := dAtA[..];
    // a oneof is given a window of exactly its own size
    var low := if def.rule == Oneof then i - SizeEntry(e) else lo;
    r := MarshalEntry(S, def, e, dAtA, low, i);
    if r.Err? {
      OutsideAfter(dAtA[..], mid, was, low, hi, tail);
      OutsideWider(dAtA[..], was, low, lo, hi);
    } else {
      WroteMore(dAtA[..], mid, was, hi, tail, EncodeEntry(e));
    }
  }

  method MarshalEntries(S: MsgTable, def: SlotDef, es: seq<Entry>, dAtA: array<byte>, lo: nat, hi: nat)
    returns (r: Result<nat>)
    requires forall x :: 0 <= x < |es| ==> EntryOk(S, def, es[x], Typed)
    requires lo + SizeEntries(es) <= hi <= dAtA.Length < TWO_63
    modifies dAtA
    ensures r.Ok? <==> forall x :: 0 <= x < |es| ==> EntryOk(S, def, es[x], Complete)
    ensures r.Ok? ==> r.value == SizeEntries(es) && Wrote(dAtA[..], old(dAtA[..]), hi, EncodeEntries(es))
    ensures r.Err? ==> r.error == RequiredNotSet && Outside(dAtA[..], old(dAtA[..]), lo, hi)
    decreases es
  {
    NothingWrote(dAtA[..], hi);
    assert es[|es|..] == [] && EncodeEntries([]) == [] && SizeEntries([]) == 0;
    hide Wrote, Outside, EntryOk, EncodeEntry, SizeEntry, EncodeEntries, SizeEntries;
    var i, j := hi, |es|;
    while j > 0
      invariant 0 <= j <= |es|
      invariant i == hi - SizeEntries(es[j..]) == hi - |EncodeEntries(es[j..])|
      invariant Wrote(dAtA[..], old(dAtA[..]), hi, EncodeEntries(es[j..]))
      invariant forall x :: j <= x < |es| ==> EntryOk(S, def, es[x], Complete)
    {
      j := j - 1;
      EntriesFrom(es, j);
      var n := MarshalNext(S, def, es[j], dAtA, lo, i, hi, old(dAtA[..]), EncodeEntries(es[j + 1..]));
      if n.Err? { return n; }
      i := i - n.value;
    }
    assert es[0..] == es;
    return Ok(hi - i);
  }

  lemma OutsideWider(now: seq<byte>, was: seq<byte>, low: nat, lo: nat, hi: nat)
    requires Outside(now, was, low, hi) && lo <= low
    ensures Outside(now, was, lo, hi)
  {
    assert now[..lo] == now[..low][..lo] == was[..low][..lo] == was[..lo];
  }

  /** The encoding and the size from value `j` on; the sizes of suffixes are bounded by the whole. */
  lemma EntriesFrom(es: seq<Entry>, j: nat)
    requires j < |es|
    ensures EncodeEntries(es[j..]) == EncodeEntry(es[j]) + EncodeEntries(es[j + 1..])
    ensures SizeEntries(es[j..]) == SizeEntry(es[j]) + SizeEntries(es[j + 1..]) <= SizeEntries(es)
    ensures SizeEntry(es[j]) == |EncodeEntry(es[j])|
  {
    assert es[j..][1..] == es[j + 1..];
    SizeEntryIsLength(es[j]);
    SizeEntriesSuffix(es, j);
  }

  lemma {:induction false} SizeEntriesSuffix(es: seq<Entry>, j: nat)
    requires j <= |es|
    ensures SizeEntries(es[j..]) <= SizeEntries(es)
  {
    if j == 0 {
      assert es[0..] == es;
    } else {
      SizeEntriesSuffix(es[1..], j - 1);
      assert es[1..][j - 1..] == es[j..];
    }
  }

  /**
    `MarshalToSizedBuffer` on the sub-slice `[lo, hi)`: exactly the last `Size` bytes of the
    window are written, with the forward encoding. It fails exactly when a required field
    is missing somewhere, and then too nothing outside the window has changed.
   */
  method MarshalToSizedBuffer(S: MsgTable, t: nat, m: Msg, dAtA: array<byte>, lo: nat, hi: nat)
    returns (r: Result<nat>)
    requires MsgOk(S, t, m, Typed)
    requires lo + Size(m) <= hi <= dAtA.Length < TWO_63
    modifies dAtA
    ensures r.Ok? <==> MsgOk(S, t, m, Complete)
    ensures r.Ok? ==> r.value == Size(m) && Wrote(dAtA[..], old(dAtA[..]), hi, EncodeMsg(m))
    ensures r.Err? ==> r.error == RequiredNotSet && Outside(dAtA[..], old(dAtA[..]), lo, hi)
    decreases m
  {
    hide Wrote, Outside, SlotOk, SlotSet;
    assert Shape(S, t, m, Typed);
    var i := CopyBefore(dAtA, hi, m.unrecognized);
    ghost var mid := dAtA[..];
    var n := MarshalSlots(S, Def(S, t), m.slots, dAtA, lo, i);
    if n.Err? {
      OutsideAfter(dAtA[..], mid, old(dAtA[..]), lo, hi, m.unrecognized);
      return n;
    }
    WroteMore(dAtA[..], mid, old(dAtA[..]), hi, m.unrecognized, EncodeSlots(m.slots));
    assert Shape(S, t, m, Complete);
    return Ok(hi - i + n.value);
  }

  /** One more field in front of what was written already. */
  method MarshalNextSlot(S: MsgTable, def: SlotDef, s: Slot, dAtA: array<byte>, lo: nat, i: nat, hi: nat,
                         ghost was: seq<byte>, ghost tail: seq<byte>)
    returns (r: Result<nat>)
    requires SlotOk(S, def, s, Typed)
    requires lo + SizeEntries(s.entries) <= i == hi - |tail| && hi <= dAtA.Length < TWO_63
    requires Wrote(dAtA[..], was, hi, tail)
    modifies dAtA
    ensures r.Ok? <==> SlotOk(S, def, s, Complete) && SlotSet(def, s)
    ensures r.Ok? ==> r.value == SizeEntries(s.entries) && Wrote(dAtA[..], was, hi, EncodeEntries(s.entries) + tail)
    ensures r.Err? ==> r.error == RequiredNotSet && Outside(dAtA[..], was, lo, hi)
    decreases s, 1
  {
    hide Wrote, Outside, SlotOk, SlotSet, EncodeEntries, SizeEntries;
    ghost var mid := dAtA[..];
    r := MarshalSlot(S, def, s, dAtA, lo, i);
    if r.Err? {
      OutsideAfter(dAtA[..], mid, was, lo, hi, tail);
    } else {
      WroteMore(dAtA[..], mid, was, hi, tail, EncodeEntries(s.entries));
    }
  }

  method MarshalSlots(S: MsgTable, def: MsgDef, ss: seq<Slot>, dAtA: array<byte>, lo: nat, hi: nat)
    returns (r: Result<nat>)
    requires |ss| == |def| && forall x :: 0 <= x < |ss| ==> SlotOk(S, def[x], ss[x], Typed)
    requires lo + SizeSlots(ss) <= hi <= dAtA.Length < TWO_63
    modifies dAtA
    ensures r.Ok? <==> forall x :: 0 <= x < |ss| ==> SlotOk(S, def[x], ss[x], Complete) && SlotSet(def[x], ss[x])
    ensures r.Ok? ==> r.value == SizeSlots(ss) && Wrote(dAtA[..], old(dAtA[..]), hi, EncodeSlots(ss))
    ensures r.Err? ==> r.error == RequiredNotSet && Outside(dAtA[..], old(dAtA[..]), lo, hi)
    decreases ss
  {
    NothingWrote(dAtA[..], hi);
    assert ss[|ss|..] == [] && EncodeSlots([]) == [] && SizeSlots([]) == 0;
    hide Wrote, Outside, SlotOk, SlotSet, EncodeEntries, SizeEntries, EncodeSlots, SizeSlots;
    var i, k := hi, |ss|;
    while k > 0
      invariant 0 <= k <= |ss|
      invariant i == hi - SizeSlots(ss[k..]) == hi - |EncodeSlots(ss[k..])|
      invariant Wrote(dAtA[..], old(dAtA[..]), hi, EncodeSlots(ss[k..]))
      invariant forall x :: k <= x < |ss| ==> SlotOk(S, def[x], ss[x], Complete) && SlotSet(def[x], ss[x])
    {
      k := k - 1;
      SlotsFrom(ss, k);
      var n := MarshalNextSlot(S, def[k], ss[k], dAtA, lo, i, hi, old(dAtA[..]), EncodeSlots(ss[k + 1..]));
      if n.Err? { return n; }
      i := i - n.value;
    }
    assert ss[0..] == ss;
    return Ok(hi - i);
  }

  lemma SlotsFrom(ss: seq<Slot>, k: nat)
    requires k < |ss|
    ensures EncodeSlots(ss[k..]) == EncodeEntries(ss[k].entries) + EncodeSlots(ss[k + 1..])
    ensures SizeSlots(ss[k..]) == SizeEntries(ss[k].entries) + SizeSlots(ss[k + 1..]) <= SizeSlots(ss)
    ensures SizeEntries(ss[k].entries) == |EncodeEntries(ss[k].entries)|
  {
    assert ss[k..][1..] == ss[k + 1..];
    SizeEntriesIsLength(ss[k].entries);
    SizeSlotsSuffix(ss, k);
  }

  lemma {:induction false} SizeSlotsSuffix(ss: seq<Slot>, k: nat)
    requires k <= |ss|
    ensures SizeSlots(ss[k..]) <= SizeSlots(ss)
  {
    if k == 0 {
      assert ss[0..] == ss;
    } else {
      SizeSlotsSuffix(ss[1..], k - 1);
      assert ss[1..][k - 1..] == ss[k..];
    }
  }

  /** `Marshal`: the buffer has exactly `Size` bytes and the encoding fills it. */
  method Marshal(S: MsgTable, t: nat, m: Msg) returns (r: Result<seq<byte>>)
    requires MsgOk(S, t, m, Typed)
    requires Size(m) < TWO_63
    ensures r == if MsgOk(S, t, m, Complete) then Ok(EncodeMsg(m)) else Err(RequiredNotSet)
  {
    SizeIsLength(m);
    var size := Size(m);
    var dAtA := new byte[size](_ => 0);
    var n :- MarshalToSizedBuffer(S, t, m, dAtA, 0, size);
    assert dAtA[..n] == dAtA[..] == EncodeMsg(m);
    return Ok(dAtA[..n]);
  }
}
