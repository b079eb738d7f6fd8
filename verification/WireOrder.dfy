/** In which order the encoder writes: declared fields by number, then the unrecognized bytes. */
module WireOrder {
  import opened Wire
  import opened Schema
  import opened Fields
  import opened Message
  import opened Encode
  import opened Decode
  import opened Pieces
  import opened RoundTrip

  /** The bytes are these pieces. */
  ghost predicate Cuts(S: MsgTable, t: nat, b: seq<byte>, ps: seq<Piece>) {
    |b| < TWO_63 && PiecesFrom(S, t, b, 0) == Ok(ps)
  }

  // ---------------------------------------------------------------------------
  // Pieces of a concatenation
  // ---------------------------------------------------------------------------

  lemma PieceSame(d: slice, i: nat, n: nat, e: slice, j: nat)
    requires Same(d, i, n, e, j)
    ensures d[i..n] == e[j..j + n - i]
  {
  }

  /** The pieces of the end of a slice do not depend on what comes before. */
  lemma {:induction false} PiecesSuffix(S: MsgTable, t: nat, d: slice, i: nat, e: slice, j: nat)
    requires i <= |d| && Same(d, i, |d|, e, j) && j + |d| - i == |e| && PiecesFrom(S, t, d, i).Ok?
    ensures PiecesFrom(S, t, e, j) == PiecesFrom(S, t, d, i)
    decreases |d| - i
  {
    hide FieldAt, Same;
    if i < |d| {
      var n := FieldAt(S, t, d, i).value.1;
      SamePart(d, i, |d|, e, j, i, n);
      SamePart(d, i, |d|, e, j, n, |d|);
      FieldSame(S, t, d, i, e, j);
      PieceSame(d, i, n, e, j);
      PiecesSuffix(S, t, d, n, e, j + n - i);
    }
  }

  /** Nor do those of its beginning depend on what follows. */
  lemma {:induction false} PiecesPrefix(S: MsgTable, t: nat, d: slice, i: nat, e: slice, rest: seq<Piece>)
    requires i <= |d| && Same(d, 0, |d|, e, 0) && PiecesFrom(S, t, d, i).Ok?
    requires |d| <= |e| && PiecesFrom(S, t, e, |d|) == Ok(rest)
    ensures PiecesFrom(S, t, e, i) == Ok(PiecesFrom(S, t, d, i).value + rest)
    decreases |d| - i
  {
    hide FieldAt, Same;
    if i == |d| {
      assert [] + rest == rest;
    } else {
      var (f, n) := FieldAt(S, t, d, i).value;
      SamePart(d, 0, |d|, e, 0, i, n);
      FieldSame(S, t, d, i, e, i);
      PieceSame(d, i, n, e, i);
      PiecesPrefix(S, t, d, n, e, rest);
      var ps := PiecesFrom(S, t, d, n).value;
      assert [Piece(f, d[i..n])] + (ps + rest) == [Piece(f, d[i..n])] + ps + rest;
    }
  }

  lemma CutsConcat(S: MsgTable, t: nat, a: seq<byte>, b: seq<byte>, ps: seq<Piece>, qs: seq<Piece>)
    requires Cuts(S, t, a, ps) && Cuts(S, t, b, qs) && |a + b| < TWO_63
    ensures Cuts(S, t, a + b, ps + qs)
  {
    hide PiecesFrom;
    assert Same(a, 0, |a|, a + b, 0) && Same(b, 0, |b|, a + b, |a|);
    PiecesSuffix(S, t, b, 0, a + b, |a|);
    PiecesPrefix(S, t, a, 0, a + b, qs);
  }

  lemma CutsNone(S: MsgTable, t: nat)
    ensures Cuts(S, t, [], [])
  {
  }

  lemma CutsOne(S: MsgTable, t: nat, d: seq<byte>, f: Field)
    requires 0 < |d| < TWO_63 && FieldAt(S, t, d, 0) == Ok((f, |d|))
    ensures Cuts(S, t, d, [Piece(f, d)])
  {
    hide FieldAt;
    assert d[0..|d|] == d && PiecesFrom(S, t, d, |d|) == Ok([]);
    assert [Piece(f, d)] + [] == [Piece(f, d)];
  }

  // ---------------------------------------------------------------------------
  // What is encoded
  // ---------------------------------------------------------------------------

  /** Declared fields of slots `lo` to `hi - 1`, by slot. */
  ghost predicate BySlot(ps: seq<Piece>, lo: nat, hi: nat) {
    && (forall i :: 0 <= i < |ps| ==> !ps[i].f.Unknown? && lo <= ps[i].f.slot < hi)
    && forall i, j :: 0 <= i < j < |ps| ==> ps[i].f.slot <= ps[j].f.slot
  }

  ghost predicate Undeclared(qs: seq<Piece>) {
    forall i :: 0 <= i < |qs| ==> qs[i].f.Unknown?
  }

  lemma CutEntry(S: MsgTable, t: nat, k: nat, e: Entry) returns (ps: seq<Piece>)
    requires k < |Def(S, t)| && EntryOk(S, Def(S, t)[k], e, Canonical) && |EncodeEntry(e)| < TWO_63
    ensures Cuts(S, t, EncodeEntry(e), ps) && BySlot(ps, k, k + 1)
  {
    var kind := KindIn(Def(S, t)[k].fields, e.num).value;
    assert ValOk(S, kind, e.v, Canonical);
    hide FieldAt, Cuts, NumberField, DelimitedField, MsgOk;
    match e.v
    case Num(i) =>
      NumberFieldAt(S, t, k, e.num, i);
      CutsOne(S, t, NumberField(e.num, i), Number(k, e.num, i));
      ps := [Piece(Number(k, e.num, i), NumberField(e.num, i))];
    case Raw(b) =>
      DelimitedFieldAt(S, t, k, e.num, kind, b);
      CutsOne(S, t, DelimitedField(e.num, b), Bytes(k, e.num, kind, b));
      ps := [Piece(Bytes(k, e.num, kind, b), DelimitedField(e.num, b))];
    case Sub(m) =>
      var b := EncodeMsg(m);
      DelimitedFieldAt(S, t, k, e.num, kind, b);
      CutsOne(S, t, DelimitedField(e.num, b), Bytes(k, e.num, kind, b));
      ps := [Piece(Bytes(k, e.num, kind, b), DelimitedField(e.num, b))];
    case NilPayload =>
  }

  lemma {:induction false} CutEntries(S: MsgTable, t: nat, k: nat, es: seq<Entry>) returns (ps: seq<Piece>)
    requires k < |Def(S, t)| && forall j :: 0 <= j < |es| ==> EntryOk(S, Def(S, t)[k], es[j], Canonical)
    requires |EncodeEntries(es)| < TWO_63
    ensures Cuts(S, t, EncodeEntries(es), ps) && BySlot(ps, k, k + 1)
    decreases |es|
  {
    if es == [] {
      ps := [];
      CutsNone(S, t);
    } else {
      hide EntryOk, EncodeEntry, Cuts;
      var first := CutEntry(S, t, k, es[0]);
      var rest := CutEntries(S, t, k, es[1..]);
      ps := first + rest;
      CutsConcat(S, t, EncodeEntry(es[0]), EncodeEntries(es[1..]), first, rest);
    }
  }

  lemma {:induction false} CutSlots(S: MsgTable, t: nat, ss: seq<Slot>, k: nat) returns (ps: seq<Piece>)
    requires |ss| == |Def(S, t)| && k <= |ss|
    requires forall j :: 0 <= j < |ss| ==> SlotOk(S, Def(S, t)[j], ss[j], Canonical)
    requires |EncodeSlots(ss[k..])| < TWO_63
    ensures Cuts(S, t, EncodeSlots(ss[k..]), ps) && BySlot(ps, k, |ss|)
    decreases |ss| - k
  {
    if k == |ss| {
      ps := [];
      CutsNone(S, t);
    } else {
      var es := ss[k].entries;
      SlotsFrom(ss, k);
      assert SlotOk(S, Def(S, t)[k], ss[k], Canonical);
      hide SlotOk, EncodeEntries, EncodeSlots, Cuts;
      var first := CutEntries(S, t, k, es);
      var rest := CutSlots(S, t, ss, k + 1);
      ps := first + rest;
      CutsConcat(S, t, EncodeEntries(es), EncodeSlots(ss[k + 1..]), first, rest);
    }
  }

  lemma {:induction false} CutRecords(S: MsgTable, t: nat, rs: seq<seq<byte>>) returns (qs: seq<Piece>)
    requires UnknownRecords(S, t, rs) && |Concat(rs)| < TWO_63
    ensures Cuts(S, t, Concat(rs), qs) && Undeclared(qs) && AllBytes(qs) == Concat(rs)
    decreases |rs|
  {
    if rs == [] {
      qs := [];
      CutsNone(S, t);
    } else {
      hide FieldAt, Cuts;
      CutsOne(S, t, rs[0], Unknown(rs[0]));
      var rest := CutRecords(S, t, rs[1..]);
      qs := [Piece(Unknown(rs[0]), rs[0])] + rest;
      assert qs[1..] == rest;
      CutsConcat(S, t, rs[0], Concat(rs[1..]), [Piece(Unknown(rs[0]), rs[0])], rest);
    }
  }

  /** The declared fields `ps`, by slot, and after them the unrecognized bytes. */
  ghost predicate Ordered(S: MsgTable, t: nat, m: Msg, ps: seq<Piece>, qs: seq<Piece>) {
    && Cuts(S, t, EncodeMsg(m), ps + qs)
    && BySlot(ps, 0, |m.slots|) && Undeclared(qs) && AllBytes(qs) == m.unrecognized
  }

  lemma CanonicalOrder(S: MsgTable, t: nat, m: Msg)
    requires MsgOk(S, t, m, Canonical) && |EncodeMsg(m)| < TWO_63
    ensures exists ps, qs :: Ordered(S, t, m, ps, qs)
  {
    assert Shape(S, t, m, Canonical);
    var rs :| UnknownRecords(S, t, rs) && m.unrecognized == Concat(rs);
    assert m.slots[0..] == m.slots;
    hide MsgOk, SlotOk, EncodeSlots, Cuts, UnknownRecords, Concat;
    var ps := CutSlots(S, t, m.slots, 0);
    var qs := CutRecords(S, t, rs);
    CutsConcat(S, t, EncodeSlots(m.slots), m.unrecognized, ps, qs);
    assert Ordered(S, t, m, ps, qs);
  }

  /** What is read off any encoding: the declared fields by slot, then the unrecognized bytes. */
  lemma EncodingOrder(S: MsgTable, t: nat, m: Msg)
    requires MsgOk(S, t, m, Clean) && |EncodeMsg(m)| < TWO_63
    ensures exists ps, qs :: Ordered(S, t, m, ps, qs)
  {
    hide MsgOk, Cuts, BySlot;
    NormalEncoding(m);
    NormalCanonical(S, t, m);
    CanonicalOrder(S, t, Normal(m));
    var ps, qs :| Ordered(S, t, Normal(m), ps, qs);
    assert Ordered(S, t, m, ps, qs);
  }
}
