/**
  One field off the wire: the body of the loop in every generated `Unmarshal`, up
  to the point where the message is updated.
 */
module Fields {
  import opened Options
  import opened Wire
  import opened Schema
  import opened Skip

  /** A decoded field, or the bytes of a field the message type does not declare. */
  datatype Field =
    | Number(slot: nat, num: nat, n: int)
    | Bytes(slot: nat, num: nat, kind: Kind, b: seq<byte>)
    | Unknown(raw: seq<byte>)

  /** A length-delimited body: where it starts and ends. */
  function SpanAt(d: slice, j: nat): (r: Result<(nat, nat)>)
    requires j <= |d|
    ensures r.Ok? ==> j < r.value.0 <= r.value.1 <= |d|
  {
    var (v, a) :- VarintAt(d, j, 0);
    var len := ToI64(v);
    if len < 0 then Err(InvalidLength)
    else
      var post := ToI64(a + len);
      if post < 0 then Err(InvalidLength)
      else if post > |d| then Err(UnexpectedEOF)
      else Ok((a, post))
  }

  /**
    The two sign tests fire exactly when the length itself, or the sum of the index and
    the length, does not fit in 63 bits.
   */
  lemma InvalidLengthExactly(d: slice, j: nat)
    requires j <= |d|
    ensures SpanAt(d, j) == Err(InvalidLength) <==>
              && VarintAt(d, j, 0).Ok?
              && var (v, a) := VarintAt(d, j, 0).value;
                 v % TWO_64 >= TWO_63 || a + v % TWO_64 >= TWO_63
  {
    if VarintAt(d, j, 0).Ok? {
      var (v, a) := VarintAt(d, j, 0).value;
      var u := v % TWO_64;
      assert ToI64(v) == if u >= TWO_63 then u - TWO_64 else u;
      if u < TWO_63 {
        assert a + u >= TWO_63 <==> ToI64(a + u) < 0;
      }
    }
  }

  /** The field belongs to the slot it names, and its value to the type of that slot. */
  predicate FieldFits(S: MsgTable, t: nat, f: Field) {
    match f
    case Unknown(_) => true
    case Number(slot, num, n) =>
      && slot < |Def(S, t)|
      && var kind := KindIn(Def(S, t)[slot].fields, num);
         || (kind == Some(KNumber32) && -TWO_31 <= n < TWO_31)
         || (kind == Some(KNumber64) && -TWO_63 <= n < TWO_63)
    case Bytes(slot, num, kind, b) =>
      && slot < |Def(S, t)| && |b| < TWO_63
      && KindIn(Def(S, t)[slot].fields, num) == Some(kind)
      && (kind == KBytes || kind.KMessage?)
  }

  function FieldAt(S: MsgTable, t: nat, d: slice, i: nat): (r: Result<(Field, nat)>)
    requires i < |d|
    ensures r.Ok? ==> i < r.value.1 <= |d|
    ensures r.Ok? ==> FieldFits(S, t, r.value.0)
    ensures r.Ok? && r.value.0.Bytes? ==> |r.value.0.b| < |d|
  {
    var (wire, j) :- VarintAt(d, i, 0);
    var num := ToI32(wire % TWO_64 / 8);
    if wire % 8 == 4 then Err(EndGroupForNonGroup)
    else if num <= 0 then Err(IllegalTag)
    else
      match Lookup(Def(S, t), num)
      case None => UnknownAt(d, i)
      case Some((slot, kind)) =>
        if wire % 8 != KindWire(kind) then Err(WrongWireType) else KnownAt(slot, num, kind, d, j)
  }

  function KnownAt(slot: nat, num: nat, kind: Kind, d: slice, j: nat): (r: Result<(Field, nat)>)
    requires j <= |d|
    ensures r.Ok? ==> j < r.value.1 <= |d| && !r.value.0.Unknown?
    ensures r.Ok? && r.value.0.Bytes? ==> |r.value.0.b| <= |d| - j
  {
    if kind.KNumber32? then
      var (v, n) :- VarintAt(d, j, 0);
      Ok((Number(slot, num, ToI32(v)), n))
    else if kind.KNumber64? then
      var (v, n) :- VarintAt(d, j, 0);
      Ok((Number(slot, num, ToI64(v)), n))
    else
      var (a, b) :- SpanAt(d, j);
      Ok((Bytes(slot, num, kind, d[a..b]), b))
  }

  function UnknownAt(d: slice, i: nat): (r: Result<(Field, nat)>)
    requires i < |d|
    ensures r.Ok? ==> i < r.value.1 <= |d| && r.value.0 == Unknown(d[i..r.value.1])
  {
    var n :- SkipFrom(d[i..], 0, 0);
    var end := ToI64(i + n);
    if end < 0 then Err(InvalidLength)
    else if end > |d| then Err(UnexpectedEOF)
    else Ok((Unknown(d[i..end]), end))
  }

  method ReadSpan(d: slice, j: nat) returns (r: Result<(nat, nat)>)
    requires j <= |d|
    ensures r == SpanAt(d, j)
  {
    hide VarintAt, ToI64;
    var length :- ReadVarint(d, j, TWO_64);
    Truncate64(VarintAt(d, j, 0).value.0);
    var (v, a) := length;
    var len := ToI64(v);
    if len < 0 { return Err(InvalidLength); }
    var post := ToI64(a + len);
    if post < 0 { return Err(InvalidLength); }
    if post > |d| { return Err(UnexpectedEOF); }
    return Ok((a, post));
  }

  method ReadField(S: MsgTable, t: nat, d: slice, preIndex: nat) returns (r: Result<(Field, nat)>)
    requires preIndex < |d|
    ensures r == FieldAt(S, t, d, preIndex)
  {
    hide VarintAt, ToI64, ToI32, SpanAt, Lookup;
    var tag :- ReadVarint(d, preIndex, TWO_64);
    ghost var full := VarintAt(d, preIndex, 0).value.0;
    TruncateTag(full);
    var (wire, j) := tag;
    assert wire == full % TWO_64;
    var fieldNum, wireType := ToI32(wire / 8), wire % 8;
    if wireType == 4 { return Err(EndGroupForNonGroup); }
    if fieldNum <= 0 { return Err(IllegalTag); }
    var target := Lookup(Def(S, t), fieldNum);
    if target.None? {
      r := ReadUnknown(d, preIndex);
      return;
    }
    var (slot, kind) := target.value;
    if wireType != KindWire(kind) { return Err(WrongWireType); }
    r := ReadKnown(slot, fieldNum, kind, d, j);
  }

  method ReadKnown(slot: nat, num: nat, kind: Kind, d: slice, j: nat) returns (r: Result<(Field, nat)>)
    requires j <= |d|
    ensures r == KnownAt(slot, num, kind, d, j)
  {
    hide VarintAt, ToI64, ToI32, SpanAt;
    if kind.KNumber32? {
      var v :- ReadVarint(d, j, TWO_32);
      Truncate32(VarintAt(d, j, 0).value.0);
      return Ok((Number(slot, num, ToI32(v.0)), v.1));
    } else if kind.KNumber64? {
      var v :- ReadVarint(d, j, TWO_64);
      Truncate64(VarintAt(d, j, 0).value.0);
      return Ok((Number(slot, num, ToI64(v.0)), v.1));
    } else {
      var span :- ReadSpan(d, j);
      return Ok((Bytes(slot, num, kind, d[span.0..span.1]), span.1));
    }
  }

  method ReadUnknown(d: slice, i: nat) returns (r: Result<(Field, nat)>)
    requires i < |d|
    ensures r == UnknownAt(d, i)
  {
    var skippy :- SkipRecord(d[i..]);
    var end := ToI64(i + skippy);
    if end < 0 { return Err(InvalidLength); }
    if end > |d| { return Err(UnexpectedEOF); }
    return Ok((Unknown(d[i..end]), end));
  }

  // ---------------------------------------------------------------------------
  // A field depends on its own bytes only
  // ---------------------------------------------------------------------------

  /** `e` holds at `j` the bytes that `d` holds from `i` up to `n`. */
  predicate Same(d: seq<byte>, i: nat, n: nat, e: seq<byte>, j: nat) {
    i <= n <= |d| && j + n - i <= |e| && d[i..n] == e[j..j + n - i]
  }

  lemma SubSub(s: seq<byte>, i: nat, n: nat, a: nat, b: nat)
    requires i <= a <= b <= n <= |s|
    ensures s[i..n][a - i..b - i] == s[a..b]
  {
    var x, y := s[i..n][a - i..b - i], s[a..b];
    assert |x| == |y|;
    forall k | 0 <= k < |x| ensures x[k] == y[k] {
      assert x[k] == s[i..n][a - i + k] == s[a + k];
    }
  }

  lemma SamePart(d: seq<byte>, i: nat, n: nat, e: seq<byte>, j: nat, a: nat, b: nat)
    requires Same(d, i, n, e, j) && i <= a <= b <= n
    ensures Same(d, a, b, e, j + a - i) && j + n - i <= |e|
  {
    SubSub(d, i, n, a, b);
    SubSub(e, j, j + n - i, j + a - i, j + b - i);
  }

  lemma VarintSame(d: seq<byte>, i: nat, e: seq<byte>, j: nat)
    requires i <= |d| && VarintAt(d, i, 0).Ok? && Same(d, i, VarintAt(d, i, 0).value.1, e, j)
    ensures VarintAt(e, j, 0) == Ok((VarintAt(d, i, 0).value.0, j + VarintAt(d, i, 0).value.1 - i))
  {
    VarintAtLocal(d, i, e, j, 0);
  }

  lemma KnownSame(slot: nat, num: nat, kind: Kind, d: slice, i: nat, e: slice, j: nat)
    requires i <= |d| && KnownAt(slot, num, kind, d, i).Ok?
    requires Same(d, i, KnownAt(slot, num, kind, d, i).value.1, e, j)
    ensures var (f, n) := KnownAt(slot, num, kind, d, i).value;
            KnownAt(slot, num, kind, e, j) == Ok((f, j + n - i))
  {
    var (f, n) := KnownAt(slot, num, kind, d, i).value;
    var (v, a) := VarintAt(d, i, 0).value;
    assert a <= n;
    hide VarintAt;
    SamePart(d, i, n, e, j, i, a);
    VarintSame(d, i, e, j);
    if KindWire(kind) == 2 {
      SamePart(d, i, n, e, j, a, n);
    }
  }

  lemma UnknownSame(d: slice, i: nat, e: slice, j: nat)
    requires i < |d| && UnknownAt(d, i).Ok? && Same(d, i, UnknownAt(d, i).value.1, e, j)
    ensures var (f, n) := UnknownAt(d, i).value;
            j < |e| && UnknownAt(e, j) == Ok((f, j + n - i))
  {
    var n := UnknownAt(d, i).value.1;
    hide SkipFrom, ToI64;
    var x, y := d[i..], e[j..];
    assert x[..n - i] == d[i..n] && y[..n - i] == e[j..j + n - i];
    SkipLocal(x, 0, y, 0);
  }

  /** The number of the field at `i`, once its tag can be read. */
  function NumAt(d: slice, i: nat): int
    requires i <= |d| && VarintAt(d, i, 0).Ok?
  {
    ToI32(VarintAt(d, i, 0).value.0 % TWO_64 / 8)
  }

  lemma FieldSame(S: MsgTable, t: nat, d: slice, i: nat, e: slice, j: nat)
    requires i < |d| && FieldAt(S, t, d, i).Ok? && Same(d, i, FieldAt(S, t, d, i).value.1, e, j)
    ensures var (f, n) := FieldAt(S, t, d, i).value;
            j < |e| && FieldAt(S, t, e, j) == Ok((f, j + n - i))
  {
    assert VarintAt(d, i, 0).Ok?;
    hide FieldAt, Same, VarintAt;
    if Lookup(Def(S, t), NumAt(d, i)).None? {
      UnknownFieldSame(S, t, d, i, e, j);
    } else {
      KnownFieldSame(S, t, d, i, e, j);
    }
  }

  lemma UnknownFieldSame(S: MsgTable, t: nat, d: slice, i: nat, e: slice, j: nat)
    requires i < |d| && FieldAt(S, t, d, i).Ok? && Same(d, i, FieldAt(S, t, d, i).value.1, e, j)
    requires VarintAt(d, i, 0).Ok? && Lookup(Def(S, t), NumAt(d, i)).None?
    ensures var (f, n) := FieldAt(S, t, d, i).value;
            j < |e| && FieldAt(S, t, e, j) == Ok((f, j + n - i))
  {
    hide VarintAt, KnownAt, UnknownAt, ToI32, Lookup, Same;
    UnknownTagSame(d, i, e, j);
    UnknownSame(d, i, e, j);
  }

  lemma KnownFieldSame(S: MsgTable, t: nat, d: slice, i: nat, e: slice, j: nat)
    requires i < |d| && FieldAt(S, t, d, i).Ok? && Same(d, i, FieldAt(S, t, d, i).value.1, e, j)
    requires VarintAt(d, i, 0).Ok? && Lookup(Def(S, t), NumAt(d, i)).Some?
    ensures var (f, n) := FieldAt(S, t, d, i).value;
            j < |e| && FieldAt(S, t, e, j) == Ok((f, j + n - i))
  {
    hide VarintAt, KnownAt, UnknownAt, ToI32, Lookup, Same;
    var n, a := FieldAt(S, t, d, i).value.1, VarintAt(d, i, 0).value.1;
    var target := Lookup(Def(S, t), NumAt(d, i)).value;
    SamePart(d, i, n, e, j, i, a);
    VarintSame(d, i, e, j);
    SamePart(d, i, n, e, j, a, n);
    KnownSame(target.0, NumAt(d, i), target.1, d, a, e, j + a - i);
  }

  lemma UnknownTagSame(d: slice, i: nat, e: slice, j: nat)
    requires i < |d| && UnknownAt(d, i).Ok? && Same(d, i, UnknownAt(d, i).value.1, e, j)
    ensures VarintAt(d, i, 0).Ok?
    ensures var (wire, a) := VarintAt(d, i, 0).value; j <= |e| && VarintAt(e, j, 0) == Ok((wire, j + a - i))
  {
    UnknownTag(d, i);
    hide VarintAt, UnknownAt, Same;
    SamePart(d, i, UnknownAt(d, i).value.1, e, j, i, VarintAt(d, i, 0).value.1);
    VarintSame(d, i, e, j);
  }

  lemma UnknownIsRaw(S: MsgTable, t: nat, d: slice, i: nat)
    requires i < |d| && FieldAt(S, t, d, i).Ok? && FieldAt(S, t, d, i).value.0.Unknown?
    ensures FieldAt(S, t, d, i).value.0.raw == d[i..FieldAt(S, t, d, i).value.1]
  {
    hide VarintAt, ToI32, Lookup;
  }

  /** The tag read first is inside the record skipped. */
  lemma UnknownTag(d: slice, i: nat)
    requires i < |d| && UnknownAt(d, i).Ok?
    ensures VarintAt(d, i, 0).Ok? && VarintAt(d, i, 0).value.1 <= UnknownAt(d, i).value.1
  {
    var x := d[i..];
    var n := UnknownAt(d, i).value.1;
    hide SkipFrom, ToI64, VarintAt, WellFormed, Render, IsVarint;
    var r := RecordAt(x, 0);
    assert x[0..n - i] == d[i..n];
    hide UnknownAt;
    TagFirst(r);
    TagWithin(d, i, n, r.tag);
  }

  lemma TagWithin(d: slice, i: nat, n: nat, tag: seq<byte>)
    requires i <= n <= |d| && |tag| <= n - i && d[i..n][..|tag|] == tag && IsVarint(tag)
    ensures VarintAt(d, i, 0).Ok? && VarintAt(d, i, 0).value.1 <= n
  {
    hide VarintAt, VarintValue;
    SubSub(d, i, n, i, i + |tag|);
    VarintAtComplete(d, i, i + |tag|, 0);
  }

  lemma TagFirst(r: Record)
    requires WellFormed(r)
    ensures IsVarint(r.tag) && |r.tag| <= |Render(r)| && Render(r)[..|r.tag|] == r.tag
  {
    hide IsVarint, VarintValue, ToI64;
  }
}
