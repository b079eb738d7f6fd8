/**
  Skipping one wire record of an unknown field (`skipP2Pd`), against a grammar of
  wire records given as trees.
 */
module Skip {
  import opened Wire

  // ---------------------------------------------------------------------------
  // The grammar
  // ---------------------------------------------------------------------------

  /** A parsed wire record. The byte strings are kept, so non-minimal varints are records too. */
  datatype Record =
    | Varint(tag: seq<byte>, number: seq<byte>)
    | Fixed(tag: seq<byte>, body: seq<byte>)
    | Delimited(tag: seq<byte>, len: seq<byte>, body: seq<byte>)
    | Group(tag: seq<byte>, kids: seq<Record>, close: seq<byte>)

  function WireType(tag: seq<byte>): nat {
    VarintValue(tag) % 8
  }

  function Render(r: Record): (s: seq<byte>)
    decreases r
  {
    match r
    case Varint(tag, number) => tag + number
    case Fixed(tag, body) => tag + body
    case Delimited(tag, len, body) => tag + len + body
    case Group(tag, kids, close) => tag + RenderAll(kids) + close
  }

  function RenderAll(rs: seq<Record>): (s: seq<byte>)
    decreases rs
  {
    if rs == [] then [] else Render(rs[0]) + RenderAll(rs[1..])
  }

  predicate WellFormed(r: Record)
    decreases r
  {
    IsVarint(r.tag) &&
    match r
    case Varint(tag, number) => WireType(tag) == 0 && IsVarint(number)
    case Fixed(tag, body) => (WireType(tag) == 1 && |body| == 8) || (WireType(tag) == 5 && |body| == 4)
    case Delimited(tag, len, body) =>
      WireType(tag) == 2 && IsVarint(len) && ToI64(VarintValue(len)) == |body|
    case Group(tag, kids, close) =>
      WireType(tag) == 3 && AllWellFormed(kids) && IsVarint(close) && WireType(close) == 4
  }

  predicate AllWellFormed(rs: seq<Record>)
    decreases rs
  {
    rs == [] || (WellFormed(rs[0]) && AllWellFormed(rs[1..]))
  }

  // ---------------------------------------------------------------------------
  // The skipper
  // ---------------------------------------------------------------------------

  /** The cursor after an addition to it: a negative cursor is an error. */
  function Land(at: nat, depth: nat): Result<(nat, nat)> {
    if ToI64(at) < 0 then Err(InvalidLength) else Ok((ToI64(at), depth))
  }

  /** One turn of the loop: the new cursor, possibly past the end, and the new depth. */
  function SkipStep(d: slice, i: nat, depth: nat): (r: Result<(nat, nat)>)
    requires i < |d|
    ensures r.Ok? ==> i < r.value.0 < TWO_63
  {
    var (wire, j) :- VarintAt(d, i, 0);
    match wire % 8
    case 0 =>
      var (_, e) :- VarintAt(d, j, 0);
      Ok((e, depth))
    case 1 => Land(j + 8, depth)
    case 2 =>
      var (len, a) :- VarintAt(d, j, 0);
      if ToI64(len) < 0 then Err(InvalidLength) else Land(a + ToI64(len), depth)
    case 3 => Ok((j, depth + 1))
    case 4 => if depth == 0 then Err(UnexpectedEndOfGroup) else Ok((j, depth - 1))
    case 5 => Land(j + 4, depth)
    case _ => Err(IllegalWireType)
  }

  function SkipFrom(d: slice, i: nat, depth: nat): (r: Result<nat>)
    ensures r.Ok? ==> i < r.value < TWO_63
    decreases if i < |d| then |d| - i else 0
  {
    if i >= |d| then Err(UnexpectedEOF) else
    var (n, depth') :- SkipStep(d, i, depth);
    if depth' == 0 then Ok(n) else SkipFrom(d, n, depth')
  }

  /** `skipP2Pd` */
  method SkipRecord(d: slice) returns (r: Result<nat>)
    ensures r == SkipFrom(d, 0, 0)
  {
    hide VarintAt, ToI64;
    var i, depth := 0, 0;
    while i < |d|
      invariant SkipFrom(d, 0, 0) == SkipFrom(d, i, depth)
      decreases if i < |d| then |d| - i else 0
    {
      ghost var step := SkipStep(d, i, depth);
      var tag :- ReadVarint(d, i, TWO_64);
      var (wire, j) := tag;
      TruncateTag(VarintAt(d, i, 0).value.0);
      var next: int := j;
      match wire % 8 {
        case 0 =>
          var number :- ReadVarint(d, j, TWO_64);
          next := number.1;
        case 1 => next := ToI64(j + 8);
        case 2 =>
          var len :- ReadVarint(d, j, TWO_64);
          var (v, a) := len;
          var length := ToI64(v);
          Truncate64(VarintAt(d, j, 0).value.0);
          if length < 0 { return Err(InvalidLength); }
          next := ToI64(a + length);
        case 3 => depth := depth + 1;
        case 4 =>
          if depth == 0 { return Err(UnexpectedEndOfGroup); }
          depth := depth - 1;
        case 5 => next := ToI64(j + 4);
        case _ => return Err(IllegalWireType);
      }
      if next < 0 { return Err(InvalidLength); }
      assert step == Ok((next, depth));
      if depth == 0 { return Ok(next); }
      i := next;
    }
    return Err(UnexpectedEOF);
  }

  // ---------------------------------------------------------------------------
  // Completeness: every record of the grammar is skipped exactly
  // ---------------------------------------------------------------------------

  /** `s` stands in `d` at position `i`. */
  predicate At(d: seq<byte>, i: nat, s: seq<byte>) {
    i + |s| <= |d| && d[i..i + |s|] == s
  }

  lemma AtSplit(d: seq<byte>, i: nat, s: seq<byte>, t: seq<byte>)
    requires At(d, i, s + t)
    ensures At(d, i, s) && At(d, i + |s|, t)
  {
    assert d[i..i + |s|] == d[i..i + |s + t|][..|s|];
    assert d[i + |s|..i + |s| + |t|] == d[i..i + |s + t|][|s|..];
  }

  lemma VarintHere(d: slice, i: nat, s: seq<byte>)
    requires IsVarint(s) && At(d, i, s)
    ensures VarintAt(d, i, 0) == Ok((VarintValue(s), i + |s|))
  {
    VarintAtComplete(d, i, i + |s|, 0);
  }

  lemma LeafStep(d: slice, i: nat, r: Record, depth: nat)
    requires WellFormed(r) && !r.Group? && At(d, i, Render(r))
    ensures i < |d| && SkipStep(d, i, depth) == Ok((i + |Render(r)|, depth))
  {
    hide VarintAt, VarintValue, IsVarint, ToI64;
    match r
    case Varint(tag, number) =>
      AtSplit(d, i, tag, number);
      VarintHere(d, i, tag);
      VarintHere(d, i + |tag|, number);
    case Fixed(tag, body) =>
      AtSplit(d, i, tag, body);
      VarintHere(d, i, tag);
    case Delimited(tag, len, body) =>
      AtSplit(d, i, tag + len, body);
      AtSplit(d, i, tag, len);
      VarintHere(d, i, tag);
      VarintHere(d, i + |tag|, len);
    case Group(_, _, _) =>
  }

  lemma BracketStep(d: slice, i: nat, tag: seq<byte>, depth: nat)
    requires IsVarint(tag) && At(d, i, tag)
    ensures i < |d|
    ensures WireType(tag) == 3 ==> SkipStep(d, i, depth) == Ok((i + |tag|, depth + 1))
    ensures WireType(tag) == 4 && depth > 0 ==> SkipStep(d, i, depth) == Ok((i + |tag|, depth - 1))
  {
    VarintHere(d, i, tag);
    hide VarintAt, VarintValue;
  }

  /** At the top the skipper stops right after the record; inside a group it goes on there. */
  lemma {:induction false} SkipComplete(d: slice, i: nat, r: Record, depth: nat)
    requires WellFormed(r) && At(d, i, Render(r))
    ensures depth == 0 ==> SkipFrom(d, i, 0) == Ok(i + |Render(r)|)
    ensures depth > 0 ==> SkipFrom(d, i, depth) == SkipFrom(d, i + |Render(r)|, depth)
    decreases r
  {
    hide IsVarint, SkipStep, WireType;
    if r.Group? {
      AtSplit(d, i, r.tag + RenderAll(r.kids), r.close);
      AtSplit(d, i, r.tag, RenderAll(r.kids));
      var j := i + |r.tag|;
      var k := j + |RenderAll(r.kids)|;
      BracketStep(d, i, r.tag, depth);
      SkipAllComplete(d, j, r.kids, depth + 1);
      BracketStep(d, k, r.close, depth + 1);
    } else {
      LeafStep(d, i, r, depth);
    }
  }

  lemma {:induction false} SkipAllComplete(d: slice, i: nat, rs: seq<Record>, depth: nat)
    requires AllWellFormed(rs) && At(d, i, RenderAll(rs)) && depth > 0
    ensures SkipFrom(d, i, depth) == SkipFrom(d, i + |RenderAll(rs)|, depth)
    decreases rs
  {
    hide SkipStep, WellFormed;
    if rs != [] {
      AtSplit(d, i, Render(rs[0]), RenderAll(rs[1..]));
      SkipComplete(d, i, rs[0], depth);
      SkipAllComplete(d, i + |Render(rs[0])|, rs[1..], depth);
    }
  }

  // ---------------------------------------------------------------------------
  // Soundness: what is skipped is a record of the grammar
  // ---------------------------------------------------------------------------

  /** What remains of an open group: the records still inside it and its end. */
  datatype Frame = Frame(kids: seq<Record>, close: seq<byte>)

  predicate FrameOk(f: Frame) {
    AllWellFormed(f.kids) && IsVarint(f.close) && WireType(f.close) == 4
  }

  predicate FramesOk(fs: seq<Frame>) {
    fs == [] || (FrameOk(fs[0]) && FramesOk(fs[1..]))
  }

  function RenderFrames(fs: seq<Frame>): seq<byte> {
    if fs == [] then [] else RenderAll(fs[0].kids) + fs[0].close + RenderFrames(fs[1..])
  }

  /** A record in front of what remains is the result, or the next kid of the innermost group. */
  lemma PushRecord(r: Record, rest: seq<Frame>) returns (top: seq<Record>, fs: seq<Frame>)
    requires WellFormed(r) && FramesOk(rest)
    ensures |fs| == |rest| && |top| == if rest == [] then 1 else 0
    ensures AllWellFormed(top) && FramesOk(fs)
    ensures RenderAll(top) + RenderFrames(fs) == Render(r) + RenderFrames(rest)
  {
    hide WellFormed, Render, IsVarint, WireType;
    if rest == [] {
      top, fs := [r], [];
      assert top[1..] == [];
    } else {
      var kids := [r] + rest[0].kids;
      assert kids[1..] == rest[0].kids;
      top, fs := [], [Frame(kids, rest[0].close)] + rest[1..];
      assert fs[1..] == rest[1..];
      var x, y, z, w := Render(r), RenderAll(rest[0].kids), rest[0].close, RenderFrames(rest[1..]);
      assert RenderFrames(fs) == x + y + z + w;
      assert x + y + z + w == x + (y + z + w);
    }
  }

  /** One turn that neither opens nor closes a group has passed a leaf of the grammar. */
  lemma LeafSound(d: slice, i: nat, depth: nat) returns (r: Record)
    requires i < |d| && SkipStep(d, i, depth).Ok? && SkipStep(d, i, depth).value.0 <= |d|
    requires VarintAt(d, i, 0).value.0 % 8 !in {3, 4}
    ensures WellFormed(r) && d[i..SkipStep(d, i, depth).value.0] == Render(r)
    ensures SkipStep(d, i, depth).value.1 == depth
  {
    hide VarintAt, VarintValue, IsVarint, ToI64;
    var (wire, j) := VarintAt(d, i, 0).value;
    var n := SkipStep(d, i, depth).value.0;
    VarintAtSound(d, i, 0);
    var tag := d[i..j];
    if wire % 8 == 0 {
      VarintAtSound(d, j, 0);
      r := Varint(tag, d[j..n]);
    } else if wire % 8 == 2 {
      var (len, a) := VarintAt(d, j, 0).value;
      VarintAtSound(d, j, 0);
      r := Delimited(tag, d[j..a], d[a..n]);
    } else {
      r := Fixed(tag, d[j..n]);
    }
  }

  lemma BracketSound(d: slice, i: nat, depth: nat)
    requires i < |d| && SkipStep(d, i, depth).Ok?
    ensures VarintAt(d, i, 0).Ok?
    ensures VarintAt(d, i, 0).value.0 % 8 in {3, 4} ==>
              var (j, depth') := SkipStep(d, i, depth).value;
              && j <= |d| && IsVarint(d[i..j]) && WireType(d[i..j]) == VarintAt(d, i, 0).value.0 % 8
              && depth' == if VarintAt(d, i, 0).value.0 % 8 == 3 then depth + 1 else depth - 1
  {
    VarintAtSound(d, i, 0);
    hide VarintAt, VarintValue, IsVarint;
  }

  lemma SkipUnfold(d: slice, i: nat, depth: nat)
    requires SkipFrom(d, i, depth).Ok?
    ensures i < |d| && SkipStep(d, i, depth).Ok?
    ensures var (n, k) := SkipStep(d, i, depth).value;
      SkipFrom(d, i, depth) == if k == 0 then Ok(n) else SkipFrom(d, n, k)
  {
    hide SkipStep;
  }

  lemma {:induction false} SkipSound(d: slice, i: nat, depth: nat)
    returns (top: seq<Record>, fs: seq<Frame>)
    requires SkipFrom(d, i, depth).Ok? && SkipFrom(d, i, depth).value <= |d|
    ensures |fs| == depth && (depth == 0 ==> |top| == 1) && (depth > 0 ==> top == [])
    ensures AllWellFormed(top) && FramesOk(fs)
    ensures d[i..SkipFrom(d, i, depth).value] == RenderAll(top) + RenderFrames(fs)
    decreases if i < |d| then |d| - i else 0
  {
    assert RenderFrames([]) == [] && FramesOk([]);
    hide SkipStep, SkipFrom, RenderFrames, RenderAll, FramesOk, AllWellFormed;
    SkipUnfold(d, i, depth);
    var n := SkipFrom(d, i, depth).value;
    var (j, depth') := SkipStep(d, i, depth).value;
    var rest: seq<Frame> := [];
    if depth' > 0 {
      var _, fs' := SkipSound(d, j, depth');
      rest := fs';
      RenderNone();
      assert d[i..n] == d[i..j] + d[j..n];
    }
    assert d[i..n] == d[i..j] + RenderFrames(rest) && |rest| == depth';
    top, fs := SkipFirst(d, i, depth, rest);
  }

  lemma RenderNone()
    ensures RenderAll([]) == []
  {
  }

  /** One step of the loop, in front of what the steps after it have skipped. */
  lemma SkipFirst(d: slice, i: nat, depth: nat, rest: seq<Frame>) returns (top: seq<Record>, fs: seq<Frame>)
    requires i < |d| && SkipStep(d, i, depth).Ok? && SkipStep(d, i, depth).value.0 <= |d|
    requires FramesOk(rest) && |rest| == SkipStep(d, i, depth).value.1
    ensures |fs| == depth && (depth == 0 ==> |top| == 1) && (depth > 0 ==> top == [])
    ensures AllWellFormed(top) && FramesOk(fs)
    ensures d[i..SkipStep(d, i, depth).value.0] + RenderFrames(rest) == RenderAll(top) + RenderFrames(fs)
  {
    hide Render, WellFormed, VarintAt, IsVarint, WireType, SkipStep, RenderFrames, RenderAll, FramesOk;
    BracketSound(d, i, depth);
    var j := SkipStep(d, i, depth).value.0;
    var wire := VarintAt(d, i, 0).value.0;
    if wire % 8 == 3 {
      top, fs := CloseGroup(d[i..j], rest);
    } else if wire % 8 == 4 {
      top, fs := EndFrame(d[i..j], rest);
    } else {
      var r := LeafSound(d, i, depth);
      top, fs := PushRecord(r, rest);
    }
  }

  lemma EndFrame(close: seq<byte>, rest: seq<Frame>) returns (top: seq<Record>, fs: seq<Frame>)
    requires IsVarint(close) && WireType(close) == 4 && FramesOk(rest)
    ensures top == [] && |fs| == |rest| + 1 && AllWellFormed(top) && FramesOk(fs)
    ensures RenderAll(top) + RenderFrames(fs) == close + RenderFrames(rest)
  {
    hide IsVarint, WireType;
    top, fs := [], [Frame([], close)] + rest;
    assert fs[1..] == rest;
  }

  lemma CloseGroup(tag: seq<byte>, rest: seq<Frame>) returns (top: seq<Record>, fs: seq<Frame>)
    requires IsVarint(tag) && WireType(tag) == 3 && rest != [] && FramesOk(rest)
    ensures |fs| == |rest| - 1 && |top| == if |rest| == 1 then 1 else 0
    ensures AllWellFormed(top) && FramesOk(fs)
    ensures RenderAll(top) + RenderFrames(fs) == tag + RenderFrames(rest)
  {
    hide IsVarint, WireType;
    var g := Group(tag, rest[0].kids, rest[0].close);
    assert Render(g) + RenderFrames(rest[1..]) == tag + RenderFrames(rest);
    top, fs := PushRecord(g, rest[1..]);
  }

  // ---------------------------------------------------------------------------
  // The result
  // ---------------------------------------------------------------------------

  lemma RecordAt(d: slice, i: nat) returns (r: Record)
    requires SkipFrom(d, i, 0).Ok? && SkipFrom(d, i, 0).value <= |d|
    ensures WellFormed(r) && d[i..SkipFrom(d, i, 0).value] == Render(r)
  {
    var top, fs := SkipSound(d, i, 0);
    r := top[0];
    assert top == [r] && fs == [];
    assert RenderAll(top) == Render(r) + RenderAll([]);
  }

  /**
    `skipP2Pd` succeeds with a length inside the buffer exactly when one record of
    the grammar stands there, and the length is that record's, whatever follows it.
   */
  lemma SkipIffRecord(d: slice, i: nat, n: nat)
    requires i <= n <= |d|
    ensures SkipFrom(d, i, 0) == Ok(n) <==> exists r :: WellFormed(r) && Render(r) == d[i..n]
  {
    hide SkipFrom, WellFormed, Render;
    if SkipFrom(d, i, 0) == Ok(n) {
      var r := RecordAt(d, i);
    }
    if r :| WellFormed(r) && Render(r) == d[i..n] {
      assert At(d, i, Render(r));
      SkipComplete(d, i, r, 0);
    }
  }

  /** A length past the end (which every caller rejects) means that no record fits. */
  lemma SkipPastEnd(d: slice, i: nat, n: nat)
    requires i <= n <= |d|
    requires SkipFrom(d, i, 0).Ok? && SkipFrom(d, i, 0).value > |d|
    ensures !exists r :: WellFormed(r) && Render(r) == d[i..n]
  {
    SkipIffRecord(d, i, n);
  }

  /** No record is a proper prefix of another. */
  lemma RecordsArePrefixFree(r: Record, r': Record, x: seq<byte>)
    requires WellFormed(r) && WellFormed(r') && Render(r') == Render(r) + x
    requires |Render(r')| < TWO_63
    ensures x == []
  {
    var d: slice := Render(r');
    assert At(d, 0, Render(r)) && At(d, 0, Render(r'));
    SkipComplete(d, 0, r, 0);
    SkipComplete(d, 0, r', 0);
  }

  /** Skipping depends on the record's own bytes only. */
  lemma SkipLocal(d: slice, i: nat, e: slice, j: nat)
    requires SkipFrom(d, i, 0).Ok? && SkipFrom(d, i, 0).value <= |d|
    requires At(e, j, d[i..SkipFrom(d, i, 0).value])
    ensures SkipFrom(e, j, 0) == Ok(j + SkipFrom(d, i, 0).value - i)
  {
    hide SkipFrom, WellFormed, Render;
    var r := RecordAt(d, i);
    SkipComplete(e, j, r, 0);
  }
}
