/**
  Bytes, 64-bit machine arithmetic and base-128 varints, as the generated codec
  in pb/p2pd.pb.go uses them.
 */
module Wire {

  type byte = b: int | 0 <= b < 256

  const TWO_31: int := 0x8000_0000
  const TWO_32: int := 0x1_0000_0000
  const TWO_63: int := 0x8000_0000_0000_0000
  const TWO_64: int := 0x1_0000_0000_0000_0000

  /** A Go byte slice: its length is an `int`, hence below 2^63. */
  type slice = s: seq<byte> | |s| < TWO_63

  datatype Error =
    | UnexpectedEOF
    | IntOverflow
    | InvalidLength
    | EndGroupForNonGroup
    | IllegalTag
    | WrongWireType
    | UnexpectedEndOfGroup
    | IllegalWireType
    | RequiredNotSet

  datatype Result<+T> = Ok(value: T) | Err(error: Error) {
    predicate IsFailure() {
      Err?
    }

    function PropagateFailure<U>(): Result<U>
      requires Err?
    {
      Err(error)
    }

    function Extract(): T
      requires Ok?
    {
      value
    }
  }

  /** Conversion to `int32`: keep 32 bits, read them in two's complement. */
  function ToI32(v: int): (r: int)
    ensures -TWO_31 <= r < TWO_31
    ensures -TWO_31 <= v < TWO_31 ==> r == v
  {
    var u := v % TWO_32;
    if u >= TWO_31 then u - TWO_32 else u
  }

  /** Conversion to `int` (64 bits). */
  function ToI64(v: int): (r: int)
    ensures -TWO_63 <= r < TWO_63
    ensures -TWO_63 <= v < TWO_63 ==> r == v
    ensures TWO_63 <= v < TWO_64 ==> r < 0
  {
    var u := v % TWO_64;
    if u >= TWO_63 then u - TWO_64 else u
  }

  /** Truncation to the width of the accumulator first changes neither a conversion nor the low bits. */
  lemma Truncate64(v: nat)
    ensures ToI64(v % TWO_64) == ToI64(v)
  {
    assert v % TWO_64 % TWO_64 == v % TWO_64;
  }

  lemma Truncate32(v: nat)
    ensures ToI32(v % TWO_32) == ToI32(v)
  {
    assert v % TWO_32 % TWO_32 == v % TWO_32;
  }

  lemma TruncateTag(v: nat)
    ensures v % TWO_64 % 8 == v % 8
  {
  }

  /** Conversion of a signed value to `uint64`: sign extension. */
  function ToU64(x: int): (u: nat)
    ensures u < TWO_64
    ensures -TWO_63 <= x < TWO_63 ==> ToI64(u) == x
    ensures -TWO_31 <= x < TWO_31 ==> ToI32(u) == x
  {
    x % TWO_64
  }

  // ---------------------------------------------------------------------------
  // Varints: the bytes the encoder produces and the bytes the decoder accepts
  // ---------------------------------------------------------------------------

  /** The shortest base-128 form of `v`, least significant group first. */
  function EncVarint(v: nat): (s: seq<byte>)
    ensures |s| >= 1
  {
    if v < 128 then [v] else [v % 128 + 128] + EncVarint(v / 128)
  }

  /** `s` is one varint: continuation bits on all bytes but the last, ten bytes at most. */
  predicate IsVarint(s: seq<byte>) {
    && 1 <= |s| <= 10
    && s[|s| - 1] < 128
    && forall k :: 0 <= k < |s| - 1 ==> s[k] >= 128
  }

  /** The number a sequence of base-128 groups stands for. */
  function VarintValue(s: seq<byte>): nat {
    if s == [] then 0 else s[0] % 128 + 128 * VarintValue(s[1..])
  }

  /**
    What the decoding loop computes from position `i` after `k` bytes: the number
    read, before truncation to the width of the accumulator, and the next position.
   */
  function VarintAt(d: seq<byte>, i: nat, k: nat): (r: Result<(nat, nat)>)
    requires i <= |d|
    ensures r.Ok? ==> i < r.value.1 <= |d|
    ensures r.Err? ==> r.error == IntOverflow || r.error == UnexpectedEOF
    decreases |d| - i
  {
    if k >= 10 then Err(IntOverflow)
    else if i >= |d| then Err(UnexpectedEOF)
    else if d[i] < 128 then Ok((d[i], i + 1))
    else
      var (v, n) :- VarintAt(d, i + 1, k + 1);
      Ok((d[i] - 128 + 128 * v, n))
  }

  /** The decoding loop accepts exactly the varints, and reads their value. */
  lemma {:induction false} VarintAtSound(d: seq<byte>, i: nat, k: nat)
    requires i <= |d| && k <= 10
    requires VarintAt(d, i, k).Ok?
    ensures var (v, n) := VarintAt(d, i, k).value;
            && n - i <= 10 - k
            && IsVarint(d[i..n])
            && v == VarintValue(d[i..n])
    decreases |d| - i
  {
    var (v, n) := VarintAt(d, i, k).value;
    if d[i] < 128 {
      assert d[i..n] == [d[i]];
      assert VarintValue([d[i]]) == d[i] + 128 * VarintValue([]);
    } else {
      VarintAtSound(d, i + 1, k + 1);
      assert d[i..n][1..] == d[i + 1..n];
      assert forall m :: 0 < m < |d[i..n]| ==> d[i..n][m] == d[i + 1..n][m - 1];
    }
  }

  lemma {:induction false} VarintAtComplete(d: seq<byte>, i: nat, n: nat, k: nat)
    requires i < n <= |d| && IsVarint(d[i..n]) && n - i <= 10 - k
    ensures VarintAt(d, i, k) == Ok((VarintValue(d[i..n]), n))
    decreases n - i
  {
    var s := d[i..n];
    if n == i + 1 {
      assert s == [d[i]];
      assert VarintValue(s) == d[i] + 128 * VarintValue([]) by { assert s[1..] == []; }
    } else {
      assert s[0] == d[i] && s[0] >= 128;
      assert s[1..] == d[i + 1..n];
      assert forall m :: 0 <= m < |s[1..]| ==> s[1..][m] == s[1 + m];
      VarintAtComplete(d, i + 1, n, k + 1);
    }
  }

  /** Reading a varint depends on its own bytes only. */
  lemma {:induction false} VarintAtLocal(d: seq<byte>, i: nat, e: seq<byte>, j: nat, k: nat)
    requires i <= |d| && k <= 10 && VarintAt(d, i, k).Ok?
    requires var n := VarintAt(d, i, k).value.1;
             j + n - i <= |e| && d[i..n] == e[j..j + n - i]
    ensures var (v, n) := VarintAt(d, i, k).value;
            VarintAt(e, j, k) == Ok((v, j + n - i))
  {
    VarintAtSound(d, i, k);
    var n := VarintAt(d, i, k).value.1;
    VarintAtComplete(e, j, j + n - i, k);
  }

  // ---------------------------------------------------------------------------
  // sovP2Pd
  // ---------------------------------------------------------------------------

  /** `bits.Len64` */
  function Len64(x: nat): nat {
    if x == 0 then 0 else 1 + Len64(x / 2)
  }

  /** `sovP2Pd`: `(bits.Len64(x|1) + 6) / 7` */
  function Sov(x: nat): nat {
    (Len64(if x % 2 == 0 then x + 1 else x) + 6) / 7
  }

  lemma Len64Shift7(x: nat)
    requires x >= 128
    ensures Len64(x) == 7 + Len64(x / 128)
  {
    assert Len64(x) == 1 + Len64(x / 2);
    assert Len64(x / 2) == 1 + Len64(x / 4) by { assert x / 2 / 2 == x / 4; }
    assert Len64(x / 4) == 1 + Len64(x / 8) by { assert x / 4 / 2 == x / 8; }
    assert Len64(x / 8) == 1 + Len64(x / 16) by { assert x / 8 / 2 == x / 16; }
    assert Len64(x / 16) == 1 + Len64(x / 32) by { assert x / 16 / 2 == x / 32; }
    assert Len64(x / 32) == 1 + Len64(x / 64) by { assert x / 32 / 2 == x / 64; }
    assert Len64(x / 64) == 1 + Len64(x / 128) by { assert x / 64 / 2 == x / 128; }
  }

  lemma Len64Odd(x: nat)
    requires x > 0
    ensures Len64(if x % 2 == 0 then x + 1 else x) == Len64(x)
  {
    if x % 2 == 0 { assert (x + 1) / 2 == x / 2; }
  }

  /** `sovP2Pd` is the number of bytes the encoder writes. */
  lemma {:induction false} SovIsLength(x: nat)
    ensures Sov(x) == |EncVarint(x)|
  {
    if x < 128 {
      if x > 0 { Len64Odd(x); Len64Small(x); }
    } else {
      SovIsLength(x / 128);
      Len64Odd(x);
      Len64Odd(x / 128);
      Len64Shift7(x);
    }
  }

  lemma Len64Small(x: nat)
    requires 0 < x < 128
    ensures 1 <= Len64(x) <= 7
  {
    var a := x / 2; var b := a / 2; var c := b / 2; var e := c / 2; var f := e / 2; var g := f / 2;
    assert g < 2 && g / 2 == 0;
    assert Len64(g) <= 1;
    assert Len64(f) <= 2 && Len64(e) <= 3 && Len64(c) <= 4 && Len64(b) <= 5 && Len64(a) <= 6;
  }

  /** A `uint64` takes at most ten bytes. */
  lemma EncVarintBound(v: nat)
    requires v < TWO_64
    ensures 1 <= |EncVarint(v)| <= 10
  {
    Pow2Values();
    EncVarintBoundAt(v, 9);
  }

  lemma {:induction false} EncVarintBoundAt(v: nat, k: nat)
    requires v < Pow2(7 * k + 7)
    ensures |EncVarint(v)| <= k + 1
  {
    if v >= 128 {
      if k == 0 {
        Pow2Step(0);
      } else {
        Pow2Step(7 * k);
        EncVarintBoundAt(v / 128, k - 1);
      }
    }
  }

  function Pow2(n: nat): (p: nat)
    ensures p >= 1
  {
    if n == 0 then 1 else 2 * Pow2(n - 1)
  }

  lemma Pow2Step(n: nat)
    ensures Pow2(n + 7) == 128 * Pow2(n)
  {
    assert Pow2(n + 7) == 2 * Pow2(n + 6);
    assert Pow2(n + 5) == 2 * Pow2(n + 4);
    assert Pow2(n + 3) == 2 * Pow2(n + 2);
    assert Pow2(n + 1) == 2 * Pow2(n);
  }

  lemma Pow2Values()
    ensures Pow2(63) == TWO_63 && Pow2(70) == 64 * TWO_64
  {
    assert Pow2(35) == 0x8_0000_0000 by {
      Pow2Step(0); Pow2Step(7); Pow2Step(14); Pow2Step(21); Pow2Step(28);
    }
    hide Pow2;
    Pow2Step(35); Pow2Step(42); Pow2Step(49); Pow2Step(56); Pow2Step(63);
  }

  /** The encoder's output is a varint with the value encoded. */
  lemma {:induction false} EncVarintIsVarint(v: nat)
    requires v < TWO_64
    ensures IsVarint(EncVarint(v)) && VarintValue(EncVarint(v)) == v
  {
    EncVarintBound(v);
    EncVarintShape(v);
    EncVarintValue(v);
  }

  lemma {:induction false} EncVarintShape(v: nat)
    ensures EncVarint(v)[|EncVarint(v)| - 1] < 128
    ensures forall k :: 0 <= k < |EncVarint(v)| - 1 ==> EncVarint(v)[k] >= 128
  {
    if v >= 128 {
      EncVarintShape(v / 128);
      var s, t := EncVarint(v), EncVarint(v / 128);
      assert s == [v % 128 + 128] + t;
      assert forall k :: 1 <= k < |s| ==> s[k] == t[k - 1];
    }
  }

  lemma {:induction false} EncVarintValue(v: nat)
    ensures VarintValue(EncVarint(v)) == v
  {
    var s := EncVarint(v);
    if v < 128 {
      assert s[1..] == [];
    } else {
      EncVarintValue(v / 128);
      assert s[1..] == EncVarint(v / 128);
    }
  }

  /** Round trip: wherever the encoder's bytes stand, the decoder reads `v` and stops right after. */
  lemma VarintRoundTrip(d: seq<byte>, i: nat, v: nat)
    requires v < TWO_64
    requires i + |EncVarint(v)| <= |d| && d[i..i + |EncVarint(v)|] == EncVarint(v)
    ensures VarintAt(d, i, 0) == Ok((v, i + |EncVarint(v)|))
  {
    EncVarintIsVarint(v);
    VarintAtComplete(d, i, i + |EncVarint(v)|, 0);
  }

  /** No accepted form of a number is shorter than the encoder's. */
  lemma {:induction false} EncVarintMinimal(s: seq<byte>)
    requires s != []
    ensures |EncVarint(VarintValue(s))| <= |s|
  {
    var v := VarintValue(s);
    if |s| == 1 {
      assert v == s[0] % 128 + 128 * VarintValue([]) by { assert s[1..] == []; }
    } else {
      EncVarintMinimal(s[1..]);
      assert v / 128 == VarintValue(s[1..]);
    }
  }

  /** A negative `int32` travels sign-extended in ten bytes and survives the 32-bit accumulator. */
  lemma NegativeInt32TenBytes(d: seq<byte>, i: nat, x: int)
    requires -TWO_31 <= x < 0
    requires i + |EncVarint(ToU64(x))| <= |d| && d[i..i + |EncVarint(ToU64(x))|] == EncVarint(ToU64(x))
    ensures VarintAt(d, i, 0).Ok? && VarintAt(d, i, 0).value.1 == i + 10
    ensures ToI32(VarintAt(d, i, 0).value.0 % TWO_32) == x
  {
    var v := ToU64(x);
    EncVarintBound(v);
    Pow2Values();
    LongVarint(v, 9);
    VarintRoundTrip(d, i, v);
    Truncate32(v);
  }

  lemma {:induction false} LongVarint(v: nat, k: nat)
    requires v >= Pow2(7 * k)
    ensures |EncVarint(v)| >= k + 1
  {
    if k > 0 {
      Pow2Step(7 * k - 7);
      assert v / 128 >= Pow2(7 * (k - 1));
      LongVarint(v / 128, k - 1);
    }
  }

  // ---------------------------------------------------------------------------
  // The loops
  // ---------------------------------------------------------------------------

  /** `s` with `x` written over it from position `at`. */
  function Splice(s: seq<byte>, at: nat, x: seq<byte>): (r: seq<byte>)
    requires at + |x| <= |s|
    ensures |r| == |s|
  {
    s[..at] + x + s[at + |x|..]
  }

  /** Writing `y` just before an earlier write of `x` is writing `y + x`. */
  lemma SpliceBefore(s: seq<byte>, at: nat, y: seq<byte>, x: seq<byte>)
    requires at + |y| + |x| <= |s|
    ensures Splice(Splice(s, at + |y|, x), at, y) == Splice(s, at, y + x)
  {
  }

  lemma SpliceByte(s: seq<byte>, at: nat, x: seq<byte>, b: byte)
    requires at + |x| < |s|
    ensures Splice(s, at, x)[at + |x| := b] == Splice(s, at, x + [b])
  {
  }

  /** `encodeVarintP2Pd`: writes `v` so that it ends just before `offset`; returns where it starts. */
  method EncodeVarint(dAtA: array<byte>, offset: nat, v: nat) returns (base: nat)
    requires v < TWO_64
    requires Sov(v) <= offset <= dAtA.Length
    modifies dAtA
    ensures base == offset - |EncVarint(v)|
    ensures dAtA[..] == Splice(old(dAtA[..]), base, EncVarint(v))
  {
    SovIsLength(v);
    base := offset - Sov(v);
    var at, x := base, v;
    ghost var done: seq<byte> := [];
    assert Splice(dAtA[..], base, []) == dAtA[..];
    while x >= 128
      invariant at == base + |done| && at + |EncVarint(x)| == offset
      invariant done + EncVarint(x) == EncVarint(v)
      invariant dAtA[..] == Splice(old(dAtA[..]), base, done)
    {
      EncVarintHead(done, x);
      SpliceByte(old(dAtA[..]), base, done, x % 128 + 128);
      ghost var before := dAtA[..];
      dAtA[at] := x % 128 + 128;
      assert dAtA[..] == before[at := x % 128 + 128];
      done := done + [x % 128 + 128];
      x := x / 128;
      at := at + 1;
    }
    SpliceByte(old(dAtA[..]), base, done, x);
    ghost var before := dAtA[..];
    dAtA[at] := x;
    assert dAtA[..] == before[at := x];
  }

  lemma EncVarintHead(done: seq<byte>, x: nat)
    requires x >= 128
    ensures done + EncVarint(x) == done + [x % 128 + 128] + EncVarint(x / 128)
  {
  }

  function Scaled(low: nat, scale: nat, r: Result<(nat, nat)>): Result<(nat, nat)> {
    match r
    case Ok((v, n)) => Ok((low + scale * v, n))
    case Err(e) => Err(e)
  }

  lemma Distribute(scale: nat, x: nat, v: nat)
    ensures scale * (x + 128 * v) == scale * x + (128 * scale) * v
  {
  }

  /** What byte `b` adds at bit `shift`. */
  function Group(b: byte, shift: nat): nat {
    Pow2(shift) * (b % 128)
  }

  /** The loop has read `low` and stands at `i`. */
  predicate Reading(d: seq<byte>, start: nat, i: nat, low: nat)
    requires start <= i <= |d|
  {
    VarintAt(d, start, 0) == Scaled(low, Pow2(7 * (i - start)), VarintAt(d, i, i - start))
  }

  lemma ReadingStep(d: seq<byte>, start: nat, i: nat, low: nat)
    requires start <= i < |d| && i - start < 10 && Reading(d, start, i, low)
    ensures var low' := low + Group(d[i], 7 * (i - start));
            if d[i] < 128 then VarintAt(d, start, 0) == Ok((low', i + 1)) else Reading(d, start, i + 1, low')
  {
    hide Pow2;
    if d[i] >= 128 {
      var rest := VarintAt(d, i + 1, i + 1 - start);
      var scale := Pow2(7 * (i - start));
      assert VarintAt(d, i, i - start) == Scaled(d[i] % 128, 128, rest);
      Pow2Step(7 * (i - start));
      if rest.Ok? { Distribute(scale, d[i] % 128, rest.value.0); }
    }
  }

  lemma ReadingStops(d: seq<byte>, start: nat, i: nat, low: nat)
    requires start <= i <= |d| && Reading(d, start, i, low)
    ensures i - start >= 10 ==> VarintAt(d, start, 0) == Err(IntOverflow)
    ensures i - start < 10 && i == |d| ==> VarintAt(d, start, 0) == Err(UnexpectedEOF)
  {
  }

  /** Bitwise OR. */
  function Or(a: nat, b: nat): nat {
    if a == 0 then b
    else if b == 0 then a
    else 2 * Or(a / 2, b / 2) + if a % 2 == 1 || b % 2 == 1 then 1 else 0
  }

  /** The low `width` bits. */
  function Low(v: nat, width: nat): nat {
    if width == 0 then 0 else 2 * Low(v / 2, width - 1) + v % 2
  }

  lemma OrBit(a: nat, i: nat, b: nat)
    requires i < 2
    ensures Or(2 * a + i, 2 * b) == 2 * Or(a, b) + i
  {
  }

  lemma Halve(p: nat, g: nat)
    ensures (2 * p) * g == 2 * (p * g)
  {
  }

  lemma LowTwice(v: nat, i: nat, width: nat)
    requires i < 2
    ensures Low(2 * v + i, width + 1) == 2 * Low(v, width) + i
  {
    assert (2 * v + i) / 2 == v && (2 * v + i) % 2 == i;
  }

  /** One more bit below the others. */
  lemma OrNext(half: nat, i: nat, x: nat, width: nat)
    requires i < 2 && Or(Low(half, width), Low(x, width)) == Low(half + x, width)
    ensures Or(Low(2 * half + i, width + 1), Low(2 * x, width + 1)) == Low(2 * half + i + 2 * x, width + 1)
  {
    hide Or, Low;
    LowTwice(x, 0, width);
    LowTwice(half, i, width);
    LowTwice(half + x, i, width);
    OrBit(Low(half, width), i, Low(x, width));
    assert 2 * half + i + 2 * x == 2 * (half + x) + i;
  }

  lemma {:induction false} OrLow(low: nat, g: nat, shift: nat, width: nat)
    requires low < Pow2(shift)
    ensures Or(Low(low, width), Low(Pow2(shift) * g, width)) == Low(low + Pow2(shift) * g, width)
    decreases width
  {
    if width == 0 {
    } else if shift == 0 {
      LowOfZero(width);
    } else {
      hide Or, Low;
      Halve(Pow2(shift - 1), g);
      OrLow(low / 2, g, shift - 1, width - 1);
      OrNext(low / 2, low % 2, Pow2(shift - 1) * g, width - 1);
    }
  }

  lemma {:induction false} LowOfZero(width: nat)
    ensures Low(0, width) == 0
  {
    if width > 0 { LowOfZero(width - 1); }
  }

  /**
    `v |= T(b&0x7F) << shift` in a `T` of `width` bits: when `v` holds the number read so far, all of
    it below bit `shift`, it then holds the number with the new group, truncated to the width.
   */
  lemma OrStep(low: nat, b: byte, shift: nat, width: nat)
    requires low < Pow2(shift)
    ensures Or(Low(low, width), Low(Group(b, shift), width)) == Low(low + Group(b, shift), width)
  {
    hide Or, Low, Pow2;
    OrLow(low, b % 128, shift, width);
  }

  lemma {:induction false} MulAbove(m: nat, q: nat, q': nat)
    requires q < q'
    ensures m * q + m <= m * q'
    decreases q'
  {
    assert m * q' == m * (q' - 1) + m;
    if q < q' - 1 { MulAbove(m, q, q' - 1); }
  }

  lemma Unique(m: nat, q: nat, x: nat, q': nat, x': nat)
    requires m * q + x == m * q' + x' && x < m && x' < m
    ensures x == x'
  {
    if q < q' { MulAbove(m, q, q'); }
    if q' < q { MulAbove(m, q', q); }
  }

  lemma Divides(v: nat, m: nat)
    requires m > 0
    ensures v == m * (v / m) + v % m && 0 <= v / m && 0 <= v % m < m
  {
  }

  lemma Doubled(m: nat, q: nat, x: nat, i: nat)
    ensures 2 * (m * q + x) + i == 2 * m * q + (2 * x + i)
  {
  }

  /** Keeping the low bits is taking the remainder. */
  lemma {:induction false} LowIsRemainder(v: nat, width: nat)
    ensures Low(v, width) == v % Pow2(width)
  {
    if width > 0 {
      var m, half, i := Pow2(width - 1), v / 2, v % 2;
      LowIsRemainder(half, width - 1);
      Divides(half, m);
      Divides(v, 2 * m);
      Doubled(m, half / m, half % m, i);
      Unique(2 * m, half / m, 2 * (half % m) + i, v / (2 * m), v % (2 * m));
    }
  }

  lemma GroupBelow(low: nat, b: byte, shift: nat)
    requires low < Pow2(shift)
    ensures low + Group(b, shift) < Pow2(shift + 7)
  {
    Pow2Step(shift);
    hide Pow2;
    BelowNext(low, b % 128, Pow2(shift));
  }

  lemma BelowNext(low: nat, g: nat, p: nat)
    requires low < p && g < 128
    ensures low + p * g < 128 * p
  {
    assert p * g <= p * 127;
  }

  /**
    The unrolled loop around every varint of `Unmarshal` and `skipP2Pd`, for an accumulator of
    32 or 64 bits.
   */
  method ReadVarint(d: slice, start: nat, modulus: nat) returns (r: Result<(nat, nat)>)
    requires start <= |d|
    requires modulus == TWO_32 || modulus == TWO_64
    ensures VarintAt(d, start, 0).Err? ==> r == VarintAt(d, start, 0)
    ensures VarintAt(d, start, 0).Ok? ==>
              var (v, n) := VarintAt(d, start, 0).value; r == Ok((v % modulus, n))
  {
    LowIs(0, modulus);
    assert Reading(d, start, start, 0) && Pow2(0) == 1;
    hide VarintAt, Group, Reading, Pow2, Or, Low;
    ghost var width := if modulus == TWO_32 then 32 else 64;
    var i, shift, acc: nat := start, 0, 0;
    ghost var low: nat := 0;
    while true
      invariant start <= i <= |d| && shift == 7 * (i - start)
      invariant low < Pow2(shift) && acc == Low(low, width) && Reading(d, start, i, low)
      decreases |d| - i
    {
      ReadingStops(d, start, i, low);
      if shift >= 64 { return Err(IntOverflow); }
      if i >= |d| { return Err(UnexpectedEOF); }
      var b := d[i];
      ReadingStep(d, start, i, low);
      OrStep(low, b, shift, width);
      GroupBelow(low, b, shift);
      i := i + 1;
      LowIs(Group(b, shift), modulus);
      acc := Or(acc, Group(b, shift) % modulus);
      low := low + Group(b, shift);
      LowIs(low, modulus);
      if b < 128 { return Ok((acc, i)); }
      shift := shift + 7;
    }
  }

  lemma LowIs(v: nat, modulus: nat)
    requires modulus == TWO_32 || modulus == TWO_64
    ensures Low(v, if modulus == TWO_32 then 32 else 64) == v % modulus
  {
    Widths();
    LowIsRemainder(v, if modulus == TWO_32 then 32 else 64);
    hide Low, Pow2;
  }

  lemma Widths()
    ensures Pow2(32) == TWO_32 && Pow2(64) == TWO_64
  {
    Pow2Values();
    assert Pow2(64) == 2 * Pow2(63);
    assert Pow2(28) == 0x1000_0000 by { Pow2Step(0); Pow2Step(7); Pow2Step(14); Pow2Step(21); }
    assert Pow2(30) == 4 * Pow2(28) && Pow2(32) == 4 * Pow2(30);
  }
}
