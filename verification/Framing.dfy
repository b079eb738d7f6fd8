/** Length-delimited frames on a connection: many writers behind one mutex, and the client's reader. */
module Framing {
  import opened Options
  import opened Wire

  // ---------------------------------------------------------------------------
  // Frames
  // ---------------------------------------------------------------------------

  function Frame(p: seq<byte>): seq<byte> {
    EncVarint(|p|) + p
  }

  /** `binary.ReadUvarint`: unlike the message decoder it refuses what needs more than 64 bits. */
  function Uvarint(d: seq<byte>, i: nat): (r: Result<(nat, nat)>)
    requires i <= |d|
    ensures r.Ok? ==> r.value.0 < TWO_64 && i < r.value.1 <= |d|
  {
    match VarintAt(d, i, 0)
    case Ok((v, n)) => if v < TWO_64 then Ok((v, n)) else Err(IntOverflow)
    case Err(e) => Err(e)
  }

  /** The payload of the frame at `i` and the position after it. */
  function FrameAt(d: seq<byte>, i: nat): (r: Result<(seq<byte>, nat)>)
    requires i <= |d|
    ensures r.Ok? ==> i < r.value.1 <= |d|
  {
    match Uvarint(d, i)
    case Err(e) => Err(e)
    case Ok((length, n)) =>
      if length >= TWO_63 then Err(InvalidLength)
      else if n + length > |d| then Err(UnexpectedEOF)
      else Ok((d[n..n + length], n + length))
  }

  // ---------------------------------------------------------------------------
  // The reader
  // ---------------------------------------------------------------------------

  lemma PowersBelow(k: nat)
    requires k <= 9
    ensures Pow2(7 * k) <= TWO_63
  {
    Pow2Values();
    PowGrows(7 * k, 63);
  }

  lemma {:induction false} PowGrows(m: nat, n: nat)
    requires m <= n
    ensures Pow2(m) <= Pow2(n)
    decreases n
  {
    if m < n { PowGrows(m, n - 1); }
  }

  /** After `k` bytes the number read is below 128^k; the tenth byte decides whether it fits. */
  lemma GroupFits(low: nat, b: byte, k: nat)
    requires k <= 9 && low < Pow2(7 * k)
    ensures low + Group(b, 7 * k) < Pow2(7 * k + 7)
    ensures b < 128 ==> (low + Group(b, 7 * k) < TWO_64 <==> !(k == 9 && b > 1))
  {
    Pow2Step(7 * k);
    if k == 9 {
      Pow2Values();
      hide Pow2;
      NinthGroup(low, b);
    } else {
      PowersBelow(k + 1);
    }
    BelowNext(low, b % 128, Pow2(7 * k));
  }

  lemma NinthGroup(low: nat, b: byte)
    requires low < TWO_63 && Pow2(63) == TWO_63
    ensures b < 128 ==> (low + Group(b, 63) < TWO_64 <==> b <= 1)
  {
    assert Group(b, 63) == TWO_63 * (b % 128);
  }

  class ByteReaderConn {
    const input: seq<byte>   // everything the peer will have sent
    var pos: nat

    ghost predicate Valid()
      reads this
    {
      pos <= |input|
    }

    constructor (input: seq<byte>)
      ensures Valid() && this.input == input && pos == 0
    {
      this.input := input;
      pos := 0;
    }

    method ReadByte() returns (r: Result<byte>)
      requires Valid()
      modifies this
      ensures Valid()
      ensures old(pos) < |input| ==> r == Ok(input[old(pos)]) && pos == old(pos) + 1
      ensures old(pos) == |input| ==> r == Err(UnexpectedEOF) && pos == old(pos)
    {
      if pos == |input| {
        return Err(UnexpectedEOF);
      }
      r := Ok(input[pos]);
      pos := pos + 1;
    }

    method ReadUvarint() returns (r: Result<nat>)
      requires Valid()
      modifies this
      ensures Valid() && pos >= old(pos)
      ensures match Uvarint(input, old(pos))
              case Ok((v, n)) => r == Ok(v) && pos == n
              case Err(e) => r == Err(e)
    {
      ghost var start := pos;
      assert Reading(input, start, start, 0) && Pow2(0) == 1;
      hide VarintAt, Group, Reading, Pow2;
      var x: nat := 0;
      for i := 0 to 10
        invariant Valid() && pos == start + i
        invariant x < Pow2(7 * i) && Reading(input, start, pos, x)
      {
        ReadingStops(input, start, pos, x);
        var b :- ReadByte();
        ReadingStep(input, start, start + i, x);
        GroupFits(x, b, i);
        x := x + Group(b, 7 * i);
        if b < 128 {
          if i == 9 && b > 1 {
            return Err(IntOverflow);
          }
          return Ok(x);
        }
      }
      ReadingStops(input, start, pos, x);
      return Err(IntOverflow);
    }

    /** `io.CopyN`: a negative count copies nothing and is no error. */
    method CopyN(n: int) returns (out: seq<byte>, copied: int, eof: bool)
      requires Valid()
      modifies this
      ensures Valid() && pos == old(pos) + |out| && out == input[old(pos)..pos]
      ensures copied == |out| && (eof <==> copied < n)
      ensures |out| == if n < 0 then 0 else if old(pos) + n <= |input| then n else |input| - old(pos)
    {
      var end := if n < 0 then pos else if pos + n <= |input| then pos + n else |input|;
      out := input[pos..end];
      pos := end;
      copied := |out|;
      eof := copied < n;
    }

    /** `readMsgBytesSafe` */
    method ReadMsgBytesSafe() returns (r: Result<seq<byte>>)
      requires Valid()
      modifies this
      ensures Valid()
      ensures match FrameAt(input, old(pos))
              case Ok((payload, n)) => r == Ok(payload) && pos == n
              case Err(e) => r == Err(e)
    {
      hide Uvarint;
      var length :- ReadUvarint();
      var out, n, eof := CopyN(ToI64(length));
      if eof {
        return Err(UnexpectedEOF);
      }
      if n != ToI64(length) {
        return Err(InvalidLength);
      }
      return Ok(out);
    }
  }

  /** A whole frame gives its payload and consumes exactly its bytes, whatever follows. */
  lemma FrameRoundTrip(before: seq<byte>, p: seq<byte>, tail: seq<byte>)
    requires |p| < TWO_63
    ensures FrameAt(before + Frame(p) + tail, |before|) == Ok((p, |before| + |Frame(p)|))
  {
    var d, i, v := before + Frame(p) + tail, |before|, EncVarint(|p|);
    assert d[i..i + |v|] == v;
    VarintRoundTrip(d, i, |p|);
    assert d[i + |v|..i + |v| + |p|] == p;
  }

  /** Part of a frame is never taken for a message. */
  lemma PartialFrame(before: seq<byte>, p: seq<byte>, k: nat)
    requires |p| < TWO_63 && k < |Frame(p)|
    ensures FrameAt(before + Frame(p)[..k], |before|) == Err(UnexpectedEOF)
  {
    var d, i, v := before + Frame(p)[..k], |before|, EncVarint(|p|);
    if k < |v| {
      assert d == before + v[..k];
      EncVarintIsVarint(|p|);
      CutVarint(d, i, v, 0);
    } else {
      assert Frame(p)[..k][..|v|] == v;
      assert d[i..i + |v|] == Frame(p)[..k][..|v|];
      VarintRoundTrip(d, i, |p|);
    }
  }

  lemma {:induction false} CutVarint(d: seq<byte>, i: nat, v: seq<byte>, k: nat)
    requires i <= |d| && k + |v| <= 10 && |d| - i < |v| && d[i..] == v[..|d| - i]
    requires forall j :: 0 <= j < |v| - 1 ==> v[j] >= 128
    ensures VarintAt(d, i, k) == Err(UnexpectedEOF)
    decreases |v|
  {
    if i < |d| {
      assert d[i] == d[i..][0] == v[0];
      assert d[i + 1..] == d[i..][1..] == v[..|d| - i][1..] == v[1..][..|d| - i - 1];
      CutVarint(d, i + 1, v[1..], k + 1);
    }
  }

  /** Lengths of 2^63 or more are refused, before any payload is read. */
  lemma HugeLength(d: seq<byte>, i: nat, length: nat)
    requires TWO_63 <= length < TWO_64
    requires i + |EncVarint(length)| <= |d| && d[i..i + |EncVarint(length)|] == EncVarint(length)
    ensures FrameAt(d, i) == Err(InvalidLength)
  {
    VarintRoundTrip(d, i, length);
  }

  /** All payloads from `i` on, up to the first that is not whole. */
  function ReadAll(d: seq<byte>, i: nat): seq<seq<byte>>
    requires i <= |d|
    decreases |d| - i
  {
    match FrameAt(d, i)
    case Ok((p, n)) => [p] + ReadAll(d, n)
    case Err(_) => []
  }

  function Frames(ps: seq<seq<byte>>): seq<byte> {
    if ps == [] then [] else Frame(ps[0]) + Frames(ps[1..])
  }

  lemma {:induction false} FramesAppend(ps: seq<seq<byte>>, p: seq<byte>)
    ensures Frames(ps + [p]) == Frames(ps) + Frame(p)
  {
    if ps == [] {
      assert ps + [p] == [p] && [p][1..] == [];
    } else {
      FramesAppend(ps[1..], p);
      assert (ps + [p])[1..] == ps[1..] + [p];
    }
  }

  lemma {:induction false} ReadsFrames(before: seq<byte>, ps: seq<seq<byte>>, tail: seq<byte>)
    requires forall k :: 0 <= k < |ps| ==> |ps[k]| < TWO_63
    requires FrameAt(before + Frames(ps) + tail, |before| + |Frames(ps)|).Err?
    ensures ReadAll(before + Frames(ps) + tail, |before|) == ps
    decreases |ps|
  {
    hide FrameAt, Frame;
    var d := before + Frames(ps) + tail;
    if ps != [] {
      var rest := Frames(ps[1..]) + tail;
      assert d == before + Frame(ps[0]) + rest;
      FrameRoundTrip(before, ps[0], rest);
      assert d == before + Frame(ps[0]) + Frames(ps[1..]) + tail;
      ReadsFrames(before + Frame(ps[0]), ps[1..], tail);
    }
  }

  // ---------------------------------------------------------------------------
  // Writers behind one mutex
  // ---------------------------------------------------------------------------

  /** The holder of the mutex: which message it writes and how much of its frame is out. */
  datatype Job = Job(payload: seq<byte>, sent: nat)

  datatype Sender = Sender(
    out: seq<byte>,                // the bytes on the connection
    holder: Option<Job>,
    broken: bool,                  // a write failed, or the connection was closed
    locked: seq<seq<byte>>,        // history: messages in the order their writers got the mutex
    whole: nat                     // history: how many of them were written whole
  )

  datatype Step =
    | Lock(payload: seq<byte>)     // some writer enters WriteMsg
    | Push(n: nat)                 // n more bytes of its frame reach the connection
    | Unlock                       // the whole frame is out
    | Fail                         // the write returns an error, for good
    | Close                        // Close, under the same mutex

  const IDLE := Sender([], None, false, [], 0)

  predicate Enabled(s: Sender, l: Step) {
    match l
    case Lock(p) => s.holder.None? && |p| < TWO_63
    case Push(n) => s.holder.Some? && !s.broken && s.holder.value.sent + n <= |Frame(s.holder.value.payload)|
    case Unlock => s.holder.Some? && !s.broken && s.holder.value.sent == |Frame(s.holder.value.payload)|
    case Fail => s.holder.Some?
    case Close => s.holder.None?
  }

  function Do(s: Sender, l: Step): Sender
    requires Enabled(s, l)
  {
    match l
    case Lock(p) => s.(holder := Some(Job(p, 0)), locked := s.locked + [p])
    case Push(n) =>
      var job := s.holder.value;
      s.(out := s.out + Frame(job.payload)[job.sent..job.sent + n], holder := Some(job.(sent := job.sent + n)))
    case Unlock => s.(holder := None, whole := s.whole + 1)
    case Fail => s.(holder := None, broken := true)
    case Close => s.(broken := true)
  }

  function Exec(run: seq<Step>): Option<Sender> {
    if run == [] then Some(IDLE)
    else
      var n := |run| - 1;
      match Exec(run[..n])
      case None => None
      case Some(s) => if Enabled(s, run[n]) then Some(Do(s, run[n])) else None
  }

  /** Whole frames in the order of the mutex, then part of the next one. */
  ghost predicate Ordered(s: Sender, tail: seq<byte>) {
    && s.whole <= |s.locked| && s.out == Frames(s.locked[..s.whole]) + tail
    && (s.whole == |s.locked| ==> tail == [])
    && (s.whole < |s.locked| ==> tail <= Frame(s.locked[s.whole]))
    && (!s.broken && s.holder.None? ==> s.whole == |s.locked|)
    && (!s.broken && s.holder.Some? ==>
         && s.whole + 1 == |s.locked| && s.holder.value.payload == s.locked[s.whole]
         && s.holder.value.sent <= |Frame(s.holder.value.payload)|
         && tail == Frame(s.holder.value.payload)[..s.holder.value.sent])
    && forall k :: 0 <= k < |s.locked| ==> |s.locked[k]| < TWO_63
  }

  lemma OrderedStep(s: Sender, l: Step, tail: seq<byte>) returns (tail': seq<byte>)
    requires Enabled(s, l) && Ordered(s, tail)
    ensures Ordered(Do(s, l), tail')
  {
    hide Frame;
    tail' := tail;
    match l
    case Lock(p) =>
      assert (s.locked + [p])[..s.whole] == s.locked[..s.whole];
    case Push(n) =>
      var job := s.holder.value;
      tail' := Frame(job.payload)[..job.sent + n];
      assert tail' == tail + Frame(job.payload)[job.sent..job.sent + n];
    case Unlock =>
      tail' := [];
      assert s.locked[..s.whole + 1] == s.locked[..s.whole] + [s.locked[s.whole]];
      FramesAppend(s.locked[..s.whole], s.locked[s.whole]);
      assert tail == Frame(s.holder.value.payload);
    case Fail =>
    case Close =>
  }

  lemma {:induction false} OrderedRun(run: seq<Step>) returns (tail: seq<byte>)
    requires Exec(run).Some?
    ensures Ordered(Exec(run).value, tail)
    decreases |run|
  {
    if run == [] {
      tail := [];
    } else {
      hide Ordered;
      var n := |run| - 1;
      tail := OrderedRun(run[..n]);
      tail := OrderedStep(Exec(run[..n]).value, run[n], tail);
    }
  }

  /**
    However the writers interleave, the connection carries whole frames in the order of the mutex
    and at most part of one more; and the client's reader gets exactly the whole ones' payloads.
   */
  lemma FramesInLockOrder(run: seq<Step>) returns (m: nat, tail: seq<byte>)
    requires Exec(run).Some?
    ensures var s := Exec(run).value;
      && s.whole <= m <= |s.locked| && s.out == Frames(s.locked[..m]) + tail
      && (tail == [] || (m < |s.locked| && tail < Frame(s.locked[m])))
      && ReadAll(s.out, 0) == s.locked[..m]
  {
    tail := OrderedRun(run);
    var s := Exec(run).value;
    m := s.whole;
    hide Exec;
    if m < |s.locked| && tail == Frame(s.locked[m]) {
      FramesAppend(s.locked[..m], s.locked[m]);
      assert s.locked[..m + 1] == s.locked[..m] + [s.locked[m]];
      m, tail := m + 1, [];
    }
    ReadsUpTo(s.locked, m, tail);
  }

  lemma ReadsUpTo(ps: seq<seq<byte>>, m: nat, tail: seq<byte>)
    requires m <= |ps| && (tail == [] || (m < |ps| && tail < Frame(ps[m])))
    requires forall k :: 0 <= k < |ps| ==> |ps[k]| < TWO_63
    ensures ReadAll(Frames(ps[..m]) + tail, 0) == ps[..m]
  {
    var before := Frames(ps[..m]);
    if tail == [] {
      NothingThere(before);
      assert before + tail == before;
    } else {
      assert tail == Frame(ps[m])[..|tail|];
      PartialFrame(before, ps[m], |tail|);
    }
    assert before + tail == [] + before + tail;
    ReadsFrames([], ps[..m], tail);
  }

  lemma NothingThere(d: seq<byte>)
    ensures FrameAt(d, |d|) == Err(UnexpectedEOF)
  {
  }

  lemma ExecStep(run: seq<Step>, l: Step)
    requires Exec(run).Some? && Enabled(Exec(run).value, l)
    ensures Exec(run + [l]) == Some(Do(Exec(run).value, l))
  {
    assert (run + [l])[..|run|] == run;
  }

  /** While no write has failed, the writer that has the mutex can put its whole frame on the connection. */
  lemma FrameCanBeWritten(run: seq<Step>)
    requires Exec(run).Some? && Exec(run).value.holder.Some? && !Exec(run).value.broken
    ensures exists n ::
      var r := Exec(run + [Push(n)] + [Unlock]); var s := Exec(run).value;
      && r.Some? && r.value.holder.None? && r.value.locked == s.locked && s.holder.value.payload in s.locked
      && r.value.out == Frames(s.locked) && ReadAll(r.value.out, 0) == s.locked
  {
    var s := Exec(run).value;
    var tail := OrderedRun(run);
    var job := s.holder.value;
    assert job.payload == s.locked[s.whole];
    var n := |Frame(job.payload)| - job.sent;
    hide Exec, Frame, Frames, ReadAll;
    ExecStep(run, Push(n));
    ExecStep(run + [Push(n)], Unlock);
    var run' := run + [Push(n)] + [Unlock];
    var m, rest := FramesInLockOrder(run');
    var s' := Exec(run').value;
    assert m == |s'.locked| && s'.locked[..m] == s'.locked;
    assert Frames(s'.locked) + [] == Frames(s'.locked);
  }
}
