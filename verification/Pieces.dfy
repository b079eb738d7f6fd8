/** What an accepted slice consists of, and what becomes of the fields nobody declared. */
module Pieces {
  import opened Wire
  import opened Schema
  import opened Fields
  import opened Message
  import opened Decode

  /** A field with the bytes it was read from. */
  datatype Piece = Piece(f: Field, bytes: seq<byte>)

  function PiecesFrom(S: MsgTable, t: nat, d: slice, i: nat): (r: Result<seq<Piece>>)
    requires i <= |d|
    decreases |d| - i
  {
    if i == |d| then Ok([])
    else
      var (f, n) :- FieldAt(S, t, d, i);
      var rest :- PiecesFrom(S, t, d, n);
      Ok([Piece(f, d[i..n])] + rest)
  }

  function AllBytes(ps: seq<Piece>): seq<byte> {
    if ps == [] then [] else ps[0].bytes + AllBytes(ps[1..])
  }

  /** The bytes of the undeclared fields, in their order. */
  function UnknownBytes(ps: seq<Piece>): seq<byte> {
    if ps == [] then []
    else (if ps[0].f.Unknown? then ps[0].bytes else []) + UnknownBytes(ps[1..])
  }

  lemma UnrecognizedAfter(S: MsgTable, t: nat, m: Msg, f: Field)
    requires FieldFits(S, t, f) && Apply(S, t, m, f).Ok?
    ensures Apply(S, t, m, f).value.unrecognized == m.unrecognized + if f.Unknown? then f.raw else []
  {
    hide FieldFits, DecodeMsg;
  }

  /**
    An accepted slice is read to its last byte, field by field; the undeclared fields, wherever
    they stood and however they were written, are kept byte for byte in their order.
   */
  lemma {:induction false} UnknownKept(S: MsgTable, t: nat, d: slice, i: nat, m: Msg, has: set<nat>)
    requires i <= |d| && DecodeFrom(S, t, d, i, m, has).Ok?
    ensures PiecesFrom(S, t, d, i).Ok?
    ensures var ps := PiecesFrom(S, t, d, i).value;
      && AllBytes(ps) == d[i..]
      && DecodeFrom(S, t, d, i, m, has).value.0.unrecognized == m.unrecognized + UnknownBytes(ps)
    decreases |d| - i
  {
    hide FieldAt, Apply, Seen;
    if i < |d| {
      var (f, n) := FieldAt(S, t, d, i).value;
      var m' := Apply(S, t, m, f).value;
      UnknownKept(S, t, d, n, m', has + Seen(f));
      UnrecognizedAfter(S, t, m, f);
      if f.Unknown? { UnknownIsRaw(S, t, d, i); }
      var rest := PiecesFrom(S, t, d, n).value;
      assert ([Piece(f, d[i..n])] + rest)[1..] == rest;
      assert d[i..] == d[i..n] + d[n..];
      hide DecodeFrom, PiecesFrom;
    }
  }

  /** The same for `Unmarshal` as a whole. */
  lemma UnmarshalKeepsUnknown(S: MsgTable, t: nat, d: slice, m: Msg)
    requires DecodeMsg(S, t, d, m).Ok?
    ensures PiecesFrom(S, t, d, 0).Ok?
    ensures var ps := PiecesFrom(S, t, d, 0).value;
      && AllBytes(ps) == d
      && DecodeMsg(S, t, d, m).value.unrecognized == m.unrecognized + UnknownBytes(ps)
  {
    hide DecodeFrom, PiecesFrom;
    UnknownKept(S, t, d, 0, m, {});
  }
}
