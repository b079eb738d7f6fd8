/** The messages of a persistent connection on their way through the codec. */
module PersistentMessages {
  import opened Options
  import opened Wire
  import opened Schema
  import opened Message
  import opened Encode
  import opened Decode
  import opened RoundTrip
  import opened P2pd
  import opened Protocol

  // ---------------------------------------------------------------------------
  // As messages of the table
  // ---------------------------------------------------------------------------

  function One(num: nat, b: seq<byte>): Slot {
    Slot([Entry(num, Raw(b))])
  }

  function Embed(num: nat, slots: seq<Slot>): Slot {
    Slot([Entry(num, Sub(Msg(slots, [])))])
  }

  function ResultSlot(r: UnaryResult): Slot {
    match r
    case Response(b) => One(1, b)
    case Failure(b) => One(2, b)
    case NoResult => Slot([])
  }

  function RequestMsg(r: Request): Msg {
    var body :=
      match r.body
      case AddUnaryHandler(proto) => Embed(2, [One(1, proto)])
      case CallUnary(peer, proto, data) => Embed(3, [One(1, peer), One(2, proto), One(3, data)])
      case UnaryResponse(result) => Embed(4, [ResultSlot(result)])
      case CancelRequest => Embed(5, [])
      case NoRequest => Slot([]);
    Msg([One(1, r.callId), body], [])
  }

  function ReplyMsg(r: Reply): Msg {
    var body :=
      match r.body
      case CallUnaryResponse(result) => Embed(2, [ResultSlot(result)])
      case RequestHandling(peer, proto, data) => Embed(3, [One(1, peer), One(2, proto), One(3, data)])
      case DaemonError(None) => Embed(4, [Slot([])])
      case DaemonError(Some(message)) => Embed(4, [One(1, message)])
      case Cancelled => Embed(5, [])
      case Done => Slot([]);
    Msg([One(1, r.callId), body], [])
  }

  lemma NoUnknown(t: nat)
    ensures UnknownRun(Table(), t, [])
  {
    var none: seq<seq<byte>> := [];
    assert UnknownRecords(Table(), t, none) && Concat(none) == [];
  }

  /** A message of plain byte fields. */
  lemma PlainOk(t: nat, slots: seq<Slot>)
    requires t < 23 && |slots| == |Row(t)|
    requires forall k :: 0 <= k < |slots| ==> PlainSlot(Row(t)[k], slots[k])
    ensures MsgOk(Table(), t, Msg(slots, []), Canonical)
  {
    NoUnknown(t);
    RowOf(t);
    hide UnknownRun, Table, Row;
    var m := Msg(slots, []);
    forall k | 0 <= k < |slots|
      ensures SlotOk(Table(), Def(Table(), t)[k], slots[k], Canonical) && SlotSet(Def(Table(), t)[k], slots[k])
    {
      assert PlainSlot(Row(t)[k], slots[k]);
      if slots[k].entries != [] {
        assert ValOk(Table(), KBytes, slots[k].entries[0].v, Canonical);
        assert EntryOk(Table(), Def(Table(), t)[k], slots[k].entries[0], Canonical);
      }
    }
    assert Shape(Table(), t, m, Canonical);
  }

  predicate PlainSlot(def: SlotDef, s: Slot) {
    && (def.rule == Required ==> s.entries != [])
    && |s.entries| <= 1
    && (s.entries != [] ==> s.entries[0].v.Raw? && KindIn(def.fields, s.entries[0].num) == Some(KBytes))
  }

  /** A call id and at most one embedded message in a oneof. */
  lemma EnvelopeOk(t: nat, callId: seq<byte>, body: Slot)
    requires t == PERSISTENT_REQUEST || t == PERSISTENT_RESPONSE
    requires |body.entries| <= 1
    requires body.entries != [] ==>
               && body.entries[0].v.Sub?
               && KindIn(Row(t)[1].fields, body.entries[0].num).Some?
               && KindIn(Row(t)[1].fields, body.entries[0].num).value.KMessage?
               && MsgOk(Table(), KindIn(Row(t)[1].fields, body.entries[0].num).value.t, body.entries[0].v.m, Canonical)
    ensures MsgOk(Table(), t, Msg([One(1, callId), body], []), Canonical)
  {
    NoUnknown(t);
    RowOf(t);
    var m := Msg([One(1, callId), body], []);
    assert |Row(t)| == 2 && Row(t)[0].rule == Required && Row(t)[1].rule == Oneof;
    assert KindIn(Row(t)[0].fields, 1) == Some(KBytes);
    hide UnknownRun, Table, Row;
    var def := Def(Table(), t);
    assert EntryOk(Table(), def[0], Entry(1, Raw(callId)), Canonical);
    assert SlotOk(Table(), def[0], m.slots[0], Canonical);
    if body.entries != [] {
      var e := body.entries[0];
      assert ValOk(Table(), KindIn(def[1].fields, e.num).value, e.v, Canonical);
      assert EntryOk(Table(), def[1], e, Canonical);
    }
    assert SlotOk(Table(), def[1], m.slots[1], Canonical);
    assert Shape(Table(), t, m, Canonical);
  }

  lemma RequestOk(r: Request)
    ensures MsgOk(Table(), PERSISTENT_REQUEST, RequestMsg(r), Canonical)
  {
    hide MsgOk, Table;
    match r.body
    case AddUnaryHandler(proto) =>
      PlainOk(ADD_UNARY_HANDLER_REQUEST, [One(1, proto)]);
      Alternatives(PERSISTENT_REQUEST, 0);
      EnvelopeOk(PERSISTENT_REQUEST, r.callId, Embed(2, [One(1, proto)]));
    case CallUnary(peer, proto, data) =>
      PlainOk(CALL_UNARY_REQUEST, [One(1, peer), One(2, proto), One(3, data)]);
      Alternatives(PERSISTENT_REQUEST, 1);
      EnvelopeOk(PERSISTENT_REQUEST, r.callId, Embed(3, [One(1, peer), One(2, proto), One(3, data)]));
    case UnaryResponse(result) =>
      PlainOk(CALL_UNARY_RESPONSE, [ResultSlot(result)]);
      Alternatives(PERSISTENT_REQUEST, 2);
      EnvelopeOk(PERSISTENT_REQUEST, r.callId, Embed(4, [ResultSlot(result)]));
    case CancelRequest =>
      PlainOk(CANCEL, []);
      Alternatives(PERSISTENT_REQUEST, 3);
      EnvelopeOk(PERSISTENT_REQUEST, r.callId, Embed(5, []));
    case NoRequest =>
      EnvelopeOk(PERSISTENT_REQUEST, r.callId, Slot([]));
  }

  lemma ReplyOk(r: Reply)
    ensures MsgOk(Table(), PERSISTENT_RESPONSE, ReplyMsg(r), Canonical)
  {
    hide MsgOk, Table;
    match r.body
    case CallUnaryResponse(result) =>
      PlainOk(CALL_UNARY_RESPONSE, [ResultSlot(result)]);
      Alternatives(PERSISTENT_RESPONSE, 0);
      EnvelopeOk(PERSISTENT_RESPONSE, r.callId, Embed(2, [ResultSlot(result)]));
    case RequestHandling(peer, proto, data) =>
      PlainOk(CALL_UNARY_REQUEST, [One(1, peer), One(2, proto), One(3, data)]);
      Alternatives(PERSISTENT_RESPONSE, 1);
      EnvelopeOk(PERSISTENT_RESPONSE, r.callId, Embed(3, [One(1, peer), One(2, proto), One(3, data)]));
    case DaemonError(None) =>
      PlainOk(DAEMON_ERROR, [Slot([])]);
      Alternatives(PERSISTENT_RESPONSE, 2);
      EnvelopeOk(PERSISTENT_RESPONSE, r.callId, Embed(4, [Slot([])]));
    case DaemonError(Some(message)) =>
      PlainOk(DAEMON_ERROR, [One(1, message)]);
      Alternatives(PERSISTENT_RESPONSE, 2);
      EnvelopeOk(PERSISTENT_RESPONSE, r.callId, Embed(4, [One(1, message)]));
    case Cancelled =>
      PlainOk(CANCEL, []);
      Alternatives(PERSISTENT_RESPONSE, 3);
      EnvelopeOk(PERSISTENT_RESPONSE, r.callId, Embed(5, []));
    case Done =>
      EnvelopeOk(PERSISTENT_RESPONSE, r.callId, Slot([]));
  }

  /** What one side writes, the other reads, for every message of a persistent connection. */
  lemma RequestRoundTrip(r: Request)
    requires |EncodeMsg(RequestMsg(r))| < TWO_63
    ensures DecodeMsg(Table(), PERSISTENT_REQUEST, EncodeMsg(RequestMsg(r)), Empty(Table(), PERSISTENT_REQUEST))
            == Ok(RequestMsg(r))
  {
    RequestOk(r);
    RoundTrips(Table(), PERSISTENT_REQUEST, RequestMsg(r));
  }

  lemma ReplyRoundTrip(r: Reply)
    requires |EncodeMsg(ReplyMsg(r))| < TWO_63
    ensures DecodeMsg(Table(), PERSISTENT_RESPONSE, EncodeMsg(ReplyMsg(r)), Empty(Table(), PERSISTENT_RESPONSE))
            == Ok(ReplyMsg(r))
  {
    ReplyOk(r);
    RoundTrips(Table(), PERSISTENT_RESPONSE, ReplyMsg(r));
  }

  // ---------------------------------------------------------------------------
  // Byte by byte
  // ---------------------------------------------------------------------------

  function Delimited(tag: byte, b: seq<byte>): seq<byte> {
    [tag] + EncVarint(|b|) + b
  }

  function ResultBytes(r: UnaryResult): seq<byte> {
    match r
    case Response(b) => Delimited(0x0A, b)
    case Failure(b) => Delimited(0x12, b)
    case NoResult => []
  }

  function RequestBytes(r: Request): seq<byte> {
    Delimited(0x0A, r.callId) +
    match r.body
    case AddUnaryHandler(proto) => Delimited(0x12, Delimited(0x0A, proto))
    case CallUnary(peer, proto, data) =>
      Delimited(0x1A, Delimited(0x0A, peer) + Delimited(0x12, proto) + Delimited(0x1A, data))
    case UnaryResponse(result) => Delimited(0x22, ResultBytes(result))
    case CancelRequest => Delimited(0x2A, [])
    case NoRequest => []
  }

  function ReplyBytes(r: Reply): seq<byte> {
    Delimited(0x0A, r.callId) +
    match r.body
    case CallUnaryResponse(result) => Delimited(0x12, ResultBytes(result))
    case RequestHandling(peer, proto, data) =>
      Delimited(0x1A, Delimited(0x0A, peer) + Delimited(0x12, proto) + Delimited(0x1A, data))
    case DaemonError(None) => Delimited(0x22, [])
    case DaemonError(Some(message)) => Delimited(0x22, Delimited(0x0A, message))
    case Cancelled => Delimited(0x2A, [])
    case Done => []
  }

  lemma SlotBytes(e: Entry)
    ensures EncodeEntries([]) == [] && EncodeEntries([e]) == EncodeEntry(e)
  {
    assert [e][1..] == [];
  }

  lemma OneBytes(num: nat, b: seq<byte>)
    requires 1 <= num <= 15
    ensures EncodeEntries(One(num, b).entries) == Delimited(8 * num + 2, b)
  {
    SlotBytes(Entry(num, Raw(b)));
  }

  lemma EmbedBytes(num: nat, slots: seq<Slot>)
    requires 1 <= num <= 15
    ensures EncodeEntries(Embed(num, slots).entries) == Delimited(8 * num + 2, EncodeSlots(slots))
  {
    SlotBytes(Entry(num, Sub(Msg(slots, []))));
    assert EncodeMsg(Msg(slots, [])) == EncodeSlots(slots);
  }

  lemma OneSlot(a: Slot)
    ensures EncodeSlots([]) == [] && EncodeSlots([a]) == EncodeEntries(a.entries)
  {
    assert [a][1..] == [];
  }

  lemma TwoSlots(a: Slot, b: Slot)
    ensures EncodeSlots([a, b]) == EncodeEntries(a.entries) + EncodeEntries(b.entries)
  {
    hide EncodeEntries;
    OneSlot(b);
    assert [a, b][1..] == [b];
  }

  lemma ThreeSlots(a: Slot, b: Slot, c: Slot)
    ensures EncodeSlots([a, b, c]) ==
            EncodeEntries(a.entries) + EncodeEntries(b.entries) + EncodeEntries(c.entries)
  {
    hide EncodeEntries;
    TwoSlots(b, c);
    assert [a, b, c][1..] == [b, c];
  }

  lemma ResultSlotBytes(r: UnaryResult)
    ensures EncodeSlots([ResultSlot(r)]) == ResultBytes(r)
  {
    hide EncodeEntries, EncodeSlots, Delimited;
    OneSlot(ResultSlot(r));
    SlotBytes(Entry(1, NilPayload));
    match r
    case Response(b) => OneBytes(1, b);
    case Failure(b) => OneBytes(2, b);
    case NoResult =>
  }

  lemma CallBytes(peer: seq<byte>, proto: seq<byte>, data: seq<byte>)
    ensures EncodeSlots([One(1, peer), One(2, proto), One(3, data)]) ==
            Delimited(0x0A, peer) + Delimited(0x12, proto) + Delimited(0x1A, data)
  {
    hide EncodeEntries, EncodeSlots, Delimited, One;
    ThreeSlots(One(1, peer), One(2, proto), One(3, data));
    OneBytes(1, peer);
    OneBytes(2, proto);
    OneBytes(3, data);
  }

  lemma EnvelopeBytes(callId: seq<byte>, body: Slot)
    ensures EncodeMsg(Msg([One(1, callId), body], [])) == Delimited(0x0A, callId) + EncodeEntries(body.entries)
  {
    hide EncodeEntries, EncodeSlots, Delimited, One;
    TwoSlots(One(1, callId), body);
    OneBytes(1, callId);
  }

  /** What is written for every request, tag by tag. */
  lemma RequestWritten(r: Request)
    ensures EncodeMsg(RequestMsg(r)) == RequestBytes(r)
  {
    hide EncodeEntries, EncodeSlots, EncodeMsg, Delimited, One, Embed, ResultSlot, ResultBytes;
    EnvelopeBytes(r.callId, RequestMsg(r).slots[1]);
    SlotBytes(Entry(1, NilPayload));
    match r.body
    case AddUnaryHandler(proto) =>
      EmbedBytes(2, [One(1, proto)]);
      OneSlot(One(1, proto));
      OneBytes(1, proto);
    case CallUnary(peer, proto, data) =>
      EmbedBytes(3, [One(1, peer), One(2, proto), One(3, data)]);
      CallBytes(peer, proto, data);
    case UnaryResponse(result) =>
      EmbedBytes(4, [ResultSlot(result)]);
      ResultSlotBytes(result);
    case CancelRequest =>
      EmbedBytes(5, []);
      OneSlot(Slot([]));
    case NoRequest =>
  }

  /** And for every reply. */
  lemma ReplyWritten(r: Reply)
    ensures EncodeMsg(ReplyMsg(r)) == ReplyBytes(r)
  {
    hide EncodeEntries, EncodeSlots, EncodeMsg, Delimited, One, Embed, ResultSlot, ResultBytes;
    EnvelopeBytes(r.callId, ReplyMsg(r).slots[1]);
    SlotBytes(Entry(1, NilPayload));
    match r.body
    case CallUnaryResponse(result) =>
      EmbedBytes(2, [ResultSlot(result)]);
      ResultSlotBytes(result);
    case RequestHandling(peer, proto, data) =>
      EmbedBytes(3, [One(1, peer), One(2, proto), One(3, data)]);
      CallBytes(peer, proto, data);
    case DaemonError(None) =>
      EmbedBytes(4, [Slot([])]);
      OneSlot(Slot([]));
    case DaemonError(Some(message)) =>
      EmbedBytes(4, [One(1, message)]);
      OneSlot(One(1, message));
      OneBytes(1, message);
    case Cancelled =>
      EmbedBytes(5, []);
      OneSlot(Slot([]));
    case Done =>
  }

  /** Different requests, or different replies, never have the same bytes. */
  lemma RequestsDistinct(r: Request, r': Request)
    requires |EncodeMsg(RequestMsg(r))| < TWO_63
    requires EncodeMsg(RequestMsg(r)) == EncodeMsg(RequestMsg(r'))
    ensures r == r'
  {
    hide DecodeMsg, EncodeMsg, Table;
    RequestRoundTrip(r);
    RequestRoundTrip(r');
    RequestMsgInjective(r, r');
  }

  lemma RequestMsgInjective(r: Request, r': Request)
    requires RequestMsg(r) == RequestMsg(r')
    ensures r == r'
  {
  }

  lemma RepliesDistinct(r: Reply, r': Reply)
    requires |EncodeMsg(ReplyMsg(r))| < TWO_63
    requires EncodeMsg(ReplyMsg(r)) == EncodeMsg(ReplyMsg(r'))
    ensures r == r'
  {
    hide DecodeMsg, EncodeMsg, Table;
    ReplyRoundTrip(r);
    ReplyRoundTrip(r');
    ReplyMsgInjective(r, r');
  }

  lemma ReplyMsgInjective(r: Reply, r': Reply)
    requires ReplyMsg(r) == ReplyMsg(r')
    ensures r == r'
  {
  }

  // ---------------------------------------------------------------------------
  // A wrapper around nil
  // ---------------------------------------------------------------------------

  /** The answer a client's handler makes of a nil slice: `Response` is chosen, and holds nothing. */
  const NIL_RESPONSE := Msg([Slot([Entry(1, NilPayload)])], [])

  lemma NilResponseClean()
    ensures MsgOk(Table(), CALL_UNARY_RESPONSE, NIL_RESPONSE, Clean)
    ensures !MsgOk(Table(), CALL_UNARY_RESPONSE, NIL_RESPONSE, Canonical)
  {
    var t := CALL_UNARY_RESPONSE;
    NoUnknown(t);
    RowOf(t);
    var def := Row(t);
    assert |def| == 1 && def[0].rule == Oneof && KindIn(def[0].fields, 1) == Some(KBytes);
    hide UnknownRun, Table, Row;
    var s := NIL_RESPONSE.slots[0];
    assert !ValOk(Table(), KBytes, s.entries[0].v, Canonical);
    assert EntryOk(Table(), def[0], s.entries[0], Clean) && !EntryOk(Table(), def[0], s.entries[0], Canonical);
    assert SlotOk(Table(), def[0], s, Clean) && !SlotOk(Table(), def[0], s, Canonical);
    assert Shape(Table(), t, NIL_RESPONSE, Clean) && !Shape(Table(), t, NIL_RESPONSE, Canonical);
  }

  /** It is written as no bytes at all, and read back as an answer without a result. */
  lemma NilResponseLost()
    ensures EncodeMsg(NIL_RESPONSE) == []
    ensures DecodeMsg(Table(), CALL_UNARY_RESPONSE, [], Empty(Table(), CALL_UNARY_RESPONSE))
            == Ok(Msg([ResultSlot(NoResult)], []))
  {
    var slots := NIL_RESPONSE.slots;
    var entries := slots[0].entries;
    assert EncodeEntries(entries) == [] && EncodeSlots(slots) == [];
    assert NormalEntries(entries) == [] && NormalSlots(slots) == [Slot([])];
    NilResponseClean();
    hide MsgOk, DecodeMsg, Table;
    RoundTripUpToNil(Table(), CALL_UNARY_RESPONSE, NIL_RESPONSE);
  }
}
