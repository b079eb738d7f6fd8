/** The message types of pb/p2pd.pb.go, as rows of a table. */
module P2pd {
  import opened Options
  import opened Schema

  // ---------------------------------------------------------------------------
  // Tables whose field numbers run through from 1 are well formed
  // ---------------------------------------------------------------------------

  /** The alternatives of one slot are numbered `first`, `first + 1`, ... */
  predicate Consecutive(fields: seq<FieldDef>, first: nat) {
    1 <= first && first + |fields| <= 16 && forall j :: 0 <= j < |fields| ==> fields[j].num == first + j
  }

  /** Slot `k` starts with number `base + k`; only the last slot may be a oneof. */
  predicate Numbered(def: MsgDef, base: nat) {
    forall k :: 0 <= k < |def| ==>
      && Consecutive(def[k].fields, base + k)
      && (k < |def| - 1 ==> def[k].rule != Oneof)
      && (def[k].rule != Oneof ==> |def[k].fields| == 1)
  }

  lemma {:induction false} ConsecutiveBounds(fields: seq<FieldDef>, first: nat, num: int)
    requires Consecutive(fields, first) && KindIn(fields, num).Some?
    ensures first <= num < first + |fields|
  {
    if fields[0].num != num { ConsecutiveBounds(fields[1..], first + 1, num); }
  }

  lemma {:induction false} NumberedLookup(def: MsgDef, base: nat, k: nat, num: int)
    requires Numbered(def, base) && k < |def| && KindIn(def[k].fields, num).Some?
    ensures 1 <= num <= 15 && Lookup(def, num) == Some((k, KindIn(def[k].fields, num).value))
  {
    ConsecutiveBounds(def[k].fields, base + k, num);
    if k > 0 {
      if KindIn(def[0].fields, num).Some? { ConsecutiveBounds(def[0].fields, base, num); }
      assert forall j :: 0 <= j < |def[1..]| ==> def[1..][j] == def[1 + j];
      NumberedLookup(def[1..], base + 1, k - 1, num);
    }
  }

  lemma NumberedOk(def: MsgDef)
    requires Numbered(def, 1)
    ensures DefOk(def)
  {
    forall k, num | 0 <= k < |def| ensures FieldOk(def, k, num) {
      if KindIn(def[k].fields, num).Some? { NumberedLookup(def, 1, k, num); }
    }
  }

  // ---------------------------------------------------------------------------
  // The table
  // ---------------------------------------------------------------------------

  const PERSISTENT_REQUEST := 2
  const PERSISTENT_RESPONSE := 3
  const IDENTIFY_RESPONSE := 4
  const CONNECT_REQUEST := 5
  const STREAM_OPEN_REQUEST := 6
  const STREAM_HANDLER_REQUEST := 7
  const ERROR_RESPONSE := 8
  const STREAM_INFO := 9
  const DHT_REQUEST := 10
  const DHT_RESPONSE := 11
  const PEER_INFO := 12
  const CONN_MANAGER_REQUEST := 13
  const DISCONNECT_REQUEST := 14
  const PS_REQUEST := 15
  const PS_RESPONSE := 17
  const CALL_UNARY_REQUEST := 18
  const CALL_UNARY_RESPONSE := 19
  const ADD_UNARY_HANDLER_REQUEST := 20
  const DAEMON_ERROR := 21
  const CANCEL := 22

  function Req(num: nat, kind: Kind): SlotDef { SlotDef(Required, [FieldDef(num, kind)]) }
  function Opt(num: nat, kind: Kind): SlotDef { SlotDef(Optional, [FieldDef(num, kind)]) }
  function Rep(num: nat, kind: Kind): SlotDef { SlotDef(Repeated, [FieldDef(num, kind)]) }

  function Row(t: nat): MsgDef {
    match t
    case 0 /* Request */ =>
      [Req(1, KNumber32), Opt(2, KMessage(CONNECT_REQUEST)), Opt(3, KMessage(STREAM_OPEN_REQUEST)),
       Opt(4, KMessage(STREAM_HANDLER_REQUEST)), Opt(5, KMessage(DHT_REQUEST)),
       Opt(6, KMessage(CONN_MANAGER_REQUEST)), Opt(7, KMessage(DISCONNECT_REQUEST)), Opt(8, KMessage(PS_REQUEST))]
    case 1 /* Response */ =>
      [Req(1, KNumber32), Opt(2, KMessage(ERROR_RESPONSE)), Opt(3, KMessage(STREAM_INFO)),
       Opt(4, KMessage(IDENTIFY_RESPONSE)), Opt(5, KMessage(DHT_RESPONSE)),
       Rep(6, KMessage(PEER_INFO)), Opt(7, KMessage(PS_RESPONSE))]
    case 2 /* PersistentConnectionRequest */ =>
      [Req(1, KBytes),
       SlotDef(Oneof, [FieldDef(2, KMessage(ADD_UNARY_HANDLER_REQUEST)), FieldDef(3, KMessage(CALL_UNARY_REQUEST)),
                       FieldDef(4, KMessage(CALL_UNARY_RESPONSE)), FieldDef(5, KMessage(CANCEL))])]
    case 3 /* PersistentConnectionResponse */ =>
      [Req(1, KBytes),
       SlotDef(Oneof, [FieldDef(2, KMessage(CALL_UNARY_RESPONSE)), FieldDef(3, KMessage(CALL_UNARY_REQUEST)),
                       FieldDef(4, KMessage(DAEMON_ERROR)), FieldDef(5, KMessage(CANCEL))])]
    case 4 /* IdentifyResponse */ => [Req(1, KBytes), Rep(2, KBytes)]
    case 5 /* ConnectRequest */ => [Req(1, KBytes), Rep(2, KBytes), Opt(3, KNumber64)]
    case 6 /* StreamOpenRequest */ => [Req(1, KBytes), Rep(2, KBytes), Opt(3, KNumber64)]
    case 7 /* StreamHandlerRequest */ => [Req(1, KBytes), Rep(2, KBytes)]
    case 8 /* ErrorResponse */ => [Req(1, KBytes)]
    case 9 /* StreamInfo */ => [Req(1, KBytes), Req(2, KBytes), Req(3, KBytes)]
    case 10 /* DHTRequest */ =>
      [Req(1, KNumber32), Opt(2, KBytes), Opt(3, KBytes), Opt(4, KBytes), Opt(5, KBytes),
       Opt(6, KNumber32), Opt(7, KNumber64)]
    case 11 /* DHTResponse */ => [Req(1, KNumber32), Opt(2, KMessage(PEER_INFO)), Opt(3, KBytes)]
    case 12 /* PeerInfo */ => [Req(1, KBytes), Rep(2, KBytes)]
    case 13 /* ConnManagerRequest */ => [Req(1, KNumber32), Opt(2, KBytes), Opt(3, KBytes), Opt(4, KNumber64)]
    case 14 /* DisconnectRequest */ => [Req(1, KBytes)]
    case 15 /* PSRequest */ => [Req(1, KNumber32), Opt(2, KBytes), Opt(3, KBytes)]
    case 16 /* PSMessage */ =>
      [Opt(1, KBytes), Opt(2, KBytes), Opt(3, KBytes), Rep(4, KBytes), Opt(5, KBytes), Opt(6, KBytes)]
    case 17 /* PSResponse */ => [Rep(1, KBytes), Rep(2, KBytes)]
    case 18 /* CallUnaryRequest */ => [Req(1, KBytes), Req(2, KBytes), Req(3, KBytes)]
    case 19 /* CallUnaryResponse */ => [SlotDef(Oneof, [FieldDef(1, KBytes), FieldDef(2, KBytes)])]
    case 20 /* AddUnaryHandlerRequest */ => [Req(1, KBytes)]
    case 21 /* DaemonError */ => [Opt(1, KBytes)]
    case _ /* Cancel */ => []
  }

  lemma RowNumberedLow(t: nat)
    requires t < 4
    ensures Numbered(Row(t), 1)
  {
  }

  lemma RowNumberedMiddle(t: nat)
    requires 4 <= t < 13
    ensures Numbered(Row(t), 1)
  {
  }

  lemma RowNumbered(t: nat)
    ensures Numbered(Row(t), 1)
  {
    if t < 4 {
      RowNumberedLow(t);
    } else if t < 13 {
      RowNumberedMiddle(t);
    }
  }

  function Rows(): (s: seq<MsgDef>)
    ensures |s| == 23 && forall t :: 0 <= t < 23 ==> s[t] == Row(t)
  {
    seq(23, t requires 0 <= t < 23 => Row(t))
  }

  lemma RowsOk()
    ensures forall t :: 0 <= t < |Rows()| ==> DefOk(Rows()[t])
  {
    forall t | 0 <= t < |Rows()| ensures DefOk(Rows()[t]) {
      RowNumbered(t);
      NumberedOk(Row(t));
    }
  }

  function Table(): MsgTable {
    RowsOk();
    Rows()
  }

  lemma RowOf(t: nat)
    requires t < 23
    ensures Def(Table(), t) == Row(t)
  {
  }

  lemma {:induction false} ConsecutiveKind(fields: seq<FieldDef>, first: nat, j: nat)
    requires Consecutive(fields, first) && j < |fields|
    ensures KindIn(fields, first + j) == Some(fields[j].kind)
  {
    if j > 0 {
      assert fields[0].num == first;
      ConsecutiveKind(fields[1..], first + 1, j - 1);
    }
  }

  /** The alternatives of the two oneofs. */
  lemma Alternatives(t: nat, j: nat)
    requires (t == PERSISTENT_REQUEST || t == PERSISTENT_RESPONSE) && j < 4
    ensures |Row(t)| == 2 && |Row(t)[1].fields| == 4
    ensures KindIn(Row(t)[1].fields, 2 + j) == Some(Row(t)[1].fields[j].kind)
  {
    ConsecutiveKind(Row(t)[1].fields, 2, j);
  }
}
