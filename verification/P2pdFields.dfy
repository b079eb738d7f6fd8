/**
  The daemon's messages by their bytes: what `Unmarshal` makes of every sequence of a message's
  fields, each field given by its tag byte.
 */
module P2pdFields {
  import opened Options
  import opened Wire
  import opened Schema
  import opened Message
  import opened Decode
  import opened P2pd
  import opened ByTag

  // ---------------------------------------------------------------------------
  // What a field holds
  // ---------------------------------------------------------------------------

  /** The items are length-delimited under the tags `texts`, and numbers under the tags `numbers`. */
  predicate Only(xs: seq<Item>, texts: set<byte>, numbers: set<byte>) {
    && |AllItems(xs)| < TWO_63
    && forall i :: 0 <= i < |xs| ==> if xs[i].Text? then xs[i].tag in texts else xs[i].tag in numbers
  }

  /** What stands under a tag, in order. */
  function Texts(xs: seq<Item>, tag: int): seq<slice> {
    if xs == [] then [] else (if xs[0].Text? && xs[0].tag == tag then [xs[0].b] else []) + Texts(xs[1..], tag)
  }

  function Numbers(xs: seq<Item>, tag: int): seq<uint64> {
    if xs == [] then [] else (if xs[0].Varint? && xs[0].tag == tag then [xs[0].u] else []) + Numbers(xs[1..], tag)
  }

  /** Bytes: the last wins. */
  function LastText(num: nat, bs: seq<slice>): Option<Slot> {
    Some(Slot(if bs == [] then [] else [Entry(num, Raw(bs[|bs| - 1]))]))
  }

  /** Repeated bytes: all of them, in order. */
  function EveryText(num: nat, bs: seq<slice>): Option<Slot> {
    Some(Slot(seq(|bs|, i requires 0 <= i < |bs| => Entry(num, Raw(bs[i])))))
  }

  /** Numbers: the last wins, in 64 bits or cut to 32. */
  function LastInt64(num: nat, us: seq<uint64>): Option<Slot> {
    Some(Slot(if us == [] then [] else [Entry(num, Num(ToI64(us[|us| - 1])))]))
  }

  function LastInt32(num: nat, us: seq<uint64>): Option<Slot> {
    Some(Slot(if us == [] then [] else [Entry(num, Num(ToI32(us[|us| - 1])))]))
  }

  /** Embedded messages, one decoded into the other; `None` if one is refused. */
  function DecodeAll(t: nat, m: Msg, bs: seq<slice>): Option<Msg>
    decreases |bs|
  {
    if bs == [] then Some(m)
    else
      match DecodeMsg(Table(), t, bs[0], m)
      case Err(_) => None
      case Ok(m') => DecodeAll(t, m', bs[1..])
  }

  function OneMessage(num: nat, t: nat, bs: seq<slice>): Option<Slot> {
    if bs == [] then Some(Slot([]))
    else
      match DecodeAll(t, Empty(Table(), t), bs)
      case None => None
      case Some(m) => Some(Slot([Entry(num, Sub(m))]))
  }

  /** Repeated embedded messages: each on its own. */
  function EveryMessage(num: nat, t: nat, bs: seq<slice>): Option<Slot> {
    if bs == [] then Some(Slot([]))
    else
      match DecodeMsg(Table(), t, bs[0], Empty(Table(), t))
      case Err(_) => None
      case Ok(m) =>
        match EveryMessage(num, t, bs[1..])
        case None => None
        case Some(rest) => Some(Slot([Entry(num, Sub(m))] + rest.entries))
  }

  // ---------------------------------------------------------------------------
  // That this is what a slot gathers
  // ---------------------------------------------------------------------------

  /** Items with this number are under this tag, and of the right form. */
  predicate Formed(xs: seq<Item>, num: nat, wire: nat) {
    forall i :: 0 <= i < |xs| && xs[i].tag / 8 == num ==> xs[i].tag == 8 * num + wire && xs[i].Text? == (wire == 2)
  }

  lemma FormedRest(xs: seq<Item>, num: nat, wire: nat)
    requires xs != [] && Formed(xs, num, wire)
    ensures Formed(xs[1..], num, wire)
  {
  }

  function Single(rule: Rule, num: nat, kind: Kind): SlotDef {
    SlotDef(rule, [FieldDef(num, kind)])
  }

  lemma KindSingle(rule: Rule, num: nat, kind: Kind, n: nat)
    ensures KindIn(Single(rule, num, kind).fields, n) == if n == num then Some(kind) else None
  {
    assert Single(rule, num, kind).fields[1..] == [];
  }

  /** One step of a slot with one field. */
  lemma SingleStep(rule: Rule, num: nat, kind: Kind, old_: Slot, xs: seq<Item>)
    requires xs != [] && Formed(xs, num, KindWire(kind))
    ensures Formed(xs[1..], num, KindWire(kind))
    ensures var def := Single(rule, num, kind); var x := xs[0];
      Gather(Table(), def, old_, xs) ==
      if x.tag / 8 != num then Gather(Table(), def, old_, xs[1..])
      else
        match Stored(Table(), def, old_, x)
        case None => None
        case Some(s) => Gather(Table(), def, s, xs[1..])
    ensures xs[0].tag / 8 == num ==> xs[0].tag == 8 * num + KindWire(kind) && xs[0].Text? == (KindWire(kind) == 2)
    ensures xs[0].tag / 8 != num ==> xs[0].tag != 8 * num + KindWire(kind)
  {
    FormedRest(xs, num, KindWire(kind));
    KindSingle(rule, num, kind, xs[0].tag / 8);
    hide DecodeMsg, ToI32, ToI64, KindIn;
  }

  lemma SingleStored(rule: Rule, num: nat, kind: Kind, old_: Slot, x: Item)
    requires x.tag / 8 == num && x.Text? == (KindWire(kind) == 2)
    ensures var def := Single(rule, num, kind); var es := old_.entries;
      match kind
      case KNumber32 => Stored(Table(), def, old_, x) == Some(Slot(Store(rule, es, Entry(num, Num(ToI32(x.u))))))
      case KNumber64 => Stored(Table(), def, old_, x) == Some(Slot(Store(rule, es, Entry(num, Num(ToI64(x.u))))))
      case KBytes => Stored(Table(), def, old_, x) == Some(Slot(Store(rule, es, Entry(num, Raw(x.b)))))
      case KMessage(t) =>
        Stored(Table(), def, old_, x) ==
        match DecodeMsg(Table(), t, x.b, Into(Table(), def, old_, t))
        case Err(_) => None
        case Ok(m) => Some(Slot(Store(rule, es, Entry(num, Sub(m)))))
  {
    KindSingle(rule, num, kind, x.tag / 8);
    hide DecodeMsg, ToI32, ToI64, KindIn;
  }

  lemma {:induction false} GatherText(rule: Rule, num: nat, old_: Slot, xs: seq<Item>)
    requires (rule == Required || rule == Optional) && Formed(xs, num, 2)
    ensures var bs := Texts(xs, 8 * num + 2);
      Gather(Table(), Single(rule, num, KBytes), old_, xs) == if bs == [] then Some(old_) else LastText(num, bs)
    decreases |xs|
  {
    if xs != [] {
      SingleStep(rule, num, KBytes, old_, xs);
      hide Gather, Single, Stored, Formed;
      if xs[0].tag / 8 == num {
        SingleStored(rule, num, KBytes, old_, xs[0]);
        GatherText(rule, num, Slot([Entry(num, Raw(xs[0].b))]), xs[1..]);
      } else {
        GatherText(rule, num, old_, xs[1..]);
      }
    }
  }

  lemma {:induction false} GatherTexts(num: nat, old_: Slot, xs: seq<Item>)
    requires Formed(xs, num, 2)
    ensures Gather(Table(), Single(Repeated, num, KBytes), old_, xs) ==
            Some(Slot(old_.entries + EveryText(num, Texts(xs, 8 * num + 2)).value.entries))
    decreases |xs|
  {
    var bs := Texts(xs, 8 * num + 2);
    if xs == [] {
      assert old_.entries + [] == old_.entries;
    } else {
      SingleStep(Repeated, num, KBytes, old_, xs);
      hide Gather, Single, Stored, Formed;
      if xs[0].tag / 8 == num {
        SingleStored(Repeated, num, KBytes, old_, xs[0]);
        var s := Slot(old_.entries + [Entry(num, Raw(xs[0].b))]);
        GatherTexts(num, s, xs[1..]);
        assert bs == [xs[0].b] + Texts(xs[1..], 8 * num + 2);
        assert s.entries + EveryText(num, Texts(xs[1..], 8 * num + 2)).value.entries
            == old_.entries + EveryText(num, bs).value.entries;
      } else {
        GatherTexts(num, old_, xs[1..]);
        assert bs == Texts(xs[1..], 8 * num + 2);
      }
    }
  }

  lemma {:induction false} GatherNumber(rule: Rule, num: nat, kind: Kind, old_: Slot, xs: seq<Item>)
    requires (rule == Required || rule == Optional) && Formed(xs, num, 0) && (kind.KNumber32? || kind.KNumber64?)
    ensures var us := Numbers(xs, 8 * num);
      Gather(Table(), Single(rule, num, kind), old_, xs) ==
      if us == [] then Some(old_) else if kind.KNumber32? then LastInt32(num, us) else LastInt64(num, us)
    decreases |xs|
  {
    if xs != [] {
      assert KindWire(kind) == 0;
      hide Gather, Single, Stored, Formed, ToI32, ToI64, KindWire;
      SingleStep(rule, num, kind, old_, xs);
      var us, rest := Numbers(xs, 8 * num), Numbers(xs[1..], 8 * num);
      if xs[0].tag / 8 == num {
        SingleStored(rule, num, kind, old_, xs[0]);
        var i := if kind.KNumber32? then ToI32(xs[0].u) else ToI64(xs[0].u);
        GatherNumber(rule, num, kind, Slot([Entry(num, Num(i))]), xs[1..]);
        assert us == [xs[0].u] + rest;
      } else {
        GatherNumber(rule, num, kind, old_, xs[1..]);
        assert us == rest;
      }
    }
  }

  /** The slot of an embedded message that holds `m`, if it holds any. */
  function Holding(num: nat, m: Option<Msg>): Slot {
    match m
    case None => Slot([])
    case Some(m) => Slot([Entry(num, Sub(m))])
  }

  lemma {:induction false} GatherMessage(rule: Rule, num: nat, t: nat, old_: Option<Msg>, xs: seq<Item>)
    requires (rule == Required || rule == Optional) && Formed(xs, num, 2)
    ensures var bs := Texts(xs, 8 * num + 2); var base := if old_.Some? then old_.value else Empty(Table(), t);
      Gather(Table(), Single(rule, num, KMessage(t)), Holding(num, old_), xs) ==
      if bs == [] then Some(Holding(num, old_))
      else match DecodeAll(t, base, bs) case None => None case Some(m) => Some(Holding(num, Some(m)))
    decreases |xs|
  {
    if xs != [] {
      var s := Holding(num, old_);
      SingleStep(rule, num, KMessage(t), s, xs);
      if xs[0].tag / 8 == num {
        SingleStored(rule, num, KMessage(t), s, xs[0]);
        var base := Into(Table(), Single(rule, num, KMessage(t)), s, t);
        assert base == if old_.Some? then old_.value else Empty(Table(), t);
        hide Gather, Single, Stored, Formed, DecodeMsg, Table, Empty;
        var r := DecodeMsg(Table(), t, xs[0].b, base);
        if r.Ok? {
          GatherMessage(rule, num, t, Some(r.value), xs[1..]);
          assert Texts(xs, 8 * num + 2)[1..] == Texts(xs[1..], 8 * num + 2);
        }
      } else {
        hide Gather, Single, Stored, Formed, DecodeMsg, Table, Empty;
        GatherMessage(rule, num, t, old_, xs[1..]);
        assert Texts(xs, 8 * num + 2) == Texts(xs[1..], 8 * num + 2);
      }
    }
  }

  lemma EveryStep(num: nat, t: nat, bs: seq<slice>, es: seq<Entry>)
    requires bs != [] && DecodeMsg(Table(), t, bs[0], Empty(Table(), t)).Ok?
    ensures var e := Entry(num, Sub(DecodeMsg(Table(), t, bs[0], Empty(Table(), t)).value));
      Appended(es, EveryMessage(num, t, bs)) == Appended(es + [e], EveryMessage(num, t, bs[1..]))
  {
    hide DecodeMsg, Table, Empty;
    var e := Entry(num, Sub(DecodeMsg(Table(), t, bs[0], Empty(Table(), t)).value));
    var rest := EveryMessage(num, t, bs[1..]);
    if rest.Some? { assert es + [e] + rest.value.entries == es + ([e] + rest.value.entries); }
  }

  function Appended(es: seq<Entry>, s: Option<Slot>): Option<Slot> {
    match s
    case None => None
    case Some(s) => Some(Slot(es + s.entries))
  }

  lemma {:induction false} GatherMessages(num: nat, t: nat, old_: Slot, xs: seq<Item>)
    requires Formed(xs, num, 2)
    ensures Gather(Table(), Single(Repeated, num, KMessage(t)), old_, xs) ==
            Appended(old_.entries, EveryMessage(num, t, Texts(xs, 8 * num + 2)))
    decreases |xs|
  {
    var bs := Texts(xs, 8 * num + 2);
    if xs == [] {
      assert old_.entries + [] == old_.entries;
    } else {
      SingleStep(Repeated, num, KMessage(t), old_, xs);
      hide Gather, Formed, DecodeMsg, Table, Empty;
      if xs[0].tag / 8 == num {
        SingleStored(Repeated, num, KMessage(t), old_, xs[0]);
        hide Single, Stored;
        assert bs == [xs[0].b] + Texts(xs[1..], 8 * num + 2);
        var r := DecodeMsg(Table(), t, xs[0].b, Empty(Table(), t));
        if r.Ok? {
          EveryStep(num, t, bs, old_.entries);
          GatherMessages(num, t, Slot(old_.entries + [Entry(num, Sub(r.value))]), xs[1..]);
        }
      } else {
        hide Single, Stored;
        GatherMessages(num, t, old_, xs[1..]);
        assert bs == Texts(xs[1..], 8 * num + 2);
      }
    }
  }

  // ---------------------------------------------------------------------------
  // A whole message
  // ---------------------------------------------------------------------------

  /**
    What `Unmarshal` makes of the items: nothing if an embedded message is refused, nothing if a
    required field is not `present`, and else a message of exactly these parts.
   */
  ghost predicate Reads(t: nat, xs: seq<Item>, present: bool, parts: seq<Option<Slot>>)
    requires |AllItems(xs)| < TWO_63
  {
    var r := DecodeMsg(Table(), t, AllItems(xs), Empty(Table(), t));
    if exists k :: 0 <= k < |parts| && parts[k].None? then r.Err?
    else if !present then r == Err(RequiredNotSet)
    else
      && r.Ok? && r.value.unrecognized == [] && |r.value.slots| == |parts|
      && forall k :: 0 <= k < |parts| ==> parts[k] == Some(r.value.slots[k])
  }

  /** Which of its slots takes the item. */
  ghost predicate Taken(t: nat, x: Item) {
    exists k, kind :: Fits(Table(), t, x, k, kind)
  }

  /** A field that is alone in its slot, which is numbered like it. */
  predicate TakesAlone(def: MsgDef, x: Item) {
    && 1 <= x.tag / 8 <= |def|
    && var fields := def[x.tag / 8 - 1].fields;
       && |fields| == 1 && fields[0].num == x.tag / 8
       && x.tag % 8 == KindWire(fields[0].kind) && x.Varint? == (KindWire(fields[0].kind) == 0)
  }

  lemma TakenAlone(t: nat, x: Item)
    requires t < 23 && TakesAlone(Row(t), x)
    ensures Taken(t, x)
  {
    RowOf(t);
    hide Row, Table;
    var k := x.tag / 8 - 1;
    assert Fits(Table(), t, x, k, Row(t)[k].fields[0].kind);
  }

  /** What a slot with one field gathers. */
  function PartOf(def: SlotDef, xs: seq<Item>): Option<Slot>
    requires |def.fields| == 1
  {
    var num, kind := def.fields[0].num, def.fields[0].kind;
    var tag := 8 * num + KindWire(kind);
    match kind
    case KNumber32 => LastInt32(num, Numbers(xs, tag))
    case KNumber64 => LastInt64(num, Numbers(xs, tag))
    case KBytes => if def.rule == Repeated then EveryText(num, Texts(xs, tag)) else LastText(num, Texts(xs, tag))
    case KMessage(t) =>
      if def.rule == Repeated then EveryMessage(num, t, Texts(xs, tag)) else OneMessage(num, t, Texts(xs, tag))
  }

  predicate Alone(def: SlotDef) {
    && |def.fields| == 1 && def.rule != Oneof
    && (def.rule == Repeated ==> KindWire(def.fields[0].kind) == 2)
  }

  lemma PartGathered(def: SlotDef, xs: seq<Item>)
    requires Alone(def) && Formed(xs, def.fields[0].num, KindWire(def.fields[0].kind))
    ensures Gather(Table(), def, Slot([]), xs) == PartOf(def, xs)
  {
    var num, kind := def.fields[0].num, def.fields[0].kind;
    assert def == Single(def.rule, num, kind);
    hide Gather, Formed, Table, Texts, Numbers, DecodeMsg;
    match kind
    case KNumber32 => GatherNumber(def.rule, num, kind, Slot([]), xs);
    case KNumber64 => GatherNumber(def.rule, num, kind, Slot([]), xs);
    case KBytes =>
      if def.rule == Repeated {
        GatherTexts(num, Slot([]), xs);
        var es := EveryText(num, Texts(xs, 8 * num + 2)).value.entries;
        assert [] + es == es;
      } else {
        GatherText(def.rule, num, Slot([]), xs);
      }
    case KMessage(t) =>
      if def.rule == Repeated {
        GatherMessages(num, t, Slot([]), xs);
        var part := EveryMessage(num, t, Texts(xs, 8 * num + 2));
        if part.Some? { assert [] + part.value.entries == part.value.entries; }
      } else {
        GatherMessage(def.rule, num, t, None, xs);
      }
  }

  /** The field stands among the items. */
  predicate Present(def: SlotDef, xs: seq<Item>)
    requires |def.fields| == 1
  {
    var tag := 8 * def.fields[0].num + KindWire(def.fields[0].kind);
    if KindWire(def.fields[0].kind) == 0 then Numbers(xs, tag) != [] else Texts(xs, tag) != []
  }

  lemma {:induction false} PresentTouched(def: SlotDef, xs: seq<Item>)
    requires Alone(def) && Formed(xs, def.fields[0].num, KindWire(def.fields[0].kind))
    ensures Touched(def, xs) <==> Present(def, xs)
    decreases |xs|
  {
    var num, kind := def.fields[0].num, def.fields[0].kind;
    assert def == Single(def.rule, num, kind);
    if xs != [] {
      TouchedStep(def, xs);
      KindSingle(def.rule, num, kind, xs[0].tag / 8);
      FormedRest(xs, num, KindWire(kind));
      PresentTouched(def, xs[1..]);
      hide Touched, KindIn;
    }
  }

  lemma FormedTaken(xs: seq<Item>, t: nat, k: nat)
    requires t < 23 && k < |Row(t)| && Alone(Row(t)[k])
    requires forall i :: 0 <= i < |xs| ==> Taken(t, xs[i])
    ensures Formed(xs, Row(t)[k].fields[0].num, KindWire(Row(t)[k].fields[0].kind))
  {
    RowOf(t);
    hide Row, Table;
    var f := Row(t)[k].fields[0];
    forall i | 0 <= i < |xs| && xs[i].tag / 8 == f.num
      ensures xs[i].tag == 8 * f.num + KindWire(f.kind) && xs[i].Text? == (KindWire(f.kind) == 2)
    {
      assert Taken(t, xs[i]);
      var j, kind :| Fits(Table(), t, xs[i], j, kind);
      if j != k { OthersKept(Table(), t, xs[i], j, kind, k); }
    }
  }

  /** The slots stand alone, and these are their parts. */
  ghost predicate ByRow(def: MsgDef, xs: seq<Item>, present: bool, parts: seq<Option<Slot>>) {
    && |parts| == |def|
    && (forall k :: 0 <= k < |def| ==> Alone(def[k]) && PartOf(def[k], xs) == parts[k])
    && (present <==> forall k :: 0 <= k < |def| && def[k].rule == Required ==> Present(def[k], xs))
  }

  /** A message whose fields stand alone, by its row. */
  lemma ReadsAlone(t: nat, xs: seq<Item>, present: bool, parts: seq<Option<Slot>>)
    requires t < 23 && |AllItems(xs)| < TWO_63 && ByRow(Row(t), xs, present, parts)
    requires forall i :: 0 <= i < |xs| ==> Taken(t, xs[i])
    ensures Reads(t, xs, present, parts)
  {
    RowOf(t);
    hide Row, Table, Gather, Touched, Present, PartOf, AllItems, DecodeMsg, Alone, Formed;
    forall k | 0 <= k < |parts|
      ensures Gather(Table(), Row(t)[k], Slot([]), xs) == parts[k]
      ensures Touched(Row(t)[k], xs) <==> Present(Row(t)[k], xs)
    {
      OneField(Row(t)[k]);
      FormedTaken(xs, t, k);
      PartGathered(Row(t)[k], xs);
      PresentTouched(Row(t)[k], xs);
    }
    AllTaken(t, xs);
    DecodeByTag(Table(), t, xs);
  }

  lemma OneField(def: SlotDef)
    requires Alone(def)
    ensures |def.fields| == 1
  {
  }

  lemma AllTaken(t: nat, xs: seq<Item>)
    requires forall i :: 0 <= i < |xs| ==> Taken(t, xs[i])
    ensures AllFit(Table(), t, xs)
  {
    hide Table, Fits;
    forall i | 0 <= i < |xs| ensures FitsSome(Table(), t, xs[i]) { assert Taken(t, xs[i]); }
  }

  // ---------------------------------------------------------------------------
  // The messages
  // ---------------------------------------------------------------------------

  lemma Request(xs: seq<Item>)
    requires Only(xs, {0x12, 0x1A, 0x22, 0x2A, 0x32, 0x3A, 0x42}, {0x08})
    ensures
      var kind, connect, streamOpen := Numbers(xs, 0x08), Texts(xs, 0x12), Texts(xs, 0x1A);
      var streamHandler, dht, connManager := Texts(xs, 0x22), Texts(xs, 0x2A), Texts(xs, 0x32);
      var disconnect, pubsub := Texts(xs, 0x3A), Texts(xs, 0x42);
      Reads(0, xs, kind != [],
        [LastInt32(1, kind), OneMessage(2, CONNECT_REQUEST, connect),
         OneMessage(3, STREAM_OPEN_REQUEST, streamOpen), OneMessage(4, STREAM_HANDLER_REQUEST, streamHandler),
         OneMessage(5, DHT_REQUEST, dht), OneMessage(6, CONN_MANAGER_REQUEST, connManager),
         OneMessage(7, DISCONNECT_REQUEST, disconnect), OneMessage(8, PS_REQUEST, pubsub)])
  {
    hide AllItems, Texts, Numbers, Reads, Taken, LastText, EveryText, LastInt64, LastInt32, OneMessage, EveryMessage;
    var kind, connect, streamOpen := Numbers(xs, 0x08), Texts(xs, 0x12), Texts(xs, 0x1A);
    var streamHandler, dht, connManager := Texts(xs, 0x22), Texts(xs, 0x2A), Texts(xs, 0x32);
    var disconnect, pubsub := Texts(xs, 0x3A), Texts(xs, 0x42);
    forall i | 0 <= i < |xs| ensures Taken(0, xs[i]) { TakenAlone(0, xs[i]); }
    assert Present(Row(0)[0], xs) <==> kind != [];
    ReadsAlone(0, xs, kind != [],
      [LastInt32(1, kind), OneMessage(2, CONNECT_REQUEST, connect),
       OneMessage(3, STREAM_OPEN_REQUEST, streamOpen), OneMessage(4, STREAM_HANDLER_REQUEST, streamHandler),
       OneMessage(5, DHT_REQUEST, dht), OneMessage(6, CONN_MANAGER_REQUEST, connManager),
       OneMessage(7, DISCONNECT_REQUEST, disconnect), OneMessage(8, PS_REQUEST, pubsub)]);
  }

  lemma Response(xs: seq<Item>)
    requires Only(xs, {0x12, 0x1A, 0x22, 0x2A, 0x32, 0x3A}, {0x08})
    ensures
      var kind, error, streamInfo := Numbers(xs, 0x08), Texts(xs, 0x12), Texts(xs, 0x1A);
      var identify, dht, peers := Texts(xs, 0x22), Texts(xs, 0x2A), Texts(xs, 0x32);
      var pubsub := Texts(xs, 0x3A);
      Reads(1, xs, kind != [],
        [LastInt32(1, kind), OneMessage(2, ERROR_RESPONSE, error), OneMessage(3, STREAM_INFO, streamInfo),
         OneMessage(4, IDENTIFY_RESPONSE, identify), OneMessage(5, DHT_RESPONSE, dht),
         EveryMessage(6, PEER_INFO, peers), OneMessage(7, PS_RESPONSE, pubsub)])
  {
    hide AllItems, Texts, Numbers, Reads, Taken, LastText, EveryText, LastInt64, LastInt32, OneMessage, EveryMessage;
    var kind, error, streamInfo := Numbers(xs, 0x08), Texts(xs, 0x12), Texts(xs, 0x1A);
    var identify, dht, peers := Texts(xs, 0x22), Texts(xs, 0x2A), Texts(xs, 0x32);
    var pubsub := Texts(xs, 0x3A);
    forall i | 0 <= i < |xs| ensures Taken(1, xs[i]) { TakenAlone(1, xs[i]); }
    assert Present(Row(1)[0], xs) <==> kind != [];
    ReadsAlone(1, xs, kind != [],
      [LastInt32(1, kind), OneMessage(2, ERROR_RESPONSE, error), OneMessage(3, STREAM_INFO, streamInfo),
       OneMessage(4, IDENTIFY_RESPONSE, identify), OneMessage(5, DHT_RESPONSE, dht),
       EveryMessage(6, PEER_INFO, peers), OneMessage(7, PS_RESPONSE, pubsub)]);
  }

  lemma IdentifyResponse(xs: seq<Item>)
    requires Only(xs, {0x0A, 0x12}, {})
    ensures
      var id, addrs := Texts(xs, 0x0A), Texts(xs, 0x12);
      Reads(IDENTIFY_RESPONSE, xs, id != [], [LastText(1, id), EveryText(2, addrs)])
  {
    hide AllItems, Texts, Numbers, Reads, Taken, LastText, EveryText, LastInt64, LastInt32, OneMessage, EveryMessage;
    var id, addrs := Texts(xs, 0x0A), Texts(xs, 0x12);
    forall i | 0 <= i < |xs| ensures Taken(IDENTIFY_RESPONSE, xs[i]) { TakenAlone(IDENTIFY_RESPONSE, xs[i]); }
    assert Present(Row(IDENTIFY_RESPONSE)[0], xs) <==> id != [];
    ReadsAlone(IDENTIFY_RESPONSE, xs, id != [],
      [LastText(1, id), EveryText(2, addrs)]);
  }

  lemma ConnectRequest(xs: seq<Item>)
    requires Only(xs, {0x0A, 0x12}, {0x18})
    ensures
      var peer, addrs, timeout := Texts(xs, 0x0A), Texts(xs, 0x12), Numbers(xs, 0x18);
      Reads(CONNECT_REQUEST, xs, peer != [], [LastText(1, peer), EveryText(2, addrs), LastInt64(3, timeout)])
  {
    hide AllItems, Texts, Numbers, Reads, Taken, LastText, EveryText, LastInt64, LastInt32, OneMessage, EveryMessage;
    var peer, addrs, timeout := Texts(xs, 0x0A), Texts(xs, 0x12), Numbers(xs, 0x18);
    forall i | 0 <= i < |xs| ensures Taken(CONNECT_REQUEST, xs[i]) { TakenAlone(CONNECT_REQUEST, xs[i]); }
    assert Present(Row(CONNECT_REQUEST)[0], xs) <==> peer != [];
    ReadsAlone(CONNECT_REQUEST, xs, peer != [],
      [LastText(1, peer), EveryText(2, addrs), LastInt64(3, timeout)]);
  }

  lemma StreamOpenRequest(xs: seq<Item>)
    requires Only(xs, {0x0A, 0x12}, {0x18})
    ensures
      var peer, proto, timeout := Texts(xs, 0x0A), Texts(xs, 0x12), Numbers(xs, 0x18);
      Reads(STREAM_OPEN_REQUEST, xs, peer != [], [LastText(1, peer), EveryText(2, proto), LastInt64(3, timeout)])
  {
    hide AllItems, Texts, Numbers, Reads, Taken, LastText, EveryText, LastInt64, LastInt32, OneMessage, EveryMessage;
    var peer, proto, timeout := Texts(xs, 0x0A), Texts(xs, 0x12), Numbers(xs, 0x18);
    forall i | 0 <= i < |xs| ensures Taken(STREAM_OPEN_REQUEST, xs[i]) { TakenAlone(STREAM_OPEN_REQUEST, xs[i]); }
    assert Present(Row(STREAM_OPEN_REQUEST)[0], xs) <==> peer != [];
    ReadsAlone(STREAM_OPEN_REQUEST, xs, peer != [],
      [LastText(1, peer), EveryText(2, proto), LastInt64(3, timeout)]);
  }

  lemma StreamHandlerRequest(xs: seq<Item>)
    requires Only(xs, {0x0A, 0x12}, {})
    ensures
      var addr, proto := Texts(xs, 0x0A), Texts(xs, 0x12);
      Reads(STREAM_HANDLER_REQUEST, xs, addr != [], [LastText(1, addr), EveryText(2, proto)])
  {
    hide AllItems, Texts, Numbers, Reads, Taken, LastText, EveryText, LastInt64, LastInt32, OneMessage, EveryMessage;
    var addr, proto := Texts(xs, 0x0A), Texts(xs, 0x12);
    forall i | 0 <= i < |xs| ensures Taken(STREAM_HANDLER_REQUEST, xs[i]) {
      TakenAlone(STREAM_HANDLER_REQUEST, xs[i]);
    }
    assert Present(Row(STREAM_HANDLER_REQUEST)[0], xs) <==> addr != [];
    ReadsAlone(STREAM_HANDLER_REQUEST, xs, addr != [],
      [LastText(1, addr), EveryText(2, proto)]);
  }

  lemma ErrorResponse(xs: seq<Item>)
    requires Only(xs, {0x0A}, {})
    ensures
      var msg := Texts(xs, 0x0A);
      Reads(ERROR_RESPONSE, xs, msg != [], [LastText(1, msg)])
  {
    hide AllItems, Texts, Numbers, Reads, Taken, LastText, EveryText, LastInt64, LastInt32, OneMessage, EveryMessage;
    var msg := Texts(xs, 0x0A);
    forall i | 0 <= i < |xs| ensures Taken(ERROR_RESPONSE, xs[i]) { TakenAlone(ERROR_RESPONSE, xs[i]); }
    assert Present(Row(ERROR_RESPONSE)[0], xs) <==> msg != [];
    ReadsAlone(ERROR_RESPONSE, xs, msg != [],
      [LastText(1, msg)]);
  }

  lemma StreamInfo(xs: seq<Item>)
    requires Only(xs, {0x0A, 0x12, 0x1A}, {})
    ensures
      var peer, addr, proto := Texts(xs, 0x0A), Texts(xs, 0x12), Texts(xs, 0x1A);
      Reads(STREAM_INFO, xs, peer != [] && addr != [] && proto != [],
        [LastText(1, peer), LastText(2, addr), LastText(3, proto)])
  {
    hide AllItems, Texts, Numbers, Reads, Taken, LastText, EveryText, LastInt64, LastInt32, OneMessage, EveryMessage;
    var peer, addr, proto := Texts(xs, 0x0A), Texts(xs, 0x12), Texts(xs, 0x1A);
    forall i | 0 <= i < |xs| ensures Taken(STREAM_INFO, xs[i]) { TakenAlone(STREAM_INFO, xs[i]); }
    assert Present(Row(STREAM_INFO)[0], xs) <==> peer != [];
    assert Present(Row(STREAM_INFO)[1], xs) <==> addr != [];
    assert Present(Row(STREAM_INFO)[2], xs) <==> proto != [];
    ReadsAlone(STREAM_INFO, xs, peer != [] && addr != [] && proto != [],
      [LastText(1, peer), LastText(2, addr), LastText(3, proto)]);
  }

  lemma DhtRequest(xs: seq<Item>)
    requires Only(xs, {0x12, 0x1A, 0x22, 0x2A}, {0x08, 0x30, 0x38})
    ensures
      var kind, peer, cid := Numbers(xs, 0x08), Texts(xs, 0x12), Texts(xs, 0x1A);
      var key, value, count := Texts(xs, 0x22), Texts(xs, 0x2A), Numbers(xs, 0x30);
      var timeout := Numbers(xs, 0x38);
      Reads(DHT_REQUEST, xs, kind != [],
        [LastInt32(1, kind), LastText(2, peer), LastText(3, cid), LastText(4, key), LastText(5, value),
         LastInt32(6, count), LastInt64(7, timeout)])
  {
    hide AllItems, Texts, Numbers, Reads, Taken, LastText, EveryText, LastInt64, LastInt32, OneMessage, EveryMessage;
    var kind, peer, cid := Numbers(xs, 0x08), Texts(xs, 0x12), Texts(xs, 0x1A);
    var key, value, count := Texts(xs, 0x22), Texts(xs, 0x2A), Numbers(xs, 0x30);
    var timeout := Numbers(xs, 0x38);
    forall i | 0 <= i < |xs| ensures Taken(DHT_REQUEST, xs[i]) { TakenAlone(DHT_REQUEST, xs[i]); }
    assert Present(Row(DHT_REQUEST)[0], xs) <==> kind != [];
    ReadsAlone(DHT_REQUEST, xs, kind != [],
      [LastInt32(1, kind), LastText(2, peer), LastText(3, cid), LastText(4, key), LastText(5, value),
       LastInt32(6, count), LastInt64(7, timeout)]);
  }

  lemma DhtResponse(xs: seq<Item>)
    requires Only(xs, {0x12, 0x1A}, {0x08})
    ensures
      var kind, peer, value := Numbers(xs, 0x08), Texts(xs, 0x12), Texts(xs, 0x1A);
      Reads(DHT_RESPONSE, xs, kind != [], [LastInt32(1, kind), OneMessage(2, PEER_INFO, peer), LastText(3, value)])
  {
    hide AllItems, Texts, Numbers, Reads, Taken, LastText, EveryText, LastInt64, LastInt32, OneMessage, EveryMessage;
    var kind, peer, value := Numbers(xs, 0x08), Texts(xs, 0x12), Texts(xs, 0x1A);
    forall i | 0 <= i < |xs| ensures Taken(DHT_RESPONSE, xs[i]) { TakenAlone(DHT_RESPONSE, xs[i]); }
    assert Present(Row(DHT_RESPONSE)[0], xs) <==> kind != [];
    ReadsAlone(DHT_RESPONSE, xs, kind != [],
      [LastInt32(1, kind), OneMessage(2, PEER_INFO, peer), LastText(3, value)]);
  }

  lemma PeerInfo(xs: seq<Item>)
    requires Only(xs, {0x0A, 0x12}, {})
    ensures
      var id, addrs := Texts(xs, 0x0A), Texts(xs, 0x12);
      Reads(PEER_INFO, xs, id != [], [LastText(1, id), EveryText(2, addrs)])
  {
    hide AllItems, Texts, Numbers, Reads, Taken, LastText, EveryText, LastInt64, LastInt32, OneMessage, EveryMessage;
    var id, addrs := Texts(xs, 0x0A), Texts(xs, 0x12);
    forall i | 0 <= i < |xs| ensures Taken(PEER_INFO, xs[i]) { TakenAlone(PEER_INFO, xs[i]); }
    assert Present(Row(PEER_INFO)[0], xs) <==> id != [];
    ReadsAlone(PEER_INFO, xs, id != [],
      [LastText(1, id), EveryText(2, addrs)]);
  }

  lemma ConnManagerRequest(xs: seq<Item>)
    requires Only(xs, {0x12, 0x1A}, {0x08, 0x20})
    ensures
      var kind, peer, tag := Numbers(xs, 0x08), Texts(xs, 0x12), Texts(xs, 0x1A);
      var weight := Numbers(xs, 0x20);
      Reads(CONN_MANAGER_REQUEST, xs, kind != [],
        [LastInt32(1, kind), LastText(2, peer), LastText(3, tag), LastInt64(4, weight)])
  {
    hide AllItems, Texts, Numbers, Reads, Taken, LastText, EveryText, LastInt64, LastInt32, OneMessage, EveryMessage;
    var kind, peer, tag := Numbers(xs, 0x08), Texts(xs, 0x12), Texts(xs, 0x1A);
    var weight := Numbers(xs, 0x20);
    forall i | 0 <= i < |xs| ensures Taken(CONN_MANAGER_REQUEST, xs[i]) { TakenAlone(CONN_MANAGER_REQUEST, xs[i]); }
    assert Present(Row(CONN_MANAGER_REQUEST)[0], xs) <==> kind != [];
    ReadsAlone(CONN_MANAGER_REQUEST, xs, kind != [],
      [LastInt32(1, kind), LastText(2, peer), LastText(3, tag), LastInt64(4, weight)]);
  }

  lemma DisconnectRequest(xs: seq<Item>)
    requires Only(xs, {0x0A}, {})
    ensures
      var peer := Texts(xs, 0x0A);
      Reads(DISCONNECT_REQUEST, xs, peer != [], [LastText(1, peer)])
  {
    hide AllItems, Texts, Numbers, Reads, Taken, LastText, EveryText, LastInt64, LastInt32, OneMessage, EveryMessage;
    var peer := Texts(xs, 0x0A);
    forall i | 0 <= i < |xs| ensures Taken(DISCONNECT_REQUEST, xs[i]) { TakenAlone(DISCONNECT_REQUEST, xs[i]); }
    assert Present(Row(DISCONNECT_REQUEST)[0], xs) <==> peer != [];
    ReadsAlone(DISCONNECT_REQUEST, xs, peer != [],
      [LastText(1, peer)]);
  }

  lemma PsRequest(xs: seq<Item>)
    requires Only(xs, {0x12, 0x1A}, {0x08})
    ensures
      var kind, topic, data := Numbers(xs, 0x08), Texts(xs, 0x12), Texts(xs, 0x1A);
      Reads(PS_REQUEST, xs, kind != [], [LastInt32(1, kind), LastText(2, topic), LastText(3, data)])
  {
    hide AllItems, Texts, Numbers, Reads, Taken, LastText, EveryText, LastInt64, LastInt32, OneMessage, EveryMessage;
    var kind, topic, data := Numbers(xs, 0x08), Texts(xs, 0x12), Texts(xs, 0x1A);
    forall i | 0 <= i < |xs| ensures Taken(PS_REQUEST, xs[i]) { TakenAlone(PS_REQUEST, xs[i]); }
    assert Present(Row(PS_REQUEST)[0], xs) <==> kind != [];
    ReadsAlone(PS_REQUEST, xs, kind != [],
      [LastInt32(1, kind), LastText(2, topic), LastText(3, data)]);
  }

  lemma PsMessage(xs: seq<Item>)
    requires Only(xs, {0x0A, 0x12, 0x1A, 0x22, 0x2A, 0x32}, {})
    ensures
      var from, data, seqno := Texts(xs, 0x0A), Texts(xs, 0x12), Texts(xs, 0x1A);
      var topicIDs, signature, key := Texts(xs, 0x22), Texts(xs, 0x2A), Texts(xs, 0x32);
      Reads(16, xs, true,
        [LastText(1, from), LastText(2, data), LastText(3, seqno), EveryText(4, topicIDs),
         LastText(5, signature), LastText(6, key)])
  {
    hide AllItems, Texts, Numbers, Reads, Taken, LastText, EveryText, LastInt64, LastInt32, OneMessage, EveryMessage;
    var from, data, seqno := Texts(xs, 0x0A), Texts(xs, 0x12), Texts(xs, 0x1A);
    var topicIDs, signature, key := Texts(xs, 0x22), Texts(xs, 0x2A), Texts(xs, 0x32);
    forall i | 0 <= i < |xs| ensures Taken(16, xs[i]) { TakenAlone(16, xs[i]); }
    ReadsAlone(16, xs, true,
      [LastText(1, from), LastText(2, data), LastText(3, seqno), EveryText(4, topicIDs), LastText(5, signature),
       LastText(6, key)]);
  }

  lemma PsResponse(xs: seq<Item>)
    requires Only(xs, {0x0A, 0x12}, {})
    ensures
      var topics, peerIDs := Texts(xs, 0x0A), Texts(xs, 0x12);
      Reads(PS_RESPONSE, xs, true, [EveryText(1, topics), EveryText(2, peerIDs)])
  {
    hide AllItems, Texts, Numbers, Reads, Taken, LastText, EveryText, LastInt64, LastInt32, OneMessage, EveryMessage;
    var topics, peerIDs := Texts(xs, 0x0A), Texts(xs, 0x12);
    forall i | 0 <= i < |xs| ensures Taken(PS_RESPONSE, xs[i]) { TakenAlone(PS_RESPONSE, xs[i]); }
    ReadsAlone(PS_RESPONSE, xs, true,
      [EveryText(1, topics), EveryText(2, peerIDs)]);
  }

  lemma CallUnaryRequest(xs: seq<Item>)
    requires Only(xs, {0x0A, 0x12, 0x1A}, {})
    ensures
      var peer, proto, data := Texts(xs, 0x0A), Texts(xs, 0x12), Texts(xs, 0x1A);
      Reads(CALL_UNARY_REQUEST, xs, peer != [] && proto != [] && data != [],
        [LastText(1, peer), LastText(2, proto), LastText(3, data)])
  {
    hide AllItems, Texts, Numbers, Reads, Taken, LastText, EveryText, LastInt64, LastInt32, OneMessage, EveryMessage;
    var peer, proto, data := Texts(xs, 0x0A), Texts(xs, 0x12), Texts(xs, 0x1A);
    forall i | 0 <= i < |xs| ensures Taken(CALL_UNARY_REQUEST, xs[i]) { TakenAlone(CALL_UNARY_REQUEST, xs[i]); }
    assert Present(Row(CALL_UNARY_REQUEST)[0], xs) <==> peer != [];
    assert Present(Row(CALL_UNARY_REQUEST)[1], xs) <==> proto != [];
    assert Present(Row(CALL_UNARY_REQUEST)[2], xs) <==> data != [];
    ReadsAlone(CALL_UNARY_REQUEST, xs, peer != [] && proto != [] && data != [],
      [LastText(1, peer), LastText(2, proto), LastText(3, data)]);
  }

  lemma AddUnaryHandlerRequest(xs: seq<Item>)
    requires Only(xs, {0x0A}, {})
    ensures
      var proto := Texts(xs, 0x0A);
      Reads(ADD_UNARY_HANDLER_REQUEST, xs, proto != [], [LastText(1, proto)])
  {
    hide AllItems, Texts, Numbers, Reads, Taken, LastText, EveryText, LastInt64, LastInt32, OneMessage, EveryMessage;
    var proto := Texts(xs, 0x0A);
    forall i | 0 <= i < |xs| ensures Taken(ADD_UNARY_HANDLER_REQUEST, xs[i]) {
      TakenAlone(ADD_UNARY_HANDLER_REQUEST, xs[i]);
    }
    assert Present(Row(ADD_UNARY_HANDLER_REQUEST)[0], xs) <==> proto != [];
    ReadsAlone(ADD_UNARY_HANDLER_REQUEST, xs, proto != [],
      [LastText(1, proto)]);
  }

  lemma DaemonError(xs: seq<Item>)
    requires Only(xs, {0x0A}, {})
    ensures
      var message := Texts(xs, 0x0A);
      Reads(DAEMON_ERROR, xs, true, [LastText(1, message)])
  {
    hide AllItems, Texts, Numbers, Reads, Taken, LastText, EveryText, LastInt64, LastInt32, OneMessage, EveryMessage;
    var message := Texts(xs, 0x0A);
    forall i | 0 <= i < |xs| ensures Taken(DAEMON_ERROR, xs[i]) { TakenAlone(DAEMON_ERROR, xs[i]); }
    ReadsAlone(DAEMON_ERROR, xs, true,
      [LastText(1, message)]);
  }

  lemma Cancel(xs: seq<Item>)
    requires Only(xs, {}, {})
    ensures xs == [] && Reads(CANCEL, xs, true, [])
  {
    ReadsAlone(CANCEL, xs, true, []);
  }

  // ---------------------------------------------------------------------------
  // The messages with a oneof
  // ---------------------------------------------------------------------------

  /** Of the alternatives, by tag, the last wins; each is decoded afresh, and one that is refused spoils all. */
  function Choice(old_: Slot, xs: seq<Item>, alternatives: map<int, nat>): Option<Slot>
    decreases |xs|
  {
    if xs == [] then Some(old_)
    else if xs[0].Text? && xs[0].tag in alternatives then
      var t := alternatives[xs[0].tag];
      match DecodeMsg(Table(), t, xs[0].b, Empty(Table(), t))
      case Err(_) => None
      case Ok(m) => Choice(Slot([Entry(xs[0].tag / 8, Sub(m))]), xs[1..], alternatives)
    else Choice(old_, xs[1..], alternatives)
  }

  /** The fields are these alternatives, as far as the item goes. */
  predicate Among(fields: seq<FieldDef>, alternatives: map<int, nat>, x: Item) {
    if x.tag in alternatives then x.Text? && KindIn(fields, x.tag / 8) == Some(KMessage(alternatives[x.tag]))
    else KindIn(fields, x.tag / 8) == None
  }

  lemma {:induction false} GatherChoice(fields: seq<FieldDef>, alternatives: map<int, nat>, old_: Slot, xs: seq<Item>)
    requires forall i :: 0 <= i < |xs| ==> Among(fields, alternatives, xs[i])
    ensures Gather(Table(), SlotDef(Oneof, fields), old_, xs) == Choice(old_, xs, alternatives)
    decreases |xs|
  {
    hide DecodeMsg, Table, Empty, KindIn;
    if xs != [] {
      assert Among(fields, alternatives, xs[0]);
      forall i | 0 <= i < |xs[1..]| ensures Among(fields, alternatives, xs[1..][i]) {
        assert Among(fields, alternatives, xs[i + 1]);
      }
      match Stored(Table(), SlotDef(Oneof, fields), old_, xs[0])
      case None =>
      case Some(s) => GatherChoice(fields, alternatives, s, xs[1..]);
    }
  }

  /** The alternatives of the two envelopes, by tag. */
  function Envelope(t: nat): map<int, nat>
    requires t == PERSISTENT_REQUEST || t == PERSISTENT_RESPONSE
  {
    if t == PERSISTENT_REQUEST
    then map[0x12 := ADD_UNARY_HANDLER_REQUEST, 0x1A := CALL_UNARY_REQUEST, 0x22 := CALL_UNARY_RESPONSE, 0x2A := CANCEL]
    else map[0x12 := CALL_UNARY_RESPONSE, 0x1A := CALL_UNARY_REQUEST, 0x22 := DAEMON_ERROR, 0x2A := CANCEL]
  }

  lemma EnvelopeItem(t: nat, x: Item)
    requires (t == PERSISTENT_REQUEST || t == PERSISTENT_RESPONSE) && x.Text?
    requires x.tag in {0x0A, 0x12, 0x1A, 0x22, 0x2A}
    ensures |Row(t)| == 2 && Among(Row(t)[1].fields, Envelope(t), x) && Taken(t, x)
  {
    RowOf(t);
    if x.tag == 0x0A {
      TakenAlone(t, x);
      assert KindIn(Row(t)[1].fields, 1) == None by {
        if KindIn(Row(t)[1].fields, 1).Some? { ConsecutiveBounds(Row(t)[1].fields, 2, 1); }
      }
    } else {
      Alternatives(t, x.tag / 8 - 2);
      hide Table;
      assert Fits(Table(), t, x, 1, KMessage(Envelope(t)[x.tag]));
    }
  }

  lemma ReadsEnvelope(t: nat, xs: seq<Item>)
    requires t == PERSISTENT_REQUEST || t == PERSISTENT_RESPONSE
    requires Only(xs, {0x0A, 0x12, 0x1A, 0x22, 0x2A}, {})
    ensures Reads(t, xs, Texts(xs, 0x0A) != [], [LastText(1, Texts(xs, 0x0A)), Choice(Slot([]), xs, Envelope(t))])
  {
    hide AllItems, Gather, Touched, Texts, DecodeMsg, Choice, Among, Taken, Formed, Table, Alone;
    forall i | 0 <= i < |xs| ensures Among(Row(t)[1].fields, Envelope(t), xs[i]) && Taken(t, xs[i]) {
      EnvelopeItem(t, xs[i]);
    }
    RowOf(t);
    AllTaken(t, xs);
    EnvelopeRow(t);
    hide Row, Envelope;
    FormedTaken(xs, t, 0);
    PartGathered(Row(t)[0], xs);
    PresentTouched(Row(t)[0], xs);
    assert PartOf(Row(t)[0], xs) == LastText(1, Texts(xs, 0x0A));
    assert Row(t)[1] == SlotDef(Oneof, Row(t)[1].fields);
    GatherChoice(Row(t)[1].fields, Envelope(t), Slot([]), xs);
    DecodeByTag(Table(), t, xs);
    var parts := [LastText(1, Texts(xs, 0x0A)), Choice(Slot([]), xs, Envelope(t))];
    assert forall k :: 0 <= k < 2 ==> Gather(Table(), Row(t)[k], Slot([]), xs) == parts[k];
  }

  lemma EnvelopeRow(t: nat)
    requires t == PERSISTENT_REQUEST || t == PERSISTENT_RESPONSE
    ensures |Row(t)| == 2 && Alone(Row(t)[0]) && Row(t)[0] == Single(Required, 1, KBytes) && Row(t)[1].rule == Oneof
  {
  }

  lemma PersistentConnectionRequest(xs: seq<Item>)
    requires Only(xs, {0x0A, 0x12, 0x1A, 0x22, 0x2A}, {})
    ensures
      var callId := Texts(xs, 0x0A);
      var message := Choice(Slot([]), xs, map[
        0x12 := ADD_UNARY_HANDLER_REQUEST, 0x1A := CALL_UNARY_REQUEST, 0x22 := CALL_UNARY_RESPONSE, 0x2A := CANCEL]);
      Reads(PERSISTENT_REQUEST, xs, callId != [], [LastText(1, callId), message])
  {
    hide Reads, Texts, AllItems;
    ReadsEnvelope(PERSISTENT_REQUEST, xs);
  }

  lemma PersistentConnectionResponse(xs: seq<Item>)
    requires Only(xs, {0x0A, 0x12, 0x1A, 0x22, 0x2A}, {})
    ensures
      var callId := Texts(xs, 0x0A);
      var message := Choice(Slot([]), xs, map[
        0x12 := CALL_UNARY_RESPONSE, 0x1A := CALL_UNARY_REQUEST, 0x22 := DAEMON_ERROR, 0x2A := CANCEL]);
      Reads(PERSISTENT_RESPONSE, xs, callId != [], [LastText(1, callId), message])
  {
    hide Reads, Texts, AllItems;
    ReadsEnvelope(PERSISTENT_RESPONSE, xs);
  }

  /** The result of a call: a response under one tag, an error under the other, and the last wins. */
  function LastResult(xs: seq<Item>): Option<Slot> {
    if xs == [] then Some(Slot([]))
    else
      var x := xs[|xs| - 1];
      if x.Text? then Some(Slot([Entry(if x.tag == 0x0A then 1 else 2, Raw(x.b))])) else None
  }

  lemma ResultKind(x: Item)
    requires x.Text? && x.tag in {0x0A, 0x12}
    ensures KindIn(Row(CALL_UNARY_RESPONSE)[0].fields, x.tag / 8) == Some(KBytes) && Taken(CALL_UNARY_RESPONSE, x)
  {
    RowOf(CALL_UNARY_RESPONSE);
    ConsecutiveKind(Row(CALL_UNARY_RESPONSE)[0].fields, 1, x.tag / 8 - 1);
    hide Table;
    assert Fits(Table(), CALL_UNARY_RESPONSE, x, 0, KBytes);
  }

  lemma {:induction false} GatherResult(old_: Slot, xs: seq<Item>)
    requires forall i :: 0 <= i < |xs| ==> xs[i].Text? && xs[i].tag in {0x0A, 0x12}
    ensures |Row(CALL_UNARY_RESPONSE)| == 1
    ensures Gather(Table(), Row(CALL_UNARY_RESPONSE)[0], old_, xs) == if xs == [] then Some(old_) else LastResult(xs)
    decreases |xs|
  {
    if xs != [] {
      var def := Row(CALL_UNARY_RESPONSE)[0];
      assert def.rule == Oneof;
      ResultKind(xs[0]);
      hide Row, Table, KindIn;
      GatherResult(Slot([Entry(xs[0].tag / 8, Raw(xs[0].b))]), xs[1..]);
    }
  }

  lemma CallUnaryResponse(xs: seq<Item>)
    requires Only(xs, {0x0A, 0x12}, {})
    ensures Reads(CALL_UNARY_RESPONSE, xs, true, [LastResult(xs)])
  {
    var t := CALL_UNARY_RESPONSE;
    assert |Row(t)| == 1 && Row(t)[0].rule == Oneof;
    forall i | 0 <= i < |xs| ensures Taken(t, xs[i]) { ResultKind(xs[i]); }
    RowOf(t);
    hide AllItems, Gather, Touched, DecodeMsg, Taken, Table, Row, LastResult;
    AllTaken(t, xs);
    GatherResult(Slot([]), xs);
    DecodeByTag(Table(), t, xs);
  }
}
