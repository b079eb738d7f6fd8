/** The session loop of a control connection: what is written, what is held, and when it ends. */
module Session {
  import opened Options
  import opened Wire

  type Payload = seq<byte>

  /**
    A request as the loop sees it, with what serving it will give: the response, and the stream,
    query or subscription that was opened. A query is given by all that its channel yields.
   */
  datatype Request =
    | Simple(res: Payload)             // IDENTIFY, CONNECT, STREAM_HANDLER, LIST_PEERS, CONNMANAGER, DISCONNECT
    | StreamOpen(res: Payload, isOpen: bool)
    | Dht(res: Payload, streaming: bool, values: seq<Payload>)
    | Pubsub(res: Payload, subscribed: bool)
    | Upgrade(res: Payload)            // PERSISTENT_CONN_UPGRADE
    | Unexpected

  datatype Message = Response(b: Payload) | Item(b: Payload) | End

  /** Resources are named by the index of their request. */
  datatype Event =
    | Read(i: nat)
    | Wrote(m: Message)
    | WriteFailed
    | Acquired(i: nat)
    | Piped(i: nat)          // handed to doStreamPipe or doPubsubPipe
    | Drained(i: nat)        // the query's channel was read until it closed
    | Released(i: nat)       // stream reset, query cancelled, subscription cancelled
    | Upgraded               // the connection now speaks the persistent protocol
    | Closed                 // the deferred Close of the connection

  // ---------------------------------------------------------------------------
  // The loop
  // ---------------------------------------------------------------------------

  /** What serving one request does: events, writes left, and whether the loop goes on. */
  datatype Served = Served(events: seq<Event>, left: nat, more: bool)

  predicate Opens(req: Request) {
    (req.StreamOpen? && req.isOpen) || (req.Dht? && req.streaming) || (req.Pubsub? && req.subscribed)
  }

  function Written(values: seq<Payload>): (r: seq<Event>)
    ensures |r| == |values| && forall k :: 0 <= k < |r| ==> r[k] == Wrote(Item(values[k]))
  {
    seq(|values|, k requires 0 <= k < |values| => Wrote(Item(values[k])))
  }

  /** The range over a query's channel. */
  method WriteValues(values: seq<Payload>, w: nat) returns (events: seq<Event>, ok: bool)
    ensures ok == (|values| <= w)
    ensures events == Written(if ok then values else values[..w])
  {
    events := [];
    for k := 0 to |values|
      invariant k <= w && events == Written(values[..k])
    {
      if k == w {
        return events, false;
      }
      assert Written(values[..k + 1]) == Written(values[..k]) + [Wrote(Item(values[k]))];
      events := events + [Wrote(Item(values[k]))];
    }
    assert values[..|values|] == values;
    return events, true;
  }

  /** Request `i` when `w` more writes succeed. */
  function ServeOne(req: Request, i: nat, w: nat): Served {
    if req.Unexpected? then Served([Read(i)], w, false)
    else if !Opens(req) then
      if w == 0 then Served([Read(i), WriteFailed], 0, false)
      else if req.Upgrade? then Served([Read(i), Wrote(Response(req.res)), Upgraded], w - 1, false)
      else Served([Read(i), Wrote(Response(req.res))], w - 1, true)
    else if w == 0 then Served([Read(i), Acquired(i), WriteFailed, Released(i)], 0, false)
    else
      var head := [Read(i), Acquired(i), Wrote(Response(req.res))];
      if req.Dht? then
        var rest := ServeQuery(req.values, i, w - 1);
        rest.(events := head + rest.events)
      else Served(head + [Piped(i)], w - 1, false)
  }

  /** The rest of a streaming query, after its response. */
  function ServeQuery(values: seq<Payload>, i: nat, w: nat): Served {
    var n := |values|;
    if w < n then Served(Written(values[..w]) + [WriteFailed, Released(i)], 0, false)
    else if w == n then Served(Written(values) + [Drained(i), WriteFailed], 0, false)
    else Served(Written(values) + [Drained(i), Wrote(End)], w - n - 1, true)
  }

  /** The trace from request `i` on, when `w` more writes succeed. */
  function Trace(reqs: seq<Request>, i: nat, w: nat): seq<Event>
    requires i <= |reqs|
    decreases |reqs| - i
  {
    if i == |reqs| then [Closed]
    else
      var r := ServeOne(reqs[i], i, w);
      r.events + if r.more then Trace(reqs, i + 1, r.left) else [Closed]
  }

  method StreamQuery(values: seq<Payload>, i: nat, w: nat) returns (r: Served)
    ensures r == ServeQuery(values, i, w)
  {
    hide Written;
    var events, ok := WriteValues(values, w);
    if !ok {
      return Served(events + [WriteFailed, Released(i)], 0, false);   // cancel
    }
    var left := w - |values|;
    if left == 0 {
      return Served(events + [Drained(i), WriteFailed], 0, false);
    }
    return Served(events + [Drained(i), Wrote(End)], left - 1, true);
  }

  /** The switch in the loop. */
  method Serve(req: Request, i: nat, w: nat) returns (r: Served)
    ensures r == ServeOne(req, i, w)
    ensures Messages(r.events) == Take(Reply(req), w)
    ensures r.more <==> !Final(req) && |Reply(req)| <= w
    ensures forall h: nat ::
      Uses(r.events, h) == if h == i && Opens(req) then [Acquired(h), Fate(req, h, w)] else []
    ensures Upgraded in r.events <==> req.Upgrade? && w > 0
  {
    ServedRight(req, i, w);
    UpgradeOfOne(req, i, w);
    hide ServeQuery, Messages, Uses, Reply, Fate;
    var events := [Read(i)];
    if req.Unexpected? { return Served(events, w, false); }
    if Opens(req) { events := events + [Acquired(i)]; }
    if w == 0 {
      events := events + [WriteFailed];
      if Opens(req) { events := events + [Released(i)]; }
      return Served(events, 0, false);
    }
    events := events + [Wrote(Response(req.res))];
    if req.Upgrade? { return Served(events + [Upgraded], w - 1, false); }
    if !Opens(req) { return Served(events, w - 1, true); }
    if !req.Dht? { return Served(events + [Piped(i)], w - 1, false); }
    var rest := StreamQuery(req.values, i, w - 1);
    return rest.(events := events + rest.events);
  }

  /** One request is answered as far as writes succeed, and what it opens has one fate. */
  lemma ServedRight(req: Request, i: nat, w: nat)
    ensures var r := ServeOne(req, i, w);
      && Messages(r.events) == Take(Reply(req), w)
      && (r.more <==> !Final(req) && |Reply(req)| <= w)
    ensures forall h: nat ::
      Uses(ServeOne(req, i, w).events, h) == if h == i && Opens(req) then [Acquired(h), Fate(req, h, w)] else []
  {
    hide *;
    MessagesOfOne(req, i, w);
    forall h: nat
      ensures Uses(ServeOne(req, i, w).events, h) ==
        if h == i && Opens(req) then [Acquired(h), Fate(req, h, w)] else []
    {
      UsesOfOne(req, i, w, h);
    }
  }

  /** `handleConn` on the requests the client sends, until it stops sending. */
  method HandleConn(reqs: seq<Request>, writes: nat) returns (trace: seq<Event>)
    ensures trace == Trace(reqs, 0, writes) && Messages(trace) == Take(Replies(reqs, 0), writes)
    ensures Upgraded in trace <==> exists h :: Upgrades(reqs, 0, writes, h)
  {
    hide ServeOne, Messages, Replies, Reply, Final, Take, Uses, Fate, Opens, Upgrades;
    trace := [];
    var i, w, more := 0, writes, true;
    while more && i < |reqs|
      invariant i <= |reqs|
      invariant Trace(reqs, 0, writes) == trace + if more then Trace(reqs, i, w) else [Closed]
      decreases |reqs| - i
    {
      var r := Serve(reqs[i], i, w);
      trace, i, w, more := trace + r.events, i + 1, r.left, r.more;
    }
    trace := trace + [Closed];
    RepliesInOrder(reqs, 0, writes);
    UpgradeIff(reqs, 0, writes);
  }

  // ---------------------------------------------------------------------------
  // The reply grammar
  // ---------------------------------------------------------------------------

  /** The messages of a trace, in order. */
  function Messages(trace: seq<Event>): seq<Message> {
    if trace == [] then []
    else MessageOf(trace[0]) + Messages(trace[1..])
  }

  function MessageOf(e: Event): seq<Message> {
    if e.Wrote? then [e.m] else []
  }

  lemma MessagesOfTwo(a: Event, b: Event)
    ensures Messages([a]) == MessageOf(a) && Messages([a, b]) == MessageOf(a) + MessageOf(b)
  {
    assert [a, b][1..] == [b] && [b][1..] == [] && [a][1..] == [];
  }

  /** One response, and for a streaming query its values and END. */
  function Reply(req: Request): seq<Message> {
    if req.Unexpected? then []
    else [Response(req.res)] + if req.Dht? && req.streaming then Items(req.values) + [End] else []
  }

  function Items(values: seq<Payload>): (r: seq<Message>)
    ensures |r| == |values| && forall k :: 0 <= k < |r| ==> r[k] == Item(values[k])
  {
    seq(|values|, k requires 0 <= k < |values| => Item(values[k]))
  }

  /** Does the session serve no more control requests after this one? */
  predicate Final(req: Request) {
    req.Upgrade? || req.Unexpected? || (req.StreamOpen? && req.isOpen) || (req.Pubsub? && req.subscribed)
  }

  /** Everything a client is owed from request `i` on. */
  function Replies(reqs: seq<Request>, i: nat): seq<Message>
    requires i <= |reqs|
    decreases |reqs| - i
  {
    if i == |reqs| then [] else Reply(reqs[i]) + if Final(reqs[i]) then [] else Replies(reqs, i + 1)
  }

  function Take<T>(s: seq<T>, n: nat): seq<T> {
    if n <= |s| then s[..n] else s
  }

  lemma {:induction false} MessagesConcat(a: seq<Event>, b: seq<Event>)
    ensures Messages(a + b) == Messages(a) + Messages(b)
    decreases |a|
  {
    hide MessageOf;
    if a == [] {
      assert a + b == b;
    } else {
      assert (a + b)[0] == a[0] && (a + b)[1..] == a[1..] + b;
      MessagesConcat(a[1..], b);
    }
  }

  lemma {:induction false} MessagesWritten(values: seq<Payload>)
    ensures Messages(Written(values)) == Items(values)
    decreases |values|
  {
    if values != [] {
      MessagesWritten(values[1..]);
      assert Written(values)[1..] == Written(values[1..]);
      assert Items(values) == [Item(values[0])] + Items(values[1..]);
    }
  }

  lemma MessagesOfQuery(values: seq<Payload>, i: nat, w: nat)
    ensures var r := ServeQuery(values, i, w); var owed := Items(values) + [End];
      && Messages(r.events) == Take(owed, w)
      && (r.more <==> |owed| <= w) && (r.more ==> r.left == w - |owed|)
  {
    hide Messages;
    var n := |values|;
    MessagesOfTwo(WriteFailed, Released(i));
    MessagesOfTwo(Drained(i), WriteFailed);
    MessagesOfTwo(Drained(i), Wrote(End));
    if w < n {
      MessagesWritten(values[..w]);
      MessagesConcat(Written(values[..w]), [WriteFailed, Released(i)]);
    } else {
      MessagesWritten(values);
      MessagesConcat(Written(values), [Drained(i), WriteFailed]);
      MessagesConcat(Written(values), [Drained(i), Wrote(End)]);
    }
  }

  lemma MessagesOfHead(i: nat, b: Payload)
    ensures Messages([Read(i), Acquired(i), Wrote(Response(b))]) == [Response(b)]
    ensures Messages([Read(i), Acquired(i), WriteFailed, Released(i)]) == []
  {
    hide Messages;
    MessagesOfTwo(Read(i), Acquired(i));
    MessagesOfTwo(Wrote(Response(b)), Closed);
    MessagesOfTwo(WriteFailed, Released(i));
    MessagesConcat([Read(i), Acquired(i)], [Wrote(Response(b))]);
    MessagesConcat([Read(i), Acquired(i)], [WriteFailed, Released(i)]);
    assert [Read(i), Acquired(i)] + [Wrote(Response(b))] == [Read(i), Acquired(i), Wrote(Response(b))];
    assert [Read(i), Acquired(i)] + [WriteFailed, Released(i)] == [Read(i), Acquired(i), WriteFailed, Released(i)];
  }

  lemma MessagesOfPlain(i: nat, b: Payload)
    ensures Messages([Read(i)]) == [] && Messages([Read(i), WriteFailed]) == []
    ensures Messages([Read(i), Wrote(Response(b))]) == [Response(b)]
    ensures Messages([Read(i), Wrote(Response(b)), Upgraded]) == [Response(b)]
  {
    hide Messages;
    MessagesOfTwo(Read(i), WriteFailed);
    MessagesOfTwo(Read(i), Wrote(Response(b)));
    MessagesOfTwo(Upgraded, Closed);
    MessagesConcat([Read(i), Wrote(Response(b))], [Upgraded]);
    assert [Read(i), Wrote(Response(b))] + [Upgraded] == [Read(i), Wrote(Response(b)), Upgraded];
  }

  /** One request is answered by its reply, as far as the writes go. */
  lemma MessagesOfOne(req: Request, i: nat, w: nat)
    ensures var r := ServeOne(req, i, w);
      && Messages(r.events) == Take(Reply(req), w)
      && (r.more <==> !Final(req) && |Reply(req)| <= w) && (r.more ==> r.left == w - |Reply(req)|)
  {
    hide Messages, ServeQuery;
    MessagesOfPlain(i, if req.Unexpected? then [] else req.res);
    if Opens(req) {
      MessagesOfHead(i, req.res);
      MessagesOfTwo(Piped(i), Closed);
      var head := [Read(i), Acquired(i), Wrote(Response(req.res))];
      MessagesConcat(head, [Piped(i)]);
      if w > 0 && req.Dht? {
        MessagesOfQuery(req.values, i, w - 1);
        MessagesConcat(head, ServeQuery(req.values, i, w - 1).events);
      }
    }
  }

  /** The connection carries the replies in order, up to the first write that fails. */
  lemma {:induction false} RepliesInOrder(reqs: seq<Request>, i: nat, w: nat)
    requires i <= |reqs|
    ensures Messages(Trace(reqs, i, w)) == Take(Replies(reqs, i), w)
    decreases |reqs| - i
  {
    hide ServeOne, Reply, Final, Messages;
    MessagesOfTwo(Closed, Closed);
    if i < |reqs| {
      var r := ServeOne(reqs[i], i, w);
      MessagesOfOne(reqs[i], i, w);
      if r.more {
        RepliesInOrder(reqs, i + 1, r.left);
        MessagesConcat(r.events, Trace(reqs, i + 1, r.left));
      } else {
        MessagesConcat(r.events, [Closed]);
      }
    }
  }

  /** The replies to requests `i` to `j - 1`. */
  function Between(reqs: seq<Request>, i: nat, j: nat): seq<Message>
    requires i <= j <= |reqs|
    decreases j - i
  {
    if i == j then [] else Reply(reqs[i]) + Between(reqs, i + 1, j)
  }

  lemma OneRead(req: Request, i: nat, w: nat, p: nat)
    requires p < |ServeOne(req, i, w).events| && ServeOne(req, i, w).events[p].Read?
    ensures p == 0 && ServeOne(req, i, w).events[p] == Read(i)
  {
  }

  lemma TakeAll<T>(s: seq<T>, n: nat)
    requires |s| <= n
    ensures Take(s, n) == s
  {
  }

  /**
    When a request is read, every earlier one has its whole reply, streams included, and none of
    them ended the session.
   */
  lemma {:induction false} ReadAfterReplies(reqs: seq<Request>, i: nat, w: nat, p: nat)
    requires i <= |reqs| && p < |Trace(reqs, i, w)| && Trace(reqs, i, w)[p].Read?
    ensures var j := Trace(reqs, i, w)[p].i;
      && i <= j < |reqs| && (forall k :: i <= k < j ==> !Final(reqs[k]))
      && Messages(Trace(reqs, i, w)[..p]) == Between(reqs, i, j)
    decreases |reqs| - i
  {
    hide ServeOne, Reply, Final, Take;
    var r := ServeOne(reqs[i], i, w);
    var n := |r.events|;
    if p < n {
      OneRead(reqs[i], i, w, p);
      assert Trace(reqs, i, w)[..p] == [];
    } else {
      var rest := Trace(reqs, i + 1, r.left);
      MessagesOfOne(reqs[i], i, w);
      TakeAll(Reply(reqs[i]), w);
      hide Messages;
      ReadAfterReplies(reqs, i + 1, r.left, p - n);
      assert Trace(reqs, i, w)[..p] == r.events + rest[..p - n];
      MessagesConcat(r.events, rest[..p - n]);
    }
  }

  // ---------------------------------------------------------------------------
  // After a handover
  // ---------------------------------------------------------------------------

  predicate Handover(e: Event) {
    e.Piped? || e.Upgraded?
  }

  lemma HandoverLast(req: Request, i: nat, w: nat, p: nat)
    requires p < |ServeOne(req, i, w).events| && Handover(ServeOne(req, i, w).events[p])
    ensures !ServeOne(req, i, w).more && p == |ServeOne(req, i, w).events| - 1
  {
  }

  lemma NoCloseYet(req: Request, i: nat, w: nat)
    ensures Closed !in ServeOne(req, i, w).events
  {
  }

  /** After a stream or a subscription is handed to its pipe, or an upgrade, there is only the end. */
  lemma {:induction false} NothingAfterHandover(reqs: seq<Request>, i: nat, w: nat, p: nat)
    requires i <= |reqs| && p < |Trace(reqs, i, w)|
    ensures Handover(Trace(reqs, i, w)[p]) ==> p == |Trace(reqs, i, w)| - 2
    ensures Trace(reqs, i, w)[p] == Closed <==> p == |Trace(reqs, i, w)| - 1
    decreases |reqs| - i
  {
    hide ServeOne;
    if i < |reqs| {
      var r := ServeOne(reqs[i], i, w);
      var n := |r.events|;
      NoCloseYet(reqs[i], i, w);
      if p < n {
        if Handover(r.events[p]) { HandoverLast(reqs[i], i, w, p); }
        if r.more { TraceNonEmpty(reqs, i + 1, r.left); }
      } else if r.more {
        NothingAfterHandover(reqs, i + 1, r.left, p - n);
      }
    }
  }

  lemma TraceNonEmpty(reqs: seq<Request>, i: nat, w: nat)
    requires i <= |reqs|
    ensures |Trace(reqs, i, w)| > 0
  {
  }

  // ---------------------------------------------------------------------------
  // Resources
  // ---------------------------------------------------------------------------

  predicate Concerns(e: Event, h: nat) {
    e == Acquired(h) || e == Piped(h) || e == Drained(h) || e == Released(h)
  }

  /** What happens to resource `h`, in order. */
  function Uses(trace: seq<Event>, h: nat): seq<Event> {
    if trace == [] then []
    else UseOf(trace[0], h) + Uses(trace[1..], h)
  }

  function UseOf(e: Event, h: nat): seq<Event> {
    if Concerns(e, h) then [e] else []
  }

  lemma UsesOfTwo(a: Event, b: Event, h: nat)
    ensures Uses([a], h) == UseOf(a, h) && Uses([a, b], h) == UseOf(a, h) + UseOf(b, h)
  {
    assert [a, b][1..] == [b] && [b][1..] == [] && [a][1..] == [];
  }

  lemma {:induction false} UsesConcat(a: seq<Event>, b: seq<Event>, h: nat)
    ensures Uses(a + b, h) == Uses(a, h) + Uses(b, h)
    decreases |a|
  {
    hide UseOf;
    if a == [] {
      assert a + b == b;
    } else {
      assert (a + b)[0] == a[0] && (a + b)[1..] == a[1..] + b;
      UsesConcat(a[1..], b, h);
    }
  }

  lemma {:induction false} UsesNone(a: seq<Event>, h: nat)
    requires forall k :: 0 <= k < |a| ==> !Concerns(a[k], h)
    ensures Uses(a, h) == []
    decreases |a|
  {
    if a != [] { UsesNone(a[1..], h); }
  }

  /** What becomes of an opened resource when `w` writes succeed from its response on. */
  function Fate(req: Request, h: nat, w: nat): Event {
    if req.Dht? then if w <= |req.values| then Released(h) else Drained(h)
    else if w == 0 then Released(h) else Piped(h)
  }

  /** How many writes are left when request `h` is read, if it is. */
  function LeftAt(reqs: seq<Request>, i: nat, w: nat, h: nat): Option<nat>
    requires i <= |reqs|
    decreases |reqs| - i
  {
    if i == |reqs| then None
    else if h == i then Some(w)
    else if !Final(reqs[i]) && |Reply(reqs[i])| <= w then LeftAt(reqs, i + 1, w - |Reply(reqs[i])|, h)
    else None
  }

  lemma {:induction false} NotReadAgain(reqs: seq<Request>, i: nat, w: nat, h: nat)
    requires h < i <= |reqs|
    ensures LeftAt(reqs, i, w, h) == None
    decreases |reqs| - i
  {
    if i < |reqs| && |Reply(reqs[i])| <= w {
      NotReadAgain(reqs, i + 1, w - |Reply(reqs[i])|, h);
    }
  }

  lemma UsesOfQuery(values: seq<Payload>, i: nat, w: nat, h: nat)
    ensures Uses(ServeQuery(values, i, w).events, h) ==
            if h != i then [] else if w < |values| then [Released(i)] else [Drained(i)]
  {
    hide Uses;
    UsesOfTwo(WriteFailed, Released(i), h);
    UsesOfTwo(Drained(i), WriteFailed, h);
    UsesOfTwo(Drained(i), Wrote(End), h);
    if w < |values| {
      UsesNone(Written(values[..w]), h);
      UsesConcat(Written(values[..w]), [WriteFailed, Released(i)], h);
    } else {
      UsesNone(Written(values), h);
      UsesConcat(Written(values), [Drained(i), WriteFailed], h);
      UsesConcat(Written(values), [Drained(i), Wrote(End)], h);
    }
  }

  lemma UsesOfHead(i: nat, b: Payload, h: nat)
    ensures Uses([Read(i), Acquired(i), Wrote(Response(b))], h) == UseOf(Acquired(i), h)
    ensures Uses([Read(i), Acquired(i), WriteFailed, Released(i)], h) == UseOf(Acquired(i), h) + UseOf(Released(i), h)
  {
    hide Uses;
    UsesOfTwo(Read(i), Acquired(i), h);
    UsesOfTwo(Wrote(Response(b)), Closed, h);
    UsesOfTwo(WriteFailed, Released(i), h);
    UsesConcat([Read(i), Acquired(i)], [Wrote(Response(b))], h);
    UsesConcat([Read(i), Acquired(i)], [WriteFailed, Released(i)], h);
    assert [Read(i), Acquired(i)] + [Wrote(Response(b))] == [Read(i), Acquired(i), Wrote(Response(b))];
    assert [Read(i), Acquired(i)] + [WriteFailed, Released(i)] == [Read(i), Acquired(i), WriteFailed, Released(i)];
  }

  lemma UsesOfPlain(i: nat, b: Payload, h: nat)
    ensures Uses([Read(i)], h) == [] && Uses([Read(i), WriteFailed], h) == []
    ensures Uses([Read(i), Wrote(Response(b))], h) == []
    ensures Uses([Read(i), Wrote(Response(b)), Upgraded], h) == []
  {
    hide Uses;
    UsesNone([Read(i)], h);
    UsesNone([Read(i), WriteFailed], h);
    UsesNone([Read(i), Wrote(Response(b))], h);
    UsesNone([Read(i), Wrote(Response(b)), Upgraded], h);
  }

  lemma UsesOfOne(req: Request, i: nat, w: nat, h: nat)
    ensures Uses(ServeOne(req, i, w).events, h) ==
            if h == i && Opens(req) then [Acquired(h), Fate(req, h, w)] else []
  {
    hide Uses, ServeQuery;
    UsesOfPlain(i, if req.Unexpected? then [] else req.res, h);
    if Opens(req) {
      UsesOfHead(i, req.res, h);
      UsesOfTwo(Piped(i), Closed, h);
      var head := [Read(i), Acquired(i), Wrote(Response(req.res))];
      UsesConcat(head, [Piped(i)], h);
      if w > 0 && req.Dht? {
        UsesOfQuery(req.values, i, w - 1, h);
        UsesConcat(head, ServeQuery(req.values, i, w - 1).events, h);
      }
    }
  }

  /**
    What is opened is given away exactly once, on every exit path: to its pipe or drained when
    the writes go through, and released when one fails before that. Nothing else is touched.
   */
  lemma {:induction false} ResourcesLinear(reqs: seq<Request>, i: nat, w: nat, h: nat)
    requires i <= |reqs|
    ensures Uses(Trace(reqs, i, w), h) ==
            match LeftAt(reqs, i, w, h)
            case Some(left) => if h < |reqs| && Opens(reqs[h]) then [Acquired(h), Fate(reqs[h], h, left)] else []
            case None => []
    decreases |reqs| - i
  {
    hide ServeOne, Uses, Fate, Opens, Final, Reply;
    UsesOfTwo(Closed, Closed, h);
    if i < |reqs| {
      var r := ServeOne(reqs[i], i, w);
      UsesOfOne(reqs[i], i, w, h);
      MessagesOfOne(reqs[i], i, w);
      var uses := Uses(r.events, h);
      assert uses + [] == uses;
      if r.more {
        ResourcesLinear(reqs, i + 1, r.left, h);
        UsesConcat(r.events, Trace(reqs, i + 1, r.left), h);
        if h == i {
          NotReadAgain(reqs, i + 1, r.left, h);
        } else {
          assert [] + Uses(Trace(reqs, i + 1, r.left), h) == Uses(Trace(reqs, i + 1, r.left), h);
        }
      } else {
        UsesConcat(r.events, [Closed], h);
      }
    }
  }

  // ---------------------------------------------------------------------------
  // The upgrade
  // ---------------------------------------------------------------------------

  /** Request `h` is an upgrade that is read while its response can still be written. */
  ghost predicate Upgrades(reqs: seq<Request>, i: nat, w: nat, h: nat)
    requires i <= |reqs|
  {
    i <= h < |reqs| && reqs[h].Upgrade? && LeftAt(reqs, i, w, h).Some? && LeftAt(reqs, i, w, h).value > 0
  }

  lemma UpgradeOfOne(req: Request, i: nat, w: nat)
    ensures Upgraded in ServeOne(req, i, w).events <==> req.Upgrade? && w > 0
    ensures req.Upgrade? && w > 0 ==>
              ServeOne(req, i, w).events == [Read(i), Wrote(Response(req.res)), Upgraded] && !ServeOne(req, i, w).more
  {
    if req.Upgrade? && w > 0 { assert ServeOne(req, i, w).events[2] == Upgraded; }
  }

  lemma LeftNext(reqs: seq<Request>, i: nat, w: nat, h: nat)
    requires i < |reqs| && h != i
    ensures var r := ServeOne(reqs[i], i, w);
      LeftAt(reqs, i, w, h) == if r.more then LeftAt(reqs, i + 1, r.left, h) else None
  {
    hide ServeOne, Reply, Final;
    MessagesOfOne(reqs[i], i, w);
  }

  /** Then the connection is upgraded, right after that response, and closed when that is over. */
  lemma {:induction false} UpgradeTakesPlace(reqs: seq<Request>, i: nat, w: nat, h: nat)
    requires i <= |reqs| && Upgrades(reqs, i, w, h)
    ensures var trace := Trace(reqs, i, w);
      |trace| >= 4 && trace[|trace| - 4..] == [Read(h), Wrote(Response(reqs[h].res)), Upgraded, Closed]
    decreases |reqs| - i
  {
    hide ServeOne, LeftAt;
    var r := ServeOne(reqs[i], i, w);
    if h == i {
      LeftHere(reqs, i, w);
      UpgradeOfOne(reqs[i], i, w);
    } else {
      LeftNext(reqs, i, w, h);
      UpgradeTakesPlace(reqs, i + 1, r.left, h);
      var rest := Trace(reqs, i + 1, r.left);
      assert (r.events + rest)[|r.events + rest| - 4..] == rest[|rest| - 4..];
    }
  }

  lemma LeftHere(reqs: seq<Request>, i: nat, w: nat)
    requires i < |reqs|
    ensures LeftAt(reqs, i, w, i) == Some(w)
  {
  }

  /** An upgrade takes place if and only if its request is read while a write can still succeed. */
  lemma {:induction false} UpgradeIff(reqs: seq<Request>, i: nat, w: nat)
    requires i <= |reqs|
    ensures Upgraded in Trace(reqs, i, w) <==> exists h :: Upgrades(reqs, i, w, h)
    decreases |reqs| - i
  {
    hide ServeOne, LeftAt;
    if h: nat :| Upgrades(reqs, i, w, h) {
      UpgradeTakesPlace(reqs, i, w, h);
      var trace := Trace(reqs, i, w);
      assert trace[|trace| - 2] == trace[|trace| - 4..][2];
    } else if Upgraded in Trace(reqs, i, w) {
      var r := ServeOne(reqs[i], i, w);
      LeftHere(reqs, i, w);
      UpgradeOfOne(reqs[i], i, w);
      assert !Upgrades(reqs, i, w, i);
      UpgradeIff(reqs, i + 1, r.left);
      var h: nat :| Upgrades(reqs, i + 1, r.left, h);
      LeftNext(reqs, i, w, h);
      assert Upgrades(reqs, i, w, h);
    }
  }

  // ---------------------------------------------------------------------------
  // What follows what
  // ---------------------------------------------------------------------------

  /** Within one request, event `e` may stand right after `prev`. */
  predicate Follows(prev: Event, e: Event) {
    match e
    case Read(_) => false
    case Acquired(h) => prev == Read(h)
    case Wrote(Response(_)) => prev.Read? || prev.Acquired?
    case Wrote(Item(_)) => prev.Wrote? && !prev.m.End?
    case Wrote(End) => prev.Drained?
    case Drained(_) => prev.Wrote? && !prev.m.End?
    case Piped(_) => prev.Wrote? && prev.m.Response?
    case Upgraded => prev.Wrote? && prev.m.Response?
    case WriteFailed => prev.Read? || prev.Acquired? || prev.Drained? || (prev.Wrote? && !prev.m.End?)
    case Released(_) => prev == WriteFailed
    case Closed => true
  }

  ghost predicate InTurn(events: seq<Event>) {
    forall p :: 0 <= p < |events| - 1 ==> Follows(events[p], events[p + 1]) || events[p + 1].Read?
  }

  lemma QueryInTurn(values: seq<Payload>, i: nat, w: nat, prev: Event)
    requires prev.Wrote? && prev.m.Response?
    ensures InTurn([prev] + ServeQuery(values, i, w).events)
  {
  }

  lemma OneInTurn(req: Request, i: nat, w: nat)
    ensures InTurn(ServeOne(req, i, w).events) && ServeOne(req, i, w).events != []
    ensures ServeOne(req, i, w).events[0] == Read(i)
  {
    if Opens(req) && w > 0 && req.Dht? {
      var prev := Wrote(Response(req.res));
      QueryInTurn(req.values, i, w - 1, prev);
      hide ServeQuery, Follows;
      var rest := ServeQuery(req.values, i, w - 1).events;
      var all := [Read(i), Acquired(i)] + ([prev] + rest);
      assert ServeOne(req, i, w).events == all;
      HeadInTurn(i, prev, [prev] + rest);
    }
  }

  lemma HeadInTurn(i: nat, prev: Event, rest: seq<Event>)
    requires prev.Wrote? && prev.m.Response? && rest != [] && rest[0] == prev && InTurn(rest)
    ensures InTurn([Read(i), Acquired(i)] + rest)
  {
    var all := [Read(i), Acquired(i)] + rest;
    forall p | 0 <= p < |all| - 1 ensures Follows(all[p], all[p + 1]) || all[p + 1].Read? {
      if p >= 2 { assert all[p] == rest[p - 2] && all[p + 1] == rest[p - 1]; }
    }
  }

  lemma JoinInTurn(a: seq<Event>, b: seq<Event>)
    requires InTurn(a) && InTurn(b) && (b != [] ==> b[0].Read? || b[0].Closed?)
    ensures InTurn(a + b)
  {
    hide Follows;
    forall p | 0 <= p < |a + b| - 1 ensures Follows((a + b)[p], (a + b)[p + 1]) || (a + b)[p + 1].Read? {
      if p < |a| - 1 {
        assert (a + b)[p] == a[p] && (a + b)[p + 1] == a[p + 1];
      } else if p >= |a| {
        assert (a + b)[p] == b[p - |a|] && (a + b)[p + 1] == b[p + 1 - |a|];
      } else {
        CloseFollows((a + b)[p]);
      }
    }
  }

  lemma CloseFollows(e: Event)
    ensures Follows(e, Closed)
  {
  }

  /** On every connection, whatever is requested and whatever fails, events come in their turn. */
  lemma {:induction false} TraceInTurn(reqs: seq<Request>, i: nat, w: nat)
    requires i <= |reqs|
    ensures InTurn(Trace(reqs, i, w)) && (Trace(reqs, i, w)[0].Read? || Trace(reqs, i, w)[0].Closed?)
    decreases |reqs| - i
  {
    hide ServeOne, Follows;
    if i < |reqs| {
      var r := ServeOne(reqs[i], i, w);
      OneInTurn(reqs[i], i, w);
      if r.more {
        TraceInTurn(reqs, i + 1, r.left);
        JoinInTurn(r.events, Trace(reqs, i + 1, r.left));
      } else {
        JoinInTurn(r.events, [Closed]);
      }
    }
  }
}
