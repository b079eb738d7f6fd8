/**
  Unary calls between the clients of many daemons, as one transition system: a step is one
  section of a shared map, one message written or read, or one handoff on a channel. Requests
  are served by a goroutine each, in any order.
 */
module UnaryCalls {
  import opened Options
  import opened Wire
  import opened Protocol
  import Registry

  type Peer = seq<byte>
  type Proto = seq<byte>
  type CallId = seq<byte>

  /** A client's persistent connection to the daemon of `peer`. */
  datatype Conn = Conn(peer: Peer, num: nat)

  // ---------------------------------------------------------------------------
  // Clients
  // ---------------------------------------------------------------------------

  /** `CallUnaryHandler` or `AddUnaryHandler`; handlers are known by number. */
  datatype Op =
    | CallOp(peer: Peer, proto: Proto, data: seq<byte>)
    | AddOp(proto: Proto, handler: nat)

  datatype Outcome =
    | Value(b: seq<byte>)
    | HandlerFailed(b: seq<byte>)
    | DaemonFailed(message: Option<seq<byte>>)
    | CtxEnded
    | Added

  /** An operation in progress; `task` is the goroutine its request leads to (history). */
  datatype Caller = Caller(conn: Conn, op: Op, task: nat)

  datatype CallerPc =
    | Written                   // request written
    | Waiting(ch: nat)          // receiving from its future
    | Got(reply: Reply)         // received, future not yet deleted
    | Returned(outcome: Outcome)

  /** A response on its way to a client, then the goroutine that serves it; `via` is history. */
  datatype Arrival = Arrival(conn: Conn, reply: Reply, via: nat)

  datatype ArrivalPc = New | Running(handler: nat) | Holding(ch: nat) | Consumed

  /** One run of a handler (history). */
  datatype Run = Run(conn: Conn, handler: nat, callId: CallId, proto: Proto, data: seq<byte>, result: UnaryResult)

  // ---------------------------------------------------------------------------
  // Daemons
  // ---------------------------------------------------------------------------

  /** A request on its way to a daemon, then the goroutine that serves it; `via` is history. */
  datatype Task = Task(conn: Conn, req: Request, via: nat)

  datatype TaskPc =
    | Fresh
    | Calling                           // cancel function stored, stream not yet open
    | Exchanging(sid: nat)              // selecting on the exchange and the context
    | Listing(res: Reply)               // an add between its two sections of the mutex
    | Answering(reply: Option<Reply>)   // `None` is the nil response, which cannot be written
    | Answered                          // response written or not, cancel function still stored
    | Handing(sid: nat)                 // sending a response to a waiter's channel
    | Over

  /** A stream between two daemons: the calling task and the connection that owned the protocol. */
  datatype Stream = Stream(task: nat, owner: Conn)

  /** The goroutine of `exchangeMessages`. */
  datatype ExchangePc = Writing | Reading | Offering(reply: Reply) | Closed

  /** The goroutine of the stream handler. */
  datatype HandlerPc = Accepting | Stored | Awaiting | Took(req: Request) | Left

  datatype State = State(
    callers: map<CallId, Caller>,
    callerPc: map<CallId, CallerPc>,
    ended: set<CallId>,                           // calls whose caller's context has ended
    cancelled: set<CallId>,                       // history: calls whose client wrote a Cancel
    tasks: map<nat, Task>,
    taskPc: map<nat, TaskPc>,
    streams: map<nat, Stream>,
    exchangePc: map<nat, ExchangePc>,
    handlerPc: map<nat, HandlerPc>,
    toCallee: map<nat, Request>,                  // what each stream carries
    toCaller: map<nat, Request>,
    arrivals: map<nat, Arrival>,
    arrivalPc: map<nat, ArrivalPc>,
    registries: map<Peer, Registry.State>,        // each daemon's connections and handlers
    cancelUnary: map<(Peer, CallId), nat>,        // to the goroutine whose context it cancels
    ctxDone: set<nat>,                            // tasks whose context is done
    responseWaiters: map<(Peer, CallId), nat>,    // to the stream whose handler receives
    callFutures: map<(Conn, CallId), nat>,
    channels: set<nat>,                           // futures made so far
    unaryHandlers: map<(Conn, Proto), nat>,
    runs: map<nat, Run>,                          // history, by arrival
    accepted: set<CallId>                         // history: adds the daemon accepted
  )

  const INIT := State(map[], map[], {}, {}, map[], map[], map[], map[], map[], map[], map[], map[], map[],
                      map[], map[], {}, map[], map[], {}, map[], map[], {})

  function RegistryAt(s: State, peer: Peer): Registry.State {
    if peer in s.registries then s.registries[peer] else Registry.INIT
  }

  /** The client's connection is between its start and the daemon's leaving it. */
  predicate IsOpen(s: State, conn: Conn) {
    var r := RegistryAt(s, conn.peer);
    conn.num in r.phases && r.phases[conn.num] == Registry.Entered
  }

  /** Does the daemon of `peer` have a handler for the protocol, of connection `conn`? */
  predicate Registered(s: State, conn: Conn, proto: Proto) {
    var owner := RegistryAt(s, conn.peer).handlers.owner;
    proto in owner && owner[proto] == conn.num
  }

  // ---------------------------------------------------------------------------
  // Messages
  // ---------------------------------------------------------------------------

  function BodyOf(op: Op): RequestBody {
    match op
    case CallOp(peer, proto, data) => CallUnary(peer, proto, data)
    case AddOp(proto, _) => AddUnaryHandler(proto)
  }

  /** What `exchangeMessages` makes of the remote daemon's message. */
  function Relayed(req: Request): ReplyBody {
    if req.body.UnaryResponse? then CallUnaryResponse(req.body.result) else Done
  }

  /** The getters of a result, which give nil for the alternative that is not there. */
  function GetResponse(r: UnaryResult): seq<byte> {
    if r.Response? then r.b else []
  }

  function GetError(r: UnaryResult): seq<byte> {
    if r.Failure? then r.b else []
  }

  /** What the caller makes of a handler's result: an empty error text is no error. */
  function Interpret(r: UnaryResult): Outcome {
    if |GetError(r)| != 0 then HandlerFailed(GetError(r)) else Value(GetResponse(r))
  }

  /** What a caller is to get for a handler's result. */
  predicate Returns(r: UnaryResult, o: Outcome) {
    match r
    case Response(b) => o == Value(b)
    case Failure(b) => if b == [] then o == Value([]) else o == HandlerFailed(b)
    case NoResult => o == Value([])
  }

  /** How an operation ends; `ctxWins` when the caller's own context is chosen over a value. */
  function OutcomeOf(op: Op, reply: Reply, ctxWins: bool): Outcome {
    if reply.body.DaemonError? then DaemonFailed(reply.body.message)
    else if op.AddOp? then Added
    else if reply.body.Cancelled? then CtxEnded
    else
      var o := if reply.body.CallUnaryResponse? then Interpret(reply.body.result) else Value([]);
      if o.Value? && ctxWins then CtxEnded else o
  }

  // ---------------------------------------------------------------------------
  // Steps
  // ---------------------------------------------------------------------------

  datatype Label =
    | Client(client: ClientLabel)
    | Daemon(daemon: DaemonLabel)
    | OnStream(stream: StreamLabel)

  datatype ClientLabel =
    // CallUnaryHandler, AddUnaryHandler, getResponse
    | IssueCall(c: CallId, conn: Conn, peer: Peer, proto: Proto, data: seq<byte>, g: nat)
    | IssueAdd(c: CallId, conn: Conn, proto: Proto, handler: nat, g: nat)
    | EndContext(c: CallId)
    | SendCancel(c: CallId, g: nat)
    | AwaitFuture(c: CallId, ch: nat)
    | HandReply(c: CallId, t: nat)
    | Return(c: CallId, ctxWins: bool)
    // run
    | RouteReply(t: nat, ch: nat)
    | StartHandler(t: nat)
    | FinishHandler(t: nat, result: UnaryResult, g: nat)

  /** `handlePersistentConnRequest`; and what a daemon's connections do apart from requests. */
  datatype DaemonLabel =
    | ServeCall(g: nat)
    | NoStream(g: nat, message: seq<byte>)
    | OpenStream(g: nat, sid: nat)
    | TakeReply(g: nat)
    | TakeNil(g: nat)
    | TakeCancel(g: nat)
    | WriteAnswer(g: nat, t: nat)
    | AnswerFails(g: nat)
    | EndCall(g: nat)
    | ServeCancel(g: nat)
    | ServeAdd(g: nat, message: seq<byte>)
    | ListAdd(g: nat)
    | ServeResponse(g: nat)
    | HandResponse(g: nat)
    | Connection(peer: Peer, step: Registry.Label)

  datatype StreamLabel =
    // exchangeMessages
    | WriteRequest(sid: nat, ok: bool, message: seq<byte>)
    | ReadReply(sid: nat, ok: bool, message: seq<byte>)
    | GiveUp(sid: nat)
    // the stream handler
    | AcceptStream(sid: nat)
    | Announce(sid: nat, t: nat)
    | WriteBack(sid: nat)
    | PeerGone(sid: nat, t: nat)
    | HandlerFails(sid: nat)

  predicate TaskAt(s: State, g: nat, pc: TaskPc) {
    g in s.tasks && g in s.taskPc && s.taskPc[g] == pc
  }

  predicate ExchangingAt(s: State, g: nat) {
    g in s.tasks && g in s.taskPc && s.taskPc[g].Exchanging? && s.taskPc[g].sid in s.exchangePc
  }

  predicate StreamAt(s: State, sid: nat) {
    sid in s.streams && sid in s.exchangePc && sid in s.handlerPc && s.streams[sid].task in s.tasks
  }

  predicate ArrivalAt(s: State, t: nat, pc: ArrivalPc) {
    t in s.arrivals && t in s.arrivalPc && s.arrivalPc[t] == pc
  }

  predicate ClientEnabled(s: State, l: ClientLabel) {
    match l
    case IssueCall(c, conn, peer, proto, data, g) => c !in s.callers && g !in s.tasks && IsOpen(s, conn)
    case IssueAdd(c, conn, proto, handler, g) =>
      && c !in s.callers && g !in s.tasks
      && Registry.Enabled(RegistryAt(s, conn.peer), Registry.Receive(conn.num, g, proto))
    case EndContext(c) => c in s.callers && s.callers[c].op.CallOp?
    case SendCancel(c, g) => c in s.callers && s.callers[c].op.CallOp? && c in s.ended && g !in s.tasks
    case AwaitFuture(c, ch) => c in s.callers && c in s.callerPc && s.callerPc[c] == Written && ch !in s.channels
    case HandReply(c, t) =>
      && c in s.callers && c in s.callerPc && s.callerPc[c].Waiting?
      && ArrivalAt(s, t, Holding(s.callerPc[c].ch))
    case Return(c, ctxWins) => c in s.callers && c in s.callerPc && s.callerPc[c].Got? && (ctxWins ==> c in s.ended)
    case RouteReply(t, ch) =>
      ArrivalAt(s, t, New) && !s.arrivals[t].reply.body.RequestHandling? && ch !in s.channels
    case StartHandler(t) =>
      && ArrivalAt(s, t, New) && s.arrivals[t].reply.body.RequestHandling?
      && (s.arrivals[t].conn, s.arrivals[t].reply.body.proto) in s.unaryHandlers
    case FinishHandler(t, result, g) =>
      && t in s.arrivals && t in s.arrivalPc && s.arrivalPc[t].Running?
      && s.arrivals[t].reply.body.RequestHandling? && g !in s.tasks
  }

  predicate DaemonEnabled(s: State, l: DaemonLabel) {
    match l
    case ServeCall(g) => TaskAt(s, g, Fresh) && s.tasks[g].req.body.CallUnary?
    case NoStream(g, message) => TaskAt(s, g, Calling)
    case OpenStream(g, sid) =>
      && TaskAt(s, g, Calling) && s.tasks[g].req.body.CallUnary? && sid !in s.streams
      && s.tasks[g].req.body.peer != s.tasks[g].conn.peer   // a host does not dial itself
      && s.tasks[g].req.body.proto in RegistryAt(s, s.tasks[g].req.body.peer).handlers.owner
    case TakeReply(g) => ExchangingAt(s, g) && s.exchangePc[s.taskPc[g].sid].Offering?
    case TakeNil(g) => ExchangingAt(s, g) && s.exchangePc[s.taskPc[g].sid] == Closed
    case TakeCancel(g) => ExchangingAt(s, g) && g in s.ctxDone
    case WriteAnswer(g, t) =>
      && g in s.tasks && g in s.taskPc && s.taskPc[g].Answering? && t !in s.arrivals
      && s.taskPc[g].reply.Some?   // the encoder dereferences the message
    case AnswerFails(g) => g in s.tasks && g in s.taskPc && s.taskPc[g].Answering? && s.taskPc[g].reply.Some?
    case EndCall(g) => TaskAt(s, g, Answered)
    case ServeCancel(g) => TaskAt(s, g, Fresh) && s.tasks[g].req.body.CancelRequest?
    case ServeAdd(g, message) =>
      && TaskAt(s, g, Fresh) && s.tasks[g].req.body.AddUnaryHandler?
      && Registry.Enabled(RegistryAt(s, s.tasks[g].conn.peer), Registry.FirstSection(g))
    case ListAdd(g) =>
      && g in s.tasks && g in s.taskPc && s.taskPc[g].Listing?
      && Registry.Enabled(RegistryAt(s, s.tasks[g].conn.peer), Registry.SecondSection(g))
    case ServeResponse(g) => TaskAt(s, g, Fresh) && s.tasks[g].req.body.UnaryResponse?
    case HandResponse(g) =>
      && g in s.tasks && g in s.taskPc && s.taskPc[g].Handing?
      && s.taskPc[g].sid in s.handlerPc && s.handlerPc[s.taskPc[g].sid] == Awaiting
    case Connection(peer, step) =>
      && !step.Receive? && !step.FirstSection? && !step.SecondSection?
      && Registry.Enabled(RegistryAt(s, peer), step)
  }

  predicate StreamEnabled(s: State, l: StreamLabel) {
    match l
    case WriteRequest(sid, ok, message) => StreamAt(s, sid) && s.exchangePc[sid] == Writing
    case ReadReply(sid, ok, message) => StreamAt(s, sid) && s.exchangePc[sid] == Reading && (ok ==> sid in s.toCaller)
    case GiveUp(sid) =>
      && StreamAt(s, sid) && s.exchangePc[sid].Offering? && s.streams[sid].task in s.ctxDone
      && !s.exchangePc[sid].reply.body.DaemonError?   // an error is sent without regard to the context
    case AcceptStream(sid) => StreamAt(s, sid) && s.handlerPc[sid] == Accepting && sid in s.toCallee
    case Announce(sid, t) =>
      && StreamAt(s, sid) && s.handlerPc[sid] == Stored && t !in s.arrivals
      && sid in s.toCallee && s.toCallee[sid].body.CallUnary?
    case WriteBack(sid) => StreamAt(s, sid) && s.handlerPc[sid].Took? && sid in s.toCallee
    case PeerGone(sid, t) => StreamAt(s, sid) && s.handlerPc[sid] == Awaiting && sid in s.toCallee && t !in s.arrivals
    case HandlerFails(sid) =>
      StreamAt(s, sid) && s.handlerPc[sid] != Left && (s.handlerPc[sid] != Accepting ==> sid in s.toCallee)
  }

  /** `LoadOrStore` of a future: the channel found under the key, or else the one just made. */
  function FutureAt(s: State, key: (Conn, CallId), ch: nat): nat {
    if key in s.callFutures then s.callFutures[key] else ch
  }

  function RegistryDo(s: State, peer: Peer, step: Registry.Label): State
    requires Registry.Enabled(RegistryAt(s, peer), step)
  {
    s.(registries := s.registries[peer := Registry.Do(RegistryAt(s, peer), step)])
  }

  function ClientDo(s: State, l: ClientLabel): State
    requires ClientEnabled(s, l)
  {
    match l
    case IssueCall(c, conn, peer, proto, data, g) =>
      Issue(s, c, conn, CallOp(peer, proto, data), g)
    case IssueAdd(c, conn, proto, handler, g) =>
      Issue(RegistryDo(s, conn.peer, Registry.Receive(conn.num, g, proto)), c, conn, AddOp(proto, handler), g)
    case EndContext(c) =>
      s.(ended := s.ended + {c})
    case SendCancel(c, g) =>
      s.(cancelled := s.cancelled + {c},
         tasks := s.tasks[g := Task(s.callers[c].conn, Request(c, CancelRequest), 0)],
         taskPc := s.taskPc[g := Fresh])
    case AwaitFuture(c, ch) =>
      var key := (s.callers[c].conn, c);
      var found := FutureAt(s, key, ch);
      s.(callerPc := s.callerPc[c := Waiting(found)],
         callFutures := s.callFutures[key := found], channels := s.channels + {ch})
    case HandReply(c, t) =>
      s.(callerPc := s.callerPc[c := Got(s.arrivals[t].reply)], arrivalPc := s.arrivalPc[t := Consumed])
    case Return(c, ctxWins) =>
      var k := s.callers[c];
      var o := OutcomeOf(k.op, s.callerPc[c].reply, ctxWins);
      s.(callerPc := s.callerPc[c := Returned(o)],
         callFutures := s.callFutures - {(k.conn, c)},
         unaryHandlers := if o.Added? && k.op.AddOp? then s.unaryHandlers[(k.conn, k.op.proto) := k.op.handler]
                          else s.unaryHandlers)
    case RouteReply(t, ch) =>
      var key := (s.arrivals[t].conn, s.arrivals[t].reply.callId);
      var found := FutureAt(s, key, ch);
      s.(arrivalPc := s.arrivalPc[t := Holding(found)],
         callFutures := s.callFutures[key := found], channels := s.channels + {ch})
    case StartHandler(t) =>
      s.(arrivalPc := s.arrivalPc[t := Running(s.unaryHandlers[(s.arrivals[t].conn, s.arrivals[t].reply.body.proto)])])
    case FinishHandler(t, result, g) =>
      var a := s.arrivals[t];
      s.(runs := s.runs[t :=
           Run(a.conn, s.arrivalPc[t].handler, a.reply.callId, a.reply.body.proto, a.reply.body.data, result)],
         arrivalPc := s.arrivalPc[t := Consumed],
         tasks := s.tasks[g := Task(a.conn, Request(a.reply.callId, UnaryResponse(result)), t)],
         taskPc := s.taskPc[g := Fresh])
  }

  function DaemonDo(s: State, l: DaemonLabel): (s': State)
    requires DaemonEnabled(s, l)
    ensures s'.callers == s.callers && s'.callerPc == s.callerPc && s'.tasks == s.tasks
    ensures s'.ended == s.ended && s'.cancelled == s.cancelled
    ensures !l.OpenStream? ==> s'.streams == s.streams
  {
    match l
    case ServeCall(g) =>
      s.(cancelUnary := s.cancelUnary[CallKey(s, g) := g], taskPc := s.taskPc[g := Calling])
    case NoStream(g, message) =>
      s.(taskPc := s.taskPc[g := Answering(Some(Failed(s, g, message)))])
    case OpenStream(g, sid) =>
      var body := s.tasks[g].req.body;
      var owner := Conn(body.peer, RegistryAt(s, body.peer).handlers.owner[body.proto]);
      s.(streams := s.streams[sid := Stream(g, owner)],
         exchangePc := s.exchangePc[sid := Writing], handlerPc := s.handlerPc[sid := Accepting],
         taskPc := s.taskPc[g := Exchanging(sid)])
    case TakeReply(g) =>
      var sid := s.taskPc[g].sid;
      s.(taskPc := s.taskPc[g := Answering(Some(s.exchangePc[sid].reply))], exchangePc := s.exchangePc[sid := Closed])
    case TakeNil(g) =>
      s.(taskPc := s.taskPc[g := Answering(None)])
    case TakeCancel(g) =>
      s.(taskPc := s.taskPc[g := Answering(Some(Reply(s.tasks[g].req.callId, Cancelled)))])
    case WriteAnswer(g, t) =>
      s.(taskPc := s.taskPc[g := if s.tasks[g].req.body.CallUnary? then Answered else Over],
         arrivals := s.arrivals[t := Arrival(s.tasks[g].conn, s.taskPc[g].reply.value, g)],
         arrivalPc := s.arrivalPc[t := New])
    case AnswerFails(g) =>
      s.(taskPc := s.taskPc[g := if s.tasks[g].req.body.CallUnary? then Answered else Over])
    case EndCall(g) =>
      s.(taskPc := s.taskPc[g := Over], cancelUnary := s.cancelUnary - {CallKey(s, g)}, ctxDone := s.ctxDone + {g})
    case ServeCancel(g) =>
      s.(taskPc := s.taskPc[g := Over],
         ctxDone := if CallKey(s, g) in s.cancelUnary then s.ctxDone + {s.cancelUnary[CallKey(s, g)]} else s.ctxDone)
    case ServeAdd(g, message) =>
      var conn, c := s.tasks[g].conn, s.tasks[g].req.callId;
      var taken := Registry.Taken(RegistryAt(s, conn.peer).handlers, s.tasks[g].req.body.proto);
      RegistryDo(s, conn.peer, Registry.FirstSection(g)).(
        accepted := if taken then s.accepted else s.accepted + {c},
        taskPc := s.taskPc[g := Listing(if taken then Failed(s, g, message) else Reply(c, Done))])
    case ListAdd(g) =>
      RegistryDo(s, s.tasks[g].conn.peer, Registry.SecondSection(g)).(
        taskPc := s.taskPc[g := Answering(Some(s.taskPc[g].res))])
    case ServeResponse(g) =>
      s.(taskPc := s.taskPc[g :=
           if CallKey(s, g) in s.responseWaiters then Handing(s.responseWaiters[CallKey(s, g)]) else Over])
    case HandResponse(g) =>
      s.(taskPc := s.taskPc[g := Over], handlerPc := s.handlerPc[s.taskPc[g].sid := Took(s.tasks[g].req)])
    case Connection(peer, step) =>
      RegistryDo(s, peer, step)
  }

  function StreamDo(s: State, l: StreamLabel): (s': State)
    requires StreamEnabled(s, l)
    ensures s'.callers == s.callers && s'.callerPc == s.callerPc && s'.tasks == s.tasks
    ensures s'.ended == s.ended && s'.cancelled == s.cancelled
    ensures s'.streams == s.streams && s'.registries == s.registries && s'.taskPc == s.taskPc
  {
    match l
    case WriteRequest(sid, ok, message) =>
      var g := s.streams[sid].task;
      s.(toCallee := if ok then s.toCallee[sid := s.tasks[g].req] else s.toCallee,
         exchangePc := s.exchangePc[sid :=
           if g in s.ctxDone then Closed else if ok then Reading else Offering(Failed(s, g, message))])
    case ReadReply(sid, ok, message) =>
      var g := s.streams[sid].task;
      s.(exchangePc := s.exchangePc[sid :=
           if g in s.ctxDone then Closed
           else if ok then Offering(Reply(s.tasks[g].req.callId, Relayed(s.toCaller[sid])))
           else Offering(Failed(s, g, message))])
    case GiveUp(sid) =>
      s.(exchangePc := s.exchangePc[sid := Closed])
    case AcceptStream(sid) =>
      var isCall := s.toCallee[sid].body.CallUnary?;
      s.(responseWaiters := if isCall then s.responseWaiters[WaiterKey(s, sid) := sid] else s.responseWaiters,
         handlerPc := s.handlerPc[sid := if isCall then Stored else Left])
    case Announce(sid, t) =>
      var req := s.toCallee[sid];
      var from := s.tasks[s.streams[sid].task].conn.peer;
      s.(arrivals := s.arrivals[t := Arrival(s.streams[sid].owner,
           Reply(req.callId, RequestHandling(from, req.body.proto, req.body.data)), sid)],
         arrivalPc := s.arrivalPc[t := New], handlerPc := s.handlerPc[sid := Awaiting])
    case WriteBack(sid) =>
      s.(toCaller := s.toCaller[sid := s.handlerPc[sid].req], handlerPc := s.handlerPc[sid := Left],
         responseWaiters := s.responseWaiters - {WaiterKey(s, sid)})
    case PeerGone(sid, t) =>
      s.(arrivals := s.arrivals[t := Arrival(s.streams[sid].owner, Reply(s.toCallee[sid].callId, Cancelled), sid)],
         arrivalPc := s.arrivalPc[t := New], handlerPc := s.handlerPc[sid := Left],
         responseWaiters := s.responseWaiters - {WaiterKey(s, sid)})
    case HandlerFails(sid) =>
      s.(handlerPc := s.handlerPc[sid := Left],
         responseWaiters := if s.handlerPc[sid] == Accepting then s.responseWaiters
                            else s.responseWaiters - {WaiterKey(s, sid)})
  }

  predicate Enabled(s: State, l: Label) {
    match l
    case Client(x) => ClientEnabled(s, x)
    case Daemon(x) => DaemonEnabled(s, x)
    case OnStream(x) => StreamEnabled(s, x)
  }

  function Do(s: State, l: Label): State
    requires Enabled(s, l)
  {
    match l
    case Client(x) => ClientDo(s, x)
    case Daemon(x) => DaemonDo(s, x)
    case OnStream(x) => StreamDo(s, x)
  }

  function Issue(s: State, c: CallId, conn: Conn, op: Op, g: nat): State {
    s.(callers := s.callers[c := Caller(conn, op, g)], callerPc := s.callerPc[c := Written],
       tasks := s.tasks[g := Task(conn, Request(c, BodyOf(op)), 0)], taskPc := s.taskPc[g := Fresh])
  }

  /** The key of the daemon's maps for the request a task serves. */
  function CallKey(s: State, g: nat): (Peer, CallId)
    requires g in s.tasks
  {
    (s.tasks[g].conn.peer, s.tasks[g].req.callId)
  }

  function WaiterKey(s: State, sid: nat): (Peer, CallId)
    requires sid in s.streams && sid in s.toCallee
  {
    (s.streams[sid].owner.peer, s.toCallee[sid].callId)
  }

  function Failed(s: State, g: nat, message: seq<byte>): Reply
    requires g in s.tasks
  {
    Reply(s.tasks[g].req.callId, DaemonError(Some(message)))
  }

  /** The state after a run, if every step of it was possible. */
  function Exec(run: seq<Label>): Option<State> {
    if run == [] then Some(INIT)
    else
      var n := |run| - 1;
      match Exec(run[..n])
      case None => None
      case Some(s) => if Enabled(s, run[n]) then Some(Do(s, run[n])) else None
  }

  lemma ExecStep(run: seq<Label>, l: Label)
    requires Exec(run).Some? && Enabled(Exec(run).value, l)
    ensures Exec(run + [l]) == Some(Do(Exec(run).value, l))
  {
    hide Enabled, Do;
    assert (run + [l])[..|run|] == run;
  }
}
