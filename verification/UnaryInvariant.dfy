/** What every reachable state of the unary-call system satisfies. */
module UnaryInvariant {
  import opened Protocol
  import opened UnaryCalls

  // ---------------------------------------------------------------------------
  // Facts that, once true, stay true
  // ---------------------------------------------------------------------------

  /** The part of a state that only grows. */
  datatype Known = Known(
    callers: map<CallId, Caller>, ended: set<CallId>, cancelled: set<CallId>,
    runs: map<nat, Run>, accepted: set<CallId>)

  function KnownOf(s: State): Known {
    Known(s.callers, s.ended, s.cancelled, s.runs, s.accepted)
  }

  ghost predicate Grows(k: Known, k': Known) {
    && (forall c :: c in k.callers ==> c in k'.callers && k'.callers[c] == k.callers[c])
    && k.ended <= k'.ended && k.cancelled <= k'.cancelled
    && (forall t :: t in k.runs ==> t in k'.runs && k'.runs[t] == k.runs[t])
    && k.accepted <= k'.accepted
  }

  /** Some run of a handler for call `c` had this result. */
  ghost predicate Produced(k: Known, c: CallId, r: UnaryResult) {
    exists t :: t in k.runs && k.runs[t].callId == c && k.runs[t].result == r
  }

  /** A client registered this handler: it asked for it and its daemon accepted. */
  ghost predicate Provided(k: Known, conn: Conn, proto: Proto, handler: nat) {
    exists a :: a in k.callers && a in k.accepted &&
      k.callers[a].conn == conn && k.callers[a].op == AddOp(proto, handler)
  }

  /** A response the daemon may give to operation `c`. */
  ghost predicate ReplyOk(k: Known, c: CallId, reply: Reply) {
    && c in k.callers && reply.callId == c
    && match reply.body
       case CallUnaryResponse(r) => k.callers[c].op.CallOp? && Produced(k, c, r)
       case Cancelled => k.callers[c].op.CallOp? && c in k.cancelled
       case DaemonError(_) => true
       case Done => k.callers[c].op.AddOp? && c in k.accepted
       case RequestHandling(_, _, _) => false
  }

  ghost predicate OutcomeOk(k: Known, c: CallId, o: Outcome) {
    match o
    case DaemonFailed(_) => true
    case CtxEnded => c in k.ended
    case Added => c in k.accepted
    case _ => exists r :: Produced(k, c, r) && Interpret(r) == o
  }

  lemma ProducedGrows(k: Known, k': Known, c: CallId, r: UnaryResult)
    requires Grows(k, k') && Produced(k, c, r)
    ensures Produced(k', c, r)
  {
    var t :| t in k.runs && k.runs[t].callId == c && k.runs[t].result == r;
    assert t in k'.runs;
  }

  lemma ProvidedGrows(k: Known, k': Known, conn: Conn, proto: Proto, handler: nat)
    requires Grows(k, k') && Provided(k, conn, proto, handler)
    ensures Provided(k', conn, proto, handler)
  {
    var a :| a in k.callers && a in k.accepted && k.callers[a].conn == conn && k.callers[a].op == AddOp(proto, handler);
    assert a in k'.callers;
  }

  lemma ReplyOkGrows(k: Known, k': Known, c: CallId, reply: Reply)
    requires Grows(k, k') && ReplyOk(k, c, reply)
    ensures ReplyOk(k', c, reply)
  {
    if reply.body.CallUnaryResponse? {
      ProducedGrows(k, k', c, reply.body.result);
    }
  }

  lemma OutcomeOkGrows(k: Known, k': Known, c: CallId, o: Outcome)
    requires Grows(k, k') && OutcomeOk(k, c, o)
    ensures OutcomeOk(k', c, o)
  {
    if o.Value? || o.HandlerFailed? {
      var r :| Produced(k, c, r) && Interpret(r) == o;
      ProducedGrows(k, k', c, r);
    }
  }

  // ---------------------------------------------------------------------------
  // The invariant, part by part
  // ---------------------------------------------------------------------------

  predicate IsOrigin(body: RequestBody) {
    body.CallUnary? || body.AddUnaryHandler?
  }

  ghost predicate Domains(s: State) {
    && s.callerPc.Keys == s.callers.Keys && s.taskPc.Keys == s.tasks.Keys
    && s.exchangePc.Keys == s.streams.Keys && s.handlerPc.Keys == s.streams.Keys
    && s.arrivalPc.Keys == s.arrivals.Keys
    && s.cancelled <= s.ended <= s.callers.Keys
    && s.toCallee.Keys <= s.streams.Keys && s.toCaller.Keys <= s.streams.Keys
  }

  /** Each operation has one request, and each such request one operation. */
  ghost predicate Origins(callers: map<CallId, Caller>, tasks: map<nat, Task>) {
    && (forall c :: c in callers ==>
         && callers[c].task in tasks && tasks[callers[c].task].conn == callers[c].conn
         && tasks[callers[c].task].req == Request(c, BodyOf(callers[c].op)))
    && (forall g :: g in tasks && IsOrigin(tasks[g].req.body) ==>
         tasks[g].req.callId in callers && callers[tasks[g].req.callId].task == g)
  }

  ghost predicate CancelsSent(cancelled: set<CallId>, tasks: map<nat, Task>) {
    forall g :: g in tasks && tasks[g].req.body.CancelRequest? ==> tasks[g].req.callId in cancelled
  }

  predicate InService(pc: TaskPc) {
    pc.Calling? || pc.Exchanging? || pc.Answering? || pc.Answered?
  }

  ghost predicate PcKinds(tasks: map<nat, Task>, taskPc: map<nat, TaskPc>) {
    forall g :: g in tasks && g in taskPc ==>
      && (taskPc[g].Calling? || taskPc[g].Exchanging? || taskPc[g].Answered? ==> tasks[g].req.body.CallUnary?)
      && (taskPc[g].Listing? ==> tasks[g].req.body.AddUnaryHandler?)
      && (taskPc[g].Answering? ==> IsOrigin(tasks[g].req.body))
  }

  /** The cancel map holds exactly the calls in service, each under its own key. */
  ghost predicate CancelMap(tasks: map<nat, Task>, taskPc: map<nat, TaskPc>, cancelUnary: map<(Peer, CallId), nat>) {
    && (forall key :: key in cancelUnary ==>
         var g := cancelUnary[key];
         && g in tasks && g in taskPc && tasks[g].req.body.CallUnary? && InService(taskPc[g])
         && key == (tasks[g].conn.peer, tasks[g].req.callId))
    && (forall g :: g in tasks && g in taskPc && tasks[g].req.body.CallUnary? && InService(taskPc[g]) ==>
         var key := (tasks[g].conn.peer, tasks[g].req.callId); key in cancelUnary && cancelUnary[key] == g)
  }

  /** A context is done only because its call is over or its client sent a Cancel. */
  ghost predicate CtxDone(tasks: map<nat, Task>, taskPc: map<nat, TaskPc>, cancelled: set<CallId>, ctxDone: set<nat>) {
    forall g :: g in ctxDone ==>
      && g in tasks && g in taskPc && tasks[g].req.body.CallUnary?
      && (taskPc[g] == Over || tasks[g].req.callId in cancelled)
  }

  /** A stream belongs to a call of another peer's daemon and leads to the peer the call names. */
  ghost predicate StreamsKnown(tasks: map<nat, Task>, streams: map<nat, Stream>) {
    forall sid :: sid in streams ==>
      var g := streams[sid].task;
      && g in tasks && tasks[g].req.body.CallUnary?
      && streams[sid].owner.peer == tasks[g].req.body.peer != tasks[g].conn.peer
  }

  ghost predicate OneStream(taskPc: map<nat, TaskPc>, streams: map<nat, Stream>) {
    && (forall i, j :: i in streams && j in streams && streams[i].task == streams[j].task ==> i == j)
    && (forall sid :: sid in streams ==>
         streams[sid].task in taskPc && !taskPc[streams[sid].task].Fresh? && !taskPc[streams[sid].task].Calling?)
    && (forall g :: g in taskPc && taskPc[g].Exchanging? ==>
         taskPc[g].sid in streams && streams[taskPc[g].sid].task == g)
  }

  ghost predicate Carried(tasks: map<nat, Task>, streams: map<nat, Stream>, toCallee: map<nat, Request>) {
    forall sid :: sid in toCallee && sid in streams && streams[sid].task in tasks ==>
      toCallee[sid] == tasks[streams[sid].task].req
  }

  predicate IsWaiting(pc: HandlerPc) {
    pc.Stored? || pc.Awaiting? || pc.Took?
  }

  /** The waiters' map holds only stream handlers that wait, each under its call's key. */
  ghost predicate Waiters(streams: map<nat, Stream>, handlerPc: map<nat, HandlerPc>, toCallee: map<nat, Request>,
                          responseWaiters: map<(Peer, CallId), nat>)
  {
    && (forall key :: key in responseWaiters ==>
         var sid := responseWaiters[key];
         && sid in streams && sid in handlerPc && sid in toCallee && IsWaiting(handlerPc[sid])
         && key == (streams[sid].owner.peer, toCallee[sid].callId))
    && (forall sid :: sid in streams && sid in handlerPc && IsWaiting(handlerPc[sid]) ==> sid in toCallee)
  }

  /** A handler is asked once per stream, at the stream's owner, with the call's own data. */
  ghost predicate Announced(tasks: map<nat, Task>, streams: map<nat, Stream>, handlerPc: map<nat, HandlerPc>,
                            arrivals: map<nat, Arrival>)
  {
    && (forall t :: t in arrivals && arrivals[t].reply.body.RequestHandling? ==>
         AnnouncedBy(tasks, streams, arrivals[t]) && arrivals[t].via in handlerPc
         && !handlerPc[arrivals[t].via].Accepting? && !handlerPc[arrivals[t].via].Stored?)
    && (forall t, u | t in arrivals && u in arrivals && arrivals[t].reply.body.RequestHandling? &&
                      arrivals[u].reply.body.RequestHandling? && arrivals[t].via == arrivals[u].via :: t == u)
  }

  ghost predicate AnnouncedBy(tasks: map<nat, Task>, streams: map<nat, Stream>, a: Arrival) {
    && a.via in streams && streams[a.via].task in tasks
    && var task := tasks[streams[a.via].task];
       && task.req.body.CallUnary? && a.conn == streams[a.via].owner
       && a.reply == Reply(task.req.callId, RequestHandling(task.conn.peer, task.req.body.proto, task.req.body.data))
  }

  /** A recorded run is that of the handler its client registered, on what the arrival asked. */
  ghost predicate RunsRight(k: Known, arrivals: map<nat, Arrival>, arrivalPc: map<nat, ArrivalPc>) {
    forall t :: t in k.runs ==>
      && t in arrivals && t in arrivalPc && arrivalPc[t] == Consumed && arrivals[t].reply.body.RequestHandling?
      && k.runs[t].conn == arrivals[t].conn && k.runs[t].callId == arrivals[t].reply.callId
      && k.runs[t].proto == arrivals[t].reply.body.proto && k.runs[t].data == arrivals[t].reply.body.data
      && Provided(k, k.runs[t].conn, k.runs[t].proto, k.runs[t].handler)
  }

  ghost predicate HandlersProvided(k: Known, unaryHandlers: map<(Conn, Proto), nat>) {
    forall key :: key in unaryHandlers ==> Provided(k, key.0, key.1, unaryHandlers[key])
  }

  ghost predicate RunningProvided(k: Known, arrivals: map<nat, Arrival>, arrivalPc: map<nat, ArrivalPc>) {
    forall t :: t in arrivals && t in arrivalPc && arrivalPc[t].Running? ==>
      && arrivals[t].reply.body.RequestHandling?
      && Provided(k, arrivals[t].conn, arrivals[t].reply.body.proto, arrivalPc[t].handler)
  }

  /** A handler's response carries what a run for that call produced. */
  ghost predicate ResponsesRight(k: Known, tasks: map<nat, Task>) {
    forall g :: g in tasks && tasks[g].req.body.UnaryResponse? ==>
      Produced(k, tasks[g].req.callId, tasks[g].req.body.result)
  }

  ghost predicate HandingRight(tasks: map<nat, Task>, taskPc: map<nat, TaskPc>, toCallee: map<nat, Request>) {
    forall g :: g in tasks && g in taskPc && taskPc[g].Handing? ==>
      && tasks[g].req.body.UnaryResponse?
      && taskPc[g].sid in toCallee && toCallee[taskPc[g].sid].callId == tasks[g].req.callId
  }

  ghost predicate ResponseTo(k: Known, c: CallId, req: Request) {
    req.callId == c && req.body.UnaryResponse? && Produced(k, c, req.body.result)
  }

  /** What comes back on a stream is a response to the call that went out on it. */
  ghost predicate ComesBack(k: Known, handlerPc: map<nat, HandlerPc>,
                            toCallee: map<nat, Request>, toCaller: map<nat, Request>) {
    && (forall sid :: sid in handlerPc && handlerPc[sid].Took? ==>
         sid in toCallee && ResponseTo(k, toCallee[sid].callId, handlerPc[sid].req))
    && (forall sid :: sid in toCaller ==> sid in toCallee && ResponseTo(k, toCallee[sid].callId, toCaller[sid]))
  }

  ghost predicate Offers(k: Known, tasks: map<nat, Task>, streams: map<nat, Stream>, exchangePc: map<nat, ExchangePc>) {
    forall sid :: sid in streams && sid in exchangePc && exchangePc[sid].Offering? && streams[sid].task in tasks ==>
      ReplyOk(k, tasks[streams[sid].task].req.callId, exchangePc[sid].reply)
  }

  /** The exchange closes its channel without an offer only when the context is done. */
  ghost predicate ClosedEarly(taskPc: map<nat, TaskPc>, exchangePc: map<nat, ExchangePc>, ctxDone: set<nat>) {
    forall g | g in taskPc && taskPc[g].Exchanging? && taskPc[g].sid in exchangePc ::
      exchangePc[taskPc[g].sid].Closed? ==> g in ctxDone
  }

  /** A nil answer is for a cancelled call; any other is a proper response. */
  ghost predicate AnswerRight(k: Known, c: CallId, pc: TaskPc) {
    && (pc.Listing? ==> ReplyOk(k, c, pc.res))
    && (pc.Answering? ==> if pc.reply.None? then c in k.cancelled else ReplyOk(k, c, pc.reply.value))
  }

  ghost predicate Answers(k: Known, tasks: map<nat, Task>, taskPc: map<nat, TaskPc>) {
    forall g :: g in tasks && g in taskPc ==> AnswerRight(k, tasks[g].req.callId, taskPc[g])
  }

  predicate HasAnswered(pc: TaskPc) {
    pc.Answered? || pc.Over?
  }

  /** A response delivered to the client whose operation it answers. */
  predicate Own(callers: map<CallId, Caller>, a: Arrival) {
    && !a.reply.body.RequestHandling?
    && a.reply.callId in callers && callers[a.reply.callId].conn == a.conn
  }

  /** An operation is answered by its own daemon, at most once. */
  ghost predicate Replies(k: Known, taskPc: map<nat, TaskPc>, arrivals: map<nat, Arrival>) {
    && (forall t :: t in arrivals && !arrivals[t].reply.body.RequestHandling? ==> arrivals[t].reply.callId in k.callers)
    && (forall t :: t in arrivals && Own(k.callers, arrivals[t]) ==>
         && ReplyOk(k, arrivals[t].reply.callId, arrivals[t].reply)
         && k.callers[arrivals[t].reply.callId].task in taskPc
         && HasAnswered(taskPc[k.callers[arrivals[t].reply.callId].task]))
    && (forall t, u | t in arrivals && u in arrivals && Own(k.callers, arrivals[t]) && Own(k.callers, arrivals[u]) &&
                      arrivals[t].reply.callId == arrivals[u].reply.callId :: t == u)
  }

  predicate Settled(pc: CallerPc) {
    pc.Got? || pc.Returned?
  }

  /** Once the caller has its response, its task has answered and no response is left over. */
  ghost predicate NothingLeft(callers: map<CallId, Caller>, callerPc: map<CallId, CallerPc>, taskPc: map<nat, TaskPc>,
                              arrivals: map<nat, Arrival>, arrivalPc: map<nat, ArrivalPc>)
  {
    && (forall c :: c in callers && c in callerPc && Settled(callerPc[c]) ==>
         callers[c].task in taskPc && HasAnswered(taskPc[callers[c].task]))
    && (forall t | t in arrivals && t in arrivalPc && Own(callers, arrivals[t]) &&
                   arrivals[t].reply.callId in callerPc ::
         Settled(callerPc[arrivals[t].reply.callId]) ==> arrivalPc[t] == Consumed)
  }

  /** Both sides of a future hold the channel stored under its key; a key keeps its own channel. */
  ghost predicate Futures(callers: map<CallId, Caller>, callerPc: map<CallId, CallerPc>, arrivals: map<nat, Arrival>,
                          arrivalPc: map<nat, ArrivalPc>, callFutures: map<(Conn, CallId), nat>, channels: set<nat>)
  {
    && (forall c :: c in callers && c in callerPc && callerPc[c].Waiting? ==>
         (callers[c].conn, c) in callFutures && callFutures[(callers[c].conn, c)] == callerPc[c].ch)
    && (forall t :: t in arrivals && t in arrivalPc && arrivalPc[t].Holding? ==>
         var key := (arrivals[t].conn, arrivals[t].reply.callId);
         !arrivals[t].reply.body.RequestHandling? && key in callFutures && callFutures[key] == arrivalPc[t].ch)
    && (forall x, y :: x in callFutures && y in callFutures && callFutures[x] == callFutures[y] ==> x == y)
    && (forall x :: x in callFutures ==> callFutures[x] in channels)
    && (forall c :: c in callers && c in callerPc && callerPc[c].Returned? ==> (callers[c].conn, c) !in callFutures)
  }

  ghost predicate CallersRight(k: Known, callerPc: map<CallId, CallerPc>) {
    forall c :: c in k.callers && c in callerPc ==>
      && (callerPc[c].Got? ==> ReplyOk(k, c, callerPc[c].reply))
      && (callerPc[c].Returned? ==> OutcomeOk(k, c, callerPc[c].outcome))
  }

  /** The parts of the invariant, by what they are about. */
  datatype Part = OfRequests | OfStreams | OfHandlers | OfReplies

  ghost predicate Holds(s: State, part: Part) {
    match part
    case OfRequests =>
      && Domains(s)
      && Origins(s.callers, s.tasks)
      && CancelsSent(s.cancelled, s.tasks)
      && PcKinds(s.tasks, s.taskPc)
      && CancelMap(s.tasks, s.taskPc, s.cancelUnary)
      && CtxDone(s.tasks, s.taskPc, s.cancelled, s.ctxDone)
    case OfStreams =>
      && StreamsKnown(s.tasks, s.streams)
      && OneStream(s.taskPc, s.streams)
      && Carried(s.tasks, s.streams, s.toCallee)
      && Waiters(s.streams, s.handlerPc, s.toCallee, s.responseWaiters)
      && HandingRight(s.tasks, s.taskPc, s.toCallee)
      && ComesBack(KnownOf(s), s.handlerPc, s.toCallee, s.toCaller)
      && Offers(KnownOf(s), s.tasks, s.streams, s.exchangePc)
      && ClosedEarly(s.taskPc, s.exchangePc, s.ctxDone)
    case OfHandlers =>
      && Announced(s.tasks, s.streams, s.handlerPc, s.arrivals)
      && RunsRight(KnownOf(s), s.arrivals, s.arrivalPc)
      && HandlersProvided(KnownOf(s), s.unaryHandlers)
      && RunningProvided(KnownOf(s), s.arrivals, s.arrivalPc)
      && ResponsesRight(KnownOf(s), s.tasks)
    case OfReplies =>
      && Answers(KnownOf(s), s.tasks, s.taskPc)
      && Replies(KnownOf(s), s.taskPc, s.arrivals)
      && NothingLeft(s.callers, s.callerPc, s.taskPc, s.arrivals, s.arrivalPc)
      && Futures(s.callers, s.callerPc, s.arrivals, s.arrivalPc, s.callFutures, s.channels)
      && CallersRight(KnownOf(s), s.callerPc)
  }

  ghost predicate Inv(s: State) {
    forall part :: Holds(s, part)
  }

  ghost predicate AllParts(s: State) {
    Holds(s, OfRequests) && Holds(s, OfStreams) && Holds(s, OfHandlers) && Holds(s, OfReplies)
  }

  lemma Open(s: State)
    requires Inv(s)
    ensures AllParts(s)
  {
  }

  lemma Shut(s: State)
    requires AllParts(s)
    ensures Inv(s)
  {
    hide Holds;
    forall part ensures Holds(s, part) {
      match part
      case OfRequests =>
      case OfStreams =>
      case OfHandlers =>
      case OfReplies =>
    }
  }
}
