/** What the theorems speak of does happen: calls and adds can go through, from every reachable state. */
module UnaryProgress {
  import opened Options
  import opened Wire
  import opened Protocol
  import opened UnaryCalls
  import Registry

  // ---------------------------------------------------------------------------
  // Fresh names
  // ---------------------------------------------------------------------------

  ghost function Above(used: set<nat>): (n: nat)
    ensures forall m :: m in used ==> m < n
    decreases |used|
  {
    if used == {} then 0
    else
      var m :| m in used;
      var n := Above(used - {m});
      assert forall k :: k in used ==> k == m || k in used - {m};
      if m < n then n else m + 1
  }

  /** Names for what a call will create: tasks `g` and `g + 1`, arrivals `t` and `t + 1`, and so on. */
  datatype Names = Names(g: nat, sid: nat, t: nat, ch: nat)

  ghost predicate AreFresh(s: State, n: Names) {
    && (forall g :: g in s.tasks || g in s.ctxDone ==> g < n.g)
    && (forall i :: i in s.streams ==> i < n.sid)
    && (forall t :: t in s.arrivals ==> t < n.t)
    && (forall ch :: ch in s.channels ==> ch < n.ch)
  }

  ghost function NamesFor(s: State): (n: Names)
    ensures AreFresh(s, n)
  {
    Names(Above(s.tasks.Keys + s.ctxDone), Above(s.streams.Keys), Above(s.arrivals.Keys), Above(s.channels))
  }

  // ---------------------------------------------------------------------------
  // A call
  // ---------------------------------------------------------------------------

  /** A call of `proto` from a client elsewhere to the client that has the protocol. */
  datatype Call = Call(
    c: CallId, from: Conn, owner: Conn, proto: Proto, data: seq<byte>, handler: nat, result: UnaryResult)

  function Req(x: Call): Request {
    Request(x.c, CallUnary(x.owner.peer, x.proto, x.data))
  }

  function RunOf(x: Call): Run {
    Run(x.owner, x.handler, x.c, x.proto, x.data, x.result)
  }

  /** The protocol is registered, its handler stored at the owner, and the caller connected. */
  ghost predicate Available(s: State, x: Call) {
    && x.from.peer != x.owner.peer && IsOpen(s, x.from) && Registered(s, x.owner, x.proto)
    && (x.owner, x.proto) in s.unaryHandlers && s.unaryHandlers[(x.owner, x.proto)] == x.handler
  }

  /** The caller has written, and its task `n.g` is at `pc`. */
  ghost predicate CallerSide(s: State, x: Call, n: Names, pc: TaskPc) {
    && x.c in s.callers && s.callers[x.c] == Caller(x.from, CallOp(x.owner.peer, x.proto, x.data), n.g)
    && x.c in s.callerPc && s.callerPc[x.c] == Written
    && TaskAt(s, n.g, pc) && s.tasks[n.g].conn == x.from && s.tasks[n.g].req == Req(x) && n.g !in s.ctxDone
  }

  /** The stream is open, the request on it, and its handler at `pc`. */
  ghost predicate StreamSide(s: State, x: Call, n: Names, pc: HandlerPc) {
    && StreamAt(s, n.sid) && s.streams[n.sid] == Stream(n.g, x.owner)
    && s.exchangePc[n.sid] == Reading && n.sid in s.toCallee && s.toCallee[n.sid] == Req(x) && s.handlerPc[n.sid] == pc
  }

  ghost predicate NamesLeft(s: State, n: Names) {
    (forall t :: t in s.arrivals ==> t < n.t) && (forall ch :: ch in s.channels ==> ch < n.ch)
  }

  function Served(run: seq<Label>, x: Call, n: Names): seq<Label> {
    run + [Client(IssueCall(x.c, x.from, x.owner.peer, x.proto, x.data, n.g))] + [Daemon(ServeCall(n.g))]
  }

  lemma CallIsServed(run: seq<Label>, x: Call, n: Names)
    requires Exec(run).Some? && Available(Exec(run).value, x) && x.c !in Exec(run).value.callers
    requires AreFresh(Exec(run).value, n)
    ensures Exec(Served(run, x, n)).Some?
    ensures var s := Exec(Served(run, x, n)).value;
      Available(s, x) && CallerSide(s, x, n, Calling) && n.sid !in s.streams && NamesLeft(s, n) && n.g + 1 !in s.tasks
  {
    hide Exec;
    var l := Client(IssueCall(x.c, x.from, x.owner.peer, x.proto, x.data, n.g));
    ExecStep(run, l);
    ExecStep(run + [l], Daemon(ServeCall(n.g)));
  }

  function Opened(run: seq<Label>, n: Names): seq<Label> {
    run + [Daemon(OpenStream(n.g, n.sid))] + [OnStream(WriteRequest(n.sid, true, []))]
  }

  lemma StreamOpens(s: State, x: Call, n: Names)
    requires Available(s, x) && CallerSide(s, x, n, Calling) && n.sid !in s.streams && NamesLeft(s, n)
    requires n.g + 1 !in s.tasks
    ensures DaemonEnabled(s, OpenStream(n.g, n.sid))
    ensures var s' := DaemonDo(s, OpenStream(n.g, n.sid));
      && Available(s', x) && CallerSide(s', x, n, Exchanging(n.sid)) && NamesLeft(s', n) && n.g + 1 !in s'.tasks
      && StreamAt(s', n.sid) && s'.streams[n.sid] == Stream(n.g, x.owner)
      && s'.exchangePc[n.sid] == Writing && s'.handlerPc[n.sid] == Accepting
  {
  }

  lemma RequestIsWritten(s: State, x: Call, n: Names)
    requires Available(s, x) && CallerSide(s, x, n, Exchanging(n.sid)) && NamesLeft(s, n) && n.g + 1 !in s.tasks
    requires StreamAt(s, n.sid) && s.streams[n.sid] == Stream(n.g, x.owner)
    requires s.exchangePc[n.sid] == Writing && s.handlerPc[n.sid] == Accepting
    ensures StreamEnabled(s, WriteRequest(n.sid, true, []))
    ensures var s' := StreamDo(s, WriteRequest(n.sid, true, []));
      && Available(s', x) && CallerSide(s', x, n, Exchanging(n.sid)) && StreamSide(s', x, n, Accepting)
      && NamesLeft(s', n) && n.g + 1 !in s'.tasks
  {
  }

  lemma CallGoesOut(run: seq<Label>, x: Call, n: Names)
    requires Exec(run).Some?
    requires var s := Exec(run).value;
      Available(s, x) && CallerSide(s, x, n, Calling) && n.sid !in s.streams && NamesLeft(s, n) && n.g + 1 !in s.tasks
    ensures Exec(Opened(run, n)).Some?
    ensures var s := Exec(Opened(run, n)).value;
      && Available(s, x) && CallerSide(s, x, n, Exchanging(n.sid)) && StreamSide(s, x, n, Accepting) && NamesLeft(s, n)
      && n.g + 1 !in s.tasks
  {
    hide Exec, Available, CallerSide, StreamSide, NamesLeft, DaemonEnabled, StreamEnabled, DaemonDo, StreamDo;
    StreamOpens(Exec(run).value, x, n);
    ExecStep(run, Daemon(OpenStream(n.g, n.sid)));
    RequestIsWritten(Exec(run + [Daemon(OpenStream(n.g, n.sid))]).value, x, n);
    ExecStep(run + [Daemon(OpenStream(n.g, n.sid))], OnStream(WriteRequest(n.sid, true, [])));
  }

  /** The owner's client runs the handler, and a response will find the stream. */
  ghost predicate OwnerSide(s: State, x: Call, n: Names) {
    && (x.owner.peer, x.c) in s.responseWaiters && s.responseWaiters[(x.owner.peer, x.c)] == n.sid
    && n.t in s.arrivals && s.arrivals[n.t].conn == x.owner
    && s.arrivals[n.t].reply == Reply(x.c, RequestHandling(x.from.peer, x.proto, x.data))
    && ArrivalAt(s, n.t, Running(x.handler))
  }

  function Asked(run: seq<Label>, n: Names): seq<Label> {
    run + [OnStream(AcceptStream(n.sid))] + [OnStream(Announce(n.sid, n.t))] + [Client(StartHandler(n.t))]
  }

  lemma OwnerIsAsked(run: seq<Label>, x: Call, n: Names)
    requires Exec(run).Some?
    requires var s := Exec(run).value;
      && Available(s, x) && CallerSide(s, x, n, Exchanging(n.sid)) && StreamSide(s, x, n, Accepting) && NamesLeft(s, n)
      && n.g + 1 !in s.tasks
    ensures Exec(Asked(run, n)).Some?
    ensures var s := Exec(Asked(run, n)).value;
      && CallerSide(s, x, n, Exchanging(n.sid)) && StreamSide(s, x, n, Awaiting) && OwnerSide(s, x, n)
      && n.g + 1 !in s.tasks && NamesLeft(s, n.(t := n.t + 1))
  {
    hide Exec;
    ExecStep(run, OnStream(AcceptStream(n.sid)));
    var run1 := run + [OnStream(AcceptStream(n.sid))];
    ExecStep(run1, OnStream(Announce(n.sid, n.t)));
    ExecStep(run1 + [OnStream(Announce(n.sid, n.t))], Client(StartHandler(n.t)));
  }

  function HandlerDone(run: seq<Label>, x: Call, n: Names): seq<Label> {
    run + [Client(FinishHandler(n.t, x.result, n.g + 1))] + [Daemon(ServeResponse(n.g + 1))]
  }

  lemma HandlerAnswers(run: seq<Label>, x: Call, n: Names)
    requires Exec(run).Some?
    requires var s := Exec(run).value;
      && CallerSide(s, x, n, Exchanging(n.sid)) && StreamSide(s, x, n, Awaiting) && OwnerSide(s, x, n)
      && n.g + 1 !in s.tasks && NamesLeft(s, n.(t := n.t + 1))
    ensures Exec(HandlerDone(run, x, n)).Some?
    ensures var s := Exec(HandlerDone(run, x, n)).value;
      && OnTheWay(s, x, n, Awaiting)
      && TaskAt(s, n.g + 1, Handing(n.sid)) && s.tasks[n.g + 1].req == Request(x.c, UnaryResponse(x.result))
  {
    hide Exec;
    ExecStep(run, Client(FinishHandler(n.t, x.result, n.g + 1)));
    ExecStep(run + [Client(FinishHandler(n.t, x.result, n.g + 1))], Daemon(ServeResponse(n.g + 1)));
  }

  /** The result is at the caller's daemon, or on its way there: handler at `pc`, exchange still reading. */
  ghost predicate OnTheWay(s: State, x: Call, n: Names, pc: HandlerPc) {
    && CallerSide(s, x, n, Exchanging(n.sid)) && StreamSide(s, x, n, pc) && NamesLeft(s, n.(t := n.t + 1))
    && n.t in s.runs && s.runs[n.t] == RunOf(x)
  }

  predicate IsBack(s: State, x: Call, n: Names) {
    n.sid in s.toCaller && s.toCaller[n.sid] == Request(x.c, UnaryResponse(x.result))
  }

  function SentBack(run: seq<Label>, n: Names): seq<Label> {
    run + [Daemon(HandResponse(n.g + 1))] + [OnStream(WriteBack(n.sid))]
  }

  lemma HandlerTakes(s: State, x: Call, n: Names)
    requires OnTheWay(s, x, n, Awaiting)
    requires TaskAt(s, n.g + 1, Handing(n.sid)) && s.tasks[n.g + 1].req == Request(x.c, UnaryResponse(x.result))
    ensures DaemonEnabled(s, HandResponse(n.g + 1))
    ensures OnTheWay(DaemonDo(s, HandResponse(n.g + 1)), x, n, Took(Request(x.c, UnaryResponse(x.result))))
  {
  }

  lemma HandlerWrites(s: State, x: Call, n: Names)
    requires OnTheWay(s, x, n, Took(Request(x.c, UnaryResponse(x.result))))
    ensures StreamEnabled(s, WriteBack(n.sid))
    ensures OnTheWay(StreamDo(s, WriteBack(n.sid)), x, n, Left) && IsBack(StreamDo(s, WriteBack(n.sid)), x, n)
  {
  }

  lemma ResultComesBack(run: seq<Label>, x: Call, n: Names)
    requires Exec(run).Some? && OnTheWay(Exec(run).value, x, n, Awaiting)
    requires TaskAt(Exec(run).value, n.g + 1, Handing(n.sid))
    requires Exec(run).value.tasks[n.g + 1].req == Request(x.c, UnaryResponse(x.result))
    ensures Exec(SentBack(run, n)).Some?
    ensures OnTheWay(Exec(SentBack(run, n)).value, x, n, Left) && IsBack(Exec(SentBack(run, n)).value, x, n)
  {
    hide Exec, OnTheWay, IsBack, DaemonEnabled, StreamEnabled, DaemonDo, StreamDo;
    HandlerTakes(Exec(run).value, x, n);
    ExecStep(run, Daemon(HandResponse(n.g + 1)));
    HandlerWrites(Exec(run + [Daemon(HandResponse(n.g + 1))]).value, x, n);
    ExecStep(run + [Daemon(HandResponse(n.g + 1))], OnStream(WriteBack(n.sid)));
  }

  /** The response is on its way to the caller, who has not looked for it yet. */
  ghost predicate ReplySide(s: State, x: Call, n: Names) {
    && x.c in s.callers && s.callers[x.c].conn == x.from && s.callers[x.c].op.CallOp?
    && x.c in s.callerPc && s.callerPc[x.c] == Written
    && ArrivalAt(s, n.t + 1, New) && s.arrivals[n.t + 1].conn == x.from
    && s.arrivals[n.t + 1].reply == Reply(x.c, CallUnaryResponse(x.result))
    && (forall ch :: ch in s.channels ==> ch < n.ch)
    && n.t in s.runs && s.runs[n.t] == RunOf(x)
  }

  function Replied(run: seq<Label>, n: Names): seq<Label> {
    run + [OnStream(ReadReply(n.sid, true, []))] + [Daemon(TakeReply(n.g))] + [Daemon(WriteAnswer(n.g, n.t + 1))]
  }

  /** The exchange offers the result, then the task has it. */
  ghost predicate Offered(s: State, x: Call, n: Names, pc: TaskPc) {
    && CallerSide(s, x, n, pc) && NamesLeft(s, n.(t := n.t + 1)) && n.t in s.runs && s.runs[n.t] == RunOf(x)
    && n.sid in s.exchangePc
    && (pc.Exchanging? ==> s.exchangePc[n.sid] == Offering(Reply(x.c, CallUnaryResponse(x.result))))
  }

  lemma ExchangeReads(s: State, x: Call, n: Names)
    requires OnTheWay(s, x, n, Left) && IsBack(s, x, n)
    ensures StreamEnabled(s, ReadReply(n.sid, true, []))
    ensures Offered(StreamDo(s, ReadReply(n.sid, true, [])), x, n, Exchanging(n.sid))
  {
  }

  lemma TaskTakes(s: State, x: Call, n: Names)
    requires Offered(s, x, n, Exchanging(n.sid))
    ensures DaemonEnabled(s, TakeReply(n.g))
    ensures Offered(DaemonDo(s, TakeReply(n.g)), x, n, Answering(Some(Reply(x.c, CallUnaryResponse(x.result)))))
  {
  }

  lemma TaskWrites(s: State, x: Call, n: Names)
    requires Offered(s, x, n, Answering(Some(Reply(x.c, CallUnaryResponse(x.result)))))
    ensures DaemonEnabled(s, WriteAnswer(n.g, n.t + 1)) && ReplySide(DaemonDo(s, WriteAnswer(n.g, n.t + 1)), x, n)
  {
  }

  lemma DaemonAnswers(run: seq<Label>, x: Call, n: Names)
    requires Exec(run).Some? && OnTheWay(Exec(run).value, x, n, Left) && IsBack(Exec(run).value, x, n)
    ensures Exec(Replied(run, n)).Some? && ReplySide(Exec(Replied(run, n)).value, x, n)
  {
    hide Exec, OnTheWay, IsBack, Offered, ReplySide, DaemonEnabled, StreamEnabled, DaemonDo, StreamDo;
    ExchangeReads(Exec(run).value, x, n);
    ExecStep(run, OnStream(ReadReply(n.sid, true, [])));
    var run1 := run + [OnStream(ReadReply(n.sid, true, []))];
    TaskTakes(Exec(run1).value, x, n);
    ExecStep(run1, Daemon(TakeReply(n.g)));
    var run2 := run1 + [Daemon(TakeReply(n.g))];
    TaskWrites(Exec(run2).value, x, n);
    ExecStep(run2, Daemon(WriteAnswer(n.g, n.t + 1)));
  }

  /** The caller has returned what its handler gave. */
  ghost predicate HasReturned(s: State, x: Call) {
    && x.c in s.callerPc && s.callerPc[x.c].Returned? && Returns(x.result, s.callerPc[x.c].outcome)
    && exists t :: t in s.runs && s.runs[t] == RunOf(x)
  }

  function Met(run: seq<Label>, x: Call, n: Names, readerFirst: bool): seq<Label> {
    if readerFirst then run + [Client(RouteReply(n.t + 1, n.ch))] + [Client(AwaitFuture(x.c, n.ch + 1))]
    else run + [Client(AwaitFuture(x.c, n.ch))] + [Client(RouteReply(n.t + 1, n.ch + 1))]
  }

  /** Arrival `t` is the response to the call. */
  predicate IsResponse(s: State, x: Call, t: nat) {
    t in s.arrivals && s.arrivals[t].conn == x.from && s.arrivals[t].reply == Reply(x.c, CallUnaryResponse(x.result))
  }

  /** Caller and reader are on one channel, with the call's response. */
  ghost predicate MeetingSide(s: State, x: Call, n: Names) {
    && x.c in s.callers && s.callers[x.c].op.CallOp? && x.c in s.callerPc && s.callerPc[x.c].Waiting?
    && ArrivalAt(s, n.t + 1, Holding(s.callerPc[x.c].ch)) && IsResponse(s, x, n.t + 1)
    && n.t in s.runs && s.runs[n.t] == RunOf(x)
  }

  /** The response is not routed yet, and the caller waits already. */
  ghost predicate CallerWaits(s: State, x: Call, n: Names) {
    && x.c in s.callers && s.callers[x.c].op.CallOp? && s.callers[x.c].conn == x.from
    && x.c in s.callerPc && s.callerPc[x.c].Waiting?
    && (x.from, x.c) in s.callFutures && s.callFutures[(x.from, x.c)] == s.callerPc[x.c].ch
    && ArrivalAt(s, n.t + 1, New) && IsResponse(s, x, n.t + 1) && n.ch + 1 !in s.channels
    && n.t in s.runs && s.runs[n.t] == RunOf(x)
  }

  /** The response is routed, and the caller does not wait yet. */
  ghost predicate ReaderWaits(s: State, x: Call, n: Names) {
    && x.c in s.callers && s.callers[x.c].op.CallOp? && s.callers[x.c].conn == x.from
    && x.c in s.callerPc && s.callerPc[x.c] == Written
    && (x.from, x.c) in s.callFutures && ArrivalAt(s, n.t + 1, Holding(s.callFutures[(x.from, x.c)]))
    && IsResponse(s, x, n.t + 1) && n.ch + 1 !in s.channels
    && n.t in s.runs && s.runs[n.t] == RunOf(x)
  }

  lemma CallerFirst(s: State, x: Call, n: Names)
    requires ReplySide(s, x, n)
    ensures ClientEnabled(s, AwaitFuture(x.c, n.ch)) && CallerWaits(ClientDo(s, AwaitFuture(x.c, n.ch)), x, n)
  {
  }

  lemma ReaderFirst(s: State, x: Call, n: Names)
    requires ReplySide(s, x, n)
    ensures ClientEnabled(s, RouteReply(n.t + 1, n.ch)) && ReaderWaits(ClientDo(s, RouteReply(n.t + 1, n.ch)), x, n)
  {
  }

  lemma CallerSecond(s: State, x: Call, n: Names)
    requires ReaderWaits(s, x, n)
    ensures ClientEnabled(s, AwaitFuture(x.c, n.ch + 1)) && MeetingSide(ClientDo(s, AwaitFuture(x.c, n.ch + 1)), x, n)
  {
  }

  lemma ReaderSecond(s: State, x: Call, n: Names)
    requires CallerWaits(s, x, n)
    ensures ClientEnabled(s, RouteReply(n.t + 1, n.ch + 1))
    ensures MeetingSide(ClientDo(s, RouteReply(n.t + 1, n.ch + 1)), x, n)
  {
  }

  lemma BothMeet(run: seq<Label>, x: Call, n: Names, readerFirst: bool)
    requires Exec(run).Some? && ReplySide(Exec(run).value, x, n)
    ensures Exec(Met(run, x, n, readerFirst)).Some? && MeetingSide(Exec(Met(run, x, n, readerFirst)).value, x, n)
  {
    hide Exec, ReplySide, CallerWaits, ReaderWaits, MeetingSide, ClientEnabled, ClientDo;
    if readerFirst {
      ReaderFirst(Exec(run).value, x, n);
      ExecStep(run, Client(RouteReply(n.t + 1, n.ch)));
      CallerSecond(Exec(run + [Client(RouteReply(n.t + 1, n.ch))]).value, x, n);
      ExecStep(run + [Client(RouteReply(n.t + 1, n.ch))], Client(AwaitFuture(x.c, n.ch + 1)));
    } else {
      CallerFirst(Exec(run).value, x, n);
      ExecStep(run, Client(AwaitFuture(x.c, n.ch)));
      ReaderSecond(Exec(run + [Client(AwaitFuture(x.c, n.ch))]).value, x, n);
      ExecStep(run + [Client(AwaitFuture(x.c, n.ch))], Client(RouteReply(n.t + 1, n.ch + 1)));
    }
  }

  function Ended(run: seq<Label>, c: CallId, t: nat): seq<Label> {
    run + [Client(HandReply(c, t))] + [Client(Return(c, false))]
  }

  lemma CallerReturns(run: seq<Label>, x: Call, n: Names)
    requires Exec(run).Some? && MeetingSide(Exec(run).value, x, n)
    ensures Exec(Ended(run, x.c, n.t + 1)).Some? && HasReturned(Exec(Ended(run, x.c, n.t + 1)).value, x)
    ensures IsResponse(Exec(Ended(run, x.c, n.t + 1)).value, x, n.t + 1)
  {
    hide Exec;
    ExecStep(run, Client(HandReply(x.c, n.t + 1)));
    ExecStep(run + [Client(HandReply(x.c, n.t + 1))], Client(Return(x.c, false)));
  }

  /** The caller's `LoadOrStore` of the call's future. */
  predicate Awaiter(l: Label, x: Call) {
    l.Client? && l.client.AwaitFuture? && l.client.c == x.c
  }

  /** The reader's `LoadOrStore` of it, with the call's response in hand. */
  predicate Router(s: State, l: Label, x: Call) {
    l.Client? && l.client.RouteReply? && IsResponse(s, x, l.client.t)
  }

  /** Of the two that meet at the future, the reader comes first, or the caller does. */
  ghost predicate FirstIs(readerFirst: bool, s: State, x: Call, added: seq<Label>) {
    exists i, j :: 0 <= i < j < |added| &&
      if readerFirst then Router(s, added[i], x) && Awaiter(added[j], x)
      else Awaiter(added[i], x) && Router(s, added[j], x)
  }

  /** A longer run in which the call has returned what its handler gave, after a meeting in this order. */
  ghost predicate Succeeds(run: seq<Label>, x: Call, readerFirst: bool, more: seq<Label>) {
    && run <= more && Exec(more).Some? && HasReturned(Exec(more).value, x)
    && FirstIs(readerFirst, Exec(more).value, x, more[|run|..])
  }

  lemma MetInOrder(run: seq<Label>, run6: seq<Label>, x: Call, n: Names, readerFirst: bool, s: State)
    requires run <= run6 && IsResponse(s, x, n.t + 1)
    ensures FirstIs(readerFirst, s, x, Ended(Met(run6, x, n, readerFirst), x.c, n.t + 1)[|run|..])
  {
    hide IsResponse;
    var added := Ended(Met(run6, x, n, readerFirst), x.c, n.t + 1)[|run|..];
    var i, j := |run6| - |run|, |run6| - |run| + 1;
    if readerFirst {
      assert Router(s, added[i], x) && Awaiter(added[j], x);
    } else {
      assert Awaiter(added[i], x) && Router(s, added[j], x);
    }
  }

  /**
    From every reachable state in which a client of another peer has the protocol and its handler,
    a new call can go through, whatever the handler answers and whoever comes first to the future.
   */
  lemma CallCanSucceed(run: seq<Label>, x: Call, readerFirst: bool)
    requires Exec(run).Some? && Available(Exec(run).value, x) && x.c !in Exec(run).value.callers
    ensures exists more :: Succeeds(run, x, readerFirst, more)
  {
    hide Exec, Available, CallerSide, StreamSide, OwnerSide, NamesLeft, ReplySide, MeetingSide, HasReturned;
    hide TaskAt, AreFresh, RunOf, OnTheWay, IsBack, IsResponse, FirstIs;
    var n := NamesFor(Exec(run).value);
    CallIsServed(run, x, n);
    var run1 := Served(run, x, n);
    CallGoesOut(run1, x, n);
    var run2 := Opened(run1, n);
    OwnerIsAsked(run2, x, n);
    var run3 := Asked(run2, n);
    HandlerAnswers(run3, x, n);
    var run4 := HandlerDone(run3, x, n);
    ResultComesBack(run4, x, n);
    var run5 := SentBack(run4, n);
    DaemonAnswers(run5, x, n);
    var run6 := Replied(run5, n);
    BothMeet(run6, x, n, readerFirst);
    var run7 := Met(run6, x, n, readerFirst);
    CallerReturns(run7, x, n);
    var more := Ended(run7, x.c, n.t + 1);
    MetInOrder(run, run6, x, n, readerFirst, Exec(more).value);
    assert Succeeds(run, x, readerFirst, more);
  }

  /** An error of the handler without a text reaches the caller as an empty value. */
  lemma EmptyErrorIsValue(run: seq<Label>, x: Call, readerFirst: bool)
    requires Exec(run).Some? && Available(Exec(run).value, x) && x.c !in Exec(run).value.callers
    requires x.result == Failure([])
    ensures exists more ::
      Succeeds(run, x, readerFirst, more) && Exec(more).value.callerPc[x.c] == Returned(Value([]))
  {
    hide Exec, FirstIs;
    CallCanSucceed(run, x, readerFirst);
    var more :| Succeeds(run, x, readerFirst, more);
    assert Exec(more).value.callerPc[x.c] == Returned(Value([]));
  }

  // ---------------------------------------------------------------------------
  // An add
  // ---------------------------------------------------------------------------

  ghost predicate Free(s: State, conn: Conn, proto: Proto) {
    && IsOpen(s, conn) && !Registry.Taken(RegistryAt(s, conn.peer).handlers, proto)
  }

  /** From `s` to `s'` there is one new caller at most, and only one daemon's registry may differ. */
  ghost predicate OnlyAt(s: State, s': State, peer: Peer, a: CallId) {
    s'.callers.Keys <= s.callers.Keys + {a} && forall p :: p != peer ==> RegistryAt(s', p) == RegistryAt(s, p)
  }

  lemma OnlyAtTwice(s: State, s': State, s'': State, peer: Peer, a: CallId)
    requires OnlyAt(s, s', peer, a) && OnlyAt(s', s'', peer, a)
    ensures OnlyAt(s, s'', peer, a)
  {
    hide RegistryAt;
  }

  ghost function NamesForAdd(s: State, peer: Peer): (n: Names)
    ensures AreFresh(s, n) && n.g !in RegistryAt(s, peer).adds
  {
    NamesFor(s).(g := Above(s.tasks.Keys + s.ctxDone + RegistryAt(s, peer).adds.Keys))
  }

  /** The add is accepted, and its response on the way. */
  ghost predicate AddSide(s: State, a: CallId, conn: Conn, proto: Proto, handler: nat, n: Names) {
    && Registered(s, conn, proto)
    && a in s.callers && s.callers[a].conn == conn && s.callers[a].op == AddOp(proto, handler)
    && a in s.callerPc && s.callerPc[a] == Written
    && ArrivalAt(s, n.t, New) && s.arrivals[n.t].conn == conn && s.arrivals[n.t].reply == Reply(a, Done)
    && (forall ch :: ch in s.channels ==> ch < n.ch)
  }

  /** The add is written, and waits for its first section of the mutex. */
  ghost predicate AddWritten(s: State, a: CallId, conn: Conn, proto: Proto, handler: nat, n: Names) {
    && a in s.callers && s.callers[a].conn == conn && s.callers[a].op == AddOp(proto, handler)
    && a in s.callerPc && s.callerPc[a] == Written && NamesLeft(s, n)
    && TaskAt(s, n.g, Fresh) && s.tasks[n.g] == Task(conn, Request(a, AddUnaryHandler(proto)), 0)
    && Awaits(RegistryAt(s, conn.peer), n.g, conn.num, proto)
  }

  ghost predicate Awaits(r: Registry.State, g: nat, c: Registry.Conn, p: Proto) {
    g in r.adds && r.adds[g] == Registry.Add(c, p, Registry.Pending) && !Registry.Taken(r.handlers, p)
  }

  ghost predicate IsListing(r: Registry.State, g: nat, c: Registry.Conn, p: Proto) {
    g in r.adds && r.adds[g].phase == Registry.Accepted && p in r.handlers.owner && r.handlers.owner[p] == c
  }

  lemma RegistryReceives(r: Registry.State, g: nat, c: Registry.Conn, p: Proto)
    requires Registry.Enabled(r, Registry.Receive(c, g, p)) && !Registry.Taken(r.handlers, p)
    ensures Awaits(Registry.Do(r, Registry.Receive(c, g, p)), g, c, p)
  {
  }

  lemma RegistryAccepts(r: Registry.State, g: nat, c: Registry.Conn, p: Proto)
    requires Awaits(r, g, c, p)
    ensures Registry.Enabled(r, Registry.FirstSection(g))
    ensures IsListing(Registry.Do(r, Registry.FirstSection(g)), g, c, p)
  {
  }

  lemma AddWrites(s: State, a: CallId, conn: Conn, proto: Proto, handler: nat, n: Names)
    requires a !in s.callers && Free(s, conn, proto) && AreFresh(s, n) && n.g !in RegistryAt(s, conn.peer).adds
    ensures ClientEnabled(s, IssueAdd(a, conn, proto, handler, n.g))
    ensures AddWritten(ClientDo(s, IssueAdd(a, conn, proto, handler, n.g)), a, conn, proto, handler, n)
  {
    hide OnlyAt;
    var r := RegistryAt(s, conn.peer);
    assert Registry.Enabled(r, Registry.Receive(conn.num, n.g, proto));
    hide Registry.Enabled, Registry.Do, Awaits, Registry.Taken;
    RegistryReceives(r, n.g, conn.num, proto);
  }

  lemma AddWritesOnlyAt(s: State, a: CallId, conn: Conn, proto: Proto, handler: nat, g: nat)
    requires ClientEnabled(s, IssueAdd(a, conn, proto, handler, g))
    ensures OnlyAt(s, ClientDo(s, IssueAdd(a, conn, proto, handler, g)), conn.peer, a)
  {
    hide Registry.Enabled, Registry.Do;
  }

  lemma AddIsWritten(run: seq<Label>, a: CallId, conn: Conn, proto: Proto, handler: nat, n: Names)
    requires Exec(run).Some? && a !in Exec(run).value.callers && Free(Exec(run).value, conn, proto)
    requires AreFresh(Exec(run).value, n) && n.g !in RegistryAt(Exec(run).value, conn.peer).adds
    ensures Exec(run + [Client(IssueAdd(a, conn, proto, handler, n.g))]).Some?
    ensures AddWritten(Exec(run + [Client(IssueAdd(a, conn, proto, handler, n.g))]).value, a, conn, proto, handler, n)
    ensures OnlyAt(Exec(run).value, Exec(run + [Client(IssueAdd(a, conn, proto, handler, n.g))]).value, conn.peer, a)
  {
    hide Exec, Free, AreFresh, AddWritten, OnlyAt, ClientEnabled, ClientDo;
    AddWrites(Exec(run).value, a, conn, proto, handler, n);
    AddWritesOnlyAt(Exec(run).value, a, conn, proto, handler, n.g);
    ExecStep(run, Client(IssueAdd(a, conn, proto, handler, n.g)));
  }

  /** The add is between its two sections of the mutex. */
  ghost predicate AddListing(s: State, a: CallId, conn: Conn, proto: Proto, handler: nat, n: Names) {
    && NamesLeft(s, n) && IsListing(RegistryAt(s, conn.peer), n.g, conn.num, proto)
    && a in s.callers && s.callers[a].conn == conn && s.callers[a].op == AddOp(proto, handler)
    && a in s.callerPc && s.callerPc[a] == Written
    && TaskAt(s, n.g, Listing(Reply(a, Done)))
    && s.tasks[n.g].conn == conn && s.tasks[n.g].req.body == AddUnaryHandler(proto)
  }

  lemma AddIsServed(run: seq<Label>, a: CallId, conn: Conn, proto: Proto, handler: nat, n: Names)
    requires Exec(run).Some? && AddWritten(Exec(run).value, a, conn, proto, handler, n)
    ensures Exec(run + [Daemon(ServeAdd(n.g, []))]).Some?
    ensures AddListing(Exec(run + [Daemon(ServeAdd(n.g, []))]).value, a, conn, proto, handler, n)
    ensures OnlyAt(Exec(run).value, Exec(run + [Daemon(ServeAdd(n.g, []))]).value, conn.peer, a)
  {
    hide Exec;
    var r := RegistryAt(Exec(run).value, conn.peer);
    assert !Registry.Taken(r.handlers, proto);
    hide Registry.Enabled, Registry.Do, Awaits, IsListing, Registry.Taken;
    RegistryAccepts(r, n.g, conn.num, proto);
    ExecStep(run, Daemon(ServeAdd(n.g, [])));
  }

  function AddAnswered(run: seq<Label>, n: Names): seq<Label> {
    run + [Daemon(ListAdd(n.g))] + [Daemon(WriteAnswer(n.g, n.t))]
  }

  lemma AddIsAnswered(run: seq<Label>, a: CallId, conn: Conn, proto: Proto, handler: nat, n: Names)
    requires Exec(run).Some? && AddListing(Exec(run).value, a, conn, proto, handler, n)
    ensures Exec(AddAnswered(run, n)).Some? && AddSide(Exec(AddAnswered(run, n)).value, a, conn, proto, handler, n)
    ensures OnlyAt(Exec(run).value, Exec(AddAnswered(run, n)).value, conn.peer, a)
  {
    hide Exec, Registry.EnteredConns, Registry.Remove, Registry.Register;
    ExecStep(run, Daemon(ListAdd(n.g)));
    ExecStep(run + [Daemon(ListAdd(n.g))], Daemon(WriteAnswer(n.g, n.t)));
  }

  function AddMet(run: seq<Label>, a: CallId, n: Names): seq<Label> {
    run + [Client(AwaitFuture(a, n.ch))] + [Client(RouteReply(n.t, n.ch + 1))]
  }

  /** The client waits for the add's response and its reader has it. */
  ghost predicate AddMeeting(s: State, a: CallId, conn: Conn, proto: Proto, handler: nat, n: Names) {
    && Registered(s, conn, proto)
    && a in s.callers && s.callers[a].conn == conn && s.callers[a].op == AddOp(proto, handler)
    && a in s.callerPc && s.callerPc[a].Waiting?
    && ArrivalAt(s, n.t, Holding(s.callerPc[a].ch)) && s.arrivals[n.t].reply == Reply(a, Done)
  }

  lemma AddMeets(run: seq<Label>, a: CallId, conn: Conn, proto: Proto, handler: nat, n: Names)
    requires Exec(run).Some? && AddSide(Exec(run).value, a, conn, proto, handler, n)
    ensures Exec(AddMet(run, a, n)).Some? && AddMeeting(Exec(AddMet(run, a, n)).value, a, conn, proto, handler, n)
    ensures OnlyAt(Exec(run).value, Exec(AddMet(run, a, n)).value, conn.peer, a)
  {
    hide Exec;
    ExecStep(run, Client(AwaitFuture(a, n.ch)));
    ExecStep(run + [Client(AwaitFuture(a, n.ch))], Client(RouteReply(n.t, n.ch + 1)));
  }

  /** The add has returned; the daemon leads the protocol to the client, and the client has the handler. */
  ghost predicate HasAdded(s: State, a: CallId, conn: Conn, proto: Proto, handler: nat) {
    && a in s.callerPc && s.callerPc[a] == Returned(Added) && Registered(s, conn, proto)
    && (conn, proto) in s.unaryHandlers && s.unaryHandlers[(conn, proto)] == handler
  }

  lemma AddReturns(run: seq<Label>, a: CallId, conn: Conn, proto: Proto, handler: nat, n: Names)
    requires Exec(run).Some? && AddMeeting(Exec(run).value, a, conn, proto, handler, n)
    ensures Exec(Ended(run, a, n.t)).Some? && HasAdded(Exec(Ended(run, a, n.t)).value, a, conn, proto, handler)
    ensures OnlyAt(Exec(run).value, Exec(Ended(run, a, n.t)).value, conn.peer, a)
  {
    hide Exec;
    ExecStep(run, Client(HandReply(a, n.t)));
    ExecStep(run + [Client(HandReply(a, n.t))], Client(Return(a, false)));
  }

  ghost predicate Adds(run: seq<Label>, a: CallId, conn: Conn, proto: Proto, handler: nat, more: seq<Label>)
    requires Exec(run).Some?
  {
    && run <= more && Exec(more).Some? && HasAdded(Exec(more).value, a, conn, proto, handler)
    && OnlyAt(Exec(run).value, Exec(more).value, conn.peer, a)
  }

  /** From every reachable state, a handler can be added for a protocol that is free at its daemon, and no other. */
  lemma AddCanSucceed(run: seq<Label>, a: CallId, conn: Conn, proto: Proto, handler: nat)
    requires Exec(run).Some? && a !in Exec(run).value.callers && Free(Exec(run).value, conn, proto)
    ensures exists more :: Adds(run, a, conn, proto, handler, more)
  {
    hide Exec, Free, AddWritten, AddListing, AddSide, AddMeeting, HasAdded, RegistryAt, OnlyAt, AreFresh;
    var s := Exec(run).value;
    var n := NamesForAdd(s, conn.peer);
    AddIsWritten(run, a, conn, proto, handler, n);
    var run0 := run + [Client(IssueAdd(a, conn, proto, handler, n.g))];
    AddIsServed(run0, a, conn, proto, handler, n);
    var run1 := run0 + [Daemon(ServeAdd(n.g, []))];
    AddIsAnswered(run1, a, conn, proto, handler, n);
    var run2 := AddAnswered(run1, n);
    AddMeets(run2, a, conn, proto, handler, n);
    var run3 := AddMet(run2, a, n);
    AddReturns(run3, a, conn, proto, handler, n);
    var more := Ended(run3, a, n.t);
    OnlyAtTwice(s, Exec(run0).value, Exec(run1).value, conn.peer, a);
    OnlyAtTwice(s, Exec(run1).value, Exec(run2).value, conn.peer, a);
    OnlyAtTwice(s, Exec(run2).value, Exec(run3).value, conn.peer, a);
    OnlyAtTwice(s, Exec(run3).value, Exec(more).value, conn.peer, a);
    assert Adds(run, a, conn, proto, handler, more);
  }

  // ---------------------------------------------------------------------------
  // From the start
  // ---------------------------------------------------------------------------

  lemma ConnectionEnters(run: seq<Label>, conn: Conn)
    requires Exec(run).Some? && conn.num !in RegistryAt(Exec(run).value, conn.peer).phases
    ensures Exec(run + [Daemon(Connection(conn.peer, Registry.Enter(conn.num)))]).Some?
    ensures var s, s' := Exec(run).value, Exec(run + [Daemon(Connection(conn.peer, Registry.Enter(conn.num)))]).value;
      && IsOpen(s', conn) && RegistryAt(s', conn.peer).handlers == RegistryAt(s, conn.peer).handlers
      && s'.callers == s.callers && s'.unaryHandlers == s.unaryHandlers
      && forall p :: p != conn.peer ==> RegistryAt(s', p) == RegistryAt(s, p)
  {
    hide Exec;
    ExecStep(run, Daemon(Connection(conn.peer, Registry.Enter(conn.num))));
  }

  ghost predicate Prepares(run: seq<Label>, x: Call) {
    Exec(run).Some? && Available(Exec(run).value, x) && x.c !in Exec(run).value.callers
  }

  /** The owner has the protocol, and the caller's daemon has not seen a client yet. */
  ghost predicate OwnerReady(s: State, x: Call) {
    && Registered(s, x.owner, x.proto) && RegistryAt(s, x.from.peer) == Registry.INIT && x.c !in s.callers
    && (x.owner, x.proto) in s.unaryHandlers && s.unaryHandlers[(x.owner, x.proto)] == x.handler
  }

  lemma AddedReady(s: State, s': State, x: Call)
    requires x.from.peer != x.owner.peer && s.callers == map[] && RegistryAt(s, x.from.peer) == Registry.INIT
    requires HasAdded(s', x.c + [0], x.owner, x.proto, x.handler) && OnlyAt(s, s', x.owner.peer, x.c + [0])
    ensures OwnerReady(s', x)
  {
    hide RegistryAt, Registered;
    assert x.c != x.c + [0];
  }

  lemma OwnerConnects(x: Call)
    requires x.from.peer != x.owner.peer
    ensures var run := [Daemon(Connection(x.owner.peer, Registry.Enter(x.owner.num)))];
      && Exec(run).Some? && Free(Exec(run).value, x.owner, x.proto) && Exec(run).value.callers == map[]
      && RegistryAt(Exec(run).value, x.from.peer) == Registry.INIT
  {
    assert Exec([]) == Some(INIT);
    hide Exec;
    ConnectionEnters([], x.owner);
    assert [] + [Daemon(Connection(x.owner.peer, Registry.Enter(x.owner.num)))]
        == [Daemon(Connection(x.owner.peer, Registry.Enter(x.owner.num)))];
  }

  /** Two clients connect, one adds a handler: then the other can call it. */
  lemma CallIsPossible(x: Call)
    requires x.from.peer != x.owner.peer
    ensures exists run :: Prepares(run, x)
  {
    OwnerConnects(x);
    hide Exec, Free, HasAdded, OnlyAt;
    var run1 := [Daemon(Connection(x.owner.peer, Registry.Enter(x.owner.num)))];
    AddCanSucceed(run1, x.c + [0], x.owner, x.proto, x.handler);
    var run2 :| Adds(run1, x.c + [0], x.owner, x.proto, x.handler, run2);
    AddedReady(Exec(run1).value, Exec(run2).value, x);
    ConnectionEnters(run2, x.from);
    assert Prepares(run2 + [Daemon(Connection(x.from.peer, Registry.Enter(x.from.num)))], x);
  }
}
