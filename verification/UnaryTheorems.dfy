/** What the unary-call system guarantees over every run. */
module UnaryTheorems {
  import opened UnaryCalls
  import opened UnaryInvariant
  import opened UnarySteps
  import Registry

  // ---------------------------------------------------------------------------
  // Routing
  // ---------------------------------------------------------------------------

  /** The recorded run `t` is for call `c`: right place, right handler, right data. */
  ghost predicate RunFor(s: State, c: CallId, t: nat) {
    && c in s.callers && s.callers[c].op.CallOp? && t in s.runs
    && var op := s.callers[c].op;
       && s.runs[t].callId == c && s.runs[t].proto == op.proto && s.runs[t].data == op.data
       && s.runs[t].conn.peer == op.peer
       && Provided(KnownOf(s), s.runs[t].conn, op.proto, s.runs[t].handler)
  }

  /** The run was asked for on the stream of the call's own task, by that stream's owner. */
  ghost predicate RunOnStream(s: State, t: nat, sid: nat) {
    && t in s.runs && t in s.arrivals && s.arrivals[t].reply.body.RequestHandling? && s.arrivals[t].via == sid
    && sid in s.streams && s.streams[sid].owner == s.runs[t].conn
    && s.runs[t].callId in s.callers && s.streams[sid].task == s.callers[s.runs[t].callId].task
  }

  lemma AskedFor(s: State, t: nat)
    requires RunsRight(KnownOf(s), s.arrivals, s.arrivalPc) && t in s.runs
    requires Announced(s.tasks, s.streams, s.handlerPc, s.arrivals)
    ensures t in s.arrivals && AnnouncedBy(s.tasks, s.streams, s.arrivals[t])
    ensures s.arrivals[t].reply.body.RequestHandling?
    ensures s.runs[t].conn == s.arrivals[t].conn && s.runs[t].callId == s.arrivals[t].reply.callId
    ensures s.runs[t].proto == s.arrivals[t].reply.body.proto && s.runs[t].data == s.arrivals[t].reply.body.data
    ensures Provided(KnownOf(s), s.runs[t].conn, s.runs[t].proto, s.runs[t].handler)
  {
    hide Provided, AnnouncedBy;
  }

  /** Every run of a handler is for a call, on the call's own data, at the peer it names. */
  lemma RunIsForItsCall(s: State, t: nat)
    requires Inv(s) && t in s.runs
    ensures RunFor(s, s.runs[t].callId, t) && t in s.arrivals && RunOnStream(s, t, s.arrivals[t].via)
  {
    hide Origins, StreamsKnown, RunsRight, Announced, Provided;
    assert RunsRight(KnownOf(s), s.arrivals, s.arrivalPc) by { Open(s); }
    assert Announced(s.tasks, s.streams, s.handlerPc, s.arrivals) by { Open(s); }
    assert StreamsKnown(s.tasks, s.streams) by { Open(s); }
    assert Origins(s.callers, s.tasks) by { Open(s); }
    hide Inv;
    AskedFor(s, t);
    var sid := s.arrivals[t].via;
    StreamTask(s, sid);
    OriginOf(s, s.streams[sid].task);
  }

  lemma OneRun(s: State, t: nat, u: nat, i: nat, j: nat)
    requires OneStream(s.taskPc, s.streams) && Announced(s.tasks, s.streams, s.handlerPc, s.arrivals)
    requires RunOnStream(s, t, i) && RunOnStream(s, u, j) && s.runs[t].callId == s.runs[u].callId
    ensures t == u
  {
    hide AnnouncedBy;
  }

  /** No call has its handler run twice. */
  lemma RunsOnce(s: State, t: nat, u: nat)
    requires Inv(s) && t in s.runs && u in s.runs && s.runs[t].callId == s.runs[u].callId
    ensures t == u
  {
    hide OneStream, Announced, RunOnStream;
    RunIsForItsCall(s, t);
    RunIsForItsCall(s, u);
    assert OneStream(s.taskPc, s.streams) by { Open(s); }
    assert Announced(s.tasks, s.streams, s.handlerPc, s.arrivals) by { Open(s); }
    OneRun(s, t, u, s.arrivals[t].via, s.arrivals[u].via);
  }

  /** The call has returned a value or an error of the handler. */
  ghost predicate HasResult(s: State, c: CallId) {
    && c in s.callers && s.callers[c].op.CallOp? && c in s.callerPc && s.callerPc[c].Returned?
    && (s.callerPc[c].outcome.Value? || s.callerPc[c].outcome.HandlerFailed?)
  }

  /** `t` is the only run for the call, and the call returned what it gave. */
  ghost predicate Decides(s: State, c: CallId, t: nat)
    requires HasResult(s, c)
  {
    && RunFor(s, c, t) && Returns(s.runs[t].result, s.callerPc[c].outcome)
    && forall u :: u in s.runs && s.runs[u].callId == c ==> u == t
  }

  lemma OutcomeFromRun(s: State, c: CallId)
    requires Inv(s) && HasResult(s, c)
    ensures exists t :: t in s.runs && s.runs[t].callId == c && Interpret(s.runs[t].result) == s.callerPc[c].outcome
  {
    var k := KnownOf(s);
    assert CallersRight(k, s.callerPc) by { Open(s); }
    assert OutcomeOk(k, c, s.callerPc[c].outcome);
    var r :| Produced(k, c, r) && Interpret(r) == s.callerPc[c].outcome;
    var t :| t in k.runs && k.runs[t].callId == c && k.runs[t].result == r;
    assert t in s.runs;
  }

  lemma ResultFromOnlyRun(s: State, c: CallId)
    requires Inv(s) && HasResult(s, c)
    ensures exists t :: Decides(s, c, t)
  {
    hide RunFor;
    OutcomeFromRun(s, c);
    var t :| t in s.runs && s.runs[t].callId == c && Interpret(s.runs[t].result) == s.callerPc[c].outcome;
    RunIsForItsCall(s, t);
    forall u | u in s.runs && s.runs[u].callId == c ensures u == t { RunsOnce(s, t, u); }
    assert Decides(s, c, t);
  }

  /** Step `i` of the run opens the call's stream, while `conn` has the protocol at its peer. */
  ghost predicate OpenedAt(run: seq<Label>, i: nat, g: nat, proto: Proto, conn: Conn) {
    && i < |run| && run[i].Daemon? && run[i].daemon.OpenStream? && run[i].daemon.g == g
    && Exec(run[..i]).Some? && Registered(Exec(run[..i]).value, conn, proto)
  }

  ghost predicate WasOpened(run: seq<Label>, g: nat, proto: Proto, conn: Conn) {
    exists i :: OpenedAt(run, i, g, proto, conn)
  }

  /** The protocol a stream was opened for. */
  ghost predicate StreamFor(s: State, sid: nat, proto: Proto) {
    && sid in s.streams && s.streams[sid].task in s.tasks
    && s.tasks[s.streams[sid].task].req.body.CallUnary? && s.tasks[s.streams[sid].task].req.body.proto == proto
  }

  lemma ClientFrame(s: State, l: ClientLabel)
    requires ClientEnabled(s, l)
    ensures ClientDo(s, l).streams == s.streams
    ensures forall g :: g in s.tasks ==> g in ClientDo(s, l).tasks && ClientDo(s, l).tasks[g] == s.tasks[g]
  {
    hide Registry.Enabled, Registry.Do;
  }

  /** A step opens a stream to the protocol's owner, or leaves the streams alone. */
  lemma StepStreams(s: State, l: Label, sid: nat, proto: Proto)
    requires Enabled(s, l) && StreamFor(Do(s, l), sid, proto)
    ensures if l.Daemon? && l.daemon.OpenStream? && l.daemon.sid == sid
            then Do(s, l).streams[sid].task == l.daemon.g && Registered(s, Do(s, l).streams[sid].owner, proto)
            else sid in s.streams && Do(s, l).streams[sid] == s.streams[sid]
    ensures forall g :: g in s.tasks ==> g in Do(s, l).tasks && Do(s, l).tasks[g] == s.tasks[g]
  {
    hide ClientEnabled, StreamEnabled, ClientDo, StreamDo, DaemonDo, Registry.Enabled;
    match l
    case Client(x) => ClientFrame(s, x);
    case Daemon(x) => if x.OpenStream? { OpenedStream(s, x.g, x.sid); }
    case OnStream(x) =>
  }

  lemma OpenedStream(s: State, g: nat, sid: nat)
    requires DaemonEnabled(s, OpenStream(g, sid))
    ensures g in s.tasks && s.tasks[g].req.body.CallUnary?
    ensures var body, s' := s.tasks[g].req.body, DaemonDo(s, OpenStream(g, sid));
      && body.proto in RegistryAt(s, body.peer).handlers.owner
      && s'.streams == s.streams[sid := Stream(g, Conn(body.peer, RegistryAt(s, body.peer).handlers.owner[body.proto]))]
  {
    hide Registry.Enabled, Registry.Do;
  }

  lemma {:induction false} StreamTasks(run: seq<Label>, sid: nat)
    requires Exec(run).Some? && sid in Exec(run).value.streams
    ensures Exec(run).value.streams[sid].task in Exec(run).value.tasks
  {
    hide Exec;
    RunInv(run);
    assert StreamsKnown(Exec(run).value.tasks, Exec(run).value.streams) by { Open(Exec(run).value); }
  }

  lemma NotInitial(run: seq<Label>, sid: nat)
    requires Exec(run).Some? && sid in Exec(run).value.streams
    ensures run != []
  {
  }

  lemma LastStep(run: seq<Label>)
    requires run != [] && Exec(run).Some?
    ensures var n := |run| - 1;
      Exec(run[..n]).Some? && Enabled(Exec(run[..n]).value, run[n]) &&
      Exec(run).value == Do(Exec(run[..n]).value, run[n])
  {
    hide Enabled, Do;
  }

  /** A stream was opened by a step of the run, to the connection that had the protocol then. */
  lemma {:induction false} StreamWasOpened(run: seq<Label>, sid: nat, proto: Proto)
    requires Exec(run).Some? && StreamFor(Exec(run).value, sid, proto)
    ensures WasOpened(run, Exec(run).value.streams[sid].task, proto, Exec(run).value.streams[sid].owner)
    decreases |run|
  {
    hide Exec, Enabled, Do;
    NotInitial(run, sid);
    var n := |run| - 1;
    LastStep(run);
    var s, st := Exec(run[..n]).value, Exec(run).value.streams[sid];
    StepStreams(s, run[n], sid, proto);
    if run[n].Daemon? && run[n].daemon.OpenStream? && run[n].daemon.sid == sid {
      assert OpenedAt(run, n, st.task, proto, st.owner);
    } else {
      StreamTasks(run[..n], sid);
      StreamWasOpened(run[..n], sid, proto);
      var i: nat :| OpenedAt(run[..n], i, st.task, proto, st.owner);
      assert run[..n][..i] == run[..i];
      assert OpenedAt(run, i, st.task, proto, st.owner);
    }
  }

  /**
    A call that returns a value, or an error of the handler, returns what one run of a handler
    gave for it. That run is the only one for the call; it was on the call's own data, by a
    client of the peer the call names, with a handler that client had registered for the
    protocol; and the client had the protocol at that peer when the call's stream was opened.
   */
  lemma Routing(run: seq<Label>, c: CallId)
    requires Exec(run).Some? && HasResult(Exec(run).value, c)
    ensures var s := Exec(run).value;
      exists t :: Decides(s, c, t) && WasOpened(run, s.callers[c].task, s.callers[c].op.proto, s.runs[t].conn)
  {
    hide Exec;
    var s := Exec(run).value;
    RunInv(run);
    ResultFromOnlyRun(s, c);
    var t :| Decides(s, c, t);
    RunIsForItsCall(s, t);
    StreamOfCall(s, c, s.arrivals[t].via);
    StreamWasOpened(run, s.arrivals[t].via, s.callers[c].op.proto);
  }

  lemma StreamOfCall(s: State, c: CallId, sid: nat)
    requires Inv(s) && c in s.callers && s.callers[c].op.CallOp?
    requires sid in s.streams && s.streams[sid].task == s.callers[c].task
    ensures StreamFor(s, sid, s.callers[c].op.proto)
  {
    assert Origins(s.callers, s.tasks) by { Open(s); }
  }

  /** No call has its handler run twice, over every run. */
  lemma AtMostOnce(run: seq<Label>, t: nat, u: nat)
    requires Exec(run).Some? && t in Exec(run).value.runs && u in Exec(run).value.runs
    requires Exec(run).value.runs[t].callId == Exec(run).value.runs[u].callId
    ensures t == u
  {
    hide Exec;
    RunInv(run);
    RunsOnce(Exec(run).value, t, u);
  }

  // ---------------------------------------------------------------------------
  // Errors of the handler
  // ---------------------------------------------------------------------------

  /** Some run for the call ended in an error with a text. */
  ghost predicate FailedWithText(s: State, c: CallId) {
    exists t :: t in s.runs && s.runs[t].callId == c && s.runs[t].result.Failure? && s.runs[t].result.b != []
  }

  /** A returned call reports an error of the handler exactly when its handler's error had a text. */
  lemma HandlerErrorIff(run: seq<Label>, c: CallId)
    requires Exec(run).Some? && HasResult(Exec(run).value, c)
    ensures Exec(run).value.callerPc[c].outcome.HandlerFailed? <==> FailedWithText(Exec(run).value, c)
  {
    hide Exec;
    var s := Exec(run).value;
    RunInv(run);
    ResultFromOnlyRun(s, c);
    var t :| Decides(s, c, t);
    hide RunFor;
  }

  // ---------------------------------------------------------------------------
  // Cancellation
  // ---------------------------------------------------------------------------

  /** Goroutine `g` serves a call under this key, between storing its cancel function and deleting it. */
  ghost predicate Serves(s: State, g: nat, key: (Peer, CallId)) {
    && g in s.tasks && g in s.taskPc && s.tasks[g].req.body.CallUnary? && InService(s.taskPc[g])
    && CallKey(s, g) == key
  }

  ghost predicate CancelMapExact(s: State) {
    forall key, g :: key in s.cancelUnary && s.cancelUnary[key] == g <==> Serves(s, g, key)
  }

  /** The cancel map holds exactly the calls in service, each under its daemon and its own id. */
  lemma CancelMapHolds(run: seq<Label>)
    requires Exec(run).Some?
    ensures CancelMapExact(Exec(run).value)
  {
    hide Exec;
    RunInv(run);
    var s := Exec(run).value;
    assert CancelMap(s.tasks, s.taskPc, s.cancelUnary) by { Open(s); }
    hide Inv;
    forall key, g ensures key in s.cancelUnary && s.cancelUnary[key] == g <==> Serves(s, g, key) {
    }
  }

  ghost predicate SentCancel(run: seq<Label>, c: CallId) {
    exists i :: 0 <= i < |run| && run[i].Client? && run[i].client.SendCancel? && run[i].client.c == c
  }

  ghost predicate EndedContext(run: seq<Label>, c: CallId) {
    exists i :: 0 <= i < |run| && run[i] == Client(EndContext(c))
  }

  lemma ClientHistory(s: State, l: ClientLabel, c: CallId)
    requires ClientEnabled(s, l)
    ensures c in ClientDo(s, l).cancelled <==> c in s.cancelled || (l.SendCancel? && l.c == c)
    ensures c in ClientDo(s, l).ended <==> c in s.ended || l == EndContext(c)
  {
    hide Registry.Enabled, Registry.Do;
  }

  lemma StepHistory(s: State, l: Label, c: CallId)
    requires Enabled(s, l)
    ensures c in Do(s, l).cancelled <==> c in s.cancelled || (l.Client? && l.client.SendCancel? && l.client.c == c)
    ensures c in Do(s, l).ended <==> c in s.ended || l == Client(EndContext(c))
  {
    hide ClientEnabled, DaemonEnabled, StreamEnabled, ClientDo, DaemonDo, StreamDo;
    if l.Client? { ClientHistory(s, l.client, c); }
  }

  /** The histories of a state are those of its run. */
  lemma {:induction false} HistoryMeans(run: seq<Label>, c: CallId)
    requires Exec(run).Some?
    ensures c in Exec(run).value.cancelled <==> SentCancel(run, c)
    ensures c in Exec(run).value.ended <==> EndedContext(run, c)
    decreases |run|
  {
    hide Enabled, Do;
    if run != [] {
      var n := |run| - 1;
      HistoryMeans(run[..n], c);
      StepHistory(Exec(run[..n]).value, run[n], c);
      assert forall i :: 0 <= i < n ==> run[i] == run[..n][i];
      if SentCancel(run[..n], c) {
        var i :| 0 <= i < n && run[..n][i].Client? && run[..n][i].client.SendCancel? && run[..n][i].client.c == c;
        assert run[i] == run[..n][i];
      }
      if EndedContext(run[..n], c) {
        var i :| 0 <= i < n && run[..n][i] == Client(EndContext(c));
        assert run[i] == run[..n][i];
      }
    }
  }

  /** The daemon answers the call, if at all, with a response of its own id that is no Cancel. */
  ghost predicate AnsweredProperly(s: State, c: CallId) {
    && c in s.callers && s.callers[c].task in s.taskPc && c in s.callerPc
    && ProperAnswer(c, s.taskPc[s.callers[c].task])
    && (s.callers[c].task in s.ctxDone ==> s.taskPc[s.callers[c].task] == Over)
    && (s.callerPc[c].Got? ==> s.callerPc[c].reply.callId == c && !s.callerPc[c].reply.body.Cancelled?)
  }

  predicate ProperAnswer(c: CallId, pc: TaskPc) {
    pc.Answering? ==> pc.reply.Some? && pc.reply.value.callId == c && !pc.reply.value.body.Cancelled?
  }

  lemma NoCancelNoAnswer(s: State, c: CallId)
    requires Inv(s) && c in s.callers && c !in s.cancelled
    ensures AnsweredProperly(s, c)
  {
    var k, g := KnownOf(s), s.callers[c].task;
    assert Origins(s.callers, s.tasks) && s.taskPc.Keys == s.tasks.Keys && s.callerPc.Keys == s.callers.Keys
      by { Open(s); }
    assert Answers(k, s.tasks, s.taskPc) by { Open(s); }
    assert CtxDone(s.tasks, s.taskPc, s.cancelled, s.ctxDone) by { Open(s); }
    assert CallersRight(k, s.callerPc) by { Open(s); }
    hide Inv;
    assert AnswerRight(k, c, s.taskPc[g]);
    if s.callerPc[c].Got? { assert ReplyOk(k, c, s.callerPc[c].reply); }
  }

  /** A call whose client sent no Cancel is never answered with Cancel or nil, and its context stays. */
  lemma NotCancelled(run: seq<Label>, c: CallId)
    requires Exec(run).Some? && c in Exec(run).value.callers && !SentCancel(run, c)
    ensures AnsweredProperly(Exec(run).value, c)
  {
    hide Exec, AnsweredProperly;
    RunInv(run);
    HistoryMeans(run, c);
    NoCancelNoAnswer(Exec(run).value, c);
  }

  lemma NotEndedOutcome(s: State, c: CallId)
    requires Inv(s) && c in s.callers && c !in s.ended
    ensures c in s.callerPc && s.callerPc[c] != Returned(CtxEnded) && c !in s.cancelled
  {
    var k := KnownOf(s);
    assert s.callerPc.Keys == s.callers.Keys && s.cancelled <= s.ended by { Open(s); }
    assert CallersRight(k, s.callerPc) by { Open(s); }
    if s.callerPc[c].Returned? { assert OutcomeOk(k, c, s.callerPc[c].outcome); }
  }

  /** A call whose context never ended sends no Cancel and never returns by its context. */
  lemma ContextNeverEnded(run: seq<Label>, c: CallId)
    requires Exec(run).Some? && c in Exec(run).value.callers && !EndedContext(run, c)
    ensures c in Exec(run).value.callerPc && Exec(run).value.callerPc[c] != Returned(CtxEnded)
    ensures !SentCancel(run, c)
  {
    hide Exec;
    RunInv(run);
    HistoryMeans(run, c);
    NotEndedOutcome(Exec(run).value, c);
  }

  ghost predicate AnswersOwnId(s: State, g: nat) {
    g in s.tasks && g in s.taskPc && s.taskPc[g].Answering? && s.taskPc[g].reply.Some? ==>
      s.taskPc[g].reply.value.callId == s.tasks[g].req.callId
  }

  /** Every answer of a daemon, cancelled or not, carries the id of the request it answers. */
  lemma AnswersCarryId(run: seq<Label>, g: nat)
    requires Exec(run).Some?
    ensures AnswersOwnId(Exec(run).value, g)
  {
    hide Exec;
    var s := Exec(run).value;
    RunInv(run);
    assert Answers(KnownOf(s), s.tasks, s.taskPc) by { Open(s); }
    hide Inv;
    if g in s.tasks && g in s.taskPc {
      assert AnswerRight(KnownOf(s), s.tasks[g].req.callId, s.taskPc[g]);
    }
  }

  // ---------------------------------------------------------------------------
  // Futures
  // ---------------------------------------------------------------------------

  /** A caller waits on a channel, and a reader goroutine holds one. */
  ghost predicate Meeting(s: State, c: CallId, t: nat) {
    && c in s.callers && c in s.callerPc && s.callerPc[c].Waiting?
    && t in s.arrivals && t in s.arrivalPc && s.arrivalPc[t].Holding?
  }

  ghost predicate ResponseOf(s: State, c: CallId, t: nat) {
    t in s.arrivals && Own(s.callers, s.arrivals[t]) && s.arrivals[t].reply.callId == c
  }

  lemma MeetingIffOwn(s: State, c: CallId, t: nat)
    requires Inv(s) && Meeting(s, c, t)
    ensures s.callerPc[c].ch == s.arrivalPc[t].ch <==> ResponseOf(s, c, t)
  {
    assert Futures(s.callers, s.callerPc, s.arrivals, s.arrivalPc, s.callFutures, s.channels) by { Open(s); }
    if s.callerPc[c].ch == s.arrivalPc[t].ch { FutureMatches(s, c, t); }
  }

  lemma OneResponse(s: State, c: CallId, t: nat, u: nat)
    requires Inv(s) && ResponseOf(s, c, t) && ResponseOf(s, c, u)
    ensures t == u
  {
    hide ReplyOk;
    assert Replies(KnownOf(s), s.taskPc, s.arrivals) by { Open(s); }
  }

  /**
    A caller waiting for `c` and a reader goroutine share a channel exactly when the reader holds
    the response to `c` for that client, whoever came first; and there is only one such response.
   */
  lemma Rendezvous(run: seq<Label>, c: CallId, t: nat)
    requires Exec(run).Some? && Meeting(Exec(run).value, c, t)
    ensures var s := Exec(run).value;
      && (s.callerPc[c].ch == s.arrivalPc[t].ch <==> ResponseOf(s, c, t))
      && (ResponseOf(s, c, t) ==> forall u :: ResponseOf(s, c, u) ==> u == t)
  {
    hide Exec, ResponseOf;
    var s := Exec(run).value;
    RunInv(run);
    MeetingIffOwn(s, c, t);
    if ResponseOf(s, c, t) {
      forall u | ResponseOf(s, c, u) ensures u == t { OneResponse(s, c, t, u); }
    }
  }

  lemma ReturnedClient(s: State, l: ClientLabel, c: CallId)
    requires ClientEnabled(s, l) && c in s.callers && c in s.callerPc && s.callerPc[c].Returned?
    ensures c in ClientDo(s, l).callers && ClientDo(s, l).callers[c] == s.callers[c]
    ensures c in ClientDo(s, l).callerPc && ClientDo(s, l).callerPc[c] == s.callerPc[c]
  {
    hide Registry.Enabled, Registry.Do;
  }

  lemma ReturnedStep(s: State, l: Label, c: CallId)
    requires Enabled(s, l) && c in s.callers && c in s.callerPc && s.callerPc[c].Returned?
    ensures c in Do(s, l).callers && Do(s, l).callers[c] == s.callers[c]
    ensures c in Do(s, l).callerPc && Do(s, l).callerPc[c] == s.callerPc[c]
  {
    hide ClientEnabled, DaemonEnabled, StreamEnabled, ClientDo, DaemonDo, StreamDo;
    if l.Client? { ReturnedClient(s, l.client, c); }
  }

  ghost predicate ReturnedWith(s: State, c: CallId, conn: Conn, o: Outcome) {
    c in s.callers && s.callers[c].conn == conn && c in s.callerPc && s.callerPc[c] == Returned(o)
  }

  /** Once an operation has returned, so it stays, and its future is gone in every continuation. */
  lemma {:induction false} FutureGone(run: seq<Label>, more: seq<Label>, c: CallId, conn: Conn, o: Outcome)
    requires Exec(run).Some? && Exec(run + more).Some? && ReturnedWith(Exec(run).value, c, conn, o)
    ensures ReturnedWith(Exec(run + more).value, c, conn, o) && (conn, c) !in Exec(run + more).value.callFutures
    decreases |more|
  {
    hide Do, Enabled;
    if more == [] {
      assert run + more == run;
    } else {
      var n := |more| - 1;
      assert (run + more)[..|run + more| - 1] == run + more[..n];
      FutureGone(run, more[..n], c, conn, o);
      ReturnedStep(Exec(run + more[..n]).value, more[n], c);
    }
    var s := Exec(run + more).value;
    RunInv(run + more);
    assert Futures(s.callers, s.callerPc, s.arrivals, s.arrivalPc, s.callFutures, s.channels) by { Open(s); }
  }

  /** `AddUnaryHandler` succeeds only if the daemon accepted that very request. */
  lemma AddedMeansAccepted(run: seq<Label>, c: CallId)
    requires Exec(run).Some? && c in Exec(run).value.callers && c in Exec(run).value.callerPc
    requires Exec(run).value.callerPc[c] == Returned(Added)
    ensures c in Exec(run).value.accepted
  {
    hide Exec;
    var s := Exec(run).value;
    RunInv(run);
    assert CallersRight(KnownOf(s), s.callerPc) by { Open(s); }
    assert OutcomeOk(KnownOf(s), c, Added);
  }
}
