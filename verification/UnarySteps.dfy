/** Every step of the unary-call system keeps the invariant. */
module UnarySteps {
  import opened Options
  import opened Wire
  import opened Protocol
  import opened UnaryCalls
  import Registry
  import opened UnaryInvariant

  // ---------------------------------------------------------------------------
  // When what is known grows
  // ---------------------------------------------------------------------------

  ghost predicate Facts(k: Known, s: State) {
    && HandlersProvided(k, s.unaryHandlers)
    && RunningProvided(k, s.arrivals, s.arrivalPc)
    && ResponsesRight(k, s.tasks)
    && ComesBack(k, s.handlerPc, s.toCallee, s.toCaller)
    && Offers(k, s.tasks, s.streams, s.exchangePc)
    && Answers(k, s.tasks, s.taskPc)
    && Replies(k, s.taskPc, s.arrivals)
    && CallersRight(k, s.callerPc)
  }

  lemma GrowProvided(k: Known, k': Known, s: State)
    requires Grows(k, k') && HandlersProvided(k, s.unaryHandlers) && RunningProvided(k, s.arrivals, s.arrivalPc)
    ensures HandlersProvided(k', s.unaryHandlers) && RunningProvided(k', s.arrivals, s.arrivalPc)
  {
    hide Grows, Provided;
    forall key | key in s.unaryHandlers ensures Provided(k', key.0, key.1, s.unaryHandlers[key]) {
      ProvidedGrows(k, k', key.0, key.1, s.unaryHandlers[key]);
    }
    forall t | t in s.arrivals && t in s.arrivalPc && s.arrivalPc[t].Running?
      ensures s.arrivals[t].reply.body.RequestHandling?
      ensures Provided(k', s.arrivals[t].conn, s.arrivals[t].reply.body.proto, s.arrivalPc[t].handler)
    {
      ProvidedGrows(k, k', s.arrivals[t].conn, s.arrivals[t].reply.body.proto, s.arrivalPc[t].handler);
    }
  }

  lemma GrowResponses(k: Known, k': Known, s: State)
    requires Grows(k, k') && ResponsesRight(k, s.tasks) && ComesBack(k, s.handlerPc, s.toCallee, s.toCaller)
    ensures ResponsesRight(k', s.tasks) && ComesBack(k', s.handlerPc, s.toCallee, s.toCaller)
  {
    hide Grows, Produced;
    forall g | g in s.tasks && s.tasks[g].req.body.UnaryResponse?
      ensures Produced(k', s.tasks[g].req.callId, s.tasks[g].req.body.result)
    {
      ProducedGrows(k, k', s.tasks[g].req.callId, s.tasks[g].req.body.result);
    }
    forall sid | sid in s.handlerPc && s.handlerPc[sid].Took?
      ensures sid in s.toCallee && ResponseTo(k', s.toCallee[sid].callId, s.handlerPc[sid].req)
    {
      assert ResponseTo(k, s.toCallee[sid].callId, s.handlerPc[sid].req);
      ProducedGrows(k, k', s.toCallee[sid].callId, s.handlerPc[sid].req.body.result);
    }
    forall sid | sid in s.toCaller
      ensures sid in s.toCallee && ResponseTo(k', s.toCallee[sid].callId, s.toCaller[sid])
    {
      assert ResponseTo(k, s.toCallee[sid].callId, s.toCaller[sid]);
      ProducedGrows(k, k', s.toCallee[sid].callId, s.toCaller[sid].body.result);
    }
  }

  lemma GrowAnswers(k: Known, k': Known, s: State)
    requires Grows(k, k') && Offers(k, s.tasks, s.streams, s.exchangePc) && Answers(k, s.tasks, s.taskPc)
    ensures Offers(k', s.tasks, s.streams, s.exchangePc) && Answers(k', s.tasks, s.taskPc)
  {
    hide ReplyOk;
    forall sid | sid in s.streams && sid in s.exchangePc &&
                 s.exchangePc[sid].Offering? && s.streams[sid].task in s.tasks
      ensures ReplyOk(k', s.tasks[s.streams[sid].task].req.callId, s.exchangePc[sid].reply)
    {
      ReplyOkGrows(k, k', s.tasks[s.streams[sid].task].req.callId, s.exchangePc[sid].reply);
    }
    forall g | g in s.tasks && g in s.taskPc ensures AnswerRight(k', s.tasks[g].req.callId, s.taskPc[g]) {
      assert AnswerRight(k, s.tasks[g].req.callId, s.taskPc[g]);
      AnswerRightGrows(k, k', s.tasks[g].req.callId, s.taskPc[g]);
    }
  }

  lemma AnswerRightGrows(k: Known, k': Known, c: CallId, pc: TaskPc)
    requires Grows(k, k') && AnswerRight(k, c, pc)
    ensures AnswerRight(k', c, pc)
  {
    hide ReplyOk;
    if pc.Listing? { ReplyOkGrows(k, k', c, pc.res); }
    if pc.Answering? && pc.reply.Some? { ReplyOkGrows(k, k', c, pc.reply.value); }
  }

  lemma GrowReplies(k: Known, k': Known, s: State)
    requires Grows(k, k') && Replies(k, s.taskPc, s.arrivals)
    ensures Replies(k', s.taskPc, s.arrivals)
  {
    hide ReplyOk;
    forall t | t in s.arrivals && Own(k'.callers, s.arrivals[t])
      ensures Own(k.callers, s.arrivals[t]) && ReplyOk(k', s.arrivals[t].reply.callId, s.arrivals[t].reply)
    {
      ReplyOkGrows(k, k', s.arrivals[t].reply.callId, s.arrivals[t].reply);
    }
  }

  lemma GrowCallers(k: Known, k': Known, s: State)
    requires Grows(k, k') && CallersRight(k, s.callerPc) && s.callerPc.Keys <= k.callers.Keys
    ensures CallersRight(k', s.callerPc)
  {
    hide ReplyOk, OutcomeOk;
    forall c | c in k'.callers && c in s.callerPc
      ensures s.callerPc[c].Got? ==> ReplyOk(k', c, s.callerPc[c].reply)
      ensures s.callerPc[c].Returned? ==> OutcomeOk(k', c, s.callerPc[c].outcome)
    {
      assert c in k.callers;
      if s.callerPc[c].Got? { ReplyOkGrows(k, k', c, s.callerPc[c].reply); }
      if s.callerPc[c].Returned? { OutcomeOkGrows(k, k', c, s.callerPc[c].outcome); }
    }
  }

  lemma GrowFacts(k: Known, k': Known, s: State)
    requires Grows(k, k') && Facts(k, s) && s.callerPc.Keys <= k.callers.Keys
    ensures Facts(k', s)
  {
    hide Grows, HandlersProvided, RunningProvided, ResponsesRight, ComesBack, Offers, Answers, Replies, CallersRight;
    GrowProvided(k, k', s);
    GrowResponses(k, k', s);
    GrowAnswers(k, k', s);
    GrowReplies(k, k', s);
    GrowCallers(k, k', s);
  }

  lemma GrowRuns(k: Known, k': Known, s: State)
    requires Grows(k, k') && RunsRight(k, s.arrivals, s.arrivalPc) && k'.runs == k.runs
    ensures RunsRight(k', s.arrivals, s.arrivalPc)
  {
    hide Grows, Provided;
    forall t | t in k'.runs ensures Provided(k', k.runs[t].conn, k.runs[t].proto, k.runs[t].handler) {
      ProvidedGrows(k, k', k.runs[t].conn, k.runs[t].proto, k.runs[t].handler);
    }
  }

  // ---------------------------------------------------------------------------
  // When a task appears, or its counter moves
  // ---------------------------------------------------------------------------

  lemma AddTaskService(s: State, g: nat, task: Task)
    requires g !in s.tasks && g !in s.taskPc
    requires PcKinds(s.tasks, s.taskPc) && HandingRight(s.tasks, s.taskPc, s.toCallee)
    requires CancelMap(s.tasks, s.taskPc, s.cancelUnary) && CtxDone(s.tasks, s.taskPc, s.cancelled, s.ctxDone)
    ensures var tasks, taskPc := s.tasks[g := task], s.taskPc[g := Fresh];
      && PcKinds(tasks, taskPc) && HandingRight(tasks, taskPc, s.toCallee)
      && CancelMap(tasks, taskPc, s.cancelUnary) && CtxDone(tasks, taskPc, s.cancelled, s.ctxDone)
  {
  }

  lemma AddTaskStreams(s: State, g: nat, task: Task)
    requires g !in s.tasks && g !in s.taskPc
    requires StreamsKnown(s.tasks, s.streams) && OneStream(s.taskPc, s.streams)
    requires Carried(s.tasks, s.streams, s.toCallee) && ClosedEarly(s.taskPc, s.exchangePc, s.ctxDone)
    requires Announced(s.tasks, s.streams, s.handlerPc, s.arrivals)
    ensures var tasks, taskPc := s.tasks[g := task], s.taskPc[g := Fresh];
      && StreamsKnown(tasks, s.streams) && OneStream(taskPc, s.streams)
      && Carried(tasks, s.streams, s.toCallee) && ClosedEarly(taskPc, s.exchangePc, s.ctxDone)
      && Announced(tasks, s.streams, s.handlerPc, s.arrivals)
  {
  }

  lemma AddTaskAnswers(k: Known, s: State, g: nat, task: Task)
    requires g !in s.tasks && g !in s.taskPc
    requires StreamsKnown(s.tasks, s.streams)
    requires Offers(k, s.tasks, s.streams, s.exchangePc) && Answers(k, s.tasks, s.taskPc)
    ensures Offers(k, s.tasks[g := task], s.streams, s.exchangePc) &&
            Answers(k, s.tasks[g := task], s.taskPc[g := Fresh])
  {
    assert AnswerRight(k, task.req.callId, Fresh);
    hide ReplyOk, AnswerRight;
  }

  lemma AddTaskReplies(k: Known, s: State, g: nat)
    requires g !in s.taskPc && Replies(k, s.taskPc, s.arrivals)
    requires NothingLeft(s.callers, s.callerPc, s.taskPc, s.arrivals, s.arrivalPc)
    ensures Replies(k, s.taskPc[g := Fresh], s.arrivals)
    ensures NothingLeft(s.callers, s.callerPc, s.taskPc[g := Fresh], s.arrivals, s.arrivalPc)
  {
    hide ReplyOk;
  }

  /** May a task's counter move so? What the new counter claims is asked for separately. */
  ghost predicate Moves(s: State, g: nat, pc: TaskPc) {
    && g in s.tasks && g in s.taskPc && s.taskPc[g] != Over
    && (pc.Calling? || pc.Exchanging? || pc.Answered? ==> s.tasks[g].req.body.CallUnary?)
    && (pc.Listing? ==> s.tasks[g].req.body.AddUnaryHandler?)
    && (pc.Answering? ==> IsOrigin(s.tasks[g].req.body))
    && !pc.Fresh? && (pc.Calling? ==> s.taskPc[g].Fresh?)
    && (HasAnswered(s.taskPc[g]) ==> HasAnswered(pc))
  }

  lemma MoveKinds(s: State, g: nat, pc: TaskPc)
    requires Moves(s, g, pc) && PcKinds(s.tasks, s.taskPc) && CtxDone(s.tasks, s.taskPc, s.cancelled, s.ctxDone)
    ensures PcKinds(s.tasks, s.taskPc[g := pc]) && CtxDone(s.tasks, s.taskPc[g := pc], s.cancelled, s.ctxDone)
  {
  }

  lemma MoveStreams(s: State, g: nat, pc: TaskPc)
    requires Moves(s, g, pc) && !pc.Exchanging? && OneStream(s.taskPc, s.streams)
    requires ClosedEarly(s.taskPc, s.exchangePc, s.ctxDone)
    ensures OneStream(s.taskPc[g := pc], s.streams) && ClosedEarly(s.taskPc[g := pc], s.exchangePc, s.ctxDone)
  {
  }

  lemma MoveReplies(k: Known, s: State, g: nat, pc: TaskPc)
    requires Moves(s, g, pc) && Replies(k, s.taskPc, s.arrivals)
    requires NothingLeft(s.callers, s.callerPc, s.taskPc, s.arrivals, s.arrivalPc)
    ensures Replies(k, s.taskPc[g := pc], s.arrivals)
    ensures NothingLeft(s.callers, s.callerPc, s.taskPc[g := pc], s.arrivals, s.arrivalPc)
  {
    hide ReplyOk;
  }

  lemma MoveHanding(s: State, g: nat, pc: TaskPc)
    requires Moves(s, g, pc) && HandingRight(s.tasks, s.taskPc, s.toCallee)
    requires pc.Handing? ==>
               && s.tasks[g].req.body.UnaryResponse? && pc.sid in s.toCallee
               && s.toCallee[pc.sid].callId == s.tasks[g].req.callId
    ensures HandingRight(s.tasks, s.taskPc[g := pc], s.toCallee)
  {
  }

  lemma MoveAnswers(k: Known, s: State, g: nat, pc: TaskPc)
    requires Moves(s, g, pc) && Answers(k, s.tasks, s.taskPc) && AnswerRight(k, s.tasks[g].req.callId, pc)
    ensures Answers(k, s.tasks, s.taskPc[g := pc])
  {
    hide AnswerRight;
  }

  lemma MoveInService(s: State, g: nat, pc: TaskPc)
    requires Moves(s, g, pc) && CancelMap(s.tasks, s.taskPc, s.cancelUnary)
    requires s.tasks[g].req.body.CallUnary? ==> (InService(pc) <==> InService(s.taskPc[g]))
    ensures CancelMap(s.tasks, s.taskPc[g := pc], s.cancelUnary)
  {
  }

  // ---------------------------------------------------------------------------
  // New tasks, new arrivals
  // ---------------------------------------------------------------------------

  lemma AddTaskBodies(k: Known, s: State, g: nat, task: Task)
    requires g !in s.tasks && CancelsSent(k.cancelled, s.tasks) && ResponsesRight(k, s.tasks)
    requires task.req.body.CancelRequest? ==> task.req.callId in k.cancelled
    requires task.req.body.UnaryResponse? ==> Produced(k, task.req.callId, task.req.body.result)
    ensures CancelsSent(k.cancelled, s.tasks[g := task]) && ResponsesRight(k, s.tasks[g := task])
  {
    hide Produced;
  }

  lemma AddTaskOrigins(s: State, g: nat, task: Task)
    requires g !in s.tasks && !IsOrigin(task.req.body) && Origins(s.callers, s.tasks)
    ensures Origins(s.callers, s.tasks[g := task])
  {
  }

  lemma AddArrival(k: Known, s: State, t: nat, a: Arrival)
    requires t !in s.arrivals && t !in s.arrivalPc
    requires RunsRight(k, s.arrivals, s.arrivalPc) && RunningProvided(k, s.arrivals, s.arrivalPc)
    requires Futures(s.callers, s.callerPc, s.arrivals, s.arrivalPc, s.callFutures, s.channels)
    ensures RunsRight(k, s.arrivals[t := a], s.arrivalPc[t := New])
    ensures RunningProvided(k, s.arrivals[t := a], s.arrivalPc[t := New])
    ensures Futures(s.callers, s.callerPc, s.arrivals[t := a], s.arrivalPc[t := New], s.callFutures, s.channels)
  {
    hide Provided;
  }

  // ---------------------------------------------------------------------------
  // Steps of a client
  // ---------------------------------------------------------------------------

  lemma IssueOrigins(s: State, c: CallId, conn: Conn, op: Op, g: nat)
    requires c !in s.callers && g !in s.tasks && Origins(s.callers, s.tasks)
    ensures Origins(s.callers[c := Caller(conn, op, g)], s.tasks[g := Task(conn, Request(c, BodyOf(op)), 0)])
  {
    assert IsOrigin(BodyOf(op));
  }

  lemma IssueCaller(k: Known, s: State, c: CallId, caller: Caller)
    requires c !in s.callers && c !in s.callerPc && s.callers == k.callers
    requires Replies(k, s.taskPc, s.arrivals)
    requires NothingLeft(s.callers, s.callerPc, s.taskPc, s.arrivals, s.arrivalPc)
    requires Futures(s.callers, s.callerPc, s.arrivals, s.arrivalPc, s.callFutures, s.channels)
    ensures NothingLeft(s.callers[c := caller], s.callerPc[c := Written], s.taskPc, s.arrivals, s.arrivalPc)
    ensures Futures(s.callers[c := caller], s.callerPc[c := Written], s.arrivals, s.arrivalPc,
                    s.callFutures, s.channels)
  {
    hide ReplyOk;
  }

  lemma WrittenRight(k: Known, s: State, c: CallId)
    requires CallersRight(k, s.callerPc)
    ensures CallersRight(k, s.callerPc[c := Written])
  {
    hide ReplyOk, OutcomeOk;
  }

  lemma KeepIssue(s: State, c: CallId, conn: Conn, op: Op, g: nat)
    requires Inv(s) && c !in s.callers && g !in s.tasks
    ensures Inv(Issue(s, c, conn, op, g))
  {
    hide Origins, CancelsSent, PcKinds, CancelMap, CtxDone, StreamsKnown, OneStream, Carried, Waiters,
      Announced, RunsRight, HandlersProvided, RunningProvided, ResponsesRight, HandingRight, ComesBack, Offers,
      ClosedEarly, Answers, Replies, NothingLeft, Futures, CallersRight;
    Open(s);
    var s' := Issue(s, c, conn, op, g);
    var k, k' := KnownOf(s), KnownOf(s');
    assert Grows(k, k');
    GrowFacts(k, k', s);
    GrowRuns(k, k', s);
    IssueCaller(k, s, c, s'.callers[c]);
    WrittenRight(k', s, c);
    IssueOrigins(s, c, conn, op, g);
    AddTaskBodies(k', s, g, s'.tasks[g]);
    AddTaskService(s, g, s'.tasks[g]);
    AddTaskStreams(s, g, s'.tasks[g]);
    AddTaskAnswers(k', s, g, s'.tasks[g]);
    AddTaskReplies(k', s.(callers := s'.callers, callerPc := s'.callerPc), g);
    Shut(Issue(s, c, conn, op, g));
  }

  lemma CancelGrows(s: State, c: CallId)
    requires CtxDone(s.tasks, s.taskPc, s.cancelled, s.ctxDone) && CancelsSent(s.cancelled, s.tasks)
    ensures CtxDone(s.tasks, s.taskPc, s.cancelled + {c}, s.ctxDone) && CancelsSent(s.cancelled + {c}, s.tasks)
  {
  }

  lemma KeepEnded(s: State, c: CallId)
    requires Inv(s) && c in s.callers
    ensures Inv(s.(ended := s.ended + {c}))
  {
    hide Origins, CancelsSent, PcKinds, CancelMap, CtxDone, StreamsKnown, OneStream, Carried, Waiters,
      Announced, RunsRight, HandlersProvided, RunningProvided, ResponsesRight, HandingRight, ComesBack, Offers,
      ClosedEarly, Answers, Replies, NothingLeft, Futures, CallersRight;
    Open(s);
    var s' := s.(ended := s.ended + {c});
    var k, k' := KnownOf(s), KnownOf(s');
    assert Grows(k, k');
    GrowFacts(k, k', s);
    GrowRuns(k, k', s);
    Shut(s');
  }

  lemma KeepCancelled(s: State, c: CallId)
    requires Inv(s) && c in s.ended
    ensures Inv(s.(cancelled := s.cancelled + {c}))
  {
    hide Origins, CancelsSent, PcKinds, CancelMap, CtxDone, StreamsKnown, OneStream, Carried, Waiters,
      Announced, RunsRight, HandlersProvided, RunningProvided, ResponsesRight, HandingRight, ComesBack, Offers,
      ClosedEarly, Answers, Replies, NothingLeft, Futures, CallersRight;
    Open(s);
    var s' := s.(cancelled := s.cancelled + {c});
    var k, k' := KnownOf(s), KnownOf(s');
    assert Grows(k, k');
    GrowFacts(k, k', s);
    GrowRuns(k, k', s);
    CancelGrows(s, c);
    Shut(s');
  }

  /** A Cancel or a handler's response is written. */
  lemma KeepNewTask(s: State, g: nat, task: Task)
    requires Inv(s) && g !in s.tasks && !IsOrigin(task.req.body)
    requires task.req.body.CancelRequest? ==> task.req.callId in s.cancelled
    requires task.req.body.UnaryResponse? ==> Produced(KnownOf(s), task.req.callId, task.req.body.result)
    ensures Inv(s.(tasks := s.tasks[g := task], taskPc := s.taskPc[g := Fresh]))
  {
    hide Origins, CancelsSent, PcKinds, CancelMap, CtxDone, StreamsKnown, OneStream, Carried, Waiters,
      Announced, RunsRight, HandlersProvided, RunningProvided, ResponsesRight, HandingRight, ComesBack, Offers,
      ClosedEarly, Answers, Replies, NothingLeft, Futures, CallersRight, Provided, Produced;
    Open(s);
    var k := KnownOf(s);
    AddTaskOrigins(s, g, task);
    AddTaskBodies(k, s, g, task);
    AddTaskService(s, g, task);
    AddTaskStreams(s, g, task);
    AddTaskAnswers(k, s, g, task);
    AddTaskReplies(k, s, g);
    Shut(s.(tasks := s.tasks[g := task], taskPc := s.taskPc[g := Fresh]));
  }

  lemma KeepSendCancel(s: State, c: CallId, g: nat)
    requires Inv(s) && ClientEnabled(s, SendCancel(c, g))
    ensures Inv(ClientDo(s, SendCancel(c, g)))
  {
    hide Inv;
    KeepCancelled(s, c);
    KeepNewTask(s.(cancelled := s.cancelled + {c}), g, Task(s.callers[c].conn, Request(c, CancelRequest), 0));
  }

  lemma SetCaller(k: Known, s: State, c: CallId, pc: CallerPc)
    requires CallersRight(k, s.callerPc)
    requires NothingLeft(s.callers, s.callerPc, s.taskPc, s.arrivals, s.arrivalPc)
    requires c in s.callerPc && (Settled(pc) ==> Settled(s.callerPc[c]))
    requires pc.Got? ==> ReplyOk(k, c, pc.reply)
    requires pc.Returned? ==> OutcomeOk(k, c, pc.outcome)
    ensures CallersRight(k, s.callerPc[c := pc])
    ensures NothingLeft(s.callers, s.callerPc[c := pc], s.taskPc, s.arrivals, s.arrivalPc)
  {
    hide ReplyOk, OutcomeOk;
  }

  lemma StoreFuture(s: State, key: (Conn, CallId), ch: nat)
    requires Futures(s.callers, s.callerPc, s.arrivals, s.arrivalPc, s.callFutures, s.channels) && ch !in s.channels
    requires key.1 in s.callers && s.callers[key.1].conn == key.0 && key.1 in s.callerPc ==>
               !s.callerPc[key.1].Returned?
    ensures Futures(s.callers, s.callerPc, s.arrivals, s.arrivalPc,
                    s.callFutures[key := FutureAt(s, key, ch)], s.channels + {ch})
  {
  }

  lemma KeepAwaitFuture(s: State, c: CallId, ch: nat)
    requires Inv(s) && ClientEnabled(s, AwaitFuture(c, ch))
    ensures Inv(ClientDo(s, AwaitFuture(c, ch)))
  {
    hide Origins, CancelsSent, PcKinds, CancelMap, CtxDone, StreamsKnown, OneStream, Carried, Waiters,
      Announced, RunsRight, HandlersProvided, RunningProvided, ResponsesRight, HandingRight, ComesBack, Offers,
      ClosedEarly, Answers, Replies, NothingLeft, Futures, CallersRight;
    Open(s);
    var key := (s.callers[c].conn, c);
    StoreFuture(s, key, ch);
    var s1 := s.(callFutures := s.callFutures[key := FutureAt(s, key, ch)], channels := s.channels + {ch});
    WaitFuture(s1, c);
    SetCaller(KnownOf(s), s, c, Waiting(FutureAt(s, key, ch)));
    Shut(ClientDo(s, AwaitFuture(c, ch)));
  }

  lemma WaitFuture(s: State, c: CallId)
    requires Futures(s.callers, s.callerPc, s.arrivals, s.arrivalPc, s.callFutures, s.channels)
    requires c in s.callers && c in s.callerPc && (s.callers[c].conn, c) in s.callFutures
    ensures Futures(s.callers, s.callerPc[c := Waiting(s.callFutures[(s.callers[c].conn, c)])], s.arrivals, s.arrivalPc,
                    s.callFutures, s.channels)
  {
  }

  /** The two sides of a channel are the caller and the response to its own operation. */
  lemma FutureMatches(s: State, c: CallId, t: nat)
    requires Futures(s.callers, s.callerPc, s.arrivals, s.arrivalPc, s.callFutures, s.channels)
    requires ClientEnabled(s, HandReply(c, t))
    ensures Own(s.callers, s.arrivals[t]) && s.arrivals[t].reply.callId == c
  {
    var x, y := (s.callers[c].conn, c), (s.arrivals[t].conn, s.arrivals[t].reply.callId);
    assert x in s.callFutures && y in s.callFutures && s.callFutures[x] == s.callFutures[y];
    assert x == y;
  }

  lemma ConsumeArrival(k: Known, s: State, t: nat)
    requires RunsRight(k, s.arrivals, s.arrivalPc) && RunningProvided(k, s.arrivals, s.arrivalPc)
    requires Futures(s.callers, s.callerPc, s.arrivals, s.arrivalPc, s.callFutures, s.channels)
    requires NothingLeft(s.callers, s.callerPc, s.taskPc, s.arrivals, s.arrivalPc)
    ensures RunsRight(k, s.arrivals, s.arrivalPc[t := Consumed])
    ensures RunningProvided(k, s.arrivals, s.arrivalPc[t := Consumed])
    ensures Futures(s.callers, s.callerPc, s.arrivals, s.arrivalPc[t := Consumed], s.callFutures, s.channels)
    ensures NothingLeft(s.callers, s.callerPc, s.taskPc, s.arrivals, s.arrivalPc[t := Consumed])
  {
    hide Provided;
  }

  lemma GetReply(k: Known, s: State, c: CallId, t: nat)
    requires k.callers == s.callers && c in s.callers && c in s.callerPc
    requires Replies(k, s.taskPc, s.arrivals) && CallersRight(k, s.callerPc)
    requires t in s.arrivals && Own(s.callers, s.arrivals[t]) && s.arrivals[t].reply.callId == c
    requires t in s.arrivalPc && s.arrivalPc[t] == Consumed
    requires NothingLeft(s.callers, s.callerPc, s.taskPc, s.arrivals, s.arrivalPc)
    requires Futures(s.callers, s.callerPc, s.arrivals, s.arrivalPc, s.callFutures, s.channels)
    ensures CallersRight(k, s.callerPc[c := Got(s.arrivals[t].reply)])
    ensures NothingLeft(s.callers, s.callerPc[c := Got(s.arrivals[t].reply)], s.taskPc, s.arrivals, s.arrivalPc)
    ensures Futures(s.callers, s.callerPc[c := Got(s.arrivals[t].reply)], s.arrivals, s.arrivalPc,
                    s.callFutures, s.channels)
  {
    hide ReplyOk, OutcomeOk;
  }

  lemma KeepHandReply(s: State, c: CallId, t: nat)
    requires Inv(s) && ClientEnabled(s, HandReply(c, t))
    ensures Inv(ClientDo(s, HandReply(c, t)))
  {
    hide Origins, CancelsSent, PcKinds, CancelMap, CtxDone, StreamsKnown, OneStream, Carried, Waiters,
      Announced, RunsRight, HandlersProvided, RunningProvided, ResponsesRight, HandingRight, ComesBack, Offers,
      ClosedEarly, Answers, Replies, NothingLeft, Futures, CallersRight;
    Open(s);
    FutureMatches(s, c, t);
    ConsumeArrival(KnownOf(s), s, t);
    GetReply(KnownOf(s), s.(arrivalPc := s.arrivalPc[t := Consumed]), c, t);
    Shut(ClientDo(s, HandReply(c, t)));
  }

  lemma OutcomeRight(k: Known, c: CallId, reply: Reply, ctxWins: bool)
    requires ReplyOk(k, c, reply) && (ctxWins ==> c in k.ended) && k.cancelled <= k.ended
    ensures OutcomeOk(k, c, OutcomeOf(k.callers[c].op, reply, ctxWins))
    ensures OutcomeOf(k.callers[c].op, reply, ctxWins).Added? ==> k.callers[c].op.AddOp? && c in k.accepted
  {
    if reply.body.CallUnaryResponse? {
      assert Produced(k, c, reply.body.result) && Interpret(reply.body.result) == Interpret(reply.body.result);
    }
  }

  lemma DropFuture(s: State, c: CallId, o: Outcome)
    requires c in s.callers && c in s.callerPc && s.callerPc[c].Got?
    requires NothingLeft(s.callers, s.callerPc, s.taskPc, s.arrivals, s.arrivalPc)
    requires Futures(s.callers, s.callerPc, s.arrivals, s.arrivalPc, s.callFutures, s.channels)
    ensures Futures(s.callers, s.callerPc[c := Returned(o)], s.arrivals, s.arrivalPc,
                    s.callFutures - {(s.callers[c].conn, c)}, s.channels)
  {
  }

  lemma KeepReturned(s: State, c: CallId, o: Outcome)
    requires Inv(s) && c in s.callers && c in s.callerPc && s.callerPc[c].Got? && OutcomeOk(KnownOf(s), c, o)
    ensures Inv(s.(callerPc := s.callerPc[c := Returned(o)], callFutures := s.callFutures - {(s.callers[c].conn, c)}))
  {
    hide Origins, CancelsSent, PcKinds, CancelMap, CtxDone, StreamsKnown, OneStream, Carried, Waiters,
      Announced, RunsRight, HandlersProvided, RunningProvided, ResponsesRight, HandingRight, ComesBack, Offers,
      ClosedEarly, Answers, Replies, NothingLeft, Futures, CallersRight, ReplyOk, OutcomeOk,
      OutcomeOf, Provided;
    Open(s);
    SetCaller(KnownOf(s), s, c, Returned(o));
    DropFuture(s, c, o);
    Shut(s.(callerPc := s.callerPc[c := Returned(o)], callFutures := s.callFutures - {(s.callers[c].conn, c)}));
  }

  lemma KeepProvided(s: State, c: CallId)
    requires Inv(s) && c in s.callers && s.callers[c].op.AddOp? && c in s.accepted
    ensures Inv(s.(unaryHandlers :=
                  s.unaryHandlers[(s.callers[c].conn, s.callers[c].op.proto) := s.callers[c].op.handler]))
  {
    hide Origins, CancelsSent, PcKinds, CancelMap, CtxDone, StreamsKnown, OneStream, Carried, Waiters,
      Announced, RunsRight, HandlersProvided, RunningProvided, ResponsesRight, HandingRight, ComesBack, Offers,
      ClosedEarly, Answers, Replies, NothingLeft, Futures, CallersRight;
    Open(s);
    ProvideHandler(KnownOf(s), s, c);
    Shut(s.(unaryHandlers := s.unaryHandlers[(s.callers[c].conn, s.callers[c].op.proto) := s.callers[c].op.handler]));
  }

  lemma KeepReturn(s: State, c: CallId, ctxWins: bool)
    requires Inv(s) && ClientEnabled(s, Return(c, ctxWins))
    ensures Inv(ClientDo(s, Return(c, ctxWins)))
  {
    hide Origins, CancelsSent, PcKinds, CancelMap, CtxDone, StreamsKnown, OneStream, Carried, Waiters,
      Announced, RunsRight, HandlersProvided, RunningProvided, ResponsesRight, HandingRight, ComesBack, Offers,
      ClosedEarly, Answers, Replies, NothingLeft, Futures, CallersRight, ReplyOk, OutcomeOk,
      OutcomeOf, Provided;
    Open(s);
    var k, o := KnownOf(s), OutcomeOf(s.callers[c].op, s.callerPc[c].reply, ctxWins);
    GotRight(k, s, c);
    OutcomeRight(k, c, s.callerPc[c].reply, ctxWins);
    KeepReturned(s, c, o);
    hide Inv;
    if o.Added? {
      KeepProvided(s.(callerPc := s.callerPc[c := Returned(o)],
                      callFutures := s.callFutures - {(s.callers[c].conn, c)}), c);
    }
  }

  lemma GotRight(k: Known, s: State, c: CallId)
    requires CallersRight(k, s.callerPc) && c in k.callers && c in s.callerPc && s.callerPc[c].Got?
    ensures ReplyOk(k, c, s.callerPc[c].reply)
  {
  }

  lemma ProvideHandler(k: Known, s: State, c: CallId)
    requires HandlersProvided(k, s.unaryHandlers)
    requires c in k.callers && k.callers[c].op.AddOp? && c in k.accepted
    ensures HandlersProvided(k, s.unaryHandlers[(k.callers[c].conn, k.callers[c].op.proto) := k.callers[c].op.handler])
  {
    assert Provided(k, k.callers[c].conn, k.callers[c].op.proto, k.callers[c].op.handler);
    hide Provided;
  }

  lemma KeepRouteReply(s: State, t: nat, ch: nat)
    requires Inv(s) && ClientEnabled(s, RouteReply(t, ch))
    ensures Inv(ClientDo(s, RouteReply(t, ch)))
  {
    hide Origins, CancelsSent, PcKinds, CancelMap, CtxDone, StreamsKnown, OneStream, Carried, Waiters,
      Announced, RunsRight, HandlersProvided, RunningProvided, ResponsesRight, HandingRight, ComesBack, Offers,
      ClosedEarly, Answers, Replies, NothingLeft, Futures, CallersRight;
    Open(s);
    var key := (s.arrivals[t].conn, s.arrivals[t].reply.callId);
    NotReturned(s, t);
    StoreFuture(s, key, ch);
    HoldFuture(KnownOf(s),
               s.(callFutures := s.callFutures[key := FutureAt(s, key, ch)], channels := s.channels + {ch}), t);
    Shut(ClientDo(s, RouteReply(t, ch)));
  }

  lemma NotReturned(s: State, t: nat)
    requires NothingLeft(s.callers, s.callerPc, s.taskPc, s.arrivals, s.arrivalPc)
    requires t in s.arrivals && t in s.arrivalPc && s.arrivalPc[t] == New
    requires !s.arrivals[t].reply.body.RequestHandling?
    ensures var c := s.arrivals[t].reply.callId;
      c in s.callers && s.callers[c].conn == s.arrivals[t].conn && c in s.callerPc ==> !s.callerPc[c].Returned?
  {
    if s.arrivals[t].reply.callId in s.callers && s.callers[s.arrivals[t].reply.callId].conn == s.arrivals[t].conn {
      assert Own(s.callers, s.arrivals[t]);
    }
  }

  lemma HoldFuture(k: Known, s: State, t: nat)
    requires Futures(s.callers, s.callerPc, s.arrivals, s.arrivalPc, s.callFutures, s.channels)
    requires t in s.arrivals && t in s.arrivalPc && s.arrivalPc[t] == New && !s.arrivals[t].reply.body.RequestHandling?
    requires (s.arrivals[t].conn, s.arrivals[t].reply.callId) in s.callFutures
    requires RunsRight(k, s.arrivals, s.arrivalPc) && RunningProvided(k, s.arrivals, s.arrivalPc)
    requires NothingLeft(s.callers, s.callerPc, s.taskPc, s.arrivals, s.arrivalPc)
    ensures var pcs := s.arrivalPc[t := Holding(s.callFutures[(s.arrivals[t].conn, s.arrivals[t].reply.callId)])];
      && Futures(s.callers, s.callerPc, s.arrivals, pcs, s.callFutures, s.channels)
      && RunsRight(k, s.arrivals, pcs) && RunningProvided(k, s.arrivals, pcs)
      && NothingLeft(s.callers, s.callerPc, s.taskPc, s.arrivals, pcs)
  {
    hide Provided;
  }

  lemma StoredProvided(k: Known, s: State, key: (Conn, Proto))
    requires HandlersProvided(k, s.unaryHandlers) && key in s.unaryHandlers
    ensures Provided(k, key.0, key.1, s.unaryHandlers[key])
  {
  }

  lemma RunHandler(k: Known, s: State, t: nat, h: nat)
    requires t in s.arrivals && t in s.arrivalPc && s.arrivalPc[t] == New && s.arrivals[t].reply.body.RequestHandling?
    requires Provided(k, s.arrivals[t].conn, s.arrivals[t].reply.body.proto, h)
    requires RunsRight(k, s.arrivals, s.arrivalPc) && RunningProvided(k, s.arrivals, s.arrivalPc)
    requires NothingLeft(s.callers, s.callerPc, s.taskPc, s.arrivals, s.arrivalPc)
    requires Futures(s.callers, s.callerPc, s.arrivals, s.arrivalPc, s.callFutures, s.channels)
    ensures RunsRight(k, s.arrivals, s.arrivalPc[t := Running(h)])
    ensures RunningProvided(k, s.arrivals, s.arrivalPc[t := Running(h)])
    ensures NothingLeft(s.callers, s.callerPc, s.taskPc, s.arrivals, s.arrivalPc[t := Running(h)])
    ensures Futures(s.callers, s.callerPc, s.arrivals, s.arrivalPc[t := Running(h)], s.callFutures, s.channels)
  {
    hide Provided;
  }

  lemma KeepStartHandler(s: State, t: nat)
    requires Inv(s) && ClientEnabled(s, StartHandler(t))
    ensures Inv(ClientDo(s, StartHandler(t)))
  {
    hide Origins, CancelsSent, PcKinds, CancelMap, CtxDone, StreamsKnown, OneStream, Carried, Waiters,
      Announced, RunsRight, HandlersProvided, RunningProvided, ResponsesRight, HandingRight, ComesBack, Offers,
      ClosedEarly, Answers, Replies, NothingLeft, Futures, CallersRight, Provided, Produced;
    Open(s);
    var key := (s.arrivals[t].conn, s.arrivals[t].reply.body.proto);
    StoredProvided(KnownOf(s), s, key);
    RunHandler(KnownOf(s), s, t, s.unaryHandlers[key]);
    Shut(ClientDo(s, StartHandler(t)));
  }

  lemma RecordGrows(k: Known, t: nat, run: Run)
    requires t !in k.runs
    ensures var k' := k.(runs := k.runs[t := run]); Grows(k, k') && Produced(k', run.callId, run.result)
  {
    assert t in k.(runs := k.runs[t := run]).runs;
  }

  lemma RecordRun(k: Known, s: State, t: nat, result: UnaryResult)
    requires k.runs == s.runs && t in s.arrivals && t in s.arrivalPc && s.arrivalPc[t].Running?
    requires RunsRight(k, s.arrivals, s.arrivalPc) && RunningProvided(k, s.arrivals, s.arrivalPc)
    requires s.arrivals[t].reply.body.RequestHandling?
    ensures var a := s.arrivals[t];
      var run := Run(a.conn, s.arrivalPc[t].handler, a.reply.callId, a.reply.body.proto, a.reply.body.data, result);
      var k' := k.(runs := k.runs[t := run]);
      Grows(k, k') && RunsRight(k', s.arrivals, s.arrivalPc[t := Consumed]) && Produced(k', a.reply.callId, result)
  {
    var a := s.arrivals[t];
    var run := Run(a.conn, s.arrivalPc[t].handler, a.reply.callId, a.reply.body.proto, a.reply.body.data, result);
    var k' := k.(runs := k.runs[t := run]);
    hide Grows, Provided, Produced;
    RecordGrows(k, t, run);
    forall u | u in k'.runs ensures Provided(k', k'.runs[u].conn, k'.runs[u].proto, k'.runs[u].handler) {
      ProvidedGrows(k, k', k'.runs[u].conn, k'.runs[u].proto, k'.runs[u].handler);
    }
  }

  function RunOf(s: State, t: nat, result: UnaryResult): Run
    requires t in s.arrivals && t in s.arrivalPc && s.arrivalPc[t].Running? && s.arrivals[t].reply.body.RequestHandling?
  {
    var a := s.arrivals[t];
    Run(a.conn, s.arrivalPc[t].handler, a.reply.callId, a.reply.body.proto, a.reply.body.data, result)
  }

  lemma KeepRecorded(s: State, t: nat, result: UnaryResult)
    requires Inv(s) && t in s.arrivals && t in s.arrivalPc && s.arrivalPc[t].Running?
    requires s.arrivals[t].reply.body.RequestHandling?
    ensures var s' := s.(runs := s.runs[t := RunOf(s, t, result)], arrivalPc := s.arrivalPc[t := Consumed]);
      Inv(s') && Produced(KnownOf(s'), s.arrivals[t].reply.callId, result)
  {
    hide Origins, CancelsSent, PcKinds, CancelMap, CtxDone, StreamsKnown, OneStream, Carried, Waiters,
      Announced, RunsRight, HandlersProvided, RunningProvided, ResponsesRight, HandingRight, ComesBack, Offers,
      ClosedEarly, Answers, Replies, NothingLeft, Futures, CallersRight, Provided, Produced;
    Open(s);
    var s' := s.(runs := s.runs[t := RunOf(s, t, result)], arrivalPc := s.arrivalPc[t := Consumed]);
    var k, k' := KnownOf(s), KnownOf(s');
    RecordRun(k, s, t, result);
    GrowFacts(k, k', s);
    ConsumeArrival(k, s, t);
    ConsumeRunning(k', s, t);
    Shut(s');
  }

  lemma KeepFinishHandler(s: State, t: nat, result: UnaryResult, g: nat)
    requires Inv(s) && ClientEnabled(s, FinishHandler(t, result, g))
    ensures Inv(ClientDo(s, FinishHandler(t, result, g)))
  {
    hide Inv, Produced;
    KeepRecorded(s, t, result);
    var a := s.arrivals[t];
    KeepNewTask(s.(runs := s.runs[t := RunOf(s, t, result)], arrivalPc := s.arrivalPc[t := Consumed]), g,
      Task(a.conn, Request(a.reply.callId, UnaryResponse(result)), t));
  }

  lemma ConsumeRunning(k: Known, s: State, t: nat)
    requires RunningProvided(k, s.arrivals, s.arrivalPc)
    ensures RunningProvided(k, s.arrivals, s.arrivalPc[t := Consumed])
  {
    hide Provided;
  }

  lemma KeepClient(s: State, l: ClientLabel)
    requires Inv(s) && ClientEnabled(s, l)
    ensures Inv(ClientDo(s, l))
  {
    hide Inv;
    match l
    case IssueCall(c, conn, peer, proto, data, g) => KeepIssue(s, c, conn, CallOp(peer, proto, data), g);
    case IssueAdd(c, conn, proto, handler, g) =>
      var s1 := RegistryDo(s, conn.peer, Registry.Receive(conn.num, g, proto));
      KeepRegistries(s, s1.registries);
      KeepIssue(s1, c, conn, AddOp(proto, handler), g);
    case EndContext(c) => KeepEnded(s, c);
    case SendCancel(c, g) => KeepSendCancel(s, c, g);
    case AwaitFuture(c, ch) => KeepAwaitFuture(s, c, ch);
    case HandReply(c, t) => KeepHandReply(s, c, t);
    case Return(c, ctxWins) => KeepReturn(s, c, ctxWins);
    case RouteReply(t, ch) => KeepRouteReply(s, t, ch);
    case StartHandler(t) => KeepStartHandler(s, t);
    case FinishHandler(t, result, g) => KeepFinishHandler(s, t, result, g);
  }

  // ---------------------------------------------------------------------------
  // Steps of a daemon
  // ---------------------------------------------------------------------------

  /** What a move that neither opens a stream nor enters or leaves service keeps. */
  lemma Move(k: Known, s: State, g: nat, pc: TaskPc)
    requires Moves(s, g, pc) && !pc.Exchanging? && !pc.Listing? && !pc.Answering? && !pc.Handing?
    requires PcKinds(s.tasks, s.taskPc) && CtxDone(s.tasks, s.taskPc, s.cancelled, s.ctxDone)
    requires OneStream(s.taskPc, s.streams) && ClosedEarly(s.taskPc, s.exchangePc, s.ctxDone)
    requires HandingRight(s.tasks, s.taskPc, s.toCallee) && Answers(k, s.tasks, s.taskPc)
    requires Replies(k, s.taskPc, s.arrivals) && NothingLeft(s.callers, s.callerPc, s.taskPc, s.arrivals, s.arrivalPc)
    ensures PcKinds(s.tasks, s.taskPc[g := pc]) && CtxDone(s.tasks, s.taskPc[g := pc], s.cancelled, s.ctxDone)
    ensures OneStream(s.taskPc[g := pc], s.streams) && ClosedEarly(s.taskPc[g := pc], s.exchangePc, s.ctxDone)
    ensures HandingRight(s.tasks, s.taskPc[g := pc], s.toCallee) && Answers(k, s.tasks, s.taskPc[g := pc])
    ensures Replies(k, s.taskPc[g := pc], s.arrivals)
    ensures NothingLeft(s.callers, s.callerPc, s.taskPc[g := pc], s.arrivals, s.arrivalPc)
  {
    hide Origins, CancelsSent, PcKinds, CancelMap, CtxDone, StreamsKnown, OneStream, Carried, Waiters,
      Announced, RunsRight, HandlersProvided, RunningProvided, ResponsesRight, HandingRight, ComesBack, Offers,
      ClosedEarly, Answers, Replies, NothingLeft, Futures, CallersRight;
    MoveKinds(s, g, pc);
    MoveStreams(s, g, pc);
    MoveHanding(s, g, pc);
    MoveAnswers(k, s, g, pc);
    MoveReplies(k, s, g, pc);
  }

  lemma ServeCallMap(s: State, g: nat)
    requires Origins(s.callers, s.tasks) && CancelMap(s.tasks, s.taskPc, s.cancelUnary)
    requires DaemonEnabled(s, ServeCall(g))
    ensures CancelMap(s.tasks, s.taskPc[g := Calling], s.cancelUnary[CallKey(s, g) := g])
  {
  }

  lemma KeepServeCall(s: State, g: nat)
    requires Inv(s) && DaemonEnabled(s, ServeCall(g))
    ensures Inv(DaemonDo(s, ServeCall(g)))
  {
    hide Origins, CancelsSent, PcKinds, CancelMap, CtxDone, StreamsKnown, OneStream, Carried, Waiters,
      Announced, RunsRight, HandlersProvided, RunningProvided, ResponsesRight, HandingRight, ComesBack, Offers,
      ClosedEarly, Answers, Replies, NothingLeft, Futures, CallersRight;
    Open(s);
    ServeCallMap(s, g);
    Move(KnownOf(s), s, g, Calling);
    Shut(DaemonDo(s, ServeCall(g)));
  }

  /** A move to `Listing` or `Answering` with a proper response. */
  lemma KeepAnswer(s: State, g: nat, pc: TaskPc)
    requires Inv(s) && Moves(s, g, pc) && (pc.Listing? || pc.Answering?)
    requires s.tasks[g].req.body.CallUnary? ==> InService(s.taskPc[g])
    requires AnswerRight(KnownOf(s), s.tasks[g].req.callId, pc)
    ensures Inv(s.(taskPc := s.taskPc[g := pc]))
  {
    hide Origins, CancelsSent, PcKinds, CancelMap, CtxDone, StreamsKnown, OneStream, Carried, Waiters,
      Announced, RunsRight, HandlersProvided, RunningProvided, ResponsesRight, HandingRight, ComesBack, Offers,
      ClosedEarly, Answers, Replies, NothingLeft, Futures, CallersRight, ReplyOk, OutcomeOk,
      OutcomeOf, AnswerRight, Provided;
    Open(s);
    MoveKinds(s, g, pc);
    MoveStreams(s, g, pc);
    MoveHanding(s, g, pc);
    MoveAnswers(KnownOf(s), s, g, pc);
    MoveReplies(KnownOf(s), s, g, pc);
    MoveInService(s, g, pc);
    Shut(s.(taskPc := s.taskPc[g := pc]));
  }

  lemma OriginOf(s: State, g: nat)
    requires Origins(s.callers, s.tasks) && g in s.tasks && IsOrigin(s.tasks[g].req.body)
    ensures s.tasks[g].req.callId in s.callers
    ensures s.tasks[g].req.body == BodyOf(s.callers[s.tasks[g].req.callId].op)
    ensures s.callers[s.tasks[g].req.callId].task == g && s.callers[s.tasks[g].req.callId].conn == s.tasks[g].conn
  {
  }

  lemma KindOf(s: State, g: nat)
    requires PcKinds(s.tasks, s.taskPc) && g in s.tasks && g in s.taskPc
    ensures s.taskPc[g].Calling? || s.taskPc[g].Exchanging? || s.taskPc[g].Answered? ==> s.tasks[g].req.body.CallUnary?
    ensures s.taskPc[g].Answering? ==> IsOrigin(s.tasks[g].req.body)
  {
  }

  lemma FailedOk(s: State, g: nat, message: seq<byte>)
    requires Origins(s.callers, s.tasks) && g in s.tasks && IsOrigin(s.tasks[g].req.body)
    ensures ReplyOk(KnownOf(s), s.tasks[g].req.callId, Failed(s, g, message))
  {
  }

  lemma KeepNoStream(s: State, g: nat, message: seq<byte>)
    requires Inv(s) && DaemonEnabled(s, NoStream(g, message))
    ensures Inv(DaemonDo(s, NoStream(g, message)))
  {
    hide Origins, CancelsSent, PcKinds, CancelMap, CtxDone, StreamsKnown, OneStream, Carried, Waiters,
      Announced, RunsRight, HandlersProvided, RunningProvided, ResponsesRight, HandingRight, ComesBack, Offers,
      ClosedEarly, Answers, Replies, NothingLeft, Futures, CallersRight, ReplyOk, OutcomeOk,
      OutcomeOf, Provided;
    Open(s);
    KindOf(s, g);
    FailedOk(s, g, message);
    KeepAnswer(s, g, Answering(Some(Failed(s, g, message))));
  }

  lemma NewStream(s: State, g: nat, sid: nat, owner: Conn)
    requires g in s.tasks && g in s.taskPc && s.taskPc[g] == Calling && sid !in s.streams
    requires s.tasks[g].req.body.CallUnary? && owner.peer == s.tasks[g].req.body.peer != s.tasks[g].conn.peer
    requires StreamsKnown(s.tasks, s.streams) && OneStream(s.taskPc, s.streams)
    ensures StreamsKnown(s.tasks, s.streams[sid := Stream(g, owner)])
    ensures OneStream(s.taskPc[g := Exchanging(sid)], s.streams[sid := Stream(g, owner)])
  {
  }

  lemma NewStreamEnds(k: Known, s: State, sid: nat, st: Stream)
    requires sid !in s.streams && sid !in s.toCallee && sid !in s.toCaller && sid !in s.handlerPc
    requires Carried(s.tasks, s.streams, s.toCallee)
    requires Waiters(s.streams, s.handlerPc, s.toCallee, s.responseWaiters)
    requires Announced(s.tasks, s.streams, s.handlerPc, s.arrivals)
    requires ComesBack(k, s.handlerPc, s.toCallee, s.toCaller)
    ensures var streams, pcs := s.streams[sid := st], s.handlerPc[sid := Accepting];
      && Carried(s.tasks, streams, s.toCallee) && Waiters(streams, pcs, s.toCallee, s.responseWaiters)
      && Announced(s.tasks, streams, pcs, s.arrivals) && ComesBack(k, pcs, s.toCallee, s.toCaller)
  {
    hide Produced;
  }

  lemma NewStreamExchange(k: Known, s: State, g: nat, sid: nat, st: Stream)
    requires sid !in s.streams && sid !in s.exchangePc
    requires Offers(k, s.tasks, s.streams, s.exchangePc)
    requires OneStream(s.taskPc, s.streams) && ClosedEarly(s.taskPc, s.exchangePc, s.ctxDone)
    ensures Offers(k, s.tasks, s.streams[sid := st], s.exchangePc[sid := Writing])
    ensures ClosedEarly(s.taskPc[g := Exchanging(sid)], s.exchangePc[sid := Writing], s.ctxDone)
  {
    hide ReplyOk;
  }

  lemma KeepOpenStream(s: State, g: nat, sid: nat)
    requires Inv(s) && DaemonEnabled(s, OpenStream(g, sid))
    ensures Inv(DaemonDo(s, OpenStream(g, sid)))
  {
    hide Origins, CancelsSent, PcKinds, CancelMap, CtxDone, StreamsKnown, OneStream, Carried, Waiters,
      Announced, RunsRight, HandlersProvided, RunningProvided, ResponsesRight, HandingRight, ComesBack, Offers,
      ClosedEarly, Answers, Replies, NothingLeft, Futures, CallersRight;
    Open(s);
    var body, k := s.tasks[g].req.body, KnownOf(s);
    var owner := Conn(body.peer, RegistryAt(s, body.peer).handlers.owner[body.proto]);
    NewStream(s, g, sid, owner);
    NewStreamEnds(k, s, sid, Stream(g, owner));
    NewStreamExchange(k, s, g, sid, Stream(g, owner));
    MoveKinds(s, g, Exchanging(sid));
    MoveHanding(s, g, Exchanging(sid));
    MoveAnswers(k, s, g, Exchanging(sid));
    MoveReplies(k, s, g, Exchanging(sid));
    MoveInService(s, g, Exchanging(sid));
    Shut(DaemonDo(s, OpenStream(g, sid)));
  }

  lemma OfferOk(k: Known, s: State, g: nat)
    requires Offers(k, s.tasks, s.streams, s.exchangePc) && OneStream(s.taskPc, s.streams)
    requires DaemonEnabled(s, TakeReply(g))
    ensures ReplyOk(k, s.tasks[g].req.callId, s.exchangePc[s.taskPc[g].sid].reply)
  {
  }

  /** Closing the exchange of a task that no longer waits for it. */
  lemma CloseExchange(s: State, sid: nat)
    requires Inv(s) && sid in s.streams
    requires forall g :: g in s.taskPc && s.taskPc[g] == Exchanging(sid) ==> g in s.ctxDone
    ensures Inv(s.(exchangePc := s.exchangePc[sid := Closed]))
  {
    hide Origins, CancelsSent, PcKinds, CancelMap, CtxDone, StreamsKnown, OneStream, Carried, Waiters,
      Announced, RunsRight, HandlersProvided, RunningProvided, ResponsesRight, HandingRight, ComesBack, Offers,
      ClosedEarly, Answers, Replies, NothingLeft, Futures, CallersRight;
    Open(s);
    ClosedOk(KnownOf(s), s, sid);
    Shut(s.(exchangePc := s.exchangePc[sid := Closed]));
  }

  lemma ClosedOk(k: Known, s: State, sid: nat)
    requires Offers(k, s.tasks, s.streams, s.exchangePc) && ClosedEarly(s.taskPc, s.exchangePc, s.ctxDone)
    requires forall g :: g in s.taskPc && s.taskPc[g] == Exchanging(sid) ==> g in s.ctxDone
    ensures Offers(k, s.tasks, s.streams, s.exchangePc[sid := Closed])
    ensures ClosedEarly(s.taskPc, s.exchangePc[sid := Closed], s.ctxDone)
  {
    hide ReplyOk;
  }

  lemma StreamOf(s: State, g: nat)
    requires OneStream(s.taskPc, s.streams) && g in s.taskPc && s.taskPc[g].Exchanging?
    ensures s.taskPc[g].sid in s.streams
    ensures forall h :: h in s.taskPc && s.taskPc[h] == Exchanging(s.taskPc[g].sid) ==> h == g
  {
  }

  lemma KeepTakeReply(s: State, g: nat)
    requires Inv(s) && DaemonEnabled(s, TakeReply(g))
    ensures Inv(DaemonDo(s, TakeReply(g)))
  {
    hide Origins, CancelsSent, PcKinds, CancelMap, CtxDone, StreamsKnown, OneStream, Carried, Waiters,
      Announced, RunsRight, HandlersProvided, RunningProvided, ResponsesRight, HandingRight, ComesBack, Offers,
      ClosedEarly, Answers, Replies, NothingLeft, Futures, CallersRight, ReplyOk, OutcomeOk,
      OutcomeOf, Provided;
    Open(s);
    var sid := s.taskPc[g].sid;
    var r := Some(s.exchangePc[sid].reply);
    KindOf(s, g);
    OfferOk(KnownOf(s), s, g);
    StreamOf(s, g);
    KeepAnswer(s, g, Answering(r));
    hide Inv;
    CloseExchange(s.(taskPc := s.taskPc[g := Answering(r)]), sid);
  }

  /** While a call is in service, its context is done only if its client sent a Cancel. */
  lemma DoneMeansCancelled(s: State, g: nat)
    requires CtxDone(s.tasks, s.taskPc, s.cancelled, s.ctxDone)
    requires g in s.ctxDone && g in s.taskPc && s.taskPc[g] != Over
    ensures g in s.tasks && s.tasks[g].req.callId in s.cancelled
  {
  }

  lemma ClosedMeansDone(s: State, g: nat)
    requires ClosedEarly(s.taskPc, s.exchangePc, s.ctxDone) && DaemonEnabled(s, TakeNil(g))
    ensures g in s.ctxDone
  {
  }

  lemma KeepTakeNil(s: State, g: nat)
    requires Inv(s) && DaemonEnabled(s, TakeNil(g))
    ensures Inv(DaemonDo(s, TakeNil(g)))
  {
    hide Origins, CancelsSent, PcKinds, CancelMap, CtxDone, StreamsKnown, OneStream, Carried, Waiters,
      Announced, RunsRight, HandlersProvided, RunningProvided, ResponsesRight, HandingRight, ComesBack, Offers,
      ClosedEarly, Answers, Replies, NothingLeft, Futures, CallersRight, ReplyOk, OutcomeOk,
      OutcomeOf, Provided;
    Open(s);
    KindOf(s, g);
    ClosedMeansDone(s, g);
    DoneMeansCancelled(s, g);
    KeepAnswer(s, g, Answering(None));
  }

  lemma CancelledOk(k: Known, s: State, g: nat)
    requires k == KnownOf(s) && Origins(s.callers, s.tasks) && g in s.tasks && s.tasks[g].req.body.CallUnary?
    requires s.tasks[g].req.callId in s.cancelled
    ensures ReplyOk(k, s.tasks[g].req.callId, Reply(s.tasks[g].req.callId, Cancelled))
  {
    OriginOf(s, g);
  }

  lemma KeepTakeCancel(s: State, g: nat)
    requires Inv(s) && DaemonEnabled(s, TakeCancel(g))
    ensures Inv(DaemonDo(s, TakeCancel(g)))
  {
    hide Origins, CancelsSent, PcKinds, CancelMap, CtxDone, StreamsKnown, OneStream, Carried, Waiters,
      Announced, RunsRight, HandlersProvided, RunningProvided, ResponsesRight, HandingRight, ComesBack, Offers,
      ClosedEarly, Answers, Replies, NothingLeft, Futures, CallersRight, ReplyOk, OutcomeOk,
      OutcomeOf, Provided;
    Open(s);
    KindOf(s, g);
    DoneMeansCancelled(s, g);
    CancelledOk(KnownOf(s), s, g);
    KeepAnswer(s, g, Answering(Some(Reply(s.tasks[g].req.callId, Cancelled))));
  }

  lemma AnswerOk(k: Known, s: State, g: nat)
    requires Answers(k, s.tasks, s.taskPc) && g in s.tasks && g in s.taskPc && s.taskPc[g].Answering?
    ensures s.taskPc[g].reply.Some? ==> ReplyOk(k, s.tasks[g].req.callId, s.taskPc[g].reply.value)
  {
  }

  lemma NewReply(k: Known, s: State, g: nat, t: nat, reply: Reply, pc: TaskPc)
    requires k.callers == s.callers && t !in s.arrivals && HasAnswered(pc)
    requires g in s.taskPc && s.taskPc[g].Answering?
    requires ReplyOk(k, reply.callId, reply) && s.callers[reply.callId].task == g
    requires Replies(k, s.taskPc, s.arrivals)
    requires NothingLeft(s.callers, s.callerPc, s.taskPc, s.arrivals, s.arrivalPc)
    ensures Replies(k, s.taskPc[g := pc], s.arrivals[t := Arrival(s.callers[reply.callId].conn, reply, g)])
    ensures NothingLeft(s.callers, s.callerPc, s.taskPc[g := pc],
                        s.arrivals[t := Arrival(s.callers[reply.callId].conn, reply, g)],
                        s.arrivalPc[t := New])
  {
    assert !reply.body.RequestHandling?;
    hide ReplyOk;
  }

  lemma NotAnnounced(s: State, t: nat, a: Arrival)
    requires t !in s.arrivals && !a.reply.body.RequestHandling?
    requires Announced(s.tasks, s.streams, s.handlerPc, s.arrivals)
    ensures Announced(s.tasks, s.streams, s.handlerPc, s.arrivals[t := a])
  {
    hide AnnouncedBy;
  }

  lemma ReplyKind(k: Known, c: CallId, reply: Reply)
    requires ReplyOk(k, c, reply)
    ensures reply.callId == c && !reply.body.RequestHandling?
  {
  }

  lemma KeepReply(s: State, g: nat, t: nat, reply: Reply, pc: TaskPc)
    requires Inv(s) && g in s.tasks && g in s.taskPc && s.taskPc[g] == Answering(Some(reply)) && t !in s.arrivals
    requires pc == if s.tasks[g].req.body.CallUnary? then Answered else Over
    ensures Inv(s.(taskPc := s.taskPc[g := pc], arrivals := s.arrivals[t := Arrival(s.tasks[g].conn, reply, g)],
                   arrivalPc := s.arrivalPc[t := New]))
  {
    hide Origins, CancelsSent, PcKinds, CancelMap, CtxDone, StreamsKnown, OneStream, Carried, Waiters,
      Announced, RunsRight, HandlersProvided, RunningProvided, ResponsesRight, HandingRight, ComesBack, Offers,
      ClosedEarly, Answers, Replies, NothingLeft, Futures, CallersRight, ReplyOk, OutcomeOk,
      OutcomeOf, Provided;
    Open(s);
    var k := KnownOf(s);
    KindOf(s, g);
    Move(k, s, g, pc);
    MoveInService(s, g, pc);
    AnswerOk(k, s, g);
    OriginOf(s, g);
    ReplyKind(k, s.tasks[g].req.callId, reply);
    NewReply(k, s, g, t, reply, pc);
    NotAnnounced(s, t, Arrival(s.tasks[g].conn, reply, g));
    AddArrival(k, s, t, Arrival(s.tasks[g].conn, reply, g));
    Shut(s.(taskPc := s.taskPc[g := pc],
            arrivals := s.arrivals[t := Arrival(s.tasks[g].conn, reply, g)], arrivalPc := s.arrivalPc[t := New]));
  }

  lemma KeepWriteAnswer(s: State, g: nat, t: nat)
    requires Inv(s) && DaemonEnabled(s, WriteAnswer(g, t))
    ensures Inv(DaemonDo(s, WriteAnswer(g, t)))
  {
    hide Inv;
    KeepReply(s, g, t, s.taskPc[g].reply.value, if s.tasks[g].req.body.CallUnary? then Answered else Over);
  }

  lemma KeepNoReply(s: State, g: nat, pc: TaskPc)
    requires Inv(s) && g in s.tasks && g in s.taskPc && s.taskPc[g].Answering?
    requires pc == if s.tasks[g].req.body.CallUnary? then Answered else Over
    ensures Inv(s.(taskPc := s.taskPc[g := pc]))
  {
    hide Origins, CancelsSent, PcKinds, CancelMap, CtxDone, StreamsKnown, OneStream, Carried, Waiters,
      Announced, RunsRight, HandlersProvided, RunningProvided, ResponsesRight, HandingRight, ComesBack, Offers,
      ClosedEarly, Answers, Replies, NothingLeft, Futures, CallersRight, ReplyOk, OutcomeOk,
      OutcomeOf, Provided;
    Open(s);
    KindOf(s, g);
    Move(KnownOf(s), s, g, pc);
    MoveInService(s, g, pc);
    Shut(s.(taskPc := s.taskPc[g := pc]));
  }

  lemma KeepAnswerFails(s: State, g: nat)
    requires Inv(s) && DaemonEnabled(s, AnswerFails(g))
    ensures Inv(DaemonDo(s, AnswerFails(g)))
  {
    hide Inv;
    KeepNoReply(s, g, if s.tasks[g].req.body.CallUnary? then Answered else Over);
  }

  lemma LeaveService(s: State, g: nat)
    requires Origins(s.callers, s.tasks) && CancelMap(s.tasks, s.taskPc, s.cancelUnary)
    requires g in s.tasks && g in s.taskPc && s.tasks[g].req.body.CallUnary?
    ensures CancelMap(s.tasks, s.taskPc[g := Over], s.cancelUnary - {CallKey(s, g)})
  {
  }

  lemma MoreDone(s: State, g: nat)
    requires CtxDone(s.tasks, s.taskPc, s.cancelled, s.ctxDone) && ClosedEarly(s.taskPc, s.exchangePc, s.ctxDone)
    requires g in s.tasks && g in s.taskPc && s.tasks[g].req.body.CallUnary?
    requires s.taskPc[g] == Over || s.tasks[g].req.callId in s.cancelled
    ensures CtxDone(s.tasks, s.taskPc, s.cancelled, s.ctxDone + {g})
    ensures ClosedEarly(s.taskPc, s.exchangePc, s.ctxDone + {g})
  {
  }

  lemma KeepEndCall(s: State, g: nat)
    requires Inv(s) && DaemonEnabled(s, EndCall(g))
    ensures Inv(DaemonDo(s, EndCall(g)))
  {
    hide Origins, CancelsSent, PcKinds, CancelMap, CtxDone, StreamsKnown, OneStream, Carried, Waiters,
      Announced, RunsRight, HandlersProvided, RunningProvided, ResponsesRight, HandingRight, ComesBack, Offers,
      ClosedEarly, Answers, Replies, NothingLeft, Futures, CallersRight;
    Open(s);
    KindOf(s, g);
    LeaveService(s, g);
    Move(KnownOf(s), s, g, Over);
    MoreDone(s.(taskPc := s.taskPc[g := Over]), g);
    Shut(DaemonDo(s, EndCall(g)));
  }

  /** The cancel function a Cancel finds is that of the call it names. */
  lemma FoundCancel(s: State, g: nat)
    requires CancelMap(s.tasks, s.taskPc, s.cancelUnary) && CancelsSent(s.cancelled, s.tasks)
    requires g in s.tasks && s.tasks[g].req.body.CancelRequest? && CallKey(s, g) in s.cancelUnary
    ensures var h := s.cancelUnary[CallKey(s, g)];
      && h in s.tasks && h in s.taskPc && s.tasks[h].req.body.CallUnary?
      && s.tasks[h].req.callId == s.tasks[g].req.callId && s.tasks[h].req.callId in s.cancelled
  {
  }

  lemma KeepServed(s: State, g: nat)
    requires Inv(s) && TaskAt(s, g, Fresh) && !s.tasks[g].req.body.CallUnary?
    ensures Inv(s.(taskPc := s.taskPc[g := Over]))
  {
    hide Origins, CancelsSent, PcKinds, CancelMap, CtxDone, StreamsKnown, OneStream, Carried, Waiters,
      Announced, RunsRight, HandlersProvided, RunningProvided, ResponsesRight, HandingRight, ComesBack, Offers,
      ClosedEarly, Answers, Replies, NothingLeft, Futures, CallersRight;
    Open(s);
    Move(KnownOf(s), s, g, Over);
    MoveInService(s, g, Over);
    Shut(s.(taskPc := s.taskPc[g := Over]));
  }

  lemma KeepDone(s: State, g: nat)
    requires Inv(s) && g in s.tasks && s.tasks[g].req.body.CallUnary? && s.tasks[g].req.callId in s.cancelled
    ensures Inv(s.(ctxDone := s.ctxDone + {g}))
  {
    hide Origins, CancelsSent, PcKinds, CancelMap, CtxDone, StreamsKnown, OneStream, Carried, Waiters,
      Announced, RunsRight, HandlersProvided, RunningProvided, ResponsesRight, HandingRight, ComesBack, Offers,
      ClosedEarly, Answers, Replies, NothingLeft, Futures, CallersRight;
    Open(s);
    MoreDone(s, g);
    Shut(s.(ctxDone := s.ctxDone + {g}));
  }

  lemma CancelFinds(s: State, g: nat)
    requires Inv(s) && DaemonEnabled(s, ServeCancel(g)) && CallKey(s, g) in s.cancelUnary
    ensures var h := s.cancelUnary[CallKey(s, g)];
      && h in s.tasks && s.tasks[h].req.body.CallUnary?
      && s.tasks[h].req.callId == s.tasks[g].req.callId && s.tasks[h].req.callId in s.cancelled
  {
    hide Origins, CancelsSent, PcKinds, CancelMap, CtxDone, StreamsKnown, OneStream, Carried, Waiters,
      Announced, RunsRight, HandlersProvided, RunningProvided, ResponsesRight, HandingRight, ComesBack, Offers,
      ClosedEarly, Answers, Replies, NothingLeft, Futures, CallersRight;
    Open(s);
    FoundCancel(s, g);
  }

  lemma KeepServeCancel(s: State, g: nat)
    requires Inv(s) && DaemonEnabled(s, ServeCancel(g))
    ensures Inv(DaemonDo(s, ServeCancel(g)))
  {
    hide Inv;
    KeepServed(s, g);
    if CallKey(s, g) in s.cancelUnary {
      CancelFinds(s, g);
      KeepDone(s.(taskPc := s.taskPc[g := Over]), s.cancelUnary[CallKey(s, g)]);
    }
  }

  lemma AcceptedOk(k: Known, s: State, g: nat)
    requires Origins(s.callers, s.tasks) && g in s.tasks && s.tasks[g].req.body.AddUnaryHandler?
    requires k.callers == s.callers && s.tasks[g].req.callId in k.accepted
    ensures ReplyOk(k, s.tasks[g].req.callId, Reply(s.tasks[g].req.callId, Done))
  {
    OriginOf(s, g);
  }

  /** What a daemon's connections do besides serving requests is seen by nothing here. */
  lemma KeepRegistries(s: State, registries: map<Peer, Registry.State>)
    requires Inv(s)
    ensures Inv(s.(registries := registries))
  {
    hide Origins, CancelsSent, PcKinds, CancelMap, CtxDone, StreamsKnown, OneStream, Carried, Waiters,
      Announced, RunsRight, HandlersProvided, RunningProvided, ResponsesRight, HandingRight, ComesBack, Offers,
      ClosedEarly, Answers, Replies, NothingLeft, Futures, CallersRight;
    Open(s);
    Shut(s.(registries := registries));
  }

  lemma KeepAccepted(s: State, c: CallId)
    requires Inv(s)
    ensures Inv(s.(accepted := s.accepted + {c}))
  {
    hide Origins, CancelsSent, PcKinds, CancelMap, CtxDone, StreamsKnown, OneStream, Carried, Waiters,
      Announced, RunsRight, HandlersProvided, RunningProvided, ResponsesRight, HandingRight, ComesBack, Offers,
      ClosedEarly, Answers, Replies, NothingLeft, Futures, CallersRight;
    Open(s);
    var k := KnownOf(s);
    var k' := k.(accepted := k.accepted + {c});
    assert Grows(k, k');
    GrowFacts(k, k', s);
    GrowRuns(k, k', s);
    Shut(s.(accepted := s.accepted + {c}));
  }

  lemma KeepRefused(s: State, g: nat, message: seq<byte>)
    requires Inv(s) && TaskAt(s, g, Fresh) && s.tasks[g].req.body.AddUnaryHandler?
    ensures Inv(s.(taskPc := s.taskPc[g := Listing(Failed(s, g, message))]))
  {
    hide ReplyOk;
    assert Origins(s.callers, s.tasks) by { Open(s); }
    FailedOk(s, g, message);
    KeepAnswer(s, g, Listing(Failed(s, g, message)));
  }

  lemma KeepTaken(s: State, g: nat)
    requires Inv(s) && TaskAt(s, g, Fresh) && s.tasks[g].req.body.AddUnaryHandler?
    requires s.tasks[g].req.callId in s.accepted
    ensures Inv(s.(taskPc := s.taskPc[g := Listing(Reply(s.tasks[g].req.callId, Done))]))
  {
    hide ReplyOk;
    assert Origins(s.callers, s.tasks) by { Open(s); }
    AcceptedOk(KnownOf(s), s, g);
    KeepAnswer(s, g, Listing(Reply(s.tasks[g].req.callId, Done)));
  }

  lemma KeepServeAdd(s: State, g: nat, message: seq<byte>)
    requires Inv(s) && DaemonEnabled(s, ServeAdd(g, message))
    ensures Inv(DaemonDo(s, ServeAdd(g, message)))
  {
    hide Inv, Registry.Do, Registry.Enabled;
    var peer, c := s.tasks[g].conn.peer, s.tasks[g].req.callId;
    var s1 := RegistryDo(s, peer, Registry.FirstSection(g));
    KeepRegistries(s, s1.registries);
    if Registry.Taken(RegistryAt(s, peer).handlers, s.tasks[g].req.body.proto) {
      KeepRefused(s1, g, message);
    } else {
      KeepAccepted(s1, c);
      KeepTaken(s1.(accepted := s1.accepted + {c}), g);
    }
  }

  lemma ListingOk(s: State, g: nat)
    requires Inv(s) && g in s.tasks && g in s.taskPc && s.taskPc[g].Listing?
    ensures s.tasks[g].req.body.AddUnaryHandler? && ReplyOk(KnownOf(s), s.tasks[g].req.callId, s.taskPc[g].res)
  {
    hide ReplyOk;
    assert PcKinds(s.tasks, s.taskPc) by { Open(s); }
    assert Answers(KnownOf(s), s.tasks, s.taskPc) by { Open(s); }
    assert AnswerRight(KnownOf(s), s.tasks[g].req.callId, s.taskPc[g]);
  }

  lemma KeepListAdd(s: State, g: nat)
    requires Inv(s) && DaemonEnabled(s, ListAdd(g))
    ensures Inv(DaemonDo(s, ListAdd(g)))
  {
    hide Inv, ReplyOk, Registry.Do, Registry.Enabled;
    ListingOk(s, g);
    KeepAnswer(s, g, Answering(Some(s.taskPc[g].res)));
    KeepRegistries(s.(taskPc := s.taskPc[g := Answering(Some(s.taskPc[g].res))]),
      RegistryDo(s, s.tasks[g].conn.peer, Registry.SecondSection(g)).registries);
  }

  lemma WaiterFound(s: State, g: nat)
    requires Waiters(s.streams, s.handlerPc, s.toCallee, s.responseWaiters)
    requires g in s.tasks && CallKey(s, g) in s.responseWaiters
    ensures var sid := s.responseWaiters[CallKey(s, g)];
      sid in s.toCallee && s.toCallee[sid].callId == s.tasks[g].req.callId
  {
  }

  lemma KeepServeResponse(s: State, g: nat)
    requires Inv(s) && DaemonEnabled(s, ServeResponse(g))
    ensures Inv(DaemonDo(s, ServeResponse(g)))
  {
    hide Origins, CancelsSent, PcKinds, CancelMap, CtxDone, StreamsKnown, OneStream, Carried, Waiters,
      Announced, RunsRight, HandlersProvided, RunningProvided, ResponsesRight, HandingRight, ComesBack, Offers,
      ClosedEarly, Answers, Replies, NothingLeft, Futures, CallersRight;
    Open(s);
    var k := KnownOf(s);
    if CallKey(s, g) in s.responseWaiters {
      var pc := Handing(s.responseWaiters[CallKey(s, g)]);
      WaiterFound(s, g);
      MoveKinds(s, g, pc);
      MoveStreams(s, g, pc);
      MoveHanding(s, g, pc);
      MoveAnswers(k, s, g, pc);
      MoveReplies(k, s, g, pc);
      MoveInService(s, g, pc);
      Shut(DaemonDo(s, ServeResponse(g)));
    } else {
      KeepServed(s, g);
    }
  }

  lemma HandedRight(k: Known, s: State, g: nat)
    requires HandingRight(s.tasks, s.taskPc, s.toCallee) && ResponsesRight(k, s.tasks)
    requires g in s.tasks && g in s.taskPc && s.taskPc[g].Handing?
    ensures s.tasks[g].req.body.UnaryResponse?
    ensures s.taskPc[g].sid in s.toCallee && ResponseTo(k, s.toCallee[s.taskPc[g].sid].callId, s.tasks[g].req)
  {
  }

  /** The handler's counter moves on; a waiting one stays under its key. */
  lemma MoveHandler(k: Known, s: State, sid: nat, pc: HandlerPc)
    requires sid in s.streams && sid in s.handlerPc
    requires !pc.Accepting? && !pc.Stored? && (IsWaiting(s.handlerPc[sid]) ==> IsWaiting(pc)) && sid in s.toCallee
    requires pc.Took? ==> ResponseTo(k, s.toCallee[sid].callId, pc.req)
    requires Waiters(s.streams, s.handlerPc, s.toCallee, s.responseWaiters)
    requires Announced(s.tasks, s.streams, s.handlerPc, s.arrivals)
    requires ComesBack(k, s.handlerPc, s.toCallee, s.toCaller)
    ensures Waiters(s.streams, s.handlerPc[sid := pc], s.toCallee, s.responseWaiters)
    ensures Announced(s.tasks, s.streams, s.handlerPc[sid := pc], s.arrivals)
    ensures ComesBack(k, s.handlerPc[sid := pc], s.toCallee, s.toCaller)
  {
    hide ResponseTo, AnnouncedBy;
  }

  lemma KeepHandResponse(s: State, g: nat)
    requires Inv(s) && DaemonEnabled(s, HandResponse(g))
    ensures Inv(DaemonDo(s, HandResponse(g)))
  {
    hide Origins, CancelsSent, PcKinds, CancelMap, CtxDone, StreamsKnown, OneStream, Carried, Waiters,
      Announced, RunsRight, HandlersProvided, RunningProvided, ResponsesRight, HandingRight, ComesBack, Offers,
      ClosedEarly, Answers, Replies, NothingLeft, Futures, CallersRight, ResponseTo,
      AnnouncedBy, ReplyOk;
    Open(s);
    var k := KnownOf(s);
    Move(k, s, g, Over);
    HandedRight(k, s, g);
    MoveInService(s, g, Over);
    MoveHandler(k, s, s.taskPc[g].sid, Took(s.tasks[g].req));
    Shut(DaemonDo(s, HandResponse(g)));
  }

  lemma KeepDaemon(s: State, l: DaemonLabel)
    requires Inv(s) && DaemonEnabled(s, l)
    ensures Inv(DaemonDo(s, l))
  {
    hide Inv;
    match l
    case ServeCall(g) => KeepServeCall(s, g);
    case NoStream(g, message) => KeepNoStream(s, g, message);
    case OpenStream(g, sid) => KeepOpenStream(s, g, sid);
    case TakeReply(g) => KeepTakeReply(s, g);
    case TakeNil(g) => KeepTakeNil(s, g);
    case TakeCancel(g) => KeepTakeCancel(s, g);
    case WriteAnswer(g, t) => KeepWriteAnswer(s, g, t);
    case AnswerFails(g) => KeepAnswerFails(s, g);
    case EndCall(g) => KeepEndCall(s, g);
    case ServeCancel(g) => KeepServeCancel(s, g);
    case ServeAdd(g, message) => KeepServeAdd(s, g, message);
    case ServeResponse(g) => KeepServeResponse(s, g);
    case HandResponse(g) => KeepHandResponse(s, g);
    case ListAdd(g) => KeepListAdd(s, g);
    case Connection(peer, step) => KeepRegistries(s, DaemonDo(s, l).registries);
  }

  // ---------------------------------------------------------------------------
  // Steps on a stream
  // ---------------------------------------------------------------------------

  lemma SetExchange(k: Known, s: State, sid: nat, pc: ExchangePc)
    requires sid in s.streams && s.streams[sid].task in s.tasks
    requires Offers(k, s.tasks, s.streams, s.exchangePc) && ClosedEarly(s.taskPc, s.exchangePc, s.ctxDone)
    requires OneStream(s.taskPc, s.streams)
    requires pc.Offering? ==> ReplyOk(k, s.tasks[s.streams[sid].task].req.callId, pc.reply)
    requires pc.Closed? ==> s.streams[sid].task in s.ctxDone
    ensures Offers(k, s.tasks, s.streams, s.exchangePc[sid := pc])
    ensures ClosedEarly(s.taskPc, s.exchangePc[sid := pc], s.ctxDone)
  {
    hide ReplyOk;
  }

  lemma SendRequest(k: Known, s: State, sid: nat)
    requires StreamAt(s, sid) && Carried(s.tasks, s.streams, s.toCallee)
    requires Waiters(s.streams, s.handlerPc, s.toCallee, s.responseWaiters)
    requires HandingRight(s.tasks, s.taskPc, s.toCallee) && ComesBack(k, s.handlerPc, s.toCallee, s.toCaller)
    ensures var carried := s.toCallee[sid := s.tasks[s.streams[sid].task].req];
      && Carried(s.tasks, s.streams, carried) && Waiters(s.streams, s.handlerPc, carried, s.responseWaiters)
      && HandingRight(s.tasks, s.taskPc, carried) && ComesBack(k, s.handlerPc, carried, s.toCaller)
  {
    hide ResponseTo;
  }

  lemma StreamTask(s: State, sid: nat)
    requires StreamsKnown(s.tasks, s.streams) && sid in s.streams
    ensures s.streams[sid].task in s.tasks && s.tasks[s.streams[sid].task].req.body.CallUnary?
    ensures s.streams[sid].owner.peer == s.tasks[s.streams[sid].task].req.body.peer
    ensures s.streams[sid].owner.peer != s.tasks[s.streams[sid].task].conn.peer
  {
  }

  lemma KeepSent(s: State, sid: nat)
    requires Inv(s) && StreamAt(s, sid)
    ensures Inv(s.(toCallee := s.toCallee[sid := s.tasks[s.streams[sid].task].req]))
  {
    hide Origins, CancelsSent, PcKinds, CancelMap, CtxDone, StreamsKnown, OneStream, Carried, Waiters,
      Announced, RunsRight, HandlersProvided, RunningProvided, ResponsesRight, HandingRight, ComesBack, Offers,
      ClosedEarly, Answers, Replies, NothingLeft, Futures, CallersRight;
    Open(s);
    SendRequest(KnownOf(s), s, sid);
    Shut(s.(toCallee := s.toCallee[sid := s.tasks[s.streams[sid].task].req]));
  }

  lemma KeepExchange(s: State, sid: nat, pc: ExchangePc)
    requires Inv(s) && StreamAt(s, sid)
    requires pc.Offering? ==> ReplyOk(KnownOf(s), s.tasks[s.streams[sid].task].req.callId, pc.reply)
    requires pc.Closed? ==> s.streams[sid].task in s.ctxDone
    ensures Inv(s.(exchangePc := s.exchangePc[sid := pc]))
  {
    hide Origins, CancelsSent, PcKinds, CancelMap, CtxDone, StreamsKnown, OneStream, Carried, Waiters,
      Announced, RunsRight, HandlersProvided, RunningProvided, ResponsesRight, HandingRight, ComesBack, Offers,
      ClosedEarly, Answers, Replies, NothingLeft, Futures, CallersRight, ReplyOk, OutcomeOk,
      OutcomeOf, Provided;
    Open(s);
    SetExchange(KnownOf(s), s, sid, pc);
    Shut(s.(exchangePc := s.exchangePc[sid := pc]));
  }

  lemma StreamFailedOk(s: State, sid: nat, message: seq<byte>)
    requires Inv(s) && StreamAt(s, sid)
    ensures ReplyOk(KnownOf(s), s.tasks[s.streams[sid].task].req.callId, Failed(s, s.streams[sid].task, message))
  {
    hide Origins, CancelsSent, PcKinds, CancelMap, CtxDone, StreamsKnown, OneStream, Carried, Waiters,
      Announced, RunsRight, HandlersProvided, RunningProvided, ResponsesRight, HandingRight, ComesBack, Offers,
      ClosedEarly, Answers, Replies, NothingLeft, Futures, CallersRight, ReplyOk, OutcomeOk,
      OutcomeOf, Provided;
    Open(s);
    StreamTask(s, sid);
    FailedOk(s, s.streams[sid].task, message);
  }

  lemma KeepWriteRequest(s: State, sid: nat, ok: bool, message: seq<byte>)
    requires Inv(s) && StreamEnabled(s, WriteRequest(sid, ok, message))
    ensures Inv(StreamDo(s, WriteRequest(sid, ok, message)))
  {
    hide Inv, ReplyOk;
    var g := s.streams[sid].task;
    var pc := if g in s.ctxDone then Closed else if ok then Reading else Offering(Failed(s, g, message));
    StreamFailedOk(s, sid, message);
    KeepExchange(s, sid, pc);
    if ok { KeepSent(s.(exchangePc := s.exchangePc[sid := pc]), sid); }
  }

  lemma RelayedOk(k: Known, s: State, sid: nat)
    requires k == KnownOf(s) && Origins(s.callers, s.tasks) && StreamsKnown(s.tasks, s.streams)
    requires ComesBack(k, s.handlerPc, s.toCallee, s.toCaller) && Carried(s.tasks, s.streams, s.toCallee)
    requires StreamAt(s, sid) && sid in s.toCaller
    ensures var c := s.tasks[s.streams[sid].task].req.callId; ReplyOk(k, c, Reply(c, Relayed(s.toCaller[sid])))
  {
    StreamTask(s, sid);
    OriginOf(s, s.streams[sid].task);
    assert ResponseTo(k, s.toCallee[sid].callId, s.toCaller[sid]);
  }

  lemma StreamRelayedOk(s: State, sid: nat)
    requires Inv(s) && StreamAt(s, sid) && sid in s.toCaller
    ensures var c := s.tasks[s.streams[sid].task].req.callId;
      ReplyOk(KnownOf(s), c, Reply(c, Relayed(s.toCaller[sid])))
  {
    hide Origins, CancelsSent, PcKinds, CancelMap, CtxDone, StreamsKnown, OneStream, Carried, Waiters,
      Announced, RunsRight, HandlersProvided, RunningProvided, ResponsesRight, HandingRight, ComesBack, Offers,
      ClosedEarly, Answers, Replies, NothingLeft, Futures, CallersRight, ReplyOk, OutcomeOk,
      OutcomeOf, Provided;
    Open(s);
    RelayedOk(KnownOf(s), s, sid);
  }

  lemma KeepReadReply(s: State, sid: nat, ok: bool, message: seq<byte>)
    requires Inv(s) && StreamEnabled(s, ReadReply(sid, ok, message))
    ensures Inv(StreamDo(s, ReadReply(sid, ok, message)))
  {
    hide Inv, ReplyOk;
    var g := s.streams[sid].task;
    StreamFailedOk(s, sid, message);
    if ok { StreamRelayedOk(s, sid); }
    KeepExchange(s, sid,
      if g in s.ctxDone then Closed
      else if ok then Offering(Reply(s.tasks[g].req.callId, Relayed(s.toCaller[sid])))
      else Offering(Failed(s, g, message)));
  }

  lemma KeepGiveUp(s: State, sid: nat)
    requires Inv(s) && StreamEnabled(s, GiveUp(sid))
    ensures Inv(StreamDo(s, GiveUp(sid)))
  {
    hide Inv;
    KeepExchange(s, sid, Closed);
  }

  lemma StoreWaiter(k: Known, s: State, sid: nat)
    requires sid in s.streams && sid in s.handlerPc && s.handlerPc[sid] == Accepting && sid in s.toCallee
    requires Waiters(s.streams, s.handlerPc, s.toCallee, s.responseWaiters)
    requires Announced(s.tasks, s.streams, s.handlerPc, s.arrivals)
    requires ComesBack(k, s.handlerPc, s.toCallee, s.toCaller)
    ensures Waiters(s.streams, s.handlerPc[sid := Stored], s.toCallee, s.responseWaiters[WaiterKey(s, sid) := sid])
    ensures Announced(s.tasks, s.streams, s.handlerPc[sid := Stored], s.arrivals)
    ensures ComesBack(k, s.handlerPc[sid := Stored], s.toCallee, s.toCaller)
  {
    hide ResponseTo, AnnouncedBy;
  }

  lemma KeepStored(s: State, sid: nat)
    requires Inv(s) && StreamAt(s, sid) && s.handlerPc[sid] == Accepting && sid in s.toCallee
    ensures Inv(s.(responseWaiters := s.responseWaiters[WaiterKey(s, sid) := sid],
                   handlerPc := s.handlerPc[sid := Stored]))
  {
    hide Origins, CancelsSent, PcKinds, CancelMap, CtxDone, StreamsKnown, OneStream, Carried, Waiters,
      Announced, RunsRight, HandlersProvided, RunningProvided, ResponsesRight, HandingRight, ComesBack, Offers,
      ClosedEarly, Answers, Replies, NothingLeft, Futures, CallersRight;
    Open(s);
    StoreWaiter(KnownOf(s), s, sid);
    Shut(s.(responseWaiters := s.responseWaiters[WaiterKey(s, sid) := sid], handlerPc := s.handlerPc[sid := Stored]));
  }

  lemma KeepFailed(s: State, sid: nat)
    requires Inv(s) && StreamAt(s, sid) && s.handlerPc[sid] == Accepting
    ensures Inv(s.(handlerPc := s.handlerPc[sid := Left]))
  {
    hide Origins, CancelsSent, PcKinds, CancelMap, CtxDone, StreamsKnown, OneStream, Carried, Waiters,
      Announced, RunsRight, HandlersProvided, RunningProvided, ResponsesRight, HandingRight, ComesBack, Offers,
      ClosedEarly, Answers, Replies, NothingLeft, Futures, CallersRight;
    Open(s);
    FailEarly(KnownOf(s), s, sid);
    Shut(s.(handlerPc := s.handlerPc[sid := Left]));
  }

  lemma KeepAcceptStream(s: State, sid: nat)
    requires Inv(s) && StreamEnabled(s, AcceptStream(sid))
    ensures Inv(StreamDo(s, AcceptStream(sid)))
  {
    hide Inv;
    if s.toCallee[sid].body.CallUnary? {
      KeepStored(s, sid);
    } else {
      KeepFailed(s, sid);
    }
  }

  lemma Announcing(s: State, sid: nat, t: nat, a: Arrival)
    requires t !in s.arrivals && sid in s.handlerPc && s.handlerPc[sid] == Stored && a.via == sid
    requires AnnouncedBy(s.tasks, s.streams, a) && Announced(s.tasks, s.streams, s.handlerPc, s.arrivals)
    ensures Announced(s.tasks, s.streams, s.handlerPc[sid := Awaiting], s.arrivals[t := a])
  {
    hide AnnouncedBy;
  }

  lemma AnnouncementRight(s: State, sid: nat)
    requires StreamAt(s, sid) && sid in s.toCallee && s.toCallee[sid].body.CallUnary?
    requires Carried(s.tasks, s.streams, s.toCallee)
    ensures var req := s.toCallee[sid];
      AnnouncedBy(s.tasks, s.streams, Arrival(s.streams[sid].owner,
        Reply(req.callId, RequestHandling(s.tasks[s.streams[sid].task].conn.peer, req.body.proto, req.body.data)), sid))
  {
  }

  /** An arrival that answers no operation of the client it comes to. */
  lemma ForeignArrival(k: Known, s: State, t: nat, a: Arrival)
    requires k.callers == s.callers && t !in s.arrivals && !Own(s.callers, a)
    requires a.reply.body.RequestHandling? || a.reply.callId in s.callers
    requires Replies(k, s.taskPc, s.arrivals) && NothingLeft(s.callers, s.callerPc, s.taskPc, s.arrivals, s.arrivalPc)
    ensures Replies(k, s.taskPc, s.arrivals[t := a])
    ensures NothingLeft(s.callers, s.callerPc, s.taskPc, s.arrivals[t := a], s.arrivalPc[t := New])
  {
    hide ReplyOk;
  }

  lemma KeepAnnounce(s: State, sid: nat, t: nat)
    requires Inv(s) && StreamEnabled(s, Announce(sid, t))
    ensures Inv(StreamDo(s, Announce(sid, t)))
  {
    hide Origins, CancelsSent, PcKinds, CancelMap, CtxDone, StreamsKnown, OneStream, Carried, Waiters,
      Announced, RunsRight, HandlersProvided, RunningProvided, ResponsesRight, HandingRight, ComesBack, Offers,
      ClosedEarly, Answers, Replies, NothingLeft, Futures, CallersRight, ResponseTo,
      AnnouncedBy, ReplyOk;
    Open(s);
    var req, k := s.toCallee[sid], KnownOf(s);
    var a := Arrival(s.streams[sid].owner,
      Reply(req.callId, RequestHandling(s.tasks[s.streams[sid].task].conn.peer, req.body.proto, req.body.data)), sid);
    AnnouncementRight(s, sid);
    Announcing(s, sid, t, a);
    MoveHandler(k, s, sid, Awaiting);
    ForeignArrival(k, s, t, a);
    AddArrival(k, s, t, a);
    Shut(StreamDo(s, Announce(sid, t)));
  }

  /** The handler leaves: its key goes with it. */
  lemma LeaveHandler(k: Known, s: State, sid: nat)
    requires sid in s.streams && sid in s.handlerPc
    requires IsWaiting(s.handlerPc[sid]) && sid in s.toCallee
    requires Waiters(s.streams, s.handlerPc, s.toCallee, s.responseWaiters)
    requires Announced(s.tasks, s.streams, s.handlerPc, s.arrivals)
    requires ComesBack(k, s.handlerPc, s.toCallee, s.toCaller)
    ensures Waiters(s.streams, s.handlerPc[sid := Left], s.toCallee, s.responseWaiters - {WaiterKey(s, sid)})
    ensures Announced(s.tasks, s.streams, s.handlerPc[sid := Left], s.arrivals)
    ensures ComesBack(k, s.handlerPc[sid := Left], s.toCallee, s.toCaller)
  {
    hide ResponseTo, AnnouncedBy;
  }

  lemma SendBack(k: Known, s: State, sid: nat)
    requires ComesBack(k, s.handlerPc, s.toCallee, s.toCaller) && sid in s.handlerPc && s.handlerPc[sid].Took?
    ensures ComesBack(k, s.handlerPc, s.toCallee, s.toCaller[sid := s.handlerPc[sid].req])
  {
    hide ResponseTo;
  }

  lemma KeepWriteBack(s: State, sid: nat)
    requires Inv(s) && StreamEnabled(s, WriteBack(sid))
    ensures Inv(StreamDo(s, WriteBack(sid)))
  {
    hide Origins, CancelsSent, PcKinds, CancelMap, CtxDone, StreamsKnown, OneStream, Carried, Waiters,
      Announced, RunsRight, HandlersProvided, RunningProvided, ResponsesRight, HandingRight, ComesBack, Offers,
      ClosedEarly, Answers, Replies, NothingLeft, Futures, CallersRight;
    Open(s);
    var k := KnownOf(s);
    SendBack(k, s, sid);
    LeaveHandler(k, s.(toCaller := s.toCaller[sid := s.handlerPc[sid].req]), sid);
    Shut(StreamDo(s, WriteBack(sid)));
  }

  lemma GoneIsForeign(s: State, sid: nat)
    requires StreamAt(s, sid) && sid in s.toCallee && Carried(s.tasks, s.streams, s.toCallee)
    requires StreamsKnown(s.tasks, s.streams) && Origins(s.callers, s.tasks)
    ensures var a := Arrival(s.streams[sid].owner, Reply(s.toCallee[sid].callId, Cancelled), sid);
      a.reply.callId in s.callers && !Own(s.callers, a)
  {
    StreamTask(s, sid);
    OriginOf(s, s.streams[sid].task);
  }

  lemma KeepPeerGone(s: State, sid: nat, t: nat)
    requires Inv(s) && StreamEnabled(s, PeerGone(sid, t))
    ensures Inv(StreamDo(s, PeerGone(sid, t)))
  {
    hide Origins, CancelsSent, PcKinds, CancelMap, CtxDone, StreamsKnown, OneStream, Carried, Waiters,
      Announced, RunsRight, HandlersProvided, RunningProvided, ResponsesRight, HandingRight, ComesBack, Offers,
      ClosedEarly, Answers, Replies, NothingLeft, Futures, CallersRight, ResponseTo,
      AnnouncedBy, ReplyOk;
    Open(s);
    var k := KnownOf(s);
    var a := Arrival(s.streams[sid].owner, Reply(s.toCallee[sid].callId, Cancelled), sid);
    LeaveHandler(k, s, sid);
    NotAnnounced(s.(handlerPc := s.handlerPc[sid := Left]), t, a);
    GoneIsForeign(s, sid);
    ForeignArrival(k, s, t, a);
    AddArrival(k, s, t, a);
    Shut(StreamDo(s, PeerGone(sid, t)));
  }

  lemma KeepLeft(s: State, sid: nat)
    requires Inv(s) && StreamAt(s, sid) && IsWaiting(s.handlerPc[sid]) && sid in s.toCallee
    ensures Inv(s.(handlerPc := s.handlerPc[sid := Left], responseWaiters := s.responseWaiters - {WaiterKey(s, sid)}))
  {
    hide Origins, CancelsSent, PcKinds, CancelMap, CtxDone, StreamsKnown, OneStream, Carried, Waiters,
      Announced, RunsRight, HandlersProvided, RunningProvided, ResponsesRight, HandingRight, ComesBack, Offers,
      ClosedEarly, Answers, Replies, NothingLeft, Futures, CallersRight;
    Open(s);
    LeaveHandler(KnownOf(s), s, sid);
    Shut(s.(handlerPc := s.handlerPc[sid := Left], responseWaiters := s.responseWaiters - {WaiterKey(s, sid)}));
  }

  lemma KeepHandlerFails(s: State, sid: nat)
    requires Inv(s) && StreamEnabled(s, HandlerFails(sid))
    ensures Inv(StreamDo(s, HandlerFails(sid)))
  {
    hide Inv;
    if s.handlerPc[sid] == Accepting {
      KeepFailed(s, sid);
    } else {
      KeepLeft(s, sid);
    }
  }

  lemma FailEarly(k: Known, s: State, sid: nat)
    requires sid in s.streams && sid in s.handlerPc && s.handlerPc[sid] == Accepting
    requires Waiters(s.streams, s.handlerPc, s.toCallee, s.responseWaiters)
    requires Announced(s.tasks, s.streams, s.handlerPc, s.arrivals)
    requires ComesBack(k, s.handlerPc, s.toCallee, s.toCaller)
    ensures Waiters(s.streams, s.handlerPc[sid := Left], s.toCallee, s.responseWaiters)
    ensures Announced(s.tasks, s.streams, s.handlerPc[sid := Left], s.arrivals)
    ensures ComesBack(k, s.handlerPc[sid := Left], s.toCallee, s.toCaller)
  {
    hide ResponseTo, AnnouncedBy;
  }

  lemma KeepStream(s: State, l: StreamLabel)
    requires Inv(s) && StreamEnabled(s, l)
    ensures Inv(StreamDo(s, l))
  {
    hide Inv;
    match l
    case WriteRequest(sid, ok, message) => KeepWriteRequest(s, sid, ok, message);
    case ReadReply(sid, ok, message) => KeepReadReply(s, sid, ok, message);
    case GiveUp(sid) => KeepGiveUp(s, sid);
    case AcceptStream(sid) => KeepAcceptStream(s, sid);
    case Announce(sid, t) => KeepAnnounce(s, sid, t);
    case WriteBack(sid) => KeepWriteBack(s, sid);
    case PeerGone(sid, t) => KeepPeerGone(s, sid, t);
    case HandlerFails(sid) => KeepHandlerFails(s, sid);
  }

  /** The invariant holds after every run. */
  lemma {:induction false} RunInv(run: seq<Label>)
    requires Exec(run).Some?
    ensures Inv(Exec(run).value)
    decreases |run|
  {
    hide ClientEnabled, DaemonEnabled, StreamEnabled, ClientDo, DaemonDo, StreamDo;
    if run == [] {
      InitInv();
      hide Inv;
    } else {
      hide Inv;
      var n := |run| - 1;
      RunInv(run[..n]);
      match run[n]
      case Client(x) => KeepClient(Exec(run[..n]).value, x);
      case Daemon(x) => KeepDaemon(Exec(run[..n]).value, x);
      case OnStream(x) => KeepStream(Exec(run[..n]).value, x);
    }
  }

  lemma InitInv()
    ensures Inv(INIT)
  {
    hide Holds;
    forall part ensures Holds(INIT, part) { InitPart(part); }
  }

  lemma InitPart(part: Part)
    ensures Holds(INIT, part)
  {
    match part
    case OfRequests =>
    case OfStreams =>
    case OfHandlers =>
    case OfReplies =>
  }
}
