/** What an operation returns is what its own daemon answered, and every answer can be returned. */
module UnaryAnswers {
  import opened Options
  import opened Wire
  import opened Protocol
  import opened UnaryCalls
  import opened UnaryInvariant
  import opened UnarySteps
  import opened UnaryTheorems
  import opened UnaryProgress
  import UnaryIsolation
  import Registry

  // ---------------------------------------------------------------------------
  // How an operation ends
  // ---------------------------------------------------------------------------

  /** What a call makes of its daemon's answer; its own ended context is preferred to a value. */
  predicate CallEnds(body: ReplyBody, o: Outcome) {
    match body
    case DaemonError(message) => o == DaemonFailed(message)
    case Cancelled => o == CtxEnded
    case CallUnaryResponse(r) => Returns(r, o) || (o == CtxEnded && !(r.Failure? && r.b != []))
    case _ => o == Value([]) || o == CtxEnded
  }

  predicate AddEnds(body: ReplyBody, o: Outcome) {
    if body.DaemonError? then o == DaemonFailed(body.message) else o == Added
  }

  predicate Ends(op: Op, body: ReplyBody, o: Outcome) {
    if op.CallOp? then CallEnds(body, o) else AddEnds(body, o)
  }

  lemma ReturnEnds(s: State, c: CallId, ctxWins: bool)
    requires ClientEnabled(s, Return(c, ctxWins))
    ensures var pc := ClientDo(s, Return(c, ctxWins)).callerPc;
      && c in pc && pc[c].Returned? && Ends(s.callers[c].op, s.callerPc[c].reply.body, pc[c].outcome)
      && (s.callerPc[c].reply.body.CallUnaryResponse? && s.callers[c].op.CallOp? && !ctxWins ==>
            Returns(s.callerPc[c].reply.body.result, pc[c].outcome))
  {
  }

  // ---------------------------------------------------------------------------
  // The answer of its own daemon
  // ---------------------------------------------------------------------------

  /** Step `i` of the run writes the answer of task `g`. */
  ghost predicate AnsweredAt(run: seq<Label>, i: nat, g: nat, reply: Reply) {
    && i < |run| && run[i].Daemon? && run[i].daemon.WriteAnswer? && run[i].daemon.g == g
    && Exec(run[..i]).Some? && TaskAt(Exec(run[..i]).value, g, Answering(Some(reply)))
  }

  ghost predicate AnsweredWith(run: seq<Label>, g: nat, reply: Reply) {
    exists i :: AnsweredAt(run, i, g, reply)
  }

  lemma AnsweredGrows(run: seq<Label>, g: nat, reply: Reply)
    requires run != [] && AnsweredWith(run[..|run| - 1], g, reply)
    ensures AnsweredWith(run, g, reply)
  {
    hide Exec;
    var n := |run| - 1;
    var i: nat :| AnsweredAt(run[..n], i, g, reply);
    assert run[..n][..i] == run[..i];
    assert AnsweredAt(run, i, g, reply);
  }

  ghost predicate EndedBy(run: seq<Label>, g: nat, op: Op, o: Outcome, reply: Reply) {
    AnsweredWith(run, g, reply) && Ends(op, reply.body, o)
  }

  /** Everything that reaches the operation was written by its own task. */
  ghost predicate Traced(run: seq<Label>, s: State, c: CallId)
    requires c in s.callers
  {
    var g := s.callers[c].task;
    && (forall t :: t in s.arrivals && Own(s.callers, s.arrivals[t]) && s.arrivals[t].reply.callId == c ==>
          AnsweredWith(run, g, s.arrivals[t].reply))
    && (c in s.callerPc && s.callerPc[c].Got? ==> AnsweredWith(run, g, s.callerPc[c].reply))
    && (c in s.callerPc && s.callerPc[c].Returned? ==>
          exists reply :: EndedBy(run, g, s.callers[c].op, s.callerPc[c].outcome, reply))
  }

  // ---------------------------------------------------------------------------
  // One step
  // ---------------------------------------------------------------------------

  /** What a step may do to an operation: nothing, hand it its response, or return from it. */
  ghost predicate CallerMoves(s: State, s': State, l: Label, c: CallId)
    requires c in s.callers
  {
    && c in s'.callers && s'.callers[c] == s.callers[c]
    && (c in s'.callerPc && s'.callerPc[c].Got? && !(c in s.callerPc && s.callerPc[c] == s'.callerPc[c]) ==>
          exists t :: t in s.arrivals && Own(s.callers, s.arrivals[t])
                      && s.arrivals[t].reply.callId == c && s'.callerPc[c] == Got(s.arrivals[t].reply))
    && (c in s'.callerPc && s'.callerPc[c].Returned? && !(c in s.callerPc && s.callerPc[c] == s'.callerPc[c]) ==>
          && c in s.callerPc && s.callerPc[c].Got?
          && Ends(s.callers[c].op, s.callerPc[c].reply.body, s'.callerPc[c].outcome))
  }

  /** And to the responses under way: write one, by the operation's own task. */
  ghost predicate RepliesMove(s: State, s': State, l: Label, c: CallId)
    requires c in s.callers
  {
    forall t :: t in s'.arrivals && Own(s'.callers, s'.arrivals[t]) && s'.arrivals[t].reply.callId == c ==>
      || (t in s.arrivals && s.arrivals[t] == s'.arrivals[t])
      || (l == Daemon(WriteAnswer(s.callers[c].task, t))
          && TaskAt(s, s.callers[c].task, Answering(Some(s'.arrivals[t].reply))))
  }

  lemma HandsOwn(s: State, c: CallId, t: nat)
    requires Inv(s) && ClientEnabled(s, HandReply(c, t))
    ensures Own(s.callers, s.arrivals[t]) && s.arrivals[t].reply.callId == c
  {
    assert Futures(s.callers, s.callerPc, s.arrivals, s.arrivalPc, s.callFutures, s.channels) by { Open(s); }
    hide Inv;
  }

  lemma HandMoves(s: State, c: CallId, t: nat)
    requires ClientEnabled(s, HandReply(c, t)) && Own(s.callers, s.arrivals[t]) && s.arrivals[t].reply.callId == c
    ensures CallerMoves(s, ClientDo(s, HandReply(c, t)), Client(HandReply(c, t)), c)
  {
    hide Own, Ends;
    assert ClientDo(s, HandReply(c, t)).callerPc[c] == Got(s.arrivals[t].reply);
  }

  lemma ReturnMoves(s: State, c: CallId, ctxWins: bool)
    requires ClientEnabled(s, Return(c, ctxWins))
    ensures CallerMoves(s, ClientDo(s, Return(c, ctxWins)), Client(Return(c, ctxWins)), c)
  {
    ReturnEnds(s, c, ctxWins);
    hide Ends, OutcomeOf;
  }

  /** A step of another operation, or one before the response is handed over. */
  lemma OtherMoves(s: State, l: ClientLabel, c: CallId)
    requires ClientEnabled(s, l) && c in s.callers
    requires l.HandReply? || l.Return? ==> l.c != c
    ensures var s' := ClientDo(s, l); c in s'.callers && s'.callers[c] == s.callers[c]
    ensures var s' := ClientDo(s, l);
      c in s'.callerPc && (s'.callerPc[c].Got? || s'.callerPc[c].Returned?) ==>
        c in s.callerPc && s.callerPc[c] == s'.callerPc[c]
  {
    hide Registry.Enabled, Registry.Do, OutcomeOf, FutureAt;
  }

  lemma ArrivalsStay(s: State, l: ClientLabel)
    requires ClientEnabled(s, l)
    ensures ClientDo(s, l).arrivals == s.arrivals
  {
    hide Registry.Enabled, Registry.Do, OutcomeOf, FutureAt;
  }

  lemma ClientMoves(s: State, l: ClientLabel, c: CallId)
    requires Inv(s) && ClientEnabled(s, l) && c in s.callers
    ensures CallerMoves(s, ClientDo(s, l), Client(l), c)
  {
    if l.HandReply? && l.c == c {
      HandsOwn(s, c, l.t);
      hide Inv, ClientDo, ClientEnabled, CallerMoves;
      HandMoves(s, c, l.t);
    } else if l.Return? && l.c == c {
      hide Inv, ClientDo, ClientEnabled, CallerMoves;
      ReturnMoves(s, c, l.ctxWins);
    } else {
      hide Inv, ClientDo, ClientEnabled, Own, Ends;
      OtherMoves(s, l, c);
    }
  }

  /** An answer is for the operation of its task. */
  lemma AnswersItsOwn(s: State, g: nat, t: nat, c: CallId)
    requires Inv(s) && DaemonEnabled(s, WriteAnswer(g, t)) && s.taskPc[g].reply.value.callId == c && c in s.callers
    ensures s.callers[c].task == g
  {
    UnaryIsolation.AnswersOwn(s, g);
    assert PcKinds(s.tasks, s.taskPc) by { Open(s); }
    assert Origins(s.callers, s.tasks) by { Open(s); }
    hide Inv;
    KindOf(s, g);
  }

  lemma DaemonArrivals(s: State, l: DaemonLabel)
    requires DaemonEnabled(s, l)
    ensures !l.WriteAnswer? ==> DaemonDo(s, l).arrivals == s.arrivals
    ensures l.WriteAnswer? ==>
              DaemonDo(s, l).arrivals == s.arrivals[l.t := Arrival(s.tasks[l.g].conn, s.taskPc[l.g].reply.value, l.g)]
  {
    hide Registry.Enabled, Registry.Do, Registry.Taken;
  }

  lemma DaemonMoves(s: State, l: DaemonLabel, c: CallId)
    requires Inv(s) && DaemonEnabled(s, l) && c in s.callers
    ensures CallerMoves(s, DaemonDo(s, l), Daemon(l), c) && RepliesMove(s, DaemonDo(s, l), Daemon(l), c)
  {
    DaemonArrivals(s, l);
    if l.WriteAnswer? {
      var reply := s.taskPc[l.g].reply.value;
      if reply.callId == c { AnswersItsOwn(s, l.g, l.t, c); }
      hide Inv, DaemonDo, Own, Ends;
    } else {
      hide Inv, DaemonDo, DaemonEnabled, Own, Ends;
    }
  }

  lemma StreamArrivals(s: State, l: StreamLabel)
    requires StreamEnabled(s, l)
    ensures !l.Announce? && !l.PeerGone? ==> StreamDo(s, l).arrivals == s.arrivals
    ensures l.Announce? ==>
              && l.t in StreamDo(s, l).arrivals && StreamDo(s, l).arrivals[l.t].reply.body.RequestHandling?
              && StreamDo(s, l).arrivals == s.arrivals[l.t := StreamDo(s, l).arrivals[l.t]]
    ensures l.PeerGone? ==>
              && l.sid in s.streams && l.sid in s.toCallee
              && StreamDo(s, l).arrivals ==
                 s.arrivals[l.t := Arrival(s.streams[l.sid].owner, Reply(s.toCallee[l.sid].callId, Cancelled), l.sid)]
  {
  }

  lemma GoneElsewhere(s: State, sid: nat, t: nat)
    requires Inv(s) && StreamEnabled(s, PeerGone(sid, t))
    ensures !Own(s.callers, Arrival(s.streams[sid].owner, Reply(s.toCallee[sid].callId, Cancelled), sid))
  {
    assert Carried(s.tasks, s.streams, s.toCallee) by { Open(s); }
    assert StreamsKnown(s.tasks, s.streams) by { Open(s); }
    assert Origins(s.callers, s.tasks) by { Open(s); }
    hide Inv;
    GoneIsForeign(s, sid);
  }

  lemma StreamMoves(s: State, l: StreamLabel, c: CallId)
    requires Inv(s) && StreamEnabled(s, l) && c in s.callers
    ensures CallerMoves(s, StreamDo(s, l), OnStream(l), c) && RepliesMove(s, StreamDo(s, l), OnStream(l), c)
  {
    StreamArrivals(s, l);
    if l.PeerGone? { GoneElsewhere(s, l.sid, l.t); }
    hide Inv, StreamDo, StreamEnabled, Ends;
  }

  lemma StepMoves(s: State, l: Label, c: CallId)
    requires Inv(s) && Enabled(s, l) && c in s.callers
    ensures CallerMoves(s, Do(s, l), l, c) && RepliesMove(s, Do(s, l), l, c)
  {
    hide Inv, ClientEnabled, DaemonEnabled, StreamEnabled, ClientDo, DaemonDo, StreamDo, CallerMoves;
    match l
    case Client(x) =>
      ClientMoves(s, x, c);
      ArrivalsStay(s, x);
    case Daemon(x) => DaemonMoves(s, x, c);
    case OnStream(x) => StreamMoves(s, x, c);
  }

  // ---------------------------------------------------------------------------
  // Over every run
  // ---------------------------------------------------------------------------

  lemma TracedStep(run: seq<Label>, s: State, s': State, c: CallId)
    requires run != [] && c in s.callers && c in s'.callers && Traced(run[..|run| - 1], s, c)
    requires Exec(run[..|run| - 1]) == Some(s)
    requires CallerMoves(s, s', run[|run| - 1], c) && RepliesMove(s, s', run[|run| - 1], c)
    ensures Traced(run, s', c)
  {
    hide Exec, Own, Ends, AnsweredWith;
    var n, g := |run| - 1, s.callers[c].task;
    forall t | t in s'.arrivals && Own(s'.callers, s'.arrivals[t]) && s'.arrivals[t].reply.callId == c
      ensures AnsweredWith(run, g, s'.arrivals[t].reply)
    {
      TracedReply(run, s, s', c, t);
    }
    if c in s'.callerPc && s'.callerPc[c].Got? {
      if c in s.callerPc && s.callerPc[c] == s'.callerPc[c] {
        AnsweredGrows(run, g, s.callerPc[c].reply);
      } else {
        var t :| t in s.arrivals && Own(s.callers, s.arrivals[t])
                 && s.arrivals[t].reply.callId == c && s'.callerPc[c] == Got(s.arrivals[t].reply);
        AnsweredGrows(run, g, s.arrivals[t].reply);
      }
    }
    if c in s'.callerPc && s'.callerPc[c].Returned? {
      var reply :=
        if c in s.callerPc && s.callerPc[c] == s'.callerPc[c]
        then var reply :| EndedBy(run[..n], g, s.callers[c].op, s.callerPc[c].outcome, reply); reply
        else s.callerPc[c].reply;
      AnsweredGrows(run, g, reply);
      assert EndedBy(run, g, s.callers[c].op, s'.callerPc[c].outcome, reply);
    }
  }

  lemma TracedReply(run: seq<Label>, s: State, s': State, c: CallId, t: nat)
    requires run != [] && c in s.callers && c in s'.callers && s'.callers[c] == s.callers[c]
    requires Traced(run[..|run| - 1], s, c) && Exec(run[..|run| - 1]) == Some(s)
    requires RepliesMove(s, s', run[|run| - 1], c)
    requires t in s'.arrivals && Own(s'.callers, s'.arrivals[t]) && s'.arrivals[t].reply.callId == c
    ensures AnsweredWith(run, s.callers[c].task, s'.arrivals[t].reply)
  {
    var n, g := |run| - 1, s.callers[c].task;
    hide Exec;
    if t in s.arrivals && s.arrivals[t] == s'.arrivals[t] {
      assert Own(s.callers, s.arrivals[t]);
      AnsweredGrows(run, g, s.arrivals[t].reply);
    } else {
      assert AnsweredAt(run, n, g, s'.arrivals[t].reply);
    }
  }

  ghost predicate JustIssued(s: State, c: CallId) {
    && c in s.callers && c in s.callerPc && s.callerPc[c] == Written
    && s.callers[c].task in s.taskPc && s.taskPc[s.callers[c].task] == Fresh
  }

  lemma IssueFresh(s: State, c: CallId, conn: Conn, op: Op, g: nat)
    ensures JustIssued(Issue(s, c, conn, op, g), c) && Issue(s, c, conn, op, g).callers.Keys == s.callers.Keys + {c}
  {
  }

  lemma CallersSame(s: State, l: ClientLabel)
    requires ClientEnabled(s, l) && !l.IssueCall? && !l.IssueAdd?
    ensures ClientDo(s, l).callers == s.callers
  {
    hide OutcomeOf, FutureAt;
  }

  lemma IssuedFresh(s: State, l: Label, c: CallId)
    requires Enabled(s, l) && c !in s.callers && c in Do(s, l).callers
    ensures JustIssued(Do(s, l), c)
  {
    hide DaemonDo, StreamDo, Registry.Enabled, Registry.Do, JustIssued, Issue;
    if l.Client? {
      var x := l.client;
      if x.IssueCall? {
        IssueFresh(s, x.c, x.conn, CallOp(x.peer, x.proto, x.data), x.g);
      } else if x.IssueAdd? {
        var s1 := RegistryDo(s, x.conn.peer, Registry.Receive(x.conn.num, x.g, x.proto));
        assert s1.callers == s.callers;
        IssueFresh(s1, x.c, x.conn, AddOp(x.proto, x.handler), x.g);
      } else {
        hide ClientDo, ClientEnabled;
        CallersSame(s, x);
      }
    }
  }

  lemma FreshUnanswered(s: State, c: CallId, t: nat)
    requires Inv(s) && c in s.callers && s.callers[c].task in s.taskPc && s.taskPc[s.callers[c].task] == Fresh
    requires t in s.arrivals && s.arrivals[t].reply.callId == c
    ensures !Own(s.callers, s.arrivals[t])
  {
    assert Replies(KnownOf(s), s.taskPc, s.arrivals) by { Open(s); }
    hide Inv;
  }

  lemma {:induction false} AnswersTraced(run: seq<Label>, c: CallId)
    requires Exec(run).Some? && c in Exec(run).value.callers
    ensures Traced(run, Exec(run).value, c)
    decreases |run|
  {
    hide Enabled, Do, Traced, Inv, CallerMoves, RepliesMove;
    if run == [] {
      assert false;
    } else {
      var n := |run| - 1;
      LastStep(run);
      var s, s' := Exec(run[..n]).value, Exec(run).value;
      RunInv(run[..n]);
      if c in s.callers {
        AnswersTraced(run[..n], c);
        StepMoves(s, run[n], c);
        TracedStep(run, s, s', c);
      } else {
        RunInv(run);
        IssuedFresh(s, run[n], c);
        NewTraced(run, s', c);
      }
    }
  }

  lemma NewTraced(run: seq<Label>, s: State, c: CallId)
    requires Inv(s) && JustIssued(s, c)
    ensures Traced(run, s, c)
  {
    hide Inv, Own, AnsweredWith;
    forall t | t in s.arrivals && s.arrivals[t].reply.callId == c ensures !Own(s.callers, s.arrivals[t]) {
      FreshUnanswered(s, c, t);
    }
  }

  /** Every operation returns what the answer of its own task says. */
  lemma OutcomeIsAnswer(run: seq<Label>, c: CallId)
    requires Exec(run).Some? && c in Exec(run).value.callers
    requires c in Exec(run).value.callerPc && Exec(run).value.callerPc[c].Returned?
    ensures var s := Exec(run).value;
      exists reply :: EndedBy(run, s.callers[c].task, s.callers[c].op, s.callerPc[c].outcome, reply)
  {
    hide Exec, EndedBy;
    AnswersTraced(run, c);
  }

  // ---------------------------------------------------------------------------
  // A task that takes the Cancel
  // ---------------------------------------------------------------------------

  ghost predicate TookCancel(run: seq<Label>, g: nat) {
    exists i :: 0 <= i < |run| && run[i] == Daemon(TakeCancel(g))
  }

  /** The task has `Cancelled` to write, or is past writing. */
  ghost predicate AnswersCancelled(s: State, g: nat) {
    && g in s.tasks && g in s.taskPc
    && match s.taskPc[g]
       case Answering(reply) => reply.Some? && reply.value.body == Cancelled
       case Answered => true
       case Over => true
       case _ => false
  }

  ghost predicate PastAnswer(s: State, g: nat) {
    g in s.tasks && g in s.taskPc && HasAnswered(s.taskPc[g])
  }

  lemma ClientTasks(s: State, l: ClientLabel, g: nat)
    requires ClientEnabled(s, l) && g in s.tasks && g in s.taskPc
    ensures var s' := ClientDo(s, l); g in s'.tasks && g in s'.taskPc && s'.taskPc[g] == s.taskPc[g]
  {
    hide Registry.Enabled, Registry.Do, OutcomeOf, FutureAt;
  }

  lemma DaemonTasks(s: State, l: DaemonLabel, g: nat)
    requires DaemonEnabled(s, l)
    ensures AnswersCancelled(s, g) ==> AnswersCancelled(DaemonDo(s, l), g)
    ensures PastAnswer(s, g) ==> PastAnswer(DaemonDo(s, l), g)
    ensures l == TakeCancel(g) ==> AnswersCancelled(DaemonDo(s, l), g) && !PastAnswer(s, g)
    ensures l.WriteAnswer? && l.g == g ==> PastAnswer(DaemonDo(s, l), g) && !PastAnswer(s, g)
  {
    hide Registry.Enabled, Registry.Do, Registry.Taken;
  }

  lemma StepTasks(s: State, l: Label, g: nat)
    requires Enabled(s, l)
    ensures AnswersCancelled(s, g) ==> AnswersCancelled(Do(s, l), g)
    ensures PastAnswer(s, g) ==> PastAnswer(Do(s, l), g)
    ensures l == Daemon(TakeCancel(g)) ==> AnswersCancelled(Do(s, l), g) && !PastAnswer(s, g)
    ensures l.Daemon? && l.daemon.WriteAnswer? && l.daemon.g == g ==> PastAnswer(Do(s, l), g) && !PastAnswer(s, g)
  {
    hide ClientEnabled, DaemonEnabled, StreamEnabled, ClientDo, DaemonDo, StreamDo;
    match l
    case Client(x) => if g in s.tasks && g in s.taskPc { ClientTasks(s, x, g); }
    case Daemon(x) =>
      hide AnswersCancelled, PastAnswer;
      DaemonTasks(s, x, g);
    case OnStream(x) =>
  }

  lemma {:induction false} AnsweredIsPast(run: seq<Label>, i: nat, g: nat, reply: Reply)
    requires Exec(run).Some? && AnsweredAt(run, i, g, reply)
    ensures PastAnswer(Exec(run).value, g)
    decreases |run|
  {
    hide Enabled, Do, PastAnswer, AnswersCancelled;
    var n := |run| - 1;
    LastStep(run);
    StepTasks(Exec(run[..n]).value, run[n], g);
    if i < n {
      assert run[..n][..i] == run[..i];
      AnsweredIsPast(run[..n], i, g, reply);
    }
  }

  lemma {:induction false} CancelTaken(run: seq<Label>, g: nat)
    requires Exec(run).Some? && TookCancel(run, g)
    ensures AnswersCancelled(Exec(run).value, g)
    ensures forall reply :: AnsweredWith(run, g, reply) ==> reply.body == Cancelled
    decreases |run|
  {
    hide Enabled, Do, PastAnswer;
    var n := |run| - 1;
    LastStep(run);
    var s := Exec(run[..n]).value;
    StepTasks(s, run[n], g);
    if run[n] != Daemon(TakeCancel(g)) {
      var i :| 0 <= i < |run| && run[i] == Daemon(TakeCancel(g));
      assert run[..n][i] == Daemon(TakeCancel(g));
      CancelTaken(run[..n], g);
    }
    forall reply | AnsweredWith(run, g, reply) ensures reply.body == Cancelled {
      var j: nat :| AnsweredAt(run, j, g, reply);
      if j < n {
        assert run[..n][..j] == run[..j];
        assert AnsweredAt(run[..n], j, g, reply);
        AnsweredIsPast(run[..n], j, g, reply);
      }
    }
  }

  /** A call whose task took the Cancel answers so, and returns only by its context. */
  lemma CancelReturnsCtx(run: seq<Label>, c: CallId)
    requires Exec(run).Some? && c in Exec(run).value.callers && Exec(run).value.callers[c].op.CallOp?
    requires TookCancel(run, Exec(run).value.callers[c].task)
    ensures AnswersCancelled(Exec(run).value, Exec(run).value.callers[c].task)
    ensures c in Exec(run).value.callerPc && Exec(run).value.callerPc[c].Returned? ==>
              Exec(run).value.callerPc[c].outcome == CtxEnded
  {
    hide Exec, TookCancel, AnsweredWith;
    var s := Exec(run).value;
    CancelTaken(run, s.callers[c].task);
    if c in s.callerPc && s.callerPc[c].Returned? { OutcomeIsAnswer(run, c); }
  }

  // ---------------------------------------------------------------------------
  // Every answer can be returned
  // ---------------------------------------------------------------------------

  /** The response is written, and its operation still waits for it, or is about to. */
  ghost predicate ReplyDue(s: State, c: CallId, t: nat, reply: Reply) {
    && c in s.callers && c in s.callerPc && ArrivalAt(s, t, New)
    && s.arrivals[t].conn == s.callers[c].conn && s.arrivals[t].reply == reply && reply.callId == c
    && !reply.body.RequestHandling?
  }

  /** The operation waits on the channel of its future. */
  ghost predicate AwaitsReply(s: State, c: CallId) {
    && c in s.callers && c in s.callerPc && s.callerPc[c].Waiting?
    && (s.callers[c].conn, c) in s.callFutures && s.callFutures[(s.callers[c].conn, c)] == s.callerPc[c].ch
  }

  lemma NotSettledYet(s: State, c: CallId)
    requires Inv(s) && c in s.callers && s.callers[c].task in s.taskPc && s.taskPc[s.callers[c].task].Answering?
    ensures c in s.callerPc && (s.callerPc[c] == Written || AwaitsReply(s, c))
    ensures s.callers[c].task in s.tasks && s.tasks[s.callers[c].task].conn == s.callers[c].conn
    ensures s.tasks[s.callers[c].task].req.callId == c
  {
    assert s.callerPc.Keys == s.callers.Keys by { Open(s); }
    assert NothingLeft(s.callers, s.callerPc, s.taskPc, s.arrivals, s.arrivalPc) by { Open(s); }
    assert Futures(s.callers, s.callerPc, s.arrivals, s.arrivalPc, s.callFutures, s.channels) by { Open(s); }
    assert Origins(s.callers, s.tasks) by { Open(s); }
    hide Inv;
  }

  lemma AnswerWritten(s: State, c: CallId, t: nat, reply: Reply)
    requires Inv(s) && c in s.callers && s.callers[c].task in s.taskPc && t !in s.arrivals
    requires s.taskPc[s.callers[c].task] == Answering(Some(reply))
    ensures DaemonEnabled(s, WriteAnswer(s.callers[c].task, t))
    ensures var s' := DaemonDo(s, WriteAnswer(s.callers[c].task, t));
      ReplyDue(s', c, t, reply) && (s'.callerPc[c] == Written || AwaitsReply(s', c))
    ensures DaemonDo(s, WriteAnswer(s.callers[c].task, t)).channels == s.channels
  {
    NotSettledYet(s, c);
    UnaryIsolation.AnswersOwn(s, s.callers[c].task);
    assert Answers(KnownOf(s), s.tasks, s.taskPc) by { Open(s); }
    AnswerOk(KnownOf(s), s, s.callers[c].task);
    hide Inv, Answers;
  }

  lemma FutureAwaited(s: State, c: CallId, t: nat, reply: Reply, ch: nat)
    requires ReplyDue(s, c, t, reply) && s.callerPc[c] == Written && ch !in s.channels
    ensures ClientEnabled(s, AwaitFuture(c, ch))
    ensures var s' := ClientDo(s, AwaitFuture(c, ch));
      ReplyDue(s', c, t, reply) && AwaitsReply(s', c) && s'.channels == s.channels + {ch}
  {
  }

  lemma ReplyRouted(s: State, c: CallId, t: nat, reply: Reply, ch: nat)
    requires ReplyDue(s, c, t, reply) && AwaitsReply(s, c) && ch !in s.channels
    ensures ClientEnabled(s, RouteReply(t, ch))
    ensures ClientEnabled(ClientDo(s, RouteReply(t, ch)), HandReply(c, t))
    ensures ClientDo(s, RouteReply(t, ch)).arrivals == s.arrivals && ClientDo(s, RouteReply(t, ch)).callers == s.callers
  {
  }

  lemma ReplyHanded(s: State, c: CallId, t: nat)
    requires ClientEnabled(s, HandReply(c, t))
    ensures var s' := ClientDo(s, HandReply(c, t));
      c in s'.callerPc && s'.callerPc[c] == Got(s.arrivals[t].reply) && s'.callers == s.callers
    ensures ClientEnabled(ClientDo(s, HandReply(c, t)), Return(c, false))
  {
  }

  /** A longer run in which the operation has returned what the answer says, its context aside. */
  ghost predicate AnswerReturned(run: seq<Label>, c: CallId, op: Op, body: ReplyBody, more: seq<Label>) {
    && run <= more && Exec(more).Some? && c in Exec(more).value.callerPc && Exec(more).value.callerPc[c].Returned?
    && Ends(op, body, Exec(more).value.callerPc[c].outcome)
    && (op.CallOp? && body.CallUnaryResponse? ==> Returns(body.result, Exec(more).value.callerPc[c].outcome))
  }

  lemma LastSteps(run: seq<Label>, c: CallId, t: nat, reply: Reply, ch: nat)
    requires Exec(run).Some? && ReplyDue(Exec(run).value, c, t, reply) && AwaitsReply(Exec(run).value, c)
    requires ch !in Exec(run).value.channels
    ensures exists more :: AnswerReturned(run, c, Exec(run).value.callers[c].op, reply.body, more)
  {
    var s := Exec(run).value;
    ReplyRouted(s, c, t, reply, ch);
    assert c in s.callers && t in s.arrivals && s.arrivals[t].reply == reply;
    hide Exec, ClientEnabled, ClientDo, ReplyDue, AwaitsReply, Ends, Returns;
    ExecStep(run, Client(RouteReply(t, ch)));
    var run1 := run + [Client(RouteReply(t, ch))];
    ReplyHanded(Exec(run1).value, c, t);
    ExecStep(run1, Client(HandReply(c, t)));
    var run2 := run1 + [Client(HandReply(c, t))];
    ReturnEnds(Exec(run2).value, c, false);
    ExecStep(run2, Client(Return(c, false)));
    assert AnswerReturned(run, c, s.callers[c].op, reply.body, run2 + [Client(Return(c, false))]);
  }

  lemma LongerReturned(run: seq<Label>, run': seq<Label>, c: CallId, op: Op, body: ReplyBody)
    requires run <= run' && exists more :: AnswerReturned(run', c, op, body, more)
    ensures exists more :: AnswerReturned(run, c, op, body, more)
  {
    hide Exec, Ends, Returns;
    var more :| AnswerReturned(run', c, op, body, more);
    assert AnswerReturned(run, c, op, body, more);
  }

  lemma DueIsReturned(run: seq<Label>, c: CallId, t: nat, reply: Reply)
    requires Exec(run).Some? && ReplyDue(Exec(run).value, c, t, reply)
    requires Exec(run).value.callerPc[c] == Written || AwaitsReply(Exec(run).value, c)
    ensures exists more :: AnswerReturned(run, c, Exec(run).value.callers[c].op, reply.body, more)
  {
    var s, ch := Exec(run).value, Above(Exec(run).value.channels);
    if s.callerPc[c] == Written {
      FutureAwaited(s, c, t, reply, ch);
      assert ClientDo(s, AwaitFuture(c, ch)).callers == s.callers;
      hide Exec, ClientEnabled, ClientDo, ReplyDue, AwaitsReply, AnswerReturned;
      ExecStep(run, Client(AwaitFuture(c, ch)));
      var run1 := run + [Client(AwaitFuture(c, ch))];
      LastSteps(run1, c, t, reply, Above(Exec(run1).value.channels));
      LongerReturned(run, run1, c, s.callers[c].op, reply.body);
    } else {
      hide Exec, ReplyDue, AwaitsReply, AnswerReturned;
      LastSteps(run, c, t, reply, ch);
    }
  }

  /** Whatever a task has to answer, its operation can return it. */
  lemma AnswerIsReturned(run: seq<Label>, c: CallId, reply: Reply)
    requires Exec(run).Some? && c in Exec(run).value.callers
    requires Exec(run).value.callers[c].task in Exec(run).value.taskPc
    requires Exec(run).value.taskPc[Exec(run).value.callers[c].task] == Answering(Some(reply))
    ensures exists more :: AnswerReturned(run, c, Exec(run).value.callers[c].op, reply.body, more)
  {
    hide Exec, Inv, DaemonEnabled, DaemonDo, ReplyDue, AwaitsReply, AnswerReturned;
    RunInv(run);
    var s, t := Exec(run).value, Above(Exec(run).value.arrivals.Keys);
    AnswerWritten(s, c, t, reply);
    ExecStep(run, Daemon(WriteAnswer(s.callers[c].task, t)));
    var run1 := run + [Daemon(WriteAnswer(s.callers[c].task, t))];
    DueIsReturned(run1, c, t, reply);
    LongerReturned(run, run1, c, s.callers[c].op, reply.body);
  }

  // ---------------------------------------------------------------------------
  // Failures and cancellations that are returned
  // ---------------------------------------------------------------------------

  /** The call's task has no stream yet, or its exchange is under way. */
  ghost predicate UnderWay(s: State, c: CallId, sid: nat) {
    && c in s.callers && s.callers[c].op.CallOp? && s.callers[c].task in s.tasks && s.callers[c].task in s.taskPc
    && match s.taskPc[s.callers[c].task]
       case Calling => true
       case Exchanging(i) =>
         && i == sid && StreamAt(s, sid) && s.streams[sid].task == s.callers[c].task
         && (s.exchangePc[sid] == Writing || s.exchangePc[sid] == Reading)
       case _ => false
  }

  ghost predicate AnswersError(s: State, c: CallId, message: seq<byte>) {
    && c in s.callers && s.callers[c].op.CallOp? && s.callers[c].task in s.taskPc
    && s.taskPc[s.callers[c].task].Answering? && s.taskPc[s.callers[c].task].reply.Some?
    && s.taskPc[s.callers[c].task].reply.value.body == DaemonError(Some(message))
  }

  lemma NoStreamAnswers(s: State, c: CallId, sid: nat, message: seq<byte>)
    requires UnderWay(s, c, sid) && s.taskPc[s.callers[c].task] == Calling
    ensures DaemonEnabled(s, NoStream(s.callers[c].task, message))
    ensures AnswersError(DaemonDo(s, NoStream(s.callers[c].task, message)), c, message)
  {
  }

  function Failing(s: State, sid: nat, message: seq<byte>): StreamLabel
    requires sid in s.exchangePc
  {
    if s.exchangePc[sid] == Writing then WriteRequest(sid, false, message) else ReadReply(sid, false, message)
  }

  ghost predicate ErrorOffered(s: State, c: CallId, sid: nat, message: seq<byte>) {
    && c in s.callers && s.callers[c].op.CallOp? && TaskAt(s, s.callers[c].task, Exchanging(sid))
    && sid in s.exchangePc && s.exchangePc[sid].Offering?
    && s.exchangePc[sid].reply.body == DaemonError(Some(message))
  }

  lemma WriteFailsSo(s: State, c: CallId, sid: nat, message: seq<byte>)
    requires UnderWay(s, c, sid) && s.taskPc[s.callers[c].task] == Exchanging(sid) && s.callers[c].task !in s.ctxDone
    requires s.exchangePc[sid] == Writing
    ensures StreamEnabled(s, WriteRequest(sid, false, message))
    ensures ErrorOffered(StreamDo(s, WriteRequest(sid, false, message)), c, sid, message)
  {
  }

  lemma ReadFailsSo(s: State, c: CallId, sid: nat, message: seq<byte>)
    requires UnderWay(s, c, sid) && s.taskPc[s.callers[c].task] == Exchanging(sid) && s.callers[c].task !in s.ctxDone
    requires s.exchangePc[sid] == Reading
    ensures StreamEnabled(s, ReadReply(sid, false, message))
    ensures ErrorOffered(StreamDo(s, ReadReply(sid, false, message)), c, sid, message)
  {
  }

  lemma ExchangeFails(s: State, c: CallId, sid: nat, message: seq<byte>)
    requires UnderWay(s, c, sid) && s.taskPc[s.callers[c].task] == Exchanging(sid) && s.callers[c].task !in s.ctxDone
    ensures StreamEnabled(s, Failing(s, sid, message))
    ensures ErrorOffered(StreamDo(s, Failing(s, sid, message)), c, sid, message)
  {
    hide StreamEnabled, StreamDo, ErrorOffered;
    if s.exchangePc[sid] == Writing {
      WriteFailsSo(s, c, sid, message);
    } else {
      ReadFailsSo(s, c, sid, message);
    }
  }

  lemma TaskTakesOffer(s: State, c: CallId, sid: nat, message: seq<byte>)
    requires ErrorOffered(s, c, sid, message)
    ensures DaemonEnabled(s, TakeReply(s.callers[c].task))
    ensures AnswersError(DaemonDo(s, TakeReply(s.callers[c].task)), c, message)
  {
  }

  lemma ErrorIsReturned(run: seq<Label>, c: CallId, message: seq<byte>)
    requires Exec(run).Some? && AnswersError(Exec(run).value, c, message)
    ensures exists more :: ReturnsWith(run, c, DaemonFailed(Some(message)), more)
  {
    hide Exec;
    var s := Exec(run).value;
    AnswerIsReturned(run, c, s.taskPc[s.callers[c].task].reply.value);
    var more :| AnswerReturned(run, c, s.callers[c].op, DaemonError(Some(message)), more);
    assert ReturnsWith(run, c, DaemonFailed(Some(message)), more);
  }

  ghost predicate ReturnsWith(run: seq<Label>, c: CallId, o: Outcome, more: seq<Label>) {
    run <= more && Exec(more).Some? && c in Exec(more).value.callerPc && Exec(more).value.callerPc[c] == Returned(o)
  }

  /**
    In every reachable state, a call that has no stream yet, or whose exchange is under way and was
    not cancelled, can fail at its daemon, and its caller then gets the error's own text.
   */
  lemma CallCanFail(run: seq<Label>, c: CallId, sid: nat, message: seq<byte>)
    requires Exec(run).Some? && UnderWay(Exec(run).value, c, sid)
    requires Exec(run).value.callers[c].task !in Exec(run).value.ctxDone
    ensures exists more :: ReturnsWith(run, c, DaemonFailed(Some(message)), more)
  {
    var s := Exec(run).value;
    var g := s.callers[c].task;
    if s.taskPc[g] == Calling {
      NoStreamAnswers(s, c, sid, message);
      hide Exec, DaemonEnabled, DaemonDo, AnswersError, UnderWay;
      ExecStep(run, Daemon(NoStream(g, message)));
      var run1 := run + [Daemon(NoStream(g, message))];
      ErrorIsReturned(run1, c, message);
      var more :| ReturnsWith(run1, c, DaemonFailed(Some(message)), more);
      assert ReturnsWith(run, c, DaemonFailed(Some(message)), more);
    } else {
      assert sid in s.exchangePc;
      ExchangeFails(s, c, sid, message);
      hide Exec, DaemonEnabled, DaemonDo, StreamEnabled, StreamDo, AnswersError, UnderWay, ErrorOffered, Failing;
      ExecStep(run, OnStream(Failing(s, sid, message)));
      var run1 := run + [OnStream(Failing(s, sid, message))];
      assert Exec(run1).value.callers == s.callers;
      TaskTakesOffer(Exec(run1).value, c, sid, message);
      ExecStep(run1, Daemon(TakeReply(g)));
      var run2 := run1 + [Daemon(TakeReply(g))];
      ErrorIsReturned(run2, c, message);
      var more :| ReturnsWith(run2, c, DaemonFailed(Some(message)), more);
      assert ReturnsWith(run, c, DaemonFailed(Some(message)), more);
    }
  }

  lemma CancelAnswers(s: State, c: CallId)
    requires c in s.callers && s.callers[c].task in s.taskPc && DaemonEnabled(s, TakeCancel(s.callers[c].task))
    ensures var s' := DaemonDo(s, TakeCancel(s.callers[c].task));
      && s'.callers == s.callers && s.callers[c].task in s'.taskPc && s'.taskPc[s.callers[c].task].Answering?
      && s'.taskPc[s.callers[c].task].reply.Some? && s'.taskPc[s.callers[c].task].reply.value.body == Cancelled
  {
  }

  /** A call whose context is done while it is in exchange can be cut off there, and returns by its context. */
  lemma CancelIsReturned(run: seq<Label>, c: CallId)
    requires Exec(run).Some? && c in Exec(run).value.callers && Exec(run).value.callers[c].op.CallOp?
    requires Exec(run).value.callers[c].task in Exec(run).value.taskPc
    requires DaemonEnabled(Exec(run).value, TakeCancel(Exec(run).value.callers[c].task))
    ensures exists more :: ReturnsWith(run, c, CtxEnded, more)
  {
    var s := Exec(run).value;
    var g := s.callers[c].task;
    CancelAnswers(s, c);
    hide Exec, DaemonEnabled, DaemonDo;
    ExecStep(run, Daemon(TakeCancel(g)));
    var run1 := run + [Daemon(TakeCancel(g))];
    AnswerIsReturned(run1, c, Exec(run1).value.taskPc[g].reply.value);
    var more :| AnswerReturned(run1, c, s.callers[c].op, Cancelled, more);
    assert ReturnsWith(run, c, CtxEnded, more);
  }
}
