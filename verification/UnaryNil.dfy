/**
  Two ends of a cancelled call: the nil answer, which the daemon cannot write, and the exchange that
  nobody listens to any more. When they arise, and that they do.
 */
module UnaryNil {
  import opened Options
  import opened Protocol
  import opened UnaryCalls
  import opened UnaryInvariant
  import opened UnarySteps
  import opened UnaryTheorems
  import opened UnaryProgress

  /** The goroutine that serves the call has the nil response in hand. */
  ghost predicate HasNil(s: State, c: CallId) {
    c in s.callers && s.callers[c].task in s.taskPc && s.taskPc[s.callers[c].task] == Answering(None)
  }

  /** A nil answer means that the call's client has sent a Cancel. */
  lemma NilMeansCancel(run: seq<Label>, c: CallId)
    requires Exec(run).Some? && HasNil(Exec(run).value, c)
    ensures SentCancel(run, c)
  {
    hide Exec, SentCancel;
    var s := Exec(run).value;
    RunInv(run);
    HistoryMeans(run, c);
    assert Origins(s.callers, s.tasks) by { Open(s); }
    assert Answers(KnownOf(s), s.tasks, s.taskPc) by { Open(s); }
    assert AnswerRight(KnownOf(s), c, s.taskPc[s.callers[c].task]);
  }

  /** The call's task `g` exchanges on stream `sid`. */
  ghost predicate InExchange(s: State, c: CallId, g: nat, sid: nat) {
    && c in s.callers && s.callers[c].op.CallOp? && s.callers[c].task == g
    && TaskAt(s, g, Exchanging(sid)) && s.tasks[g].req.callId == c && s.tasks[g].conn == s.callers[c].conn
    && StreamAt(s, sid) && s.streams[sid].task == g
    && (s.callers[c].conn.peer, c) in s.cancelUnary && s.cancelUnary[(s.callers[c].conn.peer, c)] == g
  }

  lemma ExchangeKnown(s: State, c: CallId, sid: nat)
    requires Inv(s) && c in s.callers && s.callers[c].op.CallOp?
    requires s.callers[c].task in s.taskPc && s.taskPc[s.callers[c].task] == Exchanging(sid)
    ensures InExchange(s, c, s.callers[c].task, sid)
  {
    assert s.taskPc.Keys == s.tasks.Keys && s.exchangePc.Keys == s.streams.Keys && s.handlerPc.Keys == s.streams.Keys
      by { Open(s); }
    assert Origins(s.callers, s.tasks) by { Open(s); }
    assert OneStream(s.taskPc, s.streams) by { Open(s); }
    assert CancelMap(s.tasks, s.taskPc, s.cancelUnary) by { Open(s); }
    hide Inv;
  }

  function CancelRun(run: seq<Label>, c: CallId, g: nat): seq<Label> {
    run + [Client(EndContext(c))] + [Client(SendCancel(c, g))] + [Daemon(ServeCancel(g))]
  }

  lemma ContextEnds(s: State, c: CallId, g: nat, sid: nat)
    requires InExchange(s, c, g, sid)
    ensures ClientEnabled(s, EndContext(c)) && ClientDo(s, EndContext(c)) == s.(ended := s.ended + {c})
  {
  }

  lemma CancelSent(s: State, c: CallId, g: nat, sid: nat, g': nat)
    requires InExchange(s, c, g, sid) && c in s.ended && g' !in s.tasks
    ensures ClientEnabled(s, SendCancel(c, g')) && InExchange(ClientDo(s, SendCancel(c, g')), c, g, sid)
    ensures TaskAt(ClientDo(s, SendCancel(c, g')), g', Fresh)
    ensures ClientDo(s, SendCancel(c, g')).exchangePc == s.exchangePc
    ensures ClientDo(s, SendCancel(c, g')).tasks[g'] == Task(s.callers[c].conn, Request(c, CancelRequest), 0)
  {
  }

  lemma CancelServed(s: State, c: CallId, g: nat, sid: nat, g': nat)
    requires InExchange(s, c, g, sid) && TaskAt(s, g', Fresh)
    requires s.tasks[g'] == Task(s.callers[c].conn, Request(c, CancelRequest), 0)
    ensures DaemonEnabled(s, ServeCancel(g')) && InExchange(DaemonDo(s, ServeCancel(g')), c, g, sid)
    ensures g in DaemonDo(s, ServeCancel(g')).ctxDone && DaemonDo(s, ServeCancel(g')).exchangePc == s.exchangePc
  {
  }

  lemma CancelReaches(run: seq<Label>, c: CallId, g: nat, sid: nat, g': nat)
    requires Exec(run).Some? && InExchange(Exec(run).value, c, g, sid) && g' !in Exec(run).value.tasks
    ensures Exec(CancelRun(run, c, g')).Some?
    ensures var s' := Exec(CancelRun(run, c, g')).value;
      InExchange(s', c, g, sid) && g in s'.ctxDone && s'.exchangePc == Exec(run).value.exchangePc
  {
    var s := Exec(run).value;
    assert InExchange(s.(ended := s.ended + {c}), c, g, sid);
    hide Exec, InExchange, ClientEnabled, ClientDo, DaemonEnabled, DaemonDo;
    ContextEnds(s, c, g, sid);
    ExecStep(run, Client(EndContext(c)));
    var run1 := run + [Client(EndContext(c))];
    CancelSent(Exec(run1).value, c, g, sid, g');
    ExecStep(run1, Client(SendCancel(c, g')));
    var run2 := run1 + [Client(SendCancel(c, g'))];
    CallersKept(s.(ended := s.ended + {c}), c, g');
    CancelServed(Exec(run2).value, c, g, sid, g');
    ExecStep(run2, Daemon(ServeCancel(g')));
  }

  lemma CallersKept(s: State, c: CallId, g: nat)
    requires ClientEnabled(s, SendCancel(c, g))
    ensures ClientDo(s, SendCancel(c, g)).callers == s.callers
  {
  }

  /** The exchange is about to send an error, whatever becomes of the context. */
  predicate OffersError(s: State, sid: nat) {
    sid in s.exchangePc && s.exchangePc[sid].Offering? && s.exchangePc[sid].reply.body.DaemonError?
  }

  /** The step by which the exchange gives up, wherever it is. */
  function Closing(s: State, sid: nat): StreamLabel
    requires sid in s.exchangePc
  {
    match s.exchangePc[sid]
    case Writing => WriteRequest(sid, false, [])
    case Reading => ReadReply(sid, false, [])
    case _ => GiveUp(sid)
  }

  lemma ExchangeCloses(s: State, c: CallId, g: nat, sid: nat)
    requires InExchange(s, c, g, sid) && g in s.ctxDone && s.exchangePc[sid] != Closed && !OffersError(s, sid)
    ensures StreamEnabled(s, Closing(s, sid))
    ensures InExchange(StreamDo(s, Closing(s, sid)), c, g, sid)
    ensures StreamDo(s, Closing(s, sid)).exchangePc[sid] == Closed
  {
  }

  lemma TakesNil(s: State, c: CallId, g: nat, sid: nat)
    requires InExchange(s, c, g, sid) && s.exchangePc[sid] == Closed
    ensures DaemonEnabled(s, TakeNil(g)) && HasNil(DaemonDo(s, TakeNil(g)), c)
  {
  }

  /** The exchange on the stream fails or gives up. */
  predicate ClosesExchange(l: Label, sid: nat) {
    l.OnStream? &&
    match l.stream
    case WriteRequest(i, ok, _) => i == sid && !ok
    case ReadReply(i, ok, _) => i == sid && !ok
    case GiveUp(i) => i == sid
    case _ => false
  }

  function NilRun(run: seq<Label>, closing: seq<Label>, g: nat): seq<Label> {
    run + closing + [Daemon(TakeNil(g))]
  }

  /** After `run` at most the end of the exchange is needed for task `g` to take nil. */
  ghost predicate EndsInNil(run: seq<Label>, c: CallId, g: nat, sid: nat, closing: seq<Label>) {
    && |closing| <= 1 && (closing != [] ==> ClosesExchange(closing[0], sid))
    && Exec(NilRun(run, closing, g)).Some? && HasNil(Exec(NilRun(run, closing, g)).value, c)
  }

  lemma DoneMayEndInNil(run: seq<Label>, c: CallId, g: nat, sid: nat)
    requires Exec(run).Some? && InExchange(Exec(run).value, c, g, sid) && g in Exec(run).value.ctxDone
    requires !OffersError(Exec(run).value, sid)
    ensures exists closing :: EndsInNil(run, c, g, sid, closing)
  {
    hide Exec, StreamDo, DaemonDo, StreamEnabled, DaemonEnabled, InExchange, HasNil;
    assert sid in Exec(run).value.exchangePc by { StreamThere(Exec(run).value, c, g, sid); }
    var closing: seq<Label> := [];
    assert run + closing == run;
    if Exec(run).value.exchangePc[sid] != Closed {
      ExchangeCloses(Exec(run).value, c, g, sid);
      ExecStep(run, OnStream(Closing(Exec(run).value, sid)));
      closing := [OnStream(Closing(Exec(run).value, sid))];
    }
    TakesNil(Exec(run + closing).value, c, g, sid);
    ExecStep(run + closing, Daemon(TakeNil(g)));
    assert EndsInNil(run, c, g, sid, closing);
  }

  lemma StreamThere(s: State, c: CallId, g: nat, sid: nat)
    requires InExchange(s, c, g, sid)
    ensures sid in s.exchangePc
  {
  }

  /** The call is at its exchange on stream `sid`. */
  ghost predicate AtExchange(s: State, c: CallId, sid: nat) {
    && c in s.callers && s.callers[c].op.CallOp? && s.callers[c].task in s.taskPc
    && s.taskPc[s.callers[c].task] == Exchanging(sid)
  }

  /**
    A call in exchange may yet be answered nil, unless an error is on offer: its client's context ends,
    its Cancel is written and served, and nothing else happens but the end of the call's exchange.
   */
  lemma NilCanHappen(run: seq<Label>, c: CallId, sid: nat)
    requires Exec(run).Some? && AtExchange(Exec(run).value, c, sid) && !OffersError(Exec(run).value, sid)
    ensures exists g, closing ::
      EndsInNil(CancelRun(run, c, g), c, Exec(run).value.callers[c].task, sid, closing)
  {
    hide Exec, InExchange, EndsInNil;
    RunInv(run);
    var s := Exec(run).value;
    ExchangeKnown(s, c, sid);
    var g, g' := s.callers[c].task, Above(s.tasks.Keys);
    CancelReaches(run, c, g, sid, g');
    DoneMayEndInNil(CancelRun(run, c, g'), c, g, sid);
  }

  // ---------------------------------------------------------------------------
  // The exact condition
  // ---------------------------------------------------------------------------

  /** The call's task has an error on offer, or an answer that is not nil, or is past answering. */
  ghost predicate SomeAnswer(s: State, c: CallId, sid: nat) {
    && c in s.callers && StreamAt(s, sid) && s.streams[sid].task == s.callers[c].task
    && s.callers[c].task in s.tasks && s.callers[c].task in s.taskPc
    && match s.taskPc[s.callers[c].task]
       case Exchanging(i) => i == sid && OffersError(s, sid)
       case Answering(reply) => reply.Some?
       case Answered => true
       case Over => true
       case _ => false
  }

  lemma SomeAnswerClient(s: State, l: ClientLabel, c: CallId, sid: nat)
    requires ClientEnabled(s, l) && SomeAnswer(s, c, sid)
    ensures SomeAnswer(ClientDo(s, l), c, sid)
  {
    hide Registry.Enabled, Registry.Do;
  }

  lemma SomeAnswerDaemon(s: State, l: DaemonLabel, c: CallId, sid: nat)
    requires OneStream(s.taskPc, s.streams) && DaemonEnabled(s, l) && SomeAnswer(s, c, sid)
    ensures SomeAnswer(DaemonDo(s, l), c, sid)
  {
    hide Registry.Enabled, Registry.Do, Registry.Taken;
  }

  /** On a stream nothing but its task takes the error. */
  lemma ErrorStays(s: State, l: StreamLabel, sid: nat)
    requires StreamEnabled(s, l) && StreamAt(s, sid)
    ensures StreamAt(StreamDo(s, l), sid) && (OffersError(s, sid) ==> OffersError(StreamDo(s, l), sid))
  {
  }

  lemma SomeAnswerStream(s: State, l: StreamLabel, c: CallId, sid: nat)
    requires StreamEnabled(s, l) && SomeAnswer(s, c, sid)
    ensures SomeAnswer(StreamDo(s, l), c, sid)
  {
    hide StreamEnabled, StreamDo, OffersError;
    ErrorStays(s, l, sid);
  }

  lemma {:induction false} NoNilAfterError(run: seq<Label>, more: seq<Label>, c: CallId, sid: nat)
    requires Exec(run).Some? && SomeAnswer(Exec(run).value, c, sid) && Exec(run + more).Some?
    ensures SomeAnswer(Exec(run + more).value, c, sid)
    decreases |more|
  {
    hide SomeAnswer, ClientEnabled, ClientDo, DaemonEnabled, DaemonDo, StreamEnabled, StreamDo;
    if more == [] {
      assert run + more == run;
    } else {
      var n := |more| - 1;
      var before := run + more[..n];
      assert (run + more)[..|run + more| - 1] == before;
      NoNilAfterError(run, more[..n], c, sid);
      var s := Exec(before).value;
      match more[n]
      case Client(l) => SomeAnswerClient(s, l, c, sid);
      case OnStream(l) => SomeAnswerStream(s, l, c, sid);
      case Daemon(l) =>
        RunInv(before);
        assert OneStream(s.taskPc, s.streams) by { Open(s); }
        SomeAnswerDaemon(s, l, c, sid);
    }
  }

  ghost predicate NilAfter(run: seq<Label>, c: CallId, more: seq<Label>) {
    Exec(run + more).Some? && HasNil(Exec(run + more).value, c)
  }

  /** A call in exchange is answered nil in some continuation if and only if no error is on offer. */
  lemma NilIff(run: seq<Label>, c: CallId, sid: nat)
    requires Exec(run).Some? && AtExchange(Exec(run).value, c, sid)
    ensures (exists more :: NilAfter(run, c, more)) <==> !OffersError(Exec(run).value, sid)
  {
    hide Exec, OffersError;
    var s := Exec(run).value;
    if OffersError(s, sid) {
      RunInv(run);
      ExchangeKnown(s, c, sid);
      assert SomeAnswer(s, c, sid);
      forall more ensures !NilAfter(run, c, more) {
        if Exec(run + more).Some? { NoNilAfterError(run, more, c, sid); }
      }
    } else {
      NilCanHappen(run, c, sid);
      var g, closing :| EndsInNil(CancelRun(run, c, g), c, s.callers[c].task, sid, closing);
      var all := NilRun(CancelRun(run, c, g), closing, s.callers[c].task);
      assert run + all[|run|..] == all;
      assert NilAfter(run, c, all[|run|..]);
    }
  }

  // ---------------------------------------------------------------------------
  // An error that nobody takes
  // ---------------------------------------------------------------------------

  /** The exchange sends an error on a channel from which its task will not receive. */
  ghost predicate Blocked(s: State, sid: nat) {
    && StreamAt(s, sid) && OffersError(s, sid) && s.streams[sid].task in s.tasks
    && s.streams[sid].task in s.taskPc && !s.taskPc[s.streams[sid].task].Exchanging?
  }

  lemma BlockedClient(s: State, l: ClientLabel, sid: nat)
    requires ClientEnabled(s, l) && Blocked(s, sid)
    ensures Blocked(ClientDo(s, l), sid)
  {
    hide Registry.Enabled, Registry.Do;
  }

  lemma BlockedDaemon(s: State, l: DaemonLabel, sid: nat)
    requires OneStream(s.taskPc, s.streams) && DaemonEnabled(s, l) && Blocked(s, sid)
    ensures Blocked(DaemonDo(s, l), sid)
  {
    hide Registry.Enabled, Registry.Do, Registry.Taken;
  }

  lemma BlockedStream(s: State, l: StreamLabel, sid: nat)
    requires StreamEnabled(s, l) && Blocked(s, sid)
    ensures Blocked(StreamDo(s, l), sid)
  {
    hide StreamEnabled, StreamDo, OffersError;
    ErrorStays(s, l, sid);
  }

  lemma {:induction false} BlockedForGood(run: seq<Label>, more: seq<Label>, sid: nat)
    requires Exec(run).Some? && Blocked(Exec(run).value, sid) && Exec(run + more).Some?
    ensures Blocked(Exec(run + more).value, sid)
    decreases |more|
  {
    hide Blocked, ClientEnabled, ClientDo, DaemonEnabled, DaemonDo, StreamEnabled, StreamDo;
    if more == [] {
      assert run + more == run;
    } else {
      var n := |more| - 1;
      var before := run + more[..n];
      assert (run + more)[..|run + more| - 1] == before;
      BlockedForGood(run, more[..n], sid);
      var s := Exec(before).value;
      match more[n]
      case Client(l) => BlockedClient(s, l, sid);
      case OnStream(l) => BlockedStream(s, l, sid);
      case Daemon(l) =>
        RunInv(before);
        assert OneStream(s.taskPc, s.streams) by { Open(s); }
        BlockedDaemon(s, l, sid);
    }
  }

  ghost predicate ClosesAfter(run: seq<Label>, sid: nat, more: seq<Label>) {
    var r := Exec(run + more);
    r.Some? && sid in r.value.exchangePc && r.value.exchangePc[sid] == Closed
  }

  lemma TaskTakesError(s: State, sid: nat)
    requires OneStream(s.taskPc, s.streams) && StreamAt(s, sid) && OffersError(s, sid)
    requires s.streams[sid].task in s.tasks && s.streams[sid].task in s.taskPc
    requires s.taskPc[s.streams[sid].task].Exchanging?
    ensures DaemonEnabled(s, TakeReply(s.streams[sid].task))
    ensures var s' := DaemonDo(s, TakeReply(s.streams[sid].task)); sid in s'.exchangePc && s'.exchangePc[sid] == Closed
  {
  }

  lemma StreamTask(s: State, sid: nat)
    requires Inv(s) && sid in s.streams
    ensures StreamAt(s, sid) && s.streams[sid].task in s.tasks && s.streams[sid].task in s.taskPc
    ensures OneStream(s.taskPc, s.streams)
  {
    assert s.taskPc.Keys == s.tasks.Keys && s.exchangePc.Keys == s.streams.Keys && s.handlerPc.Keys == s.streams.Keys
      by { Open(s); }
    assert OneStream(s.taskPc, s.streams) by { Open(s); }
    hide Inv;
  }

  /** An exchange that offers an error ends in some continuation if and only if its task still listens. */
  lemma ErrorTakenIff(run: seq<Label>, sid: nat)
    requires Exec(run).Some? && sid in Exec(run).value.streams && OffersError(Exec(run).value, sid)
    requires Exec(run).value.streams[sid].task in Exec(run).value.taskPc
    ensures (exists more :: ClosesAfter(run, sid, more)) <==>
            Exec(run).value.taskPc[Exec(run).value.streams[sid].task].Exchanging?
  {
    hide Exec, OneStream, DaemonEnabled, DaemonDo;
    var s := Exec(run).value;
    RunInv(run);
    StreamTask(s, sid);
    if s.taskPc[s.streams[sid].task].Exchanging? {
      TaskTakesError(s, sid);
      ExecStep(run, Daemon(TakeReply(s.streams[sid].task)));
      assert ClosesAfter(run, sid, [Daemon(TakeReply(s.streams[sid].task))]);
    } else {
      forall more ensures !ClosesAfter(run, sid, more) {
        if Exec(run + more).Some? { BlockedForGood(run, more, sid); }
      }
    }
  }

  lemma TakesCancel(s: State, c: CallId, g: nat, sid: nat)
    requires InExchange(s, c, g, sid) && g in s.ctxDone && OffersError(s, sid)
    ensures DaemonEnabled(s, TakeCancel(g)) && Blocked(DaemonDo(s, TakeCancel(g)), sid)
  {
  }

  /** A Cancel that comes while an error is on offer can leave the exchange behind so. */
  lemma BlockedCanHappen(run: seq<Label>, c: CallId, sid: nat)
    requires Exec(run).Some? && AtExchange(Exec(run).value, c, sid) && OffersError(Exec(run).value, sid)
    ensures exists g ::
      var r := Exec(CancelRun(run, c, g) + [Daemon(TakeCancel(Exec(run).value.callers[c].task))]);
      r.Some? && Blocked(r.value, sid)
  {
    hide Exec, InExchange, DaemonEnabled, DaemonDo;
    RunInv(run);
    var s := Exec(run).value;
    ExchangeKnown(s, c, sid);
    var g, g' := s.callers[c].task, Above(s.tasks.Keys);
    CancelReaches(run, c, g, sid, g');
    TakesCancel(Exec(CancelRun(run, c, g')).value, c, g, sid);
    ExecStep(CancelRun(run, c, g'), Daemon(TakeCancel(g)));
  }
}
