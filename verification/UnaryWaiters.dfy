/** The responses that handlers' clients send back: who waits for them, and which of them nobody takes. */
module UnaryWaiters {
  import opened Options
  import opened Protocol
  import opened UnaryCalls
  import opened UnaryInvariant
  import opened UnarySteps
  import opened UnaryTheorems
  import Registry
  import UnaryProgress

  // ---------------------------------------------------------------------------
  // The waiters' map
  // ---------------------------------------------------------------------------

  /** The handler of stream `sid` has stored its channel and not yet left, under this key. */
  ghost predicate Waits(s: State, sid: nat, key: (Peer, CallId)) {
    && sid in s.streams && sid in s.handlerPc && sid in s.toCallee && IsWaiting(s.handlerPc[sid])
    && WaiterKey(s, sid) == key
  }

  ghost predicate WaiterStored(s: State, sid: nat) {
    sid in s.streams && sid in s.handlerPc && sid in s.toCallee && IsWaiting(s.handlerPc[sid]) ==>
      WaiterKey(s, sid) in s.responseWaiters && s.responseWaiters[WaiterKey(s, sid)] == sid
  }

  ghost predicate AllStored(s: State) {
    forall sid :: sid in s.streams ==> WaiterStored(s, sid)
  }

  /** No two streams have the same key. */
  lemma KeysDiffer(s: State, i: nat, j: nat)
    requires Inv(s) && i in s.streams && j in s.streams && i in s.toCallee && j in s.toCallee && i != j
    ensures WaiterKey(s, i) != WaiterKey(s, j)
  {
    assert Carried(s.tasks, s.streams, s.toCallee) by { Open(s); }
    assert StreamsKnown(s.tasks, s.streams) by { Open(s); }
    assert Origins(s.callers, s.tasks) by { Open(s); }
    assert OneStream(s.taskPc, s.streams) by { Open(s); }
    hide Inv;
    StreamTask(s, i);
    StreamTask(s, j);
    OriginOf(s, s.streams[i].task);
    OriginOf(s, s.streams[j].task);
  }

  /** The request that goes over a stream is the one already on it, if any is. */
  lemma SameRequest(s: State, sid: nat)
    requires Inv(s) && StreamAt(s, sid) && sid in s.toCallee
    ensures s.toCallee[sid] == s.tasks[s.streams[sid].task].req
  {
    assert Carried(s.tasks, s.streams, s.toCallee) by { Open(s); }
    hide Inv;
  }

  lemma WaitingHasRequest(s: State, sid: nat)
    requires Inv(s) && sid in s.streams && sid in s.handlerPc && IsWaiting(s.handlerPc[sid])
    ensures sid in s.toCallee
  {
    assert Waiters(s.streams, s.handlerPc, s.toCallee, s.responseWaiters) by { Open(s); }
    hide Inv;
  }

  lemma ClientKeepsWaiters(s: State, l: ClientLabel)
    requires ClientEnabled(s, l)
    ensures var s' := ClientDo(s, l);
      && s'.streams == s.streams && s'.handlerPc == s.handlerPc && s'.toCallee == s.toCallee
      && s'.responseWaiters == s.responseWaiters
  {
    hide Registry.Enabled, Registry.Do, OutcomeOf, FutureAt;
  }

  lemma DaemonKeepsWaiters(s: State, l: DaemonLabel, sid: nat)
    requires DaemonEnabled(s, l) && sid in DaemonDo(s, l).streams && (sid in s.streams ==> WaiterStored(s, sid))
    ensures WaiterStored(DaemonDo(s, l), sid)
  {
    hide Registry.Enabled, Registry.Do, Registry.Taken;
  }

  lemma OwnStreamStep(s: State, l: StreamLabel)
    requires StreamEnabled(s, l) && WaiterStored(s, l.sid)
    requires IsWaiting(s.handlerPc[l.sid]) ==> l.sid in s.toCallee
    requires l.sid in s.toCallee ==> s.toCallee[l.sid] == s.tasks[s.streams[l.sid].task].req
    ensures WaiterStored(StreamDo(s, l), l.sid)
  {
  }

  lemma OtherStreamStep(s: State, l: StreamLabel, sid: nat)
    requires StreamEnabled(s, l) && sid in s.streams && WaiterStored(s, sid) && l.sid != sid
    requires sid in s.toCallee && l.sid in s.toCallee ==> WaiterKey(s, sid) != WaiterKey(s, l.sid)
    ensures WaiterStored(StreamDo(s, l), sid)
  {
  }

  lemma StreamKeepsWaiters(s: State, l: StreamLabel, sid: nat)
    requires Inv(s) && StreamEnabled(s, l) && sid in s.streams && WaiterStored(s, sid)
    ensures WaiterStored(StreamDo(s, l), sid)
  {
    assert StreamAt(s, l.sid);
    hide StreamDo, StreamEnabled, WaiterStored;
    if l.sid == sid {
      if sid in s.toCallee { SameRequest(s, sid); }
      if IsWaiting(s.handlerPc[sid]) { WaitingHasRequest(s, sid); }
      hide Inv;
      OwnStreamStep(s, l);
    } else {
      if sid in s.toCallee && l.sid in s.toCallee { KeysDiffer(s, sid, l.sid); }
      hide Inv;
      OtherStreamStep(s, l, sid);
    }
  }

  lemma StepKeepsWaiters(s: State, l: Label)
    requires Inv(s) && Enabled(s, l) && AllStored(s)
    ensures AllStored(Do(s, l))
  {
    hide Inv, ClientEnabled, DaemonEnabled, StreamEnabled, ClientDo, DaemonDo, StreamDo, WaiterStored;
    forall sid | sid in Do(s, l).streams ensures WaiterStored(Do(s, l), sid) {
      match l
      case Client(x) =>
        ClientKeepsWaiters(s, x);
        SameWaiter(s, ClientDo(s, x), sid);
      case Daemon(x) => DaemonKeepsWaiters(s, x, sid);
      case OnStream(x) => StreamKeepsWaiters(s, x, sid);
    }
  }

  lemma SameWaiter(s: State, s': State, sid: nat)
    requires WaiterStored(s, sid)
    requires s'.streams == s.streams && s'.handlerPc == s.handlerPc && s'.toCallee == s.toCallee
    requires s'.responseWaiters == s.responseWaiters
    ensures WaiterStored(s', sid)
  {
  }

  lemma {:induction false} RunWaiters(run: seq<Label>)
    requires Exec(run).Some?
    ensures AllStored(Exec(run).value)
    decreases |run|
  {
    hide Enabled, Do, AllStored, Inv;
    if run == [] {
      assert AllStored(INIT) by { NoStreams(); }
    } else {
      var n := |run| - 1;
      LastStep(run);
      RunWaiters(run[..n]);
      RunInv(run[..n]);
      StepKeepsWaiters(Exec(run[..n]).value, run[n]);
    }
  }

  lemma NoStreams()
    ensures AllStored(INIT)
  {
  }

  ghost predicate WaitersExact(s: State) {
    forall key, sid :: key in s.responseWaiters && s.responseWaiters[key] == sid <==> Waits(s, sid, key)
  }

  /** The waiters' map holds exactly the stream handlers at work, each under its daemon and its call's id. */
  lemma WaitersHold(run: seq<Label>)
    requires Exec(run).Some?
    ensures WaitersExact(Exec(run).value)
  {
    hide Exec;
    RunInv(run);
    RunWaiters(run);
    var s := Exec(run).value;
    assert Waiters(s.streams, s.handlerPc, s.toCallee, s.responseWaiters) by { Open(s); }
    hide Inv;
    forall key, sid ensures key in s.responseWaiters && s.responseWaiters[key] == sid <==> Waits(s, sid, key) {
      if Waits(s, sid, key) { assert WaiterStored(s, sid); }
    }
  }

  // ---------------------------------------------------------------------------
  // Responses that nobody takes
  // ---------------------------------------------------------------------------

  /** Goroutine `g` sends a response to the handler of stream `sid`, which is past receiving. */
  ghost predicate Unheard(s: State, g: nat, sid: nat) {
    && TaskAt(s, g, Handing(sid)) && sid in s.streams && sid in s.handlerPc
    && (s.handlerPc[sid].Took? || s.handlerPc[sid].Left?)
  }

  lemma UnheardClient(s: State, l: ClientLabel, g: nat, sid: nat)
    requires ClientEnabled(s, l) && Unheard(s, g, sid)
    ensures Unheard(ClientDo(s, l), g, sid)
  {
    hide Registry.Enabled, Registry.Do, OutcomeOf, FutureAt;
  }

  lemma UnheardDaemon(s: State, l: DaemonLabel, g: nat, sid: nat)
    requires DaemonEnabled(s, l) && Unheard(s, g, sid)
    ensures Unheard(DaemonDo(s, l), g, sid)
  {
    hide Registry.Enabled, Registry.Do, Registry.Taken;
  }

  lemma UnheardStream(s: State, l: StreamLabel, g: nat, sid: nat)
    requires StreamEnabled(s, l) && Unheard(s, g, sid)
    ensures Unheard(StreamDo(s, l), g, sid)
  {
  }

  lemma {:induction false} UnheardForGood(run: seq<Label>, more: seq<Label>, g: nat, sid: nat)
    requires Exec(run).Some? && Unheard(Exec(run).value, g, sid) && Exec(run + more).Some?
    ensures Unheard(Exec(run + more).value, g, sid)
    decreases |more|
  {
    hide Unheard, ClientEnabled, ClientDo, DaemonEnabled, DaemonDo, StreamEnabled, StreamDo;
    if more == [] {
      assert run + more == run;
    } else {
      var n := |more| - 1;
      assert (run + more)[..|run + more| - 1] == run + more[..n];
      UnheardForGood(run, more[..n], g, sid);
      var s := Exec(run + more[..n]).value;
      match more[n]
      case Client(l) => UnheardClient(s, l, g, sid);
      case Daemon(l) => UnheardDaemon(s, l, g, sid);
      case OnStream(l) => UnheardStream(s, l, g, sid);
    }
  }

  /** The response is on its way to a handler that may still receive it. */
  ghost predicate Heard(s: State, g: nat, sid: nat) {
    && TaskAt(s, g, Handing(sid)) && StreamAt(s, sid) && sid in s.toCallee && s.toCallee[sid].body.CallUnary?
    && !s.handlerPc[sid].Took? && !s.handlerPc[sid].Left?
  }

  lemma HeardUnless(s: State, g: nat, sid: nat)
    requires Inv(s) && TaskAt(s, g, Handing(sid))
    ensures Heard(s, g, sid) || Unheard(s, g, sid)
  {
    assert HandingRight(s.tasks, s.taskPc, s.toCallee) by { Open(s); }
    assert Carried(s.tasks, s.streams, s.toCallee) by { Open(s); }
    assert StreamsKnown(s.tasks, s.streams) by { Open(s); }
    assert s.exchangePc.Keys == s.streams.Keys && s.handlerPc.Keys == s.streams.Keys by { Open(s); }
    assert s.toCallee.Keys <= s.streams.Keys by { Open(s); }
    hide Inv;
    assert sid in s.toCallee.Keys;
    StreamTask(s, sid);
  }

  lemma AcceptHeard(s: State, g: nat, sid: nat)
    requires Heard(s, g, sid) && s.handlerPc[sid] == Accepting
    ensures StreamEnabled(s, AcceptStream(sid))
    ensures var s' := StreamDo(s, AcceptStream(sid)); Heard(s', g, sid) && s'.handlerPc[sid] == Stored
  {
  }

  lemma AnnounceHeard(s: State, g: nat, sid: nat, t: nat)
    requires Heard(s, g, sid) && s.handlerPc[sid] == Stored && t !in s.arrivals
    ensures StreamEnabled(s, Announce(sid, t))
    ensures var s' := StreamDo(s, Announce(sid, t)); Heard(s', g, sid) && s'.handlerPc[sid] == Awaiting
  {
  }

  lemma HandHeard(s: State, g: nat, sid: nat)
    requires Heard(s, g, sid) && s.handlerPc[sid] == Awaiting
    ensures DaemonEnabled(s, HandResponse(g))
    ensures var s' := DaemonDo(s, HandResponse(g)); TaskAt(s', g, Over) && s'.handlerPc[sid] == Took(s.tasks[g].req)
  {
  }

  ghost predicate TakenAfter(run: seq<Label>, g: nat, more: seq<Label>) {
    run <= more && Exec(more).Some? && TaskAt(Exec(more).value, g, Over)
  }

  function ToAwaiting(pc: HandlerPc): nat {
    match pc
    case Accepting => 2
    case Stored => 1
    case _ => 0
  }

  lemma {:induction false} HeardIsTaken(run: seq<Label>, g: nat, sid: nat)
    requires Exec(run).Some? && Heard(Exec(run).value, g, sid)
    ensures exists more :: TakenAfter(run, g, more)
    decreases ToAwaiting(Exec(run).value.handlerPc[sid])
  {
    var s, t := Exec(run).value, UnaryProgress.Above(Exec(run).value.arrivals.Keys);
    if s.handlerPc[sid] == Accepting {
      AcceptHeard(s, g, sid);
      hide Exec, Heard, StreamEnabled, StreamDo, TaskAt;
      ExecStep(run, OnStream(AcceptStream(sid)));
      HeardIsTaken(run + [OnStream(AcceptStream(sid))], g, sid);
      var more :| TakenAfter(run + [OnStream(AcceptStream(sid))], g, more);
      assert TakenAfter(run, g, more);
    } else if s.handlerPc[sid] == Stored {
      AnnounceHeard(s, g, sid, t);
      hide Exec, Heard, StreamEnabled, StreamDo, TaskAt;
      ExecStep(run, OnStream(Announce(sid, t)));
      HeardIsTaken(run + [OnStream(Announce(sid, t))], g, sid);
      var more :| TakenAfter(run + [OnStream(Announce(sid, t))], g, more);
      assert TakenAfter(run, g, more);
    } else {
      HandHeard(s, g, sid);
      hide Exec, Heard, DaemonEnabled, DaemonDo, TaskAt;
      ExecStep(run, Daemon(HandResponse(g)));
      assert TakenAfter(run, g, run + [Daemon(HandResponse(g))]);
    }
  }

  /**
    A goroutine that hands over a response ends in some continuation if and only if the stream's
    handler has not taken another response and has not left.
   */
  lemma ResponseTakenIff(run: seq<Label>, g: nat, sid: nat)
    requires Exec(run).Some? && TaskAt(Exec(run).value, g, Handing(sid))
    ensures (exists more :: TakenAfter(run, g, more)) <==> !Unheard(Exec(run).value, g, sid)
  {
    hide Exec, Inv;
    RunInv(run);
    var s := Exec(run).value;
    HeardUnless(s, g, sid);
    if Unheard(s, g, sid) {
      forall more ensures !TakenAfter(run, g, more) {
        if run <= more && Exec(more).Some? {
          assert run + more[|run|..] == more;
          UnheardForGood(run, more[|run|..], g, sid);
        }
      }
    } else {
      HeardIsTaken(run, g, sid);
    }
  }

  lemma GoneLeaves(s: State, g: nat, sid: nat, t: nat)
    requires Heard(s, g, sid) && s.handlerPc[sid] == Awaiting && t !in s.arrivals
    ensures StreamEnabled(s, PeerGone(sid, t))
    ensures var s' := StreamDo(s, PeerGone(sid, t));
      && Unheard(s', g, sid) && t in s'.arrivals
      && s'.arrivals[t] == Arrival(s.streams[sid].owner, Reply(s.toCallee[sid].callId, Cancelled), sid)
  {
  }

  /**
    So it comes when the calling peer goes away while the response is on its way: the handler tells
    its client that the call is cancelled, and leaves.
   */
  lemma UnheardCanHappen(run: seq<Label>, g: nat, sid: nat)
    requires Exec(run).Some? && TaskAt(Exec(run).value, g, Handing(sid))
    requires sid in Exec(run).value.handlerPc && Exec(run).value.handlerPc[sid] == Awaiting
    ensures sid in Exec(run).value.streams && sid in Exec(run).value.toCallee
    ensures exists t ::
      var r := Exec(run + [OnStream(PeerGone(sid, t))]); var s := Exec(run).value;
      && r.Some? && Unheard(r.value, g, sid) && t in r.value.arrivals
      && r.value.arrivals[t].conn == s.streams[sid].owner
      && r.value.arrivals[t].reply == Reply(s.toCallee[sid].callId, Cancelled)
  {
    hide Exec, Inv;
    RunInv(run);
    var s := Exec(run).value;
    HeardUnless(s, g, sid);
    var t := UnaryProgress.Above(s.arrivals.Keys);
    GoneLeaves(s, g, sid, t);
    hide StreamEnabled, StreamDo;
    ExecStep(run, OnStream(PeerGone(sid, t)));
  }
}
