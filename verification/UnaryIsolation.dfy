/**
  Calls do not interfere: whatever steps of a call are left out of a run from some point on, its
  Cancel among them, every other operation goes exactly as before.
 */
module UnaryIsolation {
  import opened Protocol
  import opened UnaryCalls
  import opened UnaryInvariant
  import opened UnarySteps
  import opened UnaryTheorems
  import opened Agreement
  import Registry

  // ---------------------------------------------------------------------------
  // What belongs to a call
  // ---------------------------------------------------------------------------

  predicate CallTask(s: State, g: nat, c: CallId) {
    g in s.tasks && s.tasks[g].req.callId == c
  }

  predicate CallStream(s: State, sid: nat, c: CallId) {
    sid in s.streams && CallTask(s, s.streams[sid].task, c)
  }

  predicate CallArrival(s: State, t: nat, c: CallId) {
    t in s.arrivals && s.arrivals[t].reply.callId == c
  }

  /** Is this step one of call `c`: of its caller, its handler, or a goroutine that serves it? */
  predicate StepOf(s: State, l: Label, c: CallId) {
    match l
    case Client(x) =>
      if x.RouteReply? || x.StartHandler? || x.FinishHandler? then CallArrival(s, x.t, c) else x.c == c
    case Daemon(x) => !x.Connection? && CallTask(s, x.g, c)
    case OnStream(x) => CallStream(s, x.sid, c)
  }

  // ---------------------------------------------------------------------------
  // Two states that agree outside a call
  // ---------------------------------------------------------------------------

  function TasksOf(tasks: map<nat, Task>, c: CallId): set<nat> {
    set g | g in tasks && tasks[g].req.callId == c
  }

  function StreamsOf(tasks: map<nat, Task>, streams: map<nat, Stream>, c: CallId): set<nat> {
    set i | i in streams && streams[i].task in tasks && tasks[streams[i].task].req.callId == c
  }

  function ArrivalsOf(arrivals: map<nat, Arrival>, c: CallId): set<nat> {
    set t | t in arrivals && arrivals[t].reply.callId == c
  }

  ghost predicate SameClients(s: State, r: State, c: CallId) {
    && SameMap(s.callers, r.callers, {c}) && SameMap(s.callerPc, r.callerPc, {c})
    && SameSet(s.ended, r.ended, {c}) && SameSet(s.cancelled, r.cancelled, {c}) && SameSet(s.accepted, r.accepted, {c})
    && r.registries == s.registries && r.unaryHandlers == s.unaryHandlers
  }

  ghost predicate SameTasks(s: State, r: State, c: CallId) {
    && r.tasks.Keys <= s.tasks.Keys && SameMap(s.tasks, r.tasks, TasksOf(s.tasks, c))
    && SameMap(s.taskPc, r.taskPc, TasksOf(s.tasks, c)) && SameSet(s.ctxDone, r.ctxDone, TasksOf(s.tasks, c))
  }

  ghost predicate SameStreams(s: State, r: State, c: CallId) {
    var mine := StreamsOf(s.tasks, s.streams, c);
    && r.streams.Keys <= s.streams.Keys && SameMap(s.streams, r.streams, mine)
    && SameMap(s.exchangePc, r.exchangePc, mine) && SameMap(s.handlerPc, r.handlerPc, mine)
    && SameMap(s.toCallee, r.toCallee, mine) && SameMap(s.toCaller, r.toCaller, mine)
  }

  ghost predicate SameArrivals(s: State, r: State, c: CallId) {
    var mine := ArrivalsOf(s.arrivals, c);
    && r.arrivals.Keys <= s.arrivals.Keys && SameMap(s.arrivals, r.arrivals, mine)
    && SameMap(s.arrivalPc, r.arrivalPc, mine) && SameMap(s.runs, r.runs, mine)
  }

  ghost predicate SameShared(s: State, r: State, c: CallId) {
    && r.channels <= s.channels && SameKeyed(s.callFutures, r.callFutures, c)
    && SameKeyed(s.cancelUnary, r.cancelUnary, c) && SameKeyed(s.responseWaiters, r.responseWaiters, c)
  }

  /** `r` is `s` as far as anything but call `c` is concerned, and has nothing that `s` has not. */
  ghost predicate Same(s: State, r: State, c: CallId) {
    SameClients(s, r, c) && SameTasks(s, r, c) && SameStreams(s, r, c) && SameArrivals(s, r, c) && SameShared(s, r, c)
  }

  lemma SameSelf(s: State, c: CallId)
    ensures Same(s, s, c)
  {
  }

  // ---------------------------------------------------------------------------
  // New goroutines, streams and messages
  // ---------------------------------------------------------------------------

  ghost predicate StreamsHaveTasks(s: State) {
    forall i :: i in s.streams ==> s.streams[i].task in s.tasks
  }

  lemma TaskAdded(s: State, g: nat, task: Task, c: CallId)
    requires g !in s.tasks && StreamsHaveTasks(s)
    ensures task.req.callId == c ==> TasksOf(s.tasks[g := task], c) == TasksOf(s.tasks, c) + {g}
    ensures task.req.callId != c ==> TasksOf(s.tasks[g := task], c) == TasksOf(s.tasks, c)
    ensures StreamsOf(s.tasks[g := task], s.streams, c) == StreamsOf(s.tasks, s.streams, c)
  {
  }

  lemma StreamAdded(s: State, i: nat, st: Stream, c: CallId)
    requires i !in s.streams
    ensures st.task in TasksOf(s.tasks, c) ==>
              StreamsOf(s.tasks, s.streams[i := st], c) == StreamsOf(s.tasks, s.streams, c) + {i}
    ensures st.task !in TasksOf(s.tasks, c) ==>
              StreamsOf(s.tasks, s.streams[i := st], c) == StreamsOf(s.tasks, s.streams, c)
  {
  }

  lemma ArrivalAdded(s: State, t: nat, a: Arrival, c: CallId)
    requires t !in s.arrivals
    ensures a.reply.callId == c ==> ArrivalsOf(s.arrivals[t := a], c) == ArrivalsOf(s.arrivals, c) + {t}
    ensures a.reply.callId != c ==> ArrivalsOf(s.arrivals[t := a], c) == ArrivalsOf(s.arrivals, c)
  {
  }

  lemma EraseTask(s: State, r: State, c: CallId, g: nat, task: Task)
    requires Same(s, r, c) && g !in s.tasks && StreamsHaveTasks(s) && task.req.callId == c
    ensures Same(s.(tasks := s.tasks[g := task], taskPc := s.taskPc[g := Fresh]), r, c)
  {
    hide SameMap, SameSet, SameKeyed, TasksOf, StreamsOf, ArrivalsOf;
    var mine := TasksOf(s.tasks, c);
    TaskAdded(s, g, task, c);
    MoreMine(s.tasks, r.tasks, mine, mine + {g});
    MoreMine(s.taskPc, r.taskPc, mine, mine + {g});
    MoreMineSet(s.ctxDone, r.ctxDone, mine, mine + {g});
    WriteMine(s.tasks, r.tasks, mine + {g}, g, task);
    WriteMine(s.taskPc, r.taskPc, mine + {g}, g, Fresh);
  }

  lemma KeepTask(s: State, r: State, c: CallId, g: nat, task: Task)
    requires Same(s, r, c) && g !in s.tasks && StreamsHaveTasks(s) && task.req.callId != c
    ensures Same(s.(tasks := s.tasks[g := task], taskPc := s.taskPc[g := Fresh]),
                 r.(tasks := r.tasks[g := task], taskPc := r.taskPc[g := Fresh]), c)
  {
    hide SameMap, SameSet, SameKeyed, TasksOf, StreamsOf, ArrivalsOf;
    TaskAdded(s, g, task, c);
    WriteBoth(s.tasks, r.tasks, TasksOf(s.tasks, c), g, task);
    WriteBoth(s.taskPc, r.taskPc, TasksOf(s.tasks, c), g, Fresh);
  }

  lemma EraseArrival(s: State, r: State, c: CallId, t: nat, a: Arrival)
    requires Same(s, r, c) && t !in s.arrivals && a.reply.callId == c
    ensures Same(s.(arrivals := s.arrivals[t := a], arrivalPc := s.arrivalPc[t := New]), r, c)
  {
    hide SameMap, SameSet, SameKeyed, TasksOf, StreamsOf, ArrivalsOf;
    var mine := ArrivalsOf(s.arrivals, c);
    ArrivalAdded(s, t, a, c);
    MoreMine(s.arrivals, r.arrivals, mine, mine + {t});
    MoreMine(s.arrivalPc, r.arrivalPc, mine, mine + {t});
    MoreMine(s.runs, r.runs, mine, mine + {t});
    WriteMine(s.arrivals, r.arrivals, mine + {t}, t, a);
    WriteMine(s.arrivalPc, r.arrivalPc, mine + {t}, t, New);
  }

  lemma KeepArrival(s: State, r: State, c: CallId, t: nat, a: Arrival)
    requires Same(s, r, c) && t !in s.arrivals && a.reply.callId != c
    ensures Same(s.(arrivals := s.arrivals[t := a], arrivalPc := s.arrivalPc[t := New]),
                 r.(arrivals := r.arrivals[t := a], arrivalPc := r.arrivalPc[t := New]), c)
  {
    hide SameMap, SameSet, SameKeyed, TasksOf, StreamsOf, ArrivalsOf;
    ArrivalAdded(s, t, a, c);
    WriteBoth(s.arrivals, r.arrivals, ArrivalsOf(s.arrivals, c), t, a);
    WriteBoth(s.arrivalPc, r.arrivalPc, ArrivalsOf(s.arrivals, c), t, New);
  }

  lemma EraseStream(s: State, r: State, c: CallId, i: nat, st: Stream)
    requires Same(s, r, c) && i !in s.streams && st.task in TasksOf(s.tasks, c)
    ensures Same(s.(streams := s.streams[i := st], exchangePc := s.exchangePc[i := Writing],
                    handlerPc := s.handlerPc[i := Accepting]), r, c)
  {
    hide SameMap, SameSet, SameKeyed, TasksOf, StreamsOf, ArrivalsOf;
    var mine := StreamsOf(s.tasks, s.streams, c);
    StreamAdded(s, i, st, c);
    MoreMine(s.streams, r.streams, mine, mine + {i});
    MoreMine(s.exchangePc, r.exchangePc, mine, mine + {i});
    MoreMine(s.handlerPc, r.handlerPc, mine, mine + {i});
    MoreMine(s.toCallee, r.toCallee, mine, mine + {i});
    MoreMine(s.toCaller, r.toCaller, mine, mine + {i});
    WriteMine(s.streams, r.streams, mine + {i}, i, st);
    WriteMine(s.exchangePc, r.exchangePc, mine + {i}, i, Writing);
    WriteMine(s.handlerPc, r.handlerPc, mine + {i}, i, Accepting);
  }

  lemma KeepStreams(s: State, r: State, c: CallId, i: nat, st: Stream)
    requires Same(s, r, c) && i !in s.streams && st.task !in TasksOf(s.tasks, c)
    ensures Same(s.(streams := s.streams[i := st], exchangePc := s.exchangePc[i := Writing],
                    handlerPc := s.handlerPc[i := Accepting]),
                 r.(streams := r.streams[i := st], exchangePc := r.exchangePc[i := Writing],
                    handlerPc := r.handlerPc[i := Accepting]), c)
  {
    hide SameMap, SameSet, SameKeyed, TasksOf, StreamsOf, ArrivalsOf;
    var mine := StreamsOf(s.tasks, s.streams, c);
    StreamAdded(s, i, st, c);
    WriteBoth(s.streams, r.streams, mine, i, st);
    WriteBoth(s.exchangePc, r.exchangePc, mine, i, Writing);
    WriteBoth(s.handlerPc, r.handlerPc, mine, i, Accepting);
  }

  // ---------------------------------------------------------------------------
  // Counters and messages that change
  // ---------------------------------------------------------------------------

  lemma SetPc(s: State, r: State, c: CallId, g: nat, pc: TaskPc)
    requires Same(s, r, c)
    ensures g in TasksOf(s.tasks, c) ==> Same(s.(taskPc := s.taskPc[g := pc]), r, c)
    ensures Same(s.(taskPc := s.taskPc[g := pc]), r.(taskPc := r.taskPc[g := pc]), c)
  {
    hide SameMap, SameSet, SameKeyed, TasksOf, StreamsOf, ArrivalsOf;
    var mine := TasksOf(s.tasks, c);
    if g in mine { WriteMine(s.taskPc, r.taskPc, mine, g, pc); }
    WriteBoth(s.taskPc, r.taskPc, mine, g, pc);
  }

  lemma SetExchange(s: State, r: State, c: CallId, i: nat, pc: ExchangePc)
    requires Same(s, r, c)
    ensures i in StreamsOf(s.tasks, s.streams, c) ==> Same(s.(exchangePc := s.exchangePc[i := pc]), r, c)
    ensures Same(s.(exchangePc := s.exchangePc[i := pc]), r.(exchangePc := r.exchangePc[i := pc]), c)
  {
    hide SameMap, SameSet, SameKeyed, TasksOf, StreamsOf, ArrivalsOf;
    var mine := StreamsOf(s.tasks, s.streams, c);
    if i in mine { WriteMine(s.exchangePc, r.exchangePc, mine, i, pc); }
    WriteBoth(s.exchangePc, r.exchangePc, mine, i, pc);
  }

  lemma SetHandler(s: State, r: State, c: CallId, i: nat, pc: HandlerPc)
    requires Same(s, r, c)
    ensures i in StreamsOf(s.tasks, s.streams, c) ==> Same(s.(handlerPc := s.handlerPc[i := pc]), r, c)
    ensures Same(s.(handlerPc := s.handlerPc[i := pc]), r.(handlerPc := r.handlerPc[i := pc]), c)
  {
    hide SameMap, SameSet, SameKeyed, TasksOf, StreamsOf, ArrivalsOf;
    var mine := StreamsOf(s.tasks, s.streams, c);
    if i in mine { WriteMine(s.handlerPc, r.handlerPc, mine, i, pc); }
    WriteBoth(s.handlerPc, r.handlerPc, mine, i, pc);
  }

  lemma SetToCallee(s: State, r: State, c: CallId, i: nat, req: Request)
    requires Same(s, r, c)
    ensures i in StreamsOf(s.tasks, s.streams, c) ==> Same(s.(toCallee := s.toCallee[i := req]), r, c)
    ensures Same(s.(toCallee := s.toCallee[i := req]), r.(toCallee := r.toCallee[i := req]), c)
  {
    hide SameMap, SameSet, SameKeyed, TasksOf, StreamsOf, ArrivalsOf;
    var mine := StreamsOf(s.tasks, s.streams, c);
    if i in mine { WriteMine(s.toCallee, r.toCallee, mine, i, req); }
    WriteBoth(s.toCallee, r.toCallee, mine, i, req);
  }

  lemma SetToCaller(s: State, r: State, c: CallId, i: nat, req: Request)
    requires Same(s, r, c)
    ensures i in StreamsOf(s.tasks, s.streams, c) ==> Same(s.(toCaller := s.toCaller[i := req]), r, c)
    ensures Same(s.(toCaller := s.toCaller[i := req]), r.(toCaller := r.toCaller[i := req]), c)
  {
    hide SameMap, SameSet, SameKeyed, TasksOf, StreamsOf, ArrivalsOf;
    var mine := StreamsOf(s.tasks, s.streams, c);
    if i in mine { WriteMine(s.toCaller, r.toCaller, mine, i, req); }
    WriteBoth(s.toCaller, r.toCaller, mine, i, req);
  }

  lemma SetArrivalPc(s: State, r: State, c: CallId, t: nat, pc: ArrivalPc)
    requires Same(s, r, c)
    ensures t in ArrivalsOf(s.arrivals, c) ==> Same(s.(arrivalPc := s.arrivalPc[t := pc]), r, c)
    ensures Same(s.(arrivalPc := s.arrivalPc[t := pc]), r.(arrivalPc := r.arrivalPc[t := pc]), c)
  {
    hide SameMap, SameSet, SameKeyed, TasksOf, StreamsOf, ArrivalsOf;
    var mine := ArrivalsOf(s.arrivals, c);
    if t in mine { WriteMine(s.arrivalPc, r.arrivalPc, mine, t, pc); }
    WriteBoth(s.arrivalPc, r.arrivalPc, mine, t, pc);
  }

  lemma SetRun(s: State, r: State, c: CallId, t: nat, run: Run)
    requires Same(s, r, c)
    ensures t in ArrivalsOf(s.arrivals, c) ==> Same(s.(runs := s.runs[t := run]), r, c)
    ensures Same(s.(runs := s.runs[t := run]), r.(runs := r.runs[t := run]), c)
  {
    hide SameMap, SameSet, SameKeyed, TasksOf, StreamsOf, ArrivalsOf;
    var mine := ArrivalsOf(s.arrivals, c);
    if t in mine { WriteMine(s.runs, r.runs, mine, t, run); }
    WriteBoth(s.runs, r.runs, mine, t, run);
  }

  lemma EraseCallerPc(s: State, r: State, c: CallId, pc: CallerPc)
    requires Same(s, r, c)
    ensures Same(s.(callerPc := s.callerPc[c := pc]), r, c)
  {
    hide SameMap, SameSet, SameKeyed, TasksOf, StreamsOf, ArrivalsOf;
    WriteMine(s.callerPc, r.callerPc, {c}, c, pc);
  }

  lemma KeepCallerPc(s: State, r: State, c: CallId, x: CallId, pc: CallerPc)
    requires Same(s, r, c)
    ensures Same(s.(callerPc := s.callerPc[x := pc]), r.(callerPc := r.callerPc[x := pc]), c)
  {
    hide SameMap, SameSet, SameKeyed, TasksOf, StreamsOf, ArrivalsOf;
    WriteBoth(s.callerPc, r.callerPc, {c}, x, pc);
  }

  lemma KeepCaller(s: State, r: State, c: CallId, x: CallId, caller: Caller)
    requires Same(s, r, c)
    ensures Same(s.(callers := s.callers[x := caller]), r.(callers := r.callers[x := caller]), c)
  {
    hide SameMap, SameSet, SameKeyed, TasksOf, StreamsOf, ArrivalsOf;
    WriteBoth(s.callers, r.callers, {c}, x, caller);
  }

  lemma EraseHistory(s: State, r: State, c: CallId)
    requires Same(s, r, c)
    ensures Same(s.(ended := s.ended + {c}), r, c) && Same(s.(cancelled := s.cancelled + {c}), r, c)
  {
    hide SameMap, SameSet, SameKeyed, TasksOf, StreamsOf, ArrivalsOf;
    AddMine(s.ended, r.ended, {c}, c);
    AddMine(s.cancelled, r.cancelled, {c}, c);
  }

  lemma KeepHistory(s: State, r: State, c: CallId, x: CallId)
    requires Same(s, r, c)
    ensures Same(s.(ended := s.ended + {x}), r.(ended := r.ended + {x}), c)
    ensures Same(s.(cancelled := s.cancelled + {x}), r.(cancelled := r.cancelled + {x}), c)
    ensures Same(s.(accepted := s.accepted + {x}), r.(accepted := r.accepted + {x}), c)
  {
    hide SameMap, SameSet, SameKeyed, TasksOf, StreamsOf, ArrivalsOf;
    AddBoth(s.ended, r.ended, {c}, x);
    AddBoth(s.cancelled, r.cancelled, {c}, x);
    AddBoth(s.accepted, r.accepted, {c}, x);
  }

  lemma SetCancelUnary(s: State, r: State, c: CallId, key: (Peer, CallId), v: nat)
    requires Same(s, r, c)
    ensures key.1 == c ==>
              && Same(s.(cancelUnary := s.cancelUnary[key := v]), r, c)
              && Same(s.(cancelUnary := s.cancelUnary - {key}), r, c)
    ensures Same(s.(cancelUnary := s.cancelUnary[key := v]), r.(cancelUnary := r.cancelUnary[key := v]), c)
    ensures Same(s.(cancelUnary := s.cancelUnary - {key}), r.(cancelUnary := r.cancelUnary - {key}), c)
  {
    hide SameMap, SameSet, SameKeyed, TasksOf, StreamsOf, ArrivalsOf;
    if key.1 == c { KeyedMine(s.cancelUnary, r.cancelUnary, c, key.0, v); }
    KeyedBoth(s.cancelUnary, r.cancelUnary, c, key, v);
  }

  lemma SetWaiter(s: State, r: State, c: CallId, key: (Peer, CallId), v: nat)
    requires Same(s, r, c)
    ensures key.1 == c ==>
              && Same(s.(responseWaiters := s.responseWaiters[key := v]), r, c)
              && Same(s.(responseWaiters := s.responseWaiters - {key}), r, c)
    ensures Same(s.(responseWaiters := s.responseWaiters[key := v]),
                 r.(responseWaiters := r.responseWaiters[key := v]), c)
    ensures Same(s.(responseWaiters := s.responseWaiters - {key}), r.(responseWaiters := r.responseWaiters - {key}), c)
  {
    hide SameMap, SameSet, SameKeyed, TasksOf, StreamsOf, ArrivalsOf;
    if key.1 == c { KeyedMine(s.responseWaiters, r.responseWaiters, c, key.0, v); }
    KeyedBoth(s.responseWaiters, r.responseWaiters, c, key, v);
  }

  lemma SetFuture(s: State, r: State, c: CallId, key: (Conn, CallId), v: nat, ch: nat)
    requires Same(s, r, c)
    ensures key.1 == c ==> Same(s.(callFutures := s.callFutures[key := v], channels := s.channels + {ch}), r, c)
    ensures key.1 == c ==> Same(s.(callFutures := s.callFutures - {key}), r, c)
    ensures Same(s.(callFutures := s.callFutures[key := v], channels := s.channels + {ch}),
                 r.(callFutures := r.callFutures[key := v], channels := r.channels + {ch}), c)
    ensures Same(s.(callFutures := s.callFutures - {key}), r.(callFutures := r.callFutures - {key}), c)
  {
    hide SameMap, SameSet, SameKeyed, TasksOf, StreamsOf, ArrivalsOf;
    if key.1 == c { KeyedMine(s.callFutures, r.callFutures, c, key.0, v); }
    KeyedBoth(s.callFutures, r.callFutures, c, key, v);
  }

  lemma SetDone(s: State, r: State, c: CallId, g: nat)
    requires Same(s, r, c)
    ensures g in TasksOf(s.tasks, c) ==> Same(s.(ctxDone := s.ctxDone + {g}), r, c)
    ensures Same(s.(ctxDone := s.ctxDone + {g}), r.(ctxDone := r.ctxDone + {g}), c)
  {
    hide SameMap, SameSet, SameKeyed, TasksOf, StreamsOf, ArrivalsOf;
    if g in TasksOf(s.tasks, c) { AddMine(s.ctxDone, r.ctxDone, TasksOf(s.tasks, c), g); }
    AddBoth(s.ctxDone, r.ctxDone, TasksOf(s.tasks, c), g);
  }

  // ---------------------------------------------------------------------------
  // What a goroutine finds in a map or on a channel is of the call it serves
  // ---------------------------------------------------------------------------

  ghost predicate ClientFinds(s: State, l: ClientLabel)
    requires ClientEnabled(s, l)
  {
    StreamsHaveTasks(s) && (l.HandReply? ==> s.arrivals[l.t].reply.callId == l.c)
  }

  ghost predicate DaemonFinds(s: State, l: DaemonLabel)
    requires DaemonEnabled(s, l)
  {
    match l
    case TakeReply(g) => StreamAt(s, s.taskPc[g].sid) && s.streams[s.taskPc[g].sid].task == g
    case TakeNil(g) => StreamAt(s, s.taskPc[g].sid) && s.streams[s.taskPc[g].sid].task == g
    case TakeCancel(g) => StreamAt(s, s.taskPc[g].sid) && s.streams[s.taskPc[g].sid].task == g
    case WriteAnswer(g, _) => s.taskPc[g].reply.value.callId == s.tasks[g].req.callId
    case ServeCancel(g) =>
      CallKey(s, g) in s.cancelUnary ==> CallTask(s, s.cancelUnary[CallKey(s, g)], s.tasks[g].req.callId)
    case ServeAdd(g, _) => s.tasks[g].req.callId in s.callers && s.callers[s.tasks[g].req.callId].op.AddOp?
    case ListAdd(g) => s.tasks[g].req.callId in s.callers && s.callers[s.tasks[g].req.callId].op.AddOp?
    case HandResponse(g) => StreamAt(s, s.taskPc[g].sid) && CallStream(s, s.taskPc[g].sid, s.tasks[g].req.callId)
    case _ => true
  }

  ghost predicate StreamFinds(s: State, l: StreamLabel)
    requires StreamEnabled(s, l)
  {
    l.sid in s.toCallee ==> CallStream(s, l.sid, s.toCallee[l.sid].callId)
  }

  lemma ClientFound(s: State, l: ClientLabel)
    requires Inv(s) && ClientEnabled(s, l)
    ensures ClientFinds(s, l)
  {
    assert StreamsHaveTasks(s) by {
      assert StreamsKnown(s.tasks, s.streams) by { Open(s); }
    }
    hide StreamsHaveTasks;
    if l.HandReply? {
      hide Futures;
      assert Futures(s.callers, s.callerPc, s.arrivals, s.arrivalPc, s.callFutures, s.channels) by { Open(s); }
      hide Inv;
      FutureMatches(s, l.c, l.t);
    }
  }

  lemma AddIsAdd(s: State, g: nat)
    requires Inv(s) && g in s.tasks && g in s.taskPc
    requires s.taskPc[g].Listing? || (s.taskPc[g].Fresh? && s.tasks[g].req.body.AddUnaryHandler?)
    ensures s.tasks[g].req.callId in s.callers && s.callers[s.tasks[g].req.callId].op.AddOp?
  {
    assert PcKinds(s.tasks, s.taskPc) by { Open(s); }
    assert Origins(s.callers, s.tasks) by { Open(s); }
    hide Inv;
    OriginOf(s, g);
  }

  lemma HandsToOwn(s: State, g: nat)
    requires Inv(s) && g in s.tasks && g in s.taskPc && s.taskPc[g].Handing?
    ensures StreamAt(s, s.taskPc[g].sid) && CallStream(s, s.taskPc[g].sid, s.tasks[g].req.callId)
  {
    assert HandingRight(s.tasks, s.taskPc, s.toCallee) by { Open(s); }
    assert s.exchangePc.Keys == s.streams.Keys && s.handlerPc.Keys == s.streams.Keys by { Open(s); }
    CarriesOwn(s, s.taskPc[g].sid);
  }

  lemma CarriesOwn(s: State, sid: nat)
    requires Inv(s) && sid in s.toCallee
    ensures CallStream(s, sid, s.toCallee[sid].callId)
  {
    assert s.toCallee.Keys <= s.streams.Keys by { Open(s); }
    assert StreamsKnown(s.tasks, s.streams) by { Open(s); }
    assert Carried(s.tasks, s.streams, s.toCallee) by { Open(s); }
  }

  lemma AnswersOwn(s: State, g: nat)
    requires Inv(s) && g in s.tasks && g in s.taskPc && s.taskPc[g].Answering? && s.taskPc[g].reply.Some?
    ensures s.taskPc[g].reply.value.callId == s.tasks[g].req.callId
  {
    assert Answers(KnownOf(s), s.tasks, s.taskPc) by { Open(s); }
    assert AnswerRight(KnownOf(s), s.tasks[g].req.callId, s.taskPc[g]);
  }

  lemma CancelsOwn(s: State, g: nat)
    requires Inv(s) && g in s.tasks && CallKey(s, g) in s.cancelUnary
    ensures CallTask(s, s.cancelUnary[CallKey(s, g)], s.tasks[g].req.callId)
  {
    assert CancelMap(s.tasks, s.taskPc, s.cancelUnary) by { Open(s); }
  }

  lemma ExchangesOwn(s: State, g: nat)
    requires Inv(s) && g in s.tasks && g in s.taskPc && s.taskPc[g].Exchanging?
    ensures StreamAt(s, s.taskPc[g].sid) && s.streams[s.taskPc[g].sid].task == g
  {
    assert s.exchangePc.Keys == s.streams.Keys && s.handlerPc.Keys == s.streams.Keys by { Open(s); }
    assert OneStream(s.taskPc, s.streams) by { Open(s); }
  }

  lemma DaemonFound(s: State, l: DaemonLabel)
    requires Inv(s) && DaemonEnabled(s, l)
    ensures DaemonFinds(s, l)
  {
    hide Inv, Registry.Enabled;
    match l
    case TakeReply(g) => ExchangesOwn(s, g);
    case TakeNil(g) => ExchangesOwn(s, g);
    case TakeCancel(g) => ExchangesOwn(s, g);
    case WriteAnswer(g, _) => AnswersOwn(s, g);
    case ServeCancel(g) => if CallKey(s, g) in s.cancelUnary { CancelsOwn(s, g); }
    case ServeAdd(g, _) => AddIsAdd(s, g);
    case ListAdd(g) => AddIsAdd(s, g);
    case HandResponse(g) => HandsToOwn(s, g);
    case _ =>
  }

  // ---------------------------------------------------------------------------
  // A step of the call changes nothing else
  // ---------------------------------------------------------------------------

  lemma Belongs(s: State, c: CallId, g: nat, i: nat, t: nat)
    ensures CallTask(s, g, c) <==> g in TasksOf(s.tasks, c)
    ensures CallStream(s, i, c) <==> i in StreamsOf(s.tasks, s.streams, c)
    ensures CallArrival(s, t, c) <==> t in ArrivalsOf(s.arrivals, c)
  {
  }

  lemma ClientErased(s: State, l: ClientLabel, r: State, c: CallId)
    requires ClientEnabled(s, l) && ClientFinds(s, l) && StepOf(s, Client(l), c) && Same(s, r, c)
    requires c in s.callers && s.callers[c].op.CallOp?
    ensures Same(ClientDo(s, l), r, c)
  {
    hide Same, TasksOf, StreamsOf, ArrivalsOf, Registry.Enabled, Registry.Do;
    match l
    case EndContext(_) => EraseHistory(s, r, c);
    case SendCancel(_, g) =>
      EraseHistory(s, r, c);
      EraseTask(s.(cancelled := s.cancelled + {c}), r, c, g, Task(s.callers[c].conn, Request(c, CancelRequest), 0));
    case AwaitFuture(_, ch) =>
      var key := (s.callers[c].conn, c);
      SetFuture(s, r, c, key, FutureAt(s, key, ch), ch);
      EraseCallerPc(s.(callFutures := s.callFutures[key := FutureAt(s, key, ch)], channels := s.channels + {ch}), r, c,
        Waiting(FutureAt(s, key, ch)));
    case HandReply(_, t) =>
      Belongs(s, c, 0, 0, t);
      SetArrivalPc(s, r, c, t, Consumed);
      EraseCallerPc(s.(arrivalPc := s.arrivalPc[t := Consumed]), r, c, Got(s.arrivals[t].reply));
    case Return(_, ctxWins) =>
      var key, o := (s.callers[c].conn, c), OutcomeOf(s.callers[c].op, s.callerPc[c].reply, ctxWins);
      SetFuture(s, r, c, key, 0, 0);
      EraseCallerPc(s.(callFutures := s.callFutures - {key}), r, c, Returned(o));
    case RouteReply(t, ch) =>
      var key := (s.arrivals[t].conn, c);
      Belongs(s, c, 0, 0, t);
      SetFuture(s, r, c, key, FutureAt(s, key, ch), ch);
      SetArrivalPc(s.(callFutures := s.callFutures[key := FutureAt(s, key, ch)], channels := s.channels + {ch}),
                   r, c, t,
        Holding(FutureAt(s, key, ch)));
    case StartHandler(t) =>
      Belongs(s, c, 0, 0, t);
      SetArrivalPc(s, r, c, t, ClientDo(s, l).arrivalPc[t]);
    case FinishHandler(t, result, g) =>
      Belongs(s, c, 0, 0, t);
      var s1 := s.(arrivalPc := s.arrivalPc[t := Consumed]);
      SetArrivalPc(s, r, c, t, Consumed);
      SetRun(s1, r, c, t, ClientDo(s, l).runs[t]);
      EraseTask(s1.(runs := s.runs[t := ClientDo(s, l).runs[t]]), r, c, g,
        Task(s.arrivals[t].conn, Request(c, UnaryResponse(result)), t));
    case _ =>
  }

  lemma DaemonErased(s: State, l: DaemonLabel, r: State, c: CallId)
    requires DaemonEnabled(s, l) && DaemonFinds(s, l) && StepOf(s, Daemon(l), c) && Same(s, r, c)
    requires c in s.callers && s.callers[c].op.CallOp?
    ensures Same(DaemonDo(s, l), r, c)
  {
    hide Same, TasksOf, StreamsOf, ArrivalsOf, Registry.Enabled, Registry.Do;
    var g, s' := l.g, DaemonDo(s, l);
    Belongs(s, c, g, 0, 0);
    SetPc(s, r, c, g, s'.taskPc[g]);
    var s1 := s.(taskPc := s.taskPc[g := s'.taskPc[g]]);
    match l
    case ServeCall(_) => SetCancelUnary(s1, r, c, CallKey(s, g), g);
    case OpenStream(_, sid) => EraseStream(s1, r, c, sid, s'.streams[sid]);
    case TakeReply(_) =>
      Belongs(s, c, g, s.taskPc[g].sid, 0);
      SetExchange(s1, r, c, s.taskPc[g].sid, Closed);
    case WriteAnswer(_, t) => EraseArrival(s1, r, c, t, s'.arrivals[t]);
    case EndCall(_) =>
      SetCancelUnary(s1, r, c, CallKey(s, g), g);
      SetDone(s1.(cancelUnary := s.cancelUnary - {CallKey(s, g)}), r, c, g);
    case ServeCancel(_) =>
      if CallKey(s, g) in s.cancelUnary {
        Belongs(s, c, s.cancelUnary[CallKey(s, g)], 0, 0);
        SetDone(s1, r, c, s.cancelUnary[CallKey(s, g)]);
      }
    case HandResponse(_) =>
      Belongs(s, c, g, s.taskPc[g].sid, 0);
      SetHandler(s1, r, c, s.taskPc[g].sid, Took(s.tasks[g].req));
    case _ =>
  }

  predicate OfExchange(l: StreamLabel) {
    l.WriteRequest? || l.ReadReply? || l.GiveUp?
  }

  lemma ExchangeErased(s: State, l: StreamLabel, r: State, c: CallId)
    requires StreamEnabled(s, l) && OfExchange(l) && StepOf(s, OnStream(l), c) && Same(s, r, c)
    ensures Same(StreamDo(s, l), r, c)
  {
    hide Same, TasksOf, StreamsOf, ArrivalsOf, Registry.Enabled, Registry.Do;
    var i, s' := l.sid, StreamDo(s, l);
    Belongs(s, c, 0, i, 0);
    SetExchange(s, r, c, i, s'.exchangePc[i]);
    if l.WriteRequest? && l.ok {
      SetToCallee(s.(exchangePc := s'.exchangePc), r, c, i, s.tasks[s.streams[i].task].req);
    }
  }

  lemma SetWaitingMine(s: State, r: State, c: CallId, i: nat, pc: HandlerPc, peer: Peer)
    requires Same(s, r, c) && i in StreamsOf(s.tasks, s.streams, c)
    ensures Same(s.(handlerPc := s.handlerPc[i := pc]), r, c)
    ensures Same(s.(handlerPc := s.handlerPc[i := pc], responseWaiters := s.responseWaiters[(peer, c) := i]), r, c)
    ensures Same(s.(handlerPc := s.handlerPc[i := pc], responseWaiters := s.responseWaiters - {(peer, c)}), r, c)
  {
    hide Same, TasksOf, StreamsOf, ArrivalsOf;
    SetHandler(s, r, c, i, pc);
    SetWaiter(s.(handlerPc := s.handlerPc[i := pc]), r, c, (peer, c), i);
  }

  lemma WaiterIsMine(s: State, i: nat, c: CallId)
    requires CallStream(s, i, c) && (i in s.toCallee ==> CallStream(s, i, s.toCallee[i].callId))
    ensures i in StreamsOf(s.tasks, s.streams, c)
    ensures i in s.toCallee ==> WaiterKey(s, i) == (s.streams[i].owner.peer, c)
  {
  }

  lemma AcceptErased(s: State, i: nat, r: State, c: CallId)
    requires StreamEnabled(s, AcceptStream(i)) && StreamFinds(s, AcceptStream(i)) && Same(s, r, c)
    requires StepOf(s, OnStream(AcceptStream(i)), c)
    ensures Same(StreamDo(s, AcceptStream(i)), r, c)
  {
    WaiterIsMine(s, i, c);
    hide Same, StreamsOf, CallStream, WaiterKey;
    SetWaitingMine(s, r, c, i, if s.toCallee[i].body.CallUnary? then Stored else Left, s.streams[i].owner.peer);
  }

  lemma FailsErased(s: State, i: nat, r: State, c: CallId)
    requires StreamEnabled(s, HandlerFails(i)) && StreamFinds(s, HandlerFails(i)) && Same(s, r, c)
    requires StepOf(s, OnStream(HandlerFails(i)), c)
    ensures Same(StreamDo(s, HandlerFails(i)), r, c)
  {
    WaiterIsMine(s, i, c);
    hide Same, StreamsOf, CallStream, WaiterKey;
    SetWaitingMine(s, r, c, i, Left, s.streams[i].owner.peer);
  }

  lemma AnnounceErased(s: State, i: nat, t: nat, r: State, c: CallId)
    requires StreamEnabled(s, Announce(i, t)) && StreamFinds(s, Announce(i, t)) && Same(s, r, c)
    requires StepOf(s, OnStream(Announce(i, t)), c)
    ensures Same(StreamDo(s, Announce(i, t)), r, c)
  {
    hide Same, StreamsOf;
    var s' := StreamDo(s, Announce(i, t));
    Belongs(s, c, 0, i, 0);
    SetHandler(s, r, c, i, Awaiting);
    EraseArrival(s.(handlerPc := s'.handlerPc), r, c, t, s'.arrivals[t]);
  }

  lemma WriteBackErased(s: State, i: nat, r: State, c: CallId)
    requires StreamEnabled(s, WriteBack(i)) && StreamFinds(s, WriteBack(i)) && Same(s, r, c)
    requires StepOf(s, OnStream(WriteBack(i)), c)
    ensures Same(StreamDo(s, WriteBack(i)), r, c)
  {
    hide Same, StreamsOf;
    Belongs(s, c, 0, i, 0);
    SetToCaller(s, r, c, i, s.handlerPc[i].req);
    SetWaitingMine(s.(toCaller := s.toCaller[i := s.handlerPc[i].req]), r, c, i, Left, s.streams[i].owner.peer);
  }

  lemma PeerGoneErased(s: State, i: nat, t: nat, r: State, c: CallId)
    requires StreamEnabled(s, PeerGone(i, t)) && StreamFinds(s, PeerGone(i, t)) && Same(s, r, c)
    requires StepOf(s, OnStream(PeerGone(i, t)), c)
    ensures Same(StreamDo(s, PeerGone(i, t)), r, c)
  {
    hide Same, StreamsOf;
    var s' := StreamDo(s, PeerGone(i, t));
    Belongs(s, c, 0, i, 0);
    EraseArrival(s, r, c, t, s'.arrivals[t]);
    SetWaitingMine(s.(arrivals := s'.arrivals, arrivalPc := s'.arrivalPc), r, c, i, Left, s.streams[i].owner.peer);
  }

  lemma StreamErased(s: State, l: StreamLabel, r: State, c: CallId)
    requires Inv(s) && StreamEnabled(s, l) && StepOf(s, OnStream(l), c) && Same(s, r, c)
    ensures Same(StreamDo(s, l), r, c)
  {
    hide Inv, Same, StreamEnabled, StreamDo, StreamFinds, StepOf;
    StreamFound(s, l);
    match l
    case Announce(i, t) => AnnounceErased(s, i, t, r, c);
    case WriteBack(i) => WriteBackErased(s, i, r, c);
    case PeerGone(i, t) => PeerGoneErased(s, i, t, r, c);
    case AcceptStream(i) => AcceptErased(s, i, r, c);
    case HandlerFails(i) => FailsErased(s, i, r, c);
    case _ => ExchangeErased(s, l, r, c);
  }

  lemma Erased(s: State, l: Label, r: State, c: CallId)
    requires Inv(s) && Enabled(s, l) && StepOf(s, l, c) && Same(s, r, c)
    requires c in s.callers && s.callers[c].op.CallOp?
    ensures Same(Do(s, l), r, c)
  {
    hide Inv, Same, ClientEnabled, DaemonEnabled, StreamEnabled, ClientDo, DaemonDo, StreamDo;
    hide ClientFinds, DaemonFinds, StreamFinds, StepOf;
    match l
    case Client(x) =>
      ClientFound(s, x);
      ClientErased(s, x, r, c);
    case Daemon(x) =>
      DaemonFound(s, x);
      DaemonErased(s, x, r, c);
    case OnStream(x) => StreamErased(s, x, r, c);
  }

  lemma StreamFound(s: State, l: StreamLabel)
    requires Inv(s) && StreamEnabled(s, l)
    ensures StreamFinds(s, l)
  {
    hide Inv;
    if l.sid in s.toCallee { CarriesOwn(s, l.sid); }
  }

  // ---------------------------------------------------------------------------
  // A step of another call goes the same way
  // ---------------------------------------------------------------------------

  lemma SeeTask(s: State, r: State, c: CallId, g: nat)
    requires Same(s, r, c) && g in s.tasks && s.tasks[g].req.callId != c
    ensures g in r.tasks && r.tasks[g] == s.tasks[g] && SameAt(s.taskPc, r.taskPc, g)
    ensures g in s.ctxDone <==> g in r.ctxDone
    ensures g !in TasksOf(s.tasks, c)
  {
    hide SameMap, SameSet, SameKeyed, StreamsOf, ArrivalsOf;
    var mine := TasksOf(s.tasks, c);
    assert g !in mine;
    hide TasksOf;
    Look(s.tasks, r.tasks, mine, g);
    Look(s.taskPc, r.taskPc, mine, g);
    LookSet(s.ctxDone, r.ctxDone, mine, g);
  }

  lemma SeeStream(s: State, r: State, c: CallId, i: nat)
    requires Same(s, r, c) && StreamAt(s, i) && s.tasks[s.streams[i].task].req.callId != c
    ensures StreamAt(r, i) && r.streams[i] == s.streams[i]
    ensures SameAt(s.exchangePc, r.exchangePc, i) && SameAt(s.handlerPc, r.handlerPc, i)
    ensures SameAt(s.toCallee, r.toCallee, i) && SameAt(s.toCaller, r.toCaller, i)
  {
    hide SameMap, SameSet, SameKeyed, TasksOf, ArrivalsOf;
    SeeTask(s, r, c, s.streams[i].task);
    var mine := StreamsOf(s.tasks, s.streams, c);
    assert i !in mine;
    hide StreamsOf;
    Look(s.streams, r.streams, mine, i);
    Look(s.exchangePc, r.exchangePc, mine, i);
    Look(s.handlerPc, r.handlerPc, mine, i);
    Look(s.toCallee, r.toCallee, mine, i);
    Look(s.toCaller, r.toCaller, mine, i);
  }

  lemma SeeArrival(s: State, r: State, c: CallId, t: nat)
    requires Same(s, r, c) && t in s.arrivals && s.arrivals[t].reply.callId != c
    ensures t in r.arrivals && r.arrivals[t] == s.arrivals[t] && SameAt(s.arrivalPc, r.arrivalPc, t)
  {
    hide SameMap, SameSet, SameKeyed, TasksOf, StreamsOf;
    var mine := ArrivalsOf(s.arrivals, c);
    assert t !in mine;
    hide ArrivalsOf;
    Look(s.arrivals, r.arrivals, mine, t);
    Look(s.arrivalPc, r.arrivalPc, mine, t);
  }

  lemma SeeCaller(s: State, r: State, c: CallId, x: CallId)
    requires Same(s, r, c) && x != c
    ensures SameAt(s.callers, r.callers, x) && SameAt(s.callerPc, r.callerPc, x) && (x in s.ended <==> x in r.ended)
  {
    hide SameMap, SameSet, SameKeyed, TasksOf, StreamsOf, ArrivalsOf;
    Look(s.callers, r.callers, {c}, x);
    Look(s.callerPc, r.callerPc, {c}, x);
    LookSet(s.ended, r.ended, {c}, x);
  }

  lemma SeeKeys(s: State, r: State, c: CallId, key: (Peer, CallId), future: (Conn, CallId))
    requires Same(s, r, c) && key.1 != c && future.1 != c
    ensures SameAt(s.cancelUnary, r.cancelUnary, key) && SameAt(s.responseWaiters, r.responseWaiters, key)
    ensures SameAt(s.callFutures, r.callFutures, future)
  {
    hide SameMap, SameSet, SameKeyed, TasksOf, StreamsOf, ArrivalsOf;
    LookKeyed(s.cancelUnary, r.cancelUnary, c, key);
    LookKeyed(s.responseWaiters, r.responseWaiters, c, key);
    LookKeyed(s.callFutures, r.callFutures, c, future);
  }

  lemma SeeNew(s: State, r: State, c: CallId)
    requires Same(s, r, c)
    ensures r.tasks.Keys <= s.tasks.Keys && r.streams.Keys <= s.streams.Keys && r.arrivals.Keys <= s.arrivals.Keys
    ensures r.channels <= s.channels && r.registries == s.registries && r.unaryHandlers == s.unaryHandlers
  {
    hide SameMap, SameSet, SameKeyed, TasksOf, StreamsOf, ArrivalsOf;
  }

  lemma KeepRegistries(s: State, r: State, c: CallId, registries: map<Peer, Registry.State>)
    requires Same(s, r, c)
    ensures Same(s.(registries := registries), r.(registries := registries), c)
  {
    hide SameMap, SameSet, SameKeyed, TasksOf, StreamsOf, ArrivalsOf;
  }

  lemma KeepHandlers(s: State, r: State, c: CallId, handlers: map<(Conn, Proto), nat>)
    requires Same(s, r, c)
    ensures Same(s.(unaryHandlers := handlers), r.(unaryHandlers := handlers), c)
  {
    hide SameMap, SameSet, SameKeyed, TasksOf, StreamsOf, ArrivalsOf;
  }

  lemma ExchangeKept(s: State, l: StreamLabel, r: State, c: CallId)
    requires StreamEnabled(s, l) && OfExchange(l) && !StepOf(s, OnStream(l), c) && Same(s, r, c)
    ensures StreamEnabled(r, l) && Same(StreamDo(s, l), StreamDo(r, l), c)
  {
    hide Same, TasksOf, StreamsOf, ArrivalsOf, Registry.Enabled, Registry.Do;
    var i, s' := l.sid, StreamDo(s, l);
    SeeStream(s, r, c, i);
    SeeTask(s, r, c, s.streams[i].task);
    SetExchange(s, r, c, i, s'.exchangePc[i]);
    if l.WriteRequest? && l.ok {
      SetToCallee(s.(exchangePc := s'.exchangePc), r.(exchangePc := r.exchangePc[i := s'.exchangePc[i]]), c, i,
        s.tasks[s.streams[i].task].req);
    }
  }

  /** A handler's own part of a step: its counter, and its entry in the waiters' map. */
  lemma SetWaiting(s: State, r: State, c: CallId, i: nat, pc: HandlerPc, key: (Peer, CallId))
    requires Same(s, r, c)
    ensures Same(s.(handlerPc := s.handlerPc[i := pc], responseWaiters := s.responseWaiters[key := i]),
                 r.(handlerPc := r.handlerPc[i := pc], responseWaiters := r.responseWaiters[key := i]), c)
    ensures Same(s.(handlerPc := s.handlerPc[i := pc], responseWaiters := s.responseWaiters - {key}),
                 r.(handlerPc := r.handlerPc[i := pc], responseWaiters := r.responseWaiters - {key}), c)
  {
    hide Same, TasksOf, StreamsOf, ArrivalsOf;
    SetHandler(s, r, c, i, pc);
    SetWaiter(s.(handlerPc := s.handlerPc[i := pc]), r.(handlerPc := r.handlerPc[i := pc]), c, key, i);
  }

  lemma HandlerEnabled(s: State, l: StreamLabel, r: State, c: CallId)
    requires StreamEnabled(s, l) && !OfExchange(l) && !StepOf(s, OnStream(l), c) && Same(s, r, c)
    ensures StreamEnabled(r, l) && r.streams[l.sid] == s.streams[l.sid] && r.handlerPc[l.sid] == s.handlerPc[l.sid]
    ensures r.tasks[s.streams[l.sid].task] == s.tasks[s.streams[l.sid].task]
    ensures l.sid in s.toCallee <==> l.sid in r.toCallee
    ensures l.sid in s.toCallee ==> r.toCallee[l.sid] == s.toCallee[l.sid]
  {
    hide Same, TasksOf, StreamsOf, ArrivalsOf, Registry.Enabled, Registry.Do;
    SeeStream(s, r, c, l.sid);
    SeeTask(s, r, c, s.streams[l.sid].task);
    SeeNew(s, r, c);
  }

  lemma HandlerKept(s: State, l: StreamLabel, r: State, c: CallId)
    requires StreamEnabled(s, l) && !OfExchange(l) && !StepOf(s, OnStream(l), c) && Same(s, r, c)
    requires l.AcceptStream? || l.HandlerFails?
    ensures StreamEnabled(r, l) && Same(StreamDo(s, l), StreamDo(r, l), c)
  {
    hide Same;
    HandlerEnabled(s, l, r, c);
    SetHandler(s, r, c, l.sid, Left);
    if l.sid in s.toCallee {
      SetWaiting(s, r, c, l.sid, if l.AcceptStream? then Stored else Left, WaiterKey(s, l.sid));
    }
  }

  lemma AnnounceKept(s: State, i: nat, t: nat, r: State, c: CallId)
    requires StreamEnabled(s, Announce(i, t)) && StreamFinds(s, Announce(i, t)) && Same(s, r, c)
    requires !StepOf(s, OnStream(Announce(i, t)), c)
    ensures StreamEnabled(r, Announce(i, t)) && Same(StreamDo(s, Announce(i, t)), StreamDo(r, Announce(i, t)), c)
  {
    hide Same;
    HandlerEnabled(s, Announce(i, t), r, c);
    SetHandler(s, r, c, i, Awaiting);
    KeepArrival(s.(handlerPc := s.handlerPc[i := Awaiting]), r.(handlerPc := r.handlerPc[i := Awaiting]), c, t,
      StreamDo(s, Announce(i, t)).arrivals[t]);
  }

  lemma WriteBackKept(s: State, i: nat, r: State, c: CallId)
    requires StreamEnabled(s, WriteBack(i)) && Same(s, r, c) && !StepOf(s, OnStream(WriteBack(i)), c)
    ensures StreamEnabled(r, WriteBack(i)) && Same(StreamDo(s, WriteBack(i)), StreamDo(r, WriteBack(i)), c)
  {
    hide Same;
    HandlerEnabled(s, WriteBack(i), r, c);
    SetToCaller(s, r, c, i, s.handlerPc[i].req);
    SetWaiting(s.(toCaller := s.toCaller[i := s.handlerPc[i].req]),
               r.(toCaller := r.toCaller[i := s.handlerPc[i].req]), c, i,
      Left, WaiterKey(s, i));
  }

  lemma PeerGoneKept(s: State, i: nat, t: nat, r: State, c: CallId)
    requires StreamEnabled(s, PeerGone(i, t)) && StreamFinds(s, PeerGone(i, t)) && Same(s, r, c)
    requires !StepOf(s, OnStream(PeerGone(i, t)), c)
    ensures StreamEnabled(r, PeerGone(i, t)) && Same(StreamDo(s, PeerGone(i, t)), StreamDo(r, PeerGone(i, t)), c)
  {
    hide Same;
    HandlerEnabled(s, PeerGone(i, t), r, c);
    var a, key := StreamDo(s, PeerGone(i, t)).arrivals[t], WaiterKey(s, i);
    KeepArrival(s, r, c, t, a);
    SetWaiting(s.(arrivals := s.arrivals[t := a], arrivalPc := s.arrivalPc[t := New]),
      r.(arrivals := r.arrivals[t := a], arrivalPc := r.arrivalPc[t := New]), c, i, Left, key);
  }

  lemma StreamKept(s: State, l: StreamLabel, r: State, c: CallId)
    requires Inv(s) && StreamEnabled(s, l) && !StepOf(s, OnStream(l), c) && Same(s, r, c)
    ensures StreamEnabled(r, l) && Same(StreamDo(s, l), StreamDo(r, l), c)
  {
    hide Inv, Same, StreamEnabled, StreamDo, StreamFinds, StepOf;
    StreamFound(s, l);
    match l
    case Announce(i, t) => AnnounceKept(s, i, t, r, c);
    case WriteBack(i) => WriteBackKept(s, i, r, c);
    case PeerGone(i, t) => PeerGoneKept(s, i, t, r, c);
    case AcceptStream(_) => HandlerKept(s, l, r, c);
    case HandlerFails(_) => HandlerKept(s, l, r, c);
    case _ => ExchangeKept(s, l, r, c);
  }

  predicate OfSelect(l: DaemonLabel) {
    l.TakeReply? || l.TakeNil? || l.TakeCancel?
  }

  lemma SelectKept(s: State, l: DaemonLabel, r: State, c: CallId)
    requires DaemonEnabled(s, l) && DaemonFinds(s, l) && OfSelect(l) && Same(s, r, c) && !StepOf(s, Daemon(l), c)
    ensures DaemonEnabled(r, l) && Same(DaemonDo(s, l), DaemonDo(r, l), c)
  {
    hide Same, TasksOf, StreamsOf, ArrivalsOf, Registry.Enabled, Registry.Do;
    var g, s' := l.g, DaemonDo(s, l);
    SeeTask(s, r, c, g);
    SeeStream(s, r, c, s.taskPc[g].sid);
    SetPc(s, r, c, g, s'.taskPc[g]);
    SetExchange(s.(taskPc := s.taskPc[g := s'.taskPc[g]]), r.(taskPc := r.taskPc[g := s'.taskPc[g]]),
                c, s.taskPc[g].sid, Closed);
  }

  /** Steps that read and write the maps of their own call. */
  lemma TaskKept(s: State, l: DaemonLabel, r: State, c: CallId)
    requires DaemonEnabled(s, l) && Same(s, r, c) && !StepOf(s, Daemon(l), c)
    requires l.ServeCall? || l.NoStream? || l.AnswerFails? || l.EndCall? || l.ServeResponse?
    ensures DaemonEnabled(r, l) && Same(DaemonDo(s, l), DaemonDo(r, l), c)
  {
    hide Same, TasksOf, StreamsOf, ArrivalsOf, Registry.Enabled, Registry.Do;
    var g, s' := l.g, DaemonDo(s, l);
    SeeTask(s, r, c, g);
    SeeKeys(s, r, c, CallKey(s, g), (s.tasks[g].conn, s.tasks[g].req.callId));
    SetPc(s, r, c, g, s'.taskPc[g]);
    var s1, r1 := s.(taskPc := s.taskPc[g := s'.taskPc[g]]), r.(taskPc := r.taskPc[g := s'.taskPc[g]]);
    SetCancelUnary(s1, r1, c, CallKey(s, g), g);
    SetDone(s1.(cancelUnary := s.cancelUnary - {CallKey(s, g)}),
            r1.(cancelUnary := r.cancelUnary - {CallKey(s, g)}), c, g);
  }

  lemma CancelKept(s: State, g: nat, r: State, c: CallId)
    requires DaemonEnabled(s, ServeCancel(g)) && Same(s, r, c) && !StepOf(s, Daemon(ServeCancel(g)), c)
    ensures DaemonEnabled(r, ServeCancel(g)) && Same(DaemonDo(s, ServeCancel(g)), DaemonDo(r, ServeCancel(g)), c)
  {
    hide Same, TasksOf, StreamsOf, ArrivalsOf, Registry.Enabled, Registry.Do;
    SeeTask(s, r, c, g);
    SeeKeys(s, r, c, CallKey(s, g), (s.tasks[g].conn, s.tasks[g].req.callId));
    SetPc(s, r, c, g, Over);
    if CallKey(s, g) in s.cancelUnary {
      SetDone(s.(taskPc := s.taskPc[g := Over]), r.(taskPc := r.taskPc[g := Over]), c, s.cancelUnary[CallKey(s, g)]);
    }
  }

  lemma HandKept(s: State, g: nat, r: State, c: CallId)
    requires DaemonEnabled(s, HandResponse(g)) && DaemonFinds(s, HandResponse(g)) && Same(s, r, c)
    requires !StepOf(s, Daemon(HandResponse(g)), c)
    ensures DaemonEnabled(r, HandResponse(g)) && Same(DaemonDo(s, HandResponse(g)), DaemonDo(r, HandResponse(g)), c)
  {
    hide Same, TasksOf, StreamsOf, ArrivalsOf, Registry.Enabled, Registry.Do;
    SeeTask(s, r, c, g);
    SeeStream(s, r, c, s.taskPc[g].sid);
    SetPc(s, r, c, g, Over);
    SetHandler(s.(taskPc := s.taskPc[g := Over]), r.(taskPc := r.taskPc[g := Over]),
               c, s.taskPc[g].sid, Took(s.tasks[g].req));
  }

  lemma OpenKept(s: State, g: nat, sid: nat, r: State, c: CallId)
    requires DaemonEnabled(s, OpenStream(g, sid)) && Same(s, r, c) && !StepOf(s, Daemon(OpenStream(g, sid)), c)
    ensures DaemonEnabled(r, OpenStream(g, sid)) &&
            Same(DaemonDo(s, OpenStream(g, sid)), DaemonDo(r, OpenStream(g, sid)), c)
  {
    hide Same, TasksOf, StreamsOf, ArrivalsOf, Registry.Enabled, Registry.Do;
    SeeTask(s, r, c, g);
    SeeNew(s, r, c);
    SetPc(s, r, c, g, Exchanging(sid));
    KeepStreams(s.(taskPc := s.taskPc[g := Exchanging(sid)]), r.(taskPc := r.taskPc[g := Exchanging(sid)]), c, sid,
      DaemonDo(s, OpenStream(g, sid)).streams[sid]);
  }

  lemma AnswerKept(s: State, g: nat, t: nat, r: State, c: CallId)
    requires DaemonEnabled(s, WriteAnswer(g, t)) && DaemonFinds(s, WriteAnswer(g, t)) && Same(s, r, c)
    requires !StepOf(s, Daemon(WriteAnswer(g, t)), c)
    ensures DaemonEnabled(r, WriteAnswer(g, t)) &&
            Same(DaemonDo(s, WriteAnswer(g, t)), DaemonDo(r, WriteAnswer(g, t)), c)
  {
    hide Same, TasksOf;
    SeeTask(s, r, c, g);
    SeeNew(s, r, c);
    WriteKept(s, r, c, g, if s.tasks[g].req.body.CallUnary? then Answered else Over, t,
      Arrival(s.tasks[g].conn, s.taskPc[g].reply.value, g));
  }

  lemma WriteKept(s: State, r: State, c: CallId, g: nat, pc: TaskPc, t: nat, a: Arrival)
    requires Same(s, r, c) && t !in s.arrivals && a.reply.callId != c
    ensures Same(s.(taskPc := s.taskPc[g := pc], arrivals := s.arrivals[t := a], arrivalPc := s.arrivalPc[t := New]),
                 r.(taskPc := r.taskPc[g := pc], arrivals := r.arrivals[t := a], arrivalPc := r.arrivalPc[t := New]), c)
  {
    hide Same;
    SetPc(s, r, c, g, pc);
    KeepArrival(s.(taskPc := s.taskPc[g := pc]), r.(taskPc := r.taskPc[g := pc]), c, t, a);
  }

  lemma AddKept(s: State, l: DaemonLabel, r: State, c: CallId)
    requires DaemonEnabled(s, l) && Same(s, r, c) && !StepOf(s, Daemon(l), c) && (l.ServeAdd? || l.ListAdd?)
    ensures DaemonEnabled(r, l) && Same(DaemonDo(s, l), DaemonDo(r, l), c)
  {
    hide Same, TasksOf, StreamsOf, ArrivalsOf, Registry.Enabled, Registry.Do, Registry.Taken;
    var g, s' := l.g, DaemonDo(s, l);
    SeeTask(s, r, c, g);
    SeeNew(s, r, c);
    SetPc(s, r, c, g, s'.taskPc[g]);
    var s1, r1 := s.(taskPc := s.taskPc[g := s'.taskPc[g]]), r.(taskPc := r.taskPc[g := s'.taskPc[g]]);
    KeepRegistries(s1, r1, c, s'.registries);
    KeepHistory(s1.(registries := s'.registries), r1.(registries := s'.registries), c, s.tasks[g].req.callId);
  }

  lemma ConnectionKept(s: State, peer: Peer, step: Registry.Label, r: State, c: CallId)
    requires DaemonEnabled(s, Connection(peer, step)) && Same(s, r, c)
    ensures DaemonEnabled(r, Connection(peer, step))
    ensures Same(DaemonDo(s, Connection(peer, step)), DaemonDo(r, Connection(peer, step)), c)
  {
    hide Same, TasksOf, StreamsOf, ArrivalsOf, Registry.Enabled, Registry.Do;
    SeeNew(s, r, c);
    KeepRegistries(s, r, c, DaemonDo(s, Connection(peer, step)).registries);
  }

  lemma DaemonKept(s: State, l: DaemonLabel, r: State, c: CallId)
    requires Inv(s) && DaemonEnabled(s, l) && !StepOf(s, Daemon(l), c) && Same(s, r, c)
    ensures DaemonEnabled(r, l) && Same(DaemonDo(s, l), DaemonDo(r, l), c)
  {
    hide Inv, Same, DaemonEnabled, DaemonDo, DaemonFinds, StepOf;
    DaemonFound(s, l);
    match l
    case OpenStream(g, sid) => OpenKept(s, g, sid, r, c);
    case WriteAnswer(g, t) => AnswerKept(s, g, t, r, c);
    case ServeCancel(g) => CancelKept(s, g, r, c);
    case HandResponse(g) => HandKept(s, g, r, c);
    case Connection(peer, step) => ConnectionKept(s, peer, step, r, c);
    case ServeAdd(_, _) => AddKept(s, l, r, c);
    case ListAdd(_) => AddKept(s, l, r, c);
    case TakeReply(_) => SelectKept(s, l, r, c);
    case TakeNil(_) => SelectKept(s, l, r, c);
    case TakeCancel(_) => SelectKept(s, l, r, c);
    case _ => TaskKept(s, l, r, c);
  }

  lemma IssueKept(s: State, r: State, c: CallId, x: CallId, conn: Conn, op: Op, g: nat)
    requires Same(s, r, c) && StreamsHaveTasks(s) && x != c && g !in s.tasks
    ensures Same(Issue(s, x, conn, op, g), Issue(r, x, conn, op, g), c)
  {
    hide Same, TasksOf, StreamsOf, ArrivalsOf, Registry.Enabled, Registry.Do;
    var caller, task := Caller(conn, op, g), Task(conn, Request(x, BodyOf(op)), 0);
    KeepTask(s, r, c, g, task);
    var s1 := s.(tasks := s.tasks[g := task], taskPc := s.taskPc[g := Fresh]);
    var r1 := r.(tasks := r.tasks[g := task], taskPc := r.taskPc[g := Fresh]);
    KeepCaller(s1, r1, c, x, caller);
    KeepCallerPc(s1.(callers := s.callers[x := caller]), r1.(callers := r.callers[x := caller]), c, x, Written);
  }

  lemma IssuesKept(s: State, l: ClientLabel, r: State, c: CallId)
    requires ClientEnabled(s, l) && ClientFinds(s, l) && Same(s, r, c) && !StepOf(s, Client(l), c)
    requires l.IssueCall? || l.IssueAdd?
    ensures ClientEnabled(r, l) && Same(ClientDo(s, l), ClientDo(r, l), c)
  {
    hide Same, TasksOf, StreamsOf, ArrivalsOf, Registry.Enabled, Registry.Do;
    SeeCaller(s, r, c, l.c);
    SeeNew(s, r, c);
    if l.IssueCall? {
      IssueKept(s, r, c, l.c, l.conn, CallOp(l.peer, l.proto, l.data), l.g);
    } else {
      var s1 := RegistryDo(s, l.conn.peer, Registry.Receive(l.conn.num, l.g, l.proto));
      KeepRegistries(s, r, c, s1.registries);
      IssueKept(s1, r.(registries := s1.registries), c, l.c, l.conn, AddOp(l.proto, l.handler), l.g);
    }
  }

  lemma CancelSentKept(s: State, l: ClientLabel, r: State, c: CallId)
    requires ClientEnabled(s, l) && ClientFinds(s, l) && Same(s, r, c) && !StepOf(s, Client(l), c)
    requires l.EndContext? || l.SendCancel?
    ensures ClientEnabled(r, l) && Same(ClientDo(s, l), ClientDo(r, l), c)
  {
    hide Same, TasksOf, StreamsOf, ArrivalsOf, Registry.Enabled, Registry.Do;
    SeeCaller(s, r, c, l.c);
    SeeNew(s, r, c);
    KeepHistory(s, r, c, l.c);
    if l.SendCancel? {
      KeepTask(s.(cancelled := s.cancelled + {l.c}), r.(cancelled := r.cancelled + {l.c}), c, l.g,
        Task(s.callers[l.c].conn, Request(l.c, CancelRequest), 0));
    }
  }

  lemma FutureKept(s: State, l: ClientLabel, r: State, c: CallId)
    requires ClientEnabled(s, l) && Same(s, r, c) && !StepOf(s, Client(l), c) && (l.AwaitFuture? || l.RouteReply?)
    ensures ClientEnabled(r, l) && Same(ClientDo(s, l), ClientDo(r, l), c)
  {
    hide Same, TasksOf, StreamsOf, ArrivalsOf, Registry.Enabled, Registry.Do;
    SeeNew(s, r, c);
    if l.AwaitFuture? { SeeCaller(s, r, c, l.c); } else { SeeArrival(s, r, c, l.t); }
    var key :=
      if l.AwaitFuture? then (s.callers[l.c].conn, l.c)
      else (s.arrivals[l.t].conn, s.arrivals[l.t].reply.callId);
    SeeKeys(s, r, c, (key.0.peer, key.1), key);
    var found := FutureAt(s, key, l.ch);
    SetFuture(s, r, c, key, found, l.ch);
    var s1 := s.(callFutures := s.callFutures[key := found], channels := s.channels + {l.ch});
    var r1 := r.(callFutures := r.callFutures[key := found], channels := r.channels + {l.ch});
    if l.AwaitFuture? {
      KeepCallerPc(s1, r1, c, l.c, Waiting(found));
    } else {
      SetArrivalPc(s1, r1, c, l.t, Holding(found));
    }
  }

  lemma HandReplyKept(s: State, x: CallId, t: nat, r: State, c: CallId)
    requires ClientEnabled(s, HandReply(x, t)) && ClientFinds(s, HandReply(x, t)) && Same(s, r, c) && x != c
    ensures ClientEnabled(r, HandReply(x, t)) && Same(ClientDo(s, HandReply(x, t)), ClientDo(r, HandReply(x, t)), c)
  {
    hide Same, TasksOf, StreamsOf, ArrivalsOf, Registry.Enabled, Registry.Do;
    SeeCaller(s, r, c, x);
    SeeArrival(s, r, c, t);
    SetArrivalPc(s, r, c, t, Consumed);
    KeepCallerPc(s.(arrivalPc := s.arrivalPc[t := Consumed]), r.(arrivalPc := r.arrivalPc[t := Consumed]), c, x,
      Got(s.arrivals[t].reply));
  }

  lemma ReturnKept(s: State, x: CallId, ctxWins: bool, r: State, c: CallId)
    requires ClientEnabled(s, Return(x, ctxWins)) && Same(s, r, c) && x != c
    ensures ClientEnabled(r, Return(x, ctxWins)) &&
            Same(ClientDo(s, Return(x, ctxWins)), ClientDo(r, Return(x, ctxWins)), c)
  {
    hide Same, TasksOf, StreamsOf, ArrivalsOf, OutcomeOf;
    SeeCaller(s, r, c, x);
    SeeNew(s, r, c);
    var s', key := ClientDo(s, Return(x, ctxWins)), (s.callers[x].conn, x);
    SetFuture(s, r, c, key, 0, 0);
    var s1, r1 := s.(callFutures := s.callFutures - {key}), r.(callFutures := r.callFutures - {key});
    KeepCallerPc(s1, r1, c, x, s'.callerPc[x]);
    KeepHandlers(s1.(callerPc := s.callerPc[x := s'.callerPc[x]]), r1.(callerPc := r.callerPc[x := s'.callerPc[x]]), c,
      s'.unaryHandlers);
  }

  lemma HandlerRunKept(s: State, l: ClientLabel, r: State, c: CallId)
    requires ClientEnabled(s, l) && ClientFinds(s, l) && Same(s, r, c) && !StepOf(s, Client(l), c)
    requires l.StartHandler? || l.FinishHandler?
    ensures ClientEnabled(r, l) && Same(ClientDo(s, l), ClientDo(r, l), c)
  {
    hide Same, TasksOf, StreamsOf, ArrivalsOf, Registry.Enabled, Registry.Do;
    var s', t := ClientDo(s, l), l.t;
    SeeArrival(s, r, c, t);
    SeeNew(s, r, c);
    SetArrivalPc(s, r, c, t, s'.arrivalPc[t]);
    if l.FinishHandler? {
      var s1, r1 := s.(arrivalPc := s'.arrivalPc), r.(arrivalPc := r.arrivalPc[t := Consumed]);
      SetRun(s1, r1, c, t, s'.runs[t]);
      KeepTask(s1.(runs := s'.runs), r1.(runs := r.runs[t := s'.runs[t]]), c, l.g, s'.tasks[l.g]);
    }
  }

  lemma ClientKept(s: State, l: ClientLabel, r: State, c: CallId)
    requires Inv(s) && ClientEnabled(s, l) && !StepOf(s, Client(l), c) && Same(s, r, c)
    ensures ClientEnabled(r, l) && Same(ClientDo(s, l), ClientDo(r, l), c)
  {
    hide Inv, Same, ClientEnabled, ClientDo, ClientFinds;
    ClientFound(s, l);
    match l
    case IssueCall(_, _, _, _, _, _) => IssuesKept(s, l, r, c);
    case IssueAdd(_, _, _, _, _) => IssuesKept(s, l, r, c);
    case EndContext(_) => CancelSentKept(s, l, r, c);
    case SendCancel(_, _) => CancelSentKept(s, l, r, c);
    case AwaitFuture(_, _) => FutureKept(s, l, r, c);
    case RouteReply(_, _) => FutureKept(s, l, r, c);
    case HandReply(x, t) => HandReplyKept(s, x, t, r, c);
    case Return(x, ctxWins) => ReturnKept(s, x, ctxWins, r, c);
    case StartHandler(_) => HandlerRunKept(s, l, r, c);
    case FinishHandler(_, _, _) => HandlerRunKept(s, l, r, c);
  }

  lemma Kept(s: State, l: Label, r: State, c: CallId)
    requires Inv(s) && Enabled(s, l) && !StepOf(s, l, c) && Same(s, r, c)
    ensures Enabled(r, l) && Same(Do(s, l), Do(r, l), c)
  {
    hide Inv, Same, ClientEnabled, DaemonEnabled, StreamEnabled, ClientDo, DaemonDo, StreamDo, StepOf;
    match l
    case Client(x) => ClientKept(s, x, r, c);
    case Daemon(x) => DaemonKept(s, x, r, c);
    case OnStream(x) => StreamKept(s, x, r, c);
  }

  // ---------------------------------------------------------------------------
  // Leaving out the steps of a call
  // ---------------------------------------------------------------------------

  /** The run without the steps of call `c` from position `n` on. */
  function Without(run: seq<Label>, n: nat, c: CallId): seq<Label> {
    if |run| <= n then run
    else
      var m := |run| - 1;
      var rest := Without(run[..m], n, c);
      if Exec(run[..m]).Some? && StepOf(Exec(run[..m]).value, run[m], c) then rest else rest + [run[m]]
  }

  predicate IsCall(s: State, c: CallId) {
    c in s.callers && s.callers[c].op.CallOp?
  }

  lemma StaysCall(s: State, l: Label, c: CallId)
    requires Enabled(s, l) && IsCall(s, c)
    ensures IsCall(Do(s, l), c)
  {
    hide ClientEnabled, DaemonEnabled, StreamEnabled, ClientDo, DaemonDo, StreamDo;
    if l.Client? { ClientStaysCall(s, l.client, c); }
  }

  lemma ClientStaysCall(s: State, l: ClientLabel, c: CallId)
    requires ClientEnabled(s, l) && IsCall(s, c)
    ensures IsCall(ClientDo(s, l), c)
  {
    hide Registry.Enabled, Registry.Do;
  }

  lemma {:induction false} IsCallAfter(run: seq<Label>, n: nat, c: CallId)
    requires n <= |run| && Exec(run).Some? && Exec(run[..n]).Some? && IsCall(Exec(run[..n]).value, c)
    ensures IsCall(Exec(run).value, c)
    decreases |run|
  {
    hide Enabled, Do, IsCall;
    if n == |run| {
      assert run[..n] == run;
    } else {
      var m := |run| - 1;
      assert run[..m][..n] == run[..n];
      IsCallAfter(run[..m], n, c);
      StaysCall(Exec(run[..m]).value, run[m], c);
    }
  }

  lemma LeftOut(run: seq<Label>, l: Label, rest: seq<Label>, c: CallId)
    requires Exec(run).Some? && Enabled(Exec(run).value, l) && IsCall(Exec(run).value, c)
    requires Exec(rest).Some? && Same(Exec(run).value, Exec(rest).value, c)
    ensures StepOf(Exec(run).value, l, c) ==> Same(Do(Exec(run).value, l), Exec(rest).value, c)
    ensures !StepOf(Exec(run).value, l, c) ==>
              Exec(rest + [l]).Some? && Same(Do(Exec(run).value, l), Exec(rest + [l]).value, c)
  {
    hide Exec, Enabled, Do, Same, StepOf;
    RunInv(run);
    if StepOf(Exec(run).value, l, c) {
      Erased(Exec(run).value, l, Exec(rest).value, c);
    } else {
      Kept(Exec(run).value, l, Exec(rest).value, c);
      ExecStep(rest, l);
    }
  }

  /**
    From any point on, the steps of a call can be left out of a run: what remains is a run, and it
    leaves everything but that call as the run did.
   */
  lemma {:induction false} StepsCanBeLeftOut(run: seq<Label>, n: nat, c: CallId)
    requires n <= |run| && Exec(run).Some? && Exec(run[..n]).Some? && IsCall(Exec(run[..n]).value, c)
    ensures Exec(Without(run, n, c)).Some? && Same(Exec(run).value, Exec(Without(run, n, c)).value, c)
    decreases |run|
  {
    hide Enabled, Do, Same, StepOf, IsCall;
    if n == |run| {
      SameSelf(Exec(run).value, c);
    } else {
      var m := |run| - 1;
      assert run[..m][..n] == run[..n];
      StepsCanBeLeftOut(run[..m], n, c);
      IsCallAfter(run[..m], n, c);
      LeftOut(run[..m], run[m], Without(run[..m], n, c), c);
    }
  }

  /** No Cancel of the call remains, if there was none before the point. */
  lemma {:induction false} CancelsLeftOut(run: seq<Label>, n: nat, c: CallId)
    requires n <= |run| && Exec(run).Some? && !SentCancel(run[..n], c)
    ensures !SentCancel(Without(run, n, c), c)
    decreases |run|
  {
    hide Enabled, Do;
    if n == |run| {
      assert run[..n] == run;
    } else {
      var m := |run| - 1;
      assert run[..m][..n] == run[..n];
      CancelsLeftOut(run[..m], n, c);
      var rest := Without(run[..m], n, c);
      assert forall i :: 0 <= i < |rest| ==> (rest + [run[m]])[i] == rest[i];
    }
  }

  /** Both runs leave every operation other than `c` at the same point, with the same outcome. */
  ghost predicate OthersAlike(s: State, r: State, c: CallId) {
    SameMap(s.callers, r.callers, {c}) && SameMap(s.callerPc, r.callerPc, {c})
  }

  ghost predicate RunsWithoutCancel(s: State, c: CallId, run: seq<Label>) {
    Exec(run).Some? && !SentCancel(run, c) && OthersAlike(s, Exec(run).value, c)
  }

  lemma {:induction false} FirstCancel(run: seq<Label>, c: CallId) returns (n: nat)
    requires SentCancel(run, c)
    ensures n < |run| && run[n].Client? && run[n].client.SendCancel? && run[n].client.c == c && !SentCancel(run[..n], c)
    decreases |run|
  {
    var m := |run| - 1;
    if SentCancel(run[..m], c) {
      n := FirstCancel(run[..m], c);
      assert run[..m][..n] == run[..n];
    } else {
      assert forall i :: 0 <= i < m ==> run[..m][i] == run[i];
      n := m;
    }
  }

  lemma {:induction false} PrefixRuns(run: seq<Label>, n: nat)
    requires n <= |run| && Exec(run).Some?
    ensures Exec(run[..n]).Some? && (n < |run| ==> Enabled(Exec(run[..n]).value, run[n]))
    decreases |run|
  {
    hide Enabled, Do;
    if n < |run| - 1 {
      PrefixRuns(run[..|run| - 1], n);
      assert run[..|run| - 1][..n] == run[..n];
    } else if n == |run| {
      assert run[..n] == run;
    }
  }

  /**
    A Cancel never changes what becomes of another operation: for every run and every call there is
    a run in which the call's client sends no Cancel and all other operations go as they did.
   */
  lemma CancelIsolated(run: seq<Label>, c: CallId)
    requires Exec(run).Some?
    ensures exists other :: RunsWithoutCancel(Exec(run).value, c, other)
  {
    hide Exec, Same;
    if SentCancel(run, c) {
      var n := FirstCancel(run, c);
      PrefixRuns(run, n);
      StepsCanBeLeftOut(run, n, c);
      CancelsLeftOut(run, n, c);
      SameOthers(Exec(run).value, Exec(Without(run, n, c)).value, c);
      assert RunsWithoutCancel(Exec(run).value, c, Without(run, n, c));
    } else {
      SameSelf(Exec(run).value, c);
      SameOthers(Exec(run).value, Exec(run).value, c);
      assert RunsWithoutCancel(Exec(run).value, c, run);
    }
  }

  lemma SameOthers(s: State, r: State, c: CallId)
    requires Same(s, r, c)
    ensures OthersAlike(s, r, c)
  {
    hide SameMap, SameSet, SameKeyed;
  }
}
