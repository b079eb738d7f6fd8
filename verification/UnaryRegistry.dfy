/** Each daemon of the unary-call system is a registry of its own: what holds of one holds of it. */
module UnaryRegistry {
  import opened Options
  import opened Wire
  import opened UnaryCalls
  import opened UnaryInvariant
  import opened UnarySteps
  import Registry

  // ---------------------------------------------------------------------------
  // Runs of the system are runs of its registries
  // ---------------------------------------------------------------------------

  ghost predicate Reached(r: Registry.State) {
    exists run :: Registry.Exec(run) == Some(r)
  }

  /** No step of the registry, or one. */
  ghost predicate Follows(r: Registry.State, r': Registry.State) {
    r' == r || exists l :: Registry.Enabled(r, l) && r' == Registry.Do(r, l)
  }

  lemma ClientFollows(s: State, l: ClientLabel, peer: Peer)
    requires ClientEnabled(s, l)
    ensures Follows(RegistryAt(s, peer), RegistryAt(ClientDo(s, l), peer))
  {
    hide Registry.Enabled, Registry.Do;
  }

  lemma DaemonFollows(s: State, l: DaemonLabel, peer: Peer)
    requires DaemonEnabled(s, l)
    ensures Follows(RegistryAt(s, peer), RegistryAt(DaemonDo(s, l), peer))
  {
    hide Registry.Enabled, Registry.Do, Registry.Taken;
  }

  lemma StepFollows(s: State, l: Label, peer: Peer)
    requires Enabled(s, l)
    ensures Follows(RegistryAt(s, peer), RegistryAt(Do(s, l), peer))
  {
    hide ClientEnabled, DaemonEnabled, StreamEnabled, ClientDo, DaemonDo, StreamDo, Follows;
    match l
    case Client(x) => ClientFollows(s, x, peer);
    case Daemon(x) => DaemonFollows(s, x, peer);
    case OnStream(x) => NoStep(RegistryAt(s, peer));
  }

  lemma NoStep(r: Registry.State)
    ensures Follows(r, r)
  {
  }

  lemma ReachedNext(r: Registry.State, r': Registry.State)
    requires Reached(r) && Follows(r, r')
    ensures Reached(r')
  {
    hide Registry.Exec, Registry.Enabled, Registry.Do;
    var run :| Registry.Exec(run) == Some(r);
    if r' != r {
      var l :| Registry.Enabled(r, l) && r' == Registry.Do(r, l);
      Registry.ExecStep(run, l);
    }
  }

  lemma InitReached()
    ensures Reached(Registry.INIT)
  {
    assert Registry.Exec([]) == Some(Registry.INIT);
  }

  /**
    After every run of the system, each daemon's connections and handlers are as after some run of
    the registry alone: its ownership and lifecycle theorems hold of every daemon of the system.
   */
  lemma {:induction false} DaemonsAreRegistries(run: seq<Label>, peer: Peer)
    requires Exec(run).Some?
    ensures Reached(RegistryAt(Exec(run).value, peer))
    decreases |run|
  {
    hide Reached, Follows, Enabled, Do;
    if run == [] {
      InitReached();
    } else {
      var n := |run| - 1;
      DaemonsAreRegistries(run[..n], peer);
      StepFollows(Exec(run[..n]).value, run[n], peer);
      ReachedNext(RegistryAt(Exec(run[..n]).value, peer), RegistryAt(Exec(run).value, peer));
    }
  }

  /** In particular, a connection's list at a daemon names only protocols that lead to it. */
  lemma ListedLeadsHere(run: seq<Label>, conn: Conn, proto: Proto)
    requires Exec(run).Some?
    requires var r := RegistryAt(Exec(run).value, conn.peer);
      Registry.Live(r, conn.num) && proto in Registry.ListOf(r, conn.num)
    ensures Registered(Exec(run).value, conn, proto)
  {
    hide Exec, Registry.Exec;
    DaemonsAreRegistries(run, conn.peer);
    var rr :| Registry.Exec(rr) == Some(RegistryAt(Exec(run).value, conn.peer));
    Registry.OneOwner(rr, conn.num, conn.num, proto);
  }

  // ---------------------------------------------------------------------------
  // Adds are where their goroutines are
  // ---------------------------------------------------------------------------

  function PhaseOf(pc: TaskPc, phase: Registry.AddPhase): bool {
    match pc
    case Fresh => phase.Pending?
    case Listing(_) => phase.Accepted? || phase.Refused?
    case _ => phase.Finished?
  }

  /** The goroutine of an add is at the registry's idea of it. */
  ghost predicate InStep(s: State, g: nat) {
    && g in s.tasks && g in s.taskPc && s.tasks[g].req.body.AddUnaryHandler?
    && var adds := RegistryAt(s, s.tasks[g].conn.peer).adds;
       && g in adds && adds[g].conn == s.tasks[g].conn.num && adds[g].proto == s.tasks[g].req.body.proto
       && PhaseOf(s.taskPc[g], adds[g].phase)
  }

  ghost predicate AddsInStep(s: State) {
    && s.taskPc.Keys == s.tasks.Keys
    && forall g :: g in s.tasks && s.tasks[g].req.body.AddUnaryHandler? ==> InStep(s, g)
  }

  /** A step that moves no add and changes no registry's adds but for new ones. */
  lemma AddsFrame(s: State, s': State)
    requires AddsInStep(s) && s'.taskPc.Keys == s'.tasks.Keys
    requires forall g :: g in s'.tasks && s'.tasks[g].req.body.AddUnaryHandler? && g in s.tasks ==>
               s'.tasks[g] == s.tasks[g]
    requires forall g :: g in s'.tasks && s'.tasks[g].req.body.AddUnaryHandler? && g !in s.tasks ==> InStep(s', g)
    requires forall g :: InStep(s, g) ==> g in s'.taskPc && s'.taskPc[g] == s.taskPc[g]
    requires MoreAdds(s, s') || s'.registries == s.registries
    ensures AddsInStep(s')
  {
    forall g | g in s'.tasks && s'.tasks[g].req.body.AddUnaryHandler? ensures InStep(s', g) {
      if g in s.tasks { assert InStep(s, g); }
    }
  }

  lemma ConnectionAdds(r: Registry.State, step: Registry.Label)
    requires Registry.Enabled(r, step) && !step.FirstSection? && !step.SecondSection?
    ensures forall g :: g in r.adds ==> g in Registry.Do(r, step).adds && Registry.Do(r, step).adds[g] == r.adds[g]
    ensures step.Receive? ==> step.a in Registry.Do(r, step).adds
    ensures step.Receive? ==> Registry.Do(r, step).adds[step.a] == Registry.Add(step.c, step.p, Registry.Pending)
  {
    hide Registry.Remove, Registry.EnteredConns, Registry.ListOf;
  }

  /** The registries' adds only grow by new ones. */
  ghost predicate MoreAdds(s: State, s': State) {
    forall g, peer :: g in RegistryAt(s, peer).adds ==>
      g in RegistryAt(s', peer).adds && RegistryAt(s', peer).adds[g] == RegistryAt(s, peer).adds[g]
  }

  lemma RegistryAdds(s: State, peer: Peer, step: Registry.Label)
    requires Registry.Enabled(RegistryAt(s, peer), step) && !step.FirstSection? && !step.SecondSection?
    ensures MoreAdds(s, RegistryDo(s, peer, step))
  {
    hide Registry.Enabled, Registry.Do;
    ConnectionAdds(RegistryAt(s, peer), step);
  }

  lemma AddsIssued(s: State, c: CallId, conn: Conn, proto: Proto, handler: nat, g: nat)
    requires AddsInStep(s) && ClientEnabled(s, IssueAdd(c, conn, proto, handler, g))
    ensures AddsInStep(ClientDo(s, IssueAdd(c, conn, proto, handler, g)))
  {
    hide Registry.Enabled, Registry.Do;
    var step := Registry.Receive(conn.num, g, proto);
    ConnectionAdds(RegistryAt(s, conn.peer), step);
    RegistryAdds(s, conn.peer, step);
    var s' := ClientDo(s, IssueAdd(c, conn, proto, handler, g));
    assert s'.registries == RegistryDo(s, conn.peer, step).registries;
    assert InStep(s', g) && MoreAdds(s, s');
    hide MoreAdds, RegistryAt, RegistryDo;
    AddsFrame(s, s');
  }

  lemma AddsClient(s: State, l: ClientLabel)
    requires AddsInStep(s) && ClientEnabled(s, l) && !l.IssueAdd?
    ensures AddsInStep(ClientDo(s, l))
  {
    hide Registry.Enabled, RegistryAt, RegistryDo, InStep;
    var s' := ClientDo(s, l);
    assert s'.registries == s.registries;
    assert forall g :: g in s.taskPc ==> g in s'.taskPc && s'.taskPc[g] == s.taskPc[g];
    AddsKeep(s, s');
  }

  /** A step that neither touches a registry nor moves an add nor starts one. */
  lemma AddsKeep(s: State, s': State)
    requires AddsInStep(s) && s'.taskPc.Keys == s'.tasks.Keys && s'.registries == s.registries
    requires forall g :: g in s'.tasks && s'.tasks[g].req.body.AddUnaryHandler? ==>
               g in s.tasks && s'.tasks[g] == s.tasks[g] && s'.taskPc[g] == s.taskPc[g]
    ensures AddsInStep(s')
  {
    forall g | g in s'.tasks && s'.tasks[g].req.body.AddUnaryHandler? ensures InStep(s', g) {
      assert InStep(s, g);
    }
  }

  /** Steps of a daemon that leave the adds alone. */
  lemma AddsDaemon(s: State, l: DaemonLabel)
    requires AddsInStep(s) && DaemonEnabled(s, l) && !l.ServeAdd? && !l.ListAdd? && !l.Connection?
    requires PcKinds(s.tasks, s.taskPc) && HandingRight(s.tasks, s.taskPc, s.toCallee)
    requires l.WriteAnswer? || l.AnswerFails? ==> s.tasks[l.g].req.body.CallUnary?
    ensures AddsInStep(DaemonDo(s, l))
  {
    hide RegistryAt, RegistryDo, InStep;
    assert DaemonDo(s, l).registries == s.registries;
    AddsKeep(s, DaemonDo(s, l));
  }

  lemma AddsConnection(s: State, peer: Peer, step: Registry.Label)
    requires AddsInStep(s) && DaemonEnabled(s, Connection(peer, step))
    ensures AddsInStep(DaemonDo(s, Connection(peer, step)))
  {
    hide Registry.Enabled, Registry.Do;
    RegistryAdds(s, peer, step);
    AddsFrame(s, DaemonDo(s, Connection(peer, step)));
  }

  lemma SectionAdds(r: Registry.State, g: nat, step: Registry.Label)
    requires Registry.Enabled(r, step) && (step == Registry.FirstSection(g) || step == Registry.SecondSection(g))
    ensures forall h :: h in r.adds && h != g ==>
              h in Registry.Do(r, step).adds && Registry.Do(r, step).adds[h] == r.adds[h]
    ensures g in r.adds && g in Registry.Do(r, step).adds
    ensures var old_, new_ := r.adds[g], Registry.Do(r, step).adds[g];
      && new_.conn == old_.conn && new_.proto == old_.proto
      && (step.FirstSection? ==> new_.phase.Accepted? || new_.phase.Refused?)
      && (step.SecondSection? ==> new_.phase.Finished?)
  {
    hide Registry.Register, Registry.ListOf;
  }

  lemma AddsSections(s: State, l: DaemonLabel)
    requires AddsInStep(s) && DaemonEnabled(s, l) && PcKinds(s.tasks, s.taskPc) && (l.ServeAdd? || l.ListAdd?)
    ensures AddsInStep(DaemonDo(s, l))
  {
    hide Registry.Enabled, Registry.Do, Registry.Taken;
    var step := if l.ServeAdd? then Registry.FirstSection(l.g) else Registry.SecondSection(l.g);
    SectionAdds(RegistryAt(s, s.tasks[l.g].conn.peer), l.g, step);
    var s' := DaemonDo(s, l);
    forall g | g in s'.tasks && s'.tasks[g].req.body.AddUnaryHandler? ensures InStep(s', g) {
      assert InStep(s, g);
    }
  }

  lemma AddsAnswered(s: State, l: DaemonLabel)
    requires AddsInStep(s) && DaemonEnabled(s, l) && (l.WriteAnswer? || l.AnswerFails?)
    requires !s.tasks[l.g].req.body.CallUnary?
    ensures AddsInStep(DaemonDo(s, l))
  {
    hide Registry.Enabled, Registry.Do;
    var s' := DaemonDo(s, l);
    forall h | h in s'.tasks && s'.tasks[h].req.body.AddUnaryHandler? ensures InStep(s', h) {
      assert InStep(s, h);
    }
  }

  lemma AddsStream(s: State, l: StreamLabel)
    requires AddsInStep(s) && StreamEnabled(s, l)
    ensures AddsInStep(StreamDo(s, l))
  {
    hide StreamDo;
    AddsFrame(s, StreamDo(s, l));
  }

  lemma AddsStep(s: State, l: Label)
    requires Inv(s) && AddsInStep(s) && Enabled(s, l)
    ensures AddsInStep(Do(s, l))
  {
    hide AddsInStep, ClientEnabled, StreamEnabled, ClientDo, DaemonDo, StreamDo, Registry.Enabled;
    assert PcKinds(s.tasks, s.taskPc) by { Open(s); }
    assert HandingRight(s.tasks, s.taskPc, s.toCallee) by { Open(s); }
    hide Inv, PcKinds, HandingRight;
    match l
    case Client(x) =>
      if x.IssueAdd? {
        AddsIssued(s, x.c, x.conn, x.proto, x.handler, x.g);
      } else {
        AddsClient(s, x);
      }
    case Daemon(x) =>
      if x.ServeAdd? || x.ListAdd? {
        AddsSections(s, x);
      } else if (x.WriteAnswer? || x.AnswerFails?) && !s.tasks[x.g].req.body.CallUnary? {
        AddsAnswered(s, x);
      } else if x.Connection? {
        AddsConnection(s, x.peer, x.step);
      } else {
        AddsDaemon(s, x);
      }
    case OnStream(x) => AddsStream(s, x);
  }

  lemma {:induction false} RunAdds(run: seq<Label>)
    requires Exec(run).Some?
    ensures AddsInStep(Exec(run).value)
    decreases |run|
  {
    hide AddsInStep, Enabled, Do;
    if run == [] {
      InitAdds();
    } else {
      var n := |run| - 1;
      RunAdds(run[..n]);
      RunInv(run[..n]);
      AddsStep(Exec(run[..n]).value, run[n]);
    }
  }

  lemma InitAdds()
    ensures AddsInStep(INIT)
  {
  }

  /** The mutex aside, an add's goroutine can always take its first section, and then its second. */
  lemma AddsNeverStuck(run: seq<Label>, g: nat, message: seq<byte>)
    requires Exec(run).Some? && g in Exec(run).value.tasks && Exec(run).value.tasks[g].req.body.AddUnaryHandler?
    ensures TaskAt(Exec(run).value, g, Fresh) ==> DaemonEnabled(Exec(run).value, ServeAdd(g, message))
    ensures g in Exec(run).value.taskPc
    ensures Exec(run).value.taskPc[g].Listing? ==> DaemonEnabled(Exec(run).value, ListAdd(g))
  {
    hide Exec;
    RunAdds(run);
    assert InStep(Exec(run).value, g);
  }
}
