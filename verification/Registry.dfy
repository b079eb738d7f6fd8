/**
  Unary handlers of a daemon: which connection owns which protocol, over every
  interleaving of adds and disconnects; and the wait group that ends the daemon.
 */
module Registry {
  import opened Options
  import opened Wire

  type Proto = seq<byte>
  type Conn = nat
  type AddId = nat

  // ---------------------------------------------------------------------------
  // What the daemon's mutex guards
  // ---------------------------------------------------------------------------

  /** `registeredUnaryProtocols`, and the host's stream handlers: whose writer each one holds. */
  datatype Handlers = Handlers(registered: map<Proto, bool>, owner: map<Proto, Conn>)

  predicate Taken(h: Handlers, p: Proto) {
    p in h.registered && h.registered[p]
  }

  function Register(h: Handlers, c: Conn, p: Proto): Handlers {
    Handlers(h.registered[p := true], h.owner[p := c])
  }

  function Remove(h: Handlers, list: seq<Proto>): Handlers {
    Handlers(map p | p in h.registered && p !in list :: h.registered[p],
             map p | p in h.owner && p !in list :: h.owner[p])
  }

  class Daemon {
    var registeredUnaryProtocols: map<Proto, bool>
    var streamHandlers: map<Proto, Conn>

    function Contents(): Handlers
      reads this
    {
      Handlers(registeredUnaryProtocols, streamHandlers)
    }

    constructor ()
      ensures Contents() == Handlers(map[], map[])
    {
      registeredUnaryProtocols, streamHandlers := map[], map[];
    }

    /** `doAddUnaryHandler`: one section of the mutex. */
    method DoAddUnaryHandler(c: Conn, proto: Proto) returns (ok: bool)
      modifies this
      ensures ok == !Taken(old(Contents()), proto)
      ensures Contents() == if ok then Register(old(Contents()), c, proto) else old(Contents())
    {
      if proto in registeredUnaryProtocols && registeredUnaryProtocols[proto] {
        return false;
      }
      streamHandlers := streamHandlers[proto := c];
      registeredUnaryProtocols := registeredUnaryProtocols[proto := true];
      return true;
    }

    /** The deferred clean-up of `handlePersistentConn`: one section of the mutex. */
    method CleanUp(list: seq<Proto>)
      modifies this
      ensures Contents() == Remove(old(Contents()), list)
    {
      var i := 0;
      while i < |list|
        invariant 0 <= i <= |list|
        invariant Contents() == Remove(old(Contents()), list[..i])
      {
        streamHandlers := streamHandlers - {list[i]};
        registeredUnaryProtocols := registeredUnaryProtocols - {list[i]};
        assert list[..i + 1] == list[..i] + [list[i]];
        i := i + 1;
      }
      assert list[..|list|] == list;
    }
  }

  // ---------------------------------------------------------------------------
  // The transition system
  // ---------------------------------------------------------------------------

  /**
    `Entered` from `terminateWG.Add` on, `Left` after `terminateWG.Done`, `Cleaned` after the
    deferred clean-up, which comes last.
   */
  datatype ConnPhase = Entered | Left | Cleaned

  /** An add request in its own goroutine; `Accepted` lies between its two sections of the mutex. */
  datatype AddPhase = Pending | Accepted | Refused | Finished

  datatype Add = Add(conn: Conn, proto: Proto, phase: AddPhase)

  /** The goroutine of `awaitTermination`. */
  datatype Awaiter = NotStarted | Started | Waiting | Released | ClosedDaemon

  datatype Event =
    | Accept(conn: Conn, proto: Proto)
    | Clean(conn: Conn, list: seq<Proto>)

  datatype State = State(
    handlers: Handlers,
    lists: map<Conn, seq<Proto>>,   // each connection's `streamHandlers`
    phases: map<Conn, ConnPhase>,
    adds: map<AddId, Add>,
    waitGroup: int,
    awaiter: Awaiter,
    emptied: bool,                  // history: no connection was entered at some time after the first
    log: seq<Event>                 // history
  )

  const INIT := State(Handlers(map[], map[]), map[], map[], map[], 0, NotStarted, false, [])

  datatype Label =
    | Enter(c: Conn)
    | StartAwaiter(c: Conn)
    | CallWait
    | CloseAll
    | Receive(c: Conn, a: AddId, p: Proto)
    | FirstSection(a: AddId)
    | SecondSection(a: AddId)
    | Leave(c: Conn)
    | CleanUp(c: Conn)

  predicate Enabled(s: State, l: Label) {
    match l
    case Enter(c) => c !in s.phases
    case StartAwaiter(c) => c in s.phases && s.phases[c] == Entered
    case CallWait => s.awaiter == Started
    case CloseAll => s.awaiter == Released
    case Receive(c, a, p) => c in s.phases && s.phases[c] == Entered && a !in s.adds
    case FirstSection(a) => a in s.adds && s.adds[a].phase == Pending
    case SecondSection(a) => a in s.adds && (s.adds[a].phase == Accepted || s.adds[a].phase == Refused)
    case Leave(c) => c in s.phases && s.phases[c] == Entered
    case CleanUp(c) => c in s.phases && s.phases[c] == Left
  }

  function ListOf(s: State, c: Conn): seq<Proto> {
    if c in s.lists then s.lists[c] else []
  }

  function Do(s: State, l: Label): State
    requires Enabled(s, l)
  {
    match l
    case Enter(c) =>
      s.(phases := s.phases[c := Entered], lists := s.lists[c := []], waitGroup := s.waitGroup + 1)
    case StartAwaiter(c) =>  // `terminateOnce`
      if s.awaiter == NotStarted then s.(awaiter := Started) else s
    case CallWait =>
      s.(awaiter := if s.waitGroup == 0 then Released else Waiting)
    case CloseAll =>
      s.(awaiter := ClosedDaemon)
    case Receive(c, a, p) =>
      s.(adds := s.adds[a := Add(c, p, Pending)])
    case FirstSection(a) =>
      var add := s.adds[a];
      if Taken(s.handlers, add.proto) then s.(adds := s.adds[a := add.(phase := Refused)])
      else s.(handlers := Register(s.handlers, add.conn, add.proto),
              adds := s.adds[a := add.(phase := Accepted)],
              log := s.log + [Accept(add.conn, add.proto)])
    case SecondSection(a) =>
      var add := s.adds[a];
      var s' := s.(adds := s.adds[a := add.(phase := Finished)]);
      if add.phase == Refused then s'
      else s'.(lists := s.lists[add.conn := ListOf(s, add.conn) + [add.proto]])
    case Leave(c) =>
      var s' := s.(phases := s.phases[c := Left], waitGroup := s.waitGroup - 1);
      s'.(awaiter := if s'.waitGroup == 0 && s.awaiter == Waiting then Released else s.awaiter,
          emptied := s.emptied || EnteredConns(s') == {})
    case CleanUp(c) =>
      s.(handlers := Remove(s.handlers, ListOf(s, c)),
         phases := s.phases[c := Cleaned],
         log := s.log + [Clean(c, ListOf(s, c))])
  }

  function EnteredConns(s: State): set<Conn> {
    set c | c in s.phases && s.phases[c] == Entered
  }

  /** The state after a run, if every step of it was possible. */
  function Exec(run: seq<Label>): Option<State> {
    if run == [] then Some(INIT)
    else
      var n := |run| - 1;
      match Exec(run[..n])
      case None => None
      case Some(s) => if Enabled(s, run[n]) then Some(Do(s, run[n])) else None
  }

  // ---------------------------------------------------------------------------
  // The invariant
  // ---------------------------------------------------------------------------

  ghost predicate Live(s: State, c: Conn) {
    c in s.phases && s.phases[c] != Cleaned
  }

  /** An accepted add that is not yet in its connection's list. */
  ghost predicate InFlight(s: State, a: AddId) {
    a in s.adds && s.adds[a].phase == Accepted
  }

  ghost predicate InFlightFor(s: State, c: Conn, p: Proto) {
    exists a :: InFlight(s, a) && s.adds[a].conn == c && s.adds[a].proto == p
  }

  ghost predicate Owns(s: State, c: Conn, p: Proto) {
    p in s.handlers.owner && s.handlers.owner[p] == c
  }

  ghost predicate NoDuplicates(list: seq<Proto>) {
    forall i, j :: 0 <= i < j < |list| ==> list[i] != list[j]
  }

  /** The two maps agree, and their entries are `true`. */
  ghost predicate MapsAgree(s: State) {
    && s.handlers.registered.Keys == s.handlers.owner.Keys
    && forall p :: p in s.handlers.registered ==> s.handlers.registered[p]
  }

  ghost predicate ConnsKnown(s: State) {
    && (forall a :: a in s.adds ==> s.adds[a].conn in s.phases)
    && (forall p :: p in s.handlers.owner ==> s.handlers.owner[p] in s.phases)
    && s.lists.Keys == s.phases.Keys
  }

  /** A live connection's list names protocols it owns, each once. */
  ghost predicate ListsOwned(s: State) {
    forall c :: Live(s, c) ==>
      NoDuplicates(ListOf(s, c)) && forall p :: p in ListOf(s, c) ==> Owns(s, c, p)
  }

  /** An accepted add's protocol is owned by its connection, and not yet in a live one's list. */
  ghost predicate InFlightOwned(s: State) {
    forall a :: InFlight(s, a) ==>
      && Owns(s, s.adds[a].conn, s.adds[a].proto)
      && (Live(s, s.adds[a].conn) ==> s.adds[a].proto !in ListOf(s, s.adds[a].conn))
  }

  ghost predicate InFlightDistinct(s: State) {
    forall a, b :: InFlight(s, a) && InFlight(s, b) && s.adds[a].proto == s.adds[b].proto ==> a == b
  }

  /** What a live connection owns is in its list or belongs to an add in flight. */
  ghost predicate OwnedAccounted(s: State) {
    forall p :: p in s.handlers.owner && Live(s, s.handlers.owner[p]) ==>
      p in ListOf(s, s.handlers.owner[p]) || InFlightFor(s, s.handlers.owner[p], p)
  }

  /** Is there, after event `i`, a clean-up of `c` that removed `p`? */
  ghost predicate CleanedSince(log: seq<Event>, i: nat, c: Conn, p: Proto) {
    exists k :: i < k < |log| && log[k].Clean? && log[k].conn == c && p in log[k].list
  }

  /** An accept that was not cleaned up since still determines the owner. */
  ghost predicate LogTells(s: State) {
    forall i :: 0 <= i < |s.log| && s.log[i].Accept? ==>
      CleanedSince(s.log, i, s.log[i].conn, s.log[i].proto) || Owns(s, s.log[i].conn, s.log[i].proto)
  }

  ghost predicate AcceptsSeparated(log: seq<Event>) {
    forall i, j :: 0 <= i < j < |log| && log[i].Accept? && log[j].Accept? && log[i].proto == log[j].proto ==>
      exists k :: i < k < j && log[k].Clean? && log[k].conn == log[i].conn && log[i].proto in log[k].list
  }

  ghost predicate WaitGroupCounts(s: State) {
    && s.waitGroup == |EnteredConns(s)|
    && (s.awaiter != NotStarted ==> EnteredConns(s) != {} || s.emptied)
    && (s.awaiter == Released || s.awaiter == ClosedDaemon ==> s.emptied)
    && (s.awaiter == Waiting ==> EnteredConns(s) != {})
  }

  ghost predicate Inv(s: State) {
    && MapsAgree(s) && ConnsKnown(s) && ListsOwned(s) && InFlightOwned(s) && InFlightDistinct(s)
    && OwnedAccounted(s) && LogTells(s) && AcceptsSeparated(s.log) && WaitGroupCounts(s)
  }

  // ---------------------------------------------------------------------------
  // Every step keeps it
  // ---------------------------------------------------------------------------

  /** Steps that touch neither the handlers nor an accepted add nor a list of a known connection. */
  lemma OwnershipFrame(s: State, s': State)
    requires Inv(s)
    requires s'.handlers == s.handlers && s'.log == s.log
    requires forall a :: InFlight(s', a) <==> InFlight(s, a)
    requires forall a :: InFlight(s, a) ==> a in s'.adds && s'.adds[a] == s.adds[a]
    requires forall c :: c in s.phases ==> ListOf(s', c) == ListOf(s, c) && (Live(s', c) <==> Live(s, c))
    requires forall c :: c in s'.phases && c !in s.phases ==> ListOf(s', c) == []
    ensures MapsAgree(s') && ListsOwned(s') && InFlightOwned(s') && InFlightDistinct(s')
    ensures OwnedAccounted(s') && LogTells(s') && AcceptsSeparated(s'.log)
  {
    forall p | p in s'.handlers.owner && Live(s', s'.handlers.owner[p])
      ensures p in ListOf(s', s'.handlers.owner[p]) || InFlightFor(s', s'.handlers.owner[p], p)
    {
      var c := s.handlers.owner[p];
      if p !in ListOf(s, c) {
        var a :| InFlight(s, a) && s.adds[a].conn == c && s.adds[a].proto == p;
        assert InFlight(s', a);
      }
    }
  }

  lemma StepEnter(s: State, c: Conn)
    requires Inv(s) && Enabled(s, Enter(c))
    ensures Inv(Do(s, Enter(c)))
  {
    var s' := Do(s, Enter(c));
    OwnershipFrame(s, s');
    assert EnteredConns(s') == EnteredConns(s) + {c};
  }

  lemma StepLeave(s: State, c: Conn)
    requires Inv(s) && Enabled(s, Leave(c))
    ensures Inv(Do(s, Leave(c)))
  {
    var s' := Do(s, Leave(c));
    OwnershipFrame(s, s');
    assert EnteredConns(s') == EnteredConns(s) - {c} && c in EnteredConns(s);
  }

  lemma StepReceive(s: State, c: Conn, a: AddId, p: Proto)
    requires Inv(s) && Enabled(s, Receive(c, a, p))
    ensures Inv(Do(s, Receive(c, a, p)))
  {
    var s' := Do(s, Receive(c, a, p));
    OwnershipFrame(s, s');
    assert EnteredConns(s') == EnteredConns(s);
  }

  lemma StepAwaiter(s: State, l: Label)
    requires Inv(s) && Enabled(s, l) && (l.StartAwaiter? || l.CallWait? || l.CloseAll?)
    ensures Inv(Do(s, l))
  {
    var s' := Do(s, l);
    OwnershipFrame(s, s');
    assert EnteredConns(s') == EnteredConns(s);
    if l.StartAwaiter? { assert l.c in EnteredConns(s); }
  }

  lemma StepRefused(s: State, a: AddId)
    requires Inv(s) && Enabled(s, FirstSection(a)) && Taken(s.handlers, s.adds[a].proto)
    ensures Inv(Do(s, FirstSection(a)))
  {
    var s' := Do(s, FirstSection(a));
    OwnershipFrame(s, s');
    assert EnteredConns(s') == EnteredConns(s);
  }

  lemma StepAccepted(s: State, a: AddId)
    requires Inv(s) && Enabled(s, FirstSection(a)) && !Taken(s.handlers, s.adds[a].proto)
    ensures Inv(Do(s, FirstSection(a)))
  {
    hide LogTells, AcceptsSeparated;
    var s' := Do(s, FirstSection(a));
    assert EnteredConns(s') == EnteredConns(s);
    assert forall b :: InFlight(s', b) <==> InFlight(s, b) || b == a;
    LogAccept(s, s', s.adds[a].conn, s.adds[a].proto);
    AcceptOwned(s, s', a);
    AcceptAccounted(s, s', a);
  }

  lemma AcceptOwned(s: State, s': State, a: AddId)
    requires MapsAgree(s) && ListsOwned(s) && InFlightOwned(s) && InFlightDistinct(s)
    requires a in s.adds && !Taken(s.handlers, s.adds[a].proto)
    requires s'.handlers == Register(s.handlers, s.adds[a].conn, s.adds[a].proto)
    requires s'.adds == s.adds[a := s.adds[a].(phase := Accepted)] && s'.lists == s.lists && s'.phases == s.phases
    ensures ListsOwned(s') && InFlightOwned(s') && InFlightDistinct(s')
  {
    assert s.adds[a].proto !in s.handlers.owner;
    forall d | Live(s', d)
      ensures NoDuplicates(ListOf(s', d)) && forall p :: p in ListOf(s', d) ==> Owns(s', d, p)
    {
      assert Live(s, d);
    }
    assert forall b :: InFlight(s', b) ==> b == a || InFlight(s, b);
    forall b | InFlight(s', b)
      ensures Owns(s', s'.adds[b].conn, s'.adds[b].proto)
      ensures Live(s', s'.adds[b].conn) ==> s'.adds[b].proto !in ListOf(s', s'.adds[b].conn)
    {
      assert Live(s', s'.adds[b].conn) ==> Live(s, s'.adds[b].conn);
    }
  }

  lemma AcceptAccounted(s: State, s': State, a: AddId)
    requires OwnedAccounted(s) && a in s.adds && s.adds[a].phase == Pending
    requires s'.handlers == Register(s.handlers, s.adds[a].conn, s.adds[a].proto)
    requires s'.adds == s.adds[a := s.adds[a].(phase := Accepted)] && s'.lists == s.lists && s'.phases == s.phases
    ensures OwnedAccounted(s')
  {
    forall q | q in s'.handlers.owner && Live(s', s'.handlers.owner[q])
      ensures q in ListOf(s', s'.handlers.owner[q]) || InFlightFor(s', s'.handlers.owner[q], q)
    {
      if q == s.adds[a].proto {
        assert InFlight(s', a);
      } else {
        AccountedBy(s, s', s.handlers.owner[q], q);
      }
    }
  }

  lemma AccountedBy(s: State, s': State, c: Conn, q: Proto)
    requires OwnedAccounted(s) && Owns(s, c, q) && Live(s, c)
    requires forall b :: InFlight(s, b) ==> InFlight(s', b) && s'.adds[b] == s.adds[b]
    ensures q in ListOf(s, c) || InFlightFor(s', c, q)
  {
    if q !in ListOf(s, c) {
      var b :| InFlight(s, b) && s.adds[b].conn == c && s.adds[b].proto == q;
      assert InFlight(s', b);
    }
  }

  lemma CleanedSinceGrows(log: seq<Event>, e: Event, i: nat, c: Conn, p: Proto)
    requires CleanedSince(log, i, c, p)
    ensures CleanedSince(log + [e], i, c, p)
  {
    var k :| i < k < |log| && log[k].Clean? && log[k].conn == c && p in log[k].list;
    assert (log + [e])[k] == log[k];
  }

  lemma LogAccept(s: State, s': State, c: Conn, p: Proto)
    requires LogTells(s) && AcceptsSeparated(s.log) && p !in s.handlers.owner
    requires s'.log == s.log + [Accept(c, p)] && s'.handlers == Register(s.handlers, c, p)
    ensures LogTells(s') && AcceptsSeparated(s'.log)
  {
    var n := |s.log|;
    forall i | 0 <= i < |s'.log| && s'.log[i].Accept?
      ensures CleanedSince(s'.log, i, s'.log[i].conn, s'.log[i].proto) || Owns(s', s'.log[i].conn, s'.log[i].proto)
    {
      if i < n && CleanedSince(s.log, i, s.log[i].conn, s.log[i].proto) {
        CleanedSinceGrows(s.log, Accept(c, p), i, s.log[i].conn, s.log[i].proto);
      }
    }
    forall i, j | 0 <= i < j < |s'.log| && s'.log[i].Accept? && s'.log[j].Accept? && s'.log[i].proto == s'.log[j].proto
      ensures exists k ::
        i < k < j && s'.log[k].Clean? && s'.log[k].conn == s'.log[i].conn && s'.log[i].proto in s'.log[k].list
    {
      if j < n {
        var k :| i < k < j && s.log[k].Clean? && s.log[k].conn == s.log[i].conn && s.log[i].proto in s.log[k].list;
        assert s'.log[k] == s.log[k];
      } else {
        assert CleanedSince(s.log, i, s.log[i].conn, p);
        var k :| i < k < n && s.log[k].Clean? && s.log[k].conn == s.log[i].conn && p in s.log[k].list;
        assert s'.log[k] == s.log[k];
      }
    }
  }

  lemma StepSecond(s: State, a: AddId)
    requires Inv(s) && Enabled(s, SecondSection(a))
    ensures Inv(Do(s, SecondSection(a)))
  {
    hide AcceptsSeparated;
    var s' := Do(s, SecondSection(a));
    assert EnteredConns(s') == EnteredConns(s);
    if s.adds[a].phase == Refused {
      OwnershipFrame(s, s');
    } else {
      ListedOwned(s, s', a);
      ListedAccounted(s, s', a);
    }
  }

  ghost predicate Listed(s: State, s': State, a: AddId) {
    && InFlight(s, a)
    && s'.handlers == s.handlers && s'.phases == s.phases
    && s'.adds == s.adds[a := s.adds[a].(phase := Finished)]
    && s'.lists == s.lists[s.adds[a].conn := ListOf(s, s.adds[a].conn) + [s.adds[a].proto]]
  }

  lemma ListedOwned(s: State, s': State, a: AddId)
    requires ListsOwned(s) && InFlightOwned(s) && InFlightDistinct(s) && Listed(s, s', a)
    ensures ListsOwned(s') && InFlightOwned(s') && InFlightDistinct(s')
  {
    forall d | Live(s', d)
      ensures NoDuplicates(ListOf(s', d)) && forall p :: p in ListOf(s', d) ==> Owns(s', d, p)
    {
      assert Live(s, d);
    }
    assert forall b :: InFlight(s', b) ==> b != a && InFlight(s, b);
    forall b | InFlight(s', b)
      ensures Owns(s', s'.adds[b].conn, s'.adds[b].proto)
      ensures Live(s', s'.adds[b].conn) ==> s'.adds[b].proto !in ListOf(s', s'.adds[b].conn)
    {
      assert s.adds[b].proto != s.adds[a].proto;
    }
  }

  lemma ListedAccounted(s: State, s': State, a: AddId)
    requires OwnedAccounted(s) && Listed(s, s', a)
    ensures OwnedAccounted(s')
  {
    forall q | q in s'.handlers.owner && Live(s', s'.handlers.owner[q])
      ensures q in ListOf(s', s'.handlers.owner[q]) || InFlightFor(s', s'.handlers.owner[q], q)
    {
      var d := s.handlers.owner[q];
      assert Live(s, d);
      if q !in ListOf(s, d) {
        var b :| InFlight(s, b) && s.adds[b].conn == d && s.adds[b].proto == q;
        if b != a { assert InFlight(s', b); }
      }
    }
  }

  lemma StepCleanUp(s: State, c: Conn)
    requires Inv(s) && Enabled(s, CleanUp(c))
    ensures Inv(Do(s, CleanUp(c)))
  {
    var s' := Do(s, CleanUp(c));
    var list := ListOf(s, c);
    assert EnteredConns(s') == EnteredConns(s);
    assert Live(s, c);
    assert forall b :: InFlight(s', b) <==> InFlight(s, b);
    assert forall d :: Live(s', d) <==> Live(s, d) && d != c;
    assert forall p :: p in list ==> Owns(s, c, p);
    forall q | q in s'.handlers.owner && Live(s', s'.handlers.owner[q])
      ensures q in ListOf(s', s'.handlers.owner[q]) || InFlightFor(s', s'.handlers.owner[q], q)
    {
      AccountedBy(s, s', s.handlers.owner[q], q);
    }
    LogClean(s, s', c, list);
  }

  lemma LogClean(s: State, s': State, c: Conn, list: seq<Proto>)
    requires LogTells(s) && AcceptsSeparated(s.log) && forall p :: p in list ==> Owns(s, c, p)
    requires s'.log == s.log + [Clean(c, list)] && s'.handlers == Remove(s.handlers, list)
    ensures LogTells(s') && AcceptsSeparated(s'.log)
  {
    var n := |s.log|;
    forall i | 0 <= i < |s'.log| && s'.log[i].Accept?
      ensures CleanedSince(s'.log, i, s'.log[i].conn, s'.log[i].proto) || Owns(s', s'.log[i].conn, s'.log[i].proto)
    {
      var d, p := s.log[i].conn, s.log[i].proto;
      if CleanedSince(s.log, i, d, p) {
        CleanedSinceGrows(s.log, Clean(c, list), i, d, p);
      } else if p in list {
        assert s'.log[n].Clean? && s'.log[n].conn == d && p in s'.log[n].list;
      }
    }
    forall i, j | 0 <= i < j < |s'.log| && s'.log[i].Accept? && s'.log[j].Accept? && s'.log[i].proto == s'.log[j].proto
      ensures exists k ::
        i < k < j && s'.log[k].Clean? && s'.log[k].conn == s'.log[i].conn && s'.log[i].proto in s'.log[k].list
    {
      var k :| i < k < j && s.log[k].Clean? && s.log[k].conn == s.log[i].conn && s.log[i].proto in s.log[k].list;
      assert s'.log[k] == s.log[k];
    }
  }

  lemma InvStep(s: State, l: Label)
    requires Inv(s) && Enabled(s, l)
    ensures Inv(Do(s, l))
  {
    hide Inv;
    match l
    case Enter(c) => StepEnter(s, c);
    case StartAwaiter(_) => StepAwaiter(s, l);
    case CallWait => StepAwaiter(s, l);
    case CloseAll => StepAwaiter(s, l);
    case Receive(c, a, p) => StepReceive(s, c, a, p);
    case FirstSection(a) => if Taken(s.handlers, s.adds[a].proto) { StepRefused(s, a); } else { StepAccepted(s, a); }
    case SecondSection(a) => StepSecond(s, a);
    case Leave(c) => StepLeave(s, c);
    case CleanUp(c) => StepCleanUp(s, c);
  }

  lemma InitInv()
    ensures Inv(INIT)
  {
    assert EnteredConns(INIT) == {};
  }

  /** The invariant holds after every run. */
  lemma {:induction false} RunInv(run: seq<Label>)
    requires Exec(run).Some?
    ensures Inv(Exec(run).value)
    decreases |run|
  {
    hide Inv;
    if run == [] {
      InitInv();
    } else {
      var n := |run| - 1;
      RunInv(run[..n]);
      InvStep(Exec(run[..n]).value, run[n]);
    }
  }

  // ---------------------------------------------------------------------------
  // Ownership over every run
  // ---------------------------------------------------------------------------

  /**
    A protocol is taken exactly when it has an owner; a live connection's list has no duplicates,
    names only protocols it owns, and shares none with another live connection.
   */
  lemma OneOwner(run: seq<Label>, c: Conn, d: Conn, p: Proto)
    requires Exec(run).Some?
    ensures var s := Exec(run).value;
      && (Taken(s.handlers, p) <==> p in s.handlers.owner)
      && (Live(s, c) ==> NoDuplicates(ListOf(s, c)))
      && (Live(s, c) && p in ListOf(s, c) ==> Owns(s, c, p))
      && (Live(s, c) && Live(s, d) && p in ListOf(s, c) && p in ListOf(s, d) ==> c == d)
  {
    RunInv(run);
  }

  /** Two successful adds of one protocol have the first owner's clean-up between them. */
  lemma AddsSeparated(run: seq<Label>, i: nat, j: nat)
    requires Exec(run).Some?
    requires i < j < |Exec(run).value.log|
    requires Exec(run).value.log[i].Accept? && Exec(run).value.log[j].Accept?
    requires Exec(run).value.log[i].proto == Exec(run).value.log[j].proto
    ensures var log := Exec(run).value.log;
      exists k :: i < k < j && log[k].Clean? && log[k].conn == log[i].conn && log[i].proto in log[k].list
  {
    RunInv(run);
  }

  /**
    A clean-up takes away exactly those protocols of its connection that no add in flight is about
    to list, and leaves the others' protocols as they were.
   */
  lemma CleanUpRemoves(run: seq<Label>, c: Conn, p: Proto)
    requires Exec(run).Some? && Enabled(Exec(run).value, CleanUp(c))
    ensures var s := Exec(run).value; var s' := Do(s, CleanUp(c));
      && (Owns(s, c, p) ==> (p in s'.handlers.owner <==> InFlightFor(s, c, p)))
      && (Owns(s, c, p) ==> (Taken(s'.handlers, p) <==> InFlightFor(s, c, p)))
      && (!Owns(s, c, p) ==> (p in s'.handlers.owner <==> p in s.handlers.owner))
      && (!Owns(s, c, p) && p in s.handlers.owner ==> s'.handlers.owner[p] == s.handlers.owner[p])
      && (!Owns(s, c, p) ==> (Taken(s'.handlers, p) <==> Taken(s.handlers, p)))
  {
    RunInv(run);
    var s := Exec(run).value;
    assert Live(s, c);
    if Owns(s, c, p) && InFlightFor(s, c, p) {
      var a :| InFlight(s, a) && s.adds[a].conn == c && s.adds[a].proto == p;
      assert p !in ListOf(s, c);
    }
  }

  /** With no add of the connection in flight, its clean-up leaves it owning nothing. */
  lemma CleanUpComplete(run: seq<Label>, c: Conn, p: Proto)
    requires Exec(run).Some? && Enabled(Exec(run).value, CleanUp(c))
    requires forall a :: InFlight(Exec(run).value, a) ==> Exec(run).value.adds[a].conn != c
    ensures !Owns(Do(Exec(run).value, CleanUp(c)), c, p)
  {
    CleanUpRemoves(run, c, p);
  }

  lemma ExecStep(run: seq<Label>, l: Label)
    requires Exec(run).Some? && Enabled(Exec(run).value, l)
    ensures Exec(run + [l]) == Some(Do(Exec(run).value, l))
  {
    assert (run + [l])[..|run|] == run;
  }

  /** An add overtaken by its connection's clean-up leaves the protocol with a cleaned owner. */
  lemma Overtaken(run: seq<Label>, a: AddId)
    requires Exec(run).Some? && InFlight(Exec(run).value, a)
    requires Enabled(Exec(run).value, CleanUp(Exec(run).value.adds[a].conn))
    ensures var add := Exec(run).value.adds[a];
      var r := Exec(run + [CleanUp(add.conn)] + [SecondSection(a)]);
      && r.Some? && add.conn in r.value.phases && r.value.phases[add.conn] == Cleaned
      && Owns(r.value, add.conn, add.proto) && Taken(r.value.handlers, add.proto)
  {
    var s := Exec(run).value;
    var c, p := s.adds[a].conn, s.adds[a].proto;
    RunInv(run);
    assert Owns(s, c, p);
    hide Inv, Exec;
    assert InFlightFor(s, c, p);
    CleanUpRemoves(run, c, p);
    ExecStep(run, CleanUp(c));
    ExecStep(run + [CleanUp(c)], SecondSection(a));
  }

  /** A connection has sent one add, which nobody has served yet. */
  ghost predicate OneSent(s: State, p: Proto) {
    && 0 in s.phases && s.phases[0] == Entered && s.adds == map[0 := Add(0, p, Pending)]
    && s.handlers == Handlers(map[], map[]) && ListOf(s, 0) == []
  }

  lemma FirstSends(p: Proto)
    ensures Exec([Enter(0), Receive(0, 0, p)]).Some? && OneSent(Exec([Enter(0), Receive(0, 0, p)]).value, p)
  {
    assert Exec([]) == Some(INIT);
    hide Exec, EnteredConns;
    ExecStep([], Enter(0));
    ExecStep([] + [Enter(0)], Receive(0, 0, p));
    assert [] + [Enter(0)] + [Receive(0, 0, p)] == [Enter(0), Receive(0, 0, p)];
  }

  /** Such a state is reachable. */
  lemma OvertakenReachable() returns (run: seq<Label>)
    ensures Exec(run).Some? && InFlight(Exec(run).value, 0)
    ensures Enabled(Exec(run).value, CleanUp(Exec(run).value.adds[0].conn))
  {
    hide Exec, EnteredConns;
    FirstSends([112]);
    run := [Enter(0), Receive(0, 0, [112])];
    ExecStep(run, FirstSection(0));
    ExecStep(run + [FirstSection(0)], Leave(0));
    run := run + [FirstSection(0)] + [Leave(0)];
  }

  /** `c` is cleaned, owns nothing and has no add that could still be accepted or listed. */
  ghost predicate Gone(s: State, c: Conn) {
    && c in s.phases && s.phases[c] == Cleaned
    && (forall p :: !Owns(s, c, p))
    && forall a :: a in s.adds && s.adds[a].conn == c ==> s.adds[a].phase == Refused || s.adds[a].phase == Finished
  }

  lemma GoneStep(s: State, l: Label, c: Conn)
    requires Gone(s, c) && Enabled(s, l)
    ensures Gone(Do(s, l), c)
  {
    hide EnteredConns;
    var s' := Do(s, l);
    forall p ensures !Owns(s', c, p) {
      assert !Owns(s, c, p);
    }
  }

  /** If every add of the connection was over by its clean-up, it owns nothing from then on. */
  lemma {:induction false} CleanedForGood(run: seq<Label>, more: seq<Label>, c: Conn)
    requires Exec(run).Some? && Enabled(Exec(run).value, CleanUp(c)) && Exec(run + [CleanUp(c)] + more).Some?
    requires forall a :: a in Exec(run).value.adds && Exec(run).value.adds[a].conn == c ==>
      Exec(run).value.adds[a].phase == Refused || Exec(run).value.adds[a].phase == Finished
    ensures Gone(Exec(run + [CleanUp(c)] + more).value, c)
    decreases |more|
  {
    var start := run + [CleanUp(c)];
    if more == [] {
      ExecStep(run, CleanUp(c));
      assert start + more == start;
      forall p ensures !Owns(Exec(start).value, c, p) { CleanUpComplete(run, c, p); }
    } else {
      var n := |more| - 1;
      assert (start + more)[..|start + more| - 1] == start + more[..n];
      CleanedForGood(run, more[..n], c);
      GoneStep(Exec(start + more[..n]).value, more[n], c);
    }
  }

  /** What a cleaned connection still owns it owns for ever, and every later add of it is refused. */
  lemma {:induction false} OvertakenForever(run: seq<Label>, more: seq<Label>, c: Conn, p: Proto)
    requires Exec(run + more).Some? && Exec(run).Some?
    requires var s := Exec(run).value; c in s.phases && s.phases[c] == Cleaned && Owns(s, c, p)
    ensures var s := Exec(run + more).value;
      c in s.phases && s.phases[c] == Cleaned && Owns(s, c, p) && Taken(s.handlers, p)
    decreases |more|
  {
    hide Do, Enabled;
    if more == [] {
      assert run + more == run;
      RunInv(run);
    } else {
      var n := |more| - 1;
      var before := run + more[..n];
      assert (run + more)[..|run + more| - 1] == before;
      OvertakenForever(run, more[..n], c, p);
      RunInv(before);
      RunInv(run + more);
      StillOwned(Exec(before).value, more[n], c, p);
    }
  }

  lemma StillOwned(s: State, l: Label, c: Conn, p: Proto)
    requires Inv(s) && Enabled(s, l)
    requires c in s.phases && s.phases[c] == Cleaned && Owns(s, c, p)
    ensures var s' := Do(s, l); c in s'.phases && s'.phases[c] == Cleaned && Owns(s', c, p)
  {
    if l.CleanUp? {
      assert Live(s, l.c);
    }
  }

  // ---------------------------------------------------------------------------
  // What a disconnect leaves behind
  // ---------------------------------------------------------------------------

  /** The owner of `p` is cleaned: nothing will free the protocol. */
  ghost predicate Stuck(s: State, p: Proto) {
    p in s.handlers.owner && s.handlers.owner[p] in s.phases && s.phases[s.handlers.owner[p]] == Cleaned
  }

  /** An add of `c` for `p` is accepted and not yet listed, or may still be accepted. */
  ghost predicate MayTake(s: State, a: AddId, c: Conn, p: Proto) {
    && a in s.adds && s.adds[a].conn == c && s.adds[a].proto == p
    && (s.adds[a].phase == Accepted || (s.adds[a].phase == Pending && !Stuck(s, p)))
  }

  /** The connection is cleaned without the protocol, and no add of it will take the protocol. */
  ghost predicate NeverTakes(s: State, c: Conn, p: Proto) {
    && c in s.phases && s.phases[c] == Cleaned && !Owns(s, c, p)
    && forall a :: a in s.adds && s.adds[a].conn == c && s.adds[a].proto == p ==>
         s.adds[a].phase == Refused || s.adds[a].phase == Finished || (s.adds[a].phase == Pending && Stuck(s, p))
  }

  lemma StillStuck(s: State, l: Label, p: Proto)
    requires Inv(s) && Enabled(s, l) && Stuck(s, p)
    ensures Stuck(Do(s, l), p)
  {
    hide Do;
    StillOwned(s, l, s.handlers.owner[p], p);
  }

  lemma StuckTaken(s: State, p: Proto)
    requires Inv(s) && Stuck(s, p)
    ensures Taken(s.handlers, p)
  {
  }

  lemma NeverOwnsStep(s: State, l: Label, c: Conn, p: Proto)
    requires Enabled(s, l) && NeverTakes(s, c, p) && (Stuck(s, p) ==> Taken(s.handlers, p))
    ensures var s' := Do(s, l); c in s'.phases && s'.phases[c] == Cleaned && !Owns(s', c, p)
  {
    hide EnteredConns, Stuck, ListOf, Taken;
  }

  lemma NeverAddsStep(s: State, l: Label, c: Conn, p: Proto, a: AddId)
    requires Enabled(s, l) && NeverTakes(s, c, p) && (Stuck(s, p) ==> Taken(s.handlers, p))
    requires a in Do(s, l).adds && Do(s, l).adds[a].conn == c && Do(s, l).adds[a].proto == p
    ensures var phase := Do(s, l).adds[a].phase;
      phase == Refused || phase == Finished || (phase == Pending && Stuck(s, p))
  {
    hide EnteredConns, Stuck, ListOf, Taken, Register, Remove;
    if l.Receive? { assert l.c != c; }
    assert a in s.adds && s.adds[a].conn == c && s.adds[a].proto == p;
  }

  lemma NeverTakesStep(s: State, l: Label, c: Conn, p: Proto)
    requires Inv(s) && Enabled(s, l) && NeverTakes(s, c, p)
    ensures NeverTakes(Do(s, l), c, p)
  {
    hide Inv, Stuck, Enabled, Do, Taken;
    if Stuck(s, p) {
      StillStuck(s, l, p);
      StuckTaken(s, p);
    }
    NeverOwnsStep(s, l, c, p);
    forall a | a in Do(s, l).adds && Do(s, l).adds[a].conn == c && Do(s, l).adds[a].proto == p
      ensures var phase := Do(s, l).adds[a].phase;
        phase == Refused || phase == Finished || (phase == Pending && Stuck(Do(s, l), p))
    {
      NeverAddsStep(s, l, c, p, a);
    }
  }

  lemma NeverTakesFirst(run: seq<Label>, c: Conn, p: Proto)
    requires Exec(run).Some? && Enabled(Exec(run).value, CleanUp(c))
    requires forall a :: !MayTake(Exec(run).value, a, c, p)
    ensures NeverTakes(Do(Exec(run).value, CleanUp(c)), c, p)
  {
    var s := Exec(run).value;
    RunInv(run);
    CleanUpRemoves(run, c, p);
    if Stuck(s, p) { StillStuck(s, CleanUp(c), p); }
    hide Exec, Inv, Stuck;
    forall a ensures !(InFlight(s, a) && s.adds[a].conn == c && s.adds[a].proto == p) {
      assert !MayTake(s, a, c, p);
    }
    forall a | a in s.adds && s.adds[a].conn == c && s.adds[a].proto == p
      ensures s.adds[a].phase == Refused || s.adds[a].phase == Finished || (s.adds[a].phase == Pending && Stuck(s, p))
    {
      assert !MayTake(s, a, c, p);
    }
  }

  /** After the clean-up of `c` and then `more`, the connection is cleaned and owns `p`. */
  ghost predicate Leaves(run: seq<Label>, c: Conn, more: seq<Label>, p: Proto) {
    var r := Exec(run + [CleanUp(c)] + more);
    r.Some? && c in r.value.phases && r.value.phases[c] == Cleaned && Owns(r.value, c, p)
  }

  lemma CleanedStep(s: State, l: Label, c: Conn)
    requires Enabled(s, l) && (l == CleanUp(c) || (c in s.phases && s.phases[c] == Cleaned))
    ensures c in Do(s, l).phases && Do(s, l).phases[c] == Cleaned
  {
    hide Taken, Register, Remove, ListOf, EnteredConns;
  }

  lemma {:induction false} StaysCleaned(run: seq<Label>, c: Conn, more: seq<Label>)
    requires Exec(run + [CleanUp(c)] + more).Some?
    ensures var s := Exec(run + [CleanUp(c)] + more).value; c in s.phases && s.phases[c] == Cleaned
    decreases |more|
  {
    hide Enabled, Do;
    var start := run + [CleanUp(c)];
    if more == [] {
      assert start + more == start && start[..|start| - 1] == run;
      CleanedStep(Exec(run).value, CleanUp(c), c);
    } else {
      var n := |more| - 1;
      assert (start + more)[..|start + more| - 1] == start + more[..n];
      StaysCleaned(run, c, more[..n]);
      CleanedStep(Exec(start + more[..n]).value, more[n], c);
    }
  }

  lemma {:induction false} NothingLeaves(run: seq<Label>, more: seq<Label>, c: Conn, p: Proto)
    requires Exec(run).Some? && Enabled(Exec(run).value, CleanUp(c)) && Exec(run + [CleanUp(c)] + more).Some?
    requires forall a :: !MayTake(Exec(run).value, a, c, p)
    ensures NeverTakes(Exec(run + [CleanUp(c)] + more).value, c, p)
    decreases |more|
  {
    hide MayTake, NeverTakes, Enabled, Do;
    var start := run + [CleanUp(c)];
    if more == [] {
      ExecStep(run, CleanUp(c));
      NeverTakesFirst(run, c, p);
      assert start + more == start;
    } else {
      var n := |more| - 1;
      assert (start + more)[..|start + more| - 1] == start + more[..n];
      NothingLeaves(run, more[..n], c, p);
      RunInv(start + more[..n]);
      NeverTakesStep(Exec(start + more[..n]).value, more[n], c, p);
    }
  }

  ghost predicate Waits(s: State, a: AddId, c: Conn, p: Proto) {
    a in s.adds && s.adds[a] == Add(c, p, Pending)
  }

  ghost predicate Frees(run: seq<Label>, a: AddId, c: Conn, p: Proto, more: seq<Label>) {
    var r := Exec(run + more);
    r.Some? && p !in r.value.handlers.owner && Waits(r.value, a, c, p)
  }

  /** A connection that has left frees what is in its list. */
  lemma CleanUpFrees(run: seq<Label>, d: Conn, a: AddId, c: Conn, p: Proto)
    requires Exec(run).Some? && Waits(Exec(run).value, a, c, p)
    requires Enabled(Exec(run).value, CleanUp(d)) && p in ListOf(Exec(run).value, d)
    ensures Frees(run, a, c, p, [CleanUp(d)])
  {
    hide Exec;
    ExecStep(run, CleanUp(d));
    hide ListOf;
  }

  lemma LeavingFrees(run: seq<Label>, d: Conn, a: AddId, c: Conn, p: Proto)
    requires Exec(run).Some? && Waits(Exec(run).value, a, c, p)
    requires Live(Exec(run).value, d) && p in ListOf(Exec(run).value, d)
    ensures exists more :: Frees(run, a, c, p, more)
  {
    hide Exec, EnteredConns;
    if Exec(run).value.phases[d] == Left {
      CleanUpFrees(run, d, a, c, p);
    } else {
      ExecStep(run, Leave(d));
      CleanUpFrees(run + [Leave(d)], d, a, c, p);
      FreesAfter(run, Leave(d), a, c, p, [CleanUp(d)]);
    }
  }

  lemma SecondLists(s: State, b: AddId, d: Conn, a: AddId, c: Conn, p: Proto)
    requires InFlight(s, b) && s.adds[b].conn == d && s.adds[b].proto == p && Live(s, d) && Waits(s, a, c, p)
    ensures Enabled(s, SecondSection(b))
    ensures var s' := Do(s, SecondSection(b)); Waits(s', a, c, p) && Live(s', d) && p in ListOf(s', d)
  {
  }

  lemma ListedOrInFlight(s: State, d: Conn, p: Proto)
    requires Inv(s) && Live(s, d) && Owns(s, d, p)
    ensures p in ListOf(s, d) || InFlightFor(s, d, p)
  {
  }

  lemma FreesAfter(run: seq<Label>, l: Label, a: AddId, c: Conn, p: Proto, more: seq<Label>)
    requires Frees(run + [l], a, c, p, more)
    ensures Frees(run, a, c, p, [l] + more)
  {
    hide Exec, Waits;
    assert run + [l] + more == run + ([l] + more);
  }

  /** What a live connection owns can be freed: its add is listed, it leaves, and is cleaned up. */
  lemma LiveOwnerFrees(run: seq<Label>, d: Conn, a: AddId, c: Conn, p: Proto)
    requires Exec(run).Some? && Waits(Exec(run).value, a, c, p)
    requires Live(Exec(run).value, d) && Owns(Exec(run).value, d, p)
    ensures exists more :: Frees(run, a, c, p, more)
  {
    hide Exec, Inv, Waits, Live, Owns, Do, Enabled, ListOf, Frees;
    var s := Exec(run).value;
    RunInv(run);
    ListedOrInFlight(s, d, p);
    if p in ListOf(s, d) {
      LeavingFrees(run, d, a, c, p);
    } else {
      var b :| InFlight(s, b) && s.adds[b].conn == d && s.adds[b].proto == p;
      SecondLists(s, b, d, a, c, p);
      ExecStep(run, SecondSection(b));
      LeavingFrees(run + [SecondSection(b)], d, a, c, p);
      var more :| Frees(run + [SecondSection(b)], a, c, p, more);
      FreesAfter(run, SecondSection(b), a, c, p, more);
    }
  }

  /** The first section of a waiting add takes a protocol that is free. */
  lemma WaitingTakes(run: seq<Label>, a: AddId, c: Conn, p: Proto)
    requires Exec(run).Some? && Waits(Exec(run).value, a, c, p) && p !in Exec(run).value.handlers.owner
    ensures Exec(run + [FirstSection(a)]).Some? && Owns(Exec(run + [FirstSection(a)]).value, c, p)
  {
    RunInv(run);
    assert !Taken(Exec(run).value.handlers, p);
    hide Exec, Inv;
    ExecStep(run, FirstSection(a));
  }

  lemma PendingLeaves(run: seq<Label>, a: AddId, c: Conn, p: Proto)
    requires Exec(run).Some? && Enabled(Exec(run).value, CleanUp(c))
    requires Waits(Exec(run).value, a, c, p) && !Stuck(Exec(run).value, p)
    ensures exists more :: Leaves(run, c, more, p)
  {
    RunInv(run);
    CleanUpRemoves(run, c, p);
    ExecStep(run, CleanUp(c));
    var start := run + [CleanUp(c)];
    RunInv(start);
    var s, s' := Exec(run).value, Exec(start).value;
    assert Waits(s', a, c, p);
    var more := [];
    assert start + more == start;
    if p in s'.handlers.owner {
      var d := s'.handlers.owner[p];
      if d == c {
        StaysCleaned(run, c, []);
        assert Leaves(run, c, [], p);
        return;
      }
      assert d in s'.phases;
      assert Live(s', d);
      hide Exec, Inv;
      LiveOwnerFrees(start, d, a, c, p);
      more :| Frees(start, a, c, p, more);
    }
    hide Exec, Inv;
    WaitingTakes(start + more, a, c, p);
    assert start + more + [FirstSection(a)] == start + (more + [FirstSection(a)]);
    StaysCleaned(run, c, more + [FirstSection(a)]);
    assert Leaves(run, c, more + [FirstSection(a)], p);
  }

  /**
    After the clean-up of a connection, some continuation has it own a protocol (from then on for good,
    by `OvertakenForever`) if and only if at the clean-up an add of it for that protocol lies between
    its two sections of the mutex, or has yet to take the first while the protocol is not stuck with a
    cleaned owner already.
   */
  lemma LeftBehindIff(run: seq<Label>, c: Conn, p: Proto)
    requires Exec(run).Some? && Enabled(Exec(run).value, CleanUp(c))
    ensures (exists more :: Leaves(run, c, more, p)) <==> (exists a :: MayTake(Exec(run).value, a, c, p))
  {
    hide Exec, Enabled, Do, Stuck;
    var s := Exec(run).value;
    if a :| MayTake(s, a, c, p) {
      if s.adds[a].phase == Accepted {
        Overtaken(run, a);
        assert Leaves(run, c, [SecondSection(a)], p);
      } else {
        PendingLeaves(run, a, c, p);
      }
    } else {
      forall more ensures !Leaves(run, c, more, p) {
        if Exec(run + [CleanUp(c)] + more).Some? { NothingLeaves(run, more, c, p); }
      }
    }
  }

  /** No add need be in flight at the clean-up: one that has not yet been served is enough. */
  lemma PendingReachable(p: Proto)
    ensures var run := [Enter(0), Receive(0, 0, p), Leave(0)];
      && Exec(run).Some? && Enabled(Exec(run).value, CleanUp(0)) && (forall a :: !InFlight(Exec(run).value, a))
      && Leaves(run, 0, [FirstSection(0)], p) && MayTake(Exec(run).value, 0, 0, p)
  {
    hide Exec, EnteredConns;
    FirstSends(p);
    ExecStep([Enter(0), Receive(0, 0, p)], Leave(0));
    var run := [Enter(0), Receive(0, 0, p), Leave(0)];
    assert [Enter(0), Receive(0, 0, p)] + [Leave(0)] == run;
    ExecStep(run, CleanUp(0));
    ExecStep(run + [CleanUp(0)], FirstSection(0));
  }

  // ---------------------------------------------------------------------------
  // Termination of the daemon over every run
  // ---------------------------------------------------------------------------

  /** Step `i` of the run is the one that starts `awaitTermination`. */
  ghost predicate Starts(run: seq<Label>, i: nat) {
    && i < |run|
    && Exec(run[..i]).Some? && Exec(run[..i]).value.awaiter == NotStarted
    && Exec(run[..i + 1]).Some? && Exec(run[..i + 1]).value.awaiter != NotStarted
  }

  lemma AwaiterStep(s: State, l: Label)
    requires Enabled(s, l) && s.awaiter != NotStarted
    ensures Do(s, l).awaiter != NotStarted
  {
    hide Taken, Register, Remove, ListOf, EnteredConns;
  }

  lemma {:induction false} NeverUnstarted(run: seq<Label>, more: seq<Label>)
    requires Exec(run).Some? && Exec(run + more).Some? && Exec(run).value.awaiter != NotStarted
    ensures Exec(run + more).value.awaiter != NotStarted
    decreases |more|
  {
    hide Do, Enabled;
    if more == [] {
      assert run + more == run;
    } else {
      var n := |more| - 1;
      assert (run + more)[..|run + more| - 1] == run + more[..n];
      NeverUnstarted(run, more[..n]);
      AwaiterStep(Exec(run + more[..n]).value, more[n]);
    }
  }

  lemma StartsOnce(run: seq<Label>, i: nat, j: nat)
    requires Starts(run, i) && Starts(run, j)
    ensures i == j
  {
    if i < j {
      assert run[..j] == run[..i + 1] + run[i + 1..j];
      NeverUnstarted(run[..i + 1], run[i + 1..j]);
    } else if j < i {
      assert run[..i] == run[..j + 1] + run[j + 1..i];
      NeverUnstarted(run[..j + 1], run[j + 1..i]);
    }
  }

  /** After some `Enter` the run went through a state in which no connection was entered. */
  ghost predicate WasEmptied(run: seq<Label>) {
    exists i, k :: 0 <= i < k <= |run| && run[i].Enter? && EmptyAt(run, k)
  }

  ghost predicate EmptyAt(run: seq<Label>, k: nat) {
    k <= |run| && Exec(run[..k]).Some? && EnteredConns(Exec(run[..k]).value) == {}
  }

  /** The counter is exact, and the daemon is closed only after the open set has been empty. */
  lemma Lifecycle(run: seq<Label>)
    requires Exec(run).Some?
    ensures var s := Exec(run).value;
      && s.waitGroup == |EnteredConns(s)|
      && (s.awaiter == Released || s.awaiter == ClosedDaemon ==> WasEmptied(run))
      && (s.awaiter == Waiting ==> EnteredConns(s) != {})
  {
    RunInv(run);
    if Exec(run).value.emptied {
      EmptiedMeans(run);
    }
  }

  lemma {:induction false} EnteredByRun(run: seq<Label>, c: Conn) returns (i: nat)
    requires Exec(run).Some? && c in Exec(run).value.phases
    ensures i < |run| && run[i].Enter?
    decreases |run|
  {
    var n := |run| - 1;
    if run[n].Enter? {
      i := n;
    } else {
      var s := Exec(run[..n]).value;
      assert c in s.phases;
      i := EnteredByRun(run[..n], c);
    }
  }

  lemma {:induction false} EmptiedMeans(run: seq<Label>)
    requires Exec(run).Some? && Exec(run).value.emptied
    ensures WasEmptied(run)
    decreases |run|
  {
    var n := |run| - 1;
    var s := Exec(run[..n]).value;
    if s.emptied {
      EmptiedMeans(run[..n]);
      var i, k :| 0 <= i < k <= n && run[..n][i].Enter? && EmptyAt(run[..n], k);
      assert run[..n][..k] == run[..k];
      assert EmptyAt(run, k);
    } else {
      var i := EnteredByRun(run[..n], run[n].c);
      assert run[..|run|] == run;
      assert EmptyAt(run, |run|);
    }
  }

  // ---------------------------------------------------------------------------
  // The daemon closes
  // ---------------------------------------------------------------------------

  /** Some connection has reached `terminateOnce`. */
  ghost predicate AwaiterWanted(run: seq<Label>) {
    exists i :: 0 <= i < |run| && run[i].StartAwaiter?
  }

  lemma {:induction false} WantedMeansStarted(run: seq<Label>)
    requires Exec(run).Some? && AwaiterWanted(run)
    ensures Exec(run).value.awaiter != NotStarted
    decreases |run|
  {
    var n := |run| - 1;
    var s := Exec(run[..n]).value;
    if !run[n].StartAwaiter? {
      var i :| 0 <= i < |run| && run[i].StartAwaiter?;
      assert run[..n][i].StartAwaiter?;
      WantedMeansStarted(run[..n]);
      hide Do, Enabled;
      AwaiterStep(s, run[n]);
    }
  }

  /** What the awaiting goroutine still has to do when no connection is left. */
  function ToClosed(awaiter: Awaiter): seq<Label> {
    match awaiter
    case Started => [CallWait, CloseAll]
    case Released => [CloseAll]
    case _ => []
  }

  lemma CloseAfter(run: seq<Label>)
    requires Exec(run).Some? && Exec(run).value.awaiter == Released
    ensures Exec(run + [CloseAll]).Some? && Exec(run + [CloseAll]).value.awaiter == ClosedDaemon
  {
    hide Exec;
    ExecStep(run, CloseAll);
  }

  lemma WaitReturns(run: seq<Label>)
    requires Exec(run).Some? && Exec(run).value.awaiter == Started && Exec(run).value.waitGroup == 0
    ensures Exec(run + [CallWait]).Some? && Exec(run + [CallWait]).value.awaiter == Released
  {
    hide Exec;
    ExecStep(run, CallWait);
  }

  /**
    Whenever a connection has started the awaiting goroutine and none is left, that goroutine closes
    the daemon by its own steps, unless it has done so already.
   */
  lemma DaemonCloses(run: seq<Label>)
    requires Exec(run).Some? && AwaiterWanted(run) && EnteredConns(Exec(run).value) == {}
    ensures var more := ToClosed(Exec(run).value.awaiter);
      Exec(run + more).Some? && Exec(run + more).value.awaiter == ClosedDaemon
  {
    WantedMeansStarted(run);
    Lifecycle(run);
    hide Exec, EnteredConns;
    match Exec(run).value.awaiter
    case Started =>
      WaitReturns(run);
      CloseAfter(run + [CallWait]);
      assert run + [CallWait] + [CloseAll] == run + [CallWait, CloseAll];
    case Released => CloseAfter(run);
    case ClosedDaemon => assert run + [] == run;
    case _ =>
  }
}
