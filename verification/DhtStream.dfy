/**
  A streaming DHT query from the daemon's producer to the client's channel, as one transition
  system: producer, daemon writer, client reader and converter run side by side.
 */
module DhtStream {
  import opened Options
  import opened Wire

  /** A value or a peer, as the DHT messages carry it. */
  type Value = seq<byte>

  /** What the DHT finds, in order, and how the client converts it (`None` is logged and skipped). */
  datatype Query = Query(values: seq<Value>, convert: Value -> Option<Value>)

  datatype Message = Begin | Item(v: Value) | End

  /** The goroutine that feeds `rch`. */
  datatype Producer = Next | Offering | Closed

  /** `handleConn` while it serves the query. */
  datatype Writer = AtBegin | Ranging | Holding(v: Value) | AtEnd | Finished | Failed

  /** `readDhtResponseStream` and its goroutine. */
  datatype Reader = Opening | Reading | Passing(v: Value) | Stopped

  datatype Converter = Idle | Ready(w: Value) | Done

  datatype Daemon = Daemon(
    producer: Producer,
    next: nat,                 // values taken over by the writer
    ctxDone: bool,             // the query's context
    writer: Writer,
    wire: seq<Message>,        // messages on the connection
    items: nat,                // history: values among them
    timedOut: bool,            // history: the query's context ended by itself
    failed: bool,              // history: a write failed
    cut: bool                  // history: the producer left values behind
  )

  datatype Client = Client(
    reader: Reader,
    read: nat,                 // messages read
    passed: nat,               // values taken over by the converter
    converter: Converter,
    delivered: seq<Value>,     // sent on the caller's channel
    ended: bool,               // history: the caller's context ended
    failed: bool               // history: a read failed
  )

  datatype State = State(d: Daemon, c: Client)

  const INIT := State(
    Daemon(Next, 0, false, AtBegin, [], 0, false, false, false),
    Client(Opening, 0, 0, Idle, [], false, false))

  datatype Label = OfDaemon(dl: DaemonLabel) | OfClient(cl: ClientLabel)

  datatype DaemonLabel =
    | Timeout
    | Take | Abandon | CloseProducer
    | WriteBegin(ok: bool) | HandOver | WriteItem(ok: bool) | SeeClosed | WriteEnd(ok: bool)

  datatype ClientLabel =
    | EndContext | ReadBegin | StopReader | ReadMessage | ReadFails | Pass | Deliver | CloseConverter

  predicate DaemonEnabled(q: Query, d: Daemon, l: DaemonLabel) {
    match l
    case Timeout => true
    case Take => d.producer.Next? && d.next < |q.values|
    case Abandon => d.producer.Offering? && d.ctxDone
    case CloseProducer => d.producer.Next? && (d.next >= |q.values| || d.ctxDone)
    case WriteBegin(_) => d.writer.AtBegin?
    case HandOver => d.producer.Offering? && d.writer.Ranging? && d.next < |q.values|
    case WriteItem(_) => d.writer.Holding?
    case SeeClosed => d.producer.Closed? && d.writer.Ranging?
    case WriteEnd(_) => d.writer.AtEnd?
  }

  function DaemonDo(q: Query, d: Daemon, l: DaemonLabel): Daemon
    requires DaemonEnabled(q, d, l)
  {
    match l
    case Timeout => d.(ctxDone := true, timedOut := true)
    case Take => d.(producer := Offering)
    case Abandon => d.(producer := Closed, cut := true)
    case CloseProducer => d.(producer := Closed, ctxDone := true, cut := d.next < |q.values|)
    case WriteBegin(ok) => if ok then d.(wire := d.wire + [Begin], writer := Ranging) else WriteFails(d)
    case HandOver => d.(writer := Holding(q.values[d.next]), producer := Next, next := d.next + 1)
    case WriteItem(ok) =>
      if ok then d.(wire := d.wire + [Item(d.writer.v)], items := d.items + 1, writer := Ranging) else WriteFails(d)
    case SeeClosed => d.(writer := AtEnd)
    case WriteEnd(ok) => if ok then d.(wire := d.wire + [End], writer := Finished) else WriteFails(d)
  }

  /** The writer gives up: it cancels the query and returns. */
  function WriteFails(d: Daemon): Daemon {
    d.(writer := Failed, ctxDone := true, failed := true)
  }

  predicate ClientEnabled(c: Client, wire: seq<Message>, l: ClientLabel) {
    match l
    case EndContext => true
    case ReadBegin => c.reader.Opening? && c.read < |wire|
    case StopReader => c.reader.Reading? && c.ended
    case ReadMessage => c.reader.Reading? && c.read < |wire|
    case ReadFails => c.reader.Opening? || c.reader.Reading?
    case Pass => c.reader.Passing? && c.converter.Idle?
    case Deliver => c.converter.Ready?
    case CloseConverter => c.reader.Stopped? && c.converter.Idle?
  }

  function ClientDo(q: Query, c: Client, wire: seq<Message>, l: ClientLabel): Client
    requires ClientEnabled(c, wire, l)
  {
    match l
    case EndContext => c.(ended := true)
    case ReadBegin =>
      if wire[c.read].Begin? then c.(reader := Reading, read := c.read + 1)
      else c.(reader := Stopped, read := c.read + 1, failed := true)
    case StopReader => c.(reader := Stopped)
    case ReadMessage =>
      if wire[c.read].Item? then c.(reader := Passing(wire[c.read].v), read := c.read + 1)
      else if wire[c.read].End? then c.(reader := Stopped, read := c.read + 1)
      else c.(reader := Stopped, failed := true)
    case ReadFails => c.(reader := Stopped, failed := true)
    case Pass =>
      c.(reader := Reading, passed := c.passed + 1,
         converter := match q.convert(c.reader.v) case Some(w) => Ready(w) case None => Idle)
    case Deliver => c.(converter := Idle, delivered := c.delivered + [c.converter.w])
    case CloseConverter => c.(converter := Done)
  }

  predicate Enabled(q: Query, s: State, l: Label) {
    match l
    case OfDaemon(x) => DaemonEnabled(q, s.d, x)
    case OfClient(x) => ClientEnabled(s.c, s.d.wire, x)
  }

  function Do(q: Query, s: State, l: Label): State
    requires Enabled(q, s, l)
  {
    match l
    case OfDaemon(x) => s.(d := DaemonDo(q, s.d, x))
    case OfClient(x) => s.(c := ClientDo(q, s.c, s.d.wire, x))
  }

  function Exec(q: Query, run: seq<Label>): Option<State> {
    if run == [] then Some(INIT)
    else
      var n := |run| - 1;
      match Exec(q, run[..n])
      case None => None
      case Some(s) => if Enabled(q, s, run[n]) then Some(Do(q, s, run[n])) else None
  }

  // ---------------------------------------------------------------------------
  // What is promised
  // ---------------------------------------------------------------------------

  /** BEGIN and the first `k` values. */
  function Stream(vs: seq<Value>, k: nat): (r: seq<Message>)
    requires k <= |vs|
    ensures |r| == k + 1 && r[0] == Begin
    ensures forall i :: 0 <= i < k ==> r[i + 1] == Item(vs[i])
  {
    if k == 0 then [Begin] else Stream(vs, k - 1) + [Item(vs[k - 1])]
  }

  /** What the client's conversion keeps, in order. */
  function Converted(convert: Value -> Option<Value>, vs: seq<Value>): seq<Value> {
    if vs == [] then []
    else
      var n := |vs| - 1;
      Converted(convert, vs[..n]) + match convert(vs[n]) case Some(w) => [w] case None => []
  }

  lemma ConvertedStep(convert: Value -> Option<Value>, vs: seq<Value>, n: nat)
    requires n < |vs|
    ensures Converted(convert, vs[..n + 1]) ==
            Converted(convert, vs[..n]) + match convert(vs[n]) case Some(w) => [w] case None => []
  {
    assert vs[..n + 1][..n] == vs[..n];
  }

  lemma {:induction false} ConvertedPrefix(convert: Value -> Option<Value>, vs: seq<Value>, n: nat)
    requires n <= |vs|
    ensures Converted(convert, vs[..n]) <= Converted(convert, vs)
    decreases |vs| - n
  {
    if n == |vs| {
      assert vs[..n] == vs;
    } else {
      ConvertedStep(convert, vs, n);
      ConvertedPrefix(convert, vs, n + 1);
    }
  }

  // ---------------------------------------------------------------------------
  // The invariant
  // ---------------------------------------------------------------------------

  ghost predicate ProducerSide(q: Query, d: Daemon) {
    && d.items <= d.next <= |q.values|
    && (d.producer.Offering? ==> d.next < |q.values|)
    && (d.timedOut || d.failed || d.producer.Closed? ==> d.ctxDone) && (d.failed <==> d.writer.Failed?)
    && (d.ctxDone ==> d.timedOut || d.failed || d.producer.Closed?)
    && (d.cut <==> d.producer.Closed? && d.next < |q.values|)
    && (d.cut ==> d.timedOut || d.failed)
    && match d.writer
       case AtBegin => d.next == 0
       case Ranging => d.items == d.next
       case Holding(v) => d.items + 1 == d.next && v == q.values[d.items]
       case AtEnd => d.items == d.next && d.producer.Closed?
       case Finished => d.items == d.next && d.producer.Closed?
       case Failed => true
  }

  ghost predicate WireSide(q: Query, d: Daemon)
    requires d.items <= |q.values|
  {
    match d.writer
    case AtBegin => d.items == 0 && d.wire == []
    case Finished => d.wire == Stream(q.values, d.items) + [End]
    case Failed => (d.items == 0 && d.wire == []) || d.wire == Stream(q.values, d.items)
    case _ => d.wire == Stream(q.values, d.items)
  }

  ghost predicate ReaderSide(q: Query, s: State) {
    var c := s.c;
    && c.read <= |s.d.wire| && c.passed <= |q.values|
    && (c.reader.Opening? ==> c.read == 0 && c.passed == 0)
    && (c.reader.Reading? ==> c.read == 1 + c.passed && c.passed <= s.d.items)
    && (c.reader.Passing? ==> c.read == 2 + c.passed && c.passed < s.d.items)
    && (c.reader.Passing? ==> c.passed < |q.values| && c.reader.v == q.values[c.passed])
    && (c.reader.Stopped? && !c.ended && !c.failed ==> s.d.writer.Finished? && c.passed == s.d.items)
    && (c.converter.Done? ==> c.reader.Stopped?)
  }

  ghost predicate ConverterSide(q: Query, c: Client)
    requires c.passed <= |q.values|
  {
    Converted(q.convert, q.values[..c.passed]) == c.delivered + (if c.converter.Ready? then [c.converter.w] else [])
  }

  ghost predicate Inv(q: Query, s: State) {
    ProducerSide(q, s.d) && WireSide(q, s.d) && ReaderSide(q, s) && ConverterSide(q, s.c)
  }

  lemma ProducerStep(q: Query, d: Daemon, l: DaemonLabel)
    requires DaemonEnabled(q, d, l) && ProducerSide(q, d)
    ensures ProducerSide(q, DaemonDo(q, d, l))
  {
  }

  lemma WireStep(q: Query, d: Daemon, l: DaemonLabel)
    requires DaemonEnabled(q, d, l) && ProducerSide(q, d) && WireSide(q, d)
    ensures var d' := DaemonDo(q, d, l);
      && d.items <= d'.items <= |q.values| && WireSide(q, d') && |d.wire| <= |d'.wire|
      && (d.writer.Finished? ==> d'.writer.Finished? && d'.items == d.items)
  {
    assert Stream(q.values, 0) == [Begin];
    if d.items < |q.values| {
      assert Stream(q.values, d.items + 1) == Stream(q.values, d.items) + [Item(q.values[d.items])];
    }
    hide Stream;
  }

  /** What the reader may find at its position. */
  lemma WireAt(q: Query, d: Daemon, i: nat)
    requires d.items <= |q.values| && WireSide(q, d) && i < |d.wire|
    ensures i == 0 ==> d.wire[0] == Begin
    ensures 0 < i <= d.items ==> d.wire[i] == Item(q.values[i - 1])
    ensures i > d.items ==> i == 0 || (d.writer.Finished? && i == d.items + 1 && d.wire[i] == End)
  {
  }

  lemma ReaderStep(q: Query, s: State, l: ClientLabel)
    requires ClientEnabled(s.c, s.d.wire, l) && s.d.items <= |q.values| && WireSide(q, s.d) && ReaderSide(q, s)
    ensures ReaderSide(q, s.(c := ClientDo(q, s.c, s.d.wire, l)))
  {
    if s.c.read < |s.d.wire| { WireAt(q, s.d, s.c.read); }
    hide WireSide;
  }

  lemma PassConverts(q: Query, c: Client)
    requires c.passed < |q.values| && ConverterSide(q, c) && c.converter.Idle?
    ensures var converter := match q.convert(q.values[c.passed]) case Some(w) => Ready(w) case None => Idle;
      ConverterSide(q, c.(reader := Reading, passed := c.passed + 1, converter := converter))
  {
    ConvertedStep(q.convert, q.values, c.passed);
    hide Converted;
  }

  lemma ConverterStep(q: Query, s: State, l: ClientLabel)
    requires ClientEnabled(s.c, s.d.wire, l) && ReaderSide(q, s) && ConverterSide(q, s.c)
    ensures var c' := ClientDo(q, s.c, s.d.wire, l); c'.passed <= |q.values| && ConverterSide(q, c')
  {
    hide ConverterSide;
    if l.Pass? {
      PassConverts(q, s.c);
    } else if l.Deliver? {
      DeliverConverts(q, s.c);
    } else {
      SameConverter(q, s.c, ClientDo(q, s.c, s.d.wire, l));
    }
  }

  lemma DeliverConverts(q: Query, c: Client)
    requires c.passed <= |q.values| && ConverterSide(q, c) && c.converter.Ready?
    ensures ConverterSide(q, c.(converter := Idle, delivered := c.delivered + [c.converter.w]))
  {
    hide Converted;
  }

  lemma SameConverter(q: Query, c: Client, c': Client)
    requires c.passed <= |q.values| && ConverterSide(q, c)
    requires c'.passed == c.passed && c'.delivered == c.delivered
    requires c'.converter == c.converter || (!c.converter.Ready? && !c'.converter.Ready?)
    ensures ConverterSide(q, c')
  {
    hide Converted;
  }

  lemma {:induction false} RunInv(q: Query, run: seq<Label>)
    requires Exec(q, run).Some?
    ensures Inv(q, Exec(q, run).value)
    decreases |run|
  {
    if run != [] {
      hide ProducerSide, WireSide, ConverterSide, DaemonDo, ClientDo;
      var n := |run| - 1;
      RunInv(q, run[..n]);
      var s := Exec(q, run[..n]).value;
      match run[n]
      case OfDaemon(l) =>
        ProducerStep(q, s.d, l);
        WireStep(q, s.d, l);
        ItemsBound(q, s.d);
      case OfClient(l) =>
        ItemsBound(q, s.d);
        ReaderStep(q, s, l);
        ConverterStep(q, s, l);
    }
  }

  lemma ItemsBound(q: Query, d: Daemon)
    requires ProducerSide(q, d)
    ensures d.items <= |q.values|
  {
  }

  // ---------------------------------------------------------------------------
  // Over every run
  // ---------------------------------------------------------------------------

  /**
    The daemon writes BEGIN, the values in order, and END when it is through without a failed write.
    END means that everything was sent exactly when the producer was not cut short, and only the end
    of the query's context by itself, or a failed write, cuts it short.
   */
  lemma DaemonWrites(q: Query, run: seq<Label>)
    requires Exec(q, run).Some?
    ensures var d := Exec(q, run).value.d;
      && d.items <= |q.values|
      && (d.wire == [] || d.wire == Stream(q.values, d.items) || d.wire == Stream(q.values, d.items) + [End])
      && (d.writer.Finished? <==> d.wire == Stream(q.values, d.items) + [End])
      && (d.failed <==> d.writer.Failed?)
      && (d.writer.Finished? ==> (d.items == |q.values| <==> !d.cut))
      && (d.cut ==> d.timedOut || d.failed) && (d.producer.Closed? ==> d.ctxDone)
  {
    RunInv(q, run);
    var d := Exec(q, run).value.d;
    assert |Stream(q.values, d.items)| != |Stream(q.values, d.items) + [End]|;
  }

  /** The client delivers what it converts of the values, in order, from the first on. */
  lemma ClientDelivers(q: Query, run: seq<Label>)
    requires Exec(q, run).Some?
    ensures Exec(q, run).value.c.delivered <= Converted(q.convert, q.values)
  {
    RunInv(q, run);
    ConvertedPrefix(q.convert, q.values, Exec(q, run).value.c.passed);
  }

  /**
    When the caller's context has not ended and no read failed, a closed channel has delivered what
    the daemon sent, up to its END. That is everything exactly when the producer was not cut short.
   */
  lemma ClientCompletes(q: Query, run: seq<Label>)
    requires Exec(q, run).Some?
    requires var c := Exec(q, run).value.c; c.converter.Done? && !c.ended && !c.failed
    ensures var s := Exec(q, run).value;
      && s.d.writer.Finished? && s.c.passed == s.d.items <= |q.values|
      && s.c.delivered == Converted(q.convert, q.values[..s.d.items])
      && (s.d.items == |q.values| <==> !s.d.cut)
      && (!s.d.cut ==> s.c.delivered == Converted(q.convert, q.values))
  {
    RunInv(q, run);
    assert q.values[..|q.values|] == q.values;
  }

  // ---------------------------------------------------------------------------
  // What the history tells
  // ---------------------------------------------------------------------------

  ghost predicate Has(run: seq<Label>, l: Label) {
    exists i :: 0 <= i < |run| && run[i] == l
  }

  ghost predicate HasFailedWrite(run: seq<Label>) {
    Has(run, OfDaemon(WriteBegin(false))) || Has(run, OfDaemon(WriteItem(false))) || Has(run, OfDaemon(WriteEnd(false)))
  }

  lemma HasNext(run: seq<Label>, l: Label)
    requires run != []
    ensures Has(run, l) <==> Has(run[..|run| - 1], l) || run[|run| - 1] == l
  {
    var n := |run| - 1;
    if Has(run, l) && run[n] != l {
      var i :| 0 <= i < |run| && run[i] == l;
      assert run[..n][i] == l;
    }
    if Has(run[..n], l) {
      var i :| 0 <= i < n && run[..n][i] == l;
      assert run[i] == l;
    }
  }

  /** The reader finds on the wire what it expects. */
  lemma NoBadRead(q: Query, s: State, l: ClientLabel)
    requires s.d.items <= |q.values| && WireSide(q, s.d) && ReaderSide(q, s) && ClientEnabled(s.c, s.d.wire, l)
    ensures ClientDo(q, s.c, s.d.wire, l).failed <==> s.c.failed || l.ReadFails?
    ensures ClientDo(q, s.c, s.d.wire, l).ended <==> s.c.ended || l.EndContext?
  {
    if s.c.read < |s.d.wire| { WireAt(q, s.d, s.c.read); }
    hide WireSide;
  }

  lemma DaemonHistory(q: Query, d: Daemon, l: DaemonLabel)
    requires DaemonEnabled(q, d, l)
    ensures DaemonDo(q, d, l).timedOut <==> d.timedOut || l.Timeout?
    ensures DaemonDo(q, d, l).failed <==>
            d.failed || l == WriteBegin(false) || l == WriteItem(false) || l == WriteEnd(false)
  {
  }

  /** The history is that of the run: in particular the client fails only where a read does. */
  lemma {:induction false} HistoryMeans(q: Query, run: seq<Label>)
    requires Exec(q, run).Some?
    ensures var s := Exec(q, run).value;
      && (s.c.failed <==> Has(run, OfClient(ReadFails))) && (s.c.ended <==> Has(run, OfClient(EndContext)))
      && (s.d.timedOut <==> Has(run, OfDaemon(Timeout))) && (s.d.failed <==> HasFailedWrite(run))
    decreases |run|
  {
    if run != [] {
      var n := |run| - 1;
      HistoryMeans(q, run[..n]);
      RunInv(q, run[..n]);
      var s := Exec(q, run[..n]).value;
      HasNext(run, OfClient(ReadFails));
      HasNext(run, OfClient(EndContext));
      HasNext(run, OfDaemon(Timeout));
      HasNext(run, OfDaemon(WriteBegin(false)));
      HasNext(run, OfDaemon(WriteItem(false)));
      HasNext(run, OfDaemon(WriteEnd(false)));
      ItemsBound(q, s.d);
      hide Has, ProducerSide, WireSide, ReaderSide, ConverterSide, DaemonEnabled, DaemonDo, ClientEnabled, ClientDo;
      match run[n]
      case OfDaemon(l) => DaemonHistory(q, s.d, l);
      case OfClient(l) => NoBadRead(q, s, l);
    }
  }

  lemma ExecStep(q: Query, run: seq<Label>, l: Label)
    requires Exec(q, run).Some? && Enabled(q, Exec(q, run).value, l)
    ensures Exec(q, run + [l]) == Some(Do(q, Exec(q, run).value, l))
  {
    assert (run + [l])[..|run|] == run;
  }

  // ---------------------------------------------------------------------------
  // Everything can arrive
  // ---------------------------------------------------------------------------

  /** The next step of a daemon that nothing disturbs. */
  function Sending(q: Query, d: Daemon): DaemonLabel {
    match d.writer
    case AtBegin => WriteBegin(true)
    case Holding(_) => WriteItem(true)
    case AtEnd => WriteEnd(true)
    case _ =>
      match d.producer
      case Next => if d.next < |q.values| then Take else CloseProducer
      case Offering => HandOver
      case Closed => SeeClosed
  }

  function ToSend(q: Query, d: Daemon): nat {
    6 * (if d.next < |q.values| then |q.values| - d.next else 0) +
    (match d.producer case Next => 2 case Offering => 1 case Closed => 0) +
    match d.writer
    case AtBegin => 3
    case Holding(_) => 3
    case Ranging => 2
    case AtEnd => 1
    case _ => 0
  }

  lemma SendingStep(q: Query, d: Daemon)
    requires ProducerSide(q, d) && !d.timedOut && !d.failed && !d.writer.Finished?
    ensures DaemonEnabled(q, d, Sending(q, d))
    ensures var d' := DaemonDo(q, d, Sending(q, d));
      !d'.timedOut && !d'.failed && ToSend(q, d') < ToSend(q, d)
  {
  }

  /** A longer run, by undisturbed steps of the daemon, that has sent every value and END. */
  ghost predicate SendsAll(q: Query, run: seq<Label>, more: seq<Label>) {
    && run <= more && Exec(q, more).Some? && Exec(q, more).value.d.writer.Finished?
    && Exec(q, more).value.d.items == |q.values| && Exec(q, more).value.d.wire == Stream(q.values, |q.values|) + [End]
    && forall i :: |run| <= i < |more| ==> more[i].OfDaemon? && Undisturbed(more[i].dl)
  }

  predicate Undisturbed(l: DaemonLabel) {
    l != Timeout && l != Abandon && l != WriteBegin(false) && l != WriteItem(false) && l != WriteEnd(false)
  }

  /** From every state without a timeout or a failed write, the daemon can send all there is. */
  lemma {:induction false} AllCanBeSent(q: Query, run: seq<Label>)
    requires Exec(q, run).Some? && !Exec(q, run).value.d.timedOut && !Exec(q, run).value.d.failed
    ensures exists more :: SendsAll(q, run, more)
    decreases ToSend(q, Exec(q, run).value.d)
  {
    var d := Exec(q, run).value.d;
    RunInv(q, run);
    if d.writer.Finished? {
      assert SendsAll(q, run, run);
    } else {
      hide Exec, Stream, ReaderSide, ConverterSide, WireSide, DaemonDo, DaemonEnabled, ToSend;
      var l := OfDaemon(Sending(q, d));
      SendingStep(q, d);
      ExecStep(q, run, l);
      AllCanBeSent(q, run + [l]);
      var more :| SendsAll(q, run + [l], more);
      assert more[|run|] == l;
      assert SendsAll(q, run, more);
    }
  }

  /** The next step of a client: `stop` once its context has ended. */
  function Receiving(c: Client, stop: bool): ClientLabel {
    if c.converter.Ready? then Deliver
    else
      match c.reader
      case Opening => ReadBegin
      case Reading => if stop then StopReader else ReadMessage
      case Passing(_) => Pass
      case Stopped => CloseConverter
  }

  function ToReceive(c: Client, length: nat): nat {
    4 * (if c.read < length then length - c.read else 0) +
    (match c.reader case Opening => 1 case Reading => 1 case Passing(_) => 3 case Stopped => 0) +
    match c.converter
    case Idle => 1
    case Ready(_) => 2
    case Done => 0
  }

  lemma ReceivingStep(q: Query, s: State)
    requires s.d.items <= |q.values| && WireSide(q, s.d) && ReaderSide(q, s) && !s.c.converter.Done?
    requires s.d.writer.Finished? && !s.c.ended && !s.c.failed
    ensures ClientEnabled(s.c, s.d.wire, Receiving(s.c, false))
    ensures var c' := ClientDo(q, s.c, s.d.wire, Receiving(s.c, false));
      !c'.ended && !c'.failed && ToReceive(c', |s.d.wire|) < ToReceive(s.c, |s.d.wire|)
  {
    if s.c.read < |s.d.wire| { WireAt(q, s.d, s.c.read); }
    assert |s.d.wire| == s.d.items + 2;
    hide WireSide;
  }

  /** A longer run, by the client's own steps without an end of its context or a failed read. */
  ghost predicate ReceivesAll(q: Query, run: seq<Label>, more: seq<Label>)
    requires Exec(q, run).Some?
  {
    var d := Exec(q, run).value.d;
    && run <= more && Exec(q, more).Some? && Exec(q, more).value.d == d && d.items <= |q.values|
    && Exec(q, more).value.c.converter.Done?
    && Exec(q, more).value.c.delivered == Converted(q.convert, q.values[..d.items])
    && forall i :: |run| <= i < |more| ==> more[i].OfClient? && more[i].cl != EndContext && more[i].cl != ReadFails
  }

  /** Once the daemon has written END, an undisturbed client delivers all that was sent. */
  lemma {:induction false} AllCanBeReceived(q: Query, run: seq<Label>)
    requires Exec(q, run).Some? && Exec(q, run).value.d.writer.Finished?
    requires !Exec(q, run).value.c.ended && !Exec(q, run).value.c.failed
    ensures exists more :: ReceivesAll(q, run, more)
    decreases ToReceive(Exec(q, run).value.c, |Exec(q, run).value.d.wire|)
  {
    var s := Exec(q, run).value;
    RunInv(q, run);
    ItemsBound(q, s.d);
    if s.c.converter.Done? {
      ClientCompletes(q, run);
      assert ReceivesAll(q, run, run);
    } else {
      hide Exec, Stream, ProducerSide, ReaderSide, ConverterSide, WireSide, ClientDo, ClientEnabled;
      hide ToReceive, Converted;
      var l := OfClient(Receiving(s.c, false));
      ReceivingStep(q, s);
      ExecStep(q, run, l);
      AllCanBeReceived(q, run + [l]);
      var more :| ReceivesAll(q, run + [l], more);
      assert more[|run|] == l;
      assert ReceivesAll(q, run, more);
    }
  }

  /** From the start: a run in which the caller gets everything that the query finds. */
  lemma EverythingCanArrive(q: Query)
    ensures exists run :: Exec(q, run).Some? && Exec(q, run).value.c.converter.Done?
                          && Exec(q, run).value.c.delivered == Converted(q.convert, q.values)
  {
    assert Exec(q, []) == Some(INIT);
    AllCanBeSent(q, []);
    var run :| SendsAll(q, [], run);
    HistoryMeans(q, run);
    RunInv(q, run);
    hide Exec, Stream, ProducerSide, WireSide, ConverterSide, Converted;
    AllCanBeReceived(q, run);
    var more :| ReceivesAll(q, run, more);
    assert q.values[..|q.values|] == q.values;
  }

  // ---------------------------------------------------------------------------
  // Nobody is held up
  // ---------------------------------------------------------------------------

  lemma StoppingStep(q: Query, s: State)
    requires s.c.ended && !s.c.reader.Opening? && !s.c.converter.Done?
    ensures ClientEnabled(s.c, s.d.wire, Receiving(s.c, true))
    ensures var c' := ClientDo(q, s.c, s.d.wire, Receiving(s.c, true));
      && c'.read == s.c.read && c'.ended && !c'.reader.Opening?
      && ToReceive(c', |s.d.wire|) < ToReceive(s.c, |s.d.wire|)
  {
  }

  /** A longer run, without reading any more, in which the caller's channel is closed. */
  ghost predicate Stops(q: Query, run: seq<Label>, more: seq<Label>)
    requires Exec(q, run).Some?
  {
    && run <= more && Exec(q, more).Some? && Exec(q, more).value.c.converter.Done?
    && Exec(q, more).value.c.read == Exec(q, run).value.c.read && Exec(q, more).value.d == Exec(q, run).value.d
  }

  /** Once its context has ended, a client that has its stream closes the channel without reading on. */
  lemma {:induction false} EndedClientStops(q: Query, run: seq<Label>)
    requires Exec(q, run).Some? && Exec(q, run).value.c.ended && !Exec(q, run).value.c.reader.Opening?
    ensures exists more :: Stops(q, run, more)
    decreases ToReceive(Exec(q, run).value.c, |Exec(q, run).value.d.wire|)
  {
    var s := Exec(q, run).value;
    if s.c.converter.Done? {
      assert Stops(q, run, run);
    } else {
      hide Exec, ClientDo, ClientEnabled, ToReceive;
      var l := OfClient(Receiving(s.c, true));
      StoppingStep(q, s);
      ExecStep(q, run, l);
      EndedClientStops(q, run + [l]);
      var more :| Stops(q, run + [l], more);
      assert Stops(q, run, more);
    }
  }

  /** After a timeout or a failed write the producer can leave at once, offering or not. */
  lemma ProducerLeaves(q: Query, run: seq<Label>)
    requires Exec(q, run).Some? && (Exec(q, run).value.d.timedOut || Exec(q, run).value.d.failed)
    requires !Exec(q, run).value.d.producer.Closed?
    ensures var l := OfDaemon(if Exec(q, run).value.d.producer.Offering? then Abandon else CloseProducer);
      Exec(q, run + [l]).Some? && Exec(q, run + [l]).value.d.producer.Closed?
  {
    RunInv(q, run);
    hide Exec;
    ExecStep(q, run, OfDaemon(if Exec(q, run).value.d.producer.Offering? then Abandon else CloseProducer));
  }

  // ---------------------------------------------------------------------------
  // END alone promises nothing
  // ---------------------------------------------------------------------------

  /** A longer run whose END follows the first `k` values. */
  ghost predicate EndsAfter(q: Query, run: seq<Label>, k: nat, more: seq<Label>) {
    && run <= more && Exec(q, more).Some? && k <= |q.values|
    && Exec(q, more).value.d.writer.Finished? && Exec(q, more).value.d.wire == Stream(q.values, k) + [End]
  }

  /** The next step of a daemon whose query has timed out. */
  function Ending(d: Daemon): DaemonLabel {
    if !d.timedOut then Timeout
    else if d.producer.Offering? then Abandon
    else if d.producer.Next? then CloseProducer
    else
      match d.writer
      case AtBegin => WriteBegin(true)
      case Holding(_) => WriteItem(true)
      case AtEnd => WriteEnd(true)
      case _ => SeeClosed
  }

  function ToEnd(d: Daemon): nat {
    (if d.timedOut then 0 else 1) + (if d.producer.Closed? then 0 else 1) +
    match d.writer
    case AtBegin => 3
    case Holding(_) => 3
    case Ranging => 2
    case AtEnd => 1
    case _ => 0
  }

  lemma EndingStep(q: Query, d: Daemon)
    requires ProducerSide(q, d)
    requires !d.writer.Failed? && !(d.writer.Finished? && d.timedOut)
    ensures DaemonEnabled(q, d, Ending(d))
    ensures var d' := DaemonDo(q, d, Ending(d));
      d'.next == d.next && !d'.writer.Failed? && ToEnd(d') < ToEnd(d) && d'.timedOut
  {
  }

  /**
    From every state in which the writer has not failed, a timeout can lead to END right after the
    values already taken over.
   */
  lemma {:induction false} EndAfterTimeout(q: Query, run: seq<Label>)
    requires Exec(q, run).Some? && !Exec(q, run).value.d.writer.Failed?
    ensures exists more :: EndsAfter(q, run, Exec(q, run).value.d.next, more)
    decreases ToEnd(Exec(q, run).value.d)
  {
    var d := Exec(q, run).value.d;
    RunInv(q, run);
    if d.writer.Finished? {
      assert EndsAfter(q, run, d.next, run);
    } else {
      hide Exec, Stream, ReaderSide, ConverterSide, WireSide, DaemonDo;
      var l := OfDaemon(Ending(d));
      EndingStep(q, d);
      ExecStep(q, run, l);
      EndAfterTimeout(q, run + [l]);
      var more :| EndsAfter(q, run + [l], d.next, more);
      assert EndsAfter(q, run, d.next, more);
    }
  }

  /** Whatever was to be found, a timeout at the start still gives BEGIN and END, and nothing else. */
  lemma EndWithoutValues(q: Query)
    ensures exists run ::
      && Exec(q, run).Some? && Exec(q, run).value.d.writer.Finished?
      && Exec(q, run).value.d.wire == [Begin, End]
  {
    assert Exec(q, []) == Some(INIT);
    EndAfterTimeout(q, []);
    var run :| EndsAfter(q, [], 0, run);
    assert Exec(q, run).value.d.wire == [Begin, End];
  }
}
