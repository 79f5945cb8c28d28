/**
 A TcpConnection as a state machine (src/tcp_connection.cc).  The two buffers are byte queues, the
 kernel side of the socket is what it has taken (`wire`) and the half-closes it was told of (`fins`),
 and `notes` are the functors queued on the loop for user callbacks.  A run is any sequence of
 actions: calls made on the loop thread, shutdown() made on other threads, and poller events with
 any result the kernel may give.
 */
module ConnectionSpec {
  import opened ByteBuffer

  datatype ConnState = Connecting | Connected | Disconnecting | Disconnected
  datatype Errno = EWOULDBLOCK | EPIPE | ECONNRESET | OtherErrno

  /** The kernel takes at most `n` of the bytes offered, or fails. */
  datatype WriteResult = Took(n: nat) | Failed(errno: Errno)

  /** `Got([])` is end of file. */
  datatype ReadResult = Got(bytes: seq<Byte>) | ReadFailed

  /** How src/tcp_connection.cc:75 is read: as the assignment it is, or as the comparison its
      message implies (which on this path changes nothing, as its branch does not return). */
  datatype Reading = Literal | Comparison

  datatype Config = Config(reading: Reading, onWriteComplete: bool, onHighWater: bool, mark: nat)

  const HIGH_WATER_MARK: nat := 64 * 1024 * 1024

  datatype Note = WriteComplete | HighWater(len: nat)

  /** Where the connection is in its life: before connEstablish, after it, after handleClose, and
      after connDestory. */
  datatype Phase = Fresh | Open | Closed | Destroyed

  /** A half-close, with the phase it happened in and all the kernel had taken by then. */
  datatype Fin = Fin(phase: Phase, sent: seq<Byte>)

  datatype Conn = Conn(
    state: ConnState,
    readSet: bool,
    writeSet: bool,
    input: seq<Byte>,
    output: seq<Byte>,
    wire: seq<Byte>,
    fins: seq<Fin>,
    notes: seq<Note>,
    checked: nat,  // other threads inside shutdown(), past its test of state_
    stored: nat,   // shutdownInLoop functors they have queued
    phase: Phase)

  const NEW: Conn := Conn(Connecting, false, false, [], [], [], [], [], 0, 0, Fresh)

  // ----- the operations -----

  function Min(a: nat, b: nat): nat {
    if a < b then a else b
  }

  predicate Fault(k: WriteResult) {
    k.Failed? && (k.errno == EPIPE || k.errno == ECONNRESET)
  }

  function Taken(k: WriteResult, offered: nat): nat {
    if k.Took? then Min(k.n, offered) else 0
  }

  function Notify(c: Conn, wanted: bool, note: Note): Conn {
    if wanted then c.(notes := c.notes + [note]) else c
  }

  /** The part of sendInLoop after the direct write: `rest` goes to the backlog. */
  function Enqueue(cfg: Config, c: Conn, rest: seq<Byte>): Conn {
    var total := |c.output| + |rest|;
    var c1 := Notify(c, cfg.onHighWater && |c.output| < cfg.mark <= total, HighWater(total));
    c1.(output := c.output + rest, writeSet := true)
  }

  function SendInLoop(cfg: Config, c: Conn, data: seq<Byte>, k: WriteResult): Conn {
    var c0 := if cfg.reading == Literal then c.(state := Disconnected) else c;
    if !c0.writeSet && c0.output == [] then
      match k
      case Took(_) =>
        var n := Taken(k, |data|);
        var c1 := c0.(wire := c0.wire + data[..n]);
        if n == |data| then Notify(c1, cfg.onWriteComplete, WriteComplete)
        else Enqueue(cfg, c1, data[n..])
      case Failed(_) =>
        if Fault(k) || data == [] then c0 else Enqueue(cfg, c0, data)
    else if data == [] then c0
    else Enqueue(cfg, c0, data)
  }

  function Send(cfg: Config, c: Conn, data: seq<Byte>, k: WriteResult): Conn {
    if c.state == Connected then SendInLoop(cfg, c, data, k) else c
  }

  function ShutdownInLoop(c: Conn): Conn {
    if c.writeSet then c else c.(fins := c.fins + [Fin(c.phase, c.wire)])
  }

  function Shutdown(c: Conn): Conn {
    if c.state == Connected then ShutdownInLoop(c.(state := Disconnecting)) else c
  }

  function HandleWrite(cfg: Config, c: Conn, k: WriteResult): Conn {
    var n := Taken(k, |c.output|);
    if !c.writeSet || n == 0 then c
    else
      var c1 := c.(wire := c.wire + c.output[..n], output := c.output[n..]);
      if c1.output != [] then c1 else BacklogGone(cfg, c1)
  }

  /** The end of handleWrite once the output buffer is empty. */
  function BacklogGone(cfg: Config, c: Conn): Conn {
    var c1 := Notify(c.(writeSet := false), cfg.onWriteComplete, WriteComplete);
    if c1.state == Disconnecting then ShutdownInLoop(c1) else c1
  }

  function HandleClose(c: Conn): Conn {
    c.(state := Disconnected, readSet := false, writeSet := false, phase := Closed)
  }

  function HandleRead(c: Conn, r: ReadResult): Conn {
    match r
    case Got(bytes) => if bytes == [] then HandleClose(c) else c.(input := c.input + bytes)
    case ReadFailed => c
  }

  function Establish(c: Conn): Conn {
    c.(state := Connected, readSet := true, phase := Open)
  }

  function Destroy(c: Conn): Conn {
    var c1 := if c.state == Connected
              then c.(state := Disconnected, readSet := false, writeSet := false) else c;
    c1.(phase := Destroyed)
  }

  // ----- runs -----

  datatype Action =
    | DoEstablish
    | DoSend(data: seq<Byte>, k: WriteResult)
    | DoShutdown
    | ForeignCheck                // another thread's shutdown() reads state_
    | ForeignStore                // ... stores kDisconnecting and queues shutdownInLoop
    | RunShutdownFunctor
    | WriteEvent(k: WriteResult)
    | ReadEvent(r: ReadResult)
    | CloseEvent
    | DoConsume(len: nat)         // a message callback takes bytes from the input buffer
    | DoDestroy

  /** connEstablish runs first and once, events reach only a channel that is registered, and
      connDestory comes after connEstablish: proved of the server in module Ownership. */
  predicate Enabled(c: Conn, a: Action) {
    match a
    case DoEstablish => c.phase == Fresh
    case ForeignStore => c.checked > 0
    case RunShutdownFunctor => c.stored > 0
    case WriteEvent(_) => c.phase == Open || c.phase == Closed
    case ReadEvent(_) => c.phase == Open || c.phase == Closed
    case CloseEvent => c.phase == Open || c.phase == Closed
    case DoDestroy => c.phase != Fresh
    case _ => true
  }

  function Apply(cfg: Config, c: Conn, a: Action): Conn
    requires Enabled(c, a)
  {
    match a
    case DoEstablish => Establish(c)
    case DoSend(data, k) => Send(cfg, c, data, k)
    case DoShutdown => Shutdown(c)
    case ForeignCheck => if c.state == Connected then c.(checked := c.checked + 1) else c
    case ForeignStore => c.(state := Disconnecting, checked := c.checked - 1, stored := c.stored + 1)
    case RunShutdownFunctor => ShutdownInLoop(c.(stored := c.stored - 1))
    case WriteEvent(k) => HandleWrite(cfg, c, k)
    case ReadEvent(r) => HandleRead(c, r)
    case CloseEvent => HandleClose(c)
    case DoConsume(len) => c.(input := c.input[Min(len, |c.input|)..])
    case DoDestroy => Destroy(c)
  }

  function Step(cfg: Config, c: Conn, a: Action): Conn {
    if Enabled(c, a) then Apply(cfg, c, a) else c
  }

  ghost function Run(cfg: Config, c: Conn, t: seq<Action>): Conn
    decreases |t|
  {
    if t == [] then c else Run(cfg, Step(cfg, c, t[0]), t[1..])
  }

  lemma {:induction false} RunPrefix(cfg: Config, c: Conn, t: seq<Action>, i: nat)
    requires i < |t|
    ensures Run(cfg, c, t[..i + 1]) == Step(cfg, Run(cfg, c, t[..i]), t[i])
    decreases i
  {
    if i == 0 {
      assert t[..1][1..] == [];
    } else {
      RunPrefix(cfg, Step(cfg, c, t[0]), t[1..], i - 1);
      assert t[..i + 1][1..] == t[1..][..i] && t[..i][1..] == t[1..][..i - 1];
    }
  }

  // ----- the invariant of every reachable connection -----

  ghost predicate Inv(cfg: Config, c: Conn) {
    && (c.phase == Fresh ==> c == NEW.(input := c.input))
    && (c.phase != Fresh ==> c.state != Connecting)
    && (c.phase == Open ==>
          c.readSet && (c.writeSet <==> c.output != [])
          && (cfg.reading == Comparison ==> c.state != Disconnected))
    && (c.phase == Closed || c.phase == Destroyed ==> c.state != Connected)
    && (c.phase == Closed ==> !c.readSet && !c.writeSet)
    && (c.stored > 0 || c.fins != [] ==>
          c.state == Disconnecting || (c.state == Disconnected && c.phase != Open))
    && (forall f :: f in c.fins ==>
          f.sent == c.wire && (f.phase == Open || c.phase == Open ==> c.output == []))
  }

  lemma SendKeepsInv(cfg: Config, c: Conn, data: seq<Byte>, k: WriteResult)
    requires Inv(cfg, c)
    ensures Inv(cfg, Send(cfg, c, data, k))
  {
  }

  lemma WriteKeepsInv(cfg: Config, c: Conn, k: WriteResult)
    requires Inv(cfg, c) && (c.phase == Open || c.phase == Closed)
    ensures Inv(cfg, HandleWrite(cfg, c, k))
  {
  }

  lemma StepKeepsInv(cfg: Config, c: Conn, a: Action)
    requires Inv(cfg, c)
    ensures Inv(cfg, Step(cfg, c, a))
  {
    match a
    case DoSend(data, k) => SendKeepsInv(cfg, c, data, k);
    case WriteEvent(k) =>
      if c.phase == Open || c.phase == Closed {
        WriteKeepsInv(cfg, c, k);
      }
    case _ =>
  }

  lemma {:induction false} RunKeepsInv(cfg: Config, c: Conn, t: seq<Action>)
    requires Inv(cfg, c)
    ensures Inv(cfg, Run(cfg, c, t))
    decreases |t|
  {
    if t != [] {
      StepKeepsInv(cfg, c, t[0]);
      RunKeepsInv(cfg, Step(cfg, c, t[0]), t[1..]);
    }
  }

  /** While a connection is open, write interest is set exactly when there is a backlog. */
  lemma WriteInterestTracksBacklog(cfg: Config, t: seq<Action>)
    ensures var c := Run(cfg, NEW, t); c.phase == Open ==> (c.writeSet <==> c.output != [])
  {
    RunKeepsInv(cfg, NEW, t);
  }

  // ----- the output stream -----

  /** The bytes an action hands over for good: those of a send() on a connected connection, unless
      its direct write fails with EPIPE or ECONNRESET, in which case the whole send is dropped. */
  ghost function AcceptedBy(c: Conn, a: Action): seq<Byte> {
    if a.DoSend? && c.state == Connected
       && !(c.output == [] && (a.k == Failed(EPIPE) || a.k == Failed(ECONNRESET)))
    then a.data else []
  }

  ghost function Accepted(cfg: Config, c: Conn, t: seq<Action>): seq<Byte>
    decreases |t|
  {
    if t == [] then [] else AcceptedBy(c, t[0]) + Accepted(cfg, Step(cfg, c, t[0]), t[1..])
  }

  /** The first write of sendInLoop splits the data between the wire and the backlog, which was empty. */
  lemma FirstWriteConserves(cfg: Config, c: Conn, data: seq<Byte>, k: WriteResult)
    requires !c.writeSet && c.output == []
    ensures var c' := SendInLoop(cfg, c, data, k);
            c'.wire + c'.output == c.wire + if Fault(k) then [] else data
  {
    var n := Taken(k, |data|);
    assert c.wire + data[..n] + data[n..] == c.wire + data;
    assert data[..|data|] == data && [] + data == data && [] + data[n..] == data[n..];
  }

  lemma SendConserves(cfg: Config, c: Conn, data: seq<Byte>, k: WriteResult)
    requires Inv(cfg, c) && c.phase == Open && c.state == Connected
    ensures var c' := SendInLoop(cfg, c, data, k);
            c'.wire + c'.output == c.wire + c.output + AcceptedBy(c, DoSend(data, k))
  {
    if c.output == [] {
      FirstWriteConserves(cfg, c, data, k);
      assert c.wire + c.output == c.wire;
    } else {
      assert c.wire + (c.output + data) == c.wire + c.output + data;
    }
  }

  lemma WriteConserves(cfg: Config, c: Conn, k: WriteResult)
    ensures var c' := HandleWrite(cfg, c, k); c'.wire + c'.output == c.wire + c.output
  {
    var n := Taken(k, |c.output|);
    assert c.output[..n] + c.output[n..] == c.output;
    assert c.wire + c.output[..n] + c.output[n..] == c.wire + c.output;
  }

  lemma StepConserves(cfg: Config, c: Conn, a: Action)
    requires Inv(cfg, c)
    ensures var c' := Step(cfg, c, a); c'.wire + c'.output == c.wire + c.output + AcceptedBy(c, a)
  {
    match a
    case DoSend(data, k) =>
      if c.state == Connected {
        SendConserves(cfg, c, data, k);
      }
    case WriteEvent(k) => WriteConserves(cfg, c, k);
    case _ =>
  }

  lemma ConcatAssociates(x: seq<Byte>, y: seq<Byte>, z: seq<Byte>)
    ensures x + y + z == x + (y + z)
  {
  }

  lemma {:induction false} RunConserves(cfg: Config, c: Conn, t: seq<Action>)
    requires Inv(cfg, c)
    ensures var c' := Run(cfg, c, t); c'.wire + c'.output == c.wire + c.output + Accepted(cfg, c, t)
    decreases |t|
  {
    if t != [] {
      var c1 := Step(cfg, c, t[0]);
      StepKeepsInv(cfg, c, t[0]);
      StepConserves(cfg, c, t[0]);
      RunConserves(cfg, c1, t[1..]);
      ConcatAssociates(c.wire + c.output, AcceptedBy(c, t[0]), Accepted(cfg, c1, t[1..]));
    }
  }

  /** Over every run, with any partial writes and errors and under either reading of line 75: what
      the kernel took followed by the backlog is the in-order concatenation of the accepted sends. */
  lemma StreamConservation(cfg: Config, t: seq<Action>)
    ensures var c := Run(cfg, NEW, t); c.wire + c.output == Accepted(cfg, NEW, t)
  {
    RunConserves(cfg, NEW, t);
  }

  // ----- half-close -----

  /** A half-close of an open connection comes after every byte accepted in the whole run, before
      or after it: none is cut off and none is accepted later.  One made after handleClose or
      connDestory has that property exactly when no backlog was left behind. */
  lemma HalfCloseAfterLastByte(cfg: Config, t: seq<Action>, f: Fin)
    requires f in Run(cfg, NEW, t).fins
    ensures f.phase == Open ==> f.sent == Accepted(cfg, NEW, t)
    ensures f.sent == Accepted(cfg, NEW, t) <==> Run(cfg, NEW, t).output == []
  {
    RunKeepsInv(cfg, NEW, t);
    StreamConservation(cfg, t);
    var c := Run(cfg, NEW, t);
    assert |c.wire + c.output| == |c.wire| + |c.output|;
    assert c.output == [] ==> c.wire + c.output == c.wire;
  }

  /** A shutdown() racing with a close does cut the backlog off. */
  lemma HalfCloseAfterCloseCutsOff()
    ensures var cfg := Config(Comparison, false, false, HIGH_WATER_MARK);
            var blocked := Step(cfg, Step(cfg, NEW, DoEstablish), DoSend([7], Failed(EWOULDBLOCK)));
            var closed := Step(cfg, Step(cfg, Step(cfg, blocked, ForeignCheck), CloseEvent), ForeignStore);
            Step(cfg, closed, RunShutdownFunctor).fins == [Fin(Closed, [])] && closed.output == [7]
  {
    var cfg := Config(Comparison, false, false, HIGH_WATER_MARK);
    var blocked := Step(cfg, Step(cfg, NEW, DoEstablish), DoSend([7], Failed(EWOULDBLOCK)));
    assert blocked.output == [] + [7] == [7];
    var checked := Step(cfg, blocked, ForeignCheck);
    var closed := Step(cfg, checked, CloseEvent);
    assert closed == HandleClose(checked);
    var stored := Step(cfg, closed, ForeignStore);
    assert stored.output == [7] && stored.phase == Closed && stored.fins == [];
    assert Step(cfg, stored, RunShutdownFunctor).fins == [] + [Fin(Closed, [])];
  }

  /** What a half-close depends on: a shutdown() that gets past its test of state_, an execution of
      shutdownInLoop, one that finds no backlog, and the write event that empties the backlog of a
      disconnecting connection. */
  datatype Kind = Passed | Executed | Idle | Drained

  ghost predicate Hits(kind: Kind, cfg: Config, c: Conn, a: Action) {
    var executes := (a.DoShutdown? && c.state == Connected) || (a.RunShutdownFunctor? && c.stored > 0);
    match kind
    case Passed => (a.DoShutdown? || a.ForeignCheck?) && c.state == Connected
    case Executed => executes
    case Idle => executes && c.output == []
    case Drained => a.WriteEvent? && c.state == Disconnecting && c.output != [] && Step(cfg, c, a).output == []
  }

  ghost function Count(kind: Kind, cfg: Config, c: Conn, t: seq<Action>): nat
    decreases |t|
  {
    if t == [] then 0
    else (if Hits(kind, cfg, c, t[0]) then 1 else 0) + Count(kind, cfg, Step(cfg, c, t[0]), t[1..])
  }

  lemma StepWasOpen(cfg: Config, c: Conn, a: Action)
    requires Step(cfg, c, a).phase == Fresh || Step(cfg, c, a).phase == Open
    ensures c.phase == Fresh || c.phase == Open
  {
  }

  /** A connection never returns to an earlier phase. */
  lemma {:induction false} OpenWasOpen(cfg: Config, c: Conn, t: seq<Action>)
    requires Run(cfg, c, t).phase == Open
    ensures c.phase == Fresh || c.phase == Open
    decreases |t|
  {
    if t != [] {
      OpenWasOpen(cfg, Step(cfg, c, t[0]), t[1..]);
      StepWasOpen(cfg, c, t[0]);
    }
  }

  lemma StepHalfCloses(cfg: Config, c: Conn, a: Action)
    requires Inv(cfg, c) && (c.phase == Fresh || c.phase == Open)
    ensures |Step(cfg, c, a).fins| == |c.fins| + (if Hits(Idle, cfg, c, a) then 1 else 0)
                                              + (if Hits(Drained, cfg, c, a) then 1 else 0)
  {
    match a
    case WriteEvent(k) =>
    case DoSend(data, k) =>
    case _ =>
  }

  /** Over every run that ends open, whoever calls shutdown() and from wherever: the half-closes are
      the executions of shutdownInLoop that found no backlog, and the drain while disconnecting. */
  lemma {:induction false} HalfClosesCounted(cfg: Config, c: Conn, t: seq<Action>)
    requires Inv(cfg, c) && Run(cfg, c, t).phase == Open
    ensures |Run(cfg, c, t).fins| == |c.fins| + Count(Idle, cfg, c, t) + Count(Drained, cfg, c, t)
    decreases |t|
  {
    OpenWasOpen(cfg, c, t);
    if t != [] {
      StepKeepsInv(cfg, c, t[0]);
      StepHalfCloses(cfg, c, t[0]);
      HalfClosesCounted(cfg, Step(cfg, c, t[0]), t[1..]);
    }
  }

  lemma StepCalls(cfg: Config, c: Conn, a: Action)
    ensures var r := Step(cfg, c, a);
            (if Hits(Passed, cfg, c, a) then 1 else 0) + c.checked + c.stored
            == (if Hits(Executed, cfg, c, a) then 1 else 0) + r.checked + r.stored
  {
    match a
    case DoSend(data, k) =>
    case WriteEvent(k) =>
    case _ =>
  }

  /** Every shutdown() that passes its test comes to one execution of shutdownInLoop. */
  lemma {:induction false} CallsConserved(cfg: Config, c: Conn, t: seq<Action>)
    ensures var r := Run(cfg, c, t);
            Count(Passed, cfg, c, t) + c.checked + c.stored == Count(Executed, cfg, c, t) + r.checked + r.stored
    decreases |t|
  {
    if t != [] {
      StepCalls(cfg, c, t[0]);
      CallsConserved(cfg, Step(cfg, c, t[0]), t[1..]);
    }
  }

  /** A disconnecting connection stays so while it is open, and its backlog only shrinks. */
  lemma StepStaysDisconnecting(cfg: Config, c: Conn, a: Action)
    requires Inv(cfg, c) && c.phase == Open && c.state == Disconnecting && Step(cfg, c, a).phase == Open
    ensures Step(cfg, c, a).state == Disconnecting && (c.output == [] ==> Step(cfg, c, a).output == [])
    ensures !Hits(Passed, cfg, c, a)
  {
  }

  lemma {:induction false} DrainedOnceIff(cfg: Config, c: Conn, t: seq<Action>)
    requires Inv(cfg, c) && c.phase == Open && c.state == Disconnecting && Run(cfg, c, t).phase == Open
    ensures var r := Run(cfg, c, t);
            r.state == Disconnecting && Count(Passed, cfg, c, t) == 0
            && Count(Drained, cfg, c, t) == if c.output != [] && r.output == [] then 1 else 0
    ensures c.output == [] ==> Run(cfg, c, t).output == []
    decreases |t|
  {
    if t != [] {
      var c1 := Step(cfg, c, t[0]);
      StepKeepsInv(cfg, c, t[0]);
      OpenWasOpen(cfg, c1, t[1..]);
      StepStaysDisconnecting(cfg, c, t[0]);
      DrainedOnceIff(cfg, c1, t[1..]);
    }
  }

  /** Without a drain, a run that ends open and drained had no backlog whenever shutdownInLoop ran. */
  lemma {:induction false} ExecutionsWithoutDrain(cfg: Config, c: Conn, t: seq<Action>)
    requires Inv(cfg, c) && Run(cfg, c, t).phase == Open && Run(cfg, c, t).output == []
    ensures Count(Drained, cfg, c, t) <= 1
    ensures Count(Drained, cfg, c, t) == 0 ==> Count(Idle, cfg, c, t) == Count(Executed, cfg, c, t)
    decreases |t|
  {
    OpenWasOpen(cfg, c, t);
    if t != [] {
      var c1 := Step(cfg, c, t[0]);
      StepKeepsInv(cfg, c, t[0]);
      OpenWasOpen(cfg, c1, t[1..]);
      ExecutionsWithoutDrain(cfg, c1, t[1..]);
      if c1.phase == Open && c1.state == Disconnecting {
        DrainedOnceIff(cfg, c1, t[1..]);
      }
    }
  }

  /** Exactly one half-close, for every run that ends open and drained with every shutdown() finished:
      it comes if and only if either the backlog drained while disconnecting and no shutdownInLoop ran
      after that, or it did not and exactly one shutdown() got past its test. */
  lemma ExactlyOneHalfCloseIff(cfg: Config, t: seq<Action>)
    requires var c := Run(cfg, NEW, t);
             c.phase == Open && c.output == [] && c.checked == 0 && c.stored == 0
    ensures |Run(cfg, NEW, t).fins| == 1
            <==> if Count(Drained, cfg, NEW, t) == 1 then Count(Idle, cfg, NEW, t) == 0
                 else Count(Passed, cfg, NEW, t) == 1
  {
    HalfClosesCounted(cfg, NEW, t);
    CallsConserved(cfg, NEW, t);
    ExecutionsWithoutDrain(cfg, NEW, t);
  }

  ghost predicate OnLoopThread(t: seq<Action>) {
    forall i :: 0 <= i < |t| ==> !t[i].ForeignCheck?
  }

  ghost predicate FirstShutdown(t: seq<Action>, i: nat) {
    i < |t| && t[i].DoShutdown? && forall j :: 0 <= j < i ==> !t[j].DoShutdown?
  }

  /** On the loop thread alone nothing is ever half done. */
  lemma {:induction false} LoopThreadLeavesNothing(cfg: Config, c: Conn, t: seq<Action>)
    requires OnLoopThread(t) && c.checked == 0 && c.stored == 0
    ensures Run(cfg, c, t).checked == 0 && Run(cfg, c, t).stored == 0
    decreases |t|
  {
    if t != [] {
      LoopThreadLeavesNothing(cfg, Step(cfg, c, t[0]), t[1..]);
    }
  }

  lemma {:induction false} CountSplits(kind: Kind, cfg: Config, c: Conn, t: seq<Action>, u: seq<Action>)
    ensures Count(kind, cfg, c, t + u) == Count(kind, cfg, c, t) + Count(kind, cfg, Run(cfg, c, t), u)
    ensures Run(cfg, c, t + u) == Run(cfg, Run(cfg, c, t), u)
    decreases |t|
  {
    if t == [] {
      assert t + u == u;
    } else {
      assert (t + u)[1..] == t[1..] + u;
      CountSplits(kind, cfg, Step(cfg, c, t[0]), t[1..], u);
    }
  }

  /** A shutdown() on the loop thread that finds the connection connected yields one half-close by the
      time the backlog has drained, if nothing closes the connection first. */
  lemma HeardShutdown(cfg: Config, c: Conn, t: seq<Action>)
    requires Inv(cfg, c) && c.phase == Open && c.state == Connected && c.fins == []
    requires c.checked == 0 && c.stored == 0 && OnLoopThread(t)
    requires var r := Run(cfg, c, [DoShutdown] + t); r.phase == Open && r.output == []
    ensures |Run(cfg, c, [DoShutdown] + t).fins| == 1
  {
    var c1 := Step(cfg, c, DoShutdown);
    assert ([DoShutdown] + t)[1..] == t;
    StepKeepsInv(cfg, c, DoShutdown);
    DrainedOnceIff(cfg, c1, t);
    HalfClosesCounted(cfg, c1, t);
    CallsConserved(cfg, c1, t);
    LoopThreadLeavesNothing(cfg, c1, t);
    IdleAreExecuted(cfg, c1, t);
  }

  lemma {:induction false} IdleAreExecuted(cfg: Config, c: Conn, t: seq<Action>)
    ensures Count(Idle, cfg, c, t) <= Count(Executed, cfg, c, t)
    decreases |t|
  {
    if t != [] {
      IdleAreExecuted(cfg, Step(cfg, c, t[0]), t[1..]);
    }
  }

  ghost predicate SentWhileOpen(cfg: Config, c: Conn, t: seq<Action>)
    decreases |t|
  {
    t != [] && ((t[0].DoSend? && c.phase == Open) || SentWhileOpen(cfg, Step(cfg, c, t[0]), t[1..]))
  }

  /** Where a connection stands before its first shutdown(): connected, unless it has sent and line 75
      is an assignment. */
  lemma {:induction false} BeforeFirstShutdown(cfg: Config, c: Conn, t: seq<Action>)
    requires Inv(cfg, c) && (c.phase == Fresh || (c.phase == Open && c.state == Connected))
    requires c.checked == 0 && c.stored == 0 && c.fins == []
    requires OnLoopThread(t) && (forall j :: 0 <= j < |t| ==> !t[j].DoShutdown?)
    requires Run(cfg, c, t).phase == Open
    ensures var r := Run(cfg, c, t);
            r.state == (if cfg.reading == Literal && SentWhileOpen(cfg, c, t) then Disconnected else Connected)
            && r.fins == [] && r.checked == 0 && r.stored == 0
    decreases |t|
  {
    OpenWasOpen(cfg, c, t);
    if t != [] {
      var c1 := Step(cfg, c, t[0]);
      StepKeepsInv(cfg, c, t[0]);
      OpenWasOpen(cfg, c1, t[1..]);
      if c1.state == Disconnected {
        SilentAfterwards(cfg, c1, t[1..]);
      } else {
        BeforeFirstShutdown(cfg, c1, t[1..]);
      }
    }
  }

  /** An open connection that line 75 has marked disconnected is deaf to everything but its backlog. */
  lemma {:induction false} SilentAfterwards(cfg: Config, c: Conn, t: seq<Action>)
    requires Inv(cfg, c) && c.phase == Open && c.state == Disconnected && c.fins == []
    requires c.checked == 0 && c.stored == 0 && OnLoopThread(t) && Run(cfg, c, t).phase == Open
    ensures var r := Run(cfg, c, t);
            r.state == Disconnected && r.fins == [] && r.checked == 0 && r.stored == 0
    decreases |t|
  {
    if t != [] {
      var c1 := Step(cfg, c, t[0]);
      StepKeepsInv(cfg, c, t[0]);
      OpenWasOpen(cfg, c1, t[1..]);
      SilentAfterwards(cfg, c1, t[1..]);
    }
  }

  /** The promise of shutdown(): called on an open connection, on the loop thread, with the backlog
      drained before any close, it yields exactly one half-close if line 75 is a comparison; as the
      assignment it is, it does if and only if nothing was sent before it, and otherwise none at all. */
  lemma ShutdownYieldsOneHalfClose(cfg: Config, t: seq<Action>, i: nat)
    requires OnLoopThread(t) && FirstShutdown(t, i) && Run(cfg, NEW, t[..i]).phase == Open
    requires Run(cfg, NEW, t).phase == Open && Run(cfg, NEW, t).output == []
    ensures |Run(cfg, NEW, t).fins|
         == if cfg.reading == Comparison || !SentWhileOpen(cfg, NEW, t[..i]) then 1 else 0
  {
    var c := Run(cfg, NEW, t[..i]);
    var rest := t[i + 1..];
    assert t == t[..i] + ([DoShutdown] + rest);
    CountSplits(Idle, cfg, NEW, t[..i], [DoShutdown] + rest);
    RunKeepsInv(cfg, NEW, t[..i]);
    BeforeFirstShutdown(cfg, NEW, t[..i]);
    assert OnLoopThread([DoShutdown] + rest);
    if c.state == Connected {
      HeardShutdown(cfg, c, rest);
    } else {
      SilentAfterwards(cfg, c, [DoShutdown] + rest);
    }
  }

  ghost predicate OnlyWriteEvents(t: seq<Action>) {
    forall i :: 0 <= i < |t| ==> t[i].WriteEvent?
  }

  ghost function Offered(t: seq<Action>): nat
    requires OnlyWriteEvents(t)
  {
    if t == [] then 0 else (if t[0].k.Took? then t[0].k.n else 0) + Offered(t[1..])
  }

  /** Write events drain the backlog by exactly what the kernel takes; failed ones leave it alone. */
  lemma {:induction false} BacklogDrains(cfg: Config, c: Conn, t: seq<Action>)
    requires Inv(cfg, c) && c.phase == Open && OnlyWriteEvents(t)
    ensures |Run(cfg, c, t).output| == if Offered(t) < |c.output| then |c.output| - Offered(t) else 0
    decreases |t|
  {
    if t != [] {
      StepKeepsInv(cfg, c, t[0]);
      BacklogDrains(cfg, Step(cfg, c, t[0]), t[1..]);
    }
  }

  /** From another thread the half-close can come twice: the backlog drains after the store, and then
      the functor runs. */
  lemma ForeignShutdownTwice()
    ensures var cfg := Config(Comparison, false, false, HIGH_WATER_MARK);
            var blocked := Step(cfg, Step(cfg, NEW, DoEstablish), DoSend([7], Failed(EWOULDBLOCK)));
            var queued := Step(cfg, Step(cfg, blocked, ForeignCheck), ForeignStore);
            var drained := Step(cfg, queued, WriteEvent(Took(1)));
            drained.fins == [Fin(Open, [7])]
            && Step(cfg, drained, RunShutdownFunctor).fins == [Fin(Open, [7]), Fin(Open, [7])]
  {
    var cfg := Config(Comparison, false, false, HIGH_WATER_MARK);
    var c := Step(cfg, NEW, DoEstablish);
    var blocked := Step(cfg, c, DoSend([7], Failed(EWOULDBLOCK)));
    assert blocked.output == [] + [7] == [7];
    var queued := Step(cfg, Step(cfg, blocked, ForeignCheck), ForeignStore);
    var drained := Step(cfg, queued, WriteEvent(Took(1)));
    assert drained.wire == [] + [7] && drained.output == [];
  }

  /** Two shutdown() calls that both pass the test before either stores do the same with no backlog at
      any time, whether the second caller is another thread or the loop's own. */
  lemma RacingShutdownsTwice(cfg: Config)
    ensures var open := Step(cfg, NEW, DoEstablish);
            var one := Step(cfg, open, ForeignCheck);
            var both := Step(cfg, Step(cfg, Step(cfg, one, ForeignCheck), ForeignStore), ForeignStore);
            var mixed := Step(cfg, Step(cfg, one, DoShutdown), ForeignStore);
            |Step(cfg, Step(cfg, both, RunShutdownFunctor), RunShutdownFunctor).fins| == 2
            && |Step(cfg, mixed, RunShutdownFunctor).fins| == 2
  {
    var open := Step(cfg, NEW, DoEstablish);
    var one := Step(cfg, open, ForeignCheck);
    assert one == open.(checked := 1);
    var both := Step(cfg, Step(cfg, Step(cfg, one, ForeignCheck), ForeignStore), ForeignStore);
    assert both == open.(state := Disconnecting, stored := 2);
    var mixed := Step(cfg, Step(cfg, one, DoShutdown), ForeignStore);
    assert mixed.stored == 1 && |mixed.fins| == 1 && !mixed.writeSet;
  }

  // ----- notifications -----

  /** The functors a step queues: one when the backlog rises to the mark, one when a direct write
      takes everything or a drain empties the backlog. */
  ghost predicate NotesAre(cfg: Config, c: Conn, c': Conn, done: bool) {
    var rose := |c.output| < cfg.mark <= |c'.output|;
    c'.notes == c.notes
              + (if cfg.onHighWater && rose then [HighWater(|c'.output|)] else [])
              + (if cfg.onWriteComplete && done then [WriteComplete] else [])
  }

  lemma SendNotes(cfg: Config, c: Conn, data: seq<Byte>, k: WriteResult)
    requires Inv(cfg, c)
    ensures var c' := Send(cfg, c, data, k);
            NotesAre(cfg, c, c', c.state == Connected && c.output == [] && k.Took? && c'.output == [])
  {
  }

  lemma WriteNotes(cfg: Config, c: Conn, k: WriteResult)
    requires Inv(cfg, c) && (c.phase == Open || c.phase == Closed)
    ensures var c' := HandleWrite(cfg, c, k);
            NotesAre(cfg, c, c', c.phase == Open && c.output != [] && c'.output == [])
  {
  }

  ghost predicate Completes(c: Conn, a: Action, c': Conn) {
    c'.output == [] && ((a.DoSend? && c.state == Connected && c.output == [] && a.k.Took?)
                        || (a.WriteEvent? && c.phase == Open && c.output != []))
  }

  lemma StepNotes(cfg: Config, c: Conn, a: Action)
    requires Inv(cfg, c)
    ensures NotesAre(cfg, c, Step(cfg, c, a), Completes(c, a, Step(cfg, c, a)))
  {
    match a
    case DoSend(data, k) => SendNotes(cfg, c, data, k);
    case WriteEvent(k) =>
      if c.phase == Open || c.phase == Closed {
        WriteNotes(cfg, c, k);
      }
    case _ =>
  }

  /** A write-complete functor is queued only when the backlog is empty and the kernel holds every
      byte accepted so far; and, the callback being set, whenever a drain empties the backlog. */
  lemma WriteCompleteIsTruthful(cfg: Config, t: seq<Action>, a: Action)
    ensures var c := Run(cfg, NEW, t);
            var c' := Step(cfg, c, a);
            |c.notes| <= |c'.notes| && (WriteComplete in c'.notes[|c.notes|..] ==>
              c'.output == [] && c'.wire == Accepted(cfg, NEW, t + [a]))
    ensures var c := Run(cfg, NEW, t);
            var c' := Step(cfg, c, a);
            cfg.onWriteComplete && c.output != [] && c'.output == [] ==>
              c'.notes == c.notes + [WriteComplete]
  {
    var c := Run(cfg, NEW, t);
    var c' := Step(cfg, c, a);
    RunKeepsInv(cfg, NEW, t);
    StepNotes(cfg, c, a);
    RunSnoc(cfg, NEW, t, a);
    StreamConservation(cfg, t + [a]);
    assert c'.output == [] ==> c'.wire + c'.output == c'.wire;
    if |c'.output| < |c.output| {
      OnlyWritesDrain(cfg, c, a);
    }
  }

  lemma RunSnoc(cfg: Config, c: Conn, t: seq<Action>, a: Action)
    ensures Run(cfg, c, t + [a]) == Step(cfg, Run(cfg, c, t), a)
  {
    RunPrefix(cfg, c, t + [a], |t|);
    assert (t + [a])[..|t| + 1] == t + [a] && (t + [a])[..|t|] == t;
  }

  lemma OnlyWritesDrain(cfg: Config, c: Conn, a: Action)
    requires Inv(cfg, c) && |Step(cfg, c, a).output| < |c.output|
    ensures a.WriteEvent? && c.phase == Open
  {
  }

  ghost function HighWaterCount(notes: seq<Note>): nat {
    if notes == [] then 0
    else HighWaterCount(notes[..|notes| - 1]) + if notes[|notes| - 1].HighWater? then 1 else 0
  }

  /** Steps of a run that take the backlog from below the mark to at or above it. */
  ghost function Crossings(cfg: Config, c: Conn, t: seq<Action>): nat
    decreases |t|
  {
    if t == [] then 0
    else
      var c' := Step(cfg, c, t[0]);
      (if |c.output| < cfg.mark <= |c'.output| then 1 else 0) + Crossings(cfg, c', t[1..])
  }

  lemma StepHighWater(cfg: Config, c: Conn, a: Action)
    requires Inv(cfg, c) && cfg.onHighWater
    ensures HighWaterCount(Step(cfg, c, a).notes)
         == HighWaterCount(c.notes) + Crossings(cfg, c, [a])
  {
    var c' := Step(cfg, c, a);
    StepNotes(cfg, c, a);
    if c'.notes != c.notes {
      assert |c'.output| == 0 || !(|c.output| < cfg.mark <= |c'.output|) || |c'.notes| == |c.notes| + 1;
      assert c'.notes[..|c.notes|] == c.notes;
    }
  }

  /** High-water functors count the upward crossings of the mark. */
  lemma {:induction false} HighWaterCountsCrossings(cfg: Config, c: Conn, t: seq<Action>)
    requires Inv(cfg, c) && cfg.onHighWater
    ensures HighWaterCount(Run(cfg, c, t).notes) == HighWaterCount(c.notes) + Crossings(cfg, c, t)
    decreases |t|
  {
    if t != [] {
      StepKeepsInv(cfg, c, t[0]);
      StepHighWater(cfg, c, t[0]);
      HighWaterCountsCrossings(cfg, Step(cfg, c, t[0]), t[1..]);
    }
  }

  /** Only a write event takes the backlog below the mark. */
  ghost predicate FellBelow(cfg: Config, c: Conn, t: seq<Action>, i: nat)
    requires i < |t|
  {
    t[i].WriteEvent? && |Run(cfg, c, t[..i]).output| >= cfg.mark > |Run(cfg, c, t[..i + 1]).output|
  }

  /** Between two notifications some write event brought the backlog back below the mark. */
  lemma {:induction false} NotificationNeedsDrain(cfg: Config, c: Conn, t: seq<Action>) returns (i: nat)
    requires Inv(cfg, c) && |c.output| >= cfg.mark && Crossings(cfg, c, t) > 0
    ensures i < |t| && FellBelow(cfg, c, t, i)
    decreases |t|
  {
    var c1 := Step(cfg, c, t[0]);
    if |c1.output| < cfg.mark {
      RunPrefix(cfg, c, t, 0);
      i := 0;
    } else {
      StepKeepsInv(cfg, c, t[0]);
      var j := NotificationNeedsDrain(cfg, c1, t[1..]);
      i := j + 1;
      assert t[..i][1..] == t[1..][..j] && t[..i + 1][1..] == t[1..][..j + 1];
    }
  }

  // ----- line 75 as written -----

  /** A connection past kConnected accepts nothing more, whatever follows. */
  lemma {:induction false} NothingAcceptedAfterwards(cfg: Config, c: Conn, t: seq<Action>)
    requires Inv(cfg, c) && (c.state == Disconnecting || c.state == Disconnected)
    ensures Accepted(cfg, c, t) == []
    decreases |t|
  {
    if t != [] {
      StepKeepsInv(cfg, c, t[0]);
      NothingAcceptedAfterwards(cfg, Step(cfg, c, t[0]), t[1..]);
    }
  }

  /** As written, a connection accepts one send in its whole life: after it every send is dropped
      and every shutdown() on the loop thread is ignored. */
  lemma LiteralAcceptsOneSend(cfg: Config, c: Conn, data: seq<Byte>, k: WriteResult, t: seq<Action>)
    requires cfg.reading == Literal && Inv(cfg, c) && c.state == Connected
    ensures var a := DoSend(data, k);
            Accepted(cfg, c, [a] + t) == AcceptedBy(c, a)
            && Shutdown(Step(cfg, c, a)) == Step(cfg, c, a)
  {
    var a := DoSend(data, k);
    StepKeepsInv(cfg, c, a);
    NothingAcceptedAfterwards(cfg, Step(cfg, c, a), t);
    assert ([a] + t)[1..] == t;
  }

  /** So the two readings accept the same two sends if and only if the second is empty or a fault. */
  lemma LiteralSecondSend(cfg: Config, c: Conn, d1: seq<Byte>, k1: WriteResult, d2: seq<Byte>, k2: WriteResult)
    requires cfg.reading == Literal && Inv(cfg, c) && c.phase == Open && c.state == Connected
    ensures var t := [DoSend(d1, k1), DoSend(d2, k2)];
            var backlog := Step(cfg, c, DoSend(d1, k1)).output;
            Accepted(cfg, c, t) == AcceptedBy(c, t[0])
            && (Accepted(cfg, c, t) == Accepted(cfg.(reading := Comparison), c, t)
                <==> d2 == [] || (backlog == [] && Fault(k2)))
  {
    var cfg' := cfg.(reading := Comparison);
    var t := [DoSend(d1, k1), DoSend(d2, k2)];
    LiteralAcceptsOneSend(cfg, c, d1, k1, [DoSend(d2, k2)]);
    assert [DoSend(d1, k1)] + [DoSend(d2, k2)] == t;
    var c1 := Step(cfg', c, t[0]);
    assert t[1..] == [t[1]] && [t[1]][1..] == [];
    assert Accepted(cfg', c1, [t[1]]) == AcceptedBy(c1, t[1]) + [];
    assert |Accepted(cfg', c, t)| == |AcceptedBy(c, t[0])| + |AcceptedBy(c1, t[1])|;
  }
}
