/**
 The echo server of example/test_server.cc, end to end on one connection: bytes arrive in the input
 buffer, the message callback takes all of them and sends them back, and write events drain the
 backlog.  Any schedule, any partial writes; no EPIPE or ECONNRESET and no close.
 */
module Echo {
  import opened ByteBuffer
  import opened ConnectionSpec

  datatype EchoStep =
    | Arrive(bytes: seq<Byte>)      // handleRead with n > 0
    | Callback(k: WriteResult)      // onMessage: getAll, then send
    | Drain(k: WriteResult)         // handleWrite

  ghost predicate Legal(t: seq<EchoStep>) {
    forall i :: 0 <= i < |t| ==>
      match t[i]
      case Arrive(bytes) => bytes != []
      case Callback(k) => !Fault(k)
      case Drain(_) => true
  }

  function Step(cfg: Config, c: Conn, s: EchoStep): Conn {
    match s
    case Arrive(bytes) => HandleRead(c, Got(bytes))
    case Callback(k) => Send(cfg, c.(input := []), c.input, k)
    case Drain(k) => HandleWrite(cfg, c, k)
  }

  ghost function Run(cfg: Config, c: Conn, t: seq<EchoStep>): Conn
    decreases |t|
  {
    if t == [] then c else Run(cfg, Step(cfg, c, t[0]), t[1..])
  }

  ghost function Received(t: seq<EchoStep>): seq<Byte> {
    if t == [] then [] else (if t[0].Arrive? then t[0].bytes else []) + Received(t[1..])
  }

  lemma ReceivedCons(t: seq<EchoStep>)
    requires t != []
    ensures Received(t) == Received([t[0]]) + Received(t[1..])
  {
    assert [t[0]][1..] == [];
  }

  /** Delivered, then waiting to be written, then waiting for the callback. */
  ghost function Held(c: Conn): seq<Byte> {
    c.wire + c.output + c.input
  }

  ghost predicate Up(cfg: Config, c: Conn) {
    Inv(cfg, c) && c.phase == Open
  }

  lemma StepKeepsUp(cfg: Config, c: Conn, s: EchoStep)
    requires Up(cfg, c) && Legal([s])
    ensures Up(cfg, Step(cfg, c, s))
  {
    assert [s][0] == s;
    match s
    case Callback(k) => StepKeepsInv(cfg, c.(input := []), DoSend(c.input, k));
    case Drain(k) => StepKeepsInv(cfg, c, WriteEvent(k));
    case Arrive(bytes) => StepKeepsInv(cfg, c, ReadEvent(Got(bytes)));
  }

  /** One step keeps every byte unless it is a callback on a connection that no longer sends. */
  lemma StepHolds(cfg: Config, c: Conn, s: EchoStep)
    requires Up(cfg, c) && Legal([s])
    ensures s.Callback? && c.state != Connected ==> Held(Step(cfg, c, s)) == c.wire + c.output
    ensures s.Callback? && c.state != Connected ==> Held(c) == c.wire + c.output + c.input
    ensures !(s.Callback? && c.state != Connected) ==> Held(Step(cfg, c, s)) == Held(c) + Received([s])
  {
    assert [s][0] == s && [s][1..] == [];
    match s
    case Arrive(bytes) =>
      ConcatAssociates(c.wire + c.output, c.input, bytes);
    case Callback(k) =>
      if c.state == Connected {
        SendConserves(cfg, c.(input := []), c.input, k);
      }
    case Drain(k) =>
      WriteConserves(cfg, c, k);
  }

  /** With line 75 read as a comparison nothing is lost, duplicated or reordered. */
  lemma {:induction false} EchoConserves(cfg: Config, c: Conn, t: seq<EchoStep>)
    requires cfg.reading == Comparison && Up(cfg, c) && c.state == Connected && Legal(t)
    ensures Run(cfg, c, t).state == Connected
    ensures Held(Run(cfg, c, t)) == Held(c) + Received(t)
    decreases |t|
  {
    if t != [] {
      assert Legal([t[0]]) by { assert [t[0]][0] == t[0]; }
      StepKeepsUp(cfg, c, t[0]);
      StepHolds(cfg, c, t[0]);
      EchoConserves(cfg, Step(cfg, c, t[0]), t[1..]);
      ReceivedCons(t);
      ConcatAssociates(Held(c), Received([t[0]]), Received(t[1..]));
    }
  }

  lemma EchoEndToEnd(cfg: Config, t: seq<EchoStep>)
    requires cfg.reading == Comparison && Legal(t)
    ensures Held(Run(cfg, Establish(NEW), t)) == Received(t)
  {
    StepKeepsInv(cfg, NEW, DoEstablish);
    EchoConserves(cfg, Establish(NEW), t);
  }

  lemma {:induction false} RunConcat(cfg: Config, c: Conn, t: seq<EchoStep>, u: seq<EchoStep>)
    ensures Run(cfg, c, t + u) == Run(cfg, Run(cfg, c, t), u)
    decreases |t|
  {
    if t == [] {
      assert t + u == u;
    } else {
      assert (t + u)[1..] == t[1..] + u;
      RunConcat(cfg, Step(cfg, c, t[0]), t[1..], u);
    }
  }

  /** A drain that finds room for the whole backlog empties it. */
  lemma DrainEmpties(cfg: Config, c: Conn, n: nat)
    requires Up(cfg, c) && |c.output| <= n
    ensures Step(cfg, c, Drain(Took(n))).output == [] && Step(cfg, c, Drain(Took(n))).input == c.input
  {
  }

  /** What a callback and a drain with room make of a connected connection. */
  lemma CallbackAndDrain(cfg: Config, c: Conn, k: WriteResult, n: nat)
    requires cfg.reading == Comparison && Up(cfg, c) && c.state == Connected && !Fault(k)
    requires |Step(cfg, c, Callback(k)).output| <= n
    ensures Step(cfg, Step(cfg, c, Callback(k)), Drain(Took(n))).wire == Held(c)
  {
    var called := Step(cfg, c, Callback(k));
    var drained := Step(cfg, called, Drain(Took(n)));
    assert Legal([Callback(k)]);
    StepKeepsUp(cfg, c, Callback(k));
    SendConserves(cfg, c.(input := []), c.input, k);
    WriteConserves(cfg, called, Took(n));
    DrainEmpties(cfg, called, n);
    assert drained.wire + [] == drained.wire;
  }

  /** And it comes back: after any schedule, one more callback and one drain that finds room have sent back
      exactly what was received. */
  lemma EchoDelivers(cfg: Config, t: seq<EchoStep>, k: WriteResult, n: nat)
    requires cfg.reading == Comparison && Legal(t) && !Fault(k)
    requires |Step(cfg, Run(cfg, Establish(NEW), t), Callback(k)).output| <= n
    ensures Run(cfg, Establish(NEW), t + [Callback(k), Drain(Took(n))]).wire == Received(t)
  {
    StepKeepsInv(cfg, NEW, DoEstablish);
    EchoConserves(cfg, Establish(NEW), t);
    RunKeepsUp(cfg, Establish(NEW), t);
    var c := Run(cfg, Establish(NEW), t);
    CallbackAndDrain(cfg, c, k, n);
    RunConcat(cfg, Establish(NEW), t, [Callback(k), Drain(Took(n))]);
    TwoSteps(cfg, c, Callback(k), Drain(Took(n)));
  }

  lemma TwoSteps(cfg: Config, c: Conn, a: EchoStep, b: EchoStep)
    ensures Run(cfg, c, [a, b]) == Step(cfg, Step(cfg, c, a), b)
  {
    var c1 := Step(cfg, c, a);
    assert [a, b][1..] == [b] && [b][1..] == [];
    assert Run(cfg, Step(cfg, c1, b), []) == Step(cfg, c1, b);
    assert Run(cfg, c1, [b]) == Step(cfg, c1, b);
  }

  lemma {:induction false} RunKeepsUp(cfg: Config, c: Conn, t: seq<EchoStep>)
    requires Up(cfg, c) && Legal(t)
    ensures Up(cfg, Run(cfg, c, t))
    decreases |t|
  {
    if t != [] {
      assert Legal([t[0]]) by { assert [t[0]][0] == t[0]; }
      StepKeepsUp(cfg, c, t[0]);
      RunKeepsUp(cfg, Step(cfg, c, t[0]), t[1..]);
    }
  }

  /** Bytes picked up by every callback but the first; `pending` are those already waiting. */
  ghost function LaterMessages(t: seq<EchoStep>, pending: nat, first: bool): nat {
    if t == [] then 0
    else match t[0]
      case Arrive(bytes) => LaterMessages(t[1..], pending + |bytes|, first)
      case Callback(_) => (if first then 0 else pending) + LaterMessages(t[1..], 0, false)
      case Drain(_) => LaterMessages(t[1..], pending, first)
  }

  lemma LiteralStep(cfg: Config, c: Conn, s: EchoStep, first: bool)
    requires cfg.reading == Literal && Up(cfg, c) && Legal([s])
    requires c.state == if first then Connected else Disconnected
    ensures var c1 := Step(cfg, c, s);
            var lost := if s.Callback? && !first then |c.input| else 0;
            Up(cfg, c1) && c1.state == (if first && !s.Callback? then Connected else Disconnected)
            && |Held(c1)| + lost == |Held(c)| + |Received([s])|
            && (lost == 0 ==> Held(c1) == Held(c) + Received([s]))
    ensures |Step(cfg, c, s).input|
         == match s case Arrive(bytes) => |c.input| + |bytes| case Callback(_) => 0 case Drain(_) => |c.input|
  {
    assert [s][0] == s && [s][1..] == [];
    StepKeepsUp(cfg, c, s);
    StepHolds(cfg, c, s);
    if s.Callback? && !first {
      assert c.input == [] ==> Held(c) == c.wire + c.output;
    }
  }

  lemma {:induction false} LiteralLoses(cfg: Config, c: Conn, t: seq<EchoStep>, first: bool)
    requires cfg.reading == Literal && Up(cfg, c) && Legal(t)
    requires c.state == if first then Connected else Disconnected
    ensures |Held(Run(cfg, c, t))| + LaterMessages(t, |c.input|, first) == |Held(c)| + |Received(t)|
    ensures LaterMessages(t, |c.input|, first) == 0 ==> Held(Run(cfg, c, t)) == Held(c) + Received(t)
    decreases |t|
  {
    if t != [] {
      assert Legal([t[0]]) by { assert [t[0]][0] == t[0]; }
      LiteralStep(cfg, c, t[0], first);
      LiteralLoses(cfg, Step(cfg, c, t[0]), t[1..], first && !t[0].Callback?);
      ReceivedCons(t);
      ConcatAssociates(Held(c), Received([t[0]]), Received(t[1..]));
    }
  }

  /** As line 75 is written, the echo is complete if and only if only the first callback ever has
      anything to send back. */
  lemma LiteralEchoIff(cfg: Config, t: seq<EchoStep>)
    requires cfg.reading == Literal && Legal(t)
    ensures Held(Run(cfg, Establish(NEW), t)) == Received(t) <==> LaterMessages(t, 0, true) == 0
  {
    StepKeepsInv(cfg, NEW, DoEstablish);
    LiteralLoses(cfg, Establish(NEW), t, true);
  }

  lemma TwoMessages(a: Byte, b: Byte, k: WriteResult)
    ensures Received([Arrive([a]), Callback(k), Arrive([b]), Callback(k)]) == [a, b]
  {
    var t := [Arrive([a]), Callback(k), Arrive([b]), Callback(k)];
    assert t[1..] == [Callback(k), Arrive([b]), Callback(k)];
    assert t[1..][1..] == [Arrive([b]), Callback(k)];
    assert t[1..][1..][1..] == [Callback(k)];
    assert t[1..][1..][1..][1..] == [];
    assert Received(t[1..][1..][1..]) == [] + [];
    assert Received(t[1..][1..]) == [b] + [];
    assert Received(t[1..]) == [] + [b];
    assert Received(t) == [a] + [b];
  }

  /** What one message does to a connection that is connected, or that line 75 has marked. */
  lemma LiteralMessage(cfg: Config, c: Conn, b: Byte)
    requires cfg.reading == Literal && c.phase == Open && !c.writeSet && c.output == [] && c.input == []
    ensures var r := Step(cfg, Step(cfg, c, Arrive([b])), Callback(Took(1)));
            c.state == Connected ==> r.wire == c.wire + [b] && r.output == [] && r.input == []
                                     && !r.writeSet && r.phase == Open && r.state == Disconnected
    ensures var r := Step(cfg, Step(cfg, c, Arrive([b])), Callback(Took(1)));
            c.state == Disconnected ==> r == c
  {
    var arrived := Step(cfg, c, Arrive([b]));
    assert arrived.input == [] + [b] == [b];
    assert [b][..1] == [b];
  }

  /** Two one-byte messages suffice: the second is received and never seen again. */
  lemma LiteralEchoLosesSecondMessage(cfg: Config)
    requires cfg.reading == Literal
    ensures var first := Step(cfg, Step(cfg, Establish(NEW), Arrive([1])), Callback(Took(1)));
            var second := Step(cfg, Step(cfg, first, Arrive([2])), Callback(Took(1)));
            Held(second) == [1]
            && Received([Arrive([1]), Callback(Took(1)), Arrive([2]), Callback(Took(1))]) == [1, 2]
  {
    TwoMessages(1, 2, Took(1));
    LiteralMessage(cfg, Establish(NEW), 1);
    var first := Step(cfg, Step(cfg, Establish(NEW), Arrive([1])), Callback(Took(1)));
    LiteralMessage(cfg, first, 2);
  }
}
