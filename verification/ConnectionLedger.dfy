/**
 Every field of a connection, accounted for by the run alone (src/tcp_connection.cc): what the kernel
 took, what arrived and was consumed, where the connection is in its life, whether it sends, what it
 waits for and every half-close.  Each account looks at what an action is and at the state it finds,
 never at the state it leaves.
 */
module ConnectionLedger {
  import B = ByteBuffer
  import opened ConnectionSpec

  // ----- events -----

  /** End of file, a hang-up: handleClose runs. */
  predicate Closes(c: Conn, a: Action) {
    (c.phase == Open || c.phase == Closed) && (a == CloseEvent || a == ReadEvent(Got([])))
  }

  predicate Establishes(c: Conn, a: Action) {
    c.phase == Fresh && a == DoEstablish
  }

  predicate Destroys(c: Conn, a: Action) {
    c.phase != Fresh && a == DoDestroy
  }

  /** Sending ends at once: by a close, by connDestory, or, as line 75 is written, by a send. */
  predicate Cuts(cfg: Config, c: Conn, a: Action) {
    Closes(c, a) || (c.state == Connected && (Destroys(c, a) || (cfg.reading == Literal && a.DoSend?)))
  }

  /** A shutdown() that passed its test stores kDisconnecting. */
  predicate Asks(c: Conn, a: Action) {
    (a == DoShutdown && c.state == Connected) || (a == ForeignStore && c.checked > 0)
  }

  // ----- the stream -----

  /** The bytes the kernel takes during an action: at most as many as it takes of those offered, which are
      the data of a send that finds no backlog, or the backlog in a write event. */
  ghost function TakenBy(c: Conn, a: Action): seq<B.Byte> {
    match a
    case DoSend(data, Took(n)) =>
      if c.state == Connected && c.output == [] then data[..if n < |data| then n else |data|] else []
    case WriteEvent(Took(n)) =>
      if c.phase == Open then c.output[..if n < |c.output| then n else |c.output|] else []
    case _ => []
  }

  ghost function TakenInRun(cfg: Config, c: Conn, t: seq<Action>): seq<B.Byte>
    decreases |t|
  {
    if t == [] then [] else TakenBy(c, t[0]) + TakenInRun(cfg, Step(cfg, c, t[0]), t[1..])
  }

  /** sendInLoop in any state: it writes directly only with neither backlog nor write interest, and queues what
      is left, unless the write is a fault; it never touches what is queued already. */
  lemma SendInLoopSplits(cfg: Config, c: Conn, data: seq<B.Byte>, k: WriteResult)
    ensures var d := SendInLoop(cfg, c, data, k);
            var direct := !c.writeSet && c.output == [];
            var n := if direct && k.Took? then (if k.n < |data| then k.n else |data|) else 0;
            && d.wire == c.wire + data[..n]
            && d.output == c.output + (if direct && Fault(k) then [] else data[n..])
            && (d.writeSet <==> c.writeSet || d.output != c.output)
  {
    assert data[..|data|] == data && data[..0] == [] && data[|data|..] == [];
  }

  lemma StepTakes(cfg: Config, c: Conn, a: Action)
    requires Inv(cfg, c)
    ensures Step(cfg, c, a).wire == c.wire + TakenBy(c, a)
  {
    match a
    case DoSend(data, k) => assert k.Took? && k.n >= |data| ==> data[..|data|] == data;
    case _ =>
  }

  /** handleWrite and send() on the loop thread in one statement each. */
  lemma WriteStep(cfg: Config, c: Conn, k: WriteResult)
    ensures var d := HandleWrite(cfg, c, k);
            d.wire + d.output == c.wire + c.output
            && (Inv(cfg, c) && (c.phase == Open || c.phase == Closed) ==>
                  Inv(cfg, d) && d.wire == c.wire + TakenBy(c, WriteEvent(k)))
  {
    WriteConserves(cfg, c, k);
    if Inv(cfg, c) && (c.phase == Open || c.phase == Closed) {
      WriteKeepsInv(cfg, c, k);
      StepTakes(cfg, c, WriteEvent(k));
    }
  }

  lemma SendStep(cfg: Config, c: Conn, data: seq<B.Byte>, k: WriteResult)
    requires Inv(cfg, c) && c.state == Connected
    ensures SendInLoop(cfg, c, data, k).wire == c.wire + TakenBy(c, DoSend(data, k))
  {
    StepTakes(cfg, c, DoSend(data, k));
  }

  /** What has gone out on the wire is exactly what the kernel said it took, byte for byte; with
      StreamConservation this fixes the backlog too. */
  lemma {:induction false} WireIsTaken(cfg: Config, c: Conn, t: seq<Action>)
    requires Inv(cfg, c)
    ensures Run(cfg, c, t).wire == c.wire + TakenInRun(cfg, c, t)
    decreases |t|
  {
    if t != [] {
      var c1 := Step(cfg, c, t[0]);
      StepKeepsInv(cfg, c, t[0]);
      StepTakes(cfg, c, t[0]);
      WireIsTaken(cfg, c1, t[1..]);
      ConcatAssociates(c.wire, TakenBy(c, t[0]), TakenInRun(cfg, c1, t[1..]));
    }
  }

  // ----- the input -----

  ghost function ArrivedBy(c: Conn, a: Action): seq<B.Byte> {
    if a.ReadEvent? && a.r.Got? && (c.phase == Open || c.phase == Closed) then a.r.bytes else []
  }

  ghost function ArrivedInRun(cfg: Config, c: Conn, t: seq<Action>): seq<B.Byte>
    decreases |t|
  {
    if t == [] then [] else ArrivedBy(c, t[0]) + ArrivedInRun(cfg, Step(cfg, c, t[0]), t[1..])
  }

  ghost function ConsumedBy(c: Conn, a: Action): seq<B.Byte> {
    if a.DoConsume? then c.input[..if a.len < |c.input| then a.len else |c.input|] else []
  }

  ghost function ConsumedInRun(cfg: Config, c: Conn, t: seq<Action>): seq<B.Byte>
    decreases |t|
  {
    if t == [] then [] else ConsumedBy(c, t[0]) + ConsumedInRun(cfg, Step(cfg, c, t[0]), t[1..])
  }

  lemma StepInput(cfg: Config, c: Conn, a: Action)
    ensures ConsumedBy(c, a) + Step(cfg, c, a).input == c.input + ArrivedBy(c, a)
  {
  }

  /** What callbacks consumed and what waits for them are all the bytes that arrived, in order. */
  lemma {:induction false} InputIsArrived(cfg: Config, c: Conn, t: seq<Action>)
    ensures ConsumedInRun(cfg, c, t) + Run(cfg, c, t).input == c.input + ArrivedInRun(cfg, c, t)
    decreases |t|
  {
    if t != [] {
      var c1 := Step(cfg, c, t[0]);
      var rest := t[1..];
      StepInput(cfg, c, t[0]);
      InputIsArrived(cfg, c1, rest);
      calc {
        ConsumedInRun(cfg, c, t) + Run(cfg, c, t).input;
        { ConcatAssociates(ConsumedBy(c, t[0]), ConsumedInRun(cfg, c1, rest), Run(cfg, c1, rest).input); }
        ConsumedBy(c, t[0]) + (c1.input + ArrivedInRun(cfg, c1, rest));
        { ConcatAssociates(ConsumedBy(c, t[0]), c1.input, ArrivedInRun(cfg, c1, rest)); }
        c.input + ArrivedBy(c, t[0]) + ArrivedInRun(cfg, c1, rest);
        { ConcatAssociates(c.input, ArrivedBy(c, t[0]), ArrivedInRun(cfg, c1, rest)); }
        c.input + ArrivedInRun(cfg, c, t);
      }
    }
  }

  // ----- the life cycle -----

  function LifeAfter(p: Phase, a: Action): Phase {
    match a
    case DoEstablish => if p == Fresh then Open else p
    case CloseEvent => if p == Open then Closed else p
    case ReadEvent(Got(bytes)) => if p == Open && bytes == [] then Closed else p
    case DoDestroy => if p == Fresh then Fresh else Destroyed
    case _ => p
  }

  function Life(p: Phase, t: seq<Action>): Phase
    decreases |t|
  {
    if t == [] then p else Life(LifeAfter(p, t[0]), t[1..])
  }

  /** Where a connection is in its life depends on nothing but which connEstablish, hang-ups, ends of file
      and connDestory there were: no send, shutdown or other event moves it, and an end of file always
      does. */
  lemma {:induction false} LifeIsTrace(cfg: Config, c: Conn, t: seq<Action>)
    ensures Run(cfg, c, t).phase == Life(c.phase, t)
    decreases |t|
  {
    if t != [] {
      StepLife(cfg, c, t[0]);
      LifeIsTrace(cfg, Step(cfg, c, t[0]), t[1..]);
    }
  }

  lemma StepLife(cfg: Config, c: Conn, a: Action)
    ensures Step(cfg, c, a).phase == LifeAfter(c.phase, a)
  {
    match a
    case DoSend(data, k) =>
    case WriteEvent(k) =>
    case ReadEvent(r) =>
    case _ =>
  }

  /** What a read event does to an open connection: end of file, and only that, closes it, and takes away
      both interests; other bytes are appended, and a failed read changes nothing. */
  lemma EndOfFileCloses(cfg: Config, c: Conn, r: ReadResult)
    requires c.phase == Open
    ensures var d := Step(cfg, c, ReadEvent(r));
            && (d.phase == Closed <==> r == Got([]))
            && (r == Got([]) ==>
                  d.state == Disconnected && !d.readSet && !d.writeSet && d.input == c.input && d.output == c.output)
            && (r != Got([]) ==> d == c.(input := c.input + if r.Got? then r.bytes else []))
            && Step(cfg, c, CloseEvent) == Step(cfg, c, ReadEvent(Got([])))
  {
  }

  // ----- whether it sends -----

  lemma StepState(cfg: Config, c: Conn, a: Action)
    requires Inv(cfg, c)
    ensures Step(cfg, c, a).state
         == if Establishes(c, a) then Connected
            else if Cuts(cfg, c, a) then Disconnected
            else if Asks(c, a) then Disconnecting
            else c.state
  {
  }

  /** The number of times the connection began, and the number of times it stopped, to accept sends. */
  ghost function Begun(cfg: Config, c: Conn, t: seq<Action>): nat
    decreases |t|
  {
    if t == [] then 0
    else (if Establishes(c, t[0]) then 1 else 0) + Begun(cfg, Step(cfg, c, t[0]), t[1..])
  }

  ghost function Ended(cfg: Config, c: Conn, t: seq<Action>): nat
    decreases |t|
  {
    if t == [] then 0
    else (if c.state == Connected && (Cuts(cfg, c, t[0]) || Asks(c, t[0])) then 1 else 0)
         + Ended(cfg, Step(cfg, c, t[0]), t[1..])
  }

  /** A connection accepts sends exactly if it has been established and neither cut nor shut down since;
      it begins at most once, so that it ends at most once. */
  lemma {:induction false} ConnectedIff(cfg: Config, c: Conn, t: seq<Action>)
    requires Inv(cfg, c)
    ensures var r := Run(cfg, c, t);
            (if c.state == Connected then 1 else 0) + Begun(cfg, c, t)
            == Ended(cfg, c, t) + if r.state == Connected then 1 else 0
    ensures Begun(cfg, c, t) == if c.phase == Fresh && Run(cfg, c, t).phase != Fresh then 1 else 0
    decreases |t|
  {
    if t != [] {
      StepKeepsInv(cfg, c, t[0]);
      StepState(cfg, c, t[0]);
      StepLife(cfg, c, t[0]);
      StaysStarted(cfg, Step(cfg, c, t[0]), t[1..]);
      ConnectedIff(cfg, Step(cfg, c, t[0]), t[1..]);
    }
  }

  lemma {:induction false} StaysStarted(cfg: Config, c: Conn, t: seq<Action>)
    ensures c.phase != Fresh ==> Run(cfg, c, t).phase != Fresh
    decreases |t|
  {
    if t != [] {
      StepLife(cfg, c, t[0]);
      StaysStarted(cfg, Step(cfg, c, t[0]), t[1..]);
    }
  }

  // ----- what it waits for -----

  /** Reading begins with connEstablish and ends with a close or with connDestory of a connection still
      connected; once destroyed, write interest too only ever goes with that. */
  lemma StepInterest(cfg: Config, c: Conn, a: Action)
    requires Inv(cfg, c)
    ensures var d := Step(cfg, c, a);
            var silenced := Closes(c, a) || (Destroys(c, a) && c.state == Connected);
            && (d.readSet <==> Establishes(c, a) || (c.readSet && !silenced))
            && (d.phase == Closed ==> !d.readSet && !d.writeSet)
            && (d.phase == Destroyed ==> (d.writeSet <==> c.writeSet && !silenced))
  {
  }

  /** connDestory leaves an interest behind exactly if it finds the connection open and no longer
      connected: a shutdown() whose close never came. */
  lemma DestroyLeavesInterestIff(cfg: Config, c: Conn)
    requires Inv(cfg, c) && (c.phase == Open || c.phase == Closed)
    ensures var d := Step(cfg, c, DoDestroy);
            (d.readSet || d.writeSet <==> c.phase == Open && c.state != Connected)
            && d.state != Connected && d.output == c.output && d.wire == c.wire
  {
    StepInterest(cfg, c, DoDestroy);
  }

  // ----- half-closes -----

  /** Every half-close there is, in any phase: an execution of shutdownInLoop that finds write interest off
      tells the kernel after what it has taken so far, and a drain while disconnecting after all there was. */
  lemma StepFins(cfg: Config, c: Conn, a: Action)
    requires Inv(cfg, c)
    ensures Step(cfg, c, a).fins
         == c.fins
            + (if Hits(Executed, cfg, c, a) && !c.writeSet then [Fin(c.phase, c.wire)] else [])
            + (if Hits(Drained, cfg, c, a) then [Fin(c.phase, c.wire + c.output)] else [])
  {
    match a
    case WriteEvent(k) =>
      assert c.output[..|c.output|] == c.output;
      assert Step(cfg, c, a).output == [] && c.phase == Open && c.output != [] ==> Taken(k, |c.output|) == |c.output|;
    case _ =>
  }
}
