/**
 A connection (src/tcp_connection.cc) whose output buffer is the storage of src/buffer.cc with whatever
 growth the vector chooses, instead of an ideal queue: exactly when the stream survives it.
 */
module GrowingStream {
  import opened ConnectionSpec
  import B = ByteBuffer

  /** An action and, should its put reallocate, the uninitialised tail the vector gets. */
  datatype SlackAction = SlackAction(action: Action, slack: seq<B.Byte>)

  /** The backlog is what the buffer holds. */
  ghost predicate Holds(c: Conn, b: B.Buf) {
    b.Valid() && c.output == b.Contents()
  }

  /** What a step asks of the output buffer: put() of what sendInLoop has left over, pushState() of what
      handleWrite got rid of. */
  ghost function OutputOp(cfg: Config, c: Conn, x: SlackAction): seq<B.SlackOp> {
    var c' := Step(cfg, c, x.action);
    if |c.output| < |c'.output| then [B.SlackOp(B.OpPut(c'.output[|c.output|..]), x.slack)]
    else if |c'.output| < |c.output| then [B.SlackOp(B.OpPushState(|c.output| - |c'.output|), x.slack)]
    else []
  }

  ghost function BufferStep(cfg: Config, c: Conn, b: B.Buf, x: SlackAction): (r: B.Buf)
    requires Holds(c, b)
    ensures r.Valid()
  {
    var ops := OutputOp(cfg, c, x);
    if ops == [] then b else B.ApplySlack(b, ops[0]).buf
  }

  /** The step of ConnectionSpec, with the backlog the buffer really holds afterwards. */
  ghost function GrowingStep(cfg: Config, c: Conn, b: B.Buf, x: SlackAction): (r: Conn)
    requires Holds(c, b)
    ensures Holds(r, BufferStep(cfg, c, b, x))
  {
    Step(cfg, c, x.action).(output := BufferStep(cfg, c, b, x).Contents())
  }

  /** At every point of the run, what the kernel took and the backlog are `sent` and the sends
      accepted since. */
  ghost predicate StreamThroughout(cfg: Config, c: Conn, b: B.Buf, sent: seq<B.Byte>, xs: seq<SlackAction>)
    requires Holds(c, b)
    decreases |xs|
  {
    c.wire + c.output == sent
    && (xs == [] || StreamThroughout(cfg, GrowingStep(cfg, c, b, xs[0]), BufferStep(cfg, c, b, xs[0]),
                                     sent + AcceptedBy(c, xs[0].action), xs[1..]))
  }

  /** All operations of a run on the output buffer. */
  ghost function OutputOps(cfg: Config, c: Conn, b: B.Buf, xs: seq<SlackAction>): seq<B.SlackOp>
    requires Holds(c, b)
    decreases |xs|
  {
    if xs == [] then []
    else OutputOp(cfg, c, xs[0])
         + OutputOps(cfg, GrowingStep(cfg, c, b, xs[0]), BufferStep(cfg, c, b, xs[0]), xs[1..])
  }

  /** A step changes the backlog at one end only. */
  lemma StepIsQueueOp(cfg: Config, c: Conn, a: Action)
    ensures var q := Step(cfg, c, a).output;
            if |c.output| < |q| then q == c.output + q[|c.output|..] else q == c.output[|c.output| - |q|..]
  {
    match a
    case DoSend(data, k) =>
      var q := Step(cfg, c, a).output;
      assert |q| > |c.output| ==> q[..|c.output|] == c.output;
    case WriteEvent(k) =>
    case _ =>
  }

  /** The buffer keeps up with the step exactly if its operation is harmless. */
  lemma KeepsUpIff(cfg: Config, c: Conn, b: B.Buf, x: SlackAction)
    requires Holds(c, b)
    ensures var ops := OutputOp(cfg, c, x);
            GrowingStep(cfg, c, b, x) == Step(cfg, c, x.action) <==> ops == [] || B.Harmless(b, ops[0].op)
  {
    StepIsQueueOp(cfg, c, x.action);
    var ops := OutputOp(cfg, c, x);
    if ops != [] {
      B.SlackStepIff(b, ops[0]);
      var q := Step(cfg, c, x.action).output;
      assert q == B.QueueApply(c.output, ops[0].op).0;
    }
  }

  /** However the vector grows, the stream is conserved throughout a run if and only if every operation
      the run makes on the output buffer is harmless where it is made. */
  lemma {:induction false} StreamSurvivesIff(cfg: Config, c: Conn, b: B.Buf, xs: seq<SlackAction>)
    requires Inv(cfg, c) && Holds(c, b)
    ensures StreamThroughout(cfg, c, b, c.wire + c.output, xs) <==> B.HarmlessThroughout(b, OutputOps(cfg, c, b, xs))
    decreases |xs|
  {
    if xs != [] {
      var c', b' := GrowingStep(cfg, c, b, xs[0]), BufferStep(cfg, c, b, xs[0]);
      var ideal := Step(cfg, c, xs[0].action);
      var ops, rest := OutputOp(cfg, c, xs[0]), OutputOps(cfg, c', b', xs[1..]);
      StepConserves(cfg, c, xs[0].action);
      KeepsUpIff(cfg, c, b, xs[0]);
      if ops == [] || B.Harmless(b, ops[0].op) {
        StepKeepsInv(cfg, c, xs[0].action);
        StreamSurvivesIff(cfg, c', b', xs[1..]);
        assert ops != [] ==> (ops + rest)[0] == ops[0] && (ops + rest)[1..] == rest;
        assert ops == [] ==> ops + rest == rest;
      } else {
        assert c'.output != ideal.output;
        SameTail(c'.wire, c'.output, ideal.output);
        assert (ops + rest)[0] == ops[0];
      }
    }
  }

  lemma SameTail(x: seq<B.Byte>, y: seq<B.Byte>, z: seq<B.Byte>)
    ensures x + y == x + z ==> y == z
  {
    assert y == (x + y)[|x|..] && z == (x + z)[|x|..];
  }

  /** In particular from a new connection. */
  lemma GrowingStreamConservedIff(cfg: Config, xs: seq<SlackAction>)
    ensures var b := B.New(B.INITIAL_SIZE);
            StreamThroughout(cfg, NEW, b, [], xs) <==> B.HarmlessThroughout(b, OutputOps(cfg, NEW, b, xs))
  {
    StreamSurvivesIff(cfg, NEW, B.New(B.INITIAL_SIZE), xs);
  }
}
