/**
 The TcpConnection object (src/tcp_connection.cc) over two real Buffers that grow exactly.  Each
 handler is proved to be the step of the same name of ConnectionSpec, so the run properties proved
 there hold of it.
 */
module TcpConnectionObject {
  import opened ByteBuffer
  import opened BufferObject
  import opened ConnectionSpec
  import opened ConnectionLedger

  class TcpConnection {
    const cfg: Config
    const input: Buffer
    const output: Buffer
    var state: ConnState
    var readSet: bool
    var writeSet: bool

    // the loop's queue of user callbacks
    var notes: seq<Note>

    // the kernel's side of the socket, and history
    var wire: seq<Byte>
    ghost var fins: seq<Fin>
    ghost var checked: nat
    ghost var stored: nat
    ghost var phase: Phase

    ghost predicate Valid()
      reads this, input, output
    {
      input.Exact() && output.Exact() && input != output && input.data != output.data
    }

    ghost function Spec(): Conn
      reads this, input, output, input.data, output.data
      requires Valid()
    {
      Conn(state, readSet, writeSet, input.Model().Contents(), output.Model().Contents(),
           wire, fins, notes, checked, stored, phase)
    }

    constructor (cfg: Config)
      ensures Valid() && this.cfg == cfg && Spec() == NEW && Inv(cfg, Spec())
      ensures fresh(input) && fresh(input.data) && fresh(output) && fresh(output.data)
    {
      var i := new Buffer(INITIAL_SIZE);
      var o := new Buffer(INITIAL_SIZE);
      this.cfg, input, output := cfg, i, o;
      state, readSet, writeSet := Connecting, false, false;
      notes, wire, fins := [], [], [];
      checked, stored, phase := 0, 0, Fresh;
    }

    method Send(data: seq<Byte>, k: WriteResult)
      requires Valid()
      modifies this, output, output.data
      ensures Valid() && (output.data == old(output.data) || fresh(output.data))
      ensures Spec() == ConnectionSpec.Send(cfg, old(Spec()), data, k)
      ensures old(Inv(cfg, Spec())) ==> Inv(cfg, Spec())
      ensures old(Inv(cfg, Spec())) ==>
                Spec().wire + Spec().output
                == old(Spec().wire + Spec().output) + AcceptedBy(old(Spec()), DoSend(data, k))
                && wire == old(wire) + TakenBy(old(Spec()), DoSend(data, k))
    {
      ghost var c := Spec();
      if state == Connected {
        SendInLoop(data, k);
      }
      if Inv(cfg, c) {
        StepKeepsInv(cfg, c, DoSend(data, k));
        StepConserves(cfg, c, DoSend(data, k));
        StepTakes(cfg, c, DoSend(data, k));
      }
    }

    method SendInLoop(data: seq<Byte>, k: WriteResult)
      requires Valid()
      modifies this, output, output.data
      ensures Valid() && (output.data == old(output.data) || fresh(output.data))
      ensures Spec() == ConnectionSpec.SendInLoop(cfg, old(Spec()), data, k)
      ensures old(Inv(cfg, Spec()) && state == Connected) ==> wire == old(wire) + TakenBy(old(Spec()), DoSend(data, k))
    {
      ghost var c := Spec();
      var wrote, remained, faultError := 0, |data|, false;
      if cfg.reading == Literal {
        state := Disconnected;
      }
      ghost var c0 := Spec();
      if !writeSet && output.writeIndex - output.readIndex == 0 {
        assert c0.output == [];
        if k.Took? {
          wrote := Taken(k, |data|);
          wire := wire + data[..wrote];
          remained := |data| - wrote;
          if remained == 0 && cfg.onWriteComplete {
            notes := notes + [WriteComplete];
          }
        } else if k.errno != EWOULDBLOCK && (k.errno == EPIPE || k.errno == ECONNRESET) {
          faultError := true;
        }
      } else {
        assert c0.writeSet || c0.output != [];
      }
      if !faultError && remained > 0 {
        assert k.Failed? || c0.writeSet || c0.output != [] ==> data[wrote..] == data;
        Enqueue(data[wrote..]);
      }
      if Inv(cfg, c) && c.state == Connected {
        SendStep(cfg, c, data, k);
      }
    }

    /** The second half of sendInLoop. */
    method Enqueue(rest: seq<Byte>)
      requires Valid()
      modifies this, output, output.data
      ensures Valid() && (output.data == old(output.data) || fresh(output.data))
      ensures Spec() == ConnectionSpec.Enqueue(cfg, old(Spec()), rest)
    {
      var backlog := output.writeIndex - output.readIndex;
      if backlog + |rest| >= cfg.mark && backlog < cfg.mark && cfg.onHighWater {
        notes := notes + [HighWater(backlog + |rest|)];
      }
      PutExact(output.Model(), rest);
      output.Put(rest, []);
      if !writeSet {
        writeSet := true;
      }
    }

    method ShutdownInLoop()
      requires Valid()
      modifies this`fins
      ensures Valid() && Spec() == ConnectionSpec.ShutdownInLoop(old(Spec()))
      ensures old(Inv(cfg, Spec())) && phase == Open ==>
                (fins != old(fins) <==> Spec().output == [])
                && (fins != old(fins) ==> |fins| == |old(fins)| + 1 && fins[|fins| - 1].sent == Spec().wire + Spec().output)
    {
      if !writeSet {
        fins := fins + [Fin(phase, wire)];
      }
      assert Spec().output == [] ==> wire + Spec().output == wire;
    }

    method Shutdown()
      requires Valid()
      modifies this
      ensures Valid() && Spec() == ConnectionSpec.Shutdown(old(Spec()))
      ensures old(Inv(cfg, Spec())) ==> Inv(cfg, Spec()) && state != Connected
      ensures old(Inv(cfg, Spec())) && old(state) == Connected ==>
                |fins| == |old(fins)| + if Spec().output == [] then 1 else 0
    {
      ghost var c := Spec();
      if state == Connected {
        state := Disconnecting;
        ShutdownInLoop();
      }
      if Inv(cfg, c) {
        StepKeepsInv(cfg, c, DoShutdown);
      }
    }

    /** Buffer::write taking `n` bytes, and the pushState that follows it. */
    method WriteOut(n: nat)
      requires Valid() && n <= output.Model().Readable()
      modifies this`wire, output`readIndex, output`writeIndex
      ensures Valid()
      ensures var c := old(Spec());
              Spec() == c.(wire := c.wire + c.output[..n], output := c.output[n..])
    {
      SliceOfSlice(output.data[..], output.readIndex, output.writeIndex, n);
      wire := wire + output.data[output.readIndex..output.readIndex + n];
      PushStateDrops(output.Model(), n);
      output.PushState(n);
    }

    method BacklogGone()
      requires Valid()
      modifies this`writeSet, this`notes, this`fins
      ensures Valid() && Spec() == ConnectionSpec.BacklogGone(cfg, old(Spec()))
    {
      writeSet := false;
      if cfg.onWriteComplete {
        notes := notes + [WriteComplete];
      }
      if state == Disconnecting {
        ShutdownInLoop();
      }
    }

    method HandleWrite(k: WriteResult)
      requires Valid()
      modifies this, output`readIndex, output`writeIndex
      ensures Valid() && Spec() == ConnectionSpec.HandleWrite(cfg, old(Spec()), k)
      ensures Spec().wire + Spec().output == old(Spec().wire + Spec().output)
      ensures old(Inv(cfg, Spec())) && (phase == Open || phase == Closed) ==>
                Inv(cfg, Spec()) && wire == old(wire) + TakenBy(old(Spec()), WriteEvent(k))
    {
      ghost var c := Spec();
      if writeSet {
        var n := Taken(k, output.writeIndex - output.readIndex);
        if n > 0 {
          WriteOut(n);
          assert |Spec().output| == output.writeIndex - output.readIndex;
          if output.writeIndex - output.readIndex == 0 {
            BacklogGone();
          }
        }
      }
      assert Spec() == ConnectionSpec.HandleWrite(cfg, c, k);
      WriteStep(cfg, c, k);
    }

    method HandleClose()
      requires Valid()
      modifies this
      ensures Valid() && Spec() == ConnectionSpec.HandleClose(old(Spec()))
      ensures old(Inv(cfg, Spec()) && (phase == Open || phase == Closed)) ==> Inv(cfg, Spec())
    {
      ghost var c := Spec();
      if Inv(cfg, c) {
        StepKeepsInv(cfg, c, CloseEvent);
      }
      state := Disconnected;
      readSet, writeSet := false, false;
      phase := Closed;
    }

    method HandleRead(r: ReadResult)
      requires Valid() && (r.Got? ==> LegalRead(input.Model(), |r.bytes|))
      modifies this, input, input.data
      ensures Valid() && (input.data == old(input.data) || fresh(input.data))
      ensures Spec() == ConnectionSpec.HandleRead(old(Spec()), r)
      ensures r == Got([]) ==>
                phase == Closed && state == Disconnected && !readSet && !writeSet && Spec().input == old(Spec().input)
      ensures r != Got([]) ==>
                phase == old(phase) && state == old(state) && readSet == old(readSet) && writeSet == old(writeSet)
                && Spec().input == old(Spec().input) + if r.Got? then r.bytes else []
      ensures Spec().output == old(Spec().output) && wire == old(wire) && fins == old(fins) && notes == old(notes)
      ensures old(Inv(cfg, Spec()) && (phase == Open || phase == Closed)) ==> Inv(cfg, Spec())
    {
      ghost var c := Spec();
      if Inv(cfg, c) {
        StepKeepsInv(cfg, c, ReadEvent(r));
      }
      match r {
        case Got(bytes) =>
          ReadExact(input.Model(), bytes);
          var n, _ := input.Read(bytes, []);
          if n == 0 {
            HandleClose();
          }
        case ReadFailed =>
      }
    }

    method ConnEstablish()
      requires Valid()
      modifies this
      ensures Valid() && Spec() == Establish(old(Spec()))
      ensures old(Inv(cfg, Spec()) && phase == Fresh) ==> Inv(cfg, Spec()) && Spec().output == [] && fins == []
    {
      ghost var c := Spec();
      if Inv(cfg, c) {
        StepKeepsInv(cfg, c, DoEstablish);
      }
      state := Connected;
      readSet := true;
      phase := Open;
    }

    method ConnDestory()
      requires Valid()
      modifies this
      ensures Valid() && Spec() == Destroy(old(Spec()))
      ensures old(Inv(cfg, Spec()) && phase != Fresh) ==> Inv(cfg, Spec()) && state != Connected
    {
      ghost var c := Spec();
      if Inv(cfg, c) {
        StepKeepsInv(cfg, c, DoDestroy);
      }
      if state == Connected {
        state := Disconnected;
        readSet, writeSet := false, false;
      }
      phase := Destroyed;
    }
  }

  /** The echo server's message callback (example/test_server.cc): everything readable is taken and
      sent back. */
  method OnMessage(conn: TcpConnection, k: WriteResult)
    requires conn.Valid()
    modifies conn, conn.input`readIndex, conn.input`writeIndex, conn.output, conn.output.data
    ensures conn.Valid() && conn.Spec().input == []
    ensures conn.Spec() == ConnectionSpec.Send(conn.cfg, old(conn.Spec()).(input := []), old(conn.Spec()).input, k)
  {
    var msg := conn.input.GetAll();
    conn.Send(msg, k);
  }
}
