/**
 Runs that show the exceptions in Lifetime to be real.  All of them begin with a server of two loops that
 accepts connection 7 for the second one and is destroyed while that loop is still in the batch that ran
 connEstablish.
 */
module LifetimeWitnesses {
  import Registry
  import opened Ownership
  import opened Lifetime

  /** A server of two loops with connection 7 on the second. */
  function With(base: Phase, io: LoopState, r: ConnRec, table: set<ConnId>, dying: bool): Server {
    Server([NewLoop().(phase := base), io], map[7 := r], table, multiset{}, dying, {}, {})
  }

  function Io(phase: Phase, todo: seq<Functor>, batch: nat, held: set<ConnId>, kernel: set<ConnId>): LoopState {
    LoopState(phase, todo, batch, held, [], None, kernel, {})
  }

  const READY := ConnRec(1, Registry.Added, true, false, true, true, false, false, false, 0)
  const GONE := ConnRec(1, Registry.Initialized, false, false, false, true, true, false, false, 0)
  const BACK := ConnRec(1, Registry.Added, false, true, false, true, true, false, true, 0)
  const DRAINED := ConnRec(1, Registry.Removed, false, false, false, true, true, false, true, 1)

  /** The second loop is in the batch that ran connEstablish, and its connDestory is queued behind it. */
  function Doomed(): Server {
    With(Polling, Io(Running, [Destroy(7)], 0, {7}, {7}), READY, {}, true)
  }

  ghost predicate Leads(s: Server, t: seq<Action>, r: Server) {
    0 < |s.loops| && Run(s, t) == r
  }

  lemma Then(s: Server, t: seq<Action>, r: Server, u: seq<Action>, q: Server)
    requires Leads(s, t, r) && Leads(r, u, q)
    ensures Leads(s, t + u, q)
  {
    RunSplits(s, t, u);
  }

  /** While something owns connection 7 a step frees nothing. */
  lemma Steady(s: Server, a: Action, base: Phase, io: LoopState, r: ConnRec, table: set<ConnId>, dying: bool)
    requires 0 < |s.loops| && Enabled(s, a) && Apply(s, a) == With(base, io, r, table, dying)
    requires 7 in table || Destroy(7) in io.todo || 7 in io.held
    ensures Step(s, a) == With(base, io, r, table, dying)
  {
    var t := With(base, io, r, table, dying);
    assert LoopOwns(io, 7) ==> LoopOwns(t.loops[1], 7);
    assert (set c | c in t.conns && !Owned(t, c)) == {};
  }

  function Opening(): seq<Action> { [PollReturn(0, []), Accept(7, 1), PollReturn(1, [])] }

  lemma AfterOpening()
    ensures Leads(New(2), Opening(), With(Dispatching, Io(Dispatching, [Establish(7)], 0, {}, {}), NewConn(1), {7}, false))
  {
    var s1 := New(2).(loops := [NewLoop().(phase := Dispatching), NewLoop()]);
    assert Apply(New(2), PollReturn(0, [])).loops == s1.loops;
    assert Step(New(2), PollReturn(0, [])) == s1;
    var s2 := With(Dispatching, Io(Polling, [Establish(7)], 0, {}, {}), NewConn(1), {7}, false);
    assert Apply(s1, Accept(7, 1)) == s2 by {
      assert s1.loops[1].todo + [Establish(7)] == [Establish(7)];
      assert Apply(s1, Accept(7, 1)).loops == s2.loops;
    }
    Steady(s1, Accept(7, 1), Dispatching, s2.loops[1], NewConn(1), {7}, false);
    Steady(s2, PollReturn(1, []), Dispatching, Io(Dispatching, [Establish(7)], 0, {}, {}), NewConn(1), {7}, false);
  }

  function Establishing(): seq<Action> { [SwapQueue(1), RunNext(1, false), SwapQueue(0)] }

  lemma AfterEstablishing()
    ensures Leads(With(Dispatching, Io(Dispatching, [Establish(7)], 0, {}, {}), NewConn(1), {7}, false),
                  Establishing(), With(Running, Io(Running, [], 0, {7}, {7}), READY, {7}, false))
  {
    var s := With(Dispatching, Io(Dispatching, [Establish(7)], 0, {}, {}), NewConn(1), {7}, false);
    var s1 := With(Dispatching, Io(Running, [Establish(7)], 1, {}, {}), NewConn(1), {7}, false);
    Steady(s, SwapQueue(1), Dispatching, s1.loops[1], NewConn(1), {7}, false);
    var s2 := With(Dispatching, Io(Running, [], 0, {7}, {7}), READY, {7}, false);
    assert Apply(s1, RunNext(1, false)) == s2 by {
      assert Pop(s1, 1).loops[1] == Io(Running, [], 0, {7}, {});
      assert Apply(s1, RunNext(1, false)).loops == s2.loops;
    }
    Steady(s1, RunNext(1, false), Dispatching, s2.loops[1], READY, {7}, false);
    Steady(s2, SwapQueue(0), Running, s2.loops[1], READY, {7}, false);
  }

  function Closing(): seq<Action> { [EndBatch(0), BeginDestructor, DestructNext(7)] }

  lemma AfterClosing()
    ensures Leads(With(Running, Io(Running, [], 0, {7}, {7}), READY, {7}, false), Closing(), Doomed())
  {
    var io := Io(Running, [], 0, {7}, {7});
    Steady(With(Running, io, READY, {7}, false), EndBatch(0), Polling, io, READY, {7}, false);
    Steady(With(Polling, io, READY, {7}, false), BeginDestructor, Polling, io, READY, {7}, true);
    var s := With(Polling, io, READY, {7}, true);
    assert Apply(s, DestructNext(7)) == Doomed() by {
      assert io.todo + [Destroy(7)] == [Destroy(7)];
      assert Apply(s, DestructNext(7)).loops == Doomed().loops;
    }
    Steady(s, DestructNext(7), Polling, Doomed().loops[1], READY, {}, true);
  }

  /** A server of two loops accepts a connection for the second one and is destroyed while that loop is
      still in the batch that ran connEstablish. */
  function Teardown(): seq<Action> {
    Opening() + Establishing() + Closing()
  }

  lemma AfterTeardown()
    ensures Leads(New(2), Teardown(), Doomed())
  {
    AfterOpening();
    AfterEstablishing();
    AfterClosing();
    Then(New(2), Opening(), With(Dispatching, Io(Dispatching, [Establish(7)], 0, {}, {}), NewConn(1), {7}, false),
         Establishing(), With(Running, Io(Running, [], 0, {7}, {7}), READY, {7}, false));
    Then(New(2), Opening() + Establishing(), With(Running, Io(Running, [], 0, {7}, {7}), READY, {7}, false),
         Closing(), Doomed());
  }

  /** How connection 7 ends. */
  ghost predicate FreedRegistered(s: Server, destroyed: bool) {
    7 in s.freed && 7 in s.conns && s.conns[7].destroyed == destroyed && 1 < |s.loops| && 7 in s.loops[1].kernel
  }

  function Quitting(): seq<Action> { [EndBatch(1), StopLoop(1), DropLoop(1)] }

  lemma AfterQuitting()
    ensures FreedRegistered(Run(Doomed(), Quitting()), false)
  {
    var io1 := Io(Polling, [Destroy(7)], 0, {}, {7});
    Steady(Doomed(), EndBatch(1), Polling, io1, READY, {}, true);
    var io2 := Io(Stopped, [Destroy(7)], 0, {}, {7}).(atStop := {7});
    Steady(With(Polling, io1, READY, {}, true), StopLoop(1), Polling, io2, READY, {}, true);
    var s := Apply(With(Polling, io2, READY, {}, true), DropLoop(1));
    assert !Owned(s, 7);
    assert Run(Doomed(), Quitting()) == Collect(s);
  }

  /** The destructor goes on to stop the second loop before it runs connDestory: the connection is freed,
      connDestory has not run and never will, and the channel is still registered. */
  lemma QuitAbandonsDestroy()
    ensures FreedRegistered(Run(New(2), Teardown() + Quitting()), false)
  {
    AfterTeardown();
    AfterQuitting();
    Then(New(2), Teardown(), Doomed(), Quitting(), Run(Doomed(), Quitting()));
  }

  function Sending(): seq<Action> { [QueueRaw(RawSend(7)), EndBatch(1), PollReturn(1, []), SwapQueue(1)] }

  lemma SendIsQueued()
    ensures Enabled(Doomed(), QueueRaw(RawSend(7)))
    ensures Apply(Doomed(), QueueRaw(RawSend(7)))
         == With(Polling, Io(Running, [Destroy(7), RawSend(7)], 0, {7}, {7}), READY, {}, true)
  {
    var q := [Destroy(7), RawSend(7)];
    assert Owned(Doomed(), 7) by { assert LoopOwns(Doomed().loops[1], 7); }
    assert Doomed().loops[1].todo + [RawSend(7)] == q;
    assert Apply(Doomed(), QueueRaw(RawSend(7))).loops
        == With(Polling, Io(Running, q, 0, {7}, {7}), READY, {}, true).loops;
  }

  lemma AfterSending()
    ensures Leads(Doomed(), Sending(), With(Polling, Io(Running, [Destroy(7), RawSend(7)], 2, {}, {7}), READY, {}, true))
  {
    var q := [Destroy(7), RawSend(7)];
    var io1 := Io(Running, q, 0, {7}, {7});
    SendIsQueued();
    Steady(Doomed(), QueueRaw(RawSend(7)), Polling, io1, READY, {}, true);
    var io2 := Io(Polling, q, 0, {}, {7});
    Steady(With(Polling, io1, READY, {}, true), EndBatch(1), Polling, io2, READY, {}, true);
    var io3 := Io(Dispatching, q, 0, {}, {7});
    Steady(With(Polling, io2, READY, {}, true), PollReturn(1, []), Polling, io3, READY, {}, true);
    Steady(With(Polling, io3, READY, {}, true), SwapQueue(1), Polling, Io(Running, q, 2, {}, {7}), READY, {}, true);
  }

  function SendingLate(): seq<Action> { [RunNext(1, false), RunNext(1, true)] }

  /** A raw send has run after connDestory, and the batch still holds the connection. */
  function Revived(): Server {
    With(Polling, Io(Running, [], 0, {7}, {7}), BACK, {}, true)
  }

  lemma DestroyRuns(batch: nat)
    requires batch == 1 || batch == 2
    ensures var s := With(Polling, Io(Running, [Destroy(7), RawSend(7)], batch, {}, {7}), READY, {}, true);
            Enabled(s, RunNext(1, false))
            && Apply(s, RunNext(1, false)) == With(Polling, Io(Running, [RawSend(7)], batch - 1, {7}, {}), GONE, {}, true)
  {
    var s := With(Polling, Io(Running, [Destroy(7), RawSend(7)], batch, {}, {7}), READY, {}, true);
    var r := With(Polling, Io(Running, [RawSend(7)], batch - 1, {7}, {}), GONE, {}, true);
    var p := Pop(s, 1);
    assert p.loops[1] == Io(Running, [RawSend(7)], batch - 1, {7}, {7});
    var d := DisableAll(LeaveConnected(p, 7), 7);
    assert d.loops[1] == Io(Running, [RawSend(7)], batch - 1, {7}, {});
    assert d.loops[1].kernel - {7} == {};
    assert RemoveChannel(d, 7).loops[1] == r.loops[1];
    assert RemoveChannel(d, 7).loops == r.loops;
  }

  lemma LateSendRuns()
    ensures var s := With(Polling, Io(Running, [RawSend(7)], 1, {7}, {}), GONE, {}, true);
            Enabled(s, RunNext(1, true))
            && Apply(s, RunNext(1, true)) == With(Polling, Io(Running, [], 0, {7}, {7}), BACK, {}, true)
  {
    var s := With(Polling, Io(Running, [RawSend(7)], 1, {7}, {}), GONE, {}, true);
    var p := Pop(s, 1);
    assert p.loops[1] == Io(Running, [], 0, {7}, {});
    assert p.loops[1].kernel + {7} == {7};
    assert KeepBacklog(p, 7).loops[1] == Io(Running, [], 0, {7}, {7});
    assert Apply(s, RunNext(1, true)).loops == With(Polling, Io(Running, [], 0, {7}, {7}), BACK, {}, true).loops;
  }

  lemma AfterSendingLate()
    ensures Leads(With(Polling, Io(Running, [Destroy(7), RawSend(7)], 2, {}, {7}), READY, {}, true),
                  SendingLate(), Revived())
  {
    var s0 := With(Polling, Io(Running, [Destroy(7), RawSend(7)], 2, {}, {7}), READY, {}, true);
    var s1 := With(Polling, Io(Running, [RawSend(7)], 1, {7}, {}), GONE, {}, true);
    DestroyRuns(2);
    Steady(s0, RunNext(1, false), Polling, s1.loops[1], GONE, {}, true);
    LateSendRuns();
    Steady(s1, RunNext(1, true), Polling, Revived().loops[1], BACK, {}, true);
  }

  function Reviving(): seq<Action> {
    Teardown() + (Sending() + SendingLate())
  }

  lemma AfterReviving()
    ensures Leads(New(2), Reviving(), Revived())
  {
    AfterTeardown();
    AfterSending();
    AfterSendingLate();
    var s := With(Polling, Io(Running, [Destroy(7), RawSend(7)], 2, {}, {7}), READY, {}, true);
    Then(Doomed(), Sending(), s, SendingLate(), Revived());
    Then(New(2), Teardown(), Doomed(), Sending() + SendingLate(), Revived());
  }

  lemma AfterBatch()
    ensures FreedRegistered(Run(Revived(), [EndBatch(1)]), true)
  {
    var s := Apply(Revived(), EndBatch(1));
    assert !Owned(s, 7);
    assert Run(Revived(), [EndBatch(1)]) == Collect(s);
  }

  /** Another thread's send() comes between the destructor's push and connDestory: it runs after it, and
      the connection is freed with its channel registered again. */
  lemma LateSendRegistersFreed()
    ensures FreedRegistered(Run(New(2), Reviving() + [EndBatch(1)]), true)
  {
    AfterReviving();
    AfterBatch();
    Then(New(2), Reviving(), Revived(), [EndBatch(1)], Run(Revived(), [EndBatch(1)]));
  }

  // ----- unless the backlog drains first -----

  /** User code keeps connection 7; the second loop is in its round. */
  function Kept(io: LoopState, r: ConnRec): Server {
    With(Polling, io, r, {}, true).(userRefs := multiset{7})
  }

  lemma SteadyKept(s: Server, a: Action, io: LoopState, r: ConnRec)
    requires 0 < |s.loops| && Enabled(s, a) && Apply(s, a) == Kept(io, r)
    ensures Step(s, a) == Kept(io, r)
  {
    var t := Kept(io, r);
    assert (set c | c in t.conns && !Owned(t, c)) == {};
  }

  function Keeping(): seq<Action> { [UserKeep(7), EndBatch(1), PollReturn(1, [7]), BeginHandler(1)] }

  lemma AfterKeeping()
    ensures Leads(Revived(), Keeping(), Kept(Io(Dispatching, [], 0, {}, {7}).(guard := Some(7)), BACK))
  {
    assert LoopOwns(Revived().loops[1], 7);
    SteadyKept(Revived(), UserKeep(7), Io(Running, [], 0, {7}, {7}), BACK);
    SteadyKept(Kept(Io(Running, [], 0, {7}, {7}), BACK), EndBatch(1), Io(Polling, [], 0, {}, {7}), BACK);
    var io := Io(Dispatching, [], 0, {}, {7});
    SteadyKept(Kept(Io(Polling, [], 0, {}, {7}), BACK), PollReturn(1, [7]), io.(active := [7]), BACK);
    assert [7][1..] == [];
    assert Apply(Kept(io.(active := [7]), BACK), BeginHandler(1)).loops == Kept(io.(guard := Some(7)), BACK).loops;
    SteadyKept(Kept(io.(active := [7]), BACK), BeginHandler(1), io.(guard := Some(7)), BACK);
  }

  function Draining(): seq<Action> { [Drain(1), EndHandler(1), UserDrop(7)] }

  lemma DrainRuns()
    ensures var s := Kept(Io(Dispatching, [], 0, {}, {7}).(guard := Some(7)), BACK);
            Enabled(s, Drain(1))
            && Apply(s, Drain(1)) == Kept(Io(Dispatching, [], 0, {}, {}).(guard := Some(7)), DRAINED)
  {
    var s := Kept(Io(Dispatching, [], 0, {}, {7}).(guard := Some(7)), BACK);
    assert s.loops[1].kernel - {7} == {};
    assert Apply(s, Drain(1)).loops == Kept(Io(Dispatching, [], 0, {}, {}).(guard := Some(7)), DRAINED).loops;
  }

  lemma AfterDraining()
    ensures var s := Run(Kept(Io(Dispatching, [], 0, {}, {7}).(guard := Some(7)), BACK), Draining());
            7 in s.freed && 7 in s.conns && s.conns[7] == DRAINED && |s.loops| == 2
            && 7 !in s.loops[0].kernel && 7 !in s.loops[1].kernel
  {
    var s0 := Kept(Io(Dispatching, [], 0, {}, {7}).(guard := Some(7)), BACK);
    var io := Io(Dispatching, [], 0, {}, {});
    DrainRuns();
    SteadyKept(s0, Drain(1), io.(guard := Some(7)), DRAINED);
    SteadyKept(Kept(io.(guard := Some(7)), DRAINED), EndHandler(1), io, DRAINED);
    var s := Apply(Kept(io, DRAINED), UserDrop(7));
    assert !Owned(s, 7);
    assert Run(s0, Draining()) == Collect(s);
  }

  /** A late send registers the channel for writing alone, so that the write event that drains its bytes
      takes it out again: the connection, kept a little longer by user code, is freed unregistered. */
  lemma DrainedSendFreesUnregistered()
    ensures var s := Run(New(2), Reviving() + (Keeping() + Draining()));
            7 in s.freed && 7 in s.conns && s.conns[7] == DRAINED && |s.loops| == 2
            && 7 !in s.loops[0].kernel && 7 !in s.loops[1].kernel
  {
    AfterReviving();
    AfterKeeping();
    AfterDraining();
    var s := Kept(Io(Dispatching, [], 0, {}, {7}).(guard := Some(7)), BACK);
    Then(Revived(), Keeping(), s, Draining(), Run(s, Draining()));
    Then(New(2), Reviving(), Revived(), Keeping() + Draining(), Run(s, Draining()));
  }

  // ----- a raw functor that outlives its connection -----

  function Outliving(): seq<Action> { [EndBatch(1), PollReturn(1, []), SwapQueue(1), QueueRaw(RawSend(7))] }

  lemma AfterOutliving()
    ensures Leads(Doomed(), Outliving(), With(Polling, Io(Running, [Destroy(7), RawSend(7)], 1, {}, {7}), READY, {}, true))
  {
    var io1 := Io(Polling, [Destroy(7)], 0, {}, {7});
    Steady(Doomed(), EndBatch(1), Polling, io1, READY, {}, true);
    var io2 := Io(Dispatching, [Destroy(7)], 0, {}, {7});
    Steady(With(Polling, io1, READY, {}, true), PollReturn(1, []), Polling, io2, READY, {}, true);
    var io3 := Io(Running, [Destroy(7)], 1, {}, {7});
    Steady(With(Polling, io2, READY, {}, true), SwapQueue(1), Polling, io3, READY, {}, true);
    SendFollows();
    Steady(With(Polling, io3, READY, {}, true), QueueRaw(RawSend(7)), Polling,
           Io(Running, [Destroy(7), RawSend(7)], 1, {}, {7}), READY, {}, true);
  }

  lemma SendFollows()
    ensures var s := With(Polling, Io(Running, [Destroy(7)], 1, {}, {7}), READY, {}, true);
            Enabled(s, QueueRaw(RawSend(7)))
            && Apply(s, QueueRaw(RawSend(7)))
            == With(Polling, Io(Running, [Destroy(7), RawSend(7)], 1, {}, {7}), READY, {}, true)
  {
    var s := With(Polling, Io(Running, [Destroy(7)], 1, {}, {7}), READY, {}, true);
    assert Owned(s, 7) by {
      assert Destroy(7) in s.loops[1].todo;
      assert LoopOwns(s.loops[1], 7);
    }
    assert s.loops[1].todo + [RawSend(7)] == [Destroy(7), RawSend(7)];
    assert Apply(s, QueueRaw(RawSend(7))).loops
        == With(Polling, Io(Running, [Destroy(7), RawSend(7)], 1, {}, {7}), READY, {}, true).loops;
  }

  /** Connection 7 is freed, and nothing owns it. */
  function Freed(io: LoopState, touched: set<ConnId>): Server {
    With(Polling, io, GONE, {}, true).(freed := {7}, dangling := touched)
  }

  lemma SteadyFreed(s: Server, a: Action, io: LoopState, touched: set<ConnId>)
    requires 0 < |s.loops| && Enabled(s, a) && Apply(s, a) == Freed(io, touched)
    ensures Step(s, a) == Freed(io, touched)
  {
    var t := Freed(io, touched);
    assert t.freed + (set c | c in t.conns && !Owned(t, c)) == {7};
  }

  function Freeing(): seq<Action> { [RunNext(1, false), EndBatch(1)] }

  lemma AfterFreeing()
    ensures Leads(With(Polling, Io(Running, [Destroy(7), RawSend(7)], 1, {}, {7}), READY, {}, true),
                  Freeing(), Freed(Io(Polling, [RawSend(7)], 0, {}, {}), {}))
  {
    var s0 := With(Polling, Io(Running, [Destroy(7), RawSend(7)], 1, {}, {7}), READY, {}, true);
    DestroyRuns(1);
    Steady(s0, RunNext(1, false), Polling, Io(Running, [RawSend(7)], 0, {7}, {}), GONE, {}, true);
    var s := With(Polling, Io(Polling, [RawSend(7)], 0, {}, {}), GONE, {}, true);
    assert Apply(With(Polling, Io(Running, [RawSend(7)], 0, {7}, {}), GONE, {}, true), EndBatch(1)) == s;
    assert !Owned(s, 7);
    assert (set c | c in s.conns && !Owned(s, c)) == {7};
  }

  function Touching(): seq<Action> { [PollReturn(1, []), SwapQueue(1), RunNext(1, true)] }

  lemma AfterTouching()
    ensures Leads(Freed(Io(Polling, [RawSend(7)], 0, {}, {}), {}), Touching(), Freed(Io(Running, [], 0, {}, {}), {7}))
  {
    var q := [RawSend(7)];
    SteadyFreed(Freed(Io(Polling, q, 0, {}, {}), {}), PollReturn(1, []), Io(Dispatching, q, 0, {}, {}), {});
    SteadyFreed(Freed(Io(Dispatching, q, 0, {}, {}), {}), SwapQueue(1), Io(Running, q, 1, {}, {}), {});
    var s := Freed(Io(Running, q, 1, {}, {}), {});
    assert q[1..] == [];
    assert Pop(s, 1).loops[1] == Io(Running, [], 0, {}, {});
    assert Pop(s, 1).loops == Freed(Io(Running, [], 0, {}, {}), {}).loops;
    SteadyFreed(s, RunNext(1, true), Io(Running, [], 0, {}, {}), {7});
  }

  /** Queued after the swap that took connDestory, another thread's send() runs when its connection is
      gone. */
  lemma LateSendUsesFreed()
    ensures 7 in Run(New(2), Teardown() + (Outliving() + (Freeing() + Touching()))).dangling
  {
    AfterTeardown();
    AfterOutliving();
    AfterFreeing();
    AfterTouching();
    var s1 := With(Polling, Io(Running, [Destroy(7), RawSend(7)], 1, {}, {7}), READY, {}, true);
    var s2 := Freed(Io(Polling, [RawSend(7)], 0, {}, {}), {});
    var s3 := Freed(Io(Running, [], 0, {}, {}), {7});
    Then(s1, Freeing(), s2, Touching(), s3);
    Then(Doomed(), Outliving(), s1, Freeing() + Touching(), s3);
    Then(New(2), Teardown(), Doomed(), Outliving() + (Freeing() + Touching()), s3);
  }
}
