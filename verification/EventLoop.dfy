/**
 The EventLoop object (src/eventloop.cc): its queue, flags and eventfd counter, changed statement by
 statement while other threads may run between any two of them.  `spec` is the protocol state of
 LoopProtocol; every method is proved to be a run of the protocol, for any interference, so that
 whatever is proved of all runs holds of the object.
 */
module EventLoopObject {
  import opened LoopProtocol

  /** A run in which `self` does nothing. */
  ghost predicate Without(self: Tid, owner: Tid, t: seq<Action>) {
    forall a :: a in t ==> Actor(owner, a) != self
  }

  /** Steps taken by other threads or by callbacks on the loop's thread. */
  ghost predicate Outside(owner: Tid, a: Action) {
    Actor(owner, a) != owner || a.RunLoopCallback?
    || a.OwnerAppend? || a.OwnerTestFlag? || a.OwnerQuit?
  }

  ghost predicate AllOutside(owner: Tid, t: seq<Action>) {
    forall a :: a in t ==> Outside(owner, a)
  }

  /** Neither other threads nor callbacks move the loop's thread, take from the queue or execute
      queued tasks, and neither takes back a quit. */
  ghost predicate LoopThreadKept(s: Loop, r: Loop) {
    && r.owner == s.owner && r.pc == s.pc && r.calling == s.calling
    && r.executed == s.executed && s.pending <= r.pending && (s.quit ==> r.quit)
  }

  lemma OutsideStep(s: Loop, a: Action)
    requires Outside(s.owner, a)
    ensures LoopThreadKept(s, Step(s, a))
    ensures Actor(s.owner, a) != s.owner ==> Step(s, a).ownerMid == s.ownerMid
  {
  }

  lemma {:induction false} OutsideFrame(s: Loop, t: seq<Action>)
    requires AllOutside(s.owner, t)
    ensures LoopThreadKept(s, Run(s, t))
    ensures Without(s.owner, s.owner, t) ==> Run(s, t).ownerMid == s.ownerMid
    decreases |t|
  {
    if t != [] {
      assert t[0] in t && forall a :: a in t[1..] ==> a in t;
      var s1 := Step(s, t[0]);
      OutsideStep(s, t[0]);
      OutsideFrame(s1, t[1..]);
    }
  }

  /** What a thread still owes is for itself to do; pushes are never taken back. */
  ghost predicate MineKept(self: Tid, s: Loop, r: Loop) {
    && r.owner == s.owner && s.pushed <= r.pushed
    && (self in s.appended ==> self in r.appended)
    && (self in s.quitting ==> self in r.quitting)
    && (self == s.owner ==> LoopThreadKept(s, r) && r.ownerMid == s.ownerMid)
  }

  lemma OthersStep(s: Loop, self: Tid, a: Action)
    requires Actor(s.owner, a) != self
    ensures MineKept(self, s, Step(s, a))
  {
    if self == s.owner {
      OutsideStep(s, a);
    }
  }

  lemma {:induction false} OthersKeepMine(s: Loop, self: Tid, t: seq<Action>)
    requires Without(self, s.owner, t)
    ensures MineKept(self, s, Run(s, t))
    decreases |t|
  {
    if t != [] {
      assert t[0] in t && forall a :: a in t[1..] ==> a in t;
      OthersStep(s, self, t[0]);
      OthersKeepMine(Step(s, t[0]), self, t[1..]);
    }
  }

  /** How often poll returns in a run. */
  ghost function Returns(t: seq<Action>): nat {
    if t == [] then 0 else (if t[0].PollReturn? then 1 else 0) + Returns(t[1..])
  }

  lemma {:induction false} ReturnsConcat(t: seq<Action>, u: seq<Action>)
    ensures Returns(t + u) == Returns(t) + Returns(u)
  {
    if t == [] {
      assert t + u == u;
    } else {
      assert (t + u)[1..] == t[1..] + u;
      ReturnsConcat(t[1..], u);
    }
  }

  lemma {:induction false} OutsideReturnsNothing(owner: Tid, t: seq<Action>)
    requires AllOutside(owner, t) || Without(owner, owner, t)
    ensures Returns(t) == 0 && Awake !in t
  {
    if t != [] {
      assert t[0] in t && forall a :: a in t[1..] ==> a in t;
      OutsideReturnsNothing(owner, t[1..]);
    }
  }

  /** Poll returns in this run as `polls` has it: for each entry once, for the wakeup channel if that entry
      says so and the eventfd is readable. */
  ghost predicate Serves(s: Loop, t: seq<Action>, polls: seq<bool>)
    decreases |t|
  {
    if t == [] then polls == []
    else if t[0].PollReturn? then
      polls != [] && t[0].wake == (polls[0] && s.counter > 0) && Serves(Step(s, t[0]), t[1..], polls[1..])
    else Serves(Step(s, t[0]), t[1..], polls)
  }

  lemma {:induction false} ServesNothing(s: Loop, t: seq<Action>)
    requires Returns(t) == 0
    ensures Serves(s, t, [])
    decreases |t|
  {
    if t != [] {
      ServesNothing(Step(s, t[0]), t[1..]);
    }
  }

  lemma {:induction false} ServesConcat(s: Loop, t: seq<Action>, p: seq<bool>, u: seq<Action>, q: seq<bool>)
    requires Serves(s, t, p) && Serves(Run(s, t), u, q)
    ensures Serves(s, t + u, p + q)
    decreases |t|
  {
    if t == [] {
      assert t + u == u && p + q == q;
    } else {
      assert (t + u)[1..] == t[1..] + u;
      var rest := if t[0].PollReturn? then p[1..] else p;
      assert t[0].PollReturn? ==> (p + q)[1..] == rest + q && (p + q)[0] == p[0];
      ServesConcat(Step(s, t[0]), t[1..], rest, u, q);
    }
  }

  lemma ServesOne(s: Loop, t: seq<Action>, poll: bool)
    requires t != [] && t[0] == PollReturn(poll && s.counter > 0) && Returns(t) == 1
    ensures Serves(s, t, [poll])
  {
    assert [poll][1..] == [];
    ServesNothing(Step(s, t[0]), t[1..]);
  }

  class EventLoop {
    const owner: Tid
    var pendingFunctors: seq<Task>
    var counter: nat
    var quit: bool
    var callingPendingFunctors: bool
    ghost var spec: Loop

    ghost predicate Valid()
      reads this
    {
      spec.owner == owner && spec.pending == pendingFunctors && spec.counter == counter
      && spec.quit == quit && spec.calling == callingPendingFunctors
    }

    constructor (owner: Tid)
      ensures Valid() && spec == New(owner)
    {
      this.owner := owner;
      pendingFunctors, counter, quit, callingPendingFunctors := [], 0, false, false;
      spec := New(owner);
    }

    /** Threads other than `self` run: callers must be right for every run this contract allows. */
    method OtherThreads(self: Tid) returns (ghost t: seq<Action>)
      requires Valid()
      modifies this
      ensures Valid() && Without(self, owner, t) && spec == Run(old(spec), t)
    {
      t := [];
    }

    /** A callback on the loop's thread: any use of the loop's interface, and other threads too. */
    method UserCode() returns (ghost t: seq<Action>)
      requires Valid() && InUserCode(spec)
      modifies this
      ensures Valid() && AllOutside(owner, t) && spec == Run(old(spec), t) && !spec.ownerMid
    {
      t := [];
    }

    method Wakeup()
      modifies this`counter
      ensures counter > 0 && counter == if old(counter) < COUNTER_MAX then old(counter) + 1 else old(counter)
    {
      if counter < COUNTER_MAX {
        counter := counter + 1;
      }
    }

    /** pushLoopCallback, called by `thread`: whoever else runs between the append and the write, the
        task is queued for good, and the eventfd is readable at the end unless the caller is the
        loop's own thread outside the pending phase. */
    method PushLoopCallback(thread: Tid, task: Task) returns (ghost t: seq<Action>)
      requires Valid() && (if thread == owner then InUserCode(spec) else Idle(spec, thread))
      modifies this
      ensures Valid() && spec == Run(old(spec), t)
      ensures old(spec.pushed) + [task] <= spec.pushed
      ensures thread == owner ==> InUserCode(spec) && spec.pc == old(spec.pc)
      ensures thread != owner || callingPendingFunctors ==> counter > 0
    {
      ghost var s0 := spec;
      ghost var first := if thread == owner then OwnerAppend(task) else Append(thread, task);
      ghost var last := if thread == owner then OwnerTestFlag else WriteEventfd(thread);
      pendingFunctors := pendingFunctors + [task];
      spec := Step(spec, first);
      RunOne(s0, first);
      ghost var s1 := spec;
      ghost var between := OtherThreads(thread);
      OthersKeepMine(s1, thread, between);
      if thread != owner || callingPendingFunctors {
        Wakeup();
      }
      spec := Step(spec, last);
      RunConcat(s0, [first], between);
      RunSnoc(s0, [first] + between, last);
      t := [first] + between + [last];
    }

    /** runLoopCallback: on the loop's thread the callback runs on the spot, elsewhere it is queued. */
    method RunLoopCallbackFrom(thread: Tid, task: Task) returns (ghost t: seq<Action>)
      requires Valid() && (if thread == owner then InUserCode(spec) else Idle(spec, thread))
      modifies this
      ensures Valid() && spec == Run(old(spec), t)
      ensures if thread == owner then spec.inlined == old(spec.inlined) + [Execution(task, owner)]
              else old(spec.pushed) + [task] <= spec.pushed && counter > 0
    {
      if thread == owner {
        ghost var s0 := spec;
        spec := Step(spec, RunLoopCallback(thread, task));
        RunOne(s0, RunLoopCallback(thread, task));
        t := [RunLoopCallback(thread, task)];
      } else {
        t := PushLoopCallback(thread, task);
      }
    }

    /** quit(), called by `thread`. */
    method Quit(thread: Tid) returns (ghost t: seq<Action>)
      requires Valid() && (if thread == owner then InUserCode(spec) else Idle(spec, thread))
      modifies this
      ensures Valid() && spec == Run(old(spec), t)
      ensures if thread == owner then quit else counter > 0 && StoreQuit(thread) in t && WriteEventfd(thread) in t
    {
      ghost var s0 := spec;
      quit := true;
      if thread == owner {
        spec := Step(spec, OwnerQuit);
        RunOne(s0, OwnerQuit);
        t := [OwnerQuit];
      } else {
        spec := Step(spec, StoreQuit(thread));
        RunOne(s0, StoreQuit(thread));
        ghost var s1 := spec;
        ghost var between := OtherThreads(thread);
        OthersKeepMine(s1, thread, between);
        Wakeup();
        spec := Step(spec, WriteEventfd(thread));
        RunConcat(s0, [StoreQuit(thread)], between);
        RunSnoc(s0, [StoreQuit(thread)] + between, WriteEventfd(thread));
        t := [StoreQuit(thread)] + between + [WriteEventfd(thread)];
      }
    }

    /** The first half of executePendingFunctors: set the flag and take the queue. */
    method TakePending() returns (functors: seq<Task>, ghost t: seq<Action>)
      requires Valid() && spec.pc == Dispatching(false) && !spec.ownerMid
      modifies this
      ensures Valid() && spec == Run(old(spec), t)
      ensures spec.pc == Running(functors) && !spec.ownerMid && spec.executed == old(spec.executed)
      ensures old(spec.pending) <= functors && Returns(t) == 0 && Awake !in t
    {
      ghost var s0 := spec;
      callingPendingFunctors := true;
      spec := Step(spec, BeginPending);
      RunOne(s0, BeginPending);
      ghost var s1 := spec;
      ghost var between := OtherThreads(owner);
      OutsideFrame(s1, between);
      RunConcat(s0, [BeginPending], between);
      functors := pendingFunctors;
      pendingFunctors := [];
      spec := Step(spec, Swap);
      RunSnoc(s0, [BeginPending] + between, Swap);
      t := [BeginPending] + between + [Swap];
      OutsideReturnsNothing(owner, between);
      ReturnsConcat([BeginPending], between);
      ReturnsConcat([BeginPending] + between, [Swap]);
    }

    /** executePendingFunctors: the queue is taken whole and run in order, while callbacks and other
        threads add to the new one. */
    method ExecutePendingFunctors() returns (ghost t: seq<Action>, ghost batch: seq<Task>)
      requires Valid() && spec.pc == Dispatching(false) && !spec.ownerMid
      modifies this
      ensures Valid() && spec == Run(old(spec), t) && spec.pc.AtCheck?
      ensures old(spec.pending) <= batch
      ensures Tasks(spec.executed) == Tasks(old(spec.executed)) + batch && Returns(t) == 0 && Awake !in t
    {
      ghost var s0 := spec;
      var functors;
      functors, t := TakePending();
      batch := functors;
      for i := 0 to |functors|
        invariant Valid() && spec == Run(s0, t)
        invariant spec.pc == Running(functors[i..]) && !spec.ownerMid
        invariant Tasks(spec.executed) == Tasks(s0.executed) + functors[..i] && Returns(t) == 0 && Awake !in t
      {
        ghost var u := RunFunctor(functors[i]);
        RunConcat(s0, t, u);
        ReturnsConcat(t, u);
        t := t + u;
        assert functors[..i + 1] == functors[..i] + [functors[i]];
      }
      assert functors[..|functors|] == functors;
      callingPendingFunctors := false;
      spec := Step(spec, EndPending);
      RunSnoc(s0, t, EndPending);
      ReturnsConcat(t, [EndPending]);
      t := t + [EndPending];
    }

    method RunFunctor(functor: Task) returns (ghost t: seq<Action>)
      requires Valid() && spec.pc.Running? && spec.pc.rest != [] && functor == spec.pc.rest[0] && !spec.ownerMid
      modifies this
      ensures Valid() && spec == Run(old(spec), t)
      ensures spec.pc == Running(old(spec.pc.rest)[1..]) && !spec.ownerMid
      ensures Tasks(spec.executed) == Tasks(old(spec.executed)) + [functor] && Returns(t) == 0 && Awake !in t
    {
      ghost var s0 := spec;
      spec := Step(spec, RunTask);
      RunOne(s0, RunTask);
      assert Tasks(spec.executed) == Tasks(s0.executed) + [functor];
      ghost var s1 := spec;
      ghost var inside := UserCode();
      OutsideFrame(s1, inside);
      RunConcat(s0, [RunTask], inside);
      t := [RunTask] + inside;
      OutsideReturnsNothing(owner, inside);
      ReturnsConcat([RunTask], inside);
    }

    /** One pass of loop() once poll has returned: the active channels (the wakeup channel's handler
        is awake), then the pending functors. */
    method Round(wakeChannelActive: bool) returns (ghost t: seq<Action>)
      requires Valid() && spec.pc.AtPoll? && !spec.ownerMid && (wakeChannelActive ==> counter > 0)
      modifies this
      ensures Valid() && spec == Run(old(spec), t) && spec.pc.AtCheck?
      ensures t != [] && t[0] == PollReturn(wakeChannelActive)
      ensures Returns(t) == 1 && (wakeChannelActive <==> Awake in t)
      ensures Tasks(old(spec.executed)) + old(spec.pending) <= Tasks(spec.executed)
    {
      ghost var s0 := spec;
      t := HandleChannels(wakeChannelActive);
      ghost var rest, batch := ExecutePendingFunctors();
      RunConcat(s0, t, rest);
      ReturnsConcat(t, rest);
      t := t + rest;
    }

    method HandleChannels(wakeChannelActive: bool) returns (ghost t: seq<Action>)
      requires Valid() && spec.pc.AtPoll? && !spec.ownerMid && (wakeChannelActive ==> counter > 0)
      modifies this
      ensures Valid() && spec == Run(old(spec), t) && spec.pc == Dispatching(false) && !spec.ownerMid
      ensures t != [] && t[0] == PollReturn(wakeChannelActive)
      ensures Returns(t) == 1 && (wakeChannelActive <==> Awake in t)
      ensures spec.executed == old(spec.executed) && old(spec.pending) <= spec.pending
    {
      ghost var s0 := spec;
      spec := Step(spec, PollReturn(wakeChannelActive));
      RunOne(s0, PollReturn(wakeChannelActive));
      ghost var s1 := spec;
      t := UserCode();
      OutsideFrame(s1, t);
      OutsideReturnsNothing(owner, t);
      RunConcat(s0, [PollReturn(wakeChannelActive)], t);
      t := [PollReturn(wakeChannelActive)] + t;
      if wakeChannelActive {
        counter := 0;
        spec := Step(spec, Awake);
        RunSnoc(s0, t, Awake);
        ReturnsConcat(t, [Awake]);
        t := t + [Awake];
        ghost var s3 := spec;
        ghost var more := UserCode();
        OutsideFrame(s3, more);
        OutsideReturnsNothing(owner, more);
        RunConcat(s0, t, more);
        ReturnsConcat(t, more);
        t := t + more;
      }
    }

    /** The test of quit_ and, unless it holds, the wait in poll. */
    method CheckAndWait() returns (ghost t: seq<Action>, stop: bool)
      requires Valid() && spec.pc.AtCheck? && Inv(spec)
      modifies this
      ensures Valid() && spec == Run(old(spec), t) && Inv(spec) && Returns(t) == 0
      ensures if stop then spec.pc.Stopped? && quit else spec.pc.AtPoll? && !spec.ownerMid
    {
      ghost var s0 := spec;
      t := OtherThreads(owner);
      OutsideFrame(s0, t);
      OutsideReturnsNothing(owner, t);
      spec := Step(spec, CheckQuit);
      RunSnoc(s0, t, CheckQuit);
      ReturnsConcat(t, [CheckQuit]);
      t := t + [CheckQuit];
      stop := quit;
      if !stop {
        ghost var s1 := spec;
        ghost var waiting := OtherThreads(owner);
        OutsideFrame(s1, waiting);
        OutsideReturnsNothing(owner, waiting);
        RunConcat(s0, t, waiting);
        ReturnsConcat(t, waiting);
        t := t + waiting;
      }
      RunKeepsInv(s0, t);
    }

    /** loop(), for as many rounds as poll returns. */
    method RunLoop(polls: seq<bool>) returns (ghost t: seq<Action>, stopped: bool, ghost served: nat)
      requires Valid() && OutsideLoop(spec) && !spec.ownerMid && Inv(spec)
      modifies this
      ensures Valid() && spec == Run(old(spec), t) && Inv(spec)
      ensures stopped ==> spec.pc.Stopped? && quit
      ensures served <= |polls| && Serves(old(spec), t, polls[..served])
      ensures !stopped ==> spec.pc.AtCheck? && served == |polls|
    {
      ghost var s0 := spec;
      quit := false;
      spec := Step(spec, StartLoop);
      RunOne(s0, StartLoop);
      t := [StartLoop];
      stopped, served := false, 0;
      ServesNothing(s0, t);
      for i := 0 to |polls|
        invariant Valid() && spec == Run(s0, t) && spec.pc.AtCheck?
        invariant served == i && Serves(s0, t, polls[..i])
      {
        RunKeepsInv(s0, t);
        ghost var s1 := spec;
        ghost var check;
        var stop;
        check, stop := CheckAndWait();
        Extend(s0, t, polls[..i], check, []);
        t := t + check;
        assert polls[..i] + [] == polls[..i];
        if stop {
          stopped := true;
          break;
        }
        ghost var s2 := spec;
        ghost var round := Round(polls[i] && counter > 0);
        ServesOne(s2, round, polls[i]);
        Extend(s0, t, polls[..i], round, [polls[i]]);
        t := t + round;
        served := i + 1;
        assert polls[..i + 1] == polls[..i] + [polls[i]];
      }
      RunKeepsInv(s0, t);
    }
  }

  /** A run that has served `p` goes on and serves `q`, or nothing. */
  lemma Extend(s: Loop, t: seq<Action>, p: seq<bool>, u: seq<Action>, q: seq<bool>)
    requires Serves(s, t, p) && (Serves(Run(s, t), u, q) || (q == [] && Returns(u) == 0))
    ensures Run(s, t + u) == Run(Run(s, t), u) && Serves(s, t + u, p + q)
  {
    if q == [] && Returns(u) == 0 {
      ServesNothing(Run(s, t), u);
    }
    ServesConcat(s, t, p, u, q);
    RunConcat(s, t, u);
  }

  lemma RunOne(s: Loop, a: Action)
    ensures Run(s, [a]) == Step(s, a)
  {
    assert [a][1..] == [];
  }
}
