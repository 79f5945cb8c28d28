/**
 The task queue and wakeup protocol of one EventLoop (src/eventloop.cc) as interleaved steps of its
 own thread and of any number of other threads.  A step is what one thread does between two points
 where another can get in: an append under the mutex, the eventfd write after it, the swap, and so
 on.  A run is any sequence of steps; one that its thread is not ready for is no step at all.
 */
module LoopProtocol {

  type Tid = nat
  type Task = nat

  /** An eventfd counter saturates at 2^64 - 2; a write beyond that fails and changes nothing. */
  const COUNTER_MAX: nat := 0xffff_ffff_ffff_fffe

  /** Where the loop's own thread is. */
  datatype Pc =
    | NotStarted                    // loop() not yet called
    | AtCheck                       // while (!quit_)
    | AtPoll                        // in epoll_wait
    | Dispatching(wake: bool)       // handling active channels, the wakeup channel still among them or not
    | BeforeSwap                    // calling_pending_functors_ set, queue not yet taken
    | Running(rest: seq<Task>)      // in the batch
    | Stopped                       // loop() has returned; it may be called again

  datatype Execution = Execution(task: Task, thread: Tid)

  datatype Loop = Loop(
    owner: Tid,
    pc: Pc,
    pending: seq<Task>,
    counter: nat,
    quit: bool,
    calling: bool,
    ownerMid: bool,          // the loop's thread has appended and not yet tested the flag
    appended: set<Tid>,      // other threads that have appended and not yet written the eventfd
    quitting: set<Tid>,      // other threads that have set quit_ and not yet written the eventfd
    pushed: seq<Task>,       // every push, in lock order
    executed: seq<Execution>,
    inlined: seq<Execution>, // callbacks runLoopCallback ran on the spot
    outside: nat,            // pushes by the loop's thread outside loop() since the last swap
    writes: nat)             // eventfd writes since the eventfd was last read

  function New(owner: Tid): Loop {
    Loop(owner, NotStarted, [], 0, false, false, false, {}, {}, [], [], [], 0, 0)
  }

  datatype Action =
    // the loop's thread
    | StartLoop
    | CheckQuit
    | PollReturn(wake: bool)   // for the wakeup channel or for something else (a timeout included)
    | Awake
    | BeginPending
    | Swap
    | RunTask
    | EndPending
    // callbacks on the loop's thread
    | OwnerAppend(task: Task)
    | OwnerTestFlag
    | OwnerQuit
    // any thread
    | RunLoopCallback(t: Tid, task: Task)
    // other threads
    | Append(t: Tid, task: Task)
    | StoreQuit(t: Tid)
    | WriteEventfd(t: Tid)

  function Actor(owner: Tid, a: Action): Tid {
    match a
    case RunLoopCallback(t, _) => t
    case Append(t, _) => t
    case StoreQuit(t) => t
    case WriteEventfd(t) => t
    case _ => owner
  }

  predicate Idle(s: Loop, t: Tid) {
    t != s.owner && t !in s.appended && t !in s.quitting
  }

  /** The loop's thread is executing user code (or, outside loop(), whatever its creator does). */
  predicate InUserCode(s: Loop) {
    !s.ownerMid && (OutsideLoop(s) || s.pc.Dispatching? || s.pc.Running?)
  }

  predicate OutsideLoop(s: Loop) {
    s.pc.NotStarted? || s.pc.Stopped?
  }

  predicate Enabled(s: Loop, a: Action) {
    match a
    case StartLoop => OutsideLoop(s) && !s.ownerMid
    case CheckQuit => s.pc.AtCheck?
    case PollReturn(wake) => s.pc.AtPoll? && (wake ==> s.counter > 0)
    case Awake => s.pc == Dispatching(true) && !s.ownerMid
    case BeginPending => s.pc == Dispatching(false) && !s.ownerMid
    case Swap => s.pc.BeforeSwap?
    case RunTask => s.pc.Running? && s.pc.rest != [] && !s.ownerMid
    case EndPending => s.pc == Running([]) && !s.ownerMid
    case OwnerAppend(_) => InUserCode(s)
    case OwnerTestFlag => s.ownerMid
    case OwnerQuit => InUserCode(s)
    case RunLoopCallback(t, _) => if t == s.owner then InUserCode(s) else Idle(s, t)
    case Append(t, _) => Idle(s, t)
    case StoreQuit(t) => Idle(s, t)
    case WriteEventfd(t) => t in s.appended || t in s.quitting
  }

  function Signal(s: Loop): Loop {
    s.(counter := if s.counter < COUNTER_MAX then s.counter + 1 else s.counter, writes := s.writes + 1)
  }

  function Push(s: Loop, task: Task): Loop {
    s.(pending := s.pending + [task], pushed := s.pushed + [task])
  }

  function Apply(s: Loop, a: Action): Loop
    requires Enabled(s, a)
  {
    match a
    case StartLoop => s.(pc := AtCheck, quit := false)
    case CheckQuit => s.(pc := if s.quit then Stopped else AtPoll)
    case PollReturn(wake) => s.(pc := Dispatching(wake))
    case Awake => s.(pc := Dispatching(false), counter := 0, writes := 0)
    case BeginPending => s.(pc := BeforeSwap, calling := true)
    case Swap => s.(pc := Running(s.pending), pending := [], outside := 0)
    case RunTask =>
      s.(pc := Running(s.pc.rest[1..]), executed := s.executed + [Execution(s.pc.rest[0], s.owner)])
    case EndPending => s.(pc := AtCheck, calling := false)
    case OwnerAppend(task) =>
      Push(s, task).(ownerMid := true, outside := if OutsideLoop(s) then s.outside + 1 else s.outside)
    case OwnerTestFlag => (if s.calling then Signal(s) else s).(ownerMid := false)
    case OwnerQuit => s.(quit := true)
    case RunLoopCallback(t, task) =>
      if t == s.owner then s.(inlined := s.inlined + [Execution(task, t)])
      else Push(s, task).(appended := s.appended + {t})
    case Append(t, task) => Push(s, task).(appended := s.appended + {t})
    case StoreQuit(t) => s.(quit := true, quitting := s.quitting + {t})
    case WriteEventfd(t) => Signal(s).(appended := s.appended - {t}, quitting := s.quitting - {t})
  }

  function Step(s: Loop, a: Action): Loop {
    if Enabled(s, a) then Apply(s, a) else s
  }

  ghost function Run(s: Loop, t: seq<Action>): Loop
    decreases |t|
  {
    if t == [] then s else Run(Step(s, t[0]), t[1..])
  }

  lemma {:induction false} RunConcat(s: Loop, t: seq<Action>, u: seq<Action>)
    ensures Run(s, t + u) == Run(Run(s, t), u)
    decreases |t|
  {
    if t == [] {
      assert t + u == u;
    } else {
      assert (t + u)[1..] == t[1..] + u;
      RunConcat(Step(s, t[0]), t[1..], u);
    }
  }

  // ----- the invariant -----

  ghost function Batch(s: Loop): seq<Task> {
    if s.pc.Running? then s.pc.rest else []
  }

  ghost function Tasks(e: seq<Execution>): (r: seq<Task>)
    ensures |r| == |e| && forall i :: 0 <= i < |e| ==> r[i] == e[i].task
  {
    seq(|e|, i requires 0 <= i < |e| => e[i].task)
  }

  /** Someone is certain to make, or has made, the eventfd readable on behalf of a push. */
  ghost predicate PushSignalled(s: Loop) {
    s.counter > 0 || s.appended != {} || (s.ownerMid && s.calling)
  }

  ghost predicate QuitSignalled(s: Loop) {
    s.counter > 0 || s.quitting != {}
  }

  ghost predicate Fifo(s: Loop) {
    Tasks(s.executed) + Batch(s) + s.pending == s.pushed
  }

  ghost predicate OnOwnThread(s: Loop) {
    && (forall e :: e in s.executed ==> e.thread == s.owner)
    && (forall e :: e in s.inlined ==> e.thread == s.owner)
  }

  ghost predicate Control(s: Loop) {
    && (s.calling <==> s.pc.BeforeSwap? || s.pc.Running?)
    && (s.ownerMid ==> OutsideLoop(s) || s.pc.Dispatching? || s.pc.Running?)
    && s.outside <= |s.pending|
    && (s.counter > 0 <==> s.writes > 0)
    && (s.pc.Stopped? ==> s.quit)
    && (s.pc == Dispatching(true) ==> s.counter > 0)
  }

  /** From a swap to the next poll return, whatever is queued beyond the pushes made outside loop()
      is announced, and in poll a quit is. */
  ghost predicate Wakeups(s: Loop) {
    && (OutsideLoop(s) || s.pc.AtCheck? || s.pc.AtPoll? || s.pc.Running? ==>
          |s.pending| > s.outside ==> PushSignalled(s))
    && (s.pc.AtPoll? && s.quit ==> QuitSignalled(s))
  }

  ghost predicate Inv(s: Loop) {
    Fifo(s) && OnOwnThread(s) && Control(s) && Wakeups(s)
  }

  lemma StepKeepsFifo(s: Loop, a: Action)
    requires Fifo(s)
    ensures Fifo(Step(s, a))
  {
    var s' := Step(s, a);
    if Enabled(s, a) {
      match a
      case RunTask =>
        var e := Execution(s.pc.rest[0], s.owner);
        assert Tasks(s.executed + [e]) == Tasks(s.executed) + [s.pc.rest[0]];
        assert s.pc.rest == [s.pc.rest[0]] + s.pc.rest[1..];
      case Append(t, task) =>
        assert s'.pushed == Tasks(s.executed) + Batch(s) + (s.pending + [task]);
      case OwnerAppend(task) =>
        assert s'.pushed == Tasks(s.executed) + Batch(s) + (s.pending + [task]);
      case RunLoopCallback(t, task) =>
        assert t != s.owner ==> s'.pushed == Tasks(s.executed) + Batch(s) + (s.pending + [task]);
      case _ =>
    }
  }

  lemma StepKeepsControl(s: Loop, a: Action)
    requires Control(s)
    ensures Control(Step(s, a))
  {
  }

  lemma StepKeepsWakeups(s: Loop, a: Action)
    requires Control(s) && Wakeups(s)
    ensures Wakeups(Step(s, a))
  {
    var s' := Step(s, a);
    if Enabled(s, a) {
      match a
      case Append(t, _) => assert t in s'.appended;
      case RunLoopCallback(t, _) => assert t != s.owner ==> t in s'.appended;
      case StoreQuit(t) => assert t in s'.quitting;
      case WriteEventfd(t) => assert s'.counter > 0;
      case OwnerTestFlag => assert s.calling ==> s'.counter > 0;
      case _ =>
    }
  }

  lemma StepKeepsInv(s: Loop, a: Action)
    requires Inv(s)
    ensures Inv(Step(s, a))
  {
    StepKeepsFifo(s, a);
    StepKeepsControl(s, a);
    StepKeepsWakeups(s, a);
  }

  lemma {:induction false} RunKeepsInv(s: Loop, t: seq<Action>)
    requires Inv(s)
    ensures Inv(Run(s, t))
    decreases |t|
  {
    if t != [] {
      StepKeepsInv(s, t[0]);
      RunKeepsInv(Step(s, t[0]), t[1..]);
    }
  }

  lemma NewIsGood(owner: Tid)
    ensures Inv(New(owner))
  {
    assert Tasks([]) == [];
  }

  // ----- the theorems -----

  /** No lost wakeup.  In every interleaving, if the loop is in poll with work queued and nothing
      announces it, neither the eventfd nor a thread that has appended and is still to write it, then
      all that is queued was pushed by the loop's own thread outside loop(): before the first call or
      between two.  Such pushes are announced only by accident, if somebody has written the eventfd since
      it was last read. */
  lemma NoLostWakeup(owner: Tid, t: seq<Action>)
    ensures var s := Run(New(owner), t);
            s.pc.AtPoll? && s.pending != [] && s.counter == 0 && s.appended == {} ==> s.outside == |s.pending|
    ensures var s := Run(New(owner), t); s.counter > 0 <==> s.writes > 0
  {
    NewIsGood(owner);
    RunKeepsInv(New(owner), t);
  }

  /** Executed tasks, the rest of the batch and the queue are all pushes in the order they were made:
      nothing runs twice or out of order, and everything runs on the loop's own thread. */
  lemma ExactlyOnceInOrder(owner: Tid, t: seq<Action>)
    ensures var s := Run(New(owner), t);
            Tasks(s.executed) + Batch(s) + s.pending == s.pushed
            && (forall e :: e in s.executed || e in s.inlined ==> e.thread == owner)
  {
    NewIsGood(owner);
    RunKeepsInv(New(owner), t);
    OwnerIsFixed(New(owner), t);
  }

  lemma {:induction false} StoppedRunsNothing(s: Loop, t: seq<Action>)
    requires s.pc.Stopped? && StartLoop !in t
    ensures Run(s, t).pc.Stopped? && Run(s, t).executed == s.executed && s.pending <= Run(s, t).pending
    decreases |t|
  {
    if t != [] {
      assert t[0] != StartLoop && forall a :: a in t[1..] ==> a in t;
      StoppedRunsNothing(Step(s, t[0]), t[1..]);
    }
  }

  /** When loop() returns for good, the pushes that never run are exactly those queued at that moment
      and those made afterwards: push k is executed if and only if it is not among them. */
  lemma NeverRunIffPendingAtStop(owner: Tid, t: seq<Action>, after: seq<Action>)
    requires Run(New(owner), t).pc.Stopped? && StartLoop !in after
    ensures var stop := Run(New(owner), t);
            var end := Run(stop, after);
            Tasks(end.executed) == Tasks(stop.executed)
            && Tasks(stop.executed) + stop.pending == stop.pushed
            && Tasks(end.executed) + end.pending == end.pushed && stop.pending <= end.pending
  {
    NewIsGood(owner);
    RunKeepsInv(New(owner), t);
    var stop := Run(New(owner), t);
    RunKeepsInv(stop, after);
    StoppedRunsNothing(stop, after);
    BetweenBatches(stop);
    BetweenBatches(Run(stop, after));
  }

  lemma BetweenBatches(s: Loop)
    requires Fifo(s) && s.pc.Stopped?
    ensures Tasks(s.executed) + s.pending == s.pushed
  {
    assert Tasks(s.executed) + [] + s.pending == Tasks(s.executed) + s.pending;
  }

  /** Which happens: a push and a quit that both arrive while a batch is being run. */
  lemma QuitAbandonsPending(s: Loop, t: Tid, q: Tid, task: Task)
    requires s.pc == Running([]) && !s.ownerMid && s.pending == [] && Idle(s, t) && Idle(s, q)
    ensures var pushed := Step(Step(s, Append(t, task)), WriteEventfd(t));
            var asked := Step(Step(pushed, StoreQuit(q)), WriteEventfd(q));
            var end := Step(Step(asked, EndPending), CheckQuit);
            end.pc.Stopped? && end.pending == [task] && end.executed == s.executed
  {
  }

  lemma {:induction false} OwnerIsFixed(s: Loop, t: seq<Action>)
    ensures Run(s, t).owner == s.owner
    decreases |t|
  {
    if t != [] {
      OwnerIsFixed(Step(s, t[0]), t[1..]);
    }
  }

  /** A quit set while the loop is in poll makes the eventfd readable, or its writer is on its way. */
  lemma QuitWakesPoll(owner: Tid, t: seq<Action>)
    ensures var s := Run(New(owner), t);
            s.pc.AtPoll? && s.quit ==> s.counter > 0 || s.quitting != {}
  {
    NewIsGood(owner);
    RunKeepsInv(New(owner), t);
  }

  /** When the wakeup channel's handler runs, in every interleaving, there is something to read. */
  lemma AwakeFindsAWrite(owner: Tid, t: seq<Action>)
    ensures Enabled(Run(New(owner), t), Awake) ==> Run(New(owner), t).counter > 0
  {
    NewIsGood(owner);
    RunKeepsInv(New(owner), t);
  }

  /** Once poll has returned for the wakeup channel, nothing but its handler lets the round go on. */
  lemma {:induction false} WakeupIsHandled(s: Loop, t: seq<Action>)
    requires s.pc == Dispatching(true) && Awake !in t
    ensures Run(s, t).pc == Dispatching(true)
    decreases |t|
  {
    if t != [] {
      assert t[0] != Awake && forall a :: a in t[1..] ==> a in t;
      WakeupIsHandled(Step(s, t[0]), t[1..]);
    }
  }

  ghost function PollReturns(s: Loop, t: seq<Action>): nat
    decreases |t|
  {
    if t == [] then 0
    else (if t[0].PollReturn? && Enabled(s, t[0]) then 1 else 0) + PollReturns(Step(s, t[0]), t[1..])
  }

  /** Once loop() has begun, a quit is final: whatever follows short of calling loop() again, poll
      returns at most once more, and only if the loop was in it. */
  lemma {:induction false} QuitEndsTheRound(s: Loop, t: seq<Action>)
    requires s.quit && !s.pc.NotStarted? && StartLoop !in t
    ensures Run(s, t).quit && PollReturns(s, t) <= if s.pc.AtPoll? then 1 else 0
    decreases |t|
  {
    if t != [] {
      assert t[0] != StartLoop && forall a :: a in t[1..] ==> a in t;
      QuitEndsTheRound(Step(s, t[0]), t[1..]);
    }
  }

  /** A step that sets quit_. */
  ghost predicate SetsQuit(s: Loop, a: Action) {
    Enabled(s, a) && (a.OwnerQuit? || a.StoreQuit?)
  }

  /** Step i of the run sets quit_, and loop() is not entered after it. */
  ghost predicate QuitStands(s: Loop, t: seq<Action>, i: nat)
    requires i < |t|
  {
    && SetsQuit(Run(s, t[..i]), t[i])
    && forall j :: i < j < |t| && t[j].StartLoop? ==> !Enabled(Run(s, t[..j]), t[j])
  }

  lemma RunSnoc(s: Loop, t: seq<Action>, a: Action)
    ensures Run(s, t + [a]) == Step(Run(s, t), a)
  {
    RunConcat(s, t, [a]);
    assert [a][1..] == [];
  }

  /** quit_ is set if and only if some quit came after the latest entry to loop(): one that came
      before is forgotten, whoever made it and whether or not its wakeup was written. */
  lemma {:induction false} QuitIffAfterStart(owner: Tid, t: seq<Action>)
    ensures Run(New(owner), t).quit <==> exists i :: 0 <= i < |t| && QuitStands(New(owner), t, i)
    decreases |t|
  {
    if t != [] {
      var n := |t| - 1;
      var u, a := t[..n], t[n];
      var s0 := New(owner);
      assert t == u + [a];
      RunSnoc(s0, u, a);
      QuitIffAfterStart(owner, u);
      PrefixesStand(s0, u, a);
      assert t[..n] == u;
      if SetsQuit(Run(s0, u), a) {
        assert QuitStands(s0, t, n);
      }
    }
  }

  /** An earlier quit stands after one more step unless that step enters loop(). */
  lemma PrefixesStand(s: Loop, u: seq<Action>, a: Action)
    ensures forall i :: 0 <= i < |u| ==>
              (QuitStands(s, u + [a], i)
               <==> QuitStands(s, u, i) && !(a.StartLoop? && Enabled(Run(s, u), a)))
  {
    var t := u + [a];
    assert t[..|u|] == u;
    forall i | 0 <= i < |u|
      ensures QuitStands(s, t, i) <==> QuitStands(s, u, i) && !(a.StartLoop? && Enabled(Run(s, u), a))
    {
      assert forall j :: 0 <= j < |u| ==> t[..j] == u[..j];
      if QuitStands(s, t, i) {
        assert t[|u|].StartLoop? ==> !Enabled(Run(s, t[..|u|]), t[|u|]);
      }
    }
  }

  ghost predicate NoQuits(t: seq<Action>) {
    forall a :: a in t ==> !a.OwnerQuit? && !a.StoreQuit?
  }

  /** So a quit made before loop() stops nothing: unless another one follows, the loop never returns,
      and a thread that joins it waits for ever. */
  lemma {:induction false} EarlyQuitNeverStops(s: Loop, t: seq<Action>)
    requires s.pc.NotStarted? || (!s.quit && !s.pc.Stopped?)
    requires NoQuits(t)
    ensures !Run(s, t).pc.Stopped?
    decreases |t|
  {
    if t != [] {
      assert t[0] in t && forall a :: a in t[1..] ==> a in t;
      EarlyQuitNeverStops(Step(s, t[0]), t[1..]);
    }
  }

  ghost predicate AllEnabled(s: Loop, t: seq<Action>)
    decreases |t|
  {
    t == [] || (Enabled(s, t[0]) && AllEnabled(Step(s, t[0]), t[1..]))
  }

  lemma {:induction false} AllEnabledConcat(s: Loop, t: seq<Action>, u: seq<Action>)
    requires AllEnabled(s, t) && AllEnabled(Run(s, t), u)
    ensures AllEnabled(s, t + u)
    decreases |t|
  {
    if t == [] {
      assert t + u == u;
    } else {
      assert (t + u)[1..] == t[1..] + u;
      AllEnabledConcat(Step(s, t[0]), t[1..], u);
    }
  }

  /** The loop's thread finishes its batch. */
  lemma {:induction false} FinishBatch(s: Loop) returns (t: seq<Action>)
    requires s.pc.Running? && !s.ownerMid
    ensures AllEnabled(s, t) && (forall a :: a in t ==> !a.PollReturn?)
    ensures Tasks(Run(s, t).executed) == Tasks(s.executed) + s.pc.rest && Run(s, t).pc == Running([])
    ensures !Run(s, t).ownerMid && Run(s, t).quit == s.quit
    decreases |s.pc.rest|
  {
    if s.pc.rest == [] {
      t := [];
    } else {
      var s1 := Step(s, RunTask);
      var rest := FinishBatch(s1);
      t := [RunTask] + rest;
      assert t[1..] == rest;
      assert Tasks(s1.executed) == Tasks(s.executed) + [s.pc.rest[0]];
      assert Tasks(s.executed) + [s.pc.rest[0]] + s.pc.rest[1..] == Tasks(s.executed) + s.pc.rest;
    }
  }

  /** From poll with a readable eventfd, the loop's thread runs all that is queued. */
  lemma ServeFromPoll(s: Loop) returns (t: seq<Action>)
    requires s.pc.AtPoll? && s.counter > 0 && !s.ownerMid
    ensures AllEnabled(s, t) && (forall a :: a in t ==> a != PollReturn(false))
    ensures var r := Run(s, t);
            r.pc == Running([]) && !r.ownerMid && r.quit == s.quit
            && Tasks(r.executed) == Tasks(s.executed) + s.pending
  {
    var enter := [PollReturn(true), Awake, BeginPending, Swap];
    EnterBatch(s);
    var finish := FinishBatch(Run(s, enter));
    AllEnabledConcat(s, enter, finish);
    RunConcat(s, enter, finish);
    t := enter + finish;
  }

  /** A thread that owes the eventfd a write can always make it. */
  lemma Announce(s: Loop, owing: set<Tid>) returns (t: seq<Action>)
    requires s.pc.AtPoll? && (owing == s.appended || owing == s.quitting)
    requires s.counter > 0 || owing != {}
    ensures AllEnabled(s, t) && (forall a :: a in t ==> a != PollReturn(false))
    ensures var r := Run(s, t);
            r.counter > 0 && r.pc == s.pc && r.pending == s.pending && r.executed == s.executed
            && r.quit == s.quit && r.ownerMid == s.ownerMid
  {
    t := [];
    if s.counter == 0 {
      var w :| w in owing;
      t := [WriteEventfd(w)];
      RunSnoc(s, [], WriteEventfd(w));
      assert [] + [WriteEventfd(w)] == t && t[1..] == [];
    }
  }

  /** The wakeup is enough: a loop in poll with announced work reaches the end of that work through
      steps its threads are ready for, without poll ever returning for any other reason. */
  lemma WakeupDelivers(s: Loop) returns (t: seq<Action>)
    requires Inv(s) && s.pc.AtPoll? && |s.pending| > s.outside
    ensures AllEnabled(s, t) && (forall a :: a in t ==> a != PollReturn(false))
    ensures Tasks(Run(s, t).executed) == Tasks(s.executed) + s.pending
  {
    var announce := Announce(s, s.appended);
    var serve := ServeFromPoll(Run(s, announce));
    AllEnabledConcat(s, announce, serve);
    RunConcat(s, announce, serve);
    t := announce + serve;
  }

  /** And so is a quit's: from poll, the loop reaches its end through steps its threads are ready for,
      without poll ever returning for any other reason. */
  lemma QuitDelivers(s: Loop) returns (t: seq<Action>)
    requires Inv(s) && s.pc.AtPoll? && s.quit
    ensures AllEnabled(s, t) && (forall a :: a in t ==> a != PollReturn(false))
    ensures Run(s, t).pc.Stopped?
  {
    var announce := Announce(s, s.quitting);
    var serve := ServeFromPoll(Run(s, announce));
    AllEnabledConcat(s, announce, serve);
    RunConcat(s, announce, serve);
    var r := Run(s, announce + serve);
    LeaveLoop(r);
    AllEnabledConcat(s, announce + serve, [EndPending, CheckQuit]);
    RunConcat(s, announce + serve, [EndPending, CheckQuit]);
    t := announce + serve + [EndPending, CheckQuit];
  }

  lemma LeaveLoop(s: Loop)
    requires s.pc == Running([]) && !s.ownerMid && s.quit
    ensures AllEnabled(s, [EndPending, CheckQuit]) && Run(s, [EndPending, CheckQuit]).pc.Stopped?
  {
    var leave := [EndPending, CheckQuit];
    assert leave[1..] == [CheckQuit] && leave[1..][1..] == [];
  }

  lemma EnterBatch(s: Loop)
    requires s.pc.AtPoll? && s.counter > 0 && !s.ownerMid
    ensures var enter := [PollReturn(true), Awake, BeginPending, Swap];
            AllEnabled(s, enter)
            && Run(s, enter) == Step(Step(Step(Step(s, PollReturn(true)), Awake), BeginPending), Swap)
            && Run(s, enter).pc == Running(s.pending) && !Run(s, enter).ownerMid && Run(s, enter).quit == s.quit
  {
    var enter := [PollReturn(true), Awake, BeginPending, Swap];
    assert enter[1..] == [Awake, BeginPending, Swap];
    assert enter[1..][1..] == [BeginPending, Swap];
    assert enter[1..][1..][1..] == [Swap];
    assert enter[1..][1..][1..][1..] == [];
  }

  // ----- where the code falls short -----

  /** A push by the loop's own thread outside loop() is queued without a wakeup, the first time or any
      later one: the loop then sits in poll with work queued, nothing in the eventfd and nobody about
      to write it. */
  lemma OutsidePushIsNotAnnounced(s: Loop, task: Task)
    requires OutsideLoop(s) && !s.ownerMid && !s.calling
    requires s.pending == [] && s.counter == 0 && s.appended == {} && s.quitting == {}
    ensures var p := Step(Step(Step(Step(s, OwnerAppend(task)), OwnerTestFlag), StartLoop), CheckQuit);
            p.pc.AtPoll? && p.pending == [task] && p.counter == 0 && p.appended == {} && p.quitting == {}
  {
  }

  /** A quit that completes before loop() is called is forgotten: loop() clears the flag. */
  lemma EarlyQuitIsForgotten(owner: Tid, other: Tid)
    requires other != owner
    ensures var s := Step(Step(Step(Step(New(owner), StoreQuit(other)), WriteEventfd(other)), StartLoop), CheckQuit);
            s.pc.AtPoll? && !s.quit && s.quitting == {}
  {
  }
}
