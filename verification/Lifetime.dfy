/**
 What ownership across loops amounts to, over every run from a server without connections: when a freed
 connection's connDestory has run, when such a connection is still in an interest set, and what the
 runs without a stopping loop and without raw functors guarantee (src/tcp_server.cc with
 tcp_connection.cc, eventloop.cc and eventloop_thread.cc).
 */
module Lifetime {
  import Registry
  import opened Ownership

  // ----- moments of a run -----

  ghost function At(n: nat, t: seq<Action>, i: nat): Server
    requires 0 < n && i <= |t|
  {
    Run(New(n), t[..i])
  }

  /** At step i of the run, connDestory of c runs. */
  ghost predicate DestroysAt(n: nat, t: seq<Action>, i: nat, c: ConnId)
    requires 0 < n && i < |t|
  {
    c in At(n, t, i).conns && Destroys(At(n, t, i), t[i], c)
  }

  /** At step i the queue of c's stopped loop is thrown away with connDestory of c in it, still to run. */
  ghost predicate DropsAt(n: nat, t: seq<Action>, i: nat, c: ConnId)
    requires 0 < n && i < |t|
  {
    c in At(n, t, i).conns && Drops(At(n, t, i), t[i], c)
  }

  /** At step i c's handler closes, or drains the backlog with no read interest left. */
  ghost predicate SilencesAt(n: nat, t: seq<Action>, i: nat, c: ConnId)
    requires 0 < n && i < |t|
  {
    c in At(n, t, i).conns && Silences(At(n, t, i), t[i], c)
  }

  /** At step i a raw send of c runs after its connDestory, leaves bytes over and finds write interest
      off, so that it registers the channel. */
  ghost predicate SendsLateAt(n: nat, t: seq<Action>, i: nat, c: ConnId)
    requires 0 < n && i < |t|
  {
    c in At(n, t, i).conns && SendsLate(At(n, t, i), t[i], c)
  }

  ghost predicate EverDestroyed(n: nat, t: seq<Action>, c: ConnId)
    requires 0 < n
  {
    exists i :: 0 <= i < |t| && DestroysAt(n, t, i, c)
  }

  ghost predicate EverDropped(n: nat, t: seq<Action>, c: ConnId)
    requires 0 < n
  {
    exists i :: 0 <= i < |t| && DropsAt(n, t, i, c)
  }

  /** Step i is the last late send of c, and no connDestory of c comes after it. */
  ghost predicate LastSend(n: nat, t: seq<Action>, i: nat, c: ConnId)
    requires 0 < n && i < |t|
  {
    SendsLateAt(n, t, i, c) && forall j :: i < j < |t| ==> !SendsLateAt(n, t, j, c) && !DestroysAt(n, t, j, c)
  }

  ghost predicate SentSinceDestroy(n: nat, t: seq<Action>, c: ConnId)
    requires 0 < n
  {
    exists i :: 0 <= i < |t| && LastSend(n, t, i, c)
  }

  /** How many of the steps from k on silence c's channel. */
  ghost function Silencings(n: nat, t: seq<Action>, k: nat, c: ConnId): nat
    requires 0 < n && k <= |t|
    decreases |t| - k
  {
    if k == |t| then 0
    else (if SilencesAt(n, t, k, c) then 1 else 0) + Silencings(n, t, k + 1, c)
  }

  /** A late send registered the channel after the last connDestory, and it was silenced an even number
      of times since. */
  ghost predicate LeftRegistered(n: nat, t: seq<Action>, c: ConnId)
    requires 0 < n
  {
    exists i :: 0 <= i < |t| && LastSend(n, t, i, c) && Silencings(n, t, i + 1, c) % 2 == 0
  }

  lemma {:induction false} RunSplits(s: Server, t: seq<Action>, u: seq<Action>)
    requires 0 < |s.loops|
    ensures |Run(s, t).loops| == |s.loops| && Run(s, t + u) == Run(Run(s, t), u)
    decreases |t|
  {
    if t == [] {
      assert [] + u == u;
    } else {
      assert (t + u)[1..] == t[1..] + u;
      RunSplits(Step(s, t[0]), t[1..], u);
    }
  }

  lemma RunSnoc(s: Server, t: seq<Action>, a: Action)
    requires 0 < |s.loops|
    ensures |Run(s, t).loops| == |s.loops| && Run(s, t + [a]) == Step(Run(s, t), a)
  {
    RunSplits(s, t, [a]);
  }

  /** The moments of a run are those of its longer runs. */
  lemma Moments(n: nat, u: seq<Action>, a: Action, i: nat)
    requires 0 < n && i <= |u|
    ensures At(n, u + [a], i) == At(n, u, i)
    ensures i == |u| ==> At(n, u, i) == Run(New(n), u)
  {
    assert (u + [a])[..i] == u[..i];
    assert u[..|u|] == u;
  }

  lemma MomentsOf(n: nat, u: seq<Action>, a: Action, i: nat, c: ConnId)
    requires 0 < n && i < |u|
    ensures DestroysAt(n, u + [a], i, c) <==> DestroysAt(n, u, i, c)
    ensures DropsAt(n, u + [a], i, c) <==> DropsAt(n, u, i, c)
    ensures SendsLateAt(n, u + [a], i, c) <==> SendsLateAt(n, u, i, c)
    ensures SilencesAt(n, u + [a], i, c) <==> SilencesAt(n, u, i, c)
  {
    Moments(n, u, a, i);
  }

  lemma Reachable(n: nat, t: seq<Action>)
    requires 0 < n
    ensures Inv(Run(New(n), t))
  {
    assert Inv(New(n));
    RunKeepsInv(New(n), t);
  }

  /** A connection that appears in a step has no history yet. */
  lemma Newcomer(s: Server, a: Action, c: ConnId)
    requires 0 < |s.loops| && Enabled(s, a) && c !in s.conns && c in Apply(s, a).conns
    ensures Fresh(Apply(s, a).conns[c])
  {
  }

  ghost predicate Fresh(r: ConnRec) {
    !r.destroyed && !r.abandoned && !r.rawSince
  }

  lemma LastStep(s: Server, a: Action, c: ConnId)
    requires Inv(s)
    ensures var t := Step(s, a);
            if c in s.conns then
              c in t.conns && Evolves(s.conns[c], t.conns[c], Destroys(s, a, c), SendsLate(s, a, c),
                                      Drops(s, a, c), Silences(s, a, c))
            else c in t.conns ==> Fresh(t.conns[c])
  {
    if Enabled(s, a) {
      if c in s.conns {
        assert ConnOkAt(s, c);
        HistoryStep(s, a, c);
      } else if c in Apply(s, a).conns {
        Newcomer(s, a, c);
      }
    }
  }

  lemma LastMoment(n: nat, u: seq<Action>, a: Action, c: ConnId)
    requires 0 < n
    ensures var s, r := Run(New(n), u).conns, Run(New(n), u + [a]).conns;
            var t, k := u + [a], |u|;
            if c in s then
              c in r && Evolves(s[c], r[c], DestroysAt(n, t, k, c), SendsLateAt(n, t, k, c),
                                DropsAt(n, t, k, c), SilencesAt(n, t, k, c))
            else (c in r ==> Fresh(r[c])) && !DestroysAt(n, t, k, c) && !SendsLateAt(n, t, k, c) && !DropsAt(n, t, k, c)
  {
    RunSnoc(New(n), u, a);
    Moments(n, u, a, |u|);
    Reachable(n, u);
    LastStep(Run(New(n), u), a, c);
  }

  /** A connection's history fields say what happened in the run. */
  ghost predicate Traced(conns: map<ConnId, ConnRec>, n: nat, t: seq<Action>, c: ConnId)
    requires 0 < n
  {
    if c in conns then
      && (conns[c].destroyed <==> EverDestroyed(n, t, c))
      && (conns[c].abandoned <==> EverDropped(n, t, c))
      && (conns[c].rawSince <==> SentSinceDestroy(n, t, c))
      && SilencedSince(conns[c].silenced, n, t, c)
    else !EverDestroyed(n, t, c) && !EverDropped(n, t, c) && !SentSinceDestroy(n, t, c)
  }

  /** `k` counts the silencings after the last late send. */
  ghost predicate SilencedSince(k: nat, n: nat, t: seq<Action>, c: ConnId)
    requires 0 < n
  {
    forall i :: 0 <= i < |t| && LastSend(n, t, i, c) ==> k == Silencings(n, t, i + 1, c)
  }

  lemma SilencedStep(k: nat, k': nat, n: nat, u: seq<Action>, a: Action, c: ConnId)
    requires 0 < n && SilencedSince(k, n, u, c)
    requires k' == if SendsLateAt(n, u + [a], |u|, c) then 0 else k + if SilencesAt(n, u + [a], |u|, c) then 1 else 0
    ensures SilencedSince(k', n, u + [a], c)
  {
    forall i | 0 <= i < |u + [a]| && LastSend(n, u + [a], i, c)
      ensures k' == Silencings(n, u + [a], i + 1, c)
    {
      LastSendSplits(n, u, a, i, c);
      SilencingsSplit(n, u, a, i + 1, c);
    }
  }

  /** Without a late send there is nothing to count from. */
  lemma NothingSilenced(k: nat, n: nat, t: seq<Action>, c: ConnId)
    requires 0 < n && !SentSinceDestroy(n, t, c)
    ensures SilencedSince(k, n, t, c)
  {
  }

  lemma {:induction false} HistoryIsTrace(n: nat, t: seq<Action>, c: ConnId)
    requires 0 < n
    ensures Traced(Run(New(n), t).conns, n, t, c)
    decreases |t|
  {
    if t != [] {
      var u, a := t[..|t| - 1], t[|t| - 1];
      assert t == u + [a];
      HistoryIsTrace(n, u, c);
      EverSplits(n, u, a, c);
      SinceSplits(n, u, a, c);
      LastMoment(n, u, a, c);
      var before, after := Run(New(n), u).conns, Run(New(n), t).conns;
      if c in before {
        SilencedStep(before[c].silenced, after[c].silenced, n, u, a, c);
      } else if c in after {
        NothingSilenced(after[c].silenced, n, t, c);
      }
    }
  }

  lemma EverSplits(n: nat, u: seq<Action>, a: Action, c: ConnId)
    requires 0 < n
    ensures EverDestroyed(n, u + [a], c) <==> EverDestroyed(n, u, c) || DestroysAt(n, u + [a], |u|, c)
    ensures EverDropped(n, u + [a], c) <==> EverDropped(n, u, c) || DropsAt(n, u + [a], |u|, c)
  {
    forall i | 0 <= i < |u|
      ensures DestroysAt(n, u + [a], i, c) <==> DestroysAt(n, u, i, c)
      ensures DropsAt(n, u + [a], i, c) <==> DropsAt(n, u, i, c)
    {
      MomentsOf(n, u, a, i, c);
    }
  }

  lemma LastSendSplits(n: nat, u: seq<Action>, a: Action, i: nat, c: ConnId)
    requires 0 < n && i <= |u|
    ensures i < |u| ==>
              (LastSend(n, u + [a], i, c)
               <==> LastSend(n, u, i, c) && !SendsLateAt(n, u + [a], |u|, c) && !DestroysAt(n, u + [a], |u|, c))
    ensures i == |u| ==> (LastSend(n, u + [a], i, c) <==> SendsLateAt(n, u + [a], i, c))
  {
    forall j | 0 <= j < |u|
      ensures DestroysAt(n, u + [a], j, c) <==> DestroysAt(n, u, j, c)
      ensures SendsLateAt(n, u + [a], j, c) <==> SendsLateAt(n, u, j, c)
    {
      MomentsOf(n, u, a, j, c);
    }
  }

  lemma SinceSplits(n: nat, u: seq<Action>, a: Action, c: ConnId)
    requires 0 < n
    ensures SentSinceDestroy(n, u + [a], c) <==>
              (SentSinceDestroy(n, u, c) && !DestroysAt(n, u + [a], |u|, c)) || SendsLateAt(n, u + [a], |u|, c)
  {
    forall i | 0 <= i <= |u|
      ensures i < |u| ==>
                (LastSend(n, u + [a], i, c)
                 <==> LastSend(n, u, i, c) && !SendsLateAt(n, u + [a], |u|, c) && !DestroysAt(n, u + [a], |u|, c))
      ensures i == |u| ==> (LastSend(n, u + [a], i, c) <==> SendsLateAt(n, u + [a], i, c))
    {
      LastSendSplits(n, u, a, i, c);
    }
  }

  lemma {:induction false} SilencingsSplit(n: nat, u: seq<Action>, a: Action, k: nat, c: ConnId)
    requires 0 < n && k <= |u| + 1
    ensures Silencings(n, u + [a], k, c)
         == if k == |u| + 1 then 0
            else Silencings(n, u, k, c) + if SilencesAt(n, u + [a], |u|, c) then 1 else 0
    decreases |u| + 1 - k
  {
    if k < |u| {
      MomentsOf(n, u, a, k, c);
      SilencingsSplit(n, u, a, k + 1, c);
    }
  }

  // ----- when teardown is complete -----

  /** In every run, a connection is freed without its connDestory ever running exactly if its loop
      stopped and was destroyed with that connDestory still queued. */
  lemma FreedUndestroyedIff(n: nat, t: seq<Action>, c: ConnId)
    requires 0 < n && c in Run(New(n), t).freed
    ensures !EverDestroyed(n, t, c) <==> EverDropped(n, t, c)
  {
    Reachable(n, t);
    HistoryIsTrace(n, t, c);
    assert ConnOkAt(Run(New(n), t), c);
  }

  lemma GuardIsOwner(s: Server, l: LoopId)
    requires l < |s.loops|
    ensures s.loops[l].guard.Some? ==> Owned(s, s.loops[l].guard.value)
  {
    assert s.loops[l].guard.Some? ==> LoopOwns(s.loops[l], s.loops[l].guard.value);
  }

  /** In every run, a connection is freed while in its loop's interest set exactly if its connDestory was
      thrown away and the channel was registered when the loop stopped, or a raw send registered it
      after its last connDestory and since then it was silenced an even number of times: by a close,
      or by a write event that drained what that send left and found nothing to read for.  It is in no
      other loop's set, in no handler, and on an active list only after such a send. */
  lemma FreedRegisteredIff(n: nat, t: seq<Action>, c: ConnId, l: LoopId)
    requires 0 < n && c in Run(New(n), t).freed && l < |Run(New(n), t).loops|
    ensures var s := Run(New(n), t); var x := s.loops[l];
            && c in s.conns
            && (c in x.kernel <==>
                  l == s.conns[c].loop && ((EverDropped(n, t, c) && c in x.atStop) || LeftRegistered(n, t, c)))
            && (c in x.active ==> l == s.conns[c].loop && SentSinceDestroy(n, t, c))
            && x.guard != Some(c)
  {
    Reachable(n, t);
    HistoryIsTrace(n, t, c);
    var s := Run(New(n), t);
    assert ConnOkAt(s, c) && LoopFits(s, l);
    GuardIsOwner(s, l);
  }

  /** Nothing changes a freed connection's channel any more, so that this is about the moment at which
      it is freed; there the socket is closed, which takes it out of the set. */
  lemma FreedIsFrozen(s: Server, a: Action, c: ConnId)
    requires Inv(s) && c in s.freed
    ensures var t := Step(s, a);
            c in t.freed && Has(s, c) && Has(t, c) && t.conns[c].reg == s.conns[c].reg
            && (c in t.loops[s.conns[c].loop].kernel <==> c in s.loops[s.conns[c].loop].kernel)
  {
    StepKeepsInv(s, a);
    LastStep(s, a, c);
    if Enabled(s, a) {
      ApplyFreesNothing(s, a);
      FreedKeepsChannel(s, a, c);
    }
    assert ConnOkAt(s, c) && ConnOkAt(Step(s, a), c);
  }

  lemma FreedKeepsChannel(s: Server, a: Action, c: ConnId)
    requires Inv(s) && c in s.freed && Enabled(s, a) && c in Apply(s, a).conns
    ensures Apply(s, a).conns[c].reg == s.conns[c].reg
  {
    match a
    case Close(l) => GuardIsOwner(s, l);
    case Drain(l) => GuardIsOwner(s, l);
    case RunNext(l, blocked) =>
      var f := s.loops[l].todo[0];
      if !Raw(f) {
        QueuedIsOwned(s, l, f);
      }
      FunctorKeepsOthers(Pop(s, l), f, blocked, c);
    case _ =>
  }

  lemma FunctorKeepsOthers(s: Server, f: Functor, blocked: bool, c: ConnId)
    requires Has(s, f.c) && c in s.conns && (f.c == c ==> Raw(f) && c in s.freed)
    ensures RunFunctor(s, f, blocked).conns[c] == s.conns[c]
  {
  }

  /** Until connDestory runs or is thrown away the connection is alive, and either in the table or
      queued for it, never both and never neither. */
  lemma NoneForgotten(n: nat, t: seq<Action>, c: ConnId)
    requires 0 < n && c in Run(New(n), t).conns && !EverDestroyed(n, t, c) && !EverDropped(n, t, c)
    ensures var s := Run(New(n), t);
            s.conns[c].loop < |s.loops| && c !in s.freed
            && (c in s.table <==> Destroy(c) !in s.loops[s.conns[c].loop].todo)
  {
    Reachable(n, t);
    HistoryIsTrace(n, t, c);
    assert ConnOkAt(Run(New(n), t), c);
  }

  ghost predicate Quiet(l: LoopState) {
    l.todo == [] && l.held == {} && l.guard.None?
  }

  /** Nothing leaks either: once every loop has run or thrown away what was queued, the connections not
      yet freed are exactly those in the table, whose connDestory is neither done nor lost, and those
      user code keeps. */
  lemma ClosedConnectionsAreFreed(n: nat, t: seq<Action>, c: ConnId)
    requires 0 < n && c in Run(New(n), t).conns
    requires forall l :: 0 <= l < |Run(New(n), t).loops| ==> Quiet(Run(New(n), t).loops[l])
    ensures var s := Run(New(n), t); c in s.freed <==> c !in s.table && c !in s.userRefs
    ensures var s := Run(New(n), t); c in s.table <==> !EverDestroyed(n, t, c) && !EverDropped(n, t, c)
  {
    Reachable(n, t);
    HistoryIsTrace(n, t, c);
    var s := Run(New(n), t);
    assert ConnOkAt(s, c);
    forall l | 0 <= l < |s.loops| ensures !LoopOwns(s.loops[l], c) {
      assert Quiet(s.loops[l]);
    }
  }

  // ----- what the exceptions need -----

  /** Another thread has queued the raw functor g. */
  ghost predicate EverQueued(n: nat, t: seq<Action>, g: Functor)
    requires 0 < n
  {
    exists i :: 0 <= i < |t| && t[i] == QueueRaw(g) && Enabled(At(n, t, i), t[i])
  }

  /** loop() of loop l has returned for good. */
  ghost predicate EverStopped(n: nat, t: seq<Action>, l: LoopId)
    requires 0 < n
  {
    exists i :: 0 <= i < |t| && t[i] == StopLoop(l) && Enabled(At(n, t, i), t[i])
  }

  lemma EverGrows(n: nat, u: seq<Action>, a: Action)
    requires 0 < n
    ensures forall g :: EverQueued(n, u, g) || (a == QueueRaw(g) && Enabled(Run(New(n), u), a)) ==> EverQueued(n, u + [a], g)
    ensures forall l :: EverStopped(n, u, l) || (a == StopLoop(l) && Enabled(Run(New(n), u), a)) ==> EverStopped(n, u + [a], l)
  {
    forall i | 0 <= i <= |u| ensures At(n, u + [a], i) == At(n, u, i) {
      Moments(n, u, a, i);
    }
    Moments(n, u, a, |u|);
    assert (u + [a])[|u|] == a;
    forall g | EverQueued(n, u, g) ensures EverQueued(n, u + [a], g) {
      var i :| 0 <= i < |u| && u[i] == QueueRaw(g) && Enabled(At(n, u, i), u[i]);
      assert (u + [a])[i] == u[i];
    }
    forall l | EverStopped(n, u, l) ensures EverStopped(n, u + [a], l) {
      var i :| 0 <= i < |u| && u[i] == StopLoop(l) && Enabled(At(n, u, i), u[i]);
      assert (u + [a])[i] == u[i];
    }
  }

  /** What a step may do to the queues and phases: functors g are not queued, loops but l do not stop. */
  ghost predicate Steadfast(s: Server, t: Server, g: Functor, l: LoopId) {
    |t.loops| == |s.loops|
    && (forall m :: 0 <= m < |s.loops| && g in t.loops[m].todo ==> g in s.loops[m].todo)
    && (l < |s.loops| && t.loops[l].phase == Stopped ==> s.loops[l].phase == Stopped)
  }

  lemma PushSteadfast(s: Server, m: LoopId, f: Functor, g: Functor, l: LoopId)
    requires m < |s.loops| && f != g
    ensures Steadfast(s, Push(s, m, f), g, l)
  {
  }

  lemma SetChannelSteadfast(s: Server, c: ConnId, r: ConnRec, inKernel: bool, g: Functor, l: LoopId)
    requires Has(s, c)
    ensures Steadfast(s, SetChannel(s, c, r, inKernel), g, l)
  {
  }

  lemma DestroySteadfast(s: Server, c: ConnId, g: Functor, l: LoopId)
    requires Has(s, c)
    ensures Steadfast(s, ConnDestory(s, c), g, l)
  {
    var s0 := LeaveConnected(s, c);
    var r0 := s0.conns[c].(readSet := false, writeSet := false);
    var reg := NextReg(r0.reg, r0.readSet, r0.writeSet);
    SetChannelSteadfast(s0, c, r0.(reg := reg), reg == Registry.Added, g, l);
    var s1 := if s.conns[c].connected then DisableAll(s0, c) else s;
    var r1 := s1.conns[c];
    SetChannelSteadfast(s1, c, r1.(reg := Registry.Initialized, destroyed := true, rawSince := false),
                        c in s1.loops[r1.loop].kernel && r1.reg != Registry.Added, g, l);
  }

  lemma InterestSteadfast(s: Server, c: ConnId, r: ConnRec, g: Functor, l: LoopId)
    requires Has(s, c)
    ensures Steadfast(s, SetInterest(s, c, r), g, l)
  {
    var reg := NextReg(r.reg, r.readSet, r.writeSet);
    SetChannelSteadfast(s, c, r.(reg := reg), reg == Registry.Added, g, l);
  }

  lemma SilenceSteadfast(s: Server, c: ConnId, g: Functor, l: LoopId)
    requires Has(s, c)
    ensures Steadfast(s, Silence(s, c), g, l)
  {
    var r := s.conns[c];
    InterestSteadfast(s, c, r.(connected := false, readSet := false, writeSet := false, silenced := r.silenced + 1), g, l);
  }

  lemma DrainSteadfast(s: Server, c: ConnId, g: Functor, l: LoopId)
    requires Has(s, c)
    ensures Steadfast(s, DrainBacklog(s, c), g, l)
  {
    var r := s.conns[c];
    InterestSteadfast(s, c, r.(writeSet := false, silenced := r.silenced + if r.readSet then 0 else 1), g, l);
  }

  lemma KeepSteadfast(s: Server, c: ConnId, g: Functor, l: LoopId)
    requires Has(s, c)
    ensures Steadfast(s, KeepBacklog(s, c), g, l)
  {
    var r := s.conns[c];
    InterestSteadfast(s, c, r.(writeSet := true, rawSince := r.destroyed,
                               silenced := if r.destroyed then 0 else r.silenced), g, l);
  }

  lemma EstablishSteadfast(s: Server, c: ConnId, g: Functor, l: LoopId)
    requires Has(s, c)
    ensures Steadfast(s, ConnEstablish(s, c), g, l)
  {
    InterestSteadfast(s, c, s.conns[c].(connected := true, established := true, readSet := true), g, l);
  }

  lemma RemoveSteadfast(s: Server, m: LoopId, c: ConnId, g: Functor, l: LoopId)
    requires Has(s, c) && Raw(g)
    ensures Steadfast(s, RemoveConnectionInLoop(s, c), g, l) && Steadfast(s, RemoveConnection(s, m, c), g, l)
  {
    PushSteadfast(s.(table := s.table - {c}), s.conns[c].loop, Destroy(c), g, l);
    PushSteadfast(s, BASE, RemoveInLoop(c), g, l);
  }

  lemma FunctorSteadfast(s: Server, m: LoopId, blocked: bool, g: Functor, l: LoopId)
    requires 0 < |s.loops| && Enabled(s, RunNext(m, blocked)) && Raw(g)
    ensures Steadfast(s, Apply(s, RunNext(m, blocked)), g, l)
  {
    var f := s.loops[m].todo[0];
    var s1 := Pop(s, m);
    assert Steadfast(s, s1, g, l);
    RunSteadfast(s1, f, blocked, g, l);
  }

  lemma RunSteadfast(s: Server, f: Functor, blocked: bool, g: Functor, l: LoopId)
    requires Has(s, f.c) && Raw(g)
    ensures Steadfast(s, RunFunctor(s, f, blocked), g, l)
  {
    match f
    case RemoveInLoop(c) => RemoveSteadfast(s, BASE, c, g, l);
    case Establish(c) => EstablishSteadfast(s, c, g, l);
    case Destroy(c) => DestroySteadfast(s, c, g, l);
    case RawSend(c) => KeepSteadfast(s, c, g, l);
    case _ =>
  }

  lemma TurnSteadfast(s: Server, a: Action, g: Functor, l: LoopId)
    requires 0 < |s.loops| && Enabled(s, a) && (IsTurn(a) || a.BeginHandler?) && a != StopLoop(l)
    ensures Steadfast(s, Apply(s, a), g, l)
  {
  }

  lemma StepSteadfast(s: Server, a: Action, g: Functor, l: LoopId)
    requires 0 < |s.loops| && Enabled(s, a) && Raw(g) && a != QueueRaw(g) && a != StopLoop(l)
    ensures Steadfast(s, Apply(s, a), g, l)
  {
    match a
    case Accept(c, m) =>
      var s1 := s.(conns := s.conns[c := NewConn(m)], table := s.table + {c});
      EstablishSteadfast(s1, c, g, l);
      PushSteadfast(s1, m, Establish(c), g, l);
    case Close(m) =>
      var c := s.loops[m].guard.value;
      SilenceSteadfast(s, c, g, l);
      RemoveSteadfast(Silence(s, c), m, c, g, l);
    case Drain(m) => DrainSteadfast(s, s.loops[m].guard.value, g, l);
    case RunNext(m, blocked) => FunctorSteadfast(s, m, blocked, g, l);
    case DestructNext(c) =>
      DestroySteadfast(s.(table := s.table - {c}), c, g, l);
      PushSteadfast(s.(table := s.table - {c}), s.conns[c].loop, Destroy(c), g, l);
    case UserQueue(c) => PushSteadfast(s, s.conns[c].loop, User(c), g, l);
    case SendBlocks(c) => KeepSteadfast(s, c, g, l);
    case QueueRaw(f) => PushSteadfast(s, s.conns[f.c].loop, f, g, l);
    case BeginDestructor =>
    case UserKeep(_) =>
    case UserDrop(_) =>
    case StopSending(_) =>
    case _ => TurnSteadfast(s, a, g, l);
  }

  /** A raw functor is in a queue only if it was queued, and a loop is stopped only if it stopped. */
  lemma {:induction false} OnlyIfQueued(n: nat, t: seq<Action>, g: Functor, l: LoopId)
    requires 0 < n && Raw(g)
    ensures var s := Run(New(n), t);
            && (forall m :: 0 <= m < |s.loops| && g in s.loops[m].todo ==> EverQueued(n, t, g))
            && (l < |s.loops| && s.loops[l].phase == Stopped ==> EverStopped(n, t, l))
    decreases |t|
  {
    if t != [] {
      var u, a := t[..|t| - 1], t[|t| - 1];
      assert t == u + [a];
      OnlyIfQueued(n, u, g, l);
      RunSnoc(New(n), u, a);
      EverGrows(n, u, a);
      var s := Run(New(n), u);
      if Enabled(s, a) {
        if a != QueueRaw(g) && a != StopLoop(l) {
          StepSteadfast(s, a, g, l);
        }
      }
    }
  }

  /** A late send of c has been queued by another thread. */
  lemma SentOnlyIfQueued(n: nat, t: seq<Action>, i: nat, c: ConnId)
    requires 0 < n && i < |t| && SendsLateAt(n, t, i, c)
    ensures EverQueued(n, t, RawSend(c))
  {
    var s := At(n, t, i);
    var g := RawSend(c);
    assert g in s.loops[t[i].l].todo;
    OnlyIfQueued(n, t[..i], g, 0);
    var k :| 0 <= k < i && t[..i][k] == QueueRaw(g) && Enabled(At(n, t[..i], k), t[..i][k]);
    assert t[..i][..k] == t[..k];
    assert t[k] == QueueRaw(g) && Enabled(At(n, t, k), t[k]);
  }

  ghost predicate RawQueued(n: nat, t: seq<Action>, c: ConnId)
    requires 0 < n
  {
    EverQueued(n, t, RawSend(c)) || EverQueued(n, t, RawShutdown(c))
  }

  /** Something raw is behind c: a send that ran late, or a functor still queued. */
  ghost predicate RawTrail(s: Server, c: ConnId) {
    c in s.conns
    && (s.conns[c].rawSince
        || exists m :: 0 <= m < |s.loops| && (RawSend(c) in s.loops[m].todo || RawShutdown(c) in s.loops[m].todo))
  }

  lemma DispatchTouches(s: Server, l: LoopId, c: ConnId)
    requires Inv(s) && Enabled(s, BeginHandler(l)) && c in Dispatch(s, l).dangling && c !in s.dangling
    ensures RawTrail(s, c)
  {
    assert LoopFits(s, l) && c in s.loops[l].active && ConnOkAt(s, c);
  }

  lemma FunctorTouches(s: Server, f: Functor, blocked: bool, c: ConnId)
    requires Has(s, f.c) && c in RunFunctor(s, f, blocked).dangling && c !in s.dangling
    ensures Raw(f) && f.c == c
  {
  }

  lemma TouchedBy(s: Server, a: Action, c: ConnId)
    requires Inv(s) && Enabled(s, a) && c in Apply(s, a).dangling && c !in s.dangling
    ensures RawTrail(s, c)
  {
    match a
    case BeginHandler(l) => DispatchTouches(s, l, c);
    case RunNext(l, blocked) =>
      FunctorTouches(Pop(s, l), s.loops[l].todo[0], blocked, c);
      assert s.loops[l].todo[0] in s.loops[l].todo;
    case _ =>
  }

  /** A freed connection is reached only if another thread's send() or shutdown() on that very connection
      was queued, whichever loops stop and whatever they leave behind. */
  lemma {:induction false} UseAfterFreeNeedsRaw(n: nat, t: seq<Action>, c: ConnId)
    requires 0 < n && c in Run(New(n), t).dangling
    ensures RawQueued(n, t, c)
    decreases |t|
  {
    if t != [] {
      var u, a := t[..|t| - 1], t[|t| - 1];
      assert t == u + [a];
      RunSnoc(New(n), u, a);
      EverGrows(n, u, a);
      var s := Run(New(n), u);
      if c in s.dangling {
        UseAfterFreeNeedsRaw(n, u, c);
      } else {
        Reachable(n, u);
        TouchedBy(s, a, c);
        RawBehind(n, u, c);
      }
    }
  }

  lemma RawBehind(n: nat, t: seq<Action>, c: ConnId)
    requires 0 < n && RawTrail(Run(New(n), t), c)
    ensures RawQueued(n, t, c)
  {
    var s := Run(New(n), t);
    if s.conns[c].rawSince {
      RawSinceNeedsSend(n, t, c);
    } else {
      var m :| 0 <= m < |s.loops| && (RawSend(c) in s.loops[m].todo || RawShutdown(c) in s.loops[m].todo);
      OnlyIfQueued(n, t, RawSend(c), 0);
      OnlyIfQueued(n, t, RawShutdown(c), 0);
    }
  }

  lemma RawSinceNeedsSend(n: nat, t: seq<Action>, c: ConnId)
    requires 0 < n && c in Run(New(n), t).conns && Run(New(n), t).conns[c].rawSince
    ensures EverQueued(n, t, RawSend(c))
  {
    HistoryIsTrace(n, t, c);
    var i :| 0 <= i < |t| && LastSend(n, t, i, c);
    SentOnlyIfQueued(n, t, i, c);
  }

  /** Lifetime across loops: a freed connection whose loop never stopped and on which no other thread
      called send() is in no loop's interest set, on no active list and in no handler, and its
      connDestory has run, whatever happens to other connections and other loops. */
  lemma LifetimeAcrossLoops(n: nat, t: seq<Action>, c: ConnId, l: LoopId)
    requires 0 < n && c in Run(New(n), t).freed && l < |Run(New(n), t).loops|
    requires c in Run(New(n), t).conns && !EverStopped(n, t, Run(New(n), t).conns[c].loop)
    requires !EverQueued(n, t, RawSend(c))
    ensures var x := Run(New(n), t).loops[l]; c !in x.kernel && c !in x.active && x.guard != Some(c)
    ensures EverDestroyed(n, t, c)
  {
    var s := Run(New(n), t);
    Reachable(n, t);
    HistoryIsTrace(n, t, c);
    OnlyIfQueued(n, t, RawSend(c), s.conns[c].loop);
    assert ConnOkAt(s, c);
    FreedRegisteredIff(n, t, c, l);
    FreedUndestroyedIff(n, t, c);
    if s.conns[c].rawSince {
      RawSinceNeedsSend(n, t, c);
    }
  }

  // ----- order -----

  /** What loop `l` is about to do to a connection finds it established, or is its connEstablish. */
  ghost predicate EstablishedFirst(s: Server, l: LoopId)
    requires l < |s.loops|
  {
    && (Enabled(s, Close(l)) ==> s.conns[s.loops[l].guard.value].established)
    && (Enabled(s, RunNext(l, true)) ==>
          match s.loops[l].todo[0]
          case Establish(c) => !s.conns[c].established && !s.conns[c].destroyed
          case User(_) => true
          case f => s.conns[f.c].established)
    && (forall c :: Enabled(s, DestructNext(c)) && s.conns[c].loop == BASE ==> s.conns[c].established)
  }

  lemma CoreEstablishesFirst(s: Server, l: LoopId)
    requires Core(s) && l < |s.loops|
    ensures EstablishedFirst(s, l)
  {
    assert LoopFits(s, l);
    if Enabled(s, Close(l)) {
      assert ConnOkAt(s, s.loops[l].guard.value);
    }
    if Enabled(s, RunNext(l, true)) {
      var f := s.loops[l].todo[0];
      assert f in s.loops[l].todo && ConnOkAt(s, f.c);
    }
    forall c | Enabled(s, DestructNext(c)) && s.conns[c].loop == BASE ensures s.conns[c].established {
      assert ConnOkAt(s, c);
    }
  }

  /** connEstablish runs once, and before any handleClose, connDestory or late send, whether connDestory
      comes by way of a close or of the server's destructor, queued or on the spot. */
  lemma EstablishPrecedesDestroy(n: nat, t: seq<Action>, l: LoopId)
    requires 0 < n && l < |Run(New(n), t).loops|
    ensures EstablishedFirst(Run(New(n), t), l)
  {
    Reachable(n, t);
    CoreEstablishesFirst(Run(New(n), t), l);
  }
}
