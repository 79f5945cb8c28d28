/**
 The server of module Ownership accounted for by its runs (src/tcp_server.cc, src/tcp_connection.cc):
 which functors stand in which queue, which connections stand in the table, what a channel waits for,
 who has been reached too late; and, from these, that a close leads out of the table.
 */
module OwnershipLedger {
  import Registry
  import opened Ownership
  import opened Lifetime

  // ----- steps that change one channel and nothing else -----

  /** Only connections' records and interest sets differ. */
  ghost predicate SameBooks(s: Server, t: Server) {
    && |t.loops| == |s.loops|
    && (forall m :: 0 <= m < |s.loops| ==> t.loops[m] == s.loops[m].(kernel := t.loops[m].kernel))
    && t == s.(loops := t.loops, conns := t.conns)
  }

  lemma SetChannelBooks(s: Server, c: ConnId, r: ConnRec, inKernel: bool)
    requires Has(s, c)
    ensures SameBooks(s, SetChannel(s, c, r, inKernel))
  {
  }

  lemma InterestBooks(s: Server, c: ConnId, r: ConnRec)
    requires Has(s, c)
    ensures SameBooks(s, SetInterest(s, c, r))
  {
    var reg := NextReg(r.reg, r.readSet, r.writeSet);
    SetChannelBooks(s, c, r.(reg := reg), reg == Registry.Added);
  }

  lemma EstablishBooks(s: Server, c: ConnId)
    requires Has(s, c)
    ensures SameBooks(s, ConnEstablish(s, c))
  {
    InterestBooks(s, c, s.conns[c].(connected := true, established := true, readSet := true));
  }

  lemma SilenceBooks(s: Server, c: ConnId)
    requires Has(s, c)
    ensures SameBooks(s, Silence(s, c))
  {
    var r := s.conns[c];
    InterestBooks(s, c, r.(connected := false, readSet := false, writeSet := false, silenced := r.silenced + 1));
  }

  lemma BacklogBooks(s: Server, c: ConnId)
    requires Has(s, c)
    ensures SameBooks(s, DrainBacklog(s, c)) && SameBooks(s, KeepBacklog(s, c))
  {
    var r := s.conns[c];
    InterestBooks(s, c, r.(writeSet := false, silenced := r.silenced + if r.readSet then 0 else 1));
    InterestBooks(s, c, r.(writeSet := true, rawSince := r.destroyed,
                           silenced := if r.destroyed then 0 else r.silenced));
  }

  lemma DestroyBooks(s: Server, c: ConnId)
    requires Has(s, c)
    ensures SameBooks(s, ConnDestory(s, c))
  {
    var s0 := LeaveConnected(s, c);
    InterestBooks(s0, c, s0.conns[c].(readSet := false, writeSet := false));
    var s1 := if s.conns[c].connected then DisableAll(s0, c) else s;
    assert SameBooks(s, s1);
    var r1 := s1.conns[c];
    SetChannelBooks(s1, c, r1.(reg := Registry.Initialized, destroyed := true, rawSince := false),
                    c in s1.loops[r1.loop].kernel && r1.reg != Registry.Added);
  }

  // ----- the queues -----

  /** What a close of c, noticed on loop l, queues on loop m. */
  ghost function CloseQueues(s: Server, l: LoopId, c: ConnId, m: LoopId): seq<Functor>
    requires Has(s, c)
  {
    if s.dying then []
    else if l == BASE then (if m == s.conns[c].loop then [Destroy(c)] else [])
    else (if m == BASE then [RemoveInLoop(c)] else [])
  }

  /** The functors a step queues on loop m. */
  ghost function Queues(s: Server, a: Action, m: LoopId): seq<Functor>
    requires 0 < |s.loops| && Enabled(s, a)
  {
    match a
    case Accept(c, l) => if m == l != BASE then [Establish(c)] else []
    case Close(l) => CloseQueues(s, l, s.loops[l].guard.value, m)
    case RunNext(l, _) =>
      var f := s.loops[l].todo[0];
      if f.RemoveInLoop? then CloseQueues(s, BASE, f.c, m) else []
    case DestructNext(c) => if m == s.conns[c].loop != BASE then [Destroy(c)] else []
    case UserQueue(c) => if m == s.conns[c].loop then [User(c)] else []
    case QueueRaw(f) => if m == s.conns[f.c].loop then [f] else []
    case _ => []
  }

  /** The functors a step takes from the front of loop m's queue to run them. */
  ghost function Takes(s: Server, a: Action, m: LoopId): seq<Functor>
    requires Enabled(s, a)
  {
    if a.RunNext? && a.l == m then [s.loops[m].todo[0]] else []
  }

  lemma CloseStepQueues(s: Server, l: LoopId, c: ConnId, m: LoopId)
    requires Has(s, c) && 0 < |s.loops| && m < |s.loops|
    ensures RemoveConnection(s, l, c).loops[m].todo == s.loops[m].todo + CloseQueues(s, l, c, m)
    ensures RemoveConnectionInLoop(s, c).loops[m].todo == s.loops[m].todo + CloseQueues(s, BASE, c, m)
    ensures RemoveConnection(s, l, c).table == s.table - if !s.dying && l == BASE then {c} else {}
    ensures RemoveConnectionInLoop(s, c).table == s.table - if !s.dying then {c} else {}
    ensures RemoveConnection(s, l, c).conns == s.conns == RemoveConnectionInLoop(s, c).conns
    ensures RemoveConnection(s, l, c).dangling == s.dangling == RemoveConnectionInLoop(s, c).dangling
  {
  }

  lemma FunctorQueues(s: Server, f: Functor, blocked: bool, m: LoopId)
    requires Has(s, f.c) && 0 < |s.loops| && m < |s.loops|
    ensures RunFunctor(s, f, blocked).loops[m].todo
         == s.loops[m].todo + if f.RemoveInLoop? then CloseQueues(s, BASE, f.c, m) else []
    ensures RunFunctor(s, f, blocked).table == s.table - if f.RemoveInLoop? && !s.dying then {f.c} else {}
    ensures RunFunctor(s, f, blocked).dangling == s.dangling + if Raw(f) && f.c in s.freed then {f.c} else {}
  {
    match f
    case Establish(c) => EstablishBooks(s, c);
    case RemoveInLoop(c) => CloseStepQueues(s, BASE, c, m);
    case Destroy(c) => DestroyBooks(s, c);
    case RawSend(c) => BacklogBooks(s, c);
    case _ =>
  }

  ghost predicate QueueMoves(s: Server, a: Action, m: LoopId)
    requires 0 < |s.loops| && Enabled(s, a) && m < |s.loops|
  {
    var todo := Apply(s, a).loops[m].todo;
    if a == DropLoop(m) then todo == []
    else Takes(s, a, m) + todo == s.loops[m].todo + Queues(s, a, m)
  }

  lemma AcceptQueues(s: Server, c: ConnId, l: LoopId, m: LoopId)
    requires 0 < |s.loops| && Enabled(s, Accept(c, l)) && m < |s.loops|
    ensures QueueMoves(s, Accept(c, l), m)
  {
    EstablishBooks(s.(conns := s.conns[c := NewConn(l)], table := s.table + {c}), c);
  }

  lemma HandlerQueues(s: Server, a: Action, m: LoopId)
    requires 0 < |s.loops| && Enabled(s, a) && m < |s.loops| && (a.Close? || a.Drain? || a.SendBlocks?)
    ensures QueueMoves(s, a, m)
  {
    match a
    case Close(l) =>
      var c := s.loops[l].guard.value;
      SilenceBooks(s, c);
      CloseStepQueues(Silence(s, c), l, c, m);
    case Drain(l) => BacklogBooks(s, s.loops[l].guard.value);
    case SendBlocks(c) => BacklogBooks(s, c);
  }

  lemma RunNextQueues(s: Server, l: LoopId, blocked: bool, m: LoopId)
    requires 0 < |s.loops| && Enabled(s, RunNext(l, blocked)) && m < |s.loops|
    ensures QueueMoves(s, RunNext(l, blocked), m)
  {
    FunctorQueues(Pop(s, l), s.loops[l].todo[0], blocked, m);
  }

  lemma DestructQueues(s: Server, c: ConnId, m: LoopId)
    requires 0 < |s.loops| && Enabled(s, DestructNext(c)) && m < |s.loops|
    ensures QueueMoves(s, DestructNext(c), m)
  {
    DestroyBooks(s.(table := s.table - {c}), c);
  }

  lemma TurnQueues(s: Server, a: Action, m: LoopId)
    requires 0 < |s.loops| && Enabled(s, a) && m < |s.loops| && (IsTurn(a) || a.BeginHandler?)
    ensures QueueMoves(s, a, m)
  {
  }

  /** Every queue is first in, first out: a step takes at most its front, and adds what the step is for. */
  lemma QueueStep(s: Server, a: Action, m: LoopId)
    requires 0 < |s.loops| && Enabled(s, a) && m < |s.loops|
    ensures QueueMoves(s, a, m)
  {
    match a
    case Accept(c, l) => AcceptQueues(s, c, l, m);
    case Close(_) => HandlerQueues(s, a, m);
    case Drain(_) => HandlerQueues(s, a, m);
    case SendBlocks(_) => HandlerQueues(s, a, m);
    case RunNext(l, blocked) => RunNextQueues(s, l, blocked, m);
    case DestructNext(c) => DestructQueues(s, c, m);
    case UserQueue(_) =>
    case QueueRaw(_) =>
    case BeginDestructor =>
    case UserKeep(_) =>
    case UserDrop(_) =>
    case StopSending(_) =>
    case _ => TurnQueues(s, a, m);
  }

  // ----- the table -----

  /** The step erases c from the table: a close noticed on the base loop, the removal it queues there
      otherwise, or the destructor. */
  ghost predicate Erases(s: Server, a: Action, c: ConnId) {
    Enabled(s, a)
    && match a
       case Close(l) => l == BASE && !s.dying && s.loops[l].guard == Some(c)
       case RunNext(l, _) => s.loops[l].todo[0] == RemoveInLoop(c) && !s.dying
       case DestructNext(d) => d == c
       case _ => false
  }

  lemma TableStep(s: Server, a: Action, c: ConnId)
    requires 0 < |s.loops| && Enabled(s, a)
    ensures c in Apply(s, a).table <==> (c in s.table && !Erases(s, a, c)) || (a.Accept? && a.c == c)
  {
    match a
    case Accept(d, l) => EstablishBooks(s.(conns := s.conns[d := NewConn(l)], table := s.table + {d}), d);
    case Close(l) =>
      var d := s.loops[l].guard.value;
      SilenceBooks(s, d);
      CloseStepQueues(Silence(s, d), l, d, 0);
    case Drain(l) => BacklogBooks(s, s.loops[l].guard.value);
    case SendBlocks(d) => BacklogBooks(s, d);
    case RunNext(l, blocked) => FunctorQueues(Pop(s, l), s.loops[l].todo[0], blocked, 0);
    case DestructNext(d) => DestroyBooks(s.(table := s.table - {d}), d);
    case _ =>
  }

  // ----- freed connections reached -----

  /** The step reaches c through a pointer although it has been freed: as an active channel, or in a raw
      functor. */
  ghost predicate Reaches(s: Server, a: Action, c: ConnId) {
    Enabled(s, a) && c in s.freed
    && match a
       case BeginHandler(l) => s.loops[l].active[0] == c
       case RunNext(l, _) => Raw(s.loops[l].todo[0]) && s.loops[l].todo[0].c == c
       case _ => false
  }

  lemma ReachStep(s: Server, a: Action, c: ConnId)
    requires 0 < |s.loops| && Enabled(s, a)
    ensures c in Apply(s, a).dangling <==> c in s.dangling || Reaches(s, a, c)
  {
    match a
    case Accept(d, l) => EstablishBooks(s.(conns := s.conns[d := NewConn(l)], table := s.table + {d}), d);
    case Close(l) =>
      var d := s.loops[l].guard.value;
      SilenceBooks(s, d);
      CloseStepQueues(Silence(s, d), l, d, 0);
    case Drain(l) => BacklogBooks(s, s.loops[l].guard.value);
    case SendBlocks(d) => BacklogBooks(s, d);
    case RunNext(l, blocked) => FunctorQueues(Pop(s, l), s.loops[l].todo[0], blocked, 0);
    case DestructNext(d) => DestroyBooks(s.(table := s.table - {d}), d);
    case _ =>
  }

  // ----- the three over whole runs -----

  /** Functors queued on loop m, and functors taken from its queue, since that queue was last thrown away. */
  ghost function QueuedIn(n: nat, t: seq<Action>, m: LoopId): seq<Functor>
    requires 0 < n
    decreases |t|
  {
    if t == [] then []
    else
      var u, a := t[..|t| - 1], t[|t| - 1];
      RunSnoc(New(n), u, a);
      var s := Run(New(n), u);
      if !Enabled(s, a) then QueuedIn(n, u, m)
      else if a == DropLoop(m) then []
      else QueuedIn(n, u, m) + Queues(s, a, m)
  }

  ghost function TakenIn(n: nat, t: seq<Action>, m: LoopId): seq<Functor>
    requires 0 < n && m < n
    decreases |t|
  {
    if t == [] then []
    else
      var u, a := t[..|t| - 1], t[|t| - 1];
      RunSnoc(New(n), u, a);
      var s := Run(New(n), u);
      if !Enabled(s, a) then TakenIn(n, u, m)
      else if a == DropLoop(m) then []
      else TakenIn(n, u, m) + Takes(s, a, m)
  }

  /** In every run each loop runs the functors queued on it once each and in order: those run and those
      waiting are all that were queued since its queue was last thrown away. */
  lemma {:induction false} QueueIsTrace(n: nat, t: seq<Action>, m: LoopId)
    requires 0 < n && m < n
    ensures |Run(New(n), t).loops| == n
    ensures TakenIn(n, t, m) + Run(New(n), t).loops[m].todo == QueuedIn(n, t, m)
    decreases |t|
  {
    if t != [] {
      var u, a := t[..|t| - 1], t[|t| - 1];
      assert t == u + [a];
      RunSnoc(New(n), u, a);
      QueueIsTrace(n, u, m);
      var s := Run(New(n), u);
      if Enabled(s, a) {
        QueueStep(s, a, m);
        Regroup(TakenIn(n, u, m), Takes(s, a, m), Apply(s, a).loops[m].todo, s.loops[m].todo, Queues(s, a, m));
      }
    }
  }

  lemma Regroup(x: seq<Functor>, y: seq<Functor>, z: seq<Functor>, v: seq<Functor>, w: seq<Functor>)
    ensures y + z == v + w ==> (x + y) + z == (x + v) + w
  {
    assert (x + y) + z == x + (y + z) && (x + v) + w == x + (v + w);
  }

  ghost predicate ErasesAt(n: nat, t: seq<Action>, i: nat, c: ConnId)
    requires 0 < n && i < |t|
  {
    c in At(n, t, i).conns && Erases(At(n, t, i), t[i], c)
  }

  ghost predicate EverErased(n: nat, t: seq<Action>, c: ConnId)
    requires 0 < n
  {
    exists i :: 0 <= i < |t| && ErasesAt(n, t, i, c)
  }

  ghost predicate ReachesAt(n: nat, t: seq<Action>, i: nat, c: ConnId)
    requires 0 < n && i < |t|
  {
    Reaches(At(n, t, i), t[i], c)
  }

  ghost predicate EverReached(n: nat, t: seq<Action>, c: ConnId)
    requires 0 < n
  {
    exists i :: 0 <= i < |t| && ReachesAt(n, t, i, c)
  }

  /** c's handler runs handleClose at step i. */
  ghost predicate ClosesAt(n: nat, t: seq<Action>, i: nat, c: ConnId)
    requires 0 < n && i < |t|
  {
    var s := At(n, t, i);
    Enabled(s, t[i]) && t[i].Close? && s.loops[t[i].l].guard == Some(c)
  }

  ghost predicate EverClosed(n: nat, t: seq<Action>, c: ConnId)
    requires 0 < n
  {
    exists i :: 0 <= i < |t| && ClosesAt(n, t, i, c)
  }

  lemma SameMoment(n: nat, u: seq<Action>, a: Action, i: nat, c: ConnId)
    requires 0 < n && i < |u|
    ensures ErasesAt(n, u + [a], i, c) <==> ErasesAt(n, u, i, c)
    ensures ReachesAt(n, u + [a], i, c) <==> ReachesAt(n, u, i, c)
    ensures ClosesAt(n, u + [a], i, c) <==> ClosesAt(n, u, i, c)
  {
    Moments(n, u, a, i);
    assert (u + [a])[i] == u[i];
  }

  lemma ErasedOneMore(n: nat, u: seq<Action>, a: Action, c: ConnId)
    requires 0 < n
    ensures EverErased(n, u + [a], c) <==> EverErased(n, u, c) || ErasesAt(n, u + [a], |u|, c)
  {
    forall i | 0 <= i < |u| ensures ErasesAt(n, u + [a], i, c) <==> ErasesAt(n, u, i, c) {
      SameMoment(n, u, a, i, c);
    }
  }

  lemma ReachedOneMore(n: nat, u: seq<Action>, a: Action, c: ConnId)
    requires 0 < n
    ensures EverReached(n, u + [a], c) <==> EverReached(n, u, c) || ReachesAt(n, u + [a], |u|, c)
  {
    forall i | 0 <= i < |u| ensures ReachesAt(n, u + [a], i, c) <==> ReachesAt(n, u, i, c) {
      SameMoment(n, u, a, i, c);
    }
  }

  lemma ClosedOneMore(n: nat, u: seq<Action>, a: Action, c: ConnId)
    requires 0 < n
    ensures EverClosed(n, u + [a], c) <==> EverClosed(n, u, c) || ClosesAt(n, u + [a], |u|, c)
  {
    forall i | 0 <= i < |u| ensures ClosesAt(n, u + [a], i, c) <==> ClosesAt(n, u, i, c) {
      SameMoment(n, u, a, i, c);
    }
  }

  /** Connections are made by newConnection only, and are never forgotten. */
  lemma ConnsStep(s: Server, a: Action, c: ConnId)
    requires Inv(s) && Enabled(s, a)
    ensures c in Apply(s, a).conns <==> c in s.conns || (a.Accept? && a.c == c)
  {
    if c in s.conns {
      LastStep(s, a, c);
    }
  }

  /** In every run the table holds the connections made and never erased. */
  lemma {:induction false} TableIsTrace(n: nat, t: seq<Action>, c: ConnId)
    requires 0 < n
    ensures var s := Run(New(n), t); c in s.table <==> c in s.conns && !EverErased(n, t, c)
    ensures c !in Run(New(n), t).conns ==> !EverErased(n, t, c)
    decreases |t|
  {
    if t != [] {
      var u, a := t[..|t| - 1], t[|t| - 1];
      assert t == u + [a];
      RunSnoc(New(n), u, a);
      Moments(n, u, a, |u|);
      ErasedOneMore(n, u, a, c);
      TableIsTrace(n, u, c);
      Reachable(n, u);
      var s := Run(New(n), u);
      if Enabled(s, a) {
        TableStep(s, a, c);
        ConnsStep(s, a, c);
      }
    }
  }

  /** In every run the freed connections counted as reached are those that some step reached. */
  lemma {:induction false} ReachedIsTrace(n: nat, t: seq<Action>, c: ConnId)
    requires 0 < n
    ensures c in Run(New(n), t).dangling <==> EverReached(n, t, c)
    decreases |t|
  {
    if t != [] {
      var u, a := t[..|t| - 1], t[|t| - 1];
      assert t == u + [a];
      RunSnoc(New(n), u, a);
      Moments(n, u, a, |u|);
      ReachedOneMore(n, u, a, c);
      ReachedIsTrace(n, u, c);
      var s := Run(New(n), u);
      if Enabled(s, a) {
        ReachStep(s, a, c);
      }
    }
  }

  // ----- user code's copies -----

  lemma FunctorRefs(s: Server, f: Functor, blocked: bool)
    requires Has(s, f.c)
    ensures RunFunctor(s, f, blocked).userRefs == s.userRefs
  {
    match f
    case Establish(c) => EstablishBooks(s, c);
    case Destroy(c) => DestroyBooks(s, c);
    case RawSend(c) => BacklogBooks(s, c);
    case _ =>
  }

  lemma RefsStep(s: Server, a: Action, c: ConnId)
    requires 0 < |s.loops| && Enabled(s, a)
    ensures Apply(s, a).userRefs[c] + (if a == UserDrop(c) then 1 else 0)
         == s.userRefs[c] + if a == UserKeep(c) then 1 else 0
  {
    match a
    case Accept(d, l) => EstablishBooks(s.(conns := s.conns[d := NewConn(l)], table := s.table + {d}), d);
    case Close(l) => SilenceBooks(s, s.loops[l].guard.value);
    case Drain(l) => BacklogBooks(s, s.loops[l].guard.value);
    case SendBlocks(d) => BacklogBooks(s, d);
    case RunNext(l, blocked) => FunctorRefs(Pop(s, l), s.loops[l].todo[0], blocked);
    case DestructNext(d) => DestroyBooks(s.(table := s.table - {d}), d);
    case _ =>
  }

  /** How many copies user code made of c, less those it gave up. */
  ghost function CopiesIn(n: nat, t: seq<Action>, c: ConnId): int
    requires 0 < n
    decreases |t|
  {
    if t == [] then 0
    else
      var u, a := t[..|t| - 1], t[|t| - 1];
      CopiesIn(n, u, c)
      + if !Enabled(Run(New(n), u), a) then 0 else if a == UserKeep(c) then 1 else if a == UserDrop(c) then -1 else 0
  }

  lemma {:induction false} CopiesAreTrace(n: nat, t: seq<Action>, c: ConnId)
    requires 0 < n
    ensures Run(New(n), t).userRefs[c] == CopiesIn(n, t, c)
    decreases |t|
  {
    if t != [] {
      var u, a := t[..|t| - 1], t[|t| - 1];
      assert t == u + [a];
      RunSnoc(New(n), u, a);
      CopiesAreTrace(n, u, c);
      var s := Run(New(n), u);
      if Enabled(s, a) {
        RefsStep(s, a, c);
      }
    }
  }

  // ----- a close leads out of the table -----

  /** The removal of c from the table is on its way to the base loop, or done. */
  ghost predicate Leaving(s: Server, c: ConnId) {
    (0 < |s.loops| && RemoveInLoop(c) in s.loops[BASE].todo) || c !in s.table
  }

  lemma DyingStays(s: Server, a: Action)
    requires 0 < |s.loops|
    ensures s.dying ==> Step(s, a).dying
  {
    if Enabled(s, a) {
      match a
      case Accept(c, l) => EstablishBooks(s.(conns := s.conns[c := NewConn(l)], table := s.table + {c}), c);
      case Close(l) => SilenceBooks(s, s.loops[l].guard.value);
      case Drain(l) => BacklogBooks(s, s.loops[l].guard.value);
      case SendBlocks(c) => BacklogBooks(s, c);
      case RunNext(l, blocked) => FunctorDying(Pop(s, l), s.loops[l].todo[0], blocked);
      case DestructNext(c) => DestroyBooks(s.(table := s.table - {c}), c);
      case _ =>
    }
  }

  lemma FunctorDying(s: Server, f: Functor, blocked: bool)
    requires Has(s, f.c)
    ensures RunFunctor(s, f, blocked).dying == s.dying
  {
    match f
    case Establish(c) => EstablishBooks(s, c);
    case Destroy(c) => DestroyBooks(s, c);
    case RawSend(c) => BacklogBooks(s, c);
    case _ =>
  }

  /** A functor in a queue stays there until it is at the front and taken. */
  lemma StaysQueued(before: seq<Functor>, added: seq<Functor>, taken: seq<Functor>, after: seq<Functor>, f: Functor)
    requires taken + after == before + added && |taken| <= |before|
    ensures f in before && f !in taken ==> f in after
    ensures f in added ==> f in after
    ensures f in after ==> f in before || f in added
  {
    assert after == (before + added)[|taken|..];
    assert added == after[|before| - |taken|..];
    assert f in taken + after <==> f in before + added;
  }

  lemma LeavingStep(s: Server, a: Action, c: ConnId)
    requires 0 < |s.loops| && Enabled(s, a) && c in s.conns && !s.dying && a != DropLoop(BASE)
    requires Leaving(s, c) || (a.Close? && s.loops[a.l].guard == Some(c))
    ensures Leaving(Apply(s, a), c)
  {
    QueueStep(s, a, BASE);
    TableStep(s, a, c);
    StaysQueued(s.loops[BASE].todo, Queues(s, a, BASE), Takes(s, a, BASE), Apply(s, a).loops[BASE].todo, RemoveInLoop(c));
  }

  /** Once a connection has closed, its removal is on its way or done, whatever else happens, as long as
      the base loop runs and the server stands. */
  lemma {:induction false} ClosedIsLeaving(n: nat, t: seq<Action>, c: ConnId)
    requires 0 < n && EverClosed(n, t, c) && !Run(New(n), t).dying && !EverStopped(n, t, BASE)
    ensures c in Run(New(n), t).conns && Leaving(Run(New(n), t), c)
    decreases |t|
  {
    if t != [] {
      var u, a := t[..|t| - 1], t[|t| - 1];
      assert t == u + [a];
      RunSnoc(New(n), u, a);
      Moments(n, u, a, |u|);
      ClosedOneMore(n, u, a, c);
      EverGrows(n, u, a);
      DyingStays(Run(New(n), u), a);
      if EverClosed(n, u, c) {
        ClosedIsLeaving(n, u, c);
      }
      LeavingOneMore(n, u, a, c);
    }
  }

  lemma LeavingOneMore(n: nat, u: seq<Action>, a: Action, c: ConnId)
    requires 0 < n && !Run(New(n), u).dying && !EverStopped(n, u, BASE) && 0 < |Run(New(n), u).loops|
    requires var s := Run(New(n), u);
             (c in s.conns && Leaving(s, c)) || (Enabled(s, a) && a.Close? && s.loops[a.l].guard == Some(c))
    ensures var r := Step(Run(New(n), u), a); c in r.conns && Leaving(r, c)
  {
    var s := Run(New(n), u);
    if Enabled(s, a) {
      Reachable(n, u);
      OnlyIfQueued(n, u, RawSend(c), BASE);
      ConnsStep(s, a, c);
      LeavingStep(s, a, c);
    }
  }

  lemma RemovalStep(s: Server, a: Action, c: ConnId, m: LoopId)
    requires 0 < |s.loops| && Enabled(s, a) && m < |s.loops| && RemoveInLoop(c) in Apply(s, a).loops[m].todo
    ensures RemoveInLoop(c) in s.loops[m].todo || (a.Close? && s.loops[a.l].guard == Some(c))
  {
    QueueStep(s, a, m);
    if a != DropLoop(m) {
      StaysQueued(s.loops[m].todo, Queues(s, a, m), Takes(s, a, m), Apply(s, a).loops[m].todo, RemoveInLoop(c));
    }
  }

  /** Nothing leaves the table of a standing server, and no removal is queued, but for a close. */
  lemma {:induction false} LeavingWasClosed(n: nat, t: seq<Action>, c: ConnId)
    requires 0 < n && !Run(New(n), t).dying && c in Run(New(n), t).conns && Leaving(Run(New(n), t), c)
    ensures EverClosed(n, t, c)
    decreases |t|
  {
    if t != [] {
      var u, a := t[..|t| - 1], t[|t| - 1];
      assert t == u + [a];
      RunSnoc(New(n), u, a);
      Moments(n, u, a, |u|);
      ClosedOneMore(n, u, a, c);
      var s := Run(New(n), u);
      DyingStays(s, a);
      Reachable(n, u);
      if Enabled(s, a) {
        ConnsStep(s, a, c);
        TableStep(s, a, c);
        if RemoveInLoop(c) in Apply(s, a).loops[BASE].todo {
          RemovalStep(s, a, c, BASE);
        }
        if a.RunNext? && s.loops[a.l].todo[0] == RemoveInLoop(c) {
          RemovalsAreOnBase(s, a.l, c);
        }
        if c !in s.conns {
          NoQueueKnows(s, c);
        }
      }
      if c in s.conns && Leaving(s, c) {
        LeavingWasClosed(n, u, c);
      }
    }
  }

  lemma RemovalsAreOnBase(s: Server, l: LoopId, c: ConnId)
    requires Inv(s) && l < |s.loops| && s.loops[l].todo != [] && s.loops[l].todo[0] == RemoveInLoop(c)
    ensures RemoveInLoop(c) in s.loops[BASE].todo
  {
    assert LoopFits(s, l);
    assert s.loops[l].todo[0] in s.loops[l].todo;
  }

  lemma NoQueueKnows(s: Server, c: ConnId)
    requires Inv(s) && c !in s.conns
    ensures RemoveInLoop(c) !in s.loops[BASE].todo
  {
    assert LoopFits(s, BASE);
  }

  /** While the base loop runs and the server stands, the connections in the table with no removal on its
      way are exactly those that never closed. */
  lemma InTableIffNeverClosed(n: nat, t: seq<Action>, c: ConnId)
    requires 0 < n && c in Run(New(n), t).conns && !Run(New(n), t).dying && !EverStopped(n, t, BASE)
    ensures !Leaving(Run(New(n), t), c) <==> !EverClosed(n, t, c)
  {
    if EverClosed(n, t, c) {
      ClosedIsLeaving(n, t, c);
    }
    if Leaving(Run(New(n), t), c) {
      LeavingWasClosed(n, t, c);
    }
  }

  /** A close leads to connDestory: while the base loop and the connection's own loop run and the server
      stands, a connection that has closed is on its way out of the table, or out of it with its
      connDestory queued, or that has run. */
  lemma CloseLeadsToDestroy(n: nat, t: seq<Action>, c: ConnId)
    requires 0 < n && EverClosed(n, t, c) && !Run(New(n), t).dying && !EverStopped(n, t, BASE)
    ensures var s := Run(New(n), t);
            c in s.conns && s.conns[c].loop < |s.loops|
            && (!EverStopped(n, t, s.conns[c].loop) ==>
                  RemoveInLoop(c) in s.loops[BASE].todo
                  || (c !in s.table && (Destroy(c) in s.loops[s.conns[c].loop].todo || EverDestroyed(n, t, c))))
  {
    ClosedIsLeaving(n, t, c);
    Reachable(n, t);
    HistoryIsTrace(n, t, c);
    var s := Run(New(n), t);
    assert ConnOkAt(s, c);
    OnlyIfQueued(n, t, RawSend(c), s.conns[c].loop);
  }

  /** And so to its end: once every queue is empty, a connection that user code does not keep has been freed,
      with its connDestory run, exactly if it has closed; otherwise it is in the table. */
  lemma ClosedIsFreedIff(n: nat, t: seq<Action>, c: ConnId)
    requires 0 < n && c in Run(New(n), t).conns && !Run(New(n), t).dying
    requires forall l :: 0 <= l < |Run(New(n), t).loops| ==> !EverStopped(n, t, l)
    requires forall l :: 0 <= l < |Run(New(n), t).loops| ==> Quiet(Run(New(n), t).loops[l])
    ensures var s := Run(New(n), t);
            && (c in s.table <==> !EverClosed(n, t, c))
            && (EverDestroyed(n, t, c) <==> EverClosed(n, t, c))
            && (c !in s.userRefs ==> (c in s.freed <==> EverClosed(n, t, c)))
  {
    var s := Run(New(n), t);
    Reachable(n, t);
    assert Quiet(s.loops[BASE]) && Quiet(s.loops[s.conns[c].loop]);
    InTableIffNeverClosed(n, t, c);
    ClosedConnectionsAreFreed(n, t, c);
    if EverClosed(n, t, c) {
      CloseLeadsToDestroy(n, t, c);
    }
  }

  // ----- what a channel waits for -----

  /** What may happen to a connection in a step: connEstablish, handleClose, connDestory, a send that leaves
      bytes over, a drain, and the end of sending by shutdown() or by line 75. */
  datatype Events = Events(establishes: bool, closes: bool, destroys: bool, blocks: bool, drains: bool, stops: bool)

  const NOTHING := Events(false, false, false, false, false, false)

  ghost function EventsOf(s: Server, a: Action, c: ConnId): Events
    requires c in s.conns && Enabled(s, a)
  {
    var runs := if a.RunNext? then [s.loops[a.l].todo[0]] else [];
    Events(runs == [Establish(c)],
           a.Close? && s.loops[a.l].guard == Some(c),
           Destroys(s, a, c),
           a == SendBlocks(c) || (runs == [RawSend(c)] && a.blocked && c !in s.freed),
           a.Drain? && s.loops[a.l].guard == Some(c),
           a == StopSending(c))
  }

  /** The interests are those the events set and cleared; the state follows them whenever one of them is
      changed, as NextReg says, and connDestory ends it. */
  ghost predicate Follows(r: ConnRec, r': ConnRec, e: Events) {
    var silenced := e.closes || (e.destroys && r.connected);
    && (r'.established <==> r.established || e.establishes)
    && (r'.connected <==> e.establishes || (r.connected && !e.closes && !e.destroys && !e.stops))
    && (r'.readSet <==> e.establishes || (r.readSet && !silenced))
    && (r'.writeSet <==> e.blocks || (r.writeSet && !silenced && !e.drains))
    && r'.reg == if e.destroys then Registry.Initialized
                 else if e.establishes || e.closes || e.drains || (e.blocks && !r.writeSet)
                 then NextReg(r.reg, r'.readSet, r'.writeSet)
                 else r.reg
  }

  lemma CloseFollows(s: Server, l: LoopId, d: ConnId, c: ConnId)
    requires Has(s, d) && c in s.conns
    ensures var t := HandleClose(s, l, d);
            c in t.conns && Follows(s.conns[c], t.conns[c], NOTHING.(closes := c == d))
  {
    assert HandleClose(s, l, d).conns == Silence(s, d).conns;
  }

  lemma DestroyFollows(s: Server, d: ConnId, c: ConnId)
    requires Has(s, d) && c in s.conns
    ensures var t := ConnDestory(s, d);
            c in t.conns && Follows(s.conns[c], t.conns[c], NOTHING.(destroys := c == d))
  {
  }

  lemma BacklogFollows(s: Server, d: ConnId, c: ConnId)
    requires Has(s, d) && c in s.conns
    ensures var t := DrainBacklog(s, d);
            c in t.conns && Follows(s.conns[c], t.conns[c], NOTHING.(drains := c == d))
    ensures var t := KeepBacklog(s, d);
            c in t.conns && Follows(s.conns[c], t.conns[c], NOTHING.(blocks := c == d))
  {
  }

  lemma FunctorFollows(s: Server, f: Functor, blocked: bool, c: ConnId)
    requires Has(s, f.c) && c in s.conns
    ensures var t := RunFunctor(s, f, blocked);
            c in t.conns
            && Follows(s.conns[c], t.conns[c],
                       Events(f == Establish(c), false, f == Destroy(c),
                              f == RawSend(c) && blocked && c !in s.freed, false, false))
  {
    match f
    case Destroy(d) => DestroyFollows(s, d, c);
    case RawSend(d) => BacklogFollows(s, d, c);
    case _ =>
  }

  ghost predicate FollowsIn(s: Server, a: Action, c: ConnId)
    requires 0 < |s.loops| && Enabled(s, a) && c in s.conns
  {
    c in Apply(s, a).conns && Follows(s.conns[c], Apply(s, a).conns[c], EventsOf(s, a, c))
  }

  lemma HandlerFollows(s: Server, a: Action, c: ConnId)
    requires 0 < |s.loops| && Enabled(s, a) && c in s.conns && (a.Close? || a.Drain? || a.SendBlocks?)
    ensures FollowsIn(s, a, c)
  {
    match a
    case Close(l) => CloseFollows(s, l, s.loops[l].guard.value, c);
    case Drain(l) => BacklogFollows(s, s.loops[l].guard.value, c);
    case SendBlocks(d) => BacklogFollows(s, d, c);
  }

  lemma RunNextFollows(s: Server, l: LoopId, blocked: bool, c: ConnId)
    requires 0 < |s.loops| && Enabled(s, RunNext(l, blocked)) && c in s.conns
    ensures FollowsIn(s, RunNext(l, blocked), c)
  {
    FunctorFollows(Pop(s, l), s.loops[l].todo[0], blocked, c);
  }

  lemma DestructFollows(s: Server, d: ConnId, c: ConnId)
    requires 0 < |s.loops| && Enabled(s, DestructNext(d)) && c in s.conns
    ensures FollowsIn(s, DestructNext(d), c)
  {
    DestroyFollows(s.(table := s.table - {d}), d, c);
  }

  lemma TurnFollows(s: Server, a: Action, c: ConnId)
    requires 0 < |s.loops| && Enabled(s, a) && c in s.conns && (IsTurn(a) || a.BeginHandler?) && !a.DropLoop?
    ensures FollowsIn(s, a, c)
  {
    assert Apply(s, a).conns == s.conns;
  }

  lemma DropFollows(s: Server, l: LoopId, c: ConnId)
    requires 0 < |s.loops| && Enabled(s, DropLoop(l)) && c in s.conns
    ensures FollowsIn(s, DropLoop(l), c)
  {
  }

  /** Each step moves every connection's interests and registration as its events say, and no step moves
      another connection's. */
  lemma ChannelStep(s: Server, a: Action, c: ConnId)
    requires 0 < |s.loops| && Enabled(s, a) && c in s.conns
    ensures FollowsIn(s, a, c)
  {
    match a
    case Accept(_, _) =>
    case Close(_) => HandlerFollows(s, a, c);
    case Drain(_) => HandlerFollows(s, a, c);
    case SendBlocks(_) => HandlerFollows(s, a, c);
    case RunNext(l, blocked) => RunNextFollows(s, l, blocked, c);
    case DestructNext(d) => DestructFollows(s, d, c);
    case BeginDestructor =>
    case UserKeep(_) =>
    case UserDrop(_) =>
    case UserQueue(_) =>
    case QueueRaw(_) =>
    case StopSending(_) =>
    case DropLoop(l) => DropFollows(s, l, c);
    case _ => TurnFollows(s, a, c);
  }

  /** A new connection is established on the spot on the base loop, and waits for its own loop otherwise. */
  lemma AcceptedChannel(s: Server, c: ConnId, l: LoopId)
    requires 0 < |s.loops| && Enabled(s, Accept(c, l))
    ensures var t := Apply(s, Accept(c, l));
            c in t.conns
            && var r := t.conns[c];
               r.loop == l && !r.writeSet && !r.destroyed && !r.abandoned
               && (r.established <==> l == BASE) && (r.connected <==> l == BASE) && (r.readSet <==> l == BASE)
               && r.reg == if l == BASE then Registry.Added else Registry.Initialized
  {
  }

  // ----- the handlers -----

  /** What loop m does with the events poll gave it: each ready channel in turn, under its guard unless it
      has been freed; poll and the queue wait until all are handled, and the batch holds the connections
      of the functors it has run until it is done with all of them. */
  ghost predicate HandlesIn(s: Server, a: Action, m: LoopId)
    requires 0 < |s.loops| && Enabled(s, a) && m < |s.loops|
  {
    var x, y := s.loops[m], Apply(s, a).loops[m];
    && (a.PollReturn? && a.l == m ==> x.phase == Polling && y.active == a.ready && y.phase == Dispatching)
    && (a == BeginHandler(m) ==>
          x.guard == None && x.active == [x.active[0]] + y.active
          && y.guard == if x.active[0] in s.freed then None else Some(x.active[0]))
    && (!(a.PollReturn? && a.l == m) && a != BeginHandler(m) ==> y.active == x.active)
    && (a == EndHandler(m) ==> y.guard == None)
    && (a != BeginHandler(m) && a != EndHandler(m) ==> y.guard == x.guard)
    && (a == SwapQueue(m) ==> x.active == [] && x.guard == None && y.batch == |x.todo| && y.phase == Running)
    && (a == EndBatch(m) ==> x.batch == 0 && y.held == {} && y.phase == Polling)
    && (a.RunNext? && a.l == m ==>
          x.phase == Running && x.batch > 0 && y.batch == x.batch - 1 && (!Raw(x.todo[0]) ==> x.todo[0].c in y.held))
    && (if a == EndBatch(m) || a == DropLoop(m) then y.held == {} else x.held <= y.held)
  }

  /** What poll returns is registered on that very loop, and has not been freed. */
  lemma ReadyAreAlive(s: Server, l: LoopId, ready: seq<ConnId>, c: ConnId)
    requires Core(s) && Enabled(s, PollReturn(l, ready)) && c in ready
    ensures c in s.conns && s.conns[c].loop == l && s.conns[c].reg == Registry.Added && c !in s.freed
  {
    assert LoopFits(s, l);
    assert ConnOkAt(s, c);
  }

  lemma TurnHandles(s: Server, a: Action, m: LoopId)
    requires 0 < |s.loops| && Enabled(s, a) && m < |s.loops| && (IsTurn(a) || a.BeginHandler?)
    ensures HandlesIn(s, a, m)
  {
  }

  lemma CallbackHandles(s: Server, a: Action, m: LoopId)
    requires 0 < |s.loops| && Enabled(s, a) && m < |s.loops| && (a.Close? || a.Drain? || a.SendBlocks?)
    ensures HandlesIn(s, a, m)
  {
    match a
    case Close(l) => SilenceBooks(s, s.loops[l].guard.value);
    case Drain(l) => BacklogBooks(s, s.loops[l].guard.value);
    case SendBlocks(c) => BacklogBooks(s, c);
  }

  lemma RunNextHandles(s: Server, l: LoopId, blocked: bool, m: LoopId)
    requires 0 < |s.loops| && Enabled(s, RunNext(l, blocked)) && m < |s.loops|
    ensures HandlesIn(s, RunNext(l, blocked), m)
  {
    FunctorHandlers(Pop(s, l), s.loops[l].todo[0], blocked, m);
  }

  lemma OthersHandle(s: Server, a: Action, m: LoopId)
    requires 0 < |s.loops| && Enabled(s, a) && m < |s.loops|
    requires a.Accept? || a.DestructNext?
    ensures HandlesIn(s, a, m)
  {
    match a
    case Accept(c, l) => EstablishBooks(s.(conns := s.conns[c := NewConn(l)], table := s.table + {c}), c);
    case DestructNext(c) => DestroyBooks(s.(table := s.table - {c}), c);
  }

  lemma HandlerStep(s: Server, a: Action, m: LoopId)
    requires 0 < |s.loops| && Enabled(s, a) && m < |s.loops|
    ensures HandlesIn(s, a, m)
  {
    match a
    case Accept(_, _) => OthersHandle(s, a, m);
    case DestructNext(_) => OthersHandle(s, a, m);
    case Close(_) => CallbackHandles(s, a, m);
    case Drain(_) => CallbackHandles(s, a, m);
    case SendBlocks(_) => CallbackHandles(s, a, m);
    case RunNext(l, blocked) => RunNextHandles(s, l, blocked, m);
    case BeginDestructor =>
    case UserKeep(_) =>
    case UserDrop(_) =>
    case UserQueue(_) =>
    case QueueRaw(_) =>
    case StopSending(_) =>
    case _ => TurnHandles(s, a, m);
  }

  lemma FunctorHandlers(s: Server, f: Functor, blocked: bool, m: LoopId)
    requires Has(s, f.c) && m < |s.loops|
    ensures var x, y := s.loops[m], RunFunctor(s, f, blocked).loops[m]; y.active == x.active && y.guard == x.guard && y.held == x.held && y.batch == x.batch
  {
    match f
    case Establish(c) => EstablishBooks(s, c);
    case Destroy(c) => DestroyBooks(s, c);
    case RawSend(c) => BacklogBooks(s, c);
    case _ =>
  }
}
