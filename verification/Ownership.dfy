/**
 Who keeps a TcpConnection alive while it is closed across loops (src/tcp_server.cc, with the parts
 of tcp_connection.cc, channel.cc and eventloop.cc it goes through).  Any number of loops run
 interleaved; loop 0 is the base loop.  A connection is owned by the server's table, by functors
 queued on loops (until the whole batch they ran in is gone), by the guard of a running handler and by
 whatever copies user code keeps; it is freed at the first moment it has no owner.  Two things do not
 keep it alive: functors that other threads' send() and shutdown() queue with a raw pointer, and a
 queue that is thrown away with its loop.
 */
module Ownership {
  import opened Registry

  type ConnId = nat
  type LoopId = nat

  const BASE: LoopId := 0

  /** A std::function bound to a TcpConnectionPtr, or, for the last two, to a raw TcpConnection*. */
  datatype Functor =
    | Establish(c: ConnId)      // TcpConnection::connEstablish
    | RemoveInLoop(c: ConnId)   // TcpServer::removeConnectionInLoop
    | Destroy(c: ConnId)        // TcpConnection::connDestory
    | User(c: ConnId)           // a write-complete or high-water callback
    | RawSend(c: ConnId)        // TcpConnection::sendInLoop queued by another thread
    | RawShutdown(c: ConnId)    // TcpConnection::shutdownInLoop queued by another thread

  predicate Raw(f: Functor) {
    f.RawSend? || f.RawShutdown?
  }

  datatype Option<T> = None | Some(value: T)

  /** `Polling` covers the quit check and poll; `Stopped` is after loop() has returned for good. */
  datatype Phase = Polling | Dispatching | Running | Stopped

  /** `todo` is the rest of the batch being run (its first `batch` functors) followed by
      pending_functors_; `held` are the connections of functors already run in this batch, which the
      batch vector still holds; `atStop` is the interest set when the loop stopped. */
  datatype LoopState = LoopState(
    phase: Phase,
    todo: seq<Functor>,
    batch: nat,
    held: set<ConnId>,
    active: seq<ConnId>,
    guard: Option<ConnId>,
    kernel: set<ConnId>,
    atStop: set<ConnId>)

  /** `reg`, `readSet` and `writeSet` are the channel's state and mask.  The rest is history: connEstablish
      and connDestory have run; the queue holding a connDestory that had yet to run was thrown away; a
      raw send has registered the channel since the last connDestory; and how often the channel was
      silenced after such a send, by handleClose or by a drain with nothing else to wait for. */
  datatype ConnRec = ConnRec(
    loop: LoopId,
    reg: ChannelState,
    readSet: bool,
    writeSet: bool,
    connected: bool,
    established: bool,
    destroyed: bool,
    abandoned: bool,
    rawSince: bool,
    silenced: nat)

  function NewConn(l: LoopId): ConnRec {
    ConnRec(l, Initialized, false, false, false, false, false, false, false, 0)
  }

  datatype Server = Server(
    loops: seq<LoopState>,
    conns: map<ConnId, ConnRec>,
    table: set<ConnId>,
    userRefs: multiset<ConnId>,
    dying: bool,               // ~TcpServer has begun
    freed: set<ConnId>,
    dangling: set<ConnId>)     // reached through a raw pointer after they were freed

  function NewLoop(): LoopState {
    LoopState(Polling, [], 0, {}, [], None, {}, {})
  }

  function New(n: nat): Server {
    Server(seq(n, _ => NewLoop()), map[], {}, multiset{}, false, {}, {})
  }

  // ----- owners -----

  ghost predicate Queued(q: seq<Functor>, c: ConnId) {
    exists f :: f in q && f.c == c && !Raw(f)
  }

  ghost predicate LoopOwns(l: LoopState, c: ConnId) {
    Queued(l.todo, c) || c in l.held || l.guard == Some(c)
  }

  ghost predicate Owned(s: Server, c: ConnId) {
    c in s.table || c in s.userRefs || exists l :: 0 <= l < |s.loops| && LoopOwns(s.loops[l], c)
  }

  // ----- operations -----

  function SetLoop(s: Server, l: LoopId, x: LoopState): (r: Server)
    requires l < |s.loops|
    ensures |r.loops| == |s.loops|
  {
    s.(loops := s.loops[l := x])
  }

  function Push(s: Server, l: LoopId, f: Functor): (r: Server)
    requires l < |s.loops|
    ensures |r.loops| == |s.loops|
  {
    SetLoop(s, l, s.loops[l].(todo := s.loops[l].todo + [f]))
  }

  predicate Has(s: Server, c: ConnId) {
    c in s.conns && s.conns[c].loop < |s.loops|
  }

  /** Change a connection's record and whether its loop's kernel set holds it. */
  function SetChannel(s: Server, c: ConnId, rec: ConnRec, inKernel: bool): (r: Server)
    requires Has(s, c)
    ensures |r.loops| == |s.loops|
  {
    var l := s.conns[c].loop;
    var k := s.loops[l].kernel;
    SetLoop(s, l, s.loops[l].(kernel := if inKernel then k + {c} else k - {c})).(conns := s.conns[c := rec])
  }

  /** updateChannel: a registered channel that waits for nothing is taken out, and any other one,
      even if it waits for nothing, is put in. */
  function NextReg(reg: ChannelState, readSet: bool, writeSet: bool): ChannelState {
    if reg == Added && !readSet && !writeSet then Removed else Added
  }

  /** A new record whose mask has changed, and the update() that follows. */
  function SetInterest(s: Server, c: ConnId, rec: ConnRec): (r: Server)
    requires Has(s, c)
    ensures |r.loops| == |s.loops|
  {
    var reg := NextReg(rec.reg, rec.readSet, rec.writeSet);
    SetChannel(s, c, rec.(reg := reg), reg == Added)
  }

  function DisableAll(s: Server, c: ConnId): (r: Server)
    requires Has(s, c)
    ensures |r.loops| == |s.loops|
  {
    SetInterest(s, c, s.conns[c].(readSet := false, writeSet := false))
  }

  /** The masks a channel can have: the three bits the code sets move in two groups. */
  predicate UsedMask(m: Mask) {
    m & !(READABLE | WRITABLE) == 0 && (m & READABLE == 0 || m & READABLE == READABLE)
  }

  /** The channel kept here is Registry's: an interest change there moves state, mask and the kernel's
      entry as NextReg says of the two bits. */
  lemma ChannelFollowsRegistry(p: Poller, id: Id, op: ChannelOp)
    requires Agree(p) && id in p.objects && UsedMask(p.objects[id].events)
    ensures var q := ChangeInterest(p, id, op);
            var before, after := p.objects[id], q.objects[id];
            && UsedMask(after.events)
            && after.state == NextReg(before.state, after.events & READABLE != 0, after.events & WRITABLE != 0)
            && (after.state == Added <==> after.fd in q.kernel)
            && (after.events & READABLE != 0
                <==> op == EnableRead || (before.events & READABLE != 0 && op != DisableRead && op != ChannelOp.DisableAll))
            && (after.events & WRITABLE != 0
                <==> op == EnableWrite || (before.events & WRITABLE != 0 && op != DisableWrite && op != ChannelOp.DisableAll))
  {
    InterestIsRegistered(p, id, op);
    UsedMaskStep(p.objects[id].events, op);
  }

  lemma UsedMaskStep(m: Mask, op: ChannelOp)
    requires UsedMask(m)
    ensures var k := NewEvents(m, op);
            && UsedMask(k) && (k == 0 <==> k & READABLE == 0 && k & WRITABLE == 0)
            && (k & READABLE != 0 <==> op == EnableRead || (m & READABLE != 0 && op != DisableRead && op != ChannelOp.DisableAll))
            && (k & WRITABLE != 0 <==> op == EnableWrite || (m & WRITABLE != 0 && op != DisableWrite && op != ChannelOp.DisableAll))
  {
  }

  function LeaveConnected(s: Server, c: ConnId): (r: Server)
    requires Has(s, c)
    ensures |r.loops| == |s.loops|
  {
    s.(conns := s.conns[c := s.conns[c].(connected := false)])
  }

  function ConnEstablish(s: Server, c: ConnId): (r: Server)
    requires Has(s, c)
    ensures |r.loops| == |s.loops|
  {
    SetInterest(s, c, s.conns[c].(connected := true, established := true, readSet := true))
  }

  /** Channel::remove: the kernel is told only if the channel thinks it is there. */
  function RemoveChannel(s: Server, c: ConnId): (r: Server)
    requires Has(s, c)
    ensures |r.loops| == |s.loops|
  {
    var rec := s.conns[c];
    SetChannel(s, c, rec.(reg := Initialized, destroyed := true, rawSince := false),
               c in s.loops[rec.loop].kernel && rec.reg != Added)
  }

  function ConnDestory(s: Server, c: ConnId): (r: Server)
    requires Has(s, c)
    ensures |r.loops| == |s.loops|
  {
    RemoveChannel(if s.conns[c].connected then DisableAll(LeaveConnected(s, c), c) else s, c)
  }

  function RemoveConnectionInLoop(s: Server, c: ConnId): (r: Server)
    requires Has(s, c)
    ensures |r.loops| == |s.loops|
  {
    if s.dying then s else Push(s.(table := s.table - {c}), s.conns[c].loop, Destroy(c))
  }

  /** The close callback, called on loop `l`'s thread. */
  function RemoveConnection(s: Server, l: LoopId, c: ConnId): (r: Server)
    requires Has(s, c)
    ensures |r.loops| == |s.loops|
  {
    if s.dying then s
    else if l == BASE then RemoveConnectionInLoop(s, c)
    else Push(s, BASE, RemoveInLoop(c))
  }

  /** handleClose up to its callbacks: disconnected, all events disabled. */
  function Silence(s: Server, c: ConnId): (r: Server)
    requires Has(s, c)
    ensures |r.loops| == |s.loops|
  {
    var rec := s.conns[c];
    SetInterest(s, c, rec.(connected := false, readSet := false, writeSet := false, silenced := rec.silenced + 1))
  }

  /** handleWrite that empties the output buffer: write interest is disabled. */
  function DrainBacklog(s: Server, c: ConnId): (r: Server)
    requires Has(s, c)
    ensures |r.loops| == |s.loops|
  {
    var rec := s.conns[c];
    SetInterest(s, c, rec.(writeSet := false, silenced := rec.silenced + if rec.readSet then 0 else 1))
  }

  /** sendInLoop that leaves bytes over: write interest is enabled if it was not. */
  function KeepBacklog(s: Server, c: ConnId): (r: Server)
    requires Has(s, c)
    ensures |r.loops| == |s.loops|
  {
    var rec := s.conns[c];
    if rec.writeSet then s
    else SetInterest(s, c, rec.(writeSet := true, rawSince := rec.destroyed,
                                silenced := if rec.destroyed then 0 else rec.silenced))
  }

  function HandleClose(s: Server, l: LoopId, c: ConnId): (r: Server)
    requires Has(s, c)
    ensures |r.loops| == |s.loops|
  {
    RemoveConnection(Silence(s, c), l, c)
  }

  function Touch(s: Server, c: ConnId): Server {
    s.(dangling := s.dangling + {c})
  }

  function RunFunctor(s: Server, f: Functor, blocked: bool): (r: Server)
    requires Has(s, f.c)
    ensures |r.loops| == |s.loops|
  {
    match f
    case Establish(c) => ConnEstablish(s, c)
    case RemoveInLoop(c) => RemoveConnectionInLoop(s, c)
    case Destroy(c) => ConnDestory(s, c)
    case User(_) => s
    case RawSend(c) => if c in s.freed then Touch(s, c) else if blocked then KeepBacklog(s, c) else s
    case RawShutdown(c) => if c in s.freed then Touch(s, c) else s
  }

  /** handleEvent of the next active channel: the guard is taken, unless the channel is already freed
      memory. */
  function Dispatch(s: Server, l: LoopId): (r: Server)
    requires l < |s.loops| && s.loops[l].active != []
    ensures |r.loops| == |s.loops|
  {
    var x := s.loops[l];
    var c := x.active[0];
    if c in s.freed then Touch(SetLoop(s, l, x.(active := x.active[1..])), c)
    else SetLoop(s, l, x.(guard := Some(c), active := x.active[1..]))
  }

  /** A loop that has stopped is destroyed with its queue: functors never run, references dropped. */
  function DropQueue(s: Server, l: LoopId): (r: Server)
    requires l < |s.loops|
    ensures |r.loops| == |s.loops|
  {
    var x := s.loops[l];
    SetLoop(s, l, x.(todo := [], batch := 0, held := {})).(conns :=
      map c | c in s.conns ::
        if s.conns[c].loop == l && Destroy(c) in x.todo && !s.conns[c].destroyed
        then s.conns[c].(abandoned := true) else s.conns[c])
  }

  /** The next functor of the batch leaves the queue; the batch vector goes on owning what it owns. */
  function Pop(s: Server, l: LoopId): (r: Server)
    requires l < |s.loops| && 0 < s.loops[l].batch <= |s.loops[l].todo|
    ensures |r.loops| == |s.loops|
  {
    var x := s.loops[l];
    SetLoop(s, l, x.(todo := x.todo[1..], batch := x.batch - 1, held := if Raw(x.todo[0]) then x.held else x.held + {x.todo[0].c}))
  }

  // ----- steps -----

  datatype Action =
    | Accept(c: ConnId, l: LoopId)          // newConnection on the base loop, handing c to loop l
    | PollReturn(l: LoopId, ready: seq<ConnId>)
    | BeginHandler(l: LoopId)               // handleEvent of the next active channel takes its guard
    | Close(l: LoopId)                      // handleClose inside that handler, any number of times
    | Drain(l: LoopId)                      // handleWrite inside that handler empties the output buffer
    | EndHandler(l: LoopId)
    | SwapQueue(l: LoopId)
    | RunNext(l: LoopId, blocked: bool)     // a raw send may leave bytes over
    | EndBatch(l: LoopId)
    | BeginDestructor                       // ~TcpServer on the base thread, outside any handler
    | DestructNext(c: ConnId)               // one turn of its loop over the table
    | UserKeep(c: ConnId)                   // user code copies a pointer it can reach
    | UserDrop(c: ConnId)
    | UserQueue(c: ConnId)                  // pushLoopCallback of a user callback
    | SendBlocks(c: ConnId)                 // send() on the loop's own thread leaves bytes over
    | QueueRaw(f: Functor)                  // send() or shutdown() on another thread, after a test of state_
                                            // that may be as old as connEstablish
    | StopLoop(l: LoopId)                   // quit() takes effect: loop() returns
    | DropLoop(l: LoopId)                   // ~EventLoop
    | StopSending(c: ConnId)                // state_ leaves kConnected by shutdown() or by line 75

  predicate BetweenHandlers(l: LoopState) {
    l.phase == Polling || l.phase == Stopped
  }

  ghost predicate Enabled(s: Server, a: Action) {
    match a
    case Accept(c, l) => !s.dying && c !in s.conns && l < |s.loops| && s.loops[BASE].phase == Dispatching
    case PollReturn(l, ready) =>
      l < |s.loops| && s.loops[l].phase == Polling
      && forall c :: c in ready ==> c in s.loops[l].kernel && c !in s.freed
    case BeginHandler(l) =>
      l < |s.loops| && s.loops[l].phase == Dispatching && s.loops[l].guard.None? && s.loops[l].active != []
    case Close(l) => l < |s.loops| && s.loops[l].guard.Some? && Has(s, s.loops[l].guard.value)
    case Drain(l) =>
      l < |s.loops| && s.loops[l].guard.Some? && Has(s, s.loops[l].guard.value)
      && s.conns[s.loops[l].guard.value].writeSet
    case EndHandler(l) => l < |s.loops| && s.loops[l].guard.Some?
    case SwapQueue(l) =>
      l < |s.loops| && s.loops[l].phase == Dispatching && s.loops[l].guard.None? && s.loops[l].active == []
    case RunNext(l, _) =>
      l < |s.loops| && s.loops[l].phase == Running && 0 < s.loops[l].batch <= |s.loops[l].todo|
      && Has(s, s.loops[l].todo[0].c)
    case EndBatch(l) => l < |s.loops| && s.loops[l].phase == Running && s.loops[l].batch == 0
    case BeginDestructor => !s.dying && 0 < |s.loops| && BetweenHandlers(s.loops[BASE])
    case DestructNext(c) =>
      s.dying && c in s.table && Has(s, c) && BetweenHandlers(s.loops[BASE])
    case UserKeep(c) => c in s.conns && Owned(s, c)
    case UserDrop(c) => c in s.userRefs
    case UserQueue(c) => Has(s, c) && Owned(s, c)
    case SendBlocks(c) => Has(s, c) && s.conns[c].connected && Owned(s, c)
    case QueueRaw(f) => Raw(f) && Has(s, f.c) && s.conns[f.c].established && Owned(s, f.c)
    case StopLoop(l) => l < |s.loops| && s.loops[l].phase == Polling
    case DropLoop(l) => l < |s.loops| && s.loops[l].phase == Stopped
    case StopSending(c) => Has(s, c)
  }

  ghost function Apply(s: Server, a: Action): (r: Server)
    requires Enabled(s, a) && 0 < |s.loops|
    ensures |r.loops| == |s.loops|
  {
    match a
    case Accept(c, l) =>
      var s1 := s.(conns := s.conns[c := NewConn(l)], table := s.table + {c});
      if l == BASE then ConnEstablish(s1, c) else Push(s1, l, Establish(c))
    case PollReturn(l, ready) => SetLoop(s, l, s.loops[l].(phase := Dispatching, active := ready))
    case BeginHandler(l) => Dispatch(s, l)
    case Close(l) => HandleClose(s, l, s.loops[l].guard.value)
    case Drain(l) => DrainBacklog(s, s.loops[l].guard.value)
    case EndHandler(l) => SetLoop(s, l, s.loops[l].(guard := None))
    case SwapQueue(l) => SetLoop(s, l, s.loops[l].(phase := Running, batch := |s.loops[l].todo|))
    case RunNext(l, blocked) => RunFunctor(Pop(s, l), s.loops[l].todo[0], blocked)
    case EndBatch(l) => SetLoop(s, l, s.loops[l].(phase := Polling, held := {}))
    case BeginDestructor => s.(dying := true)
    case DestructNext(c) =>
      var s1 := s.(table := s.table - {c});
      if s.conns[c].loop == BASE then ConnDestory(s1, c) else Push(s1, s.conns[c].loop, Destroy(c))
    case UserKeep(c) => s.(userRefs := s.userRefs + multiset{c})
    case UserDrop(c) => s.(userRefs := s.userRefs - multiset{c})
    case UserQueue(c) => Push(s, s.conns[c].loop, User(c))
    case SendBlocks(c) => KeepBacklog(s, c)
    case QueueRaw(f) => Push(s, s.conns[f.c].loop, f)
    case StopLoop(l) => SetLoop(s, l, s.loops[l].(phase := Stopped, atStop := s.loops[l].kernel))
    case DropLoop(l) => DropQueue(s, l)
    case StopSending(c) => LeaveConnected(s, c)
  }

  /** A connection is freed the moment its last owner is gone.  Its socket is closed with it, so that
      poll no longer returns it; `kernel` keeps what was in the interest set at that moment. */
  ghost function Collect(s: Server): Server {
    s.(freed := s.freed + set c | c in s.conns && !Owned(s, c))
  }

  ghost function Step(s: Server, a: Action): (r: Server)
    requires 0 < |s.loops|
    ensures |r.loops| == |s.loops|
  {
    if Enabled(s, a) then Collect(Apply(s, a)) else s
  }

  ghost function Run(s: Server, t: seq<Action>): Server
    requires 0 < |s.loops|
    decreases |t|
  {
    if t == [] then s else Run(Step(s, t[0]), t[1..])
  }

  // ----- the invariant -----

  /** connEstablish is queued once, with no connDestory of the same connection before it. */
  ghost predicate Waits(q: seq<Functor>, c: ConnId) {
    q != [] &&
    if q[0] == Establish(c) then Establish(c) !in q[1..] else q[0] != Destroy(c) && Waits(q[1..], c)
  }

  /** One connection.  Until connEstablish runs it is queued, unless the loop has stopped, and nothing
      else can reach the connection.  Until connDestory runs either the table holds the connection or
      a queued connDestory does, unless that one was thrown away.  After connDestory the channel is
      registered nowhere and about to be dispatched nowhere, unless a raw send has registered it
      again; then each silencing toggles it. */
  ghost predicate ConnOk(c: ConnId, r: ConnRec, l: LoopState, inTable: bool) {
    && (c in l.kernel <==> r.reg == Added)
    && (r.loop == BASE ==> r.established)
    && (r.established ==> Establish(c) !in l.todo)
    && (!r.established ==> (l.phase == Stopped || Waits(l.todo, c)) && !r.destroyed)
    && (!r.established || r.destroyed ==> !r.connected)
    && (!r.established || (r.destroyed && !r.rawSince) ==>
          r.reg == Initialized && c !in l.active && l.guard != Some(c))
    && (r.rawSince ==> r.destroyed && r.reg == if r.silenced % 2 == 0 then Added else Removed)
    && (r.writeSet && (r.destroyed ==> r.rawSince) ==> r.reg == Added)
    && (r.connected ==> r.reg == Added && r.readSet)
    && (!r.destroyed && !r.abandoned ==> (inTable <==> Destroy(c) !in l.todo))
    && (r.destroyed || r.abandoned ==> !inTable)
    && (r.abandoned ==> !r.destroyed && l.phase == Stopped)
    && (l.phase == Stopped && !r.destroyed ==> (c in l.kernel <==> c in l.atStop))
  }

  ghost predicate ConnOkAt(s: Server, c: ConnId)
    requires Has(s, c)
  {
    ConnOk(c, s.conns[c], s.loops[s.conns[c].loop], c in s.table)
  }

  ghost predicate FunctorFits(s: Server, l: LoopId, f: Functor) {
    f.c in s.conns
    && (if f.RemoveInLoop? then l == BASE else s.conns[f.c].loop == l)
    && (f.RemoveInLoop? || Raw(f) ==> s.conns[f.c].established)
  }

  ghost predicate LoopFits(s: Server, l: LoopId)
    requires l < |s.loops|
  {
    var x := s.loops[l];
    && (x.phase != Dispatching ==> x.active == [] && x.guard.None?)
    && (x.phase != Running ==> x.batch == 0)
    && x.batch <= |x.todo|
    && (forall f :: f in x.todo ==> FunctorFits(s, l, f))
    && (forall c :: c in x.active || x.guard == Some(c) || c in x.kernel || c in x.atStop ==>
          c in s.conns && s.conns[c].loop == l)
  }

  ghost predicate Typed(s: Server) {
    && 0 < |s.loops|
    && (forall c :: c in s.conns ==> s.conns[c].loop < |s.loops|)
    && (forall c :: c in s.table ==> c in s.conns)
    && (forall l :: 0 <= l < |s.loops| ==> LoopFits(s, l))
  }

  ghost predicate OkBut(s: Server, c: ConnId) {
    Typed(s) && forall d :: d in s.conns && d != c ==> ConnOkAt(s, d)
  }

  ghost predicate Core(s: Server) {
    Typed(s) && forall d :: d in s.conns ==> ConnOkAt(s, d)
  }

  ghost predicate Inv(s: Server) {
    && Core(s)
    && (forall c :: c in s.freed ==> c in s.conns && (s.conns[c].destroyed || s.conns[c].abandoned) && !Owned(s, c))
    && (forall c :: c in s.conns && !Owned(s, c) ==> c in s.freed)
  }

  // ----- one functor more, one functor less -----

  lemma {:induction false} WaitsAppend(q: seq<Functor>, f: Functor, c: ConnId)
    requires Waits(q, c) && f != Establish(c)
    ensures Waits(q + [f], c)
  {
    assert (q + [f])[1..] == q[1..] + [f];
    if q[0] != Establish(c) {
      WaitsAppend(q[1..], f, c);
    }
  }

  lemma {:induction false} WaitsNew(q: seq<Functor>, c: ConnId)
    requires forall f :: f in q ==> f.c != c
    ensures Waits(q + [Establish(c)], c)
  {
    if q == [] {
      assert (q + [Establish(c)])[1..] == [];
    } else {
      assert (q + [Establish(c)])[1..] == q[1..] + [Establish(c)];
      assert q[0] in q;
      WaitsNew(q[1..], c);
    }
  }

  lemma PushKeepsOthers(s: Server, l: LoopId, f: Functor)
    requires OkBut(s, f.c) && l < |s.loops| && FunctorFits(s, l, f)
    ensures OkBut(Push(s, l, f), f.c)
  {
    var s' := Push(s, l, f);
    forall d | d in s'.conns && d != f.c ensures ConnOkAt(s', d) {
      assert ConnOkAt(s, d);
      if s.conns[d].loop == l && !s.conns[d].established && s.loops[l].phase != Stopped {
        WaitsAppend(s.loops[l].todo, f, d);
      }
    }
    forall m | 0 <= m < |s'.loops| ensures LoopFits(s', m) {
      assert LoopFits(s, m);
    }
  }

  lemma SetChannelKeepsOthers(s: Server, c: ConnId, r: ConnRec, inKernel: bool)
    requires OkBut(s, c) && c in s.conns && r.loop == s.conns[c].loop
    requires s.conns[c].established ==> r.established
    ensures OkBut(SetChannel(s, c, r, inKernel), c)
  {
    var s' := SetChannel(s, c, r, inKernel);
    forall d | d in s'.conns && d != c ensures ConnOkAt(s', d) {
      assert ConnOkAt(s, d);
    }
    forall m | 0 <= m < |s'.loops| ensures LoopFits(s', m) {
      assert LoopFits(s, m);
    }
  }

  /** A connection's own change is right if its new record fits its loop. */
  lemma SetChannelCore(s: Server, c: ConnId, r: ConnRec, inKernel: bool)
    requires OkBut(s, c) && c in s.conns && r.loop == s.conns[c].loop
    requires s.conns[c].established ==> r.established
    requires var l := s.loops[r.loop];
             ConnOk(c, r, l.(kernel := if inKernel then l.kernel + {c} else l.kernel - {c}), c in s.table)
    ensures Core(SetChannel(s, c, r, inKernel))
  {
    SetChannelKeepsOthers(s, c, r, inKernel);
    assert ConnOkAt(SetChannel(s, c, r, inKernel), c);
  }

  lemma PushCore(s: Server, l: LoopId, f: Functor)
    requires Core(s) && l < |s.loops| && FunctorFits(s, l, f) && !f.Establish? && !f.Destroy?
    ensures Core(Push(s, l, f))
  {
    PushKeepsOthers(s, l, f);
    assert ConnOkAt(s, f.c);
    if s.conns[f.c].loop == l && !s.conns[f.c].established && s.loops[l].phase != Stopped {
      WaitsAppend(s.loops[l].todo, f, f.c);
    }
    assert ConnOkAt(Push(s, l, f), f.c);
  }

  /** The table gives a connection up only by queueing its connDestory. */
  lemma HandOverCore(s: Server, c: ConnId)
    requires Core(s) && c in s.conns
    ensures Core(Push(s.(table := s.table - {c}), s.conns[c].loop, Destroy(c)))
  {
    var s1 := s.(table := s.table - {c});
    var l := s.conns[c].loop;
    assert ConnOkAt(s, c);
    TableForgetsBut(s, c);
    PushKeepsOthers(s1, l, Destroy(c));
    if !s.conns[c].established && s.loops[l].phase != Stopped {
      WaitsAppend(s.loops[l].todo, Destroy(c), c);
    }
    assert ConnOkAt(Push(s1, l, Destroy(c)), c);
  }

  lemma LeaveConnectedCore(s: Server, c: ConnId)
    requires Core(s) && c in s.conns
    ensures Core(LeaveConnected(s, c))
  {
    var s' := LeaveConnected(s, c);
    forall d | d in s'.conns ensures ConnOkAt(s', d) {
      assert ConnOkAt(s, d);
    }
    forall m | 0 <= m < |s'.loops| ensures LoopFits(s', m) {
      assert LoopFits(s, m);
    }
  }

  /** The channel of an established connection, its mask changed by one of its own handlers. */
  lemma SetInterestCore(s: Server, c: ConnId, r: ConnRec)
    requires OkBut(s, c) && c in s.conns && r.loop == s.conns[c].loop
    requires s.conns[c].established ==> r.established
    requires InterestOk(c, r, s.loops[r.loop], c in s.table)
    ensures Core(SetInterest(s, c, r))
  {
    var reg := NextReg(r.reg, r.readSet, r.writeSet);
    SetChannelCore(s, c, r.(reg := reg), reg == Added);
  }

  /** What a handler or a raw functor may rely on: the loop runs, connEstablish has run, and the
      connection is not cleanly destroyed. */
  ghost predicate InHandler(r: ConnRec, l: LoopState) {
    r.established && (r.destroyed ==> r.rawSince) && l.phase != Stopped
  }

  /** One connection after its mask has changed. */
  ghost predicate InterestOk(c: ConnId, r: ConnRec, l: LoopState, inTable: bool) {
    var reg := NextReg(r.reg, r.readSet, r.writeSet);
    ConnOk(c, r.(reg := reg), l.(kernel := if reg == Added then l.kernel + {c} else l.kernel - {c}), inTable)
  }

  lemma SilencedOk(c: ConnId, r: ConnRec, l: LoopState, inTable: bool)
    requires ConnOk(c, r, l, inTable) && InHandler(r, l)
    ensures InterestOk(c, r.(connected := false, readSet := false, writeSet := false, silenced := r.silenced + 1), l, inTable)
  {
  }

  lemma DrainedOk(c: ConnId, r: ConnRec, l: LoopState, inTable: bool)
    requires ConnOk(c, r, l, inTable) && InHandler(r, l) && r.writeSet
    ensures InterestOk(c, r.(writeSet := false, silenced := r.silenced + if r.readSet then 0 else 1), l, inTable)
  {
  }

  lemma AllButOne(s: Server, c: ConnId)
    requires Core(s) && c in s.conns
    ensures OkBut(s, c) && Has(s, c) && ConnOk(c, s.conns[c], s.loops[s.conns[c].loop], c in s.table)
  {
    assert ConnOkAt(s, c);
  }

  lemma SilenceCore(s: Server, c: ConnId)
    requires Core(s) && Has(s, c) && InHandler(s.conns[c], s.loops[s.conns[c].loop])
    ensures Core(Silence(s, c))
  {
    AllButOne(s, c);
    var r := s.conns[c];
    SilencedOk(c, r, s.loops[r.loop], c in s.table);
    var r1 := r.(connected := false, readSet := false, writeSet := false, silenced := r.silenced + 1);
    assert Silence(s, c) == SetInterest(s, c, r1);
    SetInterestCore(s, c, r1);
  }

  lemma DrainCore(s: Server, c: ConnId)
    requires Core(s) && Has(s, c) && InHandler(s.conns[c], s.loops[s.conns[c].loop]) && s.conns[c].writeSet
    ensures Core(DrainBacklog(s, c))
    ensures c in DrainBacklog(s, c).loops[s.conns[c].loop].kernel <==> s.conns[c].readSet
  {
    AllButOne(s, c);
    var r := s.conns[c];
    DrainedOk(c, r, s.loops[r.loop], c in s.table);
    var r1 := r.(writeSet := false, silenced := r.silenced + if r.readSet then 0 else 1);
    assert DrainBacklog(s, c) == SetInterest(s, c, r1);
    SetInterestCore(s, c, r1);
  }

  lemma KeepBacklogCore(s: Server, c: ConnId)
    requires Core(s) && c in s.conns && s.conns[c].established
    requires s.loops[s.conns[c].loop].phase != Stopped || s.conns[c].connected
    ensures Core(KeepBacklog(s, c))
  {
    assert ConnOkAt(s, c);
    var r := s.conns[c];
    if !r.writeSet {
      SetInterestCore(s, c, r.(writeSet := true, rawSince := r.destroyed,
                               silenced := if r.destroyed then 0 else r.silenced));
    }
  }

  lemma HandleCloseCore(s: Server, l: LoopId, c: ConnId)
    requires Core(s) && l < |s.loops| && s.loops[l].guard == Some(c)
    ensures c in s.conns && Core(HandleClose(s, l, c))
  {
    assert LoopFits(s, l);
    assert ConnOkAt(s, c);
    SilenceCore(s, c);
    var s1 := Silence(s, c);
    if !s.dying {
      if l == BASE {
        HandOverCore(s1, c);
      } else {
        PushCore(s1, BASE, RemoveInLoop(c));
      }
    }
  }

  lemma EstablishCore(s: Server, c: ConnId)
    requires OkBut(s, c) && c in s.conns
    requires var r := s.conns[c]; var x := s.loops[r.loop];
             !r.destroyed && !r.abandoned && !r.rawSince && Establish(c) !in x.todo && x.phase != Stopped
             && (c in s.table <==> Destroy(c) !in x.todo)
    ensures Core(ConnEstablish(s, c))
  {
    SetInterestCore(s, c, s.conns[c].(connected := true, established := true, readSet := true));
  }

  /** What must hold when connDestory runs: connEstablish has, and no handler can follow. */
  ghost predicate ReadyToDestroy(s: Server, c: ConnId)
    requires Has(s, c)
  {
    var r := s.conns[c];
    var x := s.loops[r.loop];
    r.established && Establish(c) !in x.todo && (c in x.kernel <==> r.reg == Added)
    && c !in x.active && x.guard != Some(c) && c !in s.table && !r.abandoned
  }

  lemma RemoveChannelCore(s: Server, c: ConnId)
    requires OkBut(s, c) && c in s.conns && ReadyToDestroy(s, c) && !s.conns[c].connected
    ensures Core(RemoveChannel(s, c))
  {
    SetChannelCore(s, c, s.conns[c].(reg := Initialized, destroyed := true, rawSince := false), false);
  }

  /** connDestory's disableAllEvent on a connected channel is one change of its record. */
  lemma DisconnectIsOneChange(s: Server, c: ConnId)
    requires Has(s, c)
    ensures var r := s.conns[c]; var on := r.reg != Added;
            DisableAll(LeaveConnected(s, c), c)
            == SetChannel(s, c, r.(connected := false, readSet := false, writeSet := false,
                                   reg := if on then Added else Removed), on)
  {
    var r := s.conns[c].(connected := false);
    var r1 := r.(readSet := false, writeSet := false, reg := if r.reg != Added then Added else Removed);
    assert s.conns[c := r][c := r1] == s.conns[c := r1];
  }

  lemma DestroyCore(s: Server, c: ConnId)
    requires OkBut(s, c) && c in s.conns && ReadyToDestroy(s, c)
    ensures Core(ConnDestory(s, c))
  {
    var r := s.conns[c];
    if r.connected {
      var on := r.reg != Added;
      var r1 := r.(connected := false, readSet := false, writeSet := false, reg := if on then Added else Removed);
      DisconnectIsOneChange(s, c);
      SetChannelKeepsOthers(s, c, r1, on);
      RemoveChannelCore(SetChannel(s, c, r1, on), c);
    } else {
      RemoveChannelCore(s, c);
    }
  }

  lemma PopKeepsOthers(s: Server, l: LoopId)
    requires Core(s) && l < |s.loops| && s.loops[l].phase == Running && s.loops[l].batch > 0
    ensures s.loops[l].batch <= |s.loops[l].todo|
    ensures OkBut(Pop(s, l), s.loops[l].todo[0].c)
  {
    assert LoopFits(s, l);
    var x := s.loops[l];
    var s' := Pop(s, l);
    assert forall f :: f in x.todo[1..] ==> f in x.todo;
    forall d | d in s'.conns && d != x.todo[0].c ensures ConnOkAt(s', d) {
      assert ConnOkAt(s, d);
      assert x.todo[0].c != d;
      assert Destroy(d) in x.todo <==> Destroy(d) in x.todo[1..];
      assert Establish(d) in x.todo <==> Establish(d) in x.todo[1..];
    }
    forall m | 0 <= m < |s'.loops| ensures LoopFits(s', m) {
      assert LoopFits(s, m);
    }
  }

  /** What the connection of a functor that has just left the queue may rely on. */
  ghost predicate FunctorReady(s: Server, f: Functor)
    requires Has(s, f.c)
  {
    var r := s.conns[f.c];
    var x := s.loops[r.loop];
    match f
    case Establish(c) =>
      !r.destroyed && !r.abandoned && !r.rawSince && f !in x.todo && x.phase != Stopped
      && (c in s.table <==> Destroy(c) !in x.todo)
    case Destroy(c) => ReadyToDestroy(s, c)
    case RemoveInLoop(_) => ConnOkAt(s, f.c)
    case User(_) => ConnOkAt(s, f.c)
    case _ => ConnOkAt(s, f.c) && r.established && x.phase != Stopped
  }

  lemma PoppedFunctor(s: Server, l: LoopId)
    requires Core(s) && l < |s.loops| && s.loops[l].phase == Running && s.loops[l].batch > 0
    ensures s.loops[l].batch <= |s.loops[l].todo|
    ensures var f := s.loops[l].todo[0];
            OkBut(Pop(s, l), f.c) && f.c in s.conns && FunctorReady(Pop(s, l), f)
  {
    PopKeepsOthers(s, l);
    assert LoopFits(s, l);
    var x := s.loops[l];
    var f := x.todo[0];
    assert f in x.todo;
    assert x.todo == [f] + x.todo[1..];
    assert ConnOkAt(s, f.c);
    assert !f.Establish? && !f.Destroy? ==> ConnOkAt(Pop(s, l), f.c);
  }

  lemma RunFunctorCore(s: Server, f: Functor, blocked: bool)
    requires OkBut(s, f.c) && f.c in s.conns && FunctorReady(s, f)
    ensures Core(RunFunctor(s, f, blocked))
  {
    match f
    case Establish(c) => EstablishCore(s, c);
    case Destroy(c) => DestroyCore(s, c);
    case RemoveInLoop(c) =>
      if !s.dying {
        HandOverCore(s, c);
      }
    case User(_) =>
    case RawSend(c) =>
      KeepBacklogCore(s, c);
      CoreFrame(s, Touch(s, c));
    case RawShutdown(c) =>
      CoreFrame(s, Touch(s, c));
  }

  lemma RunNextCore(s: Server, l: LoopId, blocked: bool)
    requires Core(s) && l < |s.loops| && s.loops[l].phase == Running && s.loops[l].batch > 0
    ensures s.loops[l].batch <= |s.loops[l].todo| && Has(s, s.loops[l].todo[0].c)
    ensures Core(RunFunctor(Pop(s, l), s.loops[l].todo[0], blocked))
  {
    PoppedFunctor(s, l);
    RunFunctorCore(Pop(s, l), s.loops[l].todo[0], blocked);
  }

  /** The invariant is about loops, connections and table only. */
  lemma CoreFrame(s: Server, t: Server)
    requires Core(s) && t.loops == s.loops && t.conns == s.conns && t.table == s.table
    ensures Core(t)
  {
    forall d | d in t.conns ensures ConnOkAt(t, d) {
      assert ConnOkAt(s, d);
    }
    forall m | 0 <= m < |t.loops| ensures LoopFits(t, m) {
      assert LoopFits(s, m);
    }
  }

  /** A loop moving through its round reaches no connection it did not already hold or watch. */
  lemma TurnCore(s: Server, l: LoopId, y: LoopState)
    requires Core(s) && l < |s.loops|
    requires var x := s.loops[l];
             y.todo == x.todo && y.kernel == x.kernel && y.atStop == x.atStop && y.batch <= |y.todo|
             && x.phase != Stopped && y.phase != Stopped
             && (forall c :: c in y.active || y.guard == Some(c) ==>
                   c in x.active || x.guard == Some(c) || c in x.kernel)
    requires y.phase != Dispatching ==> y.active == [] && y.guard.None?
    requires y.phase != Running ==> y.batch == 0
    ensures Core(SetLoop(s, l, y))
  {
    var s' := SetLoop(s, l, y);
    assert LoopFits(s, l);
    forall d | d in s'.conns ensures ConnOkAt(s', d) {
      assert ConnOkAt(s, d);
    }
    forall m | 0 <= m < |s'.loops| ensures LoopFits(s', m) {
      assert LoopFits(s, m);
    }
  }

  lemma AcceptCore(s: Server, c: ConnId, l: LoopId)
    requires Core(s) && Enabled(s, Accept(c, l))
    ensures Core(Apply(s, Accept(c, l)))
  {
    var s1 := s.(conns := s.conns[c := NewConn(l)], table := s.table + {c});
    assert forall m, f :: 0 <= m < |s.loops| && f in s.loops[m].todo ==> f.c != c by {
      forall m, f | 0 <= m < |s.loops| && f in s.loops[m].todo ensures f.c != c {
        assert LoopFits(s, m);
      }
    }
    assert OkBut(s1, c) by {
      forall d | d in s1.conns && d != c ensures ConnOkAt(s1, d) {
        assert ConnOkAt(s, d);
      }
      forall m | 0 <= m < |s1.loops| ensures LoopFits(s1, m) {
        assert LoopFits(s, m);
      }
    }
    assert LoopFits(s, l);
    if l == BASE {
      EstablishCore(s1, c);
    } else {
      PushKeepsOthers(s1, l, Establish(c));
      WaitsNew(s.loops[l].todo, c);
      assert ConnOkAt(Push(s1, l, Establish(c)), c);
    }
  }

  lemma TableForgetsBut(s: Server, c: ConnId)
    requires Core(s)
    ensures OkBut(s.(table := s.table - {c}), c)
  {
    var s1 := s.(table := s.table - {c});
    forall d | d in s1.conns && d != c ensures ConnOkAt(s1, d) {
      assert ConnOkAt(s, d);
    }
    forall m | 0 <= m < |s1.loops| ensures LoopFits(s1, m) {
      assert LoopFits(s, m);
    }
  }

  lemma DestructCore(s: Server, c: ConnId)
    requires Core(s) && c in s.table && BetweenHandlers(s.loops[BASE])
    ensures Has(s, c)
    ensures var s1 := s.(table := s.table - {c});
            Core(if s.conns[c].loop == BASE then ConnDestory(s1, c) else Push(s1, s.conns[c].loop, Destroy(c)))
  {
    if s.conns[c].loop == BASE {
      TableForgetsBut(s, c);
      assert ConnOkAt(s, c) && LoopFits(s, BASE);
      DestroyCore(s.(table := s.table - {c}), c);
    } else {
      HandOverCore(s, c);
    }
  }

  lemma StopCore(s: Server, l: LoopId)
    requires Core(s) && l < |s.loops| && s.loops[l].phase == Polling
    ensures Core(SetLoop(s, l, s.loops[l].(phase := Stopped, atStop := s.loops[l].kernel)))
  {
    var s' := SetLoop(s, l, s.loops[l].(phase := Stopped, atStop := s.loops[l].kernel));
    assert LoopFits(s, l);
    forall d | d in s'.conns ensures ConnOkAt(s', d) {
      assert ConnOkAt(s, d);
    }
    forall m | 0 <= m < |s'.loops| ensures LoopFits(s', m) {
      assert LoopFits(s, m);
    }
  }

  lemma DropCore(s: Server, l: LoopId)
    requires Core(s) && l < |s.loops| && s.loops[l].phase == Stopped
    ensures Core(DropQueue(s, l))
  {
    var s' := DropQueue(s, l);
    assert LoopFits(s, l);
    forall d | d in s'.conns ensures ConnOkAt(s', d) {
      assert ConnOkAt(s, d);
    }
    forall m | 0 <= m < |s'.loops| ensures LoopFits(s', m) {
      assert LoopFits(s, m);
    }
  }

  lemma DispatchCore(s: Server, l: LoopId)
    requires Core(s) && l < |s.loops| && s.loops[l].phase == Dispatching && s.loops[l].active != []
    requires s.loops[l].guard.None?
    ensures Core(Dispatch(s, l))
  {
    assert LoopFits(s, l);
    var x := s.loops[l];
    var c := x.active[0];
    TurnCore(s, l, x.(guard := Some(c), active := x.active[1..]));
    TurnCore(s, l, x.(active := x.active[1..]));
    var s1 := SetLoop(s, l, x.(active := x.active[1..]));
    CoreFrame(s1, Touch(s1, c));
  }

  lemma RoundCore(s: Server, a: Action)
    requires Core(s) && Enabled(s, a) && IsTurn(a)
    ensures Core(Apply(s, a))
  {
    assert LoopFits(s, a.l);
    match a
    case StopLoop(l) => StopCore(s, l);
    case DropLoop(l) => DropCore(s, l);
    case PollReturn(l, _) => TurnCore(s, l, Apply(s, a).loops[l]);
    case EndHandler(l) => TurnCore(s, l, Apply(s, a).loops[l]);
    case SwapQueue(l) => TurnCore(s, l, Apply(s, a).loops[l]);
    case EndBatch(l) => TurnCore(s, l, Apply(s, a).loops[l]);
    case _ =>
  }

  lemma DrainStepCore(s: Server, l: LoopId)
    requires Core(s) && Enabled(s, Drain(l))
    ensures Core(DrainBacklog(s, s.loops[l].guard.value))
  {
    assert LoopFits(s, l) && ConnOkAt(s, s.loops[l].guard.value);
    DrainCore(s, s.loops[l].guard.value);
  }

  lemma SendCore(s: Server, a: Action)
    requires Core(s) && Enabled(s, a) && (a.SendBlocks? || a.QueueRaw?)
    ensures Core(Apply(s, a))
  {
    match a
    case SendBlocks(c) =>
      assert ConnOkAt(s, c);
      KeepBacklogCore(s, c);
    case QueueRaw(f) =>
      assert ConnOkAt(s, f.c);
      PushCore(s, s.conns[f.c].loop, f);
  }

  lemma ApplyKeepsCore(s: Server, a: Action)
    requires Core(s) && Enabled(s, a)
    ensures Core(Apply(s, a))
  {
    match a
    case Accept(c, l) => AcceptCore(s, c, l);
    case BeginHandler(l) => DispatchCore(s, l);
    case Close(l) => HandleCloseCore(s, l, s.loops[l].guard.value);
    case Drain(l) => DrainStepCore(s, l);
    case RunNext(l, blocked) => RunNextCore(s, l, blocked);
    case DestructNext(c) => DestructCore(s, c);
    case UserQueue(c) => PushCore(s, s.conns[c].loop, User(c));
    case SendBlocks(_) => SendCore(s, a);
    case QueueRaw(_) => SendCore(s, a);
    case BeginDestructor => CoreFrame(s, Apply(s, a));
    case UserKeep(_) => CoreFrame(s, Apply(s, a));
    case UserDrop(_) => CoreFrame(s, Apply(s, a));
    case StopSending(c) => LeaveConnectedCore(s, c);
    case _ => RoundCore(s, a);
  }

  // ----- freed connections stay freed -----

  /** c has an owner in `t` only if it has one in `s`. */
  ghost predicate NoNewOwner(s: Server, t: Server, c: ConnId) {
    Owned(t, c) ==> Owned(s, c)
  }

  lemma LoopChange(s: Server, l: LoopId, y: LoopState, c: ConnId)
    requires l < |s.loops| && (LoopOwns(y, c) ==> LoopOwns(s.loops[l], c))
    ensures NoNewOwner(s, SetLoop(s, l, y), c)
  {
    var t := SetLoop(s, l, y);
    if Owned(t, c) && c !in s.table && c !in s.userRefs {
      var m :| 0 <= m < |t.loops| && LoopOwns(t.loops[m], c);
      assert LoopOwns(s.loops[m], c);
    }
  }

  lemma PushOwner(s: Server, l: LoopId, f: Functor, c: ConnId)
    requires l < |s.loops| && (f.c == c && !Raw(f) ==> Owned(s, c))
    ensures NoNewOwner(s, Push(s, l, f), c)
  {
    if f.c != c || Raw(f) {
      var y := s.loops[l].(todo := s.loops[l].todo + [f]);
      if Queued(y.todo, c) {
        var g :| g in y.todo && g.c == c && !Raw(g);
        assert g in s.loops[l].todo;
      }
      LoopChange(s, l, y, c);
    }
  }

  lemma SameOwners(s: Server, t: Server, c: ConnId)
    requires |t.loops| == |s.loops| && (c in t.table ==> Owned(s, c)) && (c in t.userRefs ==> Owned(s, c))
    requires forall m :: 0 <= m < |s.loops| && LoopOwns(t.loops[m], c) ==> LoopOwns(s.loops[m], c)
    ensures NoNewOwner(s, t, c)
  {
    if Owned(t, c) && c !in t.table && c !in t.userRefs {
      var m :| 0 <= m < |t.loops| && LoopOwns(t.loops[m], c);
      assert LoopOwns(s.loops[m], c);
    }
  }

  lemma ChannelWorkOwnsNothing(s: Server, d: ConnId, c: ConnId)
    requires Has(s, d)
    ensures NoNewOwner(s, Silence(s, d), c)
    ensures NoNewOwner(s, DrainBacklog(s, d), c)
    ensures NoNewOwner(s, KeepBacklog(s, d), c)
    ensures NoNewOwner(s, Touch(s, d), c)
    ensures NoNewOwner(s, ConnEstablish(s, d), c)
    ensures NoNewOwner(s, ConnDestory(s, d), c)
  {
    SameOwners(s, Silence(s, d), c);
    SameOwners(s, DrainBacklog(s, d), c);
    SameOwners(s, KeepBacklog(s, d), c);
    SameOwners(s, Touch(s, d), c);
    SameOwners(s, ConnEstablish(s, d), c);
    SameOwners(s, ConnDestory(s, d), c);
  }

  lemma RemoveOwnsNothing(s: Server, l: LoopId, d: ConnId, c: ConnId)
    requires Has(s, d) && (d == c ==> Owned(s, c))
    ensures NoNewOwner(s, RemoveConnectionInLoop(s, d), c)
    ensures NoNewOwner(s, RemoveConnection(s, l, d), c)
  {
    if d != c {
      var s1 := s.(table := s.table - {d});
      SameOwners(s, s1, c);
      PushOwner(s1, s.conns[d].loop, Destroy(d), c);
      PushOwner(s, BASE, RemoveInLoop(d), c);
    }
  }

  lemma PopOwnsNothing(s: Server, l: LoopId, c: ConnId)
    requires l < |s.loops| && 0 < s.loops[l].batch <= |s.loops[l].todo|
    ensures NoNewOwner(s, Pop(s, l), c)
    ensures s.loops[l].todo[0].c == c && !Raw(s.loops[l].todo[0]) ==> Owned(s, c)
  {
    var x := s.loops[l];
    assert x.todo[0] in x.todo;
    assert forall f :: f in x.todo[1..] ==> f in x.todo;
    assert x.todo[0].c == c && !Raw(x.todo[0]) ==> LoopOwns(x, c);
    LoopChange(s, l, Pop(s, l).loops[l], c);
  }

  lemma HandlerOwnsNothing(s: Server, l: LoopId, c: ConnId)
    requires Core(s) && Enabled(s, Close(l)) && !Owned(s, c)
    ensures !Owned(Apply(s, Close(l)), c)
  {
    var d := s.loops[l].guard.value;
    assert LoopOwns(s.loops[l], d);
    var s1 := Silence(s, d);
    ChannelWorkOwnsNothing(s, d, c);
    RemoveOwnsNothing(s1, l, d, c);
  }

  lemma FunctorOwnsNothing(s: Server, l: LoopId, blocked: bool, c: ConnId)
    requires Core(s) && Enabled(s, RunNext(l, blocked)) && !Owned(s, c)
    ensures !Owned(Apply(s, RunNext(l, blocked)), c)
  {
    PopOwnsNothing(s, l, c);
    var s1 := Pop(s, l);
    var f := s.loops[l].todo[0];
    ChannelWorkOwnsNothing(s1, f.c, c);
    if !Raw(f) {
      RemoveOwnsNothing(s1, l, f.c, c);
    }
  }

  lemma AcceptOwnsNothing(s: Server, d: ConnId, l: LoopId, c: ConnId)
    requires Core(s) && Enabled(s, Accept(d, l)) && c in s.conns && !Owned(s, c)
    ensures !Owned(Apply(s, Accept(d, l)), c)
  {
    var s1 := s.(conns := s.conns[d := NewConn(l)], table := s.table + {d});
    SameOwners(s, s1, c);
    ChannelWorkOwnsNothing(s1, d, c);
    PushOwner(s1, l, Establish(d), c);
  }

  lemma DestructOwnsNothing(s: Server, d: ConnId, c: ConnId)
    requires Core(s) && Enabled(s, DestructNext(d)) && !Owned(s, c)
    ensures !Owned(Apply(s, DestructNext(d)), c)
  {
    var s1 := s.(table := s.table - {d});
    SameOwners(s, s1, c);
    ChannelWorkOwnsNothing(s1, d, c);
    PushOwner(s1, s.conns[d].loop, Destroy(d), c);
  }

  lemma DispatchOwnsNothing(s: Server, l: LoopId, c: ConnId)
    requires l < |s.loops| && s.loops[l].active != [] && c in s.freed && !Owned(s, c)
    ensures !Owned(Dispatch(s, l), c)
  {
    var x := s.loops[l];
    var y := x.(active := x.active[1..]);
    LoopChange(s, l, y, c);
    SameOwners(SetLoop(s, l, y), Touch(SetLoop(s, l, y), x.active[0]), c);
    if x.active[0] != c {
      LoopChange(s, l, y.(guard := Some(x.active[0])), c);
    }
  }

  /** The steps in which a loop moves through its round, stops or is destroyed. */
  predicate IsTurn(a: Action) {
    a.PollReturn? || a.EndHandler? || a.SwapQueue? || a.EndBatch? || a.StopLoop? || a.DropLoop?
  }

  lemma TurnOwnsNothing(s: Server, a: Action, c: ConnId)
    requires 0 < |s.loops| && Enabled(s, a) && IsTurn(a) && !Owned(s, c)
    ensures !Owned(Apply(s, a), c)
  {
    LoopChange(s, a.l, Apply(s, a).loops[a.l], c);
    SameOwners(SetLoop(s, a.l, Apply(s, a).loops[a.l]), Apply(s, a), c);
  }

  /** No step gives an owner to a connection that has been freed. */
  lemma NothingIsRevived(s: Server, a: Action, c: ConnId)
    requires Core(s) && Enabled(s, a) && c in s.conns && c in s.freed && !Owned(s, c)
    ensures !Owned(Apply(s, a), c)
  {
    match a
    case Accept(d, l) => AcceptOwnsNothing(s, d, l, c);
    case BeginHandler(l) => DispatchOwnsNothing(s, l, c);
    case Close(l) => HandlerOwnsNothing(s, l, c);
    case Drain(l) => ChannelWorkOwnsNothing(s, s.loops[l].guard.value, c);
    case SendBlocks(d) => ChannelWorkOwnsNothing(s, d, c);
    case RunNext(l, blocked) => FunctorOwnsNothing(s, l, blocked, c);
    case DestructNext(d) => DestructOwnsNothing(s, d, c);
    case UserQueue(d) => PushOwner(s, s.conns[d].loop, User(d), c);
    case QueueRaw(f) => PushOwner(s, s.conns[f.c].loop, f, c);
    case BeginDestructor => SameOwners(s, Apply(s, a), c);
    case UserKeep(d) => SameOwners(s, Apply(s, a), c);
    case UserDrop(d) => SameOwners(s, Apply(s, a), c);
    case StopSending(d) => SameOwners(s, Apply(s, a), c);
    case _ => TurnOwnsNothing(s, a, c);
  }

  /** The queue of a stopped loop is thrown away with c's connDestory in it, still to run. */
  ghost predicate Drops(s: Server, a: Action, c: ConnId)
    requires c in s.conns
  {
    a.DropLoop? && Enabled(s, a) && s.conns[c].loop == a.l && Destroy(c) in s.loops[a.l].todo && !s.conns[c].destroyed
  }

  /** connDestory of c runs. */
  ghost predicate Destroys(s: Server, a: Action, c: ConnId)
    requires c in s.conns
  {
    Enabled(s, a)
    && ((a.RunNext? && s.loops[a.l].todo[0] == Destroy(c)) || (a == DestructNext(c) && s.conns[c].loop == BASE))
  }

  /** A raw send of c runs after its connDestory, leaves bytes over and finds write interest off. */
  ghost predicate SendsLate(s: Server, a: Action, c: ConnId)
    requires c in s.conns
  {
    Enabled(s, a) && a.RunNext? && a.blocked && s.loops[a.l].todo[0] == RawSend(c)
    && c !in s.freed && s.conns[c].destroyed && !s.conns[c].writeSet
  }

  /** c's handler runs handleClose, or drains the backlog with no read interest left. */
  ghost predicate Silences(s: Server, a: Action, c: ConnId)
    requires c in s.conns
  {
    Enabled(s, a) && (a.Close? || (a.Drain? && !s.conns[c].readSet)) && s.loops[a.l].guard == Some(c)
  }

  /** How a connection's history moves on. */
  ghost predicate Evolves(r: ConnRec, r': ConnRec, destroys: bool, sendsLate: bool, drops: bool, silences: bool) {
    && r'.loop == r.loop
    && (r'.destroyed <==> r.destroyed || destroys)
    && (r'.rawSince <==> (r.rawSince && !destroys) || sendsLate)
    && (r'.abandoned <==> r.abandoned || drops)
    && r'.silenced == if sendsLate then 0 else r.silenced + if silences then 1 else 0
  }

  lemma CloseHistory(s: Server, l: LoopId, d: ConnId, c: ConnId)
    requires Has(s, d) && c in s.conns
    ensures var t := HandleClose(s, l, d); c in t.conns && Evolves(s.conns[c], t.conns[c], false, false, false, c == d)
  {
    assert Silence(s, d).conns.Keys == s.conns.Keys;
    assert HandleClose(s, l, d).conns == Silence(s, d).conns;
  }

  lemma DrainHistory(s: Server, d: ConnId, c: ConnId)
    requires Has(s, d) && c in s.conns
    ensures var t := DrainBacklog(s, d);
            c in t.conns && Evolves(s.conns[c], t.conns[c], false, false, false, c == d && !s.conns[c].readSet)
  {
  }

  lemma KeepBacklogHistory(s: Server, d: ConnId, c: ConnId)
    requires Has(s, d) && c in s.conns && (s.conns[c].rawSince ==> s.conns[c].destroyed)
    ensures var t := KeepBacklog(s, d);
            c in t.conns
            && Evolves(s.conns[c], t.conns[c], false, c == d && s.conns[c].destroyed && !s.conns[c].writeSet, false, false)
  {
  }

  lemma DestroyHistory(s: Server, d: ConnId, c: ConnId)
    requires Has(s, d) && c in s.conns
    ensures var t := ConnDestory(s, d); c in t.conns && Evolves(s.conns[c], t.conns[c], c == d, false, false, false)
  {
  }

  lemma FunctorHistory(s: Server, f: Functor, blocked: bool, c: ConnId)
    requires Has(s, f.c) && c in s.conns && (s.conns[c].rawSince ==> s.conns[c].destroyed)
    ensures var t := RunFunctor(s, f, blocked);
            c in t.conns
            && Evolves(s.conns[c], t.conns[c], f == Destroy(c),
                       f == RawSend(c) && blocked && c !in s.freed && s.conns[c].destroyed && !s.conns[c].writeSet,
                       false, false)
  {
    if f.Destroy? {
      DestroyHistory(s, f.c, c);
    } else if f.RawSend? {
      KeepBacklogHistory(s, f.c, c);
    }
  }

  lemma DestructHistory(s: Server, d: ConnId, c: ConnId)
    requires 0 < |s.loops| && Enabled(s, DestructNext(d)) && c in s.conns
    ensures var a := DestructNext(d); var t := Apply(s, a);
            c in t.conns && Evolves(s.conns[c], t.conns[c], Destroys(s, a, c), false, false, false)
  {
    DestroyHistory(s.(table := s.table - {d}), d, c);
  }

  lemma DropHistory(s: Server, l: LoopId, c: ConnId)
    requires 0 < |s.loops| && Enabled(s, DropLoop(l)) && c in s.conns
    ensures var a := DropLoop(l); var t := Apply(s, a);
            c in t.conns && Evolves(s.conns[c], t.conns[c], false, false, Drops(s, a, c), false)
  {
  }

  lemma AcceptHistory(s: Server, d: ConnId, l: LoopId, c: ConnId)
    requires 0 < |s.loops| && Enabled(s, Accept(d, l)) && c in s.conns
    ensures var t := Apply(s, Accept(d, l)); c in t.conns && t.conns[c] == s.conns[c]
  {
  }

  /** The actions that run no handler, functor or destructor turn. */
  lemma QuietHistory(s: Server, a: Action, c: ConnId)
    requires 0 < |s.loops| && Enabled(s, a) && c in s.conns
    requires !a.Accept? && !a.Close? && !a.Drain? && !a.SendBlocks? && !a.RunNext? && !a.DestructNext? && !a.DropLoop?
    ensures var t := Apply(s, a);
            c in t.conns && Evolves(s.conns[c], t.conns[c], false, false, false, false)
  {
  }

  /** The step changes c's history by exactly what it does. */
  ghost predicate EvolvesIn(s: Server, a: Action, c: ConnId)
    requires 0 < |s.loops| && Enabled(s, a) && c in s.conns
  {
    var t := Apply(s, a);
    c in t.conns
    && Evolves(s.conns[c], t.conns[c], Destroys(s, a, c), SendsLate(s, a, c), Drops(s, a, c), Silences(s, a, c))
  }

  lemma HandlerHistory(s: Server, a: Action, c: ConnId)
    requires 0 < |s.loops| && Enabled(s, a) && Has(s, c) && ConnOkAt(s, c) && (a.Close? || a.Drain? || a.SendBlocks?)
    ensures EvolvesIn(s, a, c)
  {
    match a
    case Close(l) => CloseHistory(s, l, s.loops[l].guard.value, c);
    case Drain(l) => DrainHistory(s, s.loops[l].guard.value, c);
    case SendBlocks(d) => KeepBacklogHistory(s, d, c);
  }

  lemma RunNextHistory(s: Server, l: LoopId, blocked: bool, c: ConnId)
    requires 0 < |s.loops| && Enabled(s, RunNext(l, blocked)) && Has(s, c) && ConnOkAt(s, c)
    ensures EvolvesIn(s, RunNext(l, blocked), c)
  {
    FunctorHistory(Pop(s, l), s.loops[l].todo[0], blocked, c);
  }

  /** Each step changes a connection's history by exactly what it does. */
  lemma HistoryStep(s: Server, a: Action, c: ConnId)
    requires 0 < |s.loops| && Enabled(s, a) && Has(s, c) && ConnOkAt(s, c)
    ensures EvolvesIn(s, a, c)
  {
    match a
    case Accept(d, l) => AcceptHistory(s, d, l, c);
    case Close(_) => HandlerHistory(s, a, c);
    case Drain(_) => HandlerHistory(s, a, c);
    case SendBlocks(_) => HandlerHistory(s, a, c);
    case RunNext(l, blocked) => RunNextHistory(s, l, blocked, c);
    case DestructNext(d) => DestructHistory(s, d, c);
    case DropLoop(l) => DropHistory(s, l, c);
    case _ => QuietHistory(s, a, c);
  }

  lemma QueuedIsOwned(s: Server, l: LoopId, f: Functor)
    requires l < |s.loops| && f in s.loops[l].todo && !Raw(f)
    ensures Owned(s, f.c)
  {
    assert LoopOwns(s.loops[l], f.c);
  }

  /** A connection whose connDestory has not run and has not been thrown away has an owner. */
  lemma UndestroyedIsOwned(s: Server, c: ConnId)
    requires Core(s) && c in s.conns && !s.conns[c].destroyed && !s.conns[c].abandoned
    ensures Owned(s, c)
  {
    assert ConnOkAt(s, c);
    if c !in s.table {
      QueuedIsOwned(s, s.conns[c].loop, Destroy(c));
    }
  }

  lemma ApplyFreesNothing(s: Server, a: Action)
    requires 0 < |s.loops| && Enabled(s, a)
    ensures Apply(s, a).freed == s.freed
  {
  }

  lemma StepKeepsInv(s: Server, a: Action)
    requires Inv(s)
    ensures Inv(Step(s, a))
  {
    if Enabled(s, a) {
      var s1 := Apply(s, a);
      ApplyKeepsCore(s, a);
      var s' := Collect(s1);
      CoreFrame(s1, s');
      forall c | c in s'.freed
        ensures c in s'.conns && (s'.conns[c].destroyed || s'.conns[c].abandoned) && !Owned(s', c)
      {
        if c in s.freed {
          NothingIsRevived(s, a, c);
          assert ConnOkAt(s, c);
          HistoryStep(s, a, c);
        } else {
          ApplyFreesNothing(s, a);
          if !s1.conns[c].destroyed && !s1.conns[c].abandoned {
            UndestroyedIsOwned(s1, c);
          }
        }
        SameOwners(s1, s', c);
      }
      forall c | c in s'.conns && !Owned(s', c) ensures c in s'.freed {
        SameOwners(s', s1, c);
      }
    }
  }

  lemma {:induction false} RunKeepsInv(s: Server, t: seq<Action>)
    requires Inv(s)
    ensures Inv(Run(s, t))
    decreases |t|
  {
    if t != [] {
      StepKeepsInv(s, t[0]);
      RunKeepsInv(Step(s, t[0]), t[1..]);
    }
  }
}
