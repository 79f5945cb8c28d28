/**
 Channel and EpollPoller (src/channel.cc, src/epoll_poller.cc, src/poller.cc).  That a channel is
 registered is recorded three times: in the channel's state, in the poller's channels_ map, and in
 the kernel's interest set.  The three are separate here, and epoll_ctl fails as the kernel's does.
 */
module Registry {

  type Mask = bv8   // the low byte of the epoll mask, which holds every flag the code uses
  type Id = nat   // a Channel object

  const EPOLLIN: Mask := 1
  const EPOLLPRI: Mask := 2
  const EPOLLOUT: Mask := 4
  const EPOLLERR: Mask := 8
  const EPOLLHUP: Mask := 16
  const READABLE: Mask := 3   // EPOLLIN | EPOLLPRI
  const WRITABLE: Mask := 4

  datatype ChannelState = Initialized | Added | Removed

  datatype Channel = Channel(fd: int, events: Mask, revents: Mask, state: ChannelState)

  /** An entry of the kernel's interest set: the mask and the Channel* stored with it. */
  datatype Interest = Interest(owner: Id, mask: Mask)

  /** `fatal` is set where update() would reach LOG_FATAL, `delErrors` counts failed deletions. */
  datatype Poller = Poller(
    objects: map<Id, Channel>,
    channels: map<int, Id>,
    kernel: map<int, Interest>,
    fatal: bool,
    delErrors: nat)

  const EMPTY: Poller := Poller(map[], map[], map[], false, 0)

  // ----- epoll_ctl and the poller -----

  datatype Ctl = Add | Mod | Del

  function Update(p: Poller, op: Ctl, id: Id): Poller
    requires id in p.objects
  {
    var c := p.objects[id];
    match op
    case Add =>
      if c.fd in p.kernel then p.(fatal := true)
      else p.(kernel := p.kernel[c.fd := Interest(id, c.events)])
    case Mod =>
      if c.fd !in p.kernel then p.(fatal := true)
      else p.(kernel := p.kernel[c.fd := Interest(id, c.events)])
    case Del =>
      if c.fd !in p.kernel then p.(delErrors := p.delErrors + 1)
      else p.(kernel := p.kernel - {c.fd})
  }

  function SetState(p: Poller, id: Id, st: ChannelState): Poller
    requires id in p.objects
  {
    p.(objects := p.objects[id := p.objects[id].(state := st)])
  }

  function UpdateChannel(p: Poller, id: Id): Poller
    requires id in p.objects
  {
    var c := p.objects[id];
    if c.state == Initialized || c.state == Removed then
      var p1 := if c.state == Initialized then p.(channels := p.channels[c.fd := id]) else p;
      Update(SetState(p1, id, Added), Add, id)
    else if c.events == 0 then
      SetState(Update(p, Del, id), id, Removed)
    else
      Update(p, Mod, id)
  }

  function RemoveChannel(p: Poller, id: Id): Poller
    requires id in p.objects
  {
    var c := p.objects[id];
    var p1 := p.(channels := p.channels - {c.fd});
    var p2 := if c.state == Added then Update(p1, Del, id) else p1;
    SetState(p2, id, Initialized)
  }

  predicate IsChannelExist(p: Poller, id: Id)
    requires id in p.objects
  {
    var fd := p.objects[id].fd;
    fd in p.channels && p.channels[fd] == id
  }

  // ----- the channel's interest -----

  datatype ChannelOp = EnableRead | DisableRead | EnableWrite | DisableWrite | DisableAll

  function NewEvents(events: Mask, op: ChannelOp): Mask {
    match op
    case EnableRead => events | READABLE
    case DisableRead => events & !READABLE
    case EnableWrite => events | WRITABLE
    case DisableWrite => events & !WRITABLE
    case DisableAll => 0
  }

  function SetEvents(p: Poller, id: Id, events: Mask): Poller
    requires id in p.objects
  {
    p.(objects := p.objects[id := p.objects[id].(events := events)])
  }

  function ChangeInterest(p: Poller, id: Id, op: ChannelOp): Poller
    requires id in p.objects
  {
    UpdateChannel(SetEvents(p, id, NewEvents(p.objects[id].events, op)), id)
  }

  // ----- agreement of the three records -----

  ghost predicate DistinctFds(p: Poller) {
    forall a, b :: a in p.objects && b in p.objects && p.objects[a].fd == p.objects[b].fd ==> a == b
  }

  /** One channel: its state is Added exactly when the kernel holds its descriptor, with this very
      channel and its current mask; and it is out of the map exactly when it is Initialized. */
  ghost predicate ChannelAgrees(p: Poller, id: Id)
    requires id in p.objects
  {
    var c := p.objects[id];
    && (c.state == Added <==> c.fd in p.kernel)
    && (c.fd in p.kernel ==> p.kernel[c.fd] == Interest(id, c.events))
    && (c.state != Initialized <==> c.fd in p.channels)
    && (c.fd in p.channels ==> p.channels[c.fd] == id)
  }

  ghost predicate HasObject(p: Poller, fd: int) {
    exists id :: id in p.objects && p.objects[id].fd == fd
  }

  ghost predicate Agree(p: Poller) {
    && DistinctFds(p)
    && (forall id :: id in p.objects ==> ChannelAgrees(p, id))
    && (forall fd :: fd in p.kernel || fd in p.channels ==> HasObject(p, fd))
    && !p.fatal && p.delErrors == 0
  }

  /** What an operation on one channel may touch. */
  ghost predicate OthersUntouched(p: Poller, q: Poller, id: Id)
    requires id in p.objects
  {
    && q.objects.Keys == p.objects.Keys
    && (forall a :: a in p.objects && a != id ==> q.objects[a] == p.objects[a])
    && q.objects[id].fd == p.objects[id].fd
    && (q.kernel - {p.objects[id].fd}) == (p.kernel - {p.objects[id].fd})
    && (q.channels - {p.objects[id].fd}) == (p.channels - {p.objects[id].fd})
    && q.fatal == p.fatal && q.delErrors == p.delErrors
  }

  /** Agreement is local: restoring it for the one channel touched restores it everywhere. */
  lemma LocalChangeKeepsAgree(p: Poller, q: Poller, id: Id)
    requires Agree(p) && id in p.objects && OthersUntouched(p, q, id) && ChannelAgrees(q, id)
    ensures Agree(q)
  {
    var fd := p.objects[id].fd;
    forall a | a in q.objects ensures ChannelAgrees(q, a) {
      if a != id {
        var f := p.objects[a].fd;
        assert ChannelAgrees(p, a) && f != fd;
        assert f in q.kernel <==> f in q.kernel - {fd};
        assert f in p.kernel <==> f in p.kernel - {fd};
        assert f in q.channels <==> f in q.channels - {fd};
        assert f in p.channels <==> f in p.channels - {fd};
        assert f in q.kernel ==> q.kernel[f] == (q.kernel - {fd})[f] == p.kernel[f];
        assert f in q.channels ==> q.channels[f] == (q.channels - {fd})[f] == p.channels[f];
      }
    }
    forall f | f in q.kernel || f in q.channels ensures HasObject(q, f) {
      if f == fd {
        assert q.objects[id].fd == f;
      } else {
        assert f in q.kernel - {fd} || f in q.channels - {fd};
        assert HasObject(p, f);
        var a :| a in p.objects && p.objects[a].fd == f;
        assert q.objects[a].fd == f;
      }
    }
  }

  lemma UpdateIsLocal(p: Poller, id: Id, events: Mask)
    requires id in p.objects && ChannelAgrees(p, id)
    ensures var q := UpdateChannel(SetEvents(p, id, events), id);
            OthersUntouched(p, q, id) && ChannelAgrees(q, id) && q.objects[id].events == events
  {
    var c := p.objects[id];
    var q := UpdateChannel(SetEvents(p, id, events), id);
    if c.state == Added {
      assert c.fd in p.kernel;
      assert q.channels == p.channels;
    } else {
      assert c.fd !in p.kernel;
      assert q.kernel == p.kernel[c.fd := Interest(id, events)];
    }
  }

  /** What poll writes, the events that happened, is no part of the agreement. */
  lemma ReventsKeepAgree(p: Poller, q: Poller)
    requires Agree(p) && q == p.(objects := q.objects) && q.objects.Keys == p.objects.Keys
    requires forall id :: id in p.objects ==> q.objects[id] == p.objects[id].(revents := q.objects[id].revents)
    ensures Agree(q)
  {
    forall id | id in q.objects ensures ChannelAgrees(q, id) {
      assert ChannelAgrees(p, id);
    }
    forall fd | fd in q.kernel || fd in q.channels ensures HasObject(q, fd) {
      assert HasObject(p, fd);
      var id :| id in p.objects && p.objects[id].fd == fd;
      assert q.objects[id].fd == fd;
    }
  }

  lemma ChangeInterestAgrees(p: Poller, id: Id, op: ChannelOp)
    requires Agree(p) && id in p.objects
    ensures var q := ChangeInterest(p, id, op);
            Agree(q) && OthersUntouched(p, q, id)
            && q.objects[id].events == NewEvents(p.objects[id].events, op)
  {
    UpdateIsLocal(p, id, NewEvents(p.objects[id].events, op));
    LocalChangeKeepsAgree(p, ChangeInterest(p, id, op), id);
  }

  lemma InterestIsRegistered(p: Poller, id: Id, op: ChannelOp)
    requires Agree(p) && id in p.objects
    ensures var q := ChangeInterest(p, id, op);
            Agree(q) && OthersUntouched(p, q, id)
    ensures var c := ChangeInterest(p, id, op).objects[id];
            var kernel := ChangeInterest(p, id, op).kernel;
            c.events == NewEvents(p.objects[id].events, op)
            && (c.state == Added <==> c.fd in kernel && kernel[c.fd] == Interest(id, c.events))
            && (c.events != 0 ==> c.state == Added)
  {
    ChangeInterestAgrees(p, id, op);
    assert ChannelAgrees(ChangeInterest(p, id, op), id);
  }

  lemma RemoveAgrees(p: Poller, id: Id)
    requires Agree(p) && id in p.objects
    ensures var q := RemoveChannel(p, id);
            Agree(q) && OthersUntouched(p, q, id) && q.objects[id].state == Initialized
  {
    assert ChannelAgrees(p, id);
    LocalChangeKeepsAgree(p, RemoveChannel(p, id), id);
  }

  // ----- any sequence of calls -----

  datatype Call =
    | Create(id: Id, fd: int)        // a new Channel on a descriptor no other channel has
    | Change(id: Id, op: ChannelOp)
    | Remove(id: Id)
    | Free(id: Id)                   // ~Channel of a channel that is not registered

  predicate Possible(p: Poller, call: Call) {
    match call
    case Create(id, fd) => id !in p.objects && forall a :: a in p.objects ==> p.objects[a].fd != fd
    case Change(id, _) => id in p.objects
    case Remove(id) => id in p.objects
    case Free(id) => id in p.objects && p.objects[id].state == Initialized
  }

  function Do(p: Poller, call: Call): Poller
    requires Possible(p, call)
  {
    match call
    case Create(id, fd) => p.(objects := p.objects[id := Channel(fd, 0, 0, Initialized)])
    case Change(id, op) => ChangeInterest(p, id, op)
    case Remove(id) => RemoveChannel(p, id)
    case Free(id) => p.(objects := p.objects - {id})
  }

  lemma DoKeepsAgree(p: Poller, call: Call)
    requires Agree(p) && Possible(p, call)
    ensures Agree(Do(p, call))
  {
    var q := Do(p, call);
    match call
    case Change(id, op) => ChangeInterestAgrees(p, id, op);
    case Remove(id) => RemoveAgrees(p, id);
    case Create(id, fd) =>
      assert forall f :: HasObject(p, f) ==> f != fd;
      forall a | a in q.objects ensures ChannelAgrees(q, a) {
        assert a != id ==> ChannelAgrees(p, a);
      }
      forall f | f in q.kernel || f in q.channels ensures HasObject(q, f) {
        var a :| a in p.objects && p.objects[a].fd == f;
        assert q.objects[a].fd == f;
      }
    case Free(id) =>
      assert ChannelAgrees(p, id);
      forall a | a in q.objects ensures ChannelAgrees(q, a) {
        assert ChannelAgrees(p, a);
      }
      forall f | f in q.kernel || f in q.channels ensures HasObject(q, f) {
        var a :| a in p.objects && p.objects[a].fd == f;
        assert a != id && q.objects[a].fd == f;
      }
  }

  /** ~TcpConnection of any channel: the object goes, and closing the socket takes its descriptor out of
      the kernel's set. */
  function Destruct(p: Poller, id: Id): Poller
    requires id in p.objects
  {
    p.(objects := p.objects - {id}, kernel := p.kernel - {p.objects[id].fd})
  }

  /** The records agree afterwards exactly if the channel had been removed.  Otherwise channels_ is left
      with a pointer to an object that is gone. */
  lemma DestructKeepsAgreeIff(p: Poller, id: Id)
    requires Agree(p) && id in p.objects
    ensures Agree(Destruct(p, id)) <==> p.objects[id].state == Initialized
    ensures var fd := p.objects[id].fd;
            p.objects[id].state != Initialized ==> fd in p.channels && Destruct(p, id).channels[fd] !in Destruct(p, id).objects
  {
    var q := Destruct(p, id);
    var fd := p.objects[id].fd;
    assert ChannelAgrees(p, id);
    if p.objects[id].state == Initialized {
      assert q == Do(p, Free(id)) by {
        assert p.kernel - {fd} == p.kernel;
      }
      DoKeepsAgree(p, Free(id));
    } else {
      assert !HasObject(q, fd);
    }
  }

  ghost function Run(p: Poller, calls: seq<Call>): Poller
    decreases |calls|
  {
    if calls == [] then p
    else Run(if Possible(p, calls[0]) then Do(p, calls[0]) else p, calls[1..])
  }

  /** After any sequence of calls the three records agree; in particular no ADD ever met a present
      descriptor and no MOD or DEL an absent one. */
  lemma {:induction false} RegistrationAgreement(p: Poller, calls: seq<Call>)
    requires Agree(p)
    ensures Agree(Run(p, calls))
    decreases |calls|
  {
    if calls != [] {
      if Possible(p, calls[0]) {
        DoKeepsAgree(p, calls[0]);
      }
      RegistrationAgreement(if Possible(p, calls[0]) then Do(p, calls[0]) else p, calls[1..]);
    }
  }

  /** Poller::isChannelExist tells exactly whether the channel is past Initialized. */
  lemma ExistsMeansNotInitialized(calls: seq<Call>, id: Id)
    requires id in Run(EMPTY, calls).objects
    ensures var p := Run(EMPTY, calls); IsChannelExist(p, id) <==> p.objects[id].state != Initialized
  {
    RegistrationAgreement(EMPTY, calls);
    assert ChannelAgrees(Run(EMPTY, calls), id);
  }

  // ----- teardown -----

  ghost function Changes(p: Poller, id: Id, ops: seq<ChannelOp>): (q: Poller)
    requires id in p.objects
    ensures id in q.objects
    decreases |ops|
  {
    if ops == [] then p else Changes(ChangeInterest(p, id, ops[0]), id, ops[1..])
  }

  /** connDestory's effect on the channel: a connected connection first disables all events. */
  function ConnDestory(p: Poller, id: Id, connected: bool): Poller
    requires id in p.objects
  {
    RemoveChannel(if connected then ChangeInterest(p, id, DisableAll) else p, id)
  }

  lemma {:induction false} ChangesAgree(p: Poller, id: Id, ops: seq<ChannelOp>)
    requires Agree(p) && id in p.objects
    ensures Agree(Changes(p, id, ops)) && OthersUntouched(p, Changes(p, id, ops), id)
    decreases |ops|
  {
    if ops != [] {
      ChangeInterestAgrees(p, id, ops[0]);
      ChangesAgree(ChangeInterest(p, id, ops[0]), id, ops[1..]);
    }
  }

  ghost predicate Gone(p: Poller, id: Id)
    requires id in p.objects
  {
    var c := p.objects[id];
    c.state == Initialized && c.fd !in p.channels && c.fd !in p.kernel
  }

  lemma DestroyOnce(p: Poller, id: Id, connected: bool)
    requires Agree(p) && id in p.objects
    ensures var q := ConnDestory(p, id, connected); Agree(q) && OthersUntouched(p, q, id) && Gone(q, id)
  {
    if connected {
      ChangeInterestAgrees(p, id, DisableAll);
    }
    var p1 := if connected then ChangeInterest(p, id, DisableAll) else p;
    RemoveAgrees(p1, id);
    assert ChannelAgrees(RemoveChannel(p1, id), id);
  }

  lemma GoneStaysGone(p: Poller, id: Id)
    requires id in p.objects && Gone(p, id)
    ensures ConnDestory(p, id, false) == p
  {
    assert p.channels - {p.objects[id].fd} == p.channels;
    assert p.objects[id := p.objects[id].(state := Initialized)] == p.objects;
  }

  lemma UntouchedTransitive(p: Poller, q: Poller, r: Poller, id: Id)
    requires id in p.objects && OthersUntouched(p, q, id) && OthersUntouched(q, r, id)
    ensures OthersUntouched(p, r, id)
  {
  }

  /** Whatever interest changes came before, connDestory takes the channel out of the map and of the
      kernel and touches nothing else, and a second call changes nothing more. */
  lemma TeardownCompleteAndIdempotent(p: Poller, id: Id, ops: seq<ChannelOp>, connected: bool)
    requires Agree(p) && id in p.objects
    ensures id in ConnDestory(Changes(p, id, ops), id, connected).objects
    ensures var q := ConnDestory(Changes(p, id, ops), id, connected);
            Agree(q) && OthersUntouched(p, q, id) && Gone(q, id) && ConnDestory(q, id, false) == q
  {
    ChangesAgree(p, id, ops);
    var p1 := Changes(p, id, ops);
    DestroyOnce(p1, id, connected);
    var q := ConnDestory(p1, id, connected);
    UntouchedTransitive(p, p1, q, id);
    GoneStaysGone(q, id);
  }

  /** disableAllEvent on a silent channel toggles its registration, so a handleClose run twice in
      one dispatch leaves the descriptor in the kernel with an empty mask. */
  lemma DisableAllToggles(p: Poller, id: Id)
    requires Agree(p) && id in p.objects
    ensures var q := ChangeInterest(p, id, DisableAll);
            (q.objects[id].state == Added <==> p.objects[id].state != Added)
            && (q.objects[id].state == Added ==> q.kernel[q.objects[id].fd] == Interest(id, 0))
  {
    ChangeInterestAgrees(p, id, DisableAll);
    assert ChannelAgrees(ChangeInterest(p, id, DisableAll), id);
  }

  // ----- dispatch -----

  datatype Callback = CloseCallback | ErrorCallback | ReadCallback | WriteCallback

  /** handleEventWithGuard with all callbacks set.  The read test parses as
      (revents & EPOLLIN) | EPOLLPRI; `asIntended` has the brackets its author meant. */
  function Dispatch(revents: Mask, asIntended: bool): seq<Callback> {
    var readTest := if asIntended then revents & (EPOLLIN | EPOLLPRI) else (revents & EPOLLIN) | EPOLLPRI;
    (if revents & EPOLLHUP != 0 && revents & EPOLLIN == 0 then [CloseCallback] else [])
    + (if revents & EPOLLERR != 0 then [ErrorCallback] else [])
    + (if readTest != 0 then [ReadCallback] else [])
    + (if revents & EPOLLOUT != 0 then [WriteCallback] else [])
  }

  /** As written the read callback runs on every event, so the two agree exactly on those that
      carry input or urgent data. */
  lemma ReadCallbackAlwaysRuns(revents: Mask)
    ensures ReadCallback in Dispatch(revents, false)
    ensures Dispatch(revents, false) == Dispatch(revents, true)
            <==> revents & EPOLLIN != 0 || revents & EPOLLPRI != 0
  {
    ReadTest(revents);
    var lit, meant := Dispatch(revents, false), Dispatch(revents, true);
    if revents & (EPOLLIN | EPOLLPRI) == 0 {
      assert ReadCallback !in meant;
    }
  }

  /** The order of the branches. */
  function Rank(callback: Callback): nat {
    match callback
    case CloseCallback => 0
    case ErrorCallback => 1
    case ReadCallback => 2
    case WriteCallback => 3
  }

  lemma ReadTest(revents: Mask)
    ensures (revents & EPOLLIN) | EPOLLPRI != 0
    ensures revents & (EPOLLIN | EPOLLPRI) != 0 <==> revents & EPOLLIN != 0 || revents & EPOLLPRI != 0
  {
  }

  /** Which callbacks an event runs, under both readings. */
  lemma DispatchIff(revents: Mask, asIntended: bool)
    ensures var d := Dispatch(revents, asIntended);
            && (CloseCallback in d <==> revents & EPOLLHUP != 0 && revents & EPOLLIN == 0)
            && (ErrorCallback in d <==> revents & EPOLLERR != 0)
            && (ReadCallback in d <==> !asIntended || revents & EPOLLIN != 0 || revents & EPOLLPRI != 0)
            && (WriteCallback in d <==> revents & EPOLLOUT != 0)
  {
    ReadTest(revents);
  }

  ghost predicate Ordered(d: seq<Callback>) {
    forall i, j :: 0 <= i < j < |d| ==> Rank(d[i]) < Rank(d[j])
  }

  /** Each runs at most once, in the order close, error, read, write. */
  lemma DispatchIsOrdered(revents: Mask, asIntended: bool)
    ensures Ordered(Dispatch(revents, asIntended))
  {
  }

  /** What epoll may report for a mask: what was asked for, and errors and hang-ups unasked. */
  predicate Reportable(mask: Mask, revents: Mask) {
    revents & !(mask | EPOLLERR | EPOLLHUP) == 0
  }

  /** The interests mean what their names say: some event the kernel may report under the mask runs the
      write callback exactly if the last change to write interest enabled it, and some event carries input
      exactly if that holds of read interest. */
  lemma InterestMeansCallback(events: Mask, op: ChannelOp)
    ensures var m := NewEvents(events, op);
            && (op == EnableWrite ==> Reportable(m, EPOLLOUT) && WriteCallback in Dispatch(EPOLLOUT, true))
            && (op == EnableRead ==> Reportable(m, EPOLLIN) && Reportable(m, EPOLLPRI)
                                     && ReadCallback in Dispatch(EPOLLIN, true) && ReadCallback in Dispatch(EPOLLPRI, true))
            && (op == DisableWrite || op == DisableAll ==>
                  forall r :: Reportable(m, r) ==> WriteCallback !in Dispatch(r, true))
            && (op == DisableRead || op == DisableAll ==>
                  forall r :: Reportable(m, r) ==> ReadCallback !in Dispatch(r, true))
            && (op == EnableRead || op == DisableRead ==> (Reportable(m, EPOLLOUT) <==> Reportable(events, EPOLLOUT)))
            && (op == EnableWrite || op == DisableWrite ==> (Reportable(m, EPOLLIN) <==> Reportable(events, EPOLLIN)))
  {
    var m := NewEvents(events, op);
    forall r | Reportable(m, r)
      ensures op == DisableWrite || op == DisableAll ==> WriteCallback !in Dispatch(r, true)
      ensures op == DisableRead || op == DisableAll ==> ReadCallback !in Dispatch(r, true)
    {
      DispatchIff(r, true);
    }
  }

  /** handleClose calls made by one dispatch, the read finding end of file or not. */
  function CloseCalls(callbacks: seq<Callback>, eof: bool): nat {
    if callbacks == [] then 0
    else (if callbacks[0] == CloseCallback || (callbacks[0] == ReadCallback && eof) then 1 else 0)
         + CloseCalls(callbacks[1..], eof)
  }

  lemma {:induction false} CloseCallsConcat(a: seq<Callback>, b: seq<Callback>, eof: bool)
    ensures CloseCalls(a + b, eof) == CloseCalls(a, eof) + CloseCalls(b, eof)
  {
    if a == [] {
      assert a + b == b;
    } else {
      assert (a + b)[1..] == a[1..] + b;
      CloseCallsConcat(a[1..], b, eof);
    }
  }

  /** How often handleClose runs in one dispatch: once for a hang-up without input, once for a read that
      finds end of file. */
  lemma ClosesCounted(revents: Mask, eof: bool, asIntended: bool)
    ensures CloseCalls(Dispatch(revents, asIntended), eof)
         == (if revents & EPOLLHUP != 0 && revents & EPOLLIN == 0 then 1 else 0)
            + (if eof && (!asIntended || revents & EPOLLIN != 0 || revents & EPOLLPRI != 0) then 1 else 0)
  {
    ReadTest(revents);
    var readTest := if asIntended then revents & (EPOLLIN | EPOLLPRI) else (revents & EPOLLIN) | EPOLLPRI;
    var c := if revents & EPOLLHUP != 0 && revents & EPOLLIN == 0 then [CloseCallback] else [];
    var e := if revents & EPOLLERR != 0 then [ErrorCallback] else [];
    var r := if readTest != 0 then [ReadCallback] else [];
    var w := if revents & EPOLLOUT != 0 then [WriteCallback] else [];
    CloseCallsConcat(c + e + r, w, eof);
    CloseCallsConcat(c + e, r, eof);
    CloseCallsConcat(c, e, eof);
  }

  /** handleClose runs twice in one dispatch exactly on a hang-up without input whose read finds end
      of file; with the brackets in place that also takes urgent data. */
  lemma DoubleCloseIff(revents: Mask, eof: bool, asIntended: bool)
    ensures CloseCalls(Dispatch(revents, asIntended), eof) == 2
            <==> revents & EPOLLHUP != 0 && revents & EPOLLIN == 0 && eof
                 && (asIntended ==> revents & EPOLLPRI != 0)
  {
    ClosesCounted(revents, eof, asIntended);
  }
}
