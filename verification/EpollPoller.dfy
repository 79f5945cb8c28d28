/**
 The Channel and EpollPoller objects.  Each call is proved to do to the three records exactly what
 the function of the same name in Registry does to their values.
 */
module EpollPollerObject {
  import opened Registry

  const DEFAULT_CHANNEL_LIST_SIZE: nat := 16

  class ChannelObject {
    const id: Id
    const fd: int
    var events: Mask
    var revents: Mask
    var state: ChannelState

    constructor (id: Id, fd: int)
      ensures this.id == id && this.fd == fd && Value() == Channel(fd, 0, 0, Initialized)
    {
      this.id, this.fd := id, fd;
      events, revents, state := 0, 0, Initialized;
    }

    ghost function Value(): Channel
      reads this
    {
      Channel(fd, events, revents, state)
    }
  }

  /** What epoll_wait stores for a ready descriptor. */
  datatype Event = Event(channel: ChannelObject, mask: Mask)

  class EpollPoller {
    var channels: map<int, ChannelObject>
    var eventsSize: nat

    // the kernel's interest set and the outcome of epoll_ctl calls
    var kernel: map<int, Interest>
    var fatal: bool
    var delErrors: nat

    // the channels in existence
    ghost var objects: map<Id, ChannelObject>

    ghost predicate Known(c: ChannelObject)
      reads this`objects
    {
      c.id in objects && objects[c.id] == c
    }

    ghost predicate WellFormed()
      reads this
    {
      && (forall id :: id in objects ==> objects[id].id == id)
      && (forall fd :: fd in channels ==> Known(channels[fd]))
      && eventsSize > 0
    }

    /** The three records agree; in particular no epoll_ctl has failed. */
    ghost predicate Valid()
      reads this, objects.Values
    {
      WellFormed() && Agree(Abs())
    }

    ghost function Abs(): Poller
      reads this`objects, this`channels, this`kernel, this`fatal, this`delErrors, objects.Values
    {
      Poller(map id | id in objects :: objects[id].Value(),
             map fd | fd in channels :: channels[fd].id,
             kernel, fatal, delErrors)
    }

    constructor ()
      ensures Valid() && Abs() == EMPTY && eventsSize == DEFAULT_CHANNEL_LIST_SIZE
    {
      channels, kernel, fatal, delErrors := map[], map[], false, 0;
      eventsSize := DEFAULT_CHANNEL_LIST_SIZE;
      objects := map[];
    }

    /** A new Channel on a descriptor that no channel in existence has. */
    ghost method Created(c: ChannelObject)
      requires Valid() && c.id !in objects && c.Value() == Channel(c.fd, 0, 0, Initialized)
      requires forall id :: id in objects ==> objects[id].fd != c.fd
      modifies this`objects
      ensures Valid() && Known(c) && objects == old(objects)[c.id := c]
    {
      ghost var before := Abs();
      DoKeepsAgree(before, Create(c.id, c.fd));
      objects := objects[c.id := c];
      assert Abs().objects == before.objects[c.id := c.Value()];
      assert Abs() == Do(before, Create(c.id, c.fd));
    }

    method IsChannelExist(c: ChannelObject) returns (b: bool)
      requires Valid() && Known(c)
      ensures b <==> c.state != Initialized
    {
      b := c.fd in channels && channels[c.fd] == c;
      assert ChannelAgrees(Abs(), c.id);
    }

    // update(), and the steps of updateChannel and removeChannel: between them the records differ.

    method Update(op: Ctl, c: ChannelObject)
      requires WellFormed() && Known(c)
      modifies this`kernel, this`fatal, this`delErrors
      ensures WellFormed() && Abs() == Registry.Update(old(Abs()), op, c.id)
    {
      match op {
        case Add =>
          if c.fd in kernel { fatal := true; } else { kernel := kernel[c.fd := Interest(c.id, c.events)]; }
        case Mod =>
          if c.fd !in kernel { fatal := true; } else { kernel := kernel[c.fd := Interest(c.id, c.events)]; }
        case Del =>
          if c.fd !in kernel { delErrors := delErrors + 1; } else { kernel := kernel - {c.fd}; }
      }
    }

    method SetState(c: ChannelObject, st: ChannelState)
      requires WellFormed() && Known(c)
      modifies c`state
      ensures WellFormed() && Abs() == Registry.SetState(old(Abs()), c.id, st)
    {
      ghost var before := Abs();
      c.state := st;
      assert Abs().objects == before.objects[c.id := before.objects[c.id].(state := st)];
    }

    method Register(c: ChannelObject)
      requires WellFormed() && Known(c)
      modifies this`channels
      ensures WellFormed() && Abs() == old(Abs()).(channels := old(Abs()).channels[c.fd := c.id])
    {
      ghost var before := Abs();
      channels := channels[c.fd := c];
      assert Abs().channels == before.channels[c.fd := c.id];
    }

    method UpdateChannel(c: ChannelObject)
      requires WellFormed() && Known(c)
      modifies this`channels, this`kernel, this`fatal, this`delErrors, c`state
      ensures WellFormed() && Abs() == Registry.UpdateChannel(old(Abs()), c.id)
    {
      if c.state == Initialized || c.state == Removed {
        if c.state == Initialized {
          Register(c);
        }
        SetState(c, Added);
        Update(Add, c);
      } else if c.events == 0 {
        Update(Del, c);
        SetState(c, Removed);
      } else {
        Update(Mod, c);
      }
    }

    method SetEventsAndUpdate(c: ChannelObject, op: ChannelOp)
      requires WellFormed() && Known(c)
      modifies this`channels, this`kernel, this`fatal, this`delErrors, c`state, c`events
      ensures WellFormed() && Abs() == Registry.ChangeInterest(old(Abs()), c.id, op)
    {
      ghost var before := Abs();
      c.events := NewEvents(c.events, op);
      assert Abs() == SetEvents(before, c.id, c.events) by {
        assert Abs().objects == before.objects[c.id := before.objects[c.id].(events := c.events)];
      }
      UpdateChannel(c);
    }

    method EraseAndDelete(c: ChannelObject)
      requires WellFormed() && Known(c)
      modifies this`channels, this`kernel, this`fatal, this`delErrors, c`state
      ensures WellFormed() && Abs() == Registry.RemoveChannel(old(Abs()), c.id)
    {
      ghost var before := Abs();
      channels := channels - {c.fd};
      assert Abs() == before.(channels := before.channels - {c.fd}) by {
        assert Abs().channels == before.channels - {c.fd};
      }
      if c.state == Added {
        Update(Del, c);
      }
      SetState(c, Initialized);
    }

    lemma ValueIsAbs(c: ChannelObject)
      requires WellFormed() && Known(c)
      ensures c.id in Abs().objects && Abs().objects[c.id] == c.Value()
      ensures (c.fd in channels <==> c.fd in Abs().channels)
    {
    }

    /** Channel::enableReadEvent and its siblings, which change the mask and then tell the poller.  The
        records agree again, with the new mask; no other channel is touched and no epoll_ctl fails. */
    method ChangeInterest(c: ChannelObject, op: ChannelOp)
      requires Valid() && Known(c)
      modifies this`channels, this`kernel, this`fatal, this`delErrors, c`state, c`events
      ensures Valid() && !fatal && delErrors == 0 && Known(c)
      ensures OthersUntouched(old(Abs()), Abs(), c.id)
      ensures c.events == NewEvents(old(c.events), op)
      ensures c.state == Added <==> c.fd in kernel && kernel[c.fd] == Interest(c.id, c.events)
      ensures c.events != 0 ==> c.state == Added
    {
      ValueIsAbs(c);
      InterestIsRegistered(Abs(), c.id, op);
      SetEventsAndUpdate(c, op);
      ValueIsAbs(c);
    }

    /** After removeChannel the descriptor is in neither map nor kernel, and nothing else has changed. */
    method RemoveChannel(c: ChannelObject)
      requires Valid() && Known(c)
      modifies this`channels, this`kernel, this`fatal, this`delErrors, c`state
      ensures Valid() && !fatal && delErrors == 0 && Known(c)
      ensures OthersUntouched(old(Abs()), Abs(), c.id)
      ensures c.state == Initialized && c.fd !in channels && c.fd !in kernel
    {
      ValueIsAbs(c);
      DestroyOnce(Abs(), c.id, false);
      EraseAndDelete(c);
      ValueIsAbs(c);
    }

    ghost predicate LegalReady(ready: seq<Event>)
      reads this
    {
      && |ready| <= eventsSize
      && (forall i :: 0 <= i < |ready| ==>
            Known(ready[i].channel) && ready[i].channel.fd in kernel
            && kernel[ready[i].channel.fd].owner == ready[i].channel.id)
      && (forall i, j :: 0 <= i < j < |ready| ==> ready[i].channel != ready[j].channel)
    }

    /** epoll_wait delivers `ready`, at most as many as events_ has room for.  The active list holds
        exactly these channels, in order, each marked with its events and each registered; and
        there is always room for one more event next time. */
    method Poll(ready: seq<Event>) returns (active: seq<ChannelObject>)
      requires Valid() && LegalReady(ready)
      modifies this`eventsSize, (set i | 0 <= i < |ready| :: ready[i].channel)`revents
      ensures Valid()
      ensures |active| == |ready|
      ensures forall i :: 0 <= i < |ready| ==>
                active[i] == ready[i].channel && active[i].revents == ready[i].mask && active[i].state == Added
      ensures |ready| < eventsSize && eventsSize == old(eventsSize) * if |ready| == old(eventsSize) then 2 else 1
    {
      ReadyAreAdded(ready);
      active := [];
      if |ready| > 0 {
        active := MarkActive(ready);
        if |ready| == eventsSize {
          eventsSize := eventsSize * 2;
        }
      }
    }

    method MarkActive(ready: seq<Event>) returns (active: seq<ChannelObject>)
      requires Valid() && LegalReady(ready)
      modifies (set i | 0 <= i < |ready| :: ready[i].channel)`revents
      ensures Valid()
      ensures |active| == |ready|
      ensures forall i :: 0 <= i < |ready| ==> active[i] == ready[i].channel && active[i].revents == ready[i].mask
    {
      ghost var before := Abs();
      active := TriggerChannels(ready);
      ReventsKeepAgree(before, Abs());
    }

    lemma ReadyAreAdded(ready: seq<Event>)
      requires Valid() && LegalReady(ready)
      ensures forall i :: 0 <= i < |ready| ==> ready[i].channel.state == Added
    {
      forall i | 0 <= i < |ready| ensures ready[i].channel.state == Added {
        ValueIsAbs(ready[i].channel);
        assert ChannelAgrees(Abs(), ready[i].channel.id);
      }
    }

    method TriggerChannels(ready: seq<Event>) returns (active: seq<ChannelObject>)
      requires forall i, j :: 0 <= i < j < |ready| ==> ready[i].channel != ready[j].channel
      modifies (set i | 0 <= i < |ready| :: ready[i].channel)`revents
      ensures |active| == |ready|
      ensures forall i :: 0 <= i < |ready| ==>
                active[i] == ready[i].channel && active[i].revents == ready[i].mask
    {
      active := [];
      for i := 0 to |ready|
        invariant |active| == i
        invariant forall k :: 0 <= k < i ==> active[k] == ready[k].channel && active[k].revents == ready[k].mask
      {
        ready[i].channel.revents := ready[i].mask;
        active := active + [ready[i].channel];
      }
    }
  }
}
