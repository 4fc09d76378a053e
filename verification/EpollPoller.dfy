/** Channel and EpollPoller as objects, with the channels of one loop and the kernel's interest set. */
module EpollPollers {
  import opened PollerModel
  import opened PollerTheorems
  import opened PollerHistory

  class Channel {
    const fd: int
    var events: Mask
    var revents: Mask
    var index: int

    constructor (fd: int)
      ensures this.fd == fd && events == NONE_EVENT && revents == NONE_EVENT && index == NEW
    {
      this.fd := fd;
      events, revents, index := NONE_EVENT, NONE_EVENT, NEW;
    }
  }

  datatype Event = Event(fd: int, revents: Mask)

  class EpollPoller {
    ghost var all: set<Channel>          // the channels that belong to the loop
    var channels: map<int, Channel>      // channels_
    var kernel: map<int, Entry<Channel>>
    var refused: nat

    ghost function Abs(): Poller<Channel>
      reads this, all
    {
      Poller(map c | c in all :: PollerModel.Channel(c.fd, c.events, c.index), channels, kernel, refused)
    }

    ghost predicate Valid()
      reads this, all
    {
      Agreement(Abs())
    }

    constructor ()
      ensures Valid() && all == {} && Fresh(Abs())
    {
      all, channels, kernel, refused := {}, map[], map[], 0;
    }

    // A new channel joins the loop with a descriptor that no channel of the loop has at the moment.
    ghost method Join(c: Channel)
      requires Valid() && c !in all && c.index == NEW && c.events == NONE_EVENT
      requires forall d :: d in all ==> d.fd != c.fd
      modifies this`all
      ensures Valid() && all == old(all) + {c} && Abs() == Next(old(Abs()), Create(c, c.fd))
    {
      StepAgrees(Abs(), Create(c, c.fd));
      all := all + {c};
      assert Abs().channels == Next(old(Abs()), Create(c, c.fd)).channels;
    }

    // A channel leaves when it has been removed; its descriptor may be used again.
    ghost method Leave(c: Channel)
      requires Valid() && c in all && c.index == NEW
      modifies this`all
      ensures Valid() && all == old(all) - {c} && Abs() == Next(old(Abs()), Discard(c))
    {
      StepAgrees(Abs(), Discard(c));
      all := all - {c};
      assert Abs().channels == Next(old(Abs()), Discard(c)).channels;
    }

    // EpollPoller::update
    method Update(op: Operation, c: Channel)
      requires c in all
      modifies this`kernel, this`refused
      ensures Abs() == EpollCtl(old(Abs()), op, c)
    {
      var present := c.fd in kernel;
      match op {
        case Add =>
          if present { refused := refused + 1; } else { kernel := kernel[c.fd := Entry(c.events, c)]; }
        case Mod =>
          if !present { refused := refused + 1; } else { kernel := kernel[c.fd := Entry(c.events, c)]; }
        case Del =>
          if !present { refused := refused + 1; } else { kernel := kernel - {c.fd}; }
      }
    }

    method SetIndex(c: Channel, index: int)
      requires c in all
      modifies c`index
      ensures Abs() == PollerModel.SetIndex(old(Abs()), c, index)
    {
      c.index := index;
      assert Abs().channels == PollerModel.SetIndex(old(Abs()), c, index).channels;
    }

    method SetTable(table: map<int, Channel>)
      modifies this`channels
      ensures Abs() == old(Abs()).(table := table)
    {
      channels := table;
    }

    method UpdateChannel(c: Channel)
      requires c in all
      modifies this`channels, this`kernel, this`refused, c`index
      ensures Abs() == PollerModel.UpdateChannel(old(Abs()), c)
    {
      if c.index == NEW || c.index == DELETED {
        if c.index == NEW {
          SetTable(channels[c.fd := c]);
        }
        SetIndex(c, ADDED);
        Update(Add, c);
      } else if c.events == NONE_EVENT {
        Update(Del, c);
        SetIndex(c, DELETED);
      } else {
        Update(Mod, c);
      }
    }

    method RemoveChannel(c: Channel)
      requires Valid() && c in all
      modifies this`channels, this`kernel, this`refused, c`index
      ensures Valid() && Abs() == PollerModel.RemoveChannel(old(Abs()), c)
    {
      RemoveAgrees(Abs(), c);
      Forget(c);
    }

    method Forget(c: Channel)
      requires c in all
      modifies this`channels, this`kernel, this`refused, c`index
      ensures Abs() == PollerModel.RemoveChannel(old(Abs()), c)
    {
      SetTable(channels - {c.fd});
      if c.index == ADDED {
        Update(Del, c);
      }
      SetIndex(c, NEW);
    }

    method HasChannel(c: Channel) returns (r: bool)
      requires c in all && Valid()
      ensures r <==> c.index != NEW
    {
      assert Agrees(Abs(), c);
      r := c.fd in channels && channels[c.fd] == c;
    }

    // Channel::enableReading and the other mask operations, through Channel::update
    method SetMask(c: Channel, call: Call<Channel>)
      requires Valid() && c in all && call.c == c && !call.Remove?
      modifies this`channels, this`kernel, this`refused, c`index, c`events
      ensures Valid() && Abs() == Perform(old(Abs()), call)
      ensures refused == old(refused)
      ensures Effect(old(c.events), call, c.events) && Watched(Abs(), c.fd) == c.events
    {
      ghost var p := Abs();
      PerformAgrees(p, call);
      PerformIndex(p, call);
      MaskBits(c.events, call);
      c.events := Masked(c.events, call);
      assert Abs().channels == SetEvents(p, c, Masked(p.channels[c].events, call)).channels;
      UpdateChannel(c);
      assert Agrees(Abs(), c) && Abs().channels[c].index != NEW;
    }

    // fillActiveChannels: epoll_wait reports each watched descriptor at most once.  The channels handed
    // out are exactly those registered for the reported descriptors, in that order.
    method FillActiveChannels(ready: seq<Event>) returns (active: seq<Channel>)
      requires Valid()
      requires forall i :: 0 <= i < |ready| ==> ready[i].fd in kernel
      requires forall i, j :: 0 <= i < j < |ready| ==> ready[i].fd != ready[j].fd
      modifies all`revents
      ensures Valid() && |active| == |ready|
      ensures forall i :: 0 <= i < |ready| ==>
        && active[i] in all && active[i].fd == ready[i].fd
        && active[i].index == ADDED && active[i].revents == ready[i].revents
      ensures forall c :: c in all && c !in active ==> c.revents == old(c.revents)
    {
      active := [];
      for i := 0 to |ready|
        invariant |active| == i && Abs() == old(Abs())
        invariant forall j :: 0 <= j < i ==>
          && active[j] in all && active[j].fd == ready[j].fd
          && active[j].index == ADDED && active[j].revents == ready[j].revents
        invariant forall c :: c in all && c !in active ==> c.revents == old(c.revents)
      {
        var c := kernel[ready[i].fd].data;
        Registered(ready[i].fd);
        c.revents := ready[i].revents;
        active := active + [c];
      }
    }

    // The event data of a watched descriptor is its own registered channel.
    lemma Registered(fd: int)
      requires Valid() && fd in kernel
      ensures var c := kernel[fd].data; c in all && c.fd == fd && c.index == ADDED
    {
      var c := channels[fd];
      assert Agrees(Abs(), c);
    }
  }
}
