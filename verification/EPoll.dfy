/** Channels and the epoll poller they register with. */
module EPoll {
  import opened EPollSpec

  class Channel {
    const poller: EPollPoller
    const fd: int
    var events: Mask
    var revents: Mask
    var status: Status

    constructor (poller: EPollPoller, fd: int)
      ensures this.poller == poller && this.fd == fd && events == NONE_EVENT && status == New
    {
      this.poller := poller;
      this.fd := fd;
      events := NONE_EVENT;
      revents := 0;
      status := New;
    }

    function IsWriting(): bool
      reads this
    {
      Has(events, WRITE_EVENT)
    }

    /** The enable and disable methods: change the mask, then tell the poller. */
    method Set(change: Change)
      requires this in poller.live
      modifies this, poller
      ensures poller.live == old(poller.live) && revents == old(revents)
      ensures poller.View() ==
              EPollSpec.UpdateChannel(SetEvents(old(poller.View()), this, Changed(change, old(events))), this)
    {
      events := Changed(change, events);
      assert poller.View() == SetEvents(old(poller.View()), this, Changed(change, old(events)));
      poller.UpdateChannel(this);
    }

    method Remove()
      requires this in poller.live
      modifies this, poller
      ensures poller.live == old(poller.live) && revents == old(revents)
      ensures poller.View() == EPollSpec.RemoveChannel(old(poller.View()), this)
    {
      poller.RemoveChannel(this);
    }
  }

  class EPollPoller {
    var channels: map<int, Channel>
    // The kernel's side of the epoll descriptor, and how many epoll_ctl calls it refused.
    var kernel: map<int, Interest<Channel>>
    var faults: nat
    ghost var live: set<Channel>
    ghost var fromNew: set<Channel>

    constructor ()
      ensures live == {} && View() == Empty<Channel>()
    {
      channels := map[];
      kernel := map[];
      faults := 0;
      live := {};
      fromNew := {};
      new;
      assert View().chans == map[];
    }

    ghost function View(): (p: Poller<Channel>)
      reads this, live
      ensures p.chans.Keys == live
    {
      Poller(map c | c in live :: Chan(c.fd, c.events, c.status), channels, kernel, fromNew, faults)
    }

    /** A channel object starts its life under this poller. */
    ghost method Adopt(c: Channel)
      requires c !in live && c.events == NONE_EVENT && c.status == New
      modifies this
      ensures live == old(live) + {c}
      ensures View() == old(View()).(chans := old(View()).chans[c := Chan(c.fd, NONE_EVENT, New)],
                                     fromNew := old(View()).fromNew - {c})
    {
      live := live + {c};
      fromNew := fromNew - {c};
    }

    method EpollCtl(op: CtlOp, c: Channel)
      requires c in live
      modifies this`kernel, this`faults
      ensures View() == EPollSpec.EpollCtl(old(View()), op, c)
    {
      var known := c.fd in kernel;
      match op
      case CtlAdd =>
        if known { faults := faults + 1; } else { kernel := kernel[c.fd := Interest(c.events, c)]; }
      case CtlMod =>
        if known { kernel := kernel[c.fd := Interest(c.events, c)]; } else { faults := faults + 1; }
      case CtlDel =>
        if known { kernel := kernel - {c.fd}; } else { faults := faults + 1; }
    }

    method SetStatus(c: Channel, status: Status)
      requires c in live
      modifies c`status
      ensures View() == EPollSpec.SetStatus(old(View()), c, status)
    {
      c.status := status;
    }

    method SetListed(c: Channel, present: bool)
      modifies this`channels
      ensures View() == old(View()).(listed := if present then old(channels)[c.fd := c] else old(channels) - {c.fd})
    {
      channels := if present then channels[c.fd := c] else channels - {c.fd};
    }

    ghost method NoteOrigin(c: Channel)
      modifies this`fromNew
      ensures View() == old(View()).(fromNew := if c.status == New then old(fromNew) + {c} else old(fromNew) - {c})
    {
      fromNew := if c.status == New then fromNew + {c} else fromNew - {c};
    }

    method UpdateChannel(c: Channel)
      requires c in live
      modifies this`channels, this`kernel, this`faults, this`fromNew, c`status
      ensures View() == EPollSpec.UpdateChannel(old(View()), c)
    {
      if c.status == New || c.status == Deleted {
        NoteOrigin(c);
        if c.status == New {
          SetListed(c, true);
        }
        SetStatus(c, Added);
        EpollCtl(CtlAdd, c);
      } else if c.events == NONE_EVENT {
        EpollCtl(CtlDel, c);
        SetStatus(c, Deleted);
        SetListed(c, false);
      } else {
        EpollCtl(CtlMod, c);
      }
    }

    method RemoveChannel(c: Channel)
      requires c in live
      modifies this`channels, this`kernel, this`faults, c`status
      ensures View() == EPollSpec.RemoveChannel(old(View()), c)
    {
      SetListed(c, false);
      if c.status == Added {
        EpollCtl(CtlDel, c);
      }
      SetStatus(c, New);
    }

    function HasChannel(c: Channel): (b: bool)
      reads this, live
      requires c in live
      ensures b == EPollSpec.HasChannel(View(), c)
    {
      c.fd in channels && channels[c.fd] == c
    }

    /** Turn what epoll_wait reported into active channels carrying their events. */
    method FillActiveChannels(report: seq<(int, Mask)>, active: seq<Channel>) returns (filled: seq<Channel>)
      requires forall i :: 0 <= i < |report| ==> report[i].0 in kernel
      requires forall i, j :: 0 <= i < j < |report| ==> kernel[report[i].0].channel != kernel[report[j].0].channel
      modifies set i | 0 <= i < |report| :: kernel[report[i].0].channel`revents
      ensures |filled| == |active| + |report| && filled[..|active|] == active
      ensures forall i :: 0 <= i < |report| ==>
                var c := filled[|active| + i];
                c == kernel[report[i].0].channel && c.revents == report[i].1
    {
      filled := active;
      for i := 0 to |report|
        invariant filled == active +
            seq(i, k requires 0 <= k < i && report[k].0 in kernel reads this => kernel[report[k].0].channel)
        invariant forall k :: 0 <= k < i ==> kernel[report[k].0].channel.revents == report[k].1
      {
        var channel := kernel[report[i].0].channel;
        channel.revents := report[i].1;
        filled := filled + [channel];
      }
    }
  }
}
