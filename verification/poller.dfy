/** Channels and the epoll poller as objects, proved against Registration. */
module Reactor {
  import opened Basics
  import R = Registration

  /** One entry of the kernel's interest list: the mask and the user pointer. */
  datatype KernelEntry = KernelEntry(mask: R.Mask, ptr: Channel)

  class Channel {
    const fd: int
    const poller: EpollPoller
    var events: R.Mask
    var revents: R.Mask
    var index: int

    constructor (poller: EpollPoller, fd: int)
      requires poller.Valid()
      requires forall c :: c in poller.owned ==> c.fd != fd
      modifies poller
      ensures this.poller == poller && this.fd == fd
      ensures poller.owned == old(poller.owned) + {this}
      ensures poller.Valid() && poller.regs == old(poller.regs)[this := R.Unregistered]
    {
      this.fd, this.poller := fd, poller;
      events, revents, index := R.NONE_EVENT, R.NONE_EVENT, R.NEW;
      new;
      poller.Adopt(this);
    }

    predicate IsNoneEvent()
      reads this
      ensures IsNoneEvent() <==> events == R.NONE_EVENT
    {
      events == R.NONE_EVENT
    }

    predicate IsWriting()
      reads this
      ensures IsWriting() <==> events.output
    {
      events.And(R.WRITE_EVENT) != R.NONE_EVENT
    }

    method Update()
      requires poller.Attached(this) && R.Coherent(poller.RegOf(this))
      modifies this, poller
      ensures poller.Valid() && poller.owned == old(poller.owned) && revents == old(revents)
      ensures poller.regs == old(poller.regs)[this := R.Update(old(poller.RegOf(this)))] && events == old(events)
    {
      poller.UpdateChannel(this);
    }

    method EnableReading()
      requires poller.Valid() && this in poller.owned
      modifies this, poller
      ensures poller.Valid() && poller.owned == old(poller.owned) && revents == old(revents)
      ensures poller.regs == old(poller.regs)[this := R.EnableReading(old(poller.regs)[this])]
      ensures events == old(events).(input := true, pri := true)
    {
      events := events.Or(R.READ_EVENT);
      poller.StillAttached(this);
      Update();
    }

    method DisableReading()
      requires poller.Valid() && this in poller.owned
      modifies this, poller
      ensures poller.Valid() && poller.owned == old(poller.owned) && revents == old(revents)
      ensures poller.regs == old(poller.regs)[this := R.DisableReading(old(poller.regs)[this])]
      ensures events == old(events).(input := false, pri := false)
    {
      events := events.And(R.READ_EVENT.Not());
      poller.StillAttached(this);
      Update();
    }

    method EnableWriting()
      requires poller.Valid() && this in poller.owned
      modifies this, poller
      ensures poller.Valid() && poller.owned == old(poller.owned) && revents == old(revents)
      ensures poller.regs == old(poller.regs)[this := R.EnableWriting(old(poller.regs)[this])]
      ensures events == old(events).(output := true)
    {
      events := events.Or(R.WRITE_EVENT);
      poller.StillAttached(this);
      Update();
    }

    method DisableWriting()
      requires poller.Valid() && this in poller.owned
      modifies this, poller
      ensures poller.Valid() && poller.owned == old(poller.owned) && revents == old(revents)
      ensures poller.regs == old(poller.regs)[this := R.DisableWriting(old(poller.regs)[this])]
      ensures events == old(events).(output := false)
    {
      events := events.And(R.WRITE_EVENT.Not());
      poller.StillAttached(this);
      Update();
    }

    method DisableAll()
      requires poller.Valid() && this in poller.owned
      modifies this, poller
      ensures poller.Valid() && poller.owned == old(poller.owned) && revents == old(revents)
      ensures poller.regs == old(poller.regs)[this := R.DisableAll(old(poller.regs)[this])]
      ensures events == R.Mask(false, false, false, false, false)
    {
      events := R.NONE_EVENT;
      poller.StillAttached(this);
      Update();
    }

    method Remove()
      requires poller.Valid() && this in poller.owned
      modifies this, poller
      ensures poller.Valid() && poller.owned == old(poller.owned) && revents == old(revents)
      ensures poller.regs == old(poller.regs)[this := R.RemoveChannel(old(poller.regs)[this])]
    {
      poller.RemoveChannel(this);
    }
  }

  class EpollPoller {
    var channels: map<int, Channel>
    ghost var kernel: map<int, KernelEntry>
    ghost var rejected: set<int>
    ghost var owned: set<Channel>
    /** The registration of every owned channel, as `RegOf` reads it off the fields. */
    ghost var regs: map<Channel, R.Reg>

    constructor ()
      ensures Valid() && owned == {}
    {
      channels, kernel, rejected, owned, regs := map[], map[], {}, {}, map[];
    }

    /** The three records of one channel, read together. */
    ghost function RegOf(c: Channel): R.Reg
      reads this, c
    {
      R.Reg(c.index, c.events,
            c.fd in channels && channels[c.fd] == c,
            if c.fd in kernel && kernel[c.fd].ptr == c then Some(kernel[c.fd].mask) else None,
            c.fd in rejected)
    }

    /** Channels of one poller have distinct fds; both tables mention only them; no
        `epoll_ctl` has failed. */
    ghost predicate Shape()
      reads this, owned
    {
      && (forall c :: c in owned ==> c.poller == this)
      && (forall c, d :: c in owned && d in owned && c.fd == d.fd ==> c == d)
      && (forall fd :: fd in channels ==> channels[fd] in owned && channels[fd].fd == fd)
      && (forall fd :: fd in kernel ==> kernel[fd].ptr in owned && kernel[fd].ptr.fd == fd)
      && regs.Keys == owned
    }

    /** The fields of `c`, the two tables and `regs` tell the same story. */
    ghost predicate Recorded(c: Channel)
      reads this, c
    {
      c in regs && regs[c] == RegOf(c) && R.Agrees(regs[c])
    }

    ghost predicate Valid()
      reads this, owned
    {
      && Shape() && rejected == {}
      && (forall c {:trigger Recorded(c)} :: c in owned ==> Recorded(c))
    }

    /** Valid but for the one channel whose mask has just been changed. */
    ghost predicate Attached(c: Channel)
      reads this, owned
    {
      && Shape() && rejected == {} && c in owned
      && (forall d {:trigger Recorded(d)} :: d in owned && d != c ==> Recorded(d))
    }

    twostate predicate OthersKept(c: Channel)
      reads this, owned
    {
      owned == old(owned) && regs == old(regs)
      && forall d {:trigger RegOf(d)} :: d in owned && d != c ==> RegOf(d) == old(RegOf(d))
    }

    /** Changing one channel upsets the records of no other. */
    twostate lemma StillRecorded(c: Channel)
      requires old(Attached(c)) && OthersKept(c)
      ensures forall d {:trigger Recorded(d)} :: d in owned && d != c ==> Recorded(d)
    {
      forall d | d in owned && d != c ensures Recorded(d) {
        assert old(Recorded(d));
        assert RegOf(d) == old(RegOf(d));
      }
    }

    /** The case of a new interest mask. */
    twostate lemma StillAttached(c: Channel)
      requires old(Valid()) && unchanged(this) && c in owned && unchanged(owned - {c}) && unchanged(c`index)
      ensures Attached(c) && R.Coherent(RegOf(c))
      ensures old(regs)[c].events == old(c.events) && RegOf(c) == old(regs)[c].(events := c.events)
    {
      assert old(Recorded(c));
      forall d | d in owned && d != c ensures RegOf(d) == old(RegOf(d)) {
        assert unchanged(d);
      }
      StillRecorded(c);
    }

    /** A new channel, on an fd of which this poller knows nothing. */
    ghost method Adopt(c: Channel)
      requires Valid() && c !in owned && c.poller == this
      requires c.index == R.NEW && c.events == R.NONE_EVENT
      requires forall d :: d in owned ==> d.fd != c.fd
      modifies this`owned, this`regs
      ensures Valid() && owned == old(owned) + {c} && regs == old(regs)[c := R.Unregistered]
    {
      owned, regs := owned + {c}, regs[c := R.Unregistered];
      forall d | d in owned ensures Recorded(d) {
        if d != c {
          assert old(Recorded(d));
          assert RegOf(d) == old(RegOf(d));
        }
      }
    }

    /** A channel that is destroyed after its removal: its fd may be used again. */
    ghost method Release(c: Channel)
      requires Valid() && c in owned && c.index == R.NEW
      modifies this`owned, this`regs
      ensures Valid() && owned == old(owned) - {c} && regs == old(regs) - {c}
    {
      assert Recorded(c);
      owned, regs := owned - {c}, regs - {c};
      forall d | d in owned ensures Recorded(d) {
        assert old(Recorded(d));
        assert RegOf(d) == old(RegOf(d));
      }
    }

    method Update(op: R.CtlOp, c: Channel)
      requires Shape() && c in owned
      modifies this`kernel, this`rejected
      ensures Shape() && RegOf(c) == R.Ctl(old(RegOf(c)), op) && OthersKept(c)
      ensures rejected == old(rejected) + if RegOf(c).rejected then {c.fd} else {}
    {
      var present := c.fd in kernel;
      match op {
        case Add =>
          if !present { kernel := kernel[c.fd := KernelEntry(c.events, c)]; } else { rejected := rejected + {c.fd}; }
        case Mod =>
          if present { kernel := kernel[c.fd := KernelEntry(c.events, c)]; } else { rejected := rejected + {c.fd}; }
        case Del =>
          if present { kernel := kernel - {c.fd}; } else { rejected := rejected + {c.fd}; }
      }
    }

    /** Enter the channel just changed into `regs`. */
    ghost method Record(c: Channel)
      requires Attached(c) && R.Agrees(RegOf(c))
      modifies this`regs
      ensures Valid() && owned == old(owned) && regs == old(regs)[c := old(RegOf(c))]
    {
      regs := regs[c := RegOf(c)];
      forall d | d in owned ensures Recorded(d) {
        assert RegOf(d) == old(RegOf(d));
        if d != c { assert old(Recorded(d)); }
      }
    }

    method UpdateChannel(c: Channel)
      requires Attached(c) && R.Coherent(RegOf(c))
      modifies this, c`index
      ensures Valid() && owned == old(owned)
      ensures regs == old(regs)[c := R.Update(old(RegOf(c)))]
    {
      R.UpdateAgrees(RegOf(c));
      var op := R.Mod;
      if c.index == R.NEW {
        channels := channels[c.fd := c];
        c.index, op := R.ADDED, R.Add;
      } else if c.index == R.DELETED {
        c.index, op := R.ADDED, R.Add;
      } else if c.IsNoneEvent() {
        c.index, op := R.DELETED, R.Del;
      }
      OwnEntryOnly(c);
      Update(op, c);
      StillRecorded(c);
      Record(c);
    }

    /** Touching the index and the map entry of one channel touches no other's. */
    twostate lemma OwnEntryOnly(c: Channel)
      requires old(Shape()) && c in owned && unchanged(this`kernel, this`rejected, this`owned, this`regs)
      requires unchanged(owned - {c})
      requires channels - {c.fd} == old(channels) - {c.fd} && (c.fd in channels ==> channels[c.fd] == c)
      ensures Shape() && OthersKept(c)
    {
      forall d | d in owned && d != c ensures RegOf(d) == old(RegOf(d)) {
        assert d.fd != c.fd && unchanged(d);
        assert d.fd in channels <==> d.fd in channels - {c.fd};
        assert d.fd in old(channels) <==> d.fd in old(channels) - {c.fd};
      }
      forall fd | fd in channels ensures channels[fd] in owned && channels[fd].fd == fd {
        assert fd != c.fd ==> fd in old(channels) - {c.fd};
      }
    }

    method RemoveChannel(c: Channel)
      requires Valid() && c in owned
      modifies this, c`index
      ensures Valid() && owned == old(owned)
      ensures regs == old(regs)[c := R.RemoveChannel(old(regs)[c])]
    {
      assert Recorded(c);
      channels := channels - {c.fd};
      OwnEntryOnly(c);
      if c.index == R.ADDED {
        Update(R.Del, c);
      }
      assert OthersKept(c);
      label removed:
      c.index := R.NEW;
      OwnEntryOnly@removed(c);
      StillRecorded(c);
      Record(c);
    }

    method HasChannel(c: Channel) returns (b: bool)
      requires Valid() && c in owned
      ensures b <==> c.index != R.NEW
    {
      assert Recorded(c);
      b := c.fd in channels && channels[c.fd] == c;
    }

    /** Turn what `epoll_wait` reported into the active list, in report order. */
    method FillActiveChannels(ready: seq<(int, R.Mask)>) returns (active: seq<Channel>)
      requires Valid()
      requires forall i :: 0 <= i < |ready| ==> ready[i].0 in kernel
      requires forall i, j :: 0 <= i < j < |ready| ==> ready[i].0 != ready[j].0
      modifies owned`revents
      ensures |active| == |ready|
      ensures forall i :: 0 <= i < |ready| ==>
        && active[i] in owned && active[i].fd == ready[i].0
        && active[i].revents == ready[i].1 && active[i].index == R.ADDED
      ensures forall i, j :: 0 <= i < j < |active| ==> active[i] != active[j]
    {
      active := [];
      for i := 0 to |ready|
        invariant Valid() && |active| == i
        invariant forall k :: 0 <= k < i ==>
          && active[k] in owned && active[k].fd == ready[k].0
          && active[k].revents == ready[k].1 && active[k].index == R.ADDED
      {
        var c := ChannelAt(ready[i].0);
        SetRevents(c, ready[i].1);
        active := active + [c];
      }
    }

    method SetRevents(c: Channel, revents: R.Mask)
      requires Valid() && c in owned
      modifies c`revents
      ensures Valid() && c.revents == revents
    {
      c.revents := revents;
      forall d | d in owned ensures Recorded(d) {
        assert old(Recorded(d));
        assert RegOf(d) == old(RegOf(d));
      }
    }

    /** The pointer stored in the interest list for `fd`; it equals the map entry. */
    method ChannelAt(fd: int) returns (c: Channel)
      requires Valid() && fd in kernel
      ensures c == kernel[fd].ptr && c.index == R.ADDED
    {
      assert Recorded(kernel[fd].ptr);
      c := channels[fd];
    }
  }
}
