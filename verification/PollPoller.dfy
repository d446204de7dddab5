/**
 The poller over `poll(2)`: an array of descriptors entries, each channel holding the index of its
 own, and removal by swapping the last entry into the gap.
 */
module PollPoller {

  class Channel {
    const fd: nat
    var events: nat
    var revents: nat
    var index: int

    constructor (fd: nat)
      ensures this.fd == fd && events == 0 && revents == 0 && index == -1
    {
      this.fd, events, revents, index := fd, 0, 0, -1;
    }
  }

  datatype PollFd = PollFd(fd: int, events: nat, revents: nat)

  /** The descriptor an entry is for; a channel with no events is entered as minus its descriptor less one. */
  function OwnerOf(entry: int): (fd: int)
    ensures fd >= 0 && (entry == fd || entry == Ignored(fd))
  {
    if entry < 0 then -entry - 1 else entry
  }

  function Ignored(fd: int): int { -fd - 1 }

  function SwapRemoved(entries: seq<PollFd>, i: nat): seq<PollFd>
    requires i < |entries|
  {
    entries[i := entries[|entries| - 1]][..|entries| - 1]
  }

  /** How many entries have events. */
  function CountReady(entries: seq<PollFd>): nat {
    if entries == [] then 0 else (if entries[0].revents > 0 then 1 else 0) + CountReady(entries[1..])
  }

  class PollPoller {
    var pollfds: seq<PollFd>
    var channels: map<int, Channel>

    ghost predicate Registered(fd: int)
      reads this, (set f | f in channels :: channels[f])`index
    {
      && fd in channels
      && channels[fd].fd == fd
      && 0 <= channels[fd].index < |pollfds|
      && OwnerOf(pollfds[channels[fd].index].fd) == fd
    }

    ghost predicate Owned(i: nat)
      requires i < |pollfds|
      reads this, (set f | f in channels :: channels[f])`index
    {
      && OwnerOf(pollfds[i].fd) in channels
      && channels[OwnerOf(pollfds[i].fd)].index == i
    }

    /** Each registered channel's index leads to its own entry, and there are no other entries. */
    ghost predicate Valid()
      reads this, (set f | f in channels :: channels[f])`index
    {
      && (forall fd :: fd in channels ==> Registered(fd))
      && (forall i: nat :: i < |pollfds| ==> Owned(i))
    }

    constructor ()
      ensures Valid() && pollfds == [] && channels == map[]
    {
      pollfds, channels := [], map[];
    }

    /**
     Keeps the correspondence exactly when the channel is registered or its index says it is new. The
     index of a removed channel does neither, and the channel then overwrites another one's entry.
     */
    method UpdateChannel(channel: Channel)
      requires Valid() && channel.index < |pollfds|
      requires channel.fd in channels ==> channels[channel.fd] == channel
      modifies this, channel`index
      ensures Valid() <==> old(channel.fd in channels) || old(channel.index) < 0
      ensures old(channel.index) < 0 ==>
        && channel.index == |old(pollfds)| && channels == old(channels)[channel.fd := channel]
        && pollfds == old(pollfds) + [PollFd(channel.fd, channel.events, 0)]
      ensures old(channel.index) >= 0 ==>
        && channel.index == old(channel.index) && channels == old(channels)
        && pollfds == old(pollfds)[channel.index :=
             PollFd(if channel.events == 0 then Ignored(channel.fd) else channel.fd, channel.events, 0)]
    {
      if channel.index < 0 {
        pollfds := pollfds + [PollFd(channel.fd, channel.events, 0)];
        channel.index := |pollfds| - 1;
        channels := channels[channel.fd := channel];
        forall fd | fd in channels ensures Registered(fd) {
          assert fd != channel.fd ==> old(Registered(fd));
        }
        forall i: nat | i < |pollfds| ensures Owned(i) {
          assert i < |old(pollfds)| ==> old(Owned(i));
        }
      } else {
        var idx := channel.index;
        pollfds := pollfds[idx := PollFd(channel.fd, channel.events, 0)];
        if channel.events == 0 {
          pollfds := pollfds[idx := pollfds[idx].(fd := Ignored(channel.fd))];
        }
        if channel.fd in channels {
          forall fd | fd in channels ensures Registered(fd) {
            assert old(Registered(fd)) && old(Owned(idx));
          }
          forall i: nat | i < |pollfds| ensures Owned(i) {
            assert old(Owned(i));
          }
        } else {
          assert !Owned(idx);
        }
      }
    }

    /**
     The last entry takes the place of the removed one, and its channel is told. Every other channel
     still finds its own entry, as it was; the removed channel keeps its old index.
     */
    method RemoveChannel(channel: Channel)
      requires Valid() && (channel.fd in channels ==> channels[channel.fd] == channel)
      modifies this, set fd | fd in channels :: channels[fd]`index
      ensures Valid() && channels == old(channels) - {channel.fd}
      ensures channel.fd in old(channels) ==> pollfds == SwapRemoved(old(pollfds), old(channel.index))
      ensures channel.fd !in old(channels) ==> pollfds == old(pollfds)
      ensures channel.index == old(channel.index)
      ensures forall fd :: fd in channels ==> pollfds[channels[fd].index] == old(pollfds)[old(channels[fd].index)]
    {
      var idx := channel.index;
      if channel.fd !in channels {
        return;
      }
      assert Registered(channel.fd) && Owned(|pollfds| - 1);
      channels := channels - {channel.fd};
      if idx == |pollfds| - 1 {
        pollfds := pollfds[..idx];
      } else {
        var channelAtEnd := pollfds[|pollfds| - 1].fd;
        pollfds := pollfds[idx := pollfds[|pollfds| - 1]];
        if channelAtEnd < 0 {
          channelAtEnd := -channelAtEnd - 1;
        }
        channels[channelAtEnd].index := idx;
        pollfds := pollfds[..|pollfds| - 1];
      }
      forall fd | fd in channels ensures Registered(fd) {
        assert old(Registered(fd));
        assert old(Owned(idx));
      }
      forall i: nat | i < |pollfds| ensures Owned(i) {
        assert old(Owned(i));
      }
    }

    /** Whether a channel is registered and its entry has events. */
    ghost predicate Ready(channel: Channel)
      requires Valid()
      reads this, (set f | f in channels :: channels[f])`index
    {
      && channel.fd in channels && channels[channel.fd] == channel
      && Registered(channel.fd) && pollfds[channel.index].revents > 0
    }

    /** The channels whose entries before `k` have events, in the order of the entries. */
    ghost function ReadyBefore(k: nat): seq<Channel>
      requires Valid() && k <= |pollfds|
      reads this, (set f | f in channels :: channels[f])`index
    {
      if k == 0 then []
      else
        assert Owned(k - 1);
        ReadyBefore(k - 1) + if pollfds[k - 1].revents > 0 then [channels[OwnerOf(pollfds[k - 1].fd)]] else []
    }

    lemma {:induction false} ReadyBeforeIs(k: nat)
      requires Valid() && k <= |pollfds|
      ensures forall i :: 0 <= i < |ReadyBefore(k)| ==> Ready(ReadyBefore(k)[i]) && ReadyBefore(k)[i].index < k
      ensures forall i, j :: 0 <= i < j < |ReadyBefore(k)| ==> ReadyBefore(k)[i].index < ReadyBefore(k)[j].index
      ensures forall fd :: fd in channels && Ready(channels[fd]) && channels[fd].index < k ==> channels[fd] in ReadyBefore(k)
    {
      if k > 0 {
        ReadyBeforeIs(k - 1);
        assert Owned(k - 1) && Registered(OwnerOf(pollfds[k - 1].fd));
        var active, last := ReadyBefore(k), channels[OwnerOf(pollfds[k - 1].fd)];
        forall fd | fd in channels && Ready(channels[fd]) && channels[fd].index == k - 1 ensures channels[fd] in active {
          assert channels[fd] == last && active[|active| - 1] == last;
        }
      }
    }

    lemma {:induction false} NoneReadyFrom(k: nat)
      requires Valid() && k <= |pollfds| && CountReady(pollfds[k..]) == 0
      ensures ReadyBefore(|pollfds|) == ReadyBefore(k)
      decreases |pollfds| - k
    {
      if k < |pollfds| {
        assert pollfds[k..][1..] == pollfds[k + 1..];
        NoneReadyFrom(k + 1);
      }
    }

    /** The scan stops once it has met as many entries with events as `poll` counted; it misses none. */
    method FillActiveChannels(count: nat) returns (active: seq<Channel>)
      requires Valid() && count == CountReady(pollfds)
      requires forall i :: 0 <= i < |pollfds| && pollfds[i].fd < 0 ==> pollfds[i].revents == 0
      modifies (set fd | fd in channels :: channels[fd])`revents
      ensures Valid() && active == ReadyBefore(|pollfds|)
      ensures forall i :: 0 <= i < |active| ==> Reported(active[i])
    {
      active := [];
      var numEvents, k := count, 0;
      while k < |pollfds| && numEvents > 0
        invariant k <= |pollfds| && numEvents == CountReady(pollfds[k..]) && Valid()
        invariant active == ReadyBefore(k)
        invariant forall i :: 0 <= i < |active| ==> Reported(active[i])
      {
        assert pollfds[k..][1..] == pollfds[k + 1..];
        assert Owned(k);
        if pollfds[k].revents > 0 {
          numEvents := numEvents - 1;
          var channel := channels[pollfds[k].fd];
          channel.revents := pollfds[k].revents;
          active := active + [channel];
        }
        k := k + 1;
      }
      NoneReadyFrom(k);
    }

    ghost predicate Reported(channel: Channel)
      reads this, channel
    {
      0 <= channel.index < |pollfds| && channel.revents == pollfds[channel.index].revents
    }

    /**
     `poll`, with what the system call reports: the events of every entry (none for an ignored one, as
     `poll(2)` promises), or a failure. The active channels are exactly those with events, each once.
     */
    method Poll(failed: bool, reported: seq<nat>) returns (active: seq<Channel>)
      requires Valid() && |reported| == |pollfds|
      requires forall i :: 0 <= i < |pollfds| && pollfds[i].fd < 0 ==> reported[i] == 0
      modifies this`pollfds, (set fd | fd in channels :: channels[fd])`revents
      ensures Valid() && channels == old(channels)
      ensures |pollfds| == |old(pollfds)|
      ensures failed ==> active == [] && pollfds == old(pollfds)
      ensures !failed ==>
        && (forall fd :: fd in channels ==> (channels[fd] in active <==> reported[channels[fd].index] > 0))
        && (forall i :: 0 <= i < |active| ==> Ready(active[i]) && active[i].revents == reported[active[i].index])
        && (forall i, j :: 0 <= i < j < |active| ==> active[i] != active[j])
    {
      active := [];
      if !failed {
        pollfds := seq(|pollfds|, i requires 0 <= i < |pollfds| && |reported| == |pollfds| reads this =>
          pollfds[i].(revents := reported[i]));
        forall fd | fd in channels ensures Registered(fd) {
          assert old(Registered(fd));
        }
        forall i: nat | i < |pollfds| ensures Owned(i) {
          assert old(Owned(i));
        }
        var numEvents := CountReady(pollfds);
        if numEvents > 0 {
          active := FillActiveChannels(numEvents);
        } else {
          assert pollfds[0..] == pollfds;
          NoneReadyFrom(0);
        }
        ReadyBeforeIs(|pollfds|);
      }
    }
  }
}
