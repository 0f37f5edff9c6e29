/**
The publisher channel pool of publisher_pool.go as one goroutine sees it: what it keeps
while nobody else acts on it.  PoolMachine has the interleavings.
*/
module Pool {
  import opened Options
  import opened Network
  import opened Sums
  import Topology

  class PublisherChannelPool {
    const net: Network
    const conn: nat
    const size: nat
    const maxPoolSize: int            // int32(maxPoolSize)
    var channels: seq<nat>            // the contents of the Go channel
    var closed: bool
    var currentPoolSize: int
    ghost var lent: set<nat>          // handed out by Get and not yet Put
    ghost var created: set<nat>       // every AMQP channel this pool ever counted

    ghost predicate ValidIn(w: World)
      reads this
    {
      && Sane(w) && conn < w.dialled
      && currentPoolSize == |channels| + |lent|
      && |channels| <= size
      && currentPoolSize <= Max(size, maxPoolSize)
      && (closed ==> channels == [])
      && (forall i, j :: 0 <= i < j < |channels| ==> channels[i] != channels[j])
      && (forall h :: h in created ==> h < |w.channels| && w.channels[h].conn == conn)
      && (forall h :: h in channels ==> h !in lent && h in created && w.channels[h].confirm)
      && (forall h :: h in lent ==> h in created && w.channels[h].confirm)
      // no AMQP channel is leaked
      && (forall h :: h in created && h in w.openChannels ==> h in channels || h in lent)
    }

    ghost predicate Valid()
      reads this, net
    {
      ValidIn(net.world)
    }

    lemma StillValid(w: World, v: World)
      requires ValidIn(w) && Later(w, v) && Sane(v)
      ensures ValidIn(v)
    {
    }

    constructor Empty(net: Network, conn: nat, size: nat, maxPoolSize: int)
      requires Sane(net.world) && conn < net.world.dialled
      ensures Valid() && this.net == net && this.conn == conn && this.size == size
      ensures this.maxPoolSize == Topology.ToInt32(maxPoolSize)
      ensures channels == [] && lent == {} && created == {} && !closed
    {
      this.net := net;
      this.conn := conn;
      this.size := size;
      this.maxPoolSize := Topology.ToInt32(maxPoolSize);
      channels, closed, currentPoolSize := [], false, 0;
      lent, created := {}, {};
    }

    // A channel leaves the buffer for the caller.
    method Take() returns (h: nat)
      requires Valid() && channels != []
      modifies this`channels, this`lent
      ensures Valid() && channels == old(channels)[1..]
      ensures h == old(channels)[0] && lent == old(lent) + {h} && h !in old(lent)
    {
      h := channels[0];
      channels := channels[1..];
      lent := lent + {h};
    }

    // currentPoolSize.Add(-1) for a channel that is dead.
    method DropDead(h: nat)
      requires Valid() && h in lent && h !in net.world.openChannels
      modifies this`currentPoolSize, this`lent
      ensures Valid() && lent == old(lent) - {h}
    {
      currentPoolSize := currentPoolSize - 1;
      lent := lent - {h};
    }

    // Opening and counting a channel, under p.mu (publisher_pool.go:84-103).
    method Grow() returns (r: Option<nat>)
      requires Valid() && currentPoolSize < maxPoolSize
      modifies this`currentPoolSize, this`lent, this`created, net`world
      ensures Valid() && Later(old(net.world), net.world)
      ensures r.None? ==> lent == old(lent) && currentPoolSize == old(currentPoolSize)
      ensures r.Some? ==> !closed && r.value !in old(lent) && lent == old(lent) + {r.value}
      ensures r.Some? ==> r.value >= |old(net.world.channels)|
      ensures r.None? && Calm(old(net.world), net.world) ==> closed || conn !in net.world.openConns
      ensures NoneLeftOpen(old(net.world), net.world, r)
    {
      if closed { return None; }
      ghost var before := net.world;
      r := OpenConfirmed(net, conn);
      StillValid(before, net.world);
      if r.Some? { CountUp(r.value); }
    }

    // currentPoolSize.Add(1) for a new channel, which goes to the caller.
    method CountUp(h: nat)
      requires Valid() && !closed && currentPoolSize < maxPoolSize && h !in created
      requires h < |net.world.channels| && net.world.channels[h].conn == conn && net.world.channels[h].confirm
      modifies this`currentPoolSize, this`lent, this`created
      ensures Valid() && h !in old(lent) && lent == old(lent) + {h}
    {
      currentPoolSize := currentPoolSize + 1;
      lent := lent + {h};
      created := created + {h};
    }

    // One round of the constructor's loop.
    method Add() returns (ok: bool)
      requires Valid() && |channels| < size && lent == {} && !closed
      modifies this`currentPoolSize, this`channels, this`created, net`world
      ensures Valid() && Later(old(net.world), net.world) && OnlyOpens(old(net.world), net.world)
      ensures |channels| == |old(channels)| + if ok then 1 else 0
      ensures old(created) <= created
      ensures StaysOpen(old(net.world), net.world)
      ensures Calm(old(net.world), net.world) && conn in old(net.world.openConns) ==> ok
      ensures forall h :: h in net.world.openChannels && h >= |old(net.world.channels)| ==> h in created
    {
      ghost var before := net.world;
      var r := OpenConfirmed(net, conn);
      StillValid(before, net.world);
      ok := r.Some?;
      if ok {
        channels := channels + [r.value];
        currentPoolSize := currentPoolSize + 1;
        created := created + {r.value};
      }
    }

    // Why a get without trouble can come back with nothing: the pool or its connection is
    // closed, or all channels are lent and there may be no more, so that it waited in vain.
    ghost predicate Exhausted()
      reads this, net
    {
      closed || conn !in net.world.openConns || (channels == [] && currentPoolSize >= maxPoolSize)
    }

    // One round of get's loop, from the look at the context to the end of the select: again
    // says that it was sent round by a dead channel.
    method Round() returns (r: Option<nat>, again: bool)
      requires Valid()
      modifies this`currentPoolSize, this`channels, this`lent, this`created, net`world
      ensures Valid() && Later(old(net.world), net.world)
      ensures r.None? ==> lent == old(lent)
      ensures r.Some? ==> !closed && r.value !in old(lent) && lent == old(lent) + {r.value}
      ensures r.Some? ==> Usable(r.value, old(channels), old(net.world), net.world)
      ensures NoneLeftOpen(old(net.world), net.world, r)
      ensures again ==> r.None? && |channels| < |old(channels)| && Within(channels, old(channels))
      ensures again ==> Becomes(old(net.world), net.world)
      ensures r.None? && !again && Calm(old(net.world), net.world) ==> Exhausted()
      ensures HeadIsOpen(old(channels), old(net.world)) && Calm(old(net.world), net.world) ==>
                r == Some(old(channels)[0]) && channels == old(channels)[1..]
    {
      again := false;
      var ended := net.Trouble();
      if ended { return None, false; }
      if channels != [] {
        r := TakeLive();
        if r.Some? { return; }
      } else if closed {
        return None, false;
      }
      r, again := GrowOrWait();
    }

    // The second half of a round (publisher_pool.go:83-119).
    method GrowOrWait() returns (r: Option<nat>, again: bool)
      requires Valid()
      modifies this`currentPoolSize, this`channels, this`lent, this`created, net`world
      ensures Valid() && Later(old(net.world), net.world)
      ensures r.None? ==> lent == old(lent)
      ensures r.Some? ==> !closed && r.value !in old(lent) && lent == old(lent) + {r.value}
      ensures r.Some? ==> Usable(r.value, old(channels), old(net.world), net.world)
      ensures NoneLeftOpen(old(net.world), net.world, r)
      ensures again ==> r.None? && |channels| < |old(channels)| && Within(channels, old(channels))
      ensures again ==> Becomes(old(net.world), net.world)
      ensures r.None? && !again && Calm(old(net.world), net.world) ==> Exhausted()
    {
      again := false;
      if currentPoolSize < maxPoolSize {
        r := Grow();
        return;
      }
      // the select: a channel from the buffer, or the end of the context
      if channels == [] { return None, false; }
      var ended := net.Trouble();
      if ended { return None, false; }
      r := TakeLive();
      again := r.None?;
    }

    // get is still at it, having found only dead channels in the buffer since the beginning.
    ghost predicate Going(buffer: seq<nat>, lentBefore: set<nat>, w: World)
      reads this, net
    {
      && Valid() && Later(w, net.world) && Becomes(w, net.world)
      && lent == lentBefore && Within(channels, buffer)
      && (channels == buffer || (Calm(w, net.world) ==> !HeadIsOpen(buffer, w)))
    }

    // get is over: a channel nobody else has, the first of the buffer if that is found open,
    // else a later one or a new one; or nothing, for a reason.
    ghost predicate Got(r: Option<nat>, buffer: seq<nat>, lentBefore: set<nat>, w: World)
      reads this, net
    {
      && Valid() && Later(w, net.world) && NoneLeftOpen(w, net.world, r)
      && (r.None? ==> lent == lentBefore && (Calm(w, net.world) ==> Exhausted()))
      && (r.Some? ==> !closed && r.value !in lentBefore && lent == lentBefore + {r.value})
      && (r.Some? ==> Usable(r.value, buffer, w, net.world))
      && (HeadIsOpen(buffer, w) && Calm(w, net.world) ==> r == Some(buffer[0]) && channels == buffer[1..])
    }

    // One pass of the loop.
    method Pass(ghost buffer: seq<nat>, ghost lentBefore: set<nat>, ghost w: World)
      returns (r: Option<nat>, again: bool)
      requires Going(buffer, lentBefore, w)
      modifies this`currentPoolSize, this`channels, this`lent, this`created, net`world
      ensures again ==> r.None? && |channels| < |old(channels)| && Going(buffer, lentBefore, w)
      ensures !again ==> Got(r, buffer, lentBefore, w)
    {
      r, again := Round();
    }

    method Get() returns (r: Option<nat>)
      requires Valid()
      modifies this`currentPoolSize, this`channels, this`lent, this`created, net`world
      ensures Got(r, old(channels), old(lent), old(net.world))
    {
      var again := true;
      r := None;
      while again
        invariant if again then Going(old(channels), old(lent), old(net.world))
                  else Got(r, old(channels), old(lent), old(net.world))
        decreases again, |channels|
      {
        r, again := Pass(old(channels), old(lent), old(net.world));
      }
    }

    // Receiving from the buffer; a dead channel is counted out.
    method TakeLive() returns (r: Option<nat>)
      requires Valid() && channels != []
      modifies this`currentPoolSize, this`channels, this`lent, net`world
      ensures Valid() && Later(old(net.world), net.world) && Becomes(old(net.world), net.world)
      ensures channels == old(channels)[1..] && Within(channels, old(channels))
      ensures r == if old(channels)[0] in net.world.openChannels then Some(old(channels)[0]) else None
      ensures r.None? ==> lent == old(lent)
      ensures r.Some? ==> r.value !in old(lent) && lent == old(lent) + {r.value}
    {
      var h := Take();
      var before := net.world;
      var dead := net.IsClosed(h);
      StillValid(before, net.world);
      if dead {
        DropDead(h);
        r := None;
      } else {
        r := Some(h);
      }
    }

    // The channel is back in an open pool that has room, or it is closed.
    method Put(h: nat)
      requires Valid() && h in lent
      modifies this`currentPoolSize, this`channels, this`lent, net`world
      ensures Valid() && Later(old(net.world), net.world)
      ensures lent == old(lent) - {h}
      ensures channels == old(channels) + [h] || (channels == old(channels) && h !in net.world.openChannels)
      ensures h in old(net.world.openChannels) && !closed && |old(channels)| < size
              && Calm(old(net.world), net.world) ==>
                channels == old(channels) + [h] && net.world == old(net.world)
    {
      var before := net.world;
      var dead := net.IsClosed(h);
      StillValid(before, net.world);
      if closed || dead {
        Discard(h);
      } else if |channels| < size {
        channels := channels + [h];
        lent := lent - {h};
      } else {
        Discard(h);
      }
    }

    method Discard(h: nat)
      requires Valid() && h in lent
      modifies this`currentPoolSize, this`lent, net`world
      ensures Valid() && Later(old(net.world), net.world)
      ensures lent == old(lent) - {h} && h !in net.world.openChannels
    {
      currentPoolSize := currentPoolSize - 1;
      net.CloseChannel(h);
      lent := lent - {h};
    }

    // Nothing of the pool stays open but what is lent.
    method Close()
      requires Valid()
      modifies this`currentPoolSize, this`channels, this`closed, net`world
      ensures Valid() && Later(old(net.world), net.world) && Ages(old(net.world), net.world)
      ensures closed && currentPoolSize == |lent|
      ensures forall h :: h in created && h in net.world.openChannels ==> h in lent
      ensures Calm(old(net.world), net.world) ==> OnlyClosed(old(net.world), net.world, old(channels))
    {
      if closed { return; }
      while channels != []
        invariant Valid() && Ages(old(net.world), net.world) && Within(channels, old(channels))
        invariant Calm(old(net.world), net.world) ==> OnlyClosed(old(net.world), net.world, old(channels))
        decreases |channels|
      {
        var h := channels[0];
        currentPoolSize := currentPoolSize - 1;
        net.CloseChannel(h);
        channels := channels[1..];
      }
      closed := true;
    }
  }

  // Nothing but the given channels has been closed.
  ghost predicate OnlyClosed(w: World, v: World, buffer: seq<nat>) {
    v.openConns == w.openConns && forall h :: h in w.openChannels && h !in buffer ==> h in v.openChannels
  }

  // Without trouble, nothing was closed in between.
  ghost predicate StaysOpen(w: World, v: World) {
    Calm(w, v) ==> v.openConns == w.openConns && w.openChannels <= v.openChannels
  }

  ghost predicate HeadIsOpen(buffer: seq<nat>, w: World) {
    buffer != [] && buffer[0] in w.openChannels
  }

  // Of the channels opened in between, at most the one returned is open.
  ghost predicate NoneLeftOpen(w: World, v: World, r: Option<nat>) {
    forall h :: h in v.openChannels && h >= |w.channels| ==> r == Some(h)
  }

  ghost predicate Within(buffer: seq<nat>, whole: seq<nat>) {
    forall h :: h in buffer ==> h in whole
  }

  // h comes from the buffer and was found open, or was opened in between.
  ghost predicate Usable(h: nat, buffer: seq<nat>, w: World, v: World) {
    (h in buffer && h in v.openChannels) || |w.channels| <= h < |v.channels|
  }

  // conn.Channel() followed by ch.Confirm(false); a channel that cannot be switched to
  // confirm mode is closed again.
  method OpenConfirmed(net: Network, conn: nat) returns (r: Option<nat>)
    requires Sane(net.world) && conn < net.world.dialled
    modifies net`world
    ensures Sane(net.world) && Later(old(net.world), net.world) && OnlyOpens(old(net.world), net.world)
    ensures NoneLeftOpen(old(net.world), net.world, r)
    ensures r.Some? ==> |old(net.world.channels)| <= r.value < |net.world.channels|
    ensures r.Some? ==> net.world.channels[r.value].conn == conn && net.world.channels[r.value].confirm
    ensures StaysOpen(old(net.world), net.world)
    ensures r.None? && Calm(old(net.world), net.world) ==> conn !in old(net.world.openConns)
  {
    r := net.OpenChannel(conn);
    if r.None? { return; }
    var confirmed := net.Confirm(r.value);
    if !confirmed {
      net.CloseChannel(r.value);
      r := None;
    }
  }

  // newPublisherChannelPool: a pool of `size` confirm channels, or, when one of them cannot
  // be had, nothing, with every channel opened on the way closed again.
  method NewPublisherChannelPool(net: Network, conn: nat, size: nat, maxPoolSize: int)
    returns (r: Option<PublisherChannelPool>)
    requires Sane(net.world) && conn < net.world.dialled
    modifies net`world
    ensures Sane(net.world) && Later(old(net.world), net.world) && OnlyOpens(old(net.world), net.world)
    ensures r.None? ==> forall h :: h in net.world.openChannels ==> h < |old(net.world.channels)|
    ensures Calm(old(net.world), net.world) && conn in old(net.world.openConns) ==> r.Some?
    ensures r.Some? ==> StaysOpen(old(net.world), net.world)
    ensures r.Some? ==> var p := r.value;
      && fresh(p) && p.net == net && p.conn == conn && p.Valid()
      && p.size == size && |p.channels| == size && p.lent == {} && !p.closed
      && p.maxPoolSize == Topology.ToInt32(maxPoolSize)
  {
    var pool := new PublisherChannelPool.Empty(net, conn, size, maxPoolSize);
    for i := 0 to size
      invariant pool.Valid() && Later(old(net.world), net.world) && fresh(pool) && OnlyOpens(old(net.world), net.world)
      invariant |pool.channels| == i && pool.lent == {} && !pool.closed && StaysOpen(old(net.world), net.world)
      invariant forall h :: h in net.world.openChannels && h >= |old(net.world.channels)| ==> h in pool.created
    {
      var h := pool.Add();
      if !h {
        pool.Close();
        return None;
      }
    }
    r := Some(pool);
  }

  // The pool keeps its maximum as an int32, and nothing checks that the configured one fits:
  // it does exactly up to 2^31 - 1, and one that wraps to a negative number lets no pool grow.
  lemma MaximumSurvivesExactly(max: int)
    requires 1 <= max <= 0x7FFF_FFFF_FFFF_FFFF
    ensures Topology.ToInt32(max) == max <==> max <= Topology.MAX_INT32
    ensures Topology.MAX_INT32 < max <= 2 * Topology.MAX_INT32 + 1 ==> Topology.ToInt32(max) < 0
  {
  }
}
