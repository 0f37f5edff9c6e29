/**
The AMQP client library and the broker behind it, as far as the SDK uses them: every
connection ever dialled, every AMQP channel ever opened, and the declared topology.

Every call may fail, and during every call any connection or channel may die.  Each time that
happens is counted as a trouble: without one, calls succeed and everything stays as it is.
*/
module Network {
  import opened Options
  import opened Broker

  datatype Qos = Qos(prefetchCount: int, prefetchSize: int, global: bool)

  // What an AMQP channel has been set up with.
  datatype Setup = Setup(conn: nat, confirm: bool, qos: Option<Qos>, consumed: seq<string>)

  datatype World = World(
    dialled: nat,                     // connections are numbered from 0
    openConns: set<nat>,
    channels: seq<Setup>,             // channels are numbered from 0
    openChannels: set<nat>,
    troubles: nat)                    // how often the environment has got in the way

  // v is w after some time in which connections and channels may only have died or been closed.
  ghost predicate Ages(w: World, v: World) {
    && v.dialled == w.dialled && v.channels == w.channels
    && v.openConns <= w.openConns && v.openChannels <= w.openChannels && w.troubles <= v.troubles
  }

  // v is w, unless there was trouble.
  ghost predicate Becomes(w: World, v: World) {
    Ages(w, v) && (Calm(w, v) ==> v == w)
  }

  // No trouble in between.
  predicate Calm(w: World, v: World) { v.troubles == w.troubles }

  // v is w some time later: things may have died, others may have been opened, and what was
  // opened before has kept its connection and its confirm mode.
  ghost predicate Later(w: World, v: World) {
    && w.dialled <= v.dialled && |w.channels| <= |v.channels| && w.troubles <= v.troubles
    && (forall c :: c in v.openConns && c < w.dialled ==> c in w.openConns)
    && (forall h :: h in v.openChannels && h < |w.channels| ==> h in w.openChannels)
    && (forall h :: 0 <= h < |w.channels| ==> v.channels[h].conn == w.channels[h].conn
                                              && (w.channels[h].confirm ==> v.channels[h].confirm))
  }

  // In between, nothing was dialled, and what was open before is set up as it was.
  ghost predicate OnlyOpens(w: World, v: World) {
    v.dialled == w.dialled && v.openConns <= w.openConns && w.channels <= v.channels && w.troubles <= v.troubles
  }

  function WithSetup(w: World, h: nat, s: Setup): World
    requires h < |w.channels|
  {
    w.(channels := w.channels[h := s])
  }

  function Consuming(s: Setup, queue: string): Setup {
    s.(consumed := s.consumed + [queue])
  }

  // The channels of a connection.
  function ChannelsOf(w: World, c: nat): set<nat> {
    set h | 0 <= h < |w.channels| && w.channels[h].conn == c
  }

  ghost predicate Sane(w: World) {
    && (forall c :: c in w.openConns ==> c < w.dialled)
    && (forall h :: h in w.openChannels ==> h < |w.channels| && w.channels[h].conn in w.openConns)
    && (forall h :: 0 <= h < |w.channels| ==> w.channels[h].conn < w.dialled)
  }

  datatype Reply = Accepted | Conflict | Failed

  function WithoutChannel(w: World, h: nat): World {
    w.(openChannels := w.openChannels - {h})
  }

  // A connection takes its channels with it.
  function WithoutConn(w: World, c: nat): World {
    w.(openConns := w.openConns - {c},
       openChannels := set h | h in w.openChannels && !(h < |w.channels| && w.channels[h].conn == c))
  }

  function Dialled(w: World): World {
    w.(dialled := w.dialled + 1, openConns := w.openConns + {w.dialled})
  }

  function Opened(w: World, c: nat): World {
    w.(channels := w.channels + [Setup(c, false, None, [])], openChannels := w.openChannels + {|w.channels|})
  }

  class Network {
    var world: World
    var broker: Broker

    constructor (broker: Broker)
      ensures Sane(world) && world == World(0, {}, [], {}, 0) && this.broker == broker
    {
      world := World(0, {}, [], {}, 0);
      this.broker := broker;
    }

    // Connections and channels die; a connection takes its channels with it.
    method Pass()
      requires Sane(world)
      modifies this`world
      ensures Sane(world) && Later(old(world), world) && Becomes(old(world), world)
    {
      var quiet: bool := *;
      if quiet { return; }
      var conns: set<nat> := *;
      var chans: set<nat> := *;
      var left := world.openConns - conns;
      world := world.(openConns := left, troubles := world.troubles + 1,
                      openChannels := set h | h in world.openChannels - chans && world.channels[h].conn in left);
    }

    // Something gets in the way here: a context has ended, another goroutine or the other
    // side has acted.
    method Trouble() returns (strikes: bool)
      requires Sane(world)
      modifies this`world
      ensures Sane(world) && Later(old(world), world)
      ensures world == if strikes then old(world).(troubles := old(world).troubles + 1) else old(world)
    {
      strikes := *;
      if strikes { world := world.(troubles := world.troubles + 1); }
    }

    method Dial() returns (r: Option<nat>)
      requires Sane(world)
      modifies this`world
      ensures Sane(world) && Later(old(world), world)
      ensures r.None? ==> Ages(old(world), world) && !Calm(old(world), world)
      ensures r.Some? ==> r.value == old(world).dialled && Becomes(Dialled(old(world)), world)
    {
      Pass();
      var refused := Trouble();
      if refused { return None; }
      r := Some(world.dialled);
      world := Dialled(world);
      Pass();
    }

    method OpenChannel(c: nat) returns (r: Option<nat>)
      requires Sane(world) && c < world.dialled
      modifies this`world
      ensures Sane(world) && Later(old(world), world)
      ensures r.None? ==> Becomes(old(world), world) && (Calm(old(world), world) ==> c !in world.openConns)
      ensures r.Some? ==> r.value == |old(world).channels| && Becomes(Opened(old(world), c), world)
    {
      Pass();
      var refused := Trouble();
      if refused || c !in world.openConns { return None; }
      r := Some(|world.channels|);
      world := Opened(world, c);
      Pass();
    }

    // Confirm, Qos and Consume change the setup of a channel when they succeed.
    method Configure(h: nat, s: Setup) returns (ok: bool)
      requires Sane(world) && h < |world.channels| && s.conn == world.channels[h].conn
      requires world.channels[h].confirm ==> s.confirm
      modifies this`world
      ensures Sane(world) && Later(old(world), world)
      ensures ok ==> Becomes(WithSetup(old(world), h, s), world)
      ensures !ok ==> Becomes(old(world), world) && (Calm(old(world), world) ==> h !in world.openChannels)
    {
      Pass();
      var refused := Trouble();
      ok := !refused && h in world.openChannels;
      if ok {
        world := WithSetup(world, h, s);
        Pass();
      }
    }

    method Confirm(h: nat) returns (ok: bool)
      requires Sane(world) && h < |world.channels|
      modifies this`world
      ensures Sane(world) && Later(old(world), world)
      ensures ok ==> Becomes(WithSetup(old(world), h, old(world).channels[h].(confirm := true)), world)
      ensures !ok ==> Becomes(old(world), world) && (Calm(old(world), world) ==> h !in world.openChannels)
    {
      ok := Configure(h, world.channels[h].(confirm := true));
    }

    method SetQos(h: nat, qos: Qos) returns (ok: bool)
      requires Sane(world) && h < |world.channels|
      modifies this`world
      ensures Sane(world) && Later(old(world), world)
      ensures ok ==> Becomes(WithSetup(old(world), h, old(world).channels[h].(qos := Some(qos))), world)
      ensures !ok ==> Becomes(old(world), world) && (Calm(old(world), world) ==> h !in world.openChannels)
    {
      ok := Configure(h, world.channels[h].(qos := Some(qos)));
    }

    // Refused for a queue the broker does not have; that closes the channel.
    method Consume(h: nat, queue: string) returns (ok: bool)
      requires Sane(world) && h < |world.channels|
      modifies this`world
      ensures Sane(world) && Later(old(world), world)
      ensures ok ==> queue in broker.queues
      ensures ok ==> Becomes(WithSetup(old(world), h, Consuming(old(world).channels[h], queue)), world)
      ensures !ok ==> Ages(old(world), world)
      ensures !ok && Calm(old(world), world) ==> queue !in broker.queues || h !in old(world).openChannels
    {
      if queue in broker.queues {
        ok := Configure(h, Consuming(world.channels[h], queue));
      } else {
        CloseChannel(h);
        ok := false;
      }
    }

    // Channel.IsClosed
    method IsClosed(h: nat) returns (closed: bool)
      requires Sane(world)
      modifies this`world
      ensures Sane(world) && Later(old(world), world) && Becomes(old(world), world)
      ensures closed <==> h !in world.openChannels
    {
      Pass();
      closed := h !in world.openChannels;
    }

    // Whatever error Close reports, the channel is closed afterwards.
    method CloseChannel(h: nat)
      requires Sane(world)
      modifies this`world
      ensures Sane(world) && Later(old(world), world)
      ensures Becomes(WithoutChannel(old(world), h), world) && h !in world.openChannels
    {
      Pass();
      world := WithoutChannel(world, h);
    }

    method CloseConn(c: nat)
      requires Sane(world)
      modifies this`world
      ensures Sane(world) && Later(old(world), world)
      ensures Becomes(WithoutConn(old(world), c), world) && c !in world.openConns
      ensures ChannelsOf(world, c) !! world.openChannels
    {
      Pass();
      world := WithoutConn(world, c);
    }

    // ExchangeDeclare and QueueDeclare ask for a fragment of topology.  A lost reply leaves
    // open whether the broker did it.
    method Declare(f: Broker) returns (r: Reply)
      requires Sane(world)
      modifies this`broker, this`world
      ensures Sane(world) && Later(old(world), world) && Becomes(old(world), world)
      ensures r.Accepted? ==> Agree(old(broker), f) && broker == Merge(old(broker), f)
      ensures r.Conflict? ==> !Agree(old(broker), f) && broker == old(broker)
      ensures r.Failed? ==> broker == old(broker) || (Agree(old(broker), f) && broker == Merge(old(broker), f))
      ensures r.Failed? ==> !Calm(old(world), world)
    {
      Pass();
      var unreached := Trouble();
      if unreached { return Failed; }
      if Fits(broker, f) {
        broker := Merge(broker, f);
        r := Accepted;
      } else {
        r := Conflict;
      }
      var unanswered := Trouble();
      if unanswered { r := Failed; }
      Pass();
    }

    // QueueBind needs both ends to exist.
    method Bind(queue: string, routingKey: string, exchange: string) returns (r: Reply)
      requires Sane(world)
      modifies this`broker, this`world
      ensures Sane(world) && Later(old(world), world) && Becomes(old(world), world)
      ensures r.Accepted? ==> broker == Merge(old(broker), ABinding(queue, routingKey, exchange))
      ensures r.Conflict? ==> broker == old(broker)
      ensures r.Conflict? ==> !(queue in old(broker).queues && exchange in old(broker).exchanges)
      ensures r.Failed? ==> broker == old(broker) || broker == Merge(old(broker), ABinding(queue, routingKey, exchange))
      ensures r.Failed? ==> !Calm(old(world), world)
    {
      if queue in broker.queues && exchange in broker.exchanges {
        r := Declare(ABinding(queue, routingKey, exchange));
      } else {
        var unanswered := Trouble();
        r := if unanswered then Failed else Conflict;
      }
    }
  }

  // The broker's check that a declaration equals what exists under its name.
  predicate Fits(b: Broker, f: Broker)
    ensures Fits(b, f) <==> Agree(b, f)
  {
    && (forall x :: x in b.exchanges.Keys * f.exchanges.Keys ==> b.exchanges[x] == f.exchanges[x])
    && (forall q :: q in b.queues.Keys * f.queues.Keys ==> b.queues[q] == f.queues[q])
  }
}
