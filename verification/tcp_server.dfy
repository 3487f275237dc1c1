/** TcpServer as an object. It works on the values of ServerModel: loops with their
    queues, and connections by their model state; each method keeps the invariant of
    the whole server and says where it leaves the connection. */
module TcpServers {
  import opened Basics
  import opened ConnectionModel
  import opened ConnectionEffects
  import opened Functors
  import opened ServerModel
  import opened ServerTheorems
  import opened ServerFunctors
  import opened ServerDispatch
  import opened ServerRuns
  import opened ServerSteps

  class TcpServer {
    const mainLoop: LoopId
    var connections: set<ConnId>
    var nextConnId: ConnId
    var loops: map<LoopId, Loop>      // the event loops' program counters and queues
    var conns: map<ConnId, Entry>     // the connection objects
    var flights: map<Tid, (ConnId, seq<Byte>)>

    function View(): Server
      reads this
    {
      Server(mainLoop, loops, conns, connections, nextConnId, flights)
    }

    ghost predicate Valid()
      reads this
    {
      Inv(View())
    }

    constructor (mainLoop: LoopId, subLoops: set<LoopId>)
      ensures Valid() && IsStart(View()) && View().loops.Keys == subLoops + {mainLoop}
    {
      this.mainLoop := mainLoop;
      connections, nextConnId, conns, flights := {}, 1, map[], map[];
      loops := map l | l in subLoops + {mainLoop} :: Loop(Polling, [], []);
    }

    method QueueInLoop(l: LoopId, f: Functor)
      requires l in loops
      modifies this`loops
      ensures View() == Push(old(View()), l, f)
    {
      loops := loops[l := loops[l].(pending := loops[l].pending + [f])];
    }

    /** `ConnectEstablished` of connection `c`, on its own loop. */
    method ConnectEstablished(c: ConnId, script: seq<Action>)
      requires c in conns
      modifies this`conns
      ensures View() == RunOne(old(View()), Establish(c), script, Wrote(0))
    {
      var e := conns[c];
      conns := conns[c := e.(conn := ConnectionModel.ConnectEstablished(e.conn, script),
                             phase := Alive, established := e.established + 1)];
    }

    /** Called on the main loop for each accepted socket: a connection that was not
        there before is in the map, established if it lives on the main loop and
        waiting to be established if on another; all the others are as they were. */
    method NewConnection(target: LoopId, options: Options, script: seq<Action>) returns (c: ConnId)
      requires Valid() && target in loops
      modifies this
      ensures Valid() && View() == ServerModel.NewConnection(old(View()), target, options, script)
      ensures c !in old(View()).conns && NewlyIn(View(), c, target)
      ensures View().conns[c].conn == if target == mainLoop then RunScript(JustUp(options), script) else Fresh(options)
      ensures forall d :: d in old(View()).conns ==> d in View().conns && View().conns[d] == old(View()).conns[d]
    {
      AcceptPlaces(View(), target, options, script);
      c := Enter(target, options, script);
    }

    method Enter(target: LoopId, options: Options, script: seq<Action>) returns (c: ConnId)
      requires target in loops
      modifies this
      ensures c == old(nextConnId)
      ensures View() == ServerModel.NewConnection(old(View()), target, options, script)
    {
      c := nextConnId;
      nextConnId := nextConnId + 1;
      conns := conns[c := Entry(target, Fresh(options), Establishing, 0, 0, [])];
      connections := connections + {c};
      if target == mainLoop {
        ConnectEstablished(c, script);
      } else {
        QueueInLoop(target, Establish(c));
      }
    }

    /** The close callback, called on the thread of loop `caller` by a connection that
        has just closed. On the main loop the connection leaves the map and waits to
        be destroyed; from another loop its removal waits on the main loop. */
    method RemoveConnection(caller: LoopId, c: ConnId)
      requires AwaitsRemoval(View(), c)
      modifies this`conns, this`connections, this`loops
      ensures Valid() && View() == ServerModel.RemoveConnection(old(View()), caller, c)
      ensures if caller == mainLoop then Removed(View(), c) else RemovalPosted(View(), c)
    {
      RemovalPlaces(View(), caller, c);
      if caller == mainLoop {
        RemoveConnectionInLoop(c);
      } else {
        PostRemoval(c);
      }
    }

    method PostRemoval(c: ConnId)
      requires c in conns && mainLoop in loops
      modifies this`conns, this`loops
      ensures View() == Push(SetEntry(old(View()), c, old(conns[c]).(phase := Closing)), mainLoop, RemoveInLoop(c))
    {
      conns := conns[c := conns[c].(phase := Closing)];
      QueueInLoop(mainLoop, RemoveInLoop(c));
    }

    /** On the main loop: at once, or as the functor that another loop has posted. */
    method RemoveConnectionInLoop(c: ConnId)
      requires AwaitsRemoval(View(), c)
      modifies this`conns, this`connections, this`loops
      ensures Valid() && View() == ServerModel.RemoveConnectionInLoop(old(View()), c)
      ensures Removed(View(), c)
    {
      RemovalPlaces(View(), mainLoop, c);
      Erase(c);
    }

    method Erase(c: ConnId)
      requires c in conns && conns[c].loop in loops
      modifies this`conns, this`connections, this`loops
      ensures View() == ServerModel.RemoveConnectionInLoop(old(View()), c)
    {
      connections := connections - {c};
      conns := conns[c := conns[c].(phase := Dying)];
      var subLoop := conns[c].loop;
      QueueInLoop(subLoop, Destroy(c));
    }

    /** The handler of the first active channel, a connection's, on loop `l`. */
    method HandleChannelEvent(l: LoopId, io: IO)
      requires Valid() && Enabled(View(), Dispatch(l, io))
      modifies this`conns, this`connections, this`loops
      ensures Valid() && View() == Apply(old(View()), Dispatch(l, io))
    {
      EventLeavesTaken(View(), l, io);
      var item := TakeFirst(l);
      var e := conns[item.c];
      var conn := HandleEvent(e.conn, item.revents, io);
      SetConn(item.c, conn);
      if conn.ledger.closeRequests > e.conn.ledger.closeRequests {
        RemoveConnection(l, item.c);
      }
    }

    method TakeFirst(l: LoopId) returns (item: Item)
      requires l in loops && loops[l].pc.Dispatching? && loops[l].pc.active != []
      modifies this`loops
      ensures item == old(loops[l].pc.active[0]) && View() == Taken(old(View()), l)
    {
      var active := loops[l].pc.active;
      item := active[0];
      loops := loops[l := loops[l].(pc := Dispatching(active[1..]))];
    }

    method SetConn(c: ConnId, conn: Conn)
      requires c in conns
      modifies this`conns
      ensures View() == SetEntry(old(View()), c, old(conns[c]).(conn := conn))
    {
      conns := conns[c := conns[c].(conn := conn)];
    }

    /** The first functor of the batch of loop `l`. */
    method RunFirstFunctor(l: LoopId, script: seq<Action>, w: WriteOutcome)
      requires Valid() && Enabled(View(), RunFunctor(l, script, w))
      modifies this`conns, this`connections, this`loops
      ensures Valid() && View() == Apply(old(View()), RunFunctor(l, script, w))
    {
      RunKeeps(View(), l, script, w);
      FunctorAwaits(View(), l, loops[l].batch[0]);
      var f := PopFirst(l);
      Call(f, script, w);
    }

    method PopFirst(l: LoopId) returns (f: Functor)
      requires l in loops && loops[l].batch != []
      modifies this`loops
      ensures f == old(loops[l].batch[0]) && View() == Popped(old(View()), l)
    {
      f := loops[l].batch[0];
      loops := loops[l := loops[l].(batch := loops[l].batch[1..])];
    }

    method Call(f: Functor, script: seq<Action>, w: WriteOutcome)
      requires f.c in conns && (f.RemoveInLoop? ==> AwaitsRemoval(View(), f.c))
      modifies this`conns, this`connections, this`loops
      ensures View() == RunOne(old(View()), f, script, w)
    {
      match f
      case Establish(c) => ConnectEstablished(c, script);
      case RemoveInLoop(c) => RemoveConnectionInLoop(c);
      case Destroy(c) => ConnectDestroyed(c, script);
      case Deliver(c, sender, data) => SetConn(c, SendInLoop(conns[c].conn, Foreign(sender), data, w));
    }

    /** `ConnectDestroyed` of connection `c`, on its own loop. */
    method ConnectDestroyed(c: ConnId, script: seq<Action>)
      requires c in conns
      modifies this`conns
      ensures View() == RunOne(old(View()), Destroy(c), script, Wrote(0))
    {
      var e := conns[c];
      conns := conns[c := e.(conn := ConnectionModel.ConnectDestroyed(e.conn, script),
                             phase := Destroyed, destroyed := e.destroyed + 1)];
    }
  }
}
