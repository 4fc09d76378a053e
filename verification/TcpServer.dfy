/** TcpServer, with its map keyed by connection name, and the functors its connections leave on the loops. */
module TcpServers {
  import opened ConnectionModel
  import opened ConnectionProofs
  import opened ConnectionTheorems
  import opened ConnectionNames

  class TcpServer {
    const address: Address
    const base: LoopId
    var nextConnId: nat
    var connections: map<string, ConnId>   // connections_
    var loops: map<LoopId, Loop>
    var conns: seq<Conn>
    var sockets: map<Fd, ConnId>
    var dangling: bool

    function NameOf(c: ConnId): string {
      ConnName(address, c + 1)
    }

    function Table(): set<ConnId>
      reads this
    {
      set c | 0 <= c < |conns| && NameOf(c) in connections
    }

    function Abs(): Server
      reads this
    {
      Server(base, loops, conns, Table(), sockets, false, dangling)
    }

    // Every entry has the name of its connection, and ids have not run out.
    ghost predicate Keyed()
      reads this
    {
      && nextConnId == |conns| + 1 && nextConnId <= INT_MAX
      && forall n :: n in connections ==> connections[n] < |conns| && n == NameOf(connections[n])
    }

    ghost predicate Valid()
      reads this
    {
      Keyed() && Inv(Abs())
    }

    constructor (address: Address, base: LoopId, ids: set<LoopId>)
      requires base in ids
      ensures Valid() && Initial(Abs()) && this.base == base
    {
      this.address, this.base := address, base;
      nextConnId, connections, conns, sockets, dangling := 1, map[], [], map[], false;
      loops := map l | l in ids :: Loop([], Polling, Nobody, map[], {});
      new;
      assert Table() == {};
      InitialInv(Abs());
    }

    // The queue of a loop; `runInLoop` on another loop ends here.
    method QueueInLoop(l: LoopId, t: Task)
      requires l in loops
      modifies this`loops
      ensures Abs() == Push(old(Abs()), l, t)
    {
      loops := loops[l := loops[l].(pending := loops[l].pending + [t])];
    }

    method ConnectEstablished(c: ConnId)
      requires WellFormed(Abs()) && c < |conns| && !Established(Abs(), c).fault
      modifies this`loops, this`conns
      ensures Abs() == Established(old(Abs()), c) && |conns| == old(|conns|)
    {
      var k := conns[c];
      conns := conns[c := k.(state := Connected)];
      assert k.fd !in loops[k.loop].channels && k.fd !in loops[k.loop].watched;
      var x := loops[k.loop];
      loops := loops[k.loop := x.(channels := x.channels[k.fd := c], watched := x.watched + {k.fd})];
      assert Table() == old(Table());
    }

    method NewConnection(fd: Fd, l: LoopId)
      requires Valid() && Enabled(Abs(), Accept(fd, l)) && nextConnId < INT_MAX
      modifies this
      ensures Valid() && Abs() == Next(old(Abs()), Accept(fd, l))
    {
      InvStep(Abs(), Accept(fd, l));
      Register(fd, l);
    }

    method Register(fd: Fd, l: LoopId)
      requires Keyed() && WellFormed(Abs()) && l in loops && nextConnId < INT_MAX && !Accepted(Abs(), fd, l).fault
      modifies this
      ensures Keyed() && Abs() == Accepted(old(Abs()), fd, l)
    {
      var c := |conns|;
      var connName := ConnName(address, nextConnId);
      nextConnId := nextConnId + 1;
      Extend(c, fd, l, connName);
      if l == base {
        ConnectEstablished(c);
      } else {
        QueueInLoop(l, Establish(c));
      }
    }

    // The new entry; its name is not in the map yet.
    method Extend(c: ConnId, fd: Fd, l: LoopId, connName: string)
      requires c == |conns| && connName == NameOf(c) && nextConnId == c + 2 && nextConnId <= INT_MAX
      requires forall n :: n in connections ==> connections[n] < |conns| && n == NameOf(connections[n])
      modifies this`connections, this`conns, this`sockets
      ensures Keyed()
      ensures Abs() == Listed(old(Abs()), fd, l)
    {
      connections := connections[connName := c];
      conns := conns + [Conn(l, fd, Connecting, 0, 0)];
      sockets := sockets[fd := c];
      forall d | d in Table() ensures d in old(Table()) + {c} {
        if d != c && NameOf(d) == connName {
          ConnNamesDistinct(address, c + 1, d + 1);
        }
      }
      assert Table() == old(Table()) + {c};
    }

    // connections_.erase
    method Erase(c: ConnId)
      requires Keyed() && c < |conns|
      modifies this`connections
      ensures Keyed() && Table() == old(Table()) - {c}
    {
      hide ConnName;
      connections := connections - {NameOf(c)};
      forall d | 0 <= d < |conns| && NameOf(d) == NameOf(c) ensures d == c {
        ConnNamesDistinct(address, c + 1, d + 1);
      }
    }

    // removeConnectionInLoop; the assertion is the source's n == 1.
    method RemoveConnectionInLoop(c: ConnId)
      requires Keyed() && WellFormed(Abs()) && c < |conns| && c in Table()
      modifies this`connections, this`loops
      ensures Keyed() && Abs() == Removed(old(Abs()), c)
    {
      assert NameOf(c) in connections;
      Erase(c);
      QueueInLoop(conns[c].loop, Destroy(c));
    }

    // handleClose does not look at the state; that the assertion holds is all it needs.  It holds on an I/O
    // loop always, and on the base loop the first time.
    method HandleClose(c: ConnId)
      requires Keyed() && WellFormed(Abs()) && Enabled(Abs(), Close(c)) && !Closed(Abs(), c).fault
      modifies this
      ensures Keyed() && Abs() == Next(old(Abs()), Close(c))
      ensures old(Valid()) && old(conns)[c].state == Connected ==> Valid()
    {
      if conns[c].state == Connected {
        CloseInv(c);
      }
      Shut(c);
    }

    lemma CloseInv(c: ConnId)
      requires Keyed() && WellFormed(Abs()) && Enabled(Abs(), Close(c)) && conns[c].state == Connected
      ensures Valid() ==> Inv(Next(Abs(), Close(c)))
    {
      if Valid() {
        InvStep(Abs(), Close(c));
      }
    }

    method Shut(c: ConnId)
      requires Keyed() && WellFormed(Abs()) && c < |conns| && !Closed(Abs(), c).fault
      modifies this
      ensures Keyed() && Abs() == Closed(old(Abs()), c)
    {
      var k := conns[c];
      conns := conns[c := k.(state := Disconnected)];
      loops := loops[k.loop := DisableAll(loops[k.loop], k.fd)];
      assert Table() == old(Table());
      // removeConnection: runInLoop on the base loop
      if k.loop == base {
        RemoveConnectionInLoop(c);
      } else {
        QueueInLoop(base, Remove(c));
      }
    }

    // connectDestroyed; the assertion is that removeChannel does not refuse.
    method ConnectDestroyed(c: ConnId)
      requires WellFormed(Abs()) && c < |conns| && !Destroyed(Abs(), c).fault
      modifies this`loops, this`conns
      ensures Abs() == Destroyed(old(Abs()), c) && |conns| == old(|conns|)
    {
      var k := conns[c];
      if k.state == Connected {
        conns := conns[c := k.(state := Disconnected)];
      }
      var x := loops[k.loop];
      assert x.current != Handling(c);
      loops := loops[k.loop := x.(channels := x.channels - {k.fd}, watched := x.watched - {k.fd})];
      assert Table() == old(Table());
    }

    // The next functor of the batch that loop `l` is running
    method RunFunctor(l: LoopId)
      requires Valid() && Enabled(Abs(), Perform(l))
      modifies this
      ensures Valid() && Abs() == Next(old(Abs()), Perform(l))
    {
      hide Inv, ConnName, Performed;
      InvGood(Abs(), 0);
      InvStep(Abs(), Perform(l));
      NoFault(Next(Abs(), Perform(l)));
      var t := Pop(l);
      Call(t);
    }

    method Pop(l: LoopId) returns (t: Task)
      requires Keyed() && WellFormed(Abs()) && Enabled(Abs(), Perform(l))
      modifies this`loops
      ensures Keyed() && WellFormed(Abs()) && t == old(loops)[l].place.rest[0]
      ensures Abs() == SetLoop(old(Abs()), l, Popped(old(loops)[l])) && |conns| == |old(conns)|
    {
      t := loops[l].place.rest[0];
      loops := loops[l := Popped(loops[l])];
    }

    lemma NoFault(s: Server)
      requires Inv(s)
      ensures !s.fault
    {
    }

    method Call(t: Task)
      requires Keyed() && WellFormed(Abs()) && t.c < |conns| && !Performed(Abs(), t).fault
      modifies this
      ensures Keyed() && Abs() == Performed(old(Abs()), t)
    {
      hide Established, Removed, Destroyed, Held, ConnName;
      match t {
        case Establish(c) => ConnectEstablished(c);
        case Remove(c) => CallRemove(c);
        case Destroy(c) => ConnectDestroyed(c);
        case Raw(c) => CallRaw(c);
      }
    }

    method CallRemove(c: ConnId)
      requires Keyed() && WellFormed(Abs()) && c < |conns| && !Removed(Abs(), c).fault
      modifies this`connections, this`loops
      ensures Keyed() && Abs() == Removed(old(Abs()), c)
    {
      RemoveConnectionInLoop(c);
    }

    // A functor bound to `this`, whether or not there still is an object
    method CallRaw(c: ConnId)
      requires Keyed() && WellFormed(Abs()) && c < |conns|
      modifies this`dangling
      ensures Keyed() && Abs() == Performed(old(Abs()), Raw(c))
    {
      if !Held(Abs(), c) {
        dangling := true;
      }
    }

    // A shared pointer goes; the last one closes the socket.
    method Drop(c: ConnId)
      requires WellFormed(Abs()) && c < |conns|
      modifies this`sockets
      ensures Abs() == Dropped(old(Abs()), c)
    {
      if !Held(Abs(), c) && conns[c].fd in sockets && sockets[conns[c].fd] == c {
        sockets := sockets - {conns[c].fd};
      }
    }

    // The functors of a batch are destroyed.
    method DropAll(q: seq<Task>)
      requires WellFormed(Abs()) && Known(q, |conns|)
      modifies this`sockets
      ensures Abs() == DroppedAll(old(Abs()), q)
    {
      ghost var s := Abs();
      for i := 0 to |q|
        invariant WellFormed(Abs()) && Known(q[i..], |Abs().conns|) && DroppedAll(Abs(), q[i..]) == DroppedAll(s, q)
      {
        assert q[i..][0] == q[i] && q[i..][1..] == q[i + 1..];
        if !q[i].Raw? {
          Drop(q[i].c);
        }
      }
    }

    // Timers and user code take and drop shared pointers, and other threads check the state and queue calls.
    method OtherHolder(step: Step)
      requires Valid() && Enabled(Abs(), step) && (step.Keep? || step.Release? || step.Check? || step.CallLater?)
      modifies this`conns, this`sockets, this`loops
      ensures Valid() && Abs() == Next(old(Abs()), step)
    {
      InvStep(Abs(), step);
      hide Inv;
      Count(step);
    }

    method Count(step: Step)
      requires Keyed() && WellFormed(Abs()) && Enabled(Abs(), step)
      requires step.Keep? || step.Release? || step.Check? || step.CallLater?
      modifies this`conns, this`sockets, this`loops
      ensures Keyed() && Abs() == Next(old(Abs()), step)
    {
      hide Held, ConnName;
      match step {
        case Keep(c) => SetCount(c, conns[c].kept + 1, conns[c].calling);
        case Release(c) =>
          SetCount(c, conns[c].kept - 1, conns[c].calling);
          Drop(c);
        case Check(c) => SetCount(c, conns[c].kept - 1, conns[c].calling + 1);
        case CallLater(c) =>
          SetCount(c, conns[c].kept + 1, conns[c].calling - 1);
          QueueInLoop(conns[c].loop, Raw(c));
      }
    }

    method SetCount(c: ConnId, kept: nat, calling: nat)
      requires WellFormed(Abs()) && c < |conns|
      modifies this`conns
      ensures WellFormed(Abs()) && Abs() == SetHolders(old(Abs()), c, kept, calling) && |conns| == old(|conns|)
    {
      conns := conns[c := conns[c].(kept := kept, calling := calling)];
      assert Table() == old(Table());
    }

    // The swap under the lock
    method SwapFunctors(l: LoopId)
      requires Valid() && Enabled(Abs(), EndDispatch(l))
      modifies this`loops
      ensures Valid() && Abs() == Next(old(Abs()), EndDispatch(l))
    {
      InvStep(Abs(), EndDispatch(l));
      loops := loops[l := loops[l].(place := Draining([], loops[l].pending), pending := [])];
    }

    // The end of doPendingFunctors, where the local vector goes out of scope
    method EndFunctors(l: LoopId)
      requires Valid() && Enabled(Abs(), Step.EndDrain(l))
      modifies this`loops, this`sockets
      ensures Valid() && Abs() == Next(old(Abs()), Step.EndDrain(l))
    {
      InvStep(Abs(), Step.EndDrain(l));
      hide Inv, ConnName;
      var functors := loops[l].place.done;
      loops := loops[l := loops[l].(place := Polling)];
      assert Abs() == SetLoop(old(Abs()), l, loops[l]);
      DropAll(functors);
    }

    method RunBatch(l: LoopId)
      requires Valid() && l in loops && loops[l].place.Draining?
      modifies this
      ensures Valid() && l in loops && loops[l].place.Draining? && loops[l].place.rest == []
      ensures var steps := PerformSteps(l, |old(loops)[l].place.rest|);
        ValidRun(old(Abs()), steps) && Abs() == Run(old(Abs()), steps)
    {
      var n := |loops[l].place.rest|;
      for i := 0 to n
        invariant Valid() && l in loops && loops[l].place.Draining? && |loops[l].place.rest| == n - i
        invariant ValidRun(old(Abs()), PerformSteps(l, i)) && Abs() == Run(old(Abs()), PerformSteps(l, i))
      {
        RunNext(l, old(Abs()), i);
      }
    }

    method RunNext(l: LoopId, ghost start: Server, ghost i: nat)
      requires Valid() && l in loops && loops[l].place.Draining? && loops[l].place.rest != []
      requires ValidRun(start, PerformSteps(l, i)) && Abs() == Run(start, PerformSteps(l, i))
      modifies this
      ensures Valid() && l in loops && loops[l].place.Draining?
      ensures |loops[l].place.rest| == |old(loops)[l].place.rest| - 1
      ensures ValidRun(start, PerformSteps(l, i + 1)) && Abs() == Run(start, PerformSteps(l, i + 1))
    {
      PerformShape(Abs(), l);
      RunSnoc(start, PerformSteps(l, i), Perform(l));
      RunFunctor(l);
    }

    // doPendingFunctors of loop `l`: the run that performs each functor of the swapped batch once
    method DoPendingFunctors(l: LoopId)
      requires Valid() && Enabled(Abs(), EndDispatch(l))
      modifies this
      ensures Valid()
      ensures var steps := Drain(l, |old(loops)[l].pending|);
        ValidRun(old(Abs()), steps) && Abs() == Run(old(Abs()), steps)
    {
      SwapFunctors(l);
      ghost var batch := PerformSteps(l, |loops[l].place.rest|);
      RunBatch(l);
      RunCons(old(Abs()), EndDispatch(l), batch);
      DrainShape(Abs(), l);
      RunSnoc(old(Abs()), [EndDispatch(l)] + batch, Step.EndDrain(l));
      EndFunctors(l);
    }
  }

  lemma RunCons(s: Server, step: Step, steps: seq<Step>)
    requires WellFormed(s) && Enabled(s, step) && ValidRun(Next(s, step), steps)
    ensures ValidRun(s, [step] + steps) && Run(s, [step] + steps) == Run(Next(s, step), steps)
  {
    assert ([step] + steps)[1..] == steps;
  }

  ghost function PerformSteps(l: LoopId, n: nat): seq<Step> {
    if n == 0 then [] else PerformSteps(l, n - 1) + [Perform(l)]
  }

  ghost function Drain(l: LoopId, n: nat): seq<Step> {
    [EndDispatch(l)] + PerformSteps(l, n) + [EndDrain(l)]
  }

  // A functor only queues others: the rest of the batch is what it was.
  lemma PerformShape(s: Server, l: LoopId)
    requires Inv(s) && l in s.loops && s.loops[l].place.Draining? && s.loops[l].place.rest != []
    ensures WellFormed(s) && Enabled(s, Perform(l)) && Once(s, Perform(l))
    ensures var r := Next(s, Perform(l));
      l in r.loops && r.loops[l].place == Popped(s.loops[l]).place && |r.conns| == |s.conns|
  {
    LoopOkPop(s.loops[l], l, s.base, s.conns);
  }

  // The end of a batch knows its connections.
  lemma DrainShape(s: Server, l: LoopId)
    requires Inv(s) && l in s.loops && s.loops[l].place.Draining? && s.loops[l].place.rest == []
    ensures WellFormed(s) && Enabled(s, EndDrain(l))
  {
    assert LoopOk(s.loops[l], l, s.base, s.conns);
  }
}
