/**
 The life of connections across the base loop and the I/O loops: acceptance, establishment,
 dispatch of events, handleClose, removal from the server's map and destruction, in every
 interleaving of the loops.

 A step is one event, one functor or one poll of one loop, or somebody else taking or dropping a
 shared pointer.  A connection is kept alive by the server's map, by functors that hold its shared
 pointer, and by other holders: timers and user code.  A functor that has run holds its pointer until
 the whole batch it was swapped out with is over.  Failing assertions, refused removals, dangling
 channels and epoll_ctl calls that the kernel would reject raise `fault`; a functor that runs on a
 connection that is gone raises `dangling`.
 */
module ConnectionModel {

  type ConnId = nat
  type LoopId = nat
  type Fd = nat

  // connectEstablished and connectDestroyed on the connection's loop, removeConnectionInLoop on the base
  // loop; Raw is sendInLoop, shutdownInLoop or forceCloseInLoop, bound to `this` without a shared pointer.
  datatype Task = Establish(c: ConnId) | Remove(c: ConnId) | Destroy(c: ConnId) | Raw(c: ConnId)

  // `Draining` lasts as long as the local vector of doPendingFunctors; the functors in `done` have run.
  datatype Place = Polling | Dispatching(active: seq<ConnId>) | Draining(done: seq<Task>, rest: seq<Task>)

  // currentActiveChannel_, as far as it is the channel of a connection
  datatype Current = Nobody | Handling(c: ConnId)

  datatype Loop = Loop(
    pending: seq<Task>,
    place: Place,
    current: Current,
    channels: map<Fd, ConnId>,   // Poller::channels_
    watched: set<Fd>)            // fds in the epoll set, that is, index() == kAdded

  // `Connected` stands for kConnected and kDisconnecting.
  datatype State = Connecting | Connected | Disconnected

  // `kept` counts the shared pointers that timers and user code hold, and `calling` those through which a
  // thread is in send, shutdown or forceClose, between the check of the state and the push.
  datatype Conn = Conn(loop: LoopId, fd: Fd, state: State, kept: nat, calling: nat)

  // Shared pointers outside the library
  function Others(k: Conn): nat {
    k.kept + k.calling
  }

  datatype Server = Server(
    base: LoopId,
    loops: map<LoopId, Loop>,
    conns: seq<Conn>,       // every connection ever accepted
    table: set<ConnId>,     // connections_
    sockets: map<Fd, ConnId>,  // open sockets; ~TcpConnection closes
    fault: bool,
    dangling: bool)

  function Count(q: seq<Task>, t: Task): nat {
    if q == [] then 0 else Count(q[..|q| - 1], t) + if q[|q| - 1] == t then 1 else 0
  }

  // How often a loop still has to run a functor
  function Owes(l: Loop, t: Task): nat {
    Count(l.pending, t) + if l.place.Draining? then Count(l.place.rest, t) else 0
  }

  predicate WellFormed(s: Server) {
    && s.base in s.loops
    && forall c :: 0 <= c < |s.conns| ==> s.conns[c].loop in s.loops
  }

  function LoopOf(s: Server, c: ConnId): Loop
    requires WellFormed(s) && c < |s.conns|
  {
    s.loops[s.conns[c].loop]
  }

  predicate Registered(s: Server, c: ConnId)
    requires WellFormed(s) && c < |s.conns|
  {
    s.conns[c].fd in LoopOf(s, c).channels && LoopOf(s, c).channels[s.conns[c].fd] == c
  }

  predicate Watched(s: Server, c: ConnId)
    requires WellFormed(s) && c < |s.conns|
  {
    s.conns[c].fd in LoopOf(s, c).watched
  }

  predicate IsOpen(s: Server, c: ConnId)
    requires c < |s.conns|
  {
    s.conns[c].fd in s.sockets && s.sockets[s.conns[c].fd] == c
  }

  // The library holds a shared pointer to the connection in the map or in a functor that has yet to run.
  predicate Owned(s: Server, c: ConnId)
    requires WellFormed(s) && c < |s.conns|
  {
    || c in s.table || Owes(LoopOf(s, c), Establish(c)) > 0
    || Owes(s.loops[s.base], Remove(c)) > 0 || Owes(LoopOf(s, c), Destroy(c)) > 0
  }

  // Functors bound to a shared pointer to the connection
  predicate Binds(q: seq<Task>, c: ConnId) {
    Establish(c) in q || Remove(c) in q || Destroy(c) in q
  }

  // A functor that has run still holds the connection, because its batch is not over.
  predicate InBatch(x: Loop, c: ConnId) {
    x.place.Draining? && Binds(x.place.done, c)
  }

  predicate Spent(s: Server, c: ConnId)
    requires WellFormed(s) && c < |s.conns|
  {
    InBatch(LoopOf(s, c), c) || InBatch(s.loops[s.base], c)
  }

  // Somebody holds a shared pointer to the connection.
  predicate Held(s: Server, c: ConnId)
    requires WellFormed(s) && c < |s.conns|
  {
    Owned(s, c) || Spent(s, c) || Others(s.conns[c]) > 0
  }

  function SetLoop(s: Server, l: LoopId, x: Loop): Server {
    s.(loops := s.loops[l := x])
  }

  function Push(s: Server, l: LoopId, t: Task): Server
    requires l in s.loops
  {
    SetLoop(s, l, s.loops[l].(pending := s.loops[l].pending + [t]))
  }

  function SetState(s: Server, c: ConnId, state: State): Server
    requires c < |s.conns|
  {
    s.(conns := s.conns[c := s.conns[c].(state := state)])
  }

  function SetHolders(s: Server, c: ConnId, kept: nat, calling: nat): Server
    requires c < |s.conns|
  {
    s.(conns := s.conns[c := s.conns[c].(kept := kept, calling := calling)])
  }

  // TcpConnection::connectEstablished: enableReading on a new channel
  function Established(s: Server, c: ConnId): Server
    requires WellFormed(s) && c < |s.conns|
  {
    var k, x := s.conns[c], LoopOf(s, c);
    SetLoop(SetState(s, c, Connected), k.loop,
            x.(channels := x.channels[k.fd := c], watched := x.watched + {k.fd}))
      .(fault := s.fault || k.fd in x.channels || k.fd in x.watched)
  }

  // Channel::disableAll: EPOLL_CTL_DEL on an added channel, EPOLL_CTL_ADD on a deleted one
  function DisableAll(x: Loop, fd: Fd): Loop {
    x.(watched := if fd in x.watched then x.watched - {fd} else x.watched + {fd})
  }

  // TcpServer::removeConnectionInLoop
  function Removed(s: Server, c: ConnId): Server
    requires WellFormed(s) && c < |s.conns|
  {
    Push(s, s.conns[c].loop, Destroy(c)).(table := s.table - {c}, fault := s.fault || c !in s.table)
  }

  // TcpConnection::handleClose and, through the close callback, TcpServer::removeConnection
  function Closed(s: Server, c: ConnId): Server
    requires WellFormed(s) && c < |s.conns|
  {
    var k := s.conns[c];
    var t := SetLoop(SetState(s, c, Disconnected), k.loop, DisableAll(LoopOf(s, c), k.fd));
    if k.loop == s.base then Removed(t, c) else Push(t, s.base, Remove(c))
  }

  // TcpConnection::connectDestroyed and EventLoop::removeChannel
  function Destroyed(s: Server, c: ConnId): Server
    requires WellFormed(s) && c < |s.conns|
  {
    var k, x := s.conns[c], LoopOf(s, c);
    if x.current == Handling(c) then s.(fault := true)
    else SetLoop(if k.state == Connected then SetState(s, c, Disconnected) else s,
                 k.loop, x.(channels := x.channels - {k.fd}, watched := x.watched - {k.fd}))
  }

  // Dropping a shared pointer; the last one destroys the connection and so closes its socket.
  function Dropped(s: Server, c: ConnId): Server
    requires WellFormed(s) && c < |s.conns|
  {
    if Held(s, c) || !IsOpen(s, c) then s else s.(sockets := s.sockets - {s.conns[c].fd})
  }

  function Performed(s: Server, t: Task): Server
    requires WellFormed(s) && t.c < |s.conns|
  {
    match t
    case Establish(c) => Established(s, c)
    case Remove(c) => Removed(s, c)
    case Destroy(c) => Destroyed(s, c)
    case Raw(c) => s.(dangling := s.dangling || !Held(s, c))
  }

  predicate Known(q: seq<Task>, n: nat) {
    forall i :: 0 <= i < |q| ==> q[i].c < n
  }

  // The end of the local vector: its functors drop their pointers, one after the other.
  function DroppedAll(s: Server, q: seq<Task>): (r: Server)
    requires WellFormed(s) && Known(q, |s.conns|)
    ensures r == s.(sockets := r.sockets)
    decreases |q|
  {
    if q == [] then s else DroppedAll(if q[0].Raw? then s else Dropped(s, q[0].c), q[1..])
  }

  datatype Step =
    | Accept(fd: Fd, l: LoopId)                    // TcpServer::newConnection
    | PollReturns(l: LoopId, active: seq<ConnId>)
    | Handle(l: LoopId)                            // the next channel of activeChannels_
    | Handled(l: LoopId)
    | Close(c: ConnId)
    | Keep(c: ConnId)                              // a timer or user code copies a shared pointer
    | Release(c: ConnId)
    | Check(c: ConnId)                             // send, shutdown or forceClose on another thread: the
    | CallLater(c: ConnId)                         //   test of the state, and later the push
    | EndDispatch(l: LoopId)
    | Perform(l: LoopId)                           // the next functor of the swapped batch
    | EndDrain(l: LoopId)

  // accept returns an fd that no live socket uses; epoll reports watched channels only; handleClose
  // runs on the connection's loop, from its channel's event or, if it is still open, from forceCloseInLoop;
  // a shared pointer is copied from another one, and a method is called through a shared pointer.
  predicate Enabled(s: Server, step: Step)
    requires WellFormed(s)
  {
    match step
    case Accept(fd, l) =>
      && l in s.loops && s.loops[s.base].place.Dispatching? && s.loops[s.base].current == Nobody
      && fd !in s.sockets
    case PollReturns(l, active) =>
      && l in s.loops && s.loops[l].place == Polling
      && forall c :: c in active ==> c < |s.conns| && s.conns[c].loop == l && Registered(s, c) && Watched(s, c)
    case Handle(l) =>
      && l in s.loops && s.loops[l].place.Dispatching? && s.loops[l].place.active != []
      && s.loops[l].current == Nobody
    case Handled(l) => l in s.loops && s.loops[l].current != Nobody
    case Close(c) =>
      && c < |s.conns| && LoopOf(s, c).place != Polling
      && (s.conns[c].state == Connected || LoopOf(s, c).current == Handling(c))
    case Keep(c) => c < |s.conns| && Held(s, c)
    case Release(c) => c < |s.conns| && s.conns[c].kept > 0
    case Check(c) => c < |s.conns| && s.conns[c].kept > 0 && s.conns[c].state == Connected
    case CallLater(c) => c < |s.conns| && s.conns[c].calling > 0
    case EndDispatch(l) => l in s.loops && s.loops[l].place == Dispatching([]) && s.loops[l].current == Nobody
    case Perform(l) =>
      && l in s.loops && s.loops[l].place.Draining? && s.loops[l].place.rest != []
      && s.loops[l].place.rest[0].c < |s.conns|
    case EndDrain(l) =>
      && l in s.loops && s.loops[l].place.Draining? && s.loops[l].place.rest == []
      && Known(s.loops[l].place.done, |s.conns|)
  }

  // The next functor of the batch is called.
  function Popped(x: Loop): Loop
    requires x.place.Draining? && x.place.rest != []
  {
    x.(place := Draining(x.place.done + [x.place.rest[0]], x.place.rest[1..]))
  }

  // The new connection in the server's map
  function Listed(s: Server, fd: Fd, l: LoopId): Server {
    var c := |s.conns|;
    s.(conns := s.conns + [Conn(l, fd, Connecting, 0, 0)], table := s.table + {c}, sockets := s.sockets[fd := c])
  }

  function Accepted(s: Server, fd: Fd, l: LoopId): Server
    requires WellFormed(s) && l in s.loops
  {
    var c := |s.conns|;
    var t := Listed(s, fd, l);
    if l == s.base then Established(t, c) else Push(t, l, Establish(c))
  }

  function Checked(s: Server, c: ConnId): Server
    requires c < |s.conns| && s.conns[c].kept > 0
  {
    SetHolders(s, c, s.conns[c].kept - 1, s.conns[c].calling + 1)
  }

  function Called(s: Server, c: ConnId): Server
    requires c < |s.conns| && s.conns[c].calling > 0 && s.conns[c].loop in s.loops
  {
    Push(SetHolders(s, c, s.conns[c].kept + 1, s.conns[c].calling - 1), s.conns[c].loop, Raw(c))
  }

  function Next(s: Server, step: Step): Server
    requires WellFormed(s) && Enabled(s, step)
  {
    match step
    case Accept(fd, l) => Accepted(s, fd, l)
    case PollReturns(l, active) => SetLoop(s, l, s.loops[l].(place := Dispatching(active)))
    case Handle(l) =>
      var x := s.loops[l];
      var c := x.place.active[0];
      SetLoop(s, l, x.(place := Dispatching(x.place.active[1..]), current := Handling(c)))
        .(fault := s.fault || c >= |s.conns| || !Held(s, c))
    case Handled(l) => SetLoop(s, l, s.loops[l].(current := Nobody))
    case Close(c) => Closed(s, c)
    case Keep(c) => SetHolders(s, c, s.conns[c].kept + 1, s.conns[c].calling)
    case Release(c) => Dropped(SetHolders(s, c, s.conns[c].kept - 1, s.conns[c].calling), c)
    case Check(c) => Checked(s, c)
    case CallLater(c) => Called(s, c)
    case EndDispatch(l) => SetLoop(s, l, s.loops[l].(place := Draining([], s.loops[l].pending), pending := []))
    case Perform(l) => Performed(SetLoop(s, l, Popped(s.loops[l])), s.loops[l].place.rest[0])
    case EndDrain(l) => DroppedAll(SetLoop(s, l, s.loops[l].(place := Polling)), s.loops[l].place.done)
  }
}
