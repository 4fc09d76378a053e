/** Runs from an idle server that do what one might hope is impossible. */
module ConnectionRuns {
  import opened ConnectionModel
  import opened ConnectionProofs
  import opened ConnectionTheorems
  import opened ConnectionClosing

  lemma Take(s: Server, steps: seq<Step>, r: Server, step: Step) returns (more: seq<Step>, q: Server)
    requires ValidRun(s, steps) && Run(s, steps) == r && WellFormed(r) && Enabled(r, step)
    ensures more == steps + [step] && q == Next(r, step)
    ensures ValidRun(s, more) && Run(s, more) == q
    ensures ClosesOnce(s, more) <==> ClosesOnce(s, steps) && Once(r, step)
  {
    RunSnoc(s, steps, step);
    more, q := steps + [step], Next(r, step);
  }

  // A server with one connection, on the base loop
  function One(s: Server, k: Conn, listed: bool, open: bool, x: Loop): Server {
    s.(conns := [k], table := if listed then {0} else {}, sockets := if open then map[k.fd := 0] else map[],
       loops := s.loops[s.base := x])
  }

  lemma OneLoop(s: Server, k: Conn, listed: bool, open: bool, x: Loop, y: Loop)
    ensures SetLoop(One(s, k, listed, open, x), s.base, y) == One(s, k, listed, open, y)
  {
    assert s.loops[s.base := x][s.base := y] == s.loops[s.base := y];
  }

  lemma OneConn(s: Server, k: Conn, listed: bool, open: bool, x: Loop)
    ensures var r := One(s, k, listed, open, x);
      && (forall st :: SetState(r, 0, st) == One(s, k.(state := st), listed, open, x))
      && (forall n: nat, m: nat :: SetHolders(r, 0, n, m) == One(s, k.(kept := n, calling := m), listed, open, x))
  {
    assert forall j :: [k][0 := j] == [j];
  }

  // The loop of the connection, with its channel watched, and with nothing to do
  function At(place: Place, fd: Fd): Loop {
    Loop([], place, Nobody, map[fd := 0], {fd})
  }

  // The same loop when the connection is closed and its channel is still registered
  function Shut(pending: seq<Task>, place: Place, current: Current, fd: Fd): Loop {
    Loop(pending, place, current, map[fd := 0], {})
  }

  // The loop when the channel is gone
  function Bare(pending: seq<Task>, place: Place): Loop {
    Loop(pending, place, Nobody, map[], {})
  }

  lemma OneAccepted(s: Server, fd: Fd)
    requires Initial(s)
    ensures Enabled(s, PollReturns(s.base, []))
    ensures var r := Next(s, PollReturns(s.base, []));
      && WellFormed(r) && Enabled(r, Accept(fd, s.base))
      && Next(r, Accept(fd, s.base)) ==
           One(s, Conn(s.base, fd, Connected, 0, 0), true, true, At(Dispatching([]), fd))
  {
    var b := s.base;
    var x := Bare([], Dispatching([]));
    var r := Next(s, PollReturns(b, []));
    var k := Conn(b, fd, Connecting, 0, 0);
    assert Listed(r, fd, b) == One(s, k, true, true, x);
    OneConn(s, k, true, true, x);
    OneLoop(s, k.(state := Connected), true, true, x, At(Dispatching([]), fd));
    assert map[][fd := 0] == map[fd := 0] && {} + {fd} == {fd};
  }

  lemma OnePolled(s: Server, k: Conn)
    requires Initial(s) && k.loop == s.base
    ensures var r := One(s, k, true, true, At(Polling, k.fd));
      && WellFormed(r) && Enabled(r, PollReturns(s.base, [0]))
      && Next(r, PollReturns(s.base, [0])) == One(s, k, true, true, At(Dispatching([0]), k.fd))
  {
    OneLoop(s, k, true, true, At(Polling, k.fd), At(Dispatching([0]), k.fd));
  }

  // handleClose, from the connection's own event or from a timer's
  lemma OneClosed(s: Server, k: Conn, active: seq<ConnId>, current: Current)
    requires Initial(s) && k.loop == s.base && k.state == Connected
    ensures var r := One(s, k, true, true, At(Dispatching(active), k.fd).(current := current));
      && WellFormed(r) && Enabled(r, Close(0))
      && Next(r, Close(0)) ==
           One(s, k.(state := Disconnected), false, true, Shut([Destroy(0)], Dispatching(active), current, k.fd))
  {
    var d := k.(state := Disconnected);
    var x := At(Dispatching(active), k.fd).(current := current);
    OneConn(s, k, true, true, x);
    OneLoop(s, d, true, true, x, Shut([], Dispatching(active), current, k.fd));
    assert {k.fd} - {k.fd} == {};
    OneLoop(s, d, true, true, Shut([], Dispatching(active), current, k.fd),
            Shut([Destroy(0)], Dispatching(active), current, k.fd));
    assert [] + [Destroy(0)] == [Destroy(0)] && {0} - {0} == {};
  }

  lemma OneTurn(s: Server, k: Conn, listed: bool, open: bool, x: Loop)
    requires Initial(s) && k.loop == s.base && x.place == Dispatching([]) && x.current == Nobody
    ensures var r := One(s, k, listed, open, x);
      && WellFormed(r) && Enabled(r, EndDispatch(s.base))
      && Next(r, EndDispatch(s.base)) == One(s, k, listed, open, x.(place := Draining([], x.pending), pending := []))
  {
    OneLoop(s, k, listed, open, x, x.(place := Draining([], x.pending), pending := []));
  }

  lemma OneDestroyed(s: Server, k: Conn, pending: seq<Task>)
    requires Initial(s) && k.loop == s.base && k.state == Disconnected
    ensures var r := One(s, k, false, true, Shut(pending, Draining([], [Destroy(0)]), Nobody, k.fd));
      && WellFormed(r) && Enabled(r, Perform(s.base))
      && Next(r, Perform(s.base)) == One(s, k, false, true, Bare(pending, Draining([Destroy(0)], [])))
  {
    var x := Shut(pending, Draining([], [Destroy(0)]), Nobody, k.fd);
    assert [] + [Destroy(0)] == [Destroy(0)] && [Destroy(0)][1..] == [];
    OneLoop(s, k, false, true, x, Popped(x));
    assert map[k.fd := 0] - {k.fd} == map[] && {} - {k.fd} == {};
    OneLoop(s, k, false, true, Popped(x), Bare(pending, Draining([Destroy(0)], [])));
  }

  // The end of the batch of the Destroy functor
  lemma OneEnded(s: Server, k: Conn, pending: seq<Task>)
    requires Initial(s) && k.loop == s.base && (pending == [] || pending == [Raw(0)])
    ensures var r := One(s, k, false, true, Bare(pending, Draining([Destroy(0)], [])));
      && WellFormed(r) && Enabled(r, EndDrain(s.base))
      && Next(r, EndDrain(s.base)) == One(s, k, false, Others(k) > 0, Bare(pending, Polling))
  {
    var x := Bare(pending, Draining([Destroy(0)], []));
    var m := One(s, k, false, true, Bare(pending, Polling));
    OneLoop(s, k, false, true, x, Bare(pending, Polling));
    assert [Destroy(0)][1..] == [];
    assert DroppedAll(m, [Destroy(0)]) == DroppedAll(Dropped(m, 0), []);
    assert forall t :: Count([], t) == 0;
    assert [Raw(0)][..0] == [];
    assert Held(m, 0) <==> Others(k) > 0;
    assert map[k.fd := 0] - {k.fd} == map[];
  }

  // Accepting it takes a turn of the loop.
  lemma Accepts(s: Server, fd: Fd) returns (steps: seq<Step>, r: Server)
    requires Initial(s)
    ensures ValidRun(s, steps) && ClosesOnce(s, steps) && Run(s, steps) == r
    ensures r == One(s, Conn(s.base, fd, Connected, 0, 0), true, true, At(Polling, fd))
  {
    var b := s.base;
    var k := Conn(b, fd, Connected, 0, 0);
    OneAccepted(s, fd);
    steps, r := Take(s, [], s, PollReturns(b, []));
    steps, r := Take(s, steps, r, Accept(fd, b));
    OneTurn(s, k, true, true, At(Dispatching([]), fd));
    steps, r := Take(s, steps, r, EndDispatch(b));
    OneLoop(s, k, true, true, At(Draining([], []), fd), At(Polling, fd));
    steps, r := Take(s, steps, r, EndDrain(b));
  }

  // Its channel reports an event, and handleClose runs.
  lemma Closes(s: Server, before: seq<Step>, k: Conn) returns (steps: seq<Step>, r: Server)
    requires Initial(s) && k.loop == s.base && k.state == Connected && ValidRun(s, before) && ClosesOnce(s, before)
    requires Run(s, before) == One(s, k, true, true, At(Polling, k.fd))
    ensures ValidRun(s, steps) && ClosesOnce(s, steps) && Run(s, steps) == r
    ensures r == One(s, k.(state := Disconnected), false, true,
                     Shut([Destroy(0)], Dispatching([]), Handling(0), k.fd))
  {
    OnePolled(s, k);
    steps, r := Take(s, before, Run(s, before), PollReturns(s.base, [0]));
    assert [0][1..] == [];
    OneLoop(s, k, true, true, At(Dispatching([0]), k.fd), At(Dispatching([]), k.fd).(current := Handling(0)));
    steps, r := Take(s, steps, r, Handle(s.base));
    OneClosed(s, k, [], Handling(0));
    steps, r := Take(s, steps, r, Close(0));
  }

  // The poll collects an end of file together with an idle timeout.  The timer's forceClose closes the
  // connection, and then the event that was already collected closes it again.
  lemma TimesOut(s: Server, fd: Fd) returns (steps: seq<Step>, r: Server)
    requires Initial(s)
    ensures ValidRun(s, steps) && ClosesOnce(s, steps) && Run(s, steps) == r
    ensures r == One(s, Conn(s.base, fd, Disconnected, 0, 0), false, true,
                     Shut([Destroy(0)], Dispatching([]), Handling(0), fd))
  {
    var k := Conn(s.base, fd, Connected, 0, 0);
    steps, r := Accepts(s, fd);
    OnePolled(s, k);
    steps, r := Take(s, steps, r, PollReturns(s.base, [0]));
    OneClosed(s, k, [0], Nobody);
    steps, r := Take(s, steps, r, Close(0));
    assert [0][1..] == [];
    OneLoop(s, k.(state := Disconnected), false, true, Shut([Destroy(0)], Dispatching([0]), Nobody, fd),
            Shut([Destroy(0)], Dispatching([]), Handling(0), fd));
    OneAlive(s, k.(state := Disconnected), Shut([Destroy(0)], Dispatching([0]), Nobody, fd));
    steps, r := Take(s, steps, r, Handle(s.base));
  }

  lemma OneAlive(s: Server, k: Conn, x: Loop)
    requires Initial(s) && k.loop == s.base && x.pending == [Destroy(0)]
    ensures var r := One(s, k, false, true, x); WellFormed(r) && Held(r, 0)
  {
    assert [Destroy(0)][..0] == [];
    assert Owes(x, Destroy(0)) > 0;
  }

  // The channel is watched again, and an assertion fails.
  lemma SecondCloseHappens(s: Server, fd: Fd) returns (steps: seq<Step>, r: Server)
    requires Initial(s)
    ensures ValidRun(s, steps) && !ClosesOnce(s, steps) && Run(s, steps) == r
    ensures WellFormed(r) && |r.conns| == 1 && r.fault && Registered(r, 0) && Watched(r, 0)
  {
    steps, r := TimesOut(s, fd);
    InitialInv(s);
    InvRun(s, steps);
    ClosedTwice(r, 0);
    steps, r := Take(s, steps, r, Close(0));
  }

  // ---------- a timer outlives the close ----------

  // handleRead arms the idle timer after the message callback, also if that closed the connection.
  lemma ClosesAndKeeps(s: Server, fd: Fd) returns (steps: seq<Step>, r: Server)
    requires Initial(s)
    ensures ValidRun(s, steps) && ClosesOnce(s, steps) && Run(s, steps) == r
    ensures r == One(s, Conn(s.base, fd, Disconnected, 1, 0), false, true,
                     Shut([Destroy(0)], Dispatching([]), Nobody, fd))
  {
    var k := Conn(s.base, fd, Disconnected, 1, 0);
    var x := Shut([Destroy(0)], Dispatching([]), Handling(0), fd);
    steps, r := Accepts(s, fd);
    steps, r := Closes(s, steps, Conn(s.base, fd, Connected, 0, 0));
    OneConn(s, k.(kept := 0), false, true, x);
    OneAlive(s, k.(kept := 0), x);
    steps, r := Take(s, steps, r, Keep(0));
    OneLoop(s, k, false, true, x, x.(current := Nobody));
    steps, r := Take(s, steps, r, Handled(s.base));
  }

  lemma OneKept(s: Server, fd: Fd)
    requires Initial(s)
    ensures var r := One(s, Conn(s.base, fd, Disconnected, 1, 0), false, true, Bare([], Polling));
      && WellFormed(r) && Idle(r) && !Owned(r, 0) && !Registered(r, 0) && IsOpen(r, 0)
      && Enabled(r, Release(0)) && !IsOpen(Next(r, Release(0)), 0)
  {
    OneConn(s, Conn(s.base, fd, Disconnected, 1, 0), false, true, Bare([], Polling));
  }

  // No functor is left and no batch is running.
  ghost predicate Idle(r: Server) {
    Drained(r) && forall l :: l in r.loops ==> !r.loops[l].place.Draining?
  }

  // The timer then keeps the connection, and its socket, when every functor has run and every batch is
  // over; letting go closes it.
  lemma TimerKeepsSocketOpen(s: Server, fd: Fd) returns (steps: seq<Step>, r: Server)
    requires Initial(s)
    ensures ValidRun(s, steps) && ClosesOnce(s, steps) && Run(s, steps) == r
    ensures WellFormed(r) && |r.conns| == 1 && Idle(r) && !Owned(r, 0) && !Registered(r, 0) && IsOpen(r, 0)
    ensures Enabled(r, Release(0)) && !IsOpen(Next(r, Release(0)), 0)
  {
    var k := Conn(s.base, fd, Disconnected, 1, 0);
    steps, r := ClosesAndKeeps(s, fd);
    OneTurn(s, k, false, true, Shut([Destroy(0)], Dispatching([]), Nobody, fd));
    steps, r := Take(s, steps, r, EndDispatch(s.base));
    OneDestroyed(s, k, []);
    steps, r := Take(s, steps, r, Perform(s.base));
    OneEnded(s, k, []);
    steps, r := Take(s, steps, r, EndDrain(s.base));
    OneKept(s, fd);
  }

  // ---------- a call that comes too late ----------

  lemma OneCalled(s: Server, k: Conn)
    requires Initial(s) && k.loop == s.base && k.kept == 0 && k.calling == 1
    ensures var x := Shut([], Draining([], [Destroy(0)]), Nobody, k.fd);
      var r := One(s, k, false, true, x);
      && WellFormed(r) && Enabled(r, CallLater(0))
      && var m := Next(r, CallLater(0));
      && WellFormed(m) && Enabled(m, Release(0))
      && Next(m, Release(0)) == One(s, k.(calling := 0), false, true, x.(pending := [Raw(0)]))
  {
    var x := Shut([], Draining([], [Destroy(0)]), Nobody, k.fd);
    var y := x.(pending := [Raw(0)]);
    assert [] + [Raw(0)] == [Raw(0)];
    OneConn(s, k, false, true, x);
    OneLoop(s, k.(kept := 1, calling := 0), false, true, x, y);
    OneConn(s, k.(kept := 1, calling := 0), false, true, y);
    var q := One(s, k.(calling := 0), false, true, y);
    assert [Destroy(0)][..0] == [];
    assert Owes(y, Destroy(0)) > 0;
    assert Held(q, 0);
  }

  lemma OneDangles(s: Server, k: Conn)
    requires Initial(s) && k.loop == s.base && Others(k) == 0
    ensures var r := One(s, k, false, false, Bare([], Draining([], [Raw(0)])));
      WellFormed(r) && Enabled(r, Perform(s.base)) && Next(r, Perform(s.base)).dangling
  {
    var x := Bare([], Draining([], [Raw(0)]));
    assert [] + [Raw(0)] == [Raw(0)] && [Raw(0)][1..] == [];
    OneLoop(s, k, false, false, x, Popped(x));
    assert !Held(One(s, k, false, false, Popped(x)), 0);
  }

  // A thread checks the state and is held up until the connection is closed.
  lemma ChecksThenCloses(s: Server, fd: Fd) returns (steps: seq<Step>, r: Server)
    requires Initial(s)
    ensures ValidRun(s, steps) && ClosesOnce(s, steps) && Run(s, steps) == r
    ensures r == One(s, Conn(s.base, fd, Disconnected, 0, 1), false, true,
                     Shut([Destroy(0)], Dispatching([]), Nobody, fd))
  {
    var k := Conn(s.base, fd, Connected, 0, 0);
    steps, r := Accepts(s, fd);
    OneConn(s, k, true, true, At(Polling, fd));
    steps, r := Take(s, steps, r, Keep(0));
    OneConn(s, k.(kept := 1), true, true, At(Polling, fd));
    steps, r := Take(s, steps, r, Check(0));
    steps, r := Closes(s, steps, k.(calling := 1));
    var x := Shut([Destroy(0)], Dispatching([]), Handling(0), fd);
    OneLoop(s, Conn(s.base, fd, Disconnected, 0, 1), false, true, x, x.(current := Nobody));
    steps, r := Take(s, steps, r, Handled(s.base));
  }

  // It queues its call after the swap that took the Destroy functor and lets go.  The batch ends, and
  // nobody holds the connection any more.
  lemma CallsAndReleases(s: Server, fd: Fd) returns (steps: seq<Step>, r: Server)
    requires Initial(s)
    ensures ValidRun(s, steps) && ClosesOnce(s, steps) && Run(s, steps) == r
    ensures r == One(s, Conn(s.base, fd, Disconnected, 0, 0), false, false, Bare([Raw(0)], Polling))
  {
    hide Next, Enabled, WellFormed, One;
    var k := Conn(s.base, fd, Disconnected, 0, 1);
    steps, r := ChecksThenCloses(s, fd);
    OneTurn(s, k, false, true, Shut([Destroy(0)], Dispatching([]), Nobody, fd));
    steps, r := Take(s, steps, r, EndDispatch(s.base));
    OneCalled(s, k);
    steps, r := Take(s, steps, r, CallLater(0));
    steps, r := Take(s, steps, r, Release(0));
    OneDestroyed(s, k.(calling := 0), [Raw(0)]);
    steps, r := Take(s, steps, r, Perform(s.base));
    OneEnded(s, k.(calling := 0), [Raw(0)]);
    steps, r := Take(s, steps, r, EndDrain(s.base));
  }

  lemma OneNextTurn(s: Server, k: Conn)
    requires Initial(s) && k.loop == s.base
    ensures var r := One(s, k, false, false, Bare([Raw(0)], Polling));
      && WellFormed(r) && Enabled(r, PollReturns(s.base, []))
      && Next(r, PollReturns(s.base, [])) == One(s, k, false, false, Bare([Raw(0)], Dispatching([])))
  {
    OneLoop(s, k, false, false, Bare([Raw(0)], Polling), Bare([Raw(0)], Dispatching([])));
  }

  // In the next turn the call runs on a freed connection.
  lemma CallComesTooLate(s: Server, fd: Fd) returns (steps: seq<Step>, r: Server)
    requires Initial(s)
    ensures ValidRun(s, steps) && ClosesOnce(s, steps) && Run(s, steps) == r && r.dangling
  {
    hide Next, Enabled, WellFormed, One;
    var k := Conn(s.base, fd, Disconnected, 0, 0);
    steps, r := CallsAndReleases(s, fd);
    OneNextTurn(s, k);
    steps, r := Take(s, steps, r, PollReturns(s.base, []));
    OneTurn(s, k, false, false, Bare([Raw(0)], Dispatching([])));
    steps, r := Take(s, steps, r, EndDispatch(s.base));
    OneDangles(s, k);
    steps, r := Take(s, steps, r, Perform(s.base));
  }
}
