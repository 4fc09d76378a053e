/** What a run leaves of a connection's loop, descriptor, state and holders, read off the sequence of its steps. */
module ConnectionHistory {
  import opened ConnectionModel
  import opened ConnectionProofs
  import opened ConnectionTheorems

  // ---------- one step ----------

  // The next functor of the loop's batch is `t`.
  predicate Performs(s: Server, step: Step, t: Task)
    requires WellFormed(s) && Enabled(s, step)
  {
    step.Perform? && s.loops[step.l].place.rest[0] == t
  }

  // A connection keeps its loop and its descriptor, and its holders come and go one by one.
  predicate HoldersMove(k: Conn, k': Conn, step: Step, c: ConnId) {
    && k'.loop == k.loop && k'.fd == k.fd
    && k'.kept + (if step == Release(c) || step == Check(c) then 1 else 0)
       == k.kept + (if step == Keep(c) || step == CallLater(c) then 1 else 0)
    && k'.calling + (if step == CallLater(c) then 1 else 0) == k.calling + (if step == Check(c) then 1 else 0)
  }

  lemma PerformedConn(s: Server, t: Task, c: ConnId)
    requires WellFormed(s) && t.c < |s.conns| && c < |s.conns|
    ensures var r := Performed(s, t);
      && |r.conns| == |s.conns| && r.conns[c] == s.conns[c].(state := r.conns[c].state)
      && (t == Establish(c) ==> r.conns[c].state == Connected)
      && (t != Establish(c) && s.conns[c].state == Disconnected ==> r.conns[c].state == Disconnected)
      && (t == Destroy(c) && LoopOf(s, c).current != Handling(c) && s.conns[c].state == Connected ==>
            r.conns[c].state == Disconnected)
      && (!t.Establish? && !t.Destroy? ==> r.conns == s.conns)
      && (t.c != c ==> r.conns[c] == s.conns[c])
  {
  }

  lemma ClosedConn(s: Server, d: ConnId)
    requires WellFormed(s) && d < |s.conns|
    ensures Closed(s, d).conns == s.conns[d := s.conns[d].(state := Disconnected)]
  {
  }

  lemma AcceptedConn(s: Server, fd: Fd, l: LoopId)
    requires WellFormed(s) && l in s.loops
    ensures Accepted(s, fd, l).conns ==
      s.conns + [Conn(l, fd, if l == s.base then Connected else Connecting, 0, 0)]
  {
  }

  lemma DroppedConn(s: Server, c: ConnId)
    requires WellFormed(s) && c < |s.conns|
    ensures Dropped(s, c).conns == s.conns
  {
  }

  lemma PerformConn(s: Server, l: LoopId, c: ConnId)
    requires WellFormed(s) && Enabled(s, Perform(l)) && c < |s.conns|
    ensures var r := Next(s, Perform(l)); c < |r.conns| && r.conns[c] == s.conns[c].(state := r.conns[c].state)
  {
    hide Performed;
    PerformedConn(SetLoop(s, l, Popped(s.loops[l])), s.loops[l].place.rest[0], c);
  }

  lemma HoldersStep(s: Server, step: Step, c: ConnId)
    requires WellFormed(s) && Enabled(s, step) && c < |s.conns|
    ensures var r := Next(s, step);
      c < |r.conns| && HoldersMove(s.conns[c], r.conns[c], step, c)
  {
    hide Held, Registered, Watched, Dropped, Performed, Accepted, Closed, DroppedAll;
    match step {
      case Accept(fd, l) => AcceptedConn(s, fd, l);
      case Perform(l) => PerformConn(s, l, c);
      case Close(d) => ClosedConn(s, d);
      case Release(_) => HolderConn(s, step, c);
      case Keep(_) => HolderConn(s, step, c);
      case Check(_) => HolderConn(s, step, c);
      case CallLater(_) => HolderConn(s, step, c);
      case _ =>
    }
  }

  lemma HolderConn(s: Server, step: Step, c: ConnId)
    requires WellFormed(s) && Enabled(s, step) && c < |s.conns|
    requires step.Keep? || step.Release? || step.Check? || step.CallLater?
    ensures var r := Next(s, step);
      c < |r.conns| && HoldersMove(s.conns[c], r.conns[c], step, c)
  {
    hide Held, Dropped;
    if step.Release? {
      DroppedConn(SetHolders(s, step.c, s.conns[step.c].kept - 1, s.conns[step.c].calling), step.c);
    }
  }

  // With every handleClose on a connected connection, a connection is disconnected by its handleClose alone.
  lemma StateStep(s: Server, step: Step, c: ConnId)
    requires Inv(s) && Enabled(s, step) && c < |s.conns|
    ensures var r := Next(s, step);
      && c < |r.conns|
      && r.conns[c].state ==
           if step == Close(c) then Disconnected
           else if Performs(s, step, Establish(c)) then Connected
           else s.conns[c].state
    ensures Performs(s, step, Establish(c)) ==> s.conns[c].state == Connecting
  {
    assert WellFormed(s);
    hide Inv, Held, Registered, Watched, Dropped, Performed, Accepted, Closed, DroppedAll;
    match step {
      case Accept(fd, l) => AcceptedConn(s, fd, l);
      case Perform(l) => PerformedState(s, l, c);
      case Close(d) => ClosedConn(s, d);
      case _ => OtherState(s, step, c);
    }
  }

  lemma OtherState(s: Server, step: Step, c: ConnId)
    requires WellFormed(s) && Enabled(s, step) && c < |s.conns|
    requires !step.Accept? && !step.Perform? && !step.Close?
    ensures var r := Next(s, step); c < |r.conns| && r.conns[c].state == s.conns[c].state
  {
    hide Held, Registered, Watched, Dropped;
    if step.Release? {
      DroppedConn(SetHolders(s, step.c, s.conns[step.c].kept - 1, s.conns[step.c].calling), step.c);
    }
  }

  // A functor finds its connection at the stage it was queued for.
  lemma TaskState(s: Server, l: LoopId)
    requires Inv(s) && Enabled(s, Perform(l))
    ensures var t := s.loops[l].place.rest[0];
      && (t.Establish? ==> s.conns[t.c].state == Connecting)
      && (t.Remove? || t.Destroy? ==> s.conns[t.c].state == Disconnected)
  {
    var t := s.loops[l].place.rest[0];
    PopApart(s, l);
    InvGood(s, t.c);
    var v, w := ViewOf(s, t.c), ViewOf(SetLoop(s, l, Popped(s.loops[l])), t.c);
    assert v.state == s.conns[t.c].state;
    hide Inv, Apart, ViewOf, LoopOk, WellFormed, Enabled;
    StageOf(v, w, t);
  }

  lemma StageOf(v: View, w: View, t: Task)
    requires Good(v) && v == Added(w, t).(spent := v.spent)
    ensures t.Establish? ==> v.state == Connecting
    ensures t.Remove? || t.Destroy? ==> v.state == Disconnected
  {
  }

  lemma PerformedState(s: Server, l: LoopId, c: ConnId)
    requires Inv(s) && Enabled(s, Perform(l)) && c < |s.conns|
    ensures var r := Next(s, Perform(l));
      var t := s.loops[l].place.rest[0];
      && c < |r.conns| && r.conns[c].state == (if t == Establish(c) then Connected else s.conns[c].state)
      && (t == Establish(c) ==> s.conns[c].state == Connecting)
  {
    assert WellFormed(s);
    hide Inv, Performed;
    TaskState(s, l);
    PerformedConn(SetLoop(s, l, Popped(s.loops[l])), s.loops[l].place.rest[0], c);
  }

  // ---------- runs ----------

  function Times(step: Step, steps: seq<Step>): nat {
    if steps == [] then 0 else (if steps[0] == step then 1 else 0) + Times(step, steps[1..])
  }

  // Shared pointers are conserved: those in use are the ones taken and not yet dropped, and the calls under way
  // are the ones begun and not yet pushed.
  lemma {:induction false} HoldersAreCounted(s: Server, steps: seq<Step>, c: ConnId)
    requires WellFormed(s) && ValidRun(s, steps) && c < |s.conns|
    ensures var r := Run(s, steps);
      && c < |r.conns| && r.conns[c].loop == s.conns[c].loop && r.conns[c].fd == s.conns[c].fd
      && r.conns[c].kept + r.conns[c].calling + Times(Release(c), steps)
           == s.conns[c].kept + s.conns[c].calling + Times(Keep(c), steps)
      && r.conns[c].calling + Times(CallLater(c), steps) == s.conns[c].calling + Times(Check(c), steps)
    decreases |steps|
  {
    if steps != [] {
      var m := Next(s, steps[0]);
      HoldersStep(s, steps[0], c);
      if steps[1..] != [] {
        HoldersAreCounted(m, steps[1..], c);
      }
    }
  }

  // A connection that is there is disconnected exactly once its handleClose has run.
  lemma {:induction false} DisconnectedIffClosed(s: Server, steps: seq<Step>, c: ConnId)
    requires Inv(s) && ValidRun(s, steps) && ClosesOnce(s, steps) && c < |s.conns|
    ensures var r := Run(s, steps);
      c < |r.conns| && (r.conns[c].state == Disconnected <==> s.conns[c].state == Disconnected || Close(c) in steps)
    decreases |steps|
  {
    hide Inv, Next;
    if steps != [] {
      var m := Next(s, steps[0]);
      assert Enabled(s, steps[0]) && Once(s, steps[0]) && ClosesOnce(m, steps[1..]);
      hide Enabled, Once;
      InvStep(s, steps[0]);
      StateStep(s, steps[0], c);
      assert steps == [steps[0]] + steps[1..];
      DisconnectedIffClosed(m, steps[1..], c);
    }
  }

  // The loop and the descriptor of every connection, in the order of acceptance
  function Assigned(conns: seq<Conn>): seq<(LoopId, Fd)> {
    seq(|conns|, i requires 0 <= i < |conns| => (conns[i].loop, conns[i].fd))
  }

  function Given(step: Step): seq<(LoopId, Fd)> {
    if step.Accept? then [(step.l, step.fd)] else []
  }

  function AllGiven(steps: seq<Step>): seq<(LoopId, Fd)> {
    if steps == [] then [] else Given(steps[0]) + AllGiven(steps[1..])
  }

  lemma AssignedStep(s: Server, step: Step)
    requires WellFormed(s) && Enabled(s, step)
    ensures Assigned(Next(s, step).conns) == Assigned(s.conns) + Given(step)
  {
    var r := Next(s, step);
    SizeStep(s, step);
    forall c | 0 <= c < |s.conns| ensures r.conns[c].loop == s.conns[c].loop && r.conns[c].fd == s.conns[c].fd {
      HoldersStep(s, step, c);
    }
    if step.Accept? {
      AcceptedConn(s, step.fd, step.l);
    }
  }

  lemma SizeStep(s: Server, step: Step)
    requires WellFormed(s) && Enabled(s, step)
    ensures |Next(s, step).conns| == |s.conns| + if step.Accept? then 1 else 0
  {
    hide Held, Registered, Watched, Dropped, Performed, Accepted, Closed, DroppedAll;
    match step {
      case Accept(fd, l) => AcceptedConn(s, fd, l);
      case Perform(l) =>
        var t := s.loops[l].place.rest[0];
        PerformedConn(SetLoop(s, l, Popped(s.loops[l])), t, t.c);
      case Close(d) => ClosedConn(s, d);
      case Release(d) => DroppedConn(SetHolders(s, d, s.conns[d].kept - 1, s.conns[d].calling), d);
      case _ =>
    }
  }

  // Every connection is on the loop and the descriptor that newConnection was called with.
  lemma {:induction false} ConnectionsAreAsAccepted(s: Server, steps: seq<Step>)
    requires WellFormed(s) && ValidRun(s, steps)
    ensures Assigned(Run(s, steps).conns) == Assigned(s.conns) + AllGiven(steps)
    decreases |steps|
  {
    hide Assigned, Given, Next, Enabled;
    if steps == [] {
      assert Assigned(s.conns) + [] == Assigned(s.conns);
    } else {
      AssignedStep(s, steps[0]);
      var given, later := Given(steps[0]), AllGiven(steps[1..]);
      if steps[1..] == [] {
        assert later == [] && given + [] == given;
      } else {
        ConnectionsAreAsAccepted(Next(s, steps[0]), steps[1..]);
        assert Assigned(s.conns) + given + later == Assigned(s.conns) + (given + later);
      }
    }
  }

  // ---------- assertions, refused removals and rejected epoll_ctl calls ----------

  predicate TaskFails(s: Server, t: Task)
    requires WellFormed(s) && t.c < |s.conns|
  {
    match t
    case Establish(c) => s.conns[c].fd in LoopOf(s, c).channels || s.conns[c].fd in LoopOf(s, c).watched
    case Remove(c) => c !in s.table
    case Destroy(c) => LoopOf(s, c).current == Handling(c)
    case Raw(_) => false
  }

  // What goes wrong in a step: a channel is added whose descriptor is registered, an entry is erased from the map
  // that is not there, a channel is removed while it is handled, or one is handled that belongs to nobody.
  predicate Fails(s: Server, step: Step)
    requires WellFormed(s) && Enabled(s, step)
  {
    match step
    case Accept(fd, l) => l == s.base && (fd in s.loops[l].channels || fd in s.loops[l].watched)
    case Close(c) => s.conns[c].loop == s.base && c !in s.table
    case Perform(l) => TaskFails(s, s.loops[l].place.rest[0])
    case Handle(l) => var c := s.loops[l].place.active[0]; c >= |s.conns| || !Held(s, c)
    case _ => false
  }

  lemma PerformedFaultsIff(s: Server, t: Task)
    requires WellFormed(s) && t.c < |s.conns|
    ensures Performed(s, t).fault <==> s.fault || TaskFails(s, t)
  {
    hide Held;
  }

  lemma ClosedFaultsIff(s: Server, c: ConnId)
    requires WellFormed(s) && c < |s.conns|
    ensures Closed(s, c).fault <==> s.fault || (s.conns[c].loop == s.base && c !in s.table)
  {
  }

  lemma AcceptedFaultsIff(s: Server, fd: Fd, l: LoopId)
    requires WellFormed(s) && l in s.loops
    ensures Accepted(s, fd, l).fault <==>
      s.fault || (l == s.base && (fd in s.loops[l].channels || fd in s.loops[l].watched))
  {
    var t := Listed(s, fd, l);
    assert WellFormed(t);
  }

  // The flag is raised exactly by those.
  lemma FaultsIff(s: Server, step: Step)
    requires WellFormed(s) && Enabled(s, step)
    ensures Next(s, step).fault <==> s.fault || Fails(s, step)
  {
    hide Held, Registered, Watched, Dropped, Performed, Accepted, Closed, DroppedAll;
    match step {
      case Accept(fd, l) => AcceptedFaultsIff(s, fd, l);
      case Close(c) => ClosedFaultsIff(s, c);
      case Perform(l) => PoppedFails(s, l);
      case Release(c) => DroppedFault(SetHolders(s, c, s.conns[c].kept - 1, s.conns[c].calling), c);
      case _ =>
    }
  }

  lemma PoppedFails(s: Server, l: LoopId)
    requires WellFormed(s) && Enabled(s, Perform(l))
    ensures Next(s, Perform(l)).fault <==> s.fault || TaskFails(s, s.loops[l].place.rest[0])
  {
    var t := s.loops[l].place.rest[0];
    var m := SetLoop(s, l, Popped(s.loops[l]));
    PerformedFaultsIff(m, t);
    hide Performed;
    assert TaskFails(m, t) <==> TaskFails(s, t);
  }

  lemma DroppedFault(s: Server, c: ConnId)
    requires WellFormed(s) && c < |s.conns|
    ensures Dropped(s, c).fault == s.fault
  {
  }

  // ---------- the active channels of a poll ----------

  function Dispatch(l: LoopId, n: nat): seq<Step> {
    if n == 0 then [EndDispatch(l)] else [Handle(l), Handled(l)] + Dispatch(l, n - 1)
  }

  lemma Follows(s: Server, a: Step, steps: seq<Step>)
    requires WellFormed(s) && Enabled(s, a) && ValidRun(Next(s, a), steps)
    ensures ValidRun(s, [a] + steps) && Run(s, [a] + steps) == Run(Next(s, a), steps)
  {
    assert ([a] + steps)[1..] == steps;
  }

  // Left to itself, a loop handles the active channels one after the other and then takes all functors that were
  // pending, and touches no connection.
  lemma {:induction false} DispatchComesToItsEnd(s: Server, l: LoopId, n: nat)
    requires WellFormed(s) && l in s.loops && s.loops[l].place.Dispatching? && s.loops[l].current == Nobody
    requires n == |s.loops[l].place.active|
    ensures ValidRun(s, Dispatch(l, n))
    ensures var r := Run(s, Dispatch(l, n));
      && r.conns == s.conns && r.table == s.table && r.sockets == s.sockets
      && r.loops == s.loops[l := s.loops[l].(place := Draining([], s.loops[l].pending), pending := [])]
    decreases n
  {
    hide Held;
    if n == 0 {
      assert ValidRun(Next(s, EndDispatch(l)), []);
      Follows(s, EndDispatch(l), []);
      assert [EndDispatch(l)] + [] == Dispatch(l, 0);
    } else {
      var m := Next(s, Handle(l));
      var r := Next(m, Handled(l));
      assert r.loops == s.loops[l := s.loops[l].(place := Dispatching(s.loops[l].place.active[1..]))];
      DispatchComesToItsEnd(r, l, n - 1);
      Follows(m, Handled(l), Dispatch(l, n - 1));
      Follows(s, Handle(l), [Handled(l)] + Dispatch(l, n - 1));
      assert [Handle(l)] + ([Handled(l)] + Dispatch(l, n - 1)) == Dispatch(l, n);
    }
  }
}
