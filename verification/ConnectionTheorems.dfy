/** What holds of connections in every interleaving of the loops. */
module ConnectionTheorems {
  import opened ConnectionModel
  import opened ConnectionProofs

  // handleClose finds its connection connected.
  ghost predicate Once(s: Server, step: Step)
    requires WellFormed(s)
  {
    step.Close? && step.c < |s.conns| ==> s.conns[step.c].state == Connected
  }

  lemma HandleInv(s: Server, l: LoopId)
    requires Inv(s) && Enabled(s, Handle(l))
    ensures Inv(Next(s, Handle(l)))
  {
    var x := s.loops[l];
    var c := x.place.active[0];
    assert LoopOk(x, l, s.base, s.conns) && c in x.place.active;
    assert Good(ViewOf(s, c)) && Held(s, c);
    var y := x.(place := Dispatching(x.place.active[1..]), current := Handling(c));
    assert SameWork(x, y);
    assert forall d :: d in y.place.active ==> d in x.place.active;
    MoveInv(s, l, y);
  }

  lemma PollInv(s: Server, l: LoopId, active: seq<ConnId>)
    requires Inv(s) && Enabled(s, PollReturns(l, active))
    ensures Inv(Next(s, PollReturns(l, active)))
  {
    Moves(s, l, s.loops[l].(place := Dispatching(active)));
  }

  lemma HandledInv(s: Server, l: LoopId)
    requires Inv(s) && Enabled(s, Handled(l))
    ensures Inv(Next(s, Handled(l)))
  {
    Moves(s, l, s.loops[l].(current := Nobody));
  }

  lemma EndDispatchInv(s: Server, l: LoopId)
    requires Inv(s) && Enabled(s, EndDispatch(l))
    ensures Inv(Next(s, EndDispatch(l)))
  {
    Moves(s, l, s.loops[l].(place := Draining([], s.loops[l].pending), pending := []));
  }

  lemma InvStep(s: Server, step: Step)
    requires Inv(s) && Enabled(s, step) && Once(s, step)
    ensures Inv(Next(s, step))
  {
    hide Inv;
    match step {
      case Accept(fd, l) => AcceptInv(s, fd, l);
      case Close(c) => ClosedInv(s, c);
      case Perform(l) => PerformInv(s, l);
      case Handle(l) => HandleInv(s, l);
      case PollReturns(l, active) => PollInv(s, l, active);
      case Handled(l) => HandledInv(s, l);
      case EndDispatch(l) => EndDispatchInv(s, l);
      case EndDrain(l) => EndDrainInv(s, l);
      case Keep(c) => KeepInv(s, c);
      case Release(c) => ReleaseInv(s, c);
      case Check(c) => CheckInv(s, c);
      case CallLater(c) => CalledInv(s, c);
    }
  }

  lemma Moves(s: Server, l: LoopId, y: Loop)
    requires Inv(s) && l in s.loops && SameWork(s.loops[l], y)
    requires y.channels == s.loops[l].channels && y.watched == s.loops[l].watched
    requires y.current == Nobody && (y.place.Draining? ==> Known(y.place.done, |s.conns|))
    requires y.place.Dispatching? ==> forall c :: c in y.place.active ==> Dispatchable(y, l, s.conns, c)
    ensures Inv(SetLoop(s, l, y))
  {
    assert LoopOk(s.loops[l], l, s.base, s.conns);
    MoveInv(s, l, y);
  }

  // ---------- runs ----------

  ghost predicate ValidRun(s: Server, steps: seq<Step>)
    decreases |steps|
  {
    steps == [] || (WellFormed(s) && Enabled(s, steps[0]) && ValidRun(Next(s, steps[0]), steps[1..]))
  }

  ghost function Run(s: Server, steps: seq<Step>): Server
    requires ValidRun(s, steps)
    decreases |steps|
  {
    if steps == [] then s else Run(Next(s, steps[0]), steps[1..])
  }

  // A run in which every handleClose finds its connection connected
  ghost predicate ClosesOnce(s: Server, steps: seq<Step>)
    requires ValidRun(s, steps)
    decreases |steps|
  {
    steps == [] || (Once(s, steps[0]) && ClosesOnce(Next(s, steps[0]), steps[1..]))
  }

  ghost predicate Initial(s: Server) {
    && s.base in s.loops && s.conns == [] && s.table == {} && s.sockets == map[] && !s.fault && !s.dangling
    && forall l :: l in s.loops ==> s.loops[l] == Loop([], Polling, Nobody, map[], {})
  }

  lemma {:induction false} RunSnoc(s: Server, steps: seq<Step>, step: Step)
    requires ValidRun(s, steps) && WellFormed(Run(s, steps)) && Enabled(Run(s, steps), step)
    ensures ValidRun(s, steps + [step]) && Run(s, steps + [step]) == Next(Run(s, steps), step)
    ensures ClosesOnce(s, steps + [step]) <==> ClosesOnce(s, steps) && Once(Run(s, steps), step)
    decreases |steps|
  {
    if steps == [] {
      assert [step][1..] == [] && steps + [step] == [step];
    } else {
      assert (steps + [step])[1..] == steps[1..] + [step];
      RunSnoc(Next(s, steps[0]), steps[1..], step);
    }
  }

  lemma {:induction false} InvRun(s: Server, steps: seq<Step>)
    requires Inv(s) && ValidRun(s, steps) && ClosesOnce(s, steps)
    ensures Inv(Run(s, steps))
    decreases |steps|
  {
    if steps != [] {
      InvStep(s, steps[0]);
      InvRun(Next(s, steps[0]), steps[1..]);
    }
  }

  lemma InitialInv(s: Server)
    requires Initial(s)
    ensures Inv(s)
  {
  }

  // In every interleaving: a socket is open exactly while somebody holds its connection; a registered
  // channel belongs to a connection that the library itself keeps alive; every channel still to be
  // dispatched, and the one being handled, is such a channel; and no assertion fails, no removal is
  // refused, no epoll_ctl call is rejected.
  lemma ChannelsAreAlive(s: Server, steps: seq<Step>)
    requires Initial(s) && ValidRun(s, steps) && ClosesOnce(s, steps)
    ensures var r := Run(s, steps);
      && WellFormed(r) && !r.fault
      && (forall c :: 0 <= c < |r.conns| ==> (IsOpen(r, c) <==> Held(r, c)) && (Registered(r, c) ==> Owned(r, c)))
      && (forall l, c :: l in r.loops && r.loops[l].place.Dispatching? && c in r.loops[l].place.active ==>
            c < |r.conns| && Registered(r, c) && Held(r, c))
      && (forall l :: l in r.loops && r.loops[l].current.Handling? ==>
            r.loops[l].place.Dispatching? && r.loops[l].current.c < |r.conns| && Held(r, r.loops[l].current.c))
  {
    InitialInv(s);
    InvRun(s, steps);
    var r := Run(s, steps);
    forall c | 0 <= c < |r.conns| ensures (IsOpen(r, c) <==> Held(r, c)) && (Registered(r, c) ==> Owned(r, c)) {
      OpenIffHeld(r, c);
    }
    forall l, c | l in r.loops && r.loops[l].place.Dispatching? && c in r.loops[l].place.active
      ensures c < |r.conns| && Registered(r, c) && Held(r, c)
    {
      ActiveRegistered(r, l, c);
      OpenIffHeld(r, c);
    }
    forall l | l in r.loops && r.loops[l].current.Handling?
      ensures r.loops[l].place.Dispatching? && r.loops[l].current.c < |r.conns| && Held(r, r.loops[l].current.c)
    {
      ActiveRegistered(r, l, r.loops[l].current.c);
      OpenIffHeld(r, r.loops[l].current.c);
    }
  }

  lemma OpenIffHeld(s: Server, c: ConnId)
    requires WellFormed(s) && c < |s.conns| && Good(ViewOf(s, c))
    ensures IsOpen(s, c) <==> Held(s, c)
    ensures Registered(s, c) ==> Owned(s, c)
    ensures Owned(s, c) <==> Registered(s, c) || s.conns[c].state != Disconnected
  {
  }

  lemma ActiveRegistered(s: Server, l: LoopId, c: ConnId)
    requires WellFormed(s) && l in s.loops && LoopOk(s.loops[l], l, s.base, s.conns)
    requires s.loops[l].current == Handling(c) || (s.loops[l].place.Dispatching? && c in s.loops[l].place.active)
    ensures c < |s.conns| && Registered(s, c) && s.loops[l].place.Dispatching?
  {
  }

  // Of all the pollers' entries, at most that of `fd` in loop `l` changes.
  ghost predicate OnlyEntry(s: Server, r: Server, l: LoopId, fd: Fd) {
    && WellFormed(s) && WellFormed(r) && r.loops.Keys == s.loops.Keys && |s.conns| <= |r.conns|
    && (forall c :: 0 <= c < |s.conns| ==> r.conns[c].loop == s.conns[c].loop && r.conns[c].fd == s.conns[c].fd)
    && (forall m, f :: m in s.loops && f in s.loops[m].channels && (m != l || f != fd) ==>
          f in r.loops[m].channels && r.loops[m].channels[f] == s.loops[m].channels[f])
  }

  lemma OtherEntry(s: Server, r: Server, l: LoopId, fd: Fd, c: ConnId)
    requires OnlyEntry(s, r, l, fd) && c < |s.conns| && Registered(s, c)
    requires s.conns[c].loop != l || s.conns[c].fd != fd
    ensures Registered(r, c)
  {
  }

  lemma PushEntry(s: Server, l: LoopId, t: Task, fd: Fd)
    requires WellFormed(s) && l in s.loops
    ensures OnlyEntry(s, Push(s, l, t), l, fd)
  {
  }

  lemma PerformedEntry(s: Server, t: Task)
    requires WellFormed(s) && t.c < |s.conns|
    ensures OnlyEntry(s, Performed(s, t), s.conns[t.c].loop, s.conns[t.c].fd)
  {
    match t {
      case Establish(c) => EstablishedEntry(s, c);
      case Remove(c) => PushEntry(s, s.conns[c].loop, Destroy(c), s.conns[c].fd);
      case Destroy(c) => DestroyedEntry(s, c);
      case Raw(c) =>
    }
  }

  lemma EstablishedEntry(s: Server, c: ConnId)
    requires WellFormed(s) && c < |s.conns|
    ensures OnlyEntry(s, Established(s, c), s.conns[c].loop, s.conns[c].fd)
  {
  }

  lemma DestroyedEntry(s: Server, c: ConnId)
    requires WellFormed(s) && c < |s.conns|
    ensures OnlyEntry(s, Destroyed(s, c), s.conns[c].loop, s.conns[c].fd)
  {
  }

  // The pollers' entries and what they are about
  ghost predicate SameChannels(s: Server, r: Server) {
    && WellFormed(s) && WellFormed(r) && r.loops.Keys == s.loops.Keys && |s.conns| == |r.conns|
    && (forall c :: 0 <= c < |s.conns| ==> r.conns[c].loop == s.conns[c].loop && r.conns[c].fd == s.conns[c].fd)
    && (forall m :: m in s.loops ==> r.loops[m].channels == s.loops[m].channels)
  }

  lemma ClosedChannels(s: Server, c: ConnId)
    requires WellFormed(s) && c < |s.conns|
    ensures SameChannels(s, Closed(s, c))
  {
    var t := Disabled(s, c);
    assert SameChannels(s, t);
    PushChannels(t, s.base, if s.conns[c].loop == s.base then Destroy(c) else Remove(c));
  }

  lemma PushChannels(s: Server, l: LoopId, t: Task)
    requires WellFormed(s) && l in s.loops
    ensures var r := Push(s, l, t);
      && WellFormed(r) && r.loops.Keys == s.loops.Keys
      && forall m :: m in s.loops ==> r.loops[m].channels == s.loops[m].channels
  {
  }

  lemma AcceptedEntry(s: Server, fd: Fd, l: LoopId)
    requires WellFormed(s) && l in s.loops
    ensures OnlyEntry(s, Accepted(s, fd, l), l, fd)
  {
    var c := |s.conns|;
    var t := Listed(s, fd, l);
    assert WellFormed(t);
    if l == s.base {
      PerformedEntry(t, Establish(c));
    } else {
      PushEntry(t, l, Establish(c), fd);
    }
  }

  lemma PerformKeeps(s: Server, l: LoopId, c: ConnId)
    requires Inv(s) && Enabled(s, Perform(l)) && c < |s.conns| && Registered(s, c)
    requires s.loops[l].place.rest[0] != Destroy(c)
    ensures var t := s.loops[l].place.rest[0];
      t.Establish? || t.Destroy? ==> s.conns[t.c].loop != s.conns[c].loop || s.conns[t.c].fd != s.conns[c].fd
  {
    var t := s.loops[l].place.rest[0];
    PopApart(s, l);
    var m := SetLoop(s, l, Popped(s.loops[l]));
    if !t.Raw? {
      TaskOpen(ViewOf(s, t.c), ViewOf(m, t.c), t);
    }
    OpenIffHeld(s, c);
  }

  lemma TaskOpen(v: View, w: View, t: Task)
    requires Good(v) && v == Added(w, t).(spent := v.spent) && !t.Raw?
    ensures v.open && (t.Establish? ==> !v.registered)
  {
  }

  lemma PerformEntry(s: Server, l: LoopId, c: ConnId)
    requires WellFormed(s) && Enabled(s, Perform(l)) && c < |s.conns| && Registered(s, c)
    requires var t := s.loops[l].place.rest[0];
      t.Establish? || t.Destroy? ==> s.conns[t.c].loop != s.conns[c].loop || s.conns[t.c].fd != s.conns[c].fd
    ensures var r := Next(s, Perform(l)); WellFormed(r) && c < |r.conns| && Registered(r, c)
  {
    var t := s.loops[l].place.rest[0];
    var m := SetLoop(s, l, Popped(s.loops[l]));
    assert WellFormed(m) && Registered(m, c);
    PerformedEntry(m, t);
    if t.Establish? || t.Destroy? {
      OtherEntry(m, Performed(m, t), s.conns[t.c].loop, s.conns[t.c].fd, c);
    }
  }

  // A fresh descriptor is not that of a registered channel.
  lemma AcceptKeeps(s: Server, fd: Fd, l: LoopId, c: ConnId)
    requires Inv(s) && Enabled(s, Accept(fd, l)) && c < |s.conns| && Registered(s, c)
    ensures var r := Accepted(s, fd, l); WellFormed(r) && c < |r.conns| && Registered(r, c)
  {
    AcceptedEntry(s, fd, l);
    assert Good(ViewOf(s, c)) && s.conns[c].fd != fd;
    OtherEntry(s, Accepted(s, fd, l), l, fd, c);
  }

  lemma CloseKeeps(s: Server, d: ConnId, c: ConnId)
    requires WellFormed(s) && d < |s.conns| && c < |s.conns| && Registered(s, c)
    ensures var r := Closed(s, d); WellFormed(r) && c < |r.conns| && Registered(r, c)
  {
    ClosedChannels(s, d);
  }

  // A connection leaves its poller only through its connectDestroyed functor.
  lemma RemovalIsDeferred(s: Server, step: Step, c: ConnId)
    requires Inv(s) && Enabled(s, step) && Once(s, step) && c < |s.conns| && Registered(s, c)
    ensures var r := Next(s, step);
      || (WellFormed(r) && c < |r.conns| && Registered(r, c))
      || (step.Perform? && s.loops[step.l].place.rest[0] == Destroy(c))
  {
    match step {
      case Perform(l) =>
        if s.loops[l].place.rest[0] != Destroy(c) {
          PerformKeeps(s, l, c);
          PerformEntry(s, l, c);
        }
      case Accept(fd, l) => AcceptKeeps(s, fd, l, c);
      case Close(d) => CloseKeeps(s, d, c);
      case _ => MoveKeeps(s, step, c);
    }
  }

  // The steps that leave the pollers alone
  lemma MoveKeeps(s: Server, step: Step, c: ConnId)
    requires WellFormed(s) && Enabled(s, step) && c < |s.conns| && Registered(s, c)
    requires !step.Perform? && !step.Accept? && !step.Close?
    ensures var r := Next(s, step); WellFormed(r) && c < |r.conns| && Registered(r, c)
  {
  }

  // That functor runs when no channel of the loop is being dispatched, so it is never refused; afterwards
  // the channel is out of the poller and no map entry and no queued functor holds the connection, but the
  // batch of the functor does, so its socket is still open.
  lemma DestructionIsComplete(s: Server, l: LoopId, c: ConnId)
    requires Inv(s) && Enabled(s, Perform(l)) && s.loops[l].place.rest[0] == Destroy(c)
    ensures s.conns[c].loop == l && s.loops[l].current == Nobody && Registered(s, c)
    ensures var r := Next(s, Perform(l));
      Inv(r) && c < |r.conns| && !Registered(r, c) && !Owned(r, c) && InBatch(r.loops[l], c) && IsOpen(r, c)
  {
    assert LoopOk(s.loops[l], l, s.base, s.conns);
    PopApart(s, l);
    WhenApart(s, c);
    assert ViewOf(s, c) == Dying(ViewOf(s, c).onBase, Others(s.conns[c]), ViewOf(s, c).spent);
    PoppedOwes(s.loops[l]);
    hide Inv, Apart, LoopOk, Owned;
    DestroyedGone(SetLoop(s, l, Popped(s.loops[l])), c);
  }

  lemma DestroyedGone(m: Server, c: ConnId)
    requires Apart(m, c) && LoopOf(m, c).place.Draining? && InBatch(LoopOf(m, c), c)
    requires ViewOf(m, c) == Dying(ViewOf(m, c).onBase, Others(m.conns[c]), true).(destroy := 0)
    ensures var r := Destroyed(m, c);
      && Inv(r) && c < |r.conns| && !Registered(r, c) && !Owned(r, c)
      && InBatch(LoopOf(r, c), c) && r.conns[c].loop == m.conns[c].loop && IsOpen(r, c)
  {
    DestroyedApart(m, c, ViewOf(m, c).onBase, Others(m.conns[c]), true);
    var r := Destroyed(m, c);
    Together(r, c);
    assert LoopOk(LoopOf(m, c), m.conns[c].loop, m.base, m.conns);
    assert ViewOf(r, c) == Gone(ViewOf(m, c).onBase, Others(m.conns[c]), true);
  }

  // A batch of another loop than `l` holds the connection.
  predicate InOtherBatch(s: Server, c: ConnId, l: LoopId)
    requires WellFormed(s) && c < |s.conns|
  {
    (s.conns[c].loop != l && InBatch(LoopOf(s, c), c)) || (s.base != l && InBatch(s.loops[s.base], c))
  }

  lemma BatchHolders(s: Server, l: LoopId, c: ConnId)
    requires WellFormed(s) && Enabled(s, EndDrain(l)) && c < |s.conns|
    ensures var r := Next(s, EndDrain(l));
      && WellFormed(r) && r.conns == s.conns && (Owned(r, c) <==> Owned(s, c))
      && (Spent(r, c) <==> InOtherBatch(s, c, l))
  {
    var y := s.loops[l].(place := Polling);
    assert OwesSame(s.loops[l], y);
    var r := Next(s, EndDrain(l));
    assert r.loops == s.loops[l := y] && r.table == s.table;
  }

  // The end of a batch closes the sockets of exactly those of its connections that nobody holds any more:
  // no map entry, no functor, no batch of another loop and nobody outside the library.
  lemma BatchEnds(s: Server, l: LoopId, c: ConnId)
    requires Inv(s) && Enabled(s, EndDrain(l)) && c < |s.conns|
    ensures var r := Next(s, EndDrain(l));
      && Inv(r) && c < |r.conns|
      && (IsOpen(r, c) <==> Owned(s, c) || InOtherBatch(s, c, l) || Others(s.conns[c]) > 0)
  {
    hide Inv, Owned, Spent, InOtherBatch, Good, ViewOf;
    InvGood(s, c);
    EndDrainInv(s, l);
    var r := Next(s, EndDrain(l));
    BatchHolders(s, l, c);
    InvGood(r, c);
    OpenIffHeld(r, c);
  }

  // When no functor is left to run, no map entry and no poller knows a closed connection, and its socket is
  // open exactly while a batch that is not over or somebody outside the library holds it.
  lemma NothingLeaks(s: Server, c: ConnId)
    requires Inv(s) && c < |s.conns| && s.conns[c].state == Disconnected && Drained(s)
    ensures !Owned(s, c) && !Registered(s, c)
    ensures IsOpen(s, c) <==> Spent(s, c) || Others(s.conns[c]) > 0
    ensures (forall l :: l in s.loops ==> !s.loops[l].place.Draining?) ==>
      (IsOpen(s, c) <==> Others(s.conns[c]) > 0)
  {
    assert Good(ViewOf(s, c));
  }

  ghost predicate Drained(s: Server) {
    forall l :: l in s.loops ==>
      s.loops[l].pending == [] && (s.loops[l].place.Draining? ==> s.loops[l].place.rest == [])
  }

  // The last holder closes the socket, whoever it is.
  lemma LastHolderCloses(s: Server, c: ConnId)
    requires Inv(s) && Enabled(s, Release(c))
    ensures var r := Next(s, Release(c));
      && WellFormed(r) && c < |r.conns|
      && (IsOpen(r, c) <==> Owned(s, c) || Spent(s, c) || Others(s.conns[c]) > 1)
      && (Owned(r, c) <==> Owned(s, c))
  {
    ReleaseInv(s, c);
    OpenIffHeld(Next(s, Release(c)), c);
    OpenIffHeld(s, c);
  }
}
