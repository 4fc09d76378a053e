/** What a second handleClose does, over runs that do not exclude it. */
module ConnectionClosing {
  import opened ConnectionModel
  import opened ConnectionProofs
  import opened ConnectionTheorems

  // handleClose keeps the invariant exactly when the connection is not disconnected yet.
  lemma CloseKeepsInvIff(s: Server, c: ConnId)
    requires Inv(s) && Enabled(s, Close(c))
    ensures Inv(Next(s, Close(c))) <==> s.conns[c].state == Connected
  {
    if s.conns[c].state == Connected {
      ClosedInv(s, c);
    } else {
      ClosedTwice(s, c);
    }
  }

  // A second handleClose puts the dead channel back into the epoll set.
  lemma ClosedTwice(s: Server, c: ConnId)
    requires Inv(s) && Enabled(s, Close(c)) && s.conns[c].state != Connected
    ensures !Inv(Closed(s, c))
    ensures WellFormed(Closed(s, c)) && Registered(Closed(s, c), c) && Watched(Closed(s, c), c)
    ensures s.conns[c].loop == s.base ==> Closed(s, c).fault
  {
    var k := s.conns[c];
    assert LoopOk(s.loops[k.loop], k.loop, s.base, s.conns);
    WhenApart(s, c);
    DisabledApart(s, c);
    var m := SetLoop(s, k.loop, DisableAll(LoopOf(s, c), k.fd));
    StateChange(m, c, Disconnected);
    assert SetState(m, c, Disconnected) == Disabled(s, c);
    AfterClosedTwice(s, c);
  }

  lemma AfterClosedTwice(s: Server, c: ConnId)
    requires WellFormed(s) && c < |s.conns| && (s.conns[c].loop == s.base ==> c !in s.table)
    requires var t := Disabled(s, c); Apart(t, c) && ViewOf(t, c).watched && ViewOf(t, c).state == Disconnected
    ensures !Inv(Closed(s, c))
    ensures WellFormed(Closed(s, c)) && Registered(Closed(s, c), c) && Watched(Closed(s, c), c)
    ensures s.conns[c].loop == s.base ==> Closed(s, c).fault
  {
    var t := Disabled(s, c);
    var r := Closed(s, c);
    if s.conns[c].loop != s.base {
      PushApart(t, Remove(c));
      assert r == Push(t, s.base, Remove(c));
      WatchedView(r, c);
    } else {
      WatchedView(t, c);
      PushEntry(t, s.base, Destroy(c), s.conns[c].fd);
      assert r.fault;
    }
  }

  lemma WatchedView(r: Server, c: ConnId)
    requires WellFormed(r) && c < |r.conns| && ViewOf(r, c).watched && ViewOf(r, c).state == Disconnected
    ensures Registered(r, c) && Watched(r, c) && !Good(ViewOf(r, c)) && !Inv(r)
  {
  }

  // ---------- the assertion n == 1 ----------

  // An assertion has failed, or more removals of `c` are queued than the map has entries for it.
  predicate Overdrawn(s: Server, c: ConnId)
    requires WellFormed(s)
  {
    s.fault || Owes(s.loops[s.base], Remove(c)) > if c in s.table then 1 else 0
  }

  // Functors may be added to a loop, and to one loop only, without removing any.
  ghost predicate OwesAtLeast(s: Server, r: Server, t: Task)
    requires WellFormed(s)
  {
    WellFormed(r) && r.base == s.base && Owes(r.loops[r.base], t) >= Owes(s.loops[s.base], t)
  }

  lemma PushOwes(s: Server, l: LoopId, u: Task, t: Task)
    requires WellFormed(s) && l in s.loops
    ensures OwesAtLeast(s, Push(s, l, u), t)
  {
    Pushed(s.loops[l], u);
  }

  // A step other than a functor queues functors and drops none, and lists no old connection.
  lemma QueueStep(s: Server, step: Step, t: Task)
    requires WellFormed(s) && Enabled(s, step) && !step.Perform? && !step.Close?
    ensures OwesAtLeast(s, Next(s, step), t)
  {
    match step {
      case Accept(fd, l) =>
        var m := Listed(s, fd, l);
        assert WellFormed(m);
        if l != s.base {
          PushOwes(m, l, Establish(|s.conns|), t);
        }
      case CallLater(c) =>
        var m := SetHolders(s, c, s.conns[c].kept + 1, s.conns[c].calling - 1);
        assert WellFormed(m);
        PushOwes(m, s.conns[c].loop, Raw(c), t);
      case Release(c) => ReleaseLoops(s, c);
      case EndDrain(l) => EndOwes(s, l, t);
      case _ => MoveOwes(s, step, t);
    }
  }

  lemma ReleaseLoops(s: Server, c: ConnId)
    requires WellFormed(s) && Enabled(s, Release(c))
    ensures Next(s, Release(c)).loops == s.loops && WellFormed(Next(s, Release(c)))
  {
  }

  lemma MoveOwes(s: Server, step: Step, t: Task)
    requires WellFormed(s) && Enabled(s, step)
    requires step.PollReturns? || step.Handle? || step.Handled? || step.EndDispatch? || step.Keep? || step.Check?
    ensures OwesAtLeast(s, Next(s, step), t)
  {
  }

  lemma EndOwes(s: Server, l: LoopId, t: Task)
    requires WellFormed(s) && Enabled(s, EndDrain(l))
    ensures OwesAtLeast(s, Next(s, EndDrain(l)), t)
  {
    assert Next(s, EndDrain(l)).loops == s.loops[l := s.loops[l].(place := Polling)];
  }

  lemma QueueStepTable(s: Server, step: Step, c: ConnId)
    requires WellFormed(s) && Enabled(s, step) && !step.Perform? && !step.Close? && c < |s.conns|
    ensures var r := Next(s, step);
      |r.conns| >= |s.conns| && (c in r.table <==> c in s.table) && (s.fault ==> r.fault)
  {
  }

  lemma RemovedOverdrawn(s: Server, d: ConnId, c: ConnId)
    requires WellFormed(s) && d < |s.conns| && c < |s.conns|
    requires d != c ==> Overdrawn(s, c)
    requires d == c && c in s.table ==> s.fault || Owes(s.loops[s.base], Remove(c)) > 0
    ensures WellFormed(Removed(s, d)) && |Removed(s, d).conns| == |s.conns| && Overdrawn(Removed(s, d), c)
  {
    PushOwes(s, s.conns[d].loop, Destroy(d), Remove(c));
    var m := Push(s, s.conns[d].loop, Destroy(d));
    assert Removed(s, d).loops == m.loops;
  }

  lemma ClosedOverdrawn(s: Server, d: ConnId, c: ConnId)
    requires WellFormed(s) && d < |s.conns| && c < |s.conns| && Overdrawn(s, c)
    ensures WellFormed(Closed(s, d)) && |Closed(s, d).conns| == |s.conns| && Overdrawn(Closed(s, d), c)
  {
    var t := Disabled(s, d);
    assert WellFormed(t) && Owes(t.loops[t.base], Remove(c)) == Owes(s.loops[s.base], Remove(c));
    if s.conns[d].loop == s.base {
      RemovedOverdrawn(t, d, c);
    } else {
      PushOwes(t, s.base, Remove(d), Remove(c));
    }
  }

  lemma PerformedOverdrawn(s: Server, t: Task, c: ConnId)
    requires WellFormed(s) && t.c < |s.conns| && c < |s.conns|
    requires s.fault
      || Owes(s.loops[s.base], Remove(c)) + (if t == Remove(c) then 1 else 0) > if c in s.table then 1 else 0
    ensures var r := Performed(s, t); WellFormed(r) && |r.conns| == |s.conns| && Overdrawn(r, c)
  {
    match t {
      case Remove(d) => RemovedOverdrawn(s, d, c);
      case Establish(d) =>
      case Destroy(d) => assert WellFormed(Destroyed(s, d));
      case Raw(d) =>
    }
  }

  lemma PerformOverdrawn(s: Server, l: LoopId, c: ConnId)
    requires WellFormed(s) && Enabled(s, Perform(l)) && c < |s.conns| && Overdrawn(s, c)
    ensures var r := Next(s, Perform(l)); WellFormed(r) && |r.conns| == |s.conns| && Overdrawn(r, c)
  {
    var x := s.loops[l];
    var t := x.place.rest[0];
    var y := Popped(x);
    PoppedOwes(x);
    assert WellFormed(SetLoop(s, l, y));
    assert Owes(x, Remove(c)) == Owes(y, Remove(c)) + if t == Remove(c) then 1 else 0;
    PerformedOverdrawn(SetLoop(s, l, y), t, c);
  }

  lemma OverdrawnStep(s: Server, step: Step, c: ConnId)
    requires WellFormed(s) && Enabled(s, step) && c < |s.conns| && Overdrawn(s, c)
    ensures var r := Next(s, step); WellFormed(r) && |r.conns| >= |s.conns| && Overdrawn(r, c)
  {
    match step {
      case Perform(l) => PerformOverdrawn(s, l, c);
      case Close(d) => ClosedOverdrawn(s, d, c);
      case _ =>
        QueueStep(s, step, Remove(c));
        QueueStepTable(s, step, c);
    }
  }

  lemma {:induction false} OverdrawnRun(s: Server, steps: seq<Step>, c: ConnId)
    requires WellFormed(s) && ValidRun(s, steps) && c < |s.conns| && Overdrawn(s, c)
    ensures WellFormed(Run(s, steps)) && Overdrawn(Run(s, steps), c)
    decreases |steps|
  {
    if steps != [] {
      OverdrawnStep(s, steps[0], c);
      OverdrawnRun(Next(s, steps[0]), steps[1..], c);
    }
  }

  // On the base loop the second removal fails at once; on an I/O loop it waits on the base loop.
  lemma SecondCloseOverdraws(s: Server, c: ConnId)
    requires Inv(s) && Enabled(s, Close(c)) && s.conns[c].state != Connected
    ensures WellFormed(Closed(s, c)) && |Closed(s, c).conns| == |s.conns| && Overdrawn(Closed(s, c), c)
  {
    ClosedTwice(s, c);
    var k := s.conns[c];
    assert LoopOk(s.loops[k.loop], k.loop, s.base, s.conns);
    WhenApart(s, c);
    if k.loop != s.base {
      var t := Disabled(s, c);
      assert ViewOf(s, c).remove == if c in s.table then 1 else 0;
      assert Owes(t.loops[t.base], Remove(c)) == Owes(s.loops[s.base], Remove(c));
      Pushed(t.loops[t.base], Remove(c));
    }
  }

  lemma {:induction false} SecondCloseRun(s: Server, steps: seq<Step>) returns (c: ConnId)
    requires Inv(s) && ValidRun(s, steps) && !ClosesOnce(s, steps)
    ensures WellFormed(Run(s, steps)) && Overdrawn(Run(s, steps), c)
    decreases |steps|
  {
    if Once(s, steps[0]) {
      InvStep(s, steps[0]);
      c := SecondCloseRun(Next(s, steps[0]), steps[1..]);
    } else {
      c := steps[0].c;
      SecondCloseOverdraws(s, c);
      OverdrawnRun(Next(s, steps[0]), steps[1..], c);
    }
  }

  // When all functors have run, no assertion has failed if and only if every handleClose found its
  // connection connected, on whatever loop.
  lemma DrainedFaultIff(s: Server, steps: seq<Step>)
    requires Initial(s) && ValidRun(s, steps) && Drained(Run(s, steps))
    ensures !Run(s, steps).fault <==> ClosesOnce(s, steps)
  {
    InitialInv(s);
    if ClosesOnce(s, steps) {
      InvRun(s, steps);
    } else {
      var c := SecondCloseRun(s, steps);
      var r := Run(s, steps);
      assert r.base in r.loops;
      assert Owes(r.loops[r.base], Remove(c)) == 0;
    }
  }
}
