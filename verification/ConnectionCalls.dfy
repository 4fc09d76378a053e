/** Functors that other threads queue without a shared pointer: when do they find their connection alive? */
module ConnectionCalls {
  import opened ConnectionModel
  import opened ConnectionProofs
  import opened ConnectionTheorems

  function Rest(x: Loop): seq<Task> {
    if x.place.Draining? then x.place.rest else []
  }

  // Everything a loop has still to run, in order
  function Tasks(x: Loop): seq<Task> {
    Rest(x) + x.pending
  }

  lemma {:induction false} CountIn(q: seq<Task>, t: Task)
    ensures Count(q, t) > 0 <==> t in q
  {
    if q != [] {
      CountIn(q[..|q| - 1], t);
      assert q == q[..|q| - 1] + [q[|q| - 1]];
    }
  }

  lemma OwesIn(x: Loop, t: Task)
    ensures Owes(x, t) > 0 <==> t in Tasks(x)
  {
    CountIn(x.pending, t);
    if x.place.Draining? {
      CountIn(x.place.rest, t);
    }
  }

  // Functors may have been queued, and nothing else happened to the loop's work.
  predicate Grows(x: Loop, y: Loop) {
    y.place == x.place && x.pending <= y.pending
  }

  lemma PushGrows(s: Server, m: LoopId, t: Task, l: LoopId)
    requires m in s.loops && l in s.loops
    ensures l in Push(s, m, t).loops && Grows(s.loops[l], Push(s, m, t).loops[l])
  {
  }

  lemma PerformedGrows(s: Server, t: Task, l: LoopId)
    requires WellFormed(s) && t.c < |s.conns| && l in s.loops
    ensures l in Performed(s, t).loops && Grows(s.loops[l], Performed(s, t).loops[l])
  {
    match t {
      case Remove(c) => PushGrows(s, s.conns[c].loop, Destroy(c), l);
      case Destroy(c) =>
      case Establish(c) =>
      case Raw(c) => assert Performed(s, t).loops == s.loops;
    }
  }

  lemma AcceptGrows(s: Server, fd: Fd, m: LoopId, l: LoopId)
    requires WellFormed(s) && m in s.loops && l in s.loops
    ensures l in Accepted(s, fd, m).loops && Grows(s.loops[l], Accepted(s, fd, m).loops[l])
  {
    var t := Listed(s, fd, m);
    assert WellFormed(t);
    if m == s.base {
      PerformedGrows(t, Establish(|s.conns|), l);
    } else {
      PushGrows(t, m, Establish(|s.conns|), l);
    }
  }

  lemma CloseGrows(s: Server, c: ConnId, l: LoopId)
    requires WellFormed(s) && c < |s.conns| && l in s.loops
    ensures l in Closed(s, c).loops && Grows(s.loops[l], Closed(s, c).loops[l])
  {
    var t := Disabled(s, c);
    assert WellFormed(t) && Grows(s.loops[l], t.loops[l]);
    PushGrows(t, s.base, Remove(c), l);
    PushGrows(t, s.base, Destroy(c), l);
  }

  lemma HolderGrows(s: Server, step: Step, l: LoopId)
    requires WellFormed(s) && Enabled(s, step) && l in s.loops
    requires step.Keep? || step.Release? || step.Check? || step.CallLater?
    ensures l in Next(s, step).loops && Grows(s.loops[l], Next(s, step).loops[l])
  {
    match step {
      case Release(c) =>
        var m := SetHolders(s, c, s.conns[c].kept - 1, s.conns[c].calling);
        assert WellFormed(m);
        assert Dropped(m, c).loops == m.loops by {
          hide Held;
        }
      case _ =>
    }
  }

  // Where a loop is after a step of any loop or thread
  function PlaceAfter(x: Loop, step: Step, l: LoopId): Place {
    match step
    case Perform(m) => if m == l && x.place.Draining? && x.place.rest != [] then Popped(x).place else x.place
    case EndDrain(m) => if m == l then Polling else x.place
    case EndDispatch(m) => if m == l then Draining([], x.pending) else x.place
    case PollReturns(m, active) => if m == l then Dispatching(active) else x.place
    case Handle(m) =>
      if m == l && x.place.Dispatching? && x.place.active != [] then Dispatching(x.place.active[1..]) else x.place
    case _ => x.place
  }

  // A loop's place changes by its own steps alone, and its queue shrinks by its own swap alone.
  ghost predicate Moved(x: Loop, y: Loop, step: Step, l: LoopId) {
    && y.place == PlaceAfter(x, step, l)
    && (if step == EndDispatch(l) then y.pending == [] else x.pending <= y.pending)
  }

  lemma PerformMoved(s: Server, m: LoopId, l: LoopId)
    requires WellFormed(s) && Enabled(s, Perform(m)) && l in s.loops
    ensures l in Next(s, Perform(m)).loops && Moved(s.loops[l], Next(s, Perform(m)).loops[l], Perform(m), l)
  {
    var t := SetLoop(s, m, Popped(s.loops[m]));
    assert WellFormed(t);
    PerformedGrows(t, s.loops[m].place.rest[0], l);
  }

  lemma LoopMoved(s: Server, step: Step, l: LoopId)
    requires WellFormed(s) && Enabled(s, step) && l in s.loops
    requires step.PollReturns? || step.Handle? || step.Handled? || step.EndDispatch? || step.EndDrain?
    ensures l in Next(s, step).loops && Moved(s.loops[l], Next(s, step).loops[l], step, l)
  {
  }

  lemma LoopStep(s: Server, step: Step, l: LoopId)
    requires WellFormed(s) && Enabled(s, step) && l in s.loops
    ensures l in Next(s, step).loops && Moved(s.loops[l], Next(s, step).loops[l], step, l)
  {
    match step {
      case Perform(m) => PerformMoved(s, m, l);
      case Accept(fd, m) => AcceptGrows(s, fd, m, l);
      case Close(c) => CloseGrows(s, c, l);
      case Keep(c) => HolderGrows(s, step, l);
      case Release(c) => HolderGrows(s, step, l);
      case Check(c) => HolderGrows(s, step, l);
      case CallLater(c) => HolderGrows(s, step, l);
      case _ => LoopMoved(s, step, l);
    }
  }

  // A loop runs its functors first in, first out.
  lemma TasksStep(s: Server, step: Step, l: LoopId)
    requires WellFormed(s) && Enabled(s, step) && l in s.loops
    ensures l in Next(s, step).loops
    ensures var k := if step == Perform(l) then 1 else 0;
      k <= |Tasks(s.loops[l])| && Tasks(s.loops[l])[k..] <= Tasks(Next(s, step).loops[l])
  {
    LoopStep(s, step, l);
    LoopEnabled(s, step, l);
    hide Next, Enabled, WellFormed;
    MovedTasks(s.loops[l], Next(s, step).loops[l], step, l);
  }

  // What a step needs of the loop it moves
  ghost predicate MayMove(x: Loop, step: Step, l: LoopId) {
    && (step == Perform(l) ==> x.place.Draining? && x.place.rest != [])
    && (step == EndDrain(l) ==> x.place.Draining? && x.place.rest == [])
    && (step.EndDispatch? && step.l == l ==> x.place == Dispatching([]))
    && (step.PollReturns? && step.l == l ==> x.place == Polling)
    && (step.Handle? && step.l == l ==> x.place.Dispatching?)
  }

  lemma LoopEnabled(s: Server, step: Step, l: LoopId)
    requires WellFormed(s) && Enabled(s, step) && l in s.loops
    ensures MayMove(s.loops[l], step, l)
  {
  }

  // The first part of a queue, `k` functors later
  lemma Later(rest: seq<Task>, pending: seq<Task>, more: seq<Task>, k: nat)
    requires k <= |rest| && pending <= more
    ensures k <= |rest + pending| && (rest + pending)[k..] <= rest[k..] + more
  {
    assert (rest + pending)[k..] == rest[k..] + pending;
  }

  lemma MovedRest(x: Loop, y: Loop, step: Step, l: LoopId)
    requires Moved(x, y, step, l) && MayMove(x, step, l)
    ensures if step == EndDispatch(l) then Rest(x) == [] && Rest(y) == x.pending && y.pending == []
            else if step == Perform(l) then Rest(x) != [] && Rest(y) == Rest(x)[1..] && x.pending <= y.pending
            else Rest(y) == Rest(x) && x.pending <= y.pending
  {
  }

  lemma MovedTasks(x: Loop, y: Loop, step: Step, l: LoopId)
    requires Moved(x, y, step, l) && MayMove(x, step, l)
    ensures var k := if step == Perform(l) then 1 else 0;
      k <= |Tasks(x)| && Tasks(x)[k..] <= Tasks(y)
  {
    MovedRest(x, y, step, l);
    hide Moved, MayMove;
    if step == EndDispatch(l) {
      assert [] + x.pending == x.pending && x.pending + [] == x.pending;
    } else {
      Later(Rest(x), x.pending, y.pending, if step == Perform(l) then 1 else 0);
      assert Rest(x)[0..] == Rest(x);
    }
  }

  // ---------- the library lets go of a connection once ----------

  // A connection that is not established is not disconnected by others' steps.
  lemma UnstartedStep(s: Server, step: Step, c: ConnId)
    requires Inv(s) && Enabled(s, step) && Once(s, step) && c < |s.conns| && s.conns[c].state == Connecting
    requires step.Perform? ==> s.loops[step.l].place.rest[0] != Destroy(c)
    ensures c < |Next(s, step).conns| && Next(s, step).conns[c].state != Disconnected
  {
    match step {
      case Perform(l) => PerformOther(s, l, c);
      case Accept(fd, l) => AcceptOther(s, fd, l, c);
      case Close(d) => ClosedOther(s, d, c);
      case _ => MovesOther(s, step, c);
    }
  }

  lemma PerformedOther(s: Server, t: Task, c: ConnId)
    requires WellFormed(s) && t.c < |s.conns| && c < |s.conns|
    ensures var r := Performed(s, t);
      && WellFormed(r) && |r.conns| == |s.conns|
      && (t.c != c || t.Remove? || t.Raw? ==> r.conns[c] == s.conns[c] && (Registered(r, c) ==> Registered(s, c)))
      && (t == Establish(c) ==> r.conns[c].state == Connected)
  {
    match t {
      case Destroy(d) => DestroyedOther(s, d, c);
      case Establish(d) => EstablishedOther(s, d, c);
      case _ =>
    }
  }

  lemma EstablishedOther(s: Server, d: ConnId, c: ConnId)
    requires WellFormed(s) && d < |s.conns| && c < |s.conns|
    ensures var r := Established(s, d);
      && WellFormed(r) && |r.conns| == |s.conns|
      && (d != c ==> r.conns[c] == s.conns[c] && (Registered(r, c) ==> Registered(s, c)))
      && r.conns[d].state == Connected
  {
  }

  lemma DestroyedOther(s: Server, d: ConnId, c: ConnId)
    requires WellFormed(s) && d < |s.conns| && c < |s.conns|
    ensures var r := Destroyed(s, d);
      && WellFormed(r) && |r.conns| == |s.conns|
      && (d != c ==> r.conns[c] == s.conns[c] && (Registered(r, c) ==> Registered(s, c)))
  {
  }

  // No functor but a call is left for a connection whose Destroy functor has run.
  lemma GonePerform(s: Server, l: LoopId, c: ConnId)
    requires Inv(s) && Enabled(s, Perform(l)) && c < |s.conns| && !Owned(s, c)
    ensures var t := s.loops[l].place.rest[0]; t.c != c || t.Raw?
  {
    PopApart(s, l);
    WhenApart(s, c);
    assert Good(ViewOf(s, c));
  }

  lemma PerformOther(s: Server, l: LoopId, c: ConnId)
    requires WellFormed(s) && Enabled(s, Perform(l)) && c < |s.conns|
    ensures var r := Next(s, Perform(l));
      var t := s.loops[l].place.rest[0];
      && WellFormed(r) && c < |r.conns|
      && (t.c != c || t.Remove? || t.Raw? ==> r.conns[c] == s.conns[c] && (Registered(r, c) ==> Registered(s, c)))
      && (t == Establish(c) ==> r.conns[c].state == Connected)
  {
    var m := SetLoop(s, l, Popped(s.loops[l]));
    assert WellFormed(m);
    PerformedOther(m, s.loops[l].place.rest[0], c);
  }

  lemma AcceptOther(s: Server, fd: Fd, l: LoopId, c: ConnId)
    requires WellFormed(s) && l in s.loops && c < |s.conns|
    ensures var r := Accepted(s, fd, l);
      WellFormed(r) && c < |r.conns| && r.conns[c] == s.conns[c] && (Registered(r, c) ==> Registered(s, c))
  {
    var t := Listed(s, fd, l);
    assert WellFormed(t);
    if l == s.base {
      PerformedOther(t, Establish(|s.conns|), c);
    }
  }

  // Once gone, always gone.
  lemma GoneStep(s: Server, step: Step, c: ConnId)
    requires Inv(s) && Enabled(s, step) && Once(s, step) && c < |s.conns| && !Owned(s, c)
    requires s.conns[c].state == Disconnected && !Registered(s, c)
    ensures var r := Next(s, step);
      WellFormed(r) && c < |r.conns| && r.conns[c].state == Disconnected && !Registered(r, c)
  {
    match step {
      case Perform(l) => GonePerform(s, l, c); PerformOther(s, l, c);
      case Accept(fd, l) => AcceptOther(s, fd, l, c);
      case Close(d) => ClosedOther(s, d, c);
      case _ => MovesOther(s, step, c);
    }
  }

  lemma ClosedOther(s: Server, d: ConnId, c: ConnId)
    requires WellFormed(s) && c < |s.conns| && d < |s.conns| && d != c
    ensures var r := Closed(s, d); WellFormed(r) && c < |r.conns| && r.conns[c] == s.conns[c]
    ensures Registered(Closed(s, d), c) ==> Registered(s, c)
  {
    assert WellFormed(Disabled(s, d));
  }

  lemma MovesOther(s: Server, step: Step, c: ConnId)
    requires WellFormed(s) && Enabled(s, step) && c < |s.conns|
    requires !step.Perform? && !step.Accept? && !step.Close?
    ensures var r := Next(s, step);
      && WellFormed(r) && c < |r.conns| && r.conns[c].state == s.conns[c].state
      && (Registered(r, c) ==> Registered(s, c))
  {
    match step {
      case Release(d) => ReleaseOther(s, d, c);
      case EndDrain(l) =>
        assert Next(s, step).conns == s.conns;
        assert Next(s, step).loops == s.loops[l := s.loops[l].(place := Polling)];
      case _ => LoopsOther(s, step, c);
    }
  }

  lemma ReleaseOther(s: Server, d: ConnId, c: ConnId)
    requires WellFormed(s) && Enabled(s, Release(d)) && c < |s.conns|
    ensures var r := Next(s, Release(d));
      && WellFormed(r) && c < |r.conns| && r.conns[c].state == s.conns[c].state
      && (Registered(r, c) ==> Registered(s, c))
  {
    var m := SetHolders(s, d, s.conns[d].kept - 1, s.conns[d].calling);
    assert WellFormed(m);
    assert Dropped(m, d).loops == s.loops && Dropped(m, d).conns == m.conns by {
      hide Held;
    }
  }

  lemma LoopsOther(s: Server, step: Step, c: ConnId)
    requires WellFormed(s) && Enabled(s, step) && c < |s.conns|
    requires !step.Perform? && !step.Accept? && !step.Close? && !step.Release? && !step.EndDrain?
    ensures var r := Next(s, step);
      && WellFormed(r) && c < |r.conns| && r.conns[c].state == s.conns[c].state
      && (Registered(r, c) ==> Registered(s, c))
  {
  }

  // The map or a functor to run holds a connection until its Destroy functor is performed, and never again.
  lemma OwnedStep(s: Server, step: Step, c: ConnId)
    requires Inv(s) && Enabled(s, step) && Once(s, step) && c < |s.conns|
    ensures var r := Next(s, step);
      && Inv(r) && c < |r.conns| && r.conns[c].loop == s.conns[c].loop
      && (Owned(r, c) <==>
            Owned(s, c) && !(step == Perform(s.conns[c].loop) && s.loops[step.l].place.rest[0] == Destroy(c)))
  {
    InvStep(s, step);
    var r := Next(s, step);
    WhenApart(s, c);
    OpenIffHeld(s, c);
    SameConn(s, step, c);
    WhenApart(r, c);
    OpenIffHeld(r, c);
    if !Owned(s, c) {
      GoneStep(s, step, c);
    } else if step.Perform? && s.loops[step.l].place.rest[0] == Destroy(c) {
      DestructionIsComplete(s, step.l, c);
    } else if Registered(s, c) {
      RemovalIsDeferred(s, step, c);
    } else {
      assert Good(ViewOf(s, c));
      UnstartedStep(s, step, c);
    }
  }

  lemma SameConn(s: Server, step: Step, c: ConnId)
    requires WellFormed(s) && Enabled(s, step) && c < |s.conns|
    ensures var r := Next(s, step); c < |r.conns| && r.conns[c].loop == s.conns[c].loop
  {
    match step {
      case Perform(l) =>
        var m := SetLoop(s, l, Popped(s.loops[l]));
        assert WellFormed(m);
        PerformedEntry(m, s.loops[l].place.rest[0]);
      case Accept(fd, l) => AcceptedEntry(s, fd, l);
      case Close(d) => assert WellFormed(Disabled(s, d));
      case _ =>
    }
  }

  // ---------- and the end of a batch is when ----------

  // The library holds a shared pointer to the connection, if only in a functor that has run.
  predicate ByLibrary(s: Server, c: ConnId)
    requires WellFormed(s) && c < |s.conns|
  {
    Owned(s, c) || Spent(s, c)
  }

  lemma TaskOwned(s: Server, l: LoopId)
    requires Inv(s) && Enabled(s, Perform(l))
    ensures var t := s.loops[l].place.rest[0]; t.c < |s.conns| && Home(s, t) == l && (!t.Raw? ==> Owned(s, t.c))
  {
    PopApart(s, l);
    LoopOkPop(s.loops[l], l, s.base, s.conns);
  }

  // What a batch holds after a step
  lemma BatchStep(x: Loop, y: Loop, step: Step, l: LoopId, c: ConnId)
    requires Moved(x, y, step, l) && MayMove(x, step, l)
    ensures InBatch(y, c) <==>
      if step == Perform(l) then InBatch(x, c) || (x.place.rest[0].c == c && !x.place.rest[0].Raw?)
      else step != EndDrain(l) && InBatch(x, c)
  {
    if step == Perform(l) {
      PoppedOwes(x);
    }
  }

  lemma SpentStep(s: Server, step: Step, l: LoopId, c: ConnId)
    requires WellFormed(s) && Enabled(s, step) && l in s.loops
    ensures l in Next(s, step).loops
    ensures InBatch(Next(s, step).loops[l], c) <==>
      if step == Perform(l) then
        var t := s.loops[l].place.rest[0]; InBatch(s.loops[l], c) || (t.c == c && !t.Raw?)
      else step != EndDrain(l) && InBatch(s.loops[l], c)
  {
    LoopStep(s, step, l);
    LoopEnabled(s, step, l);
    BatchStep(s.loops[l], Next(s, step).loops[l], step, l, c);
  }

  // The library lets go of a connection at the end of a batch and at no other step: of the last batch that
  // holds it, once no map entry and no functor to run does.  It never takes it back.
  lemma LibraryStep(s: Server, step: Step, c: ConnId)
    requires Inv(s) && Enabled(s, step) && Once(s, step) && c < |s.conns|
    ensures var r := Next(s, step);
      && Inv(r) && c < |r.conns|
      && (ByLibrary(r, c) <==>
            ByLibrary(s, c) && (step.EndDrain? ==> Owned(s, c) || InOtherBatch(s, c, step.l)))
  {
    var r := Next(s, step);
    var l := s.conns[c].loop;
    InvGood(s, c);
    SameConn(s, step, c);
    OwnedStep(s, step, c);
    InvGood(r, c);
    SameBase(s, step);
    SpentStep(s, step, l, c);
    SpentStep(s, step, s.base, c);
    if step.Perform? {
      TaskOwned(s, step.l);
    }
    hide Inv, Owned, Next, Enabled, Once, WellFormed, Good, ViewOf;
  }

  lemma SameBase(s: Server, step: Step)
    requires WellFormed(s) && Enabled(s, step)
    ensures Next(s, step).base == s.base
  {
    hide Held;
  }

  // ---------- a call from another thread ----------

  // The swap that takes the connection's Destroy functor is still to come.
  predicate Untaken(s: Server, c: ConnId)
    requires WellFormed(s) && c < |s.conns|
  {
    Owned(s, c) && !(LoopOf(s, c).place.Draining? && Destroy(c) in LoopOf(s, c).place.rest)
  }

  // Functor number `i` of the loop will find the connection in the library's hands: it is in the batch that
  // is running, which holds the connection or has yet to run Destroy, or it will be swapped out no later.
  predicate Safe(x: Loop, c: ConnId, i: nat, owned: bool) {
    if x.place.Draining? && i < |x.place.rest| then owned || InBatch(x, c)
    else owned && !(x.place.Draining? && Destroy(c) in x.place.rest)
  }

  lemma SafeStep(x: Loop, y: Loop, step: Step, l: LoopId, c: ConnId, i: nat, owned: bool, owned': bool)
    requires Moved(x, y, step, l) && MayMove(x, step, l) && i < |Tasks(x)|
    requires step == Perform(l) ==> i > 0
    requires owned' <==> owned && !(step == Perform(l) && x.place.rest[0] == Destroy(c))
    requires step == Perform(l) && x.place.rest[0].c == c && !x.place.rest[0].Raw? ==> owned
    ensures Safe(y, c, if step == Perform(l) then i - 1 else i, owned') <==> Safe(x, c, i, owned)
  {
    BatchStep(x, y, step, l, c);
    if step == Perform(l) {
      assert x.place.rest == [x.place.rest[0]] + x.place.rest[1..];
    }
  }

  // Functor number `i` of the connection's loop is a call, and `safe` says whether the library will still
  // hold the connection when its turn comes.
  ghost predicate Queued(s: Server, c: ConnId, l: LoopId, i: nat, safe: bool) {
    && Inv(s) && WellFormed(s) && c < |s.conns| && s.conns[c].loop == l
    && i < |Tasks(s.loops[l])| && Tasks(s.loops[l])[i] == Raw(c)
    && (Safe(s.loops[l], c, i, Owned(s, c)) <==> safe)
  }

  lemma QueuedStep(s: Server, step: Step, c: ConnId, l: LoopId, i: nat, safe: bool)
    requires Queued(s, c, l, i, safe) && Enabled(s, step) && Once(s, step)
    requires step == Perform(l) ==> i > 0
    ensures Queued(Next(s, step), c, l, if step == Perform(l) then i - 1 else i, safe)
  {
    hide Inv, Owned, WellFormed, Next, Enabled, Once, Tasks, Owes, Safe;
    var r := Next(s, step);
    LoopKnown(s, c);
    OwnedStep(s, step, c);
    LoopStep(s, step, l);
    LoopEnabled(s, step, l);
    InvGood(r, c);
    LoopKnown(r, c);
    var x, y := s.loops[l], r.loops[l];
    MovedTasks(x, y, step, l);
    if step == Perform(l) {
      TaskOwned(s, l);
    }
    SafeStep(x, y, step, l, c, i, Owned(s, c), Owned(r, c));
  }

  lemma LoopKnown(s: Server, c: ConnId)
    requires WellFormed(s) && c < |s.conns|
    ensures s.conns[c].loop in s.loops
  {
  }

  // How many functors of a loop a run performs
  function Performances(l: LoopId, steps: seq<Step>): nat {
    if steps == [] then 0 else (if steps[0] == Perform(l) then 1 else 0) + Performances(l, steps[1..])
  }

  lemma {:induction false} QueuedRun(s: Server, steps: seq<Step>, c: ConnId, l: LoopId, i: nat, safe: bool)
    requires Queued(s, c, l, i, safe) && ValidRun(s, steps) && ClosesOnce(s, steps) && Performances(l, steps) <= i
    ensures Queued(Run(s, steps), c, l, i - Performances(l, steps), safe)
    decreases |steps|
  {
    hide Queued, Next, Enabled, Once;
    if steps != [] {
      QueuedStep(s, steps[0], c, l, i, safe);
      QueuedRun(Next(s, steps[0]), steps[1..], c, l, if steps[0] == Perform(l) then i - 1 else i, safe);
    }
  }

  lemma TasksPushed(x: Loop, t: Task)
    ensures Tasks(x.(pending := x.pending + [t])) == Tasks(x) + [t]
  {
  }

  lemma CallQueued(s: Server, c: ConnId)
    requires Inv(s) && c < |s.conns| && s.conns[c].calling > 0
    ensures WellFormed(s)
    ensures Queued(Called(s, c), c, s.conns[c].loop, |Tasks(LoopOf(s, c))|, Untaken(s, c))
  {
    InvGood(s, c);
    LoopKnown(s, c);
    var l := s.conns[c].loop;
    var x := s.loops[l];
    var m := Called(s, c);
    CalledInv(s, c);
    InvGood(m, c);
    var y := x.(pending := x.pending + [Raw(c)]);
    assert m.loops == s.loops[l := y] && m.conns[c].loop == l && m.table == s.table && m.base == s.base;
    Pushed(x, Raw(c));
    CalledOwner(s, m, l, y, c);
    TasksPushed(x, Raw(c));
    hide Inv, Owned, WellFormed, Owes;
  }

  // Calls hold nothing.
  lemma CalledOwner(s: Server, m: Server, l: LoopId, y: Loop, c: ConnId)
    requires WellFormed(s) && WellFormed(m) && l in s.loops && c < |s.conns| && c < |m.conns|
    requires m.loops == s.loops[l := y] && m.table == s.table && m.base == s.base
    requires m.conns[c].loop == s.conns[c].loop && OwesMore(s.loops[l], y, Raw(c))
    ensures Owned(m, c) <==> Owned(s, c)
  {
  }

  // Held is decided by the view of a connection.
  lemma HeldView(s: Server, r: Server, c: ConnId)
    requires WellFormed(s) && WellFormed(r) && c < |s.conns| && c < |r.conns| && ViewOf(r, c) == ViewOf(s, c)
    ensures Held(r, c) <==> Held(s, c)
  {
  }

  // A run from `m` to `r`, where loop `l` is about to perform functor number `n` of its queue in `m`
  ghost predicate TurnComes(m: Server, l: LoopId, n: nat, steps: seq<Step>, r: Server) {
    && ValidRun(m, steps) && ClosesOnce(m, steps) && r == Run(m, steps) && Performances(l, steps) == n
    && WellFormed(r) && Enabled(r, Perform(l))
  }

  // What the call of `c` does when its turn comes in `r`
  ghost predicate Finds(r: Server, c: ConnId, l: LoopId, alive: bool) {
    && WellFormed(r) && c < |r.conns| && Enabled(r, Perform(l)) && r.loops[l].place.rest[0] == Raw(c)
    && (Held(r, c) <==> alive)
    && (Next(r, Perform(l)).dangling <==> r.dangling || !alive)
  }

  // Somebody but the loop `l` itself holds the connection: a batch of the base loop, a timer or user code.
  predicate Elsewhere(r: Server, c: ConnId, l: LoopId) {
    c < |r.conns| && ((l != r.base && r.base in r.loops && InBatch(r.loops[r.base], c)) || Others(r.conns[c]) > 0)
  }

  lemma CallPerformed(r: Server, c: ConnId, l: LoopId, safe: bool)
    requires Queued(r, c, l, 0, safe) && Enabled(r, Perform(l))
    ensures Finds(r, c, l, safe || Elsewhere(r, c, l))
  {
    assert Tasks(r.loops[l])[0] == r.loops[l].place.rest[0];
    PopView(r, l, c);
    HeldView(r, SetLoop(r, l, Popped(r.loops[l])), c);
  }

  lemma TurnFinds(m: Server, c: ConnId, l: LoopId, n: nat, safe: bool, steps: seq<Step>, r: Server)
    requires Queued(m, c, l, n, safe) && TurnComes(m, l, n, steps, r)
    ensures Finds(r, c, l, safe || Elsewhere(r, c, l))
  {
    hide Queued, Finds, Elsewhere, Enabled, WellFormed, Run, ValidRun, ClosesOnce, Performances;
    QueuedRun(m, steps, c, l, n, safe);
    CallPerformed(r, c, l, safe);
  }

  // A call queued with a raw pointer finds its connection alive if and only if it was queued before the swap
  // that took the connection's Destroy functor, or somebody else holds the connection when its turn comes.
  lemma CallFindsConnectionIff(s: Server, c: ConnId, steps: seq<Step>, r: Server)
    requires Inv(s) && WellFormed(s) && c < |s.conns| && s.conns[c].calling > 0
    requires TurnComes(Called(s, c), s.conns[c].loop, |Tasks(LoopOf(s, c))|, steps, r)
    ensures Finds(r, c, s.conns[c].loop, Untaken(s, c) || Elsewhere(r, c, s.conns[c].loop))
  {
    hide Inv, Queued, TurnComes, Finds, Untaken, Elsewhere, Tasks, Called;
    CallQueued(s, c);
    TurnFinds(Called(s, c), c, s.conns[c].loop, |Tasks(LoopOf(s, c))|, Untaken(s, c), steps, r);
  }

  // A connection that is connected has no Destroy functor anywhere.
  lemma ConnectedIsUntaken(s: Server, c: ConnId)
    requires Inv(s) && c < |s.conns| && s.conns[c].state == Connected
    ensures WellFormed(s) && Untaken(s, c) && Owes(LoopOf(s, c), Destroy(c)) == 0
  {
    InvGood(s, c);
    OwesIn(LoopOf(s, c), Destroy(c));
  }

  // So a call that is queued while its connection is connected always finds it.
  lemma CallWhileConnectedFinds(s: Server, c: ConnId, steps: seq<Step>, r: Server)
    requires Inv(s) && WellFormed(s) && c < |s.conns| && s.conns[c].calling > 0 && s.conns[c].state == Connected
    requires TurnComes(Called(s, c), s.conns[c].loop, |Tasks(LoopOf(s, c))|, steps, r)
    ensures Finds(r, c, s.conns[c].loop, true)
  {
    hide Inv, TurnComes, Finds, Untaken, Tasks, Called, Owes;
    ConnectedIsUntaken(s, c);
    CallFindsConnectionIff(s, c, steps, r);
  }

  // In particular one whose check and push are not separated: only a thread that was held up between them
  // can come too late.
  lemma AtomicCallFinds(s: Server, c: ConnId, steps: seq<Step>, r: Server)
    requires Inv(s) && WellFormed(s) && Enabled(s, Check(c))
    requires TurnComes(Called(Checked(s, c), c), s.conns[c].loop, |Tasks(LoopOf(s, c))|, steps, r)
    ensures Finds(r, c, s.conns[c].loop, true)
  {
    hide Inv, TurnComes, Finds, Tasks, Called, WellFormed;
    CheckInv(s, c);
    InvGood(Checked(s, c), c);
    CallWhileConnectedFinds(Checked(s, c), c, steps, r);
  }
}
