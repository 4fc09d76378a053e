/** The stages of a connection, kept by every step of every loop. */
module ConnectionProofs {
  import opened ConnectionModel

  // All that matters about one connection: its state, the functors that hold it, where it is known, how
  // many others hold it, and whether a batch does that is not over.
  datatype View = View(
    state: State, establish: nat, remove: nat, destroy: nat,
    listed: bool, registered: bool, watched: bool, open: bool, onBase: bool, kept: nat, spent: bool)

  function ViewOf(s: Server, c: ConnId): View
    requires WellFormed(s) && c < |s.conns|
  {
    var k := s.conns[c];
    View(k.state,
         Owes(LoopOf(s, c), Establish(c)), Owes(s.loops[s.base], Remove(c)), Owes(LoopOf(s, c), Destroy(c)),
         c in s.table, Registered(s, c), Registered(s, c) && Watched(s, c), IsOpen(s, c), k.loop == s.base,
         Others(k), Spent(s, c))
  }

  function Waiting(b: bool, k: nat, h: bool): View { View(Connecting, 1, 0, 0, true, false, false, true, b, k, h) }
  function Open(b: bool, k: nat, h: bool): View { View(Connected, 0, 0, 0, true, true, true, true, b, k, h) }
  function Leaving(k: nat, h: bool): View { View(Disconnected, 0, 1, 0, true, true, false, true, false, k, h) }
  function Dying(b: bool, k: nat, h: bool): View { View(Disconnected, 0, 0, 1, false, true, false, true, b, k, h) }

  // All functors have run: the socket is open while a batch or somebody else holds the connection.
  function Gone(b: bool, k: nat, h: bool): View {
    View(Disconnected, 0, 0, 0, false, false, false, k > 0 || h, b, k, h)
  }

  // A connection is waiting to be established, open, waiting to be removed from the map, waiting to
  // be destroyed, or gone; exactly one functor carries it from one stage to the next.
  ghost predicate Good(v: View) {
    || v == Waiting(v.onBase, v.kept, v.spent) || v == Open(v.onBase, v.kept, v.spent)
    || v == Leaving(v.kept, v.spent) || v == Dying(v.onBase, v.kept, v.spent) || v == Gone(v.onBase, v.kept, v.spent)
  }

  // The channel is in the loop's poller, so a pointer to it in activeChannels_ is good.
  ghost predicate Dispatchable(x: Loop, l: LoopId, conns: seq<Conn>, c: ConnId) {
    c < |conns| && conns[c].loop == l && conns[c].fd in x.channels && x.channels[conns[c].fd] == c
  }

  // What is true of each loop by itself
  ghost predicate LoopOk(x: Loop, l: LoopId, base: LoopId, conns: seq<Conn>) {
    && (forall fd :: fd in x.channels ==>
          x.channels[fd] < |conns| && conns[x.channels[fd]].loop == l && conns[x.channels[fd]].fd == fd)
    && x.watched <= x.channels.Keys
    && (forall t :: Owes(x, t) > 0 ==> t.c < |conns| && if t.Remove? then l == base else conns[t.c].loop == l)
    && (x.place.Draining? ==> Known(x.place.done, |conns|))
    && (!x.place.Dispatching? ==> x.current == Nobody)
    && (x.current.Handling? ==> Dispatchable(x, l, conns, x.current.c))
    && (x.place.Dispatching? ==> forall c :: c in x.place.active ==> Dispatchable(x, l, conns, c))
  }

  ghost predicate Inv(s: Server) {
    && WellFormed(s) && !s.fault
    && (forall c :: c in s.table ==> c < |s.conns|)
    && (forall c :: 0 <= c < |s.conns| ==> Good(ViewOf(s, c)))
    && (forall l :: l in s.loops ==> LoopOk(s.loops[l], l, s.base, s.conns))
  }

  // ---------- the functor queues ----------

  // The loop `y` owes what `x` owes, and `t` once more.
  ghost predicate OwesMore(x: Loop, y: Loop, t: Task) {
    forall u :: Owes(y, u) == Owes(x, u) + if u == t then 1 else 0
  }

  ghost predicate OwesSame(x: Loop, y: Loop) {
    forall u :: Owes(y, u) == Owes(x, u)
  }

  // The batches of both loops hold the same connections.
  ghost predicate HoldsSame(x: Loop, y: Loop) {
    forall c :: InBatch(y, c) <==> InBatch(x, c)
  }

  ghost predicate SameWork(x: Loop, y: Loop) {
    OwesSame(x, y) && HoldsSame(x, y)
  }

  lemma CountAppend(q: seq<Task>, t: Task, u: Task)
    ensures Count(q + [t], u) == Count(q, u) + if u == t then 1 else 0
  {
    assert (q + [t])[..|q|] == q;
  }

  lemma {:induction false} CountFront(q: seq<Task>, u: Task)
    requires q != []
    ensures Count(q, u) == Count(q[1..], u) + if u == q[0] then 1 else 0
  {
    if |q| > 1 {
      var p := q[..|q| - 1];
      CountFront(p, u);
      assert p[1..] == q[1..][..|q[1..]| - 1];
    }
  }

  lemma Pushed(x: Loop, t: Task)
    ensures OwesMore(x, x.(pending := x.pending + [t]), t)
  {
    forall u ensures Count(x.pending + [t], u) == Count(x.pending, u) + if u == t then 1 else 0 {
      CountAppend(x.pending, t, u);
    }
  }

  lemma PoppedOwes(x: Loop)
    requires x.place.Draining? && x.place.rest != []
    ensures OwesMore(Popped(x), x, x.place.rest[0])
    ensures forall c :: InBatch(Popped(x), c) <==>
      InBatch(x, c) || (x.place.rest[0].c == c && !x.place.rest[0].Raw?)
  {
    forall u ensures Count(x.place.rest, u) == Count(x.place.rest[1..], u) + if u == x.place.rest[0] then 1 else 0 {
      CountFront(x.place.rest, u);
    }
  }

  // ---------- one loop moves, or one connection changes stage ----------

  lemma SameViews(s: Server, l: LoopId, x: Loop)
    requires WellFormed(s) && l in s.loops
    requires SameWork(s.loops[l], x) && x.channels == s.loops[l].channels && x.watched == s.loops[l].watched
    ensures forall c :: 0 <= c < |s.conns| ==> ViewOf(SetLoop(s, l, x), c) == ViewOf(s, c)
  {
  }

  lemma MoveInv(s: Server, l: LoopId, x: Loop)
    requires Inv(s) && l in s.loops
    requires SameWork(s.loops[l], x) && x.channels == s.loops[l].channels && x.watched == s.loops[l].watched
    requires LoopOk(x, l, s.base, s.conns)
    ensures Inv(SetLoop(s, l, x))
  {
    SameViews(s, l, x);
  }

  // The invariant, except for the stage of connection `c`
  ghost predicate Apart(s: Server, c: ConnId) {
    && WellFormed(s) && !s.fault && c < |s.conns|
    && (forall d :: d in s.table ==> d < |s.conns|)
    && (forall d :: 0 <= d < |s.conns| && d != c ==> Good(ViewOf(s, d)))
    && (forall l :: l in s.loops ==> LoopOk(s.loops[l], l, s.base, s.conns))
  }

  // Two open connections have different fds.
  lemma FdsDistinct(s: Server, c: ConnId, d: ConnId)
    requires Apart(s, c) && d < |s.conns| && d != c && ViewOf(s, c).open && s.conns[d].fd == s.conns[c].fd
    ensures !Registered(s, d) && ViewOf(s, d) == Gone(ViewOf(s, d).onBase, 0, false)
  {
    assert Good(ViewOf(s, d)) && !ViewOf(s, d).open;
  }

  // LoopOk looks at the loop and the fd of a connection only.
  lemma LoopOkConns(x: Loop, l: LoopId, base: LoopId, conns: seq<Conn>, conns': seq<Conn>)
    requires LoopOk(x, l, base, conns) && |conns| <= |conns'|
    requires forall c :: 0 <= c < |conns| ==> conns'[c].loop == conns[c].loop && conns'[c].fd == conns[c].fd
    ensures LoopOk(x, l, base, conns')
  {
  }

  lemma StateView(s: Server, c: ConnId, state: State, d: ConnId)
    requires WellFormed(s) && c < |s.conns| && d < |s.conns|
    ensures WellFormed(SetState(s, c, state))
    ensures ViewOf(SetState(s, c, state), d) == if d == c then ViewOf(s, d).(state := state) else ViewOf(s, d)
  {
  }

  lemma LoopView(s: Server, l: LoopId, y: Loop, d: ConnId)
    requires WellFormed(s) && l in s.loops && d < |s.conns| && SameWork(s.loops[l], y)
    ensures var r := SetLoop(s, l, y);
      var k := s.conns[d];
      && WellFormed(r)
      && (k.loop != l ==> ViewOf(r, d) == ViewOf(s, d))
      && (k.loop == l ==>
            var reg := Dispatchable(y, l, s.conns, d);
            ViewOf(r, d) == ViewOf(s, d).(registered := reg, watched := reg && k.fd in y.watched))
  {
  }

  lemma StateChange(s: Server, c: ConnId, state: State)
    requires Apart(s, c)
    ensures Apart(SetState(s, c, state), c)
    ensures ViewOf(SetState(s, c, state), c) == ViewOf(s, c).(state := state)
  {
    var r := SetState(s, c, state);
    forall d | 0 <= d < |s.conns| && d != c ensures ViewOf(r, d) == ViewOf(s, d) {
      StateView(s, c, state, d);
    }
    StateView(s, c, state, c);
    forall l | l in s.loops ensures LoopOk(r.loops[l], l, r.base, r.conns) {
      LoopOkConns(s.loops[l], l, s.base, s.conns, r.conns);
    }
  }

  lemma HoldersView(s: Server, c: ConnId, kept: nat, calling: nat, d: ConnId)
    requires WellFormed(s) && c < |s.conns| && d < |s.conns|
    ensures WellFormed(SetHolders(s, c, kept, calling))
    ensures ViewOf(SetHolders(s, c, kept, calling), d) ==
      if d == c then ViewOf(s, d).(kept := kept + calling) else ViewOf(s, d)
  {
  }

  lemma HoldersChange(s: Server, c: ConnId, kept: nat, calling: nat)
    requires Apart(s, c)
    ensures Apart(SetHolders(s, c, kept, calling), c)
    ensures ViewOf(SetHolders(s, c, kept, calling), c) == ViewOf(s, c).(kept := kept + calling)
  {
    var r := SetHolders(s, c, kept, calling);
    forall d | 0 <= d < |s.conns| && d != c ensures ViewOf(r, d) == ViewOf(s, d) {
      HoldersView(s, c, kept, calling, d);
    }
    HoldersView(s, c, kept, calling, c);
    forall l | l in s.loops ensures LoopOk(r.loops[l], l, r.base, r.conns) {
      LoopOkConns(s.loops[l], l, s.base, s.conns, r.conns);
    }
  }

  // Replacing the loop of an open connection: its channel may change, other open connections' may not.
  lemma LoopChange(s: Server, c: ConnId, y: Loop)
    requires Apart(s, c) && LoopOk(y, s.conns[c].loop, s.base, s.conns) && SameWork(LoopOf(s, c), y)
    requires forall d :: 0 <= d < |s.conns| && d != c && s.conns[d].loop == s.conns[c].loop ==>
               (Dispatchable(y, s.conns[d].loop, s.conns, d) <==> Registered(s, d))
               && (Registered(s, d) ==> (s.conns[d].fd in y.watched <==> Watched(s, d)))
    ensures var r := SetLoop(s, s.conns[c].loop, y);
      && Apart(r, c)
      && ViewOf(r, c) ==
           ViewOf(s, c).(registered := Registered(r, c), watched := Registered(r, c) && Watched(r, c))
  {
    var r := SetLoop(s, s.conns[c].loop, y);
    forall d | 0 <= d < |s.conns| && d != c ensures ViewOf(r, d) == ViewOf(s, d) {
      LoopView(s, s.conns[c].loop, y, d);
    }
    LoopView(s, s.conns[c].loop, y, c);
  }

  lemma EstablishedApart(s: Server, c: ConnId, b: bool, k: nat, h: bool)
    requires Apart(s, c) && ViewOf(s, c) == Waiting(b, k, h).(establish := 0)
    ensures Apart(Established(s, c), c) && ViewOf(Established(s, c), c) == Open(b, k, h)
  {
    var l, fd := s.conns[c].loop, s.conns[c].fd;
    var x := s.loops[l];
    assert LoopOk(x, l, s.base, s.conns);
    if fd in x.channels {
      var d := x.channels[fd];
      FdsDistinct(s, c, d);
      assert false;
    }
    var y := x.(channels := x.channels[fd := c], watched := x.watched + {fd});
    assert SameWork(x, y);
    forall d: ConnId | Dispatchable(x, l, s.conns, d) ensures Dispatchable(y, l, s.conns, d) {}
    assert LoopOk(y, l, s.base, s.conns);
    LoopChange(s, c, y);
    StateChange(SetLoop(s, l, y), c, Connected);
    assert Established(s, c) == SetState(SetLoop(s, l, y), c, Connected);
  }

  lemma DisabledApart(s: Server, c: ConnId)
    requires Apart(s, c) && ViewOf(s, c).open && ViewOf(s, c).registered
    ensures var r := SetLoop(s, s.conns[c].loop, DisableAll(LoopOf(s, c), s.conns[c].fd));
      Apart(r, c) && ViewOf(r, c) == ViewOf(s, c).(watched := !ViewOf(s, c).watched)
  {
    var l, fd := s.conns[c].loop, s.conns[c].fd;
    var x := s.loops[l];
    var y := DisableAll(x, fd);
    assert LoopOk(x, l, s.base, s.conns);
    assert SameWork(x, y);
    forall d: ConnId | Dispatchable(x, l, s.conns, d) ensures Dispatchable(y, l, s.conns, d) {}
    assert LoopOk(y, l, s.base, s.conns);
    LoopChange(s, c, y);
  }

  lemma LoopOkUnregistered(x: Loop, l: LoopId, base: LoopId, conns: seq<Conn>, fd: Fd)
    requires LoopOk(x, l, base, conns) && !x.place.Dispatching?
    ensures LoopOk(x.(channels := x.channels - {fd}, watched := x.watched - {fd}), l, base, conns)
  {
    assert SameWork(x, x.(channels := x.channels - {fd}, watched := x.watched - {fd}));
  }

  lemma UnregisteredApart(s: Server, c: ConnId)
    requires Apart(s, c) && ViewOf(s, c).open && LoopOf(s, c).place.Draining?
    ensures var x, k := LoopOf(s, c), s.conns[c];
      var r := SetLoop(s, k.loop, x.(channels := x.channels - {k.fd}, watched := x.watched - {k.fd}));
      Apart(r, c) && ViewOf(r, c) == ViewOf(s, c).(registered := false, watched := false)
  {
    var l, fd := s.conns[c].loop, s.conns[c].fd;
    var x := s.loops[l];
    var y := x.(channels := x.channels - {fd}, watched := x.watched - {fd});
    LoopOkUnregistered(x, l, s.base, s.conns, fd);
    assert SameWork(x, y);
    forall d | 0 <= d < |s.conns| && d != c && s.conns[d].loop == l
      ensures Dispatchable(y, l, s.conns, d) <==> Registered(s, d)
      ensures Registered(s, d) ==> (s.conns[d].fd in y.watched <==> Watched(s, d))
    {
      if s.conns[d].fd == fd {
        FdsDistinct(s, c, d);
      }
    }
    LoopChange(s, c, y);
  }

  // ---------- functors come and go ----------

  function Added(v: View, t: Task): View {
    match t
    case Establish(_) => v.(establish := v.establish + 1)
    case Remove(_) => v.(remove := v.remove + 1)
    case Destroy(_) => v.(destroy := v.destroy + 1)
    case Raw(_) => v
  }

  // The loop a functor belongs to
  function Home(s: Server, t: Task): LoopId
    requires WellFormed(s) && t.c < |s.conns|
  {
    if t.Remove? then s.base else s.conns[t.c].loop
  }

  lemma WorkView(s: Server, l: LoopId, y: Loop, t: Task, d: ConnId)
    requires WellFormed(s) && l in s.loops && d < |s.conns| && t.c < |s.conns| && l == Home(s, t)
    requires OwesMore(s.loops[l], y, t) && HoldsSame(s.loops[l], y)
    requires y.channels == s.loops[l].channels && y.watched == s.loops[l].watched
    ensures WellFormed(SetLoop(s, l, y))
    ensures ViewOf(SetLoop(s, l, y), d) == if d == t.c then Added(ViewOf(s, d), t) else ViewOf(s, d)
  {
  }

  // The next functor is called: it is owed no more, but its batch holds its connection.
  lemma PopView(s: Server, l: LoopId, d: ConnId)
    requires WellFormed(s) && l in s.loops && s.loops[l].place.Draining? && s.loops[l].place.rest != []
    requires d < |s.conns| && s.loops[l].place.rest[0].c < |s.conns| && l == Home(s, s.loops[l].place.rest[0])
    ensures var t := s.loops[l].place.rest[0];
      var r := SetLoop(s, l, Popped(s.loops[l]));
      && WellFormed(r)
      && (d != t.c ==> ViewOf(r, d) == ViewOf(s, d))
      && (d == t.c ==> ViewOf(s, d) == Added(ViewOf(r, d), t).(spent := ViewOf(s, d).spent)
                       && (ViewOf(r, d).spent <==> ViewOf(s, d).spent || !t.Raw?))
  {
    PoppedOwes(s.loops[l]);
  }

  lemma LoopOkPush(x: Loop, l: LoopId, base: LoopId, conns: seq<Conn>, t: Task)
    requires LoopOk(x, l, base, conns)
    requires t.c < |conns| && if t.Remove? then l == base else conns[t.c].loop == l
    ensures LoopOk(x.(pending := x.pending + [t]), l, base, conns)
  {
    Pushed(x, t);
  }

  // A loop that changed nothing about the other connections
  lemma ApartWith(s: Server, l: LoopId, y: Loop, c: ConnId)
    requires Apart(s, c) && l in s.loops && LoopOk(y, l, s.base, s.conns) && WellFormed(SetLoop(s, l, y))
    requires forall d :: 0 <= d < |s.conns| && d != c ==> ViewOf(SetLoop(s, l, y), d) == ViewOf(s, d)
    ensures Apart(SetLoop(s, l, y), c)
  {
    hide ViewOf, Good, LoopOk, WellFormed;
  }

  lemma PushApart(s: Server, t: Task)
    requires Apart(s, t.c)
    ensures var r := Push(s, Home(s, t), t); Apart(r, t.c) && ViewOf(r, t.c) == Added(ViewOf(s, t.c), t)
  {
    var l := Home(s, t);
    var x := s.loops[l];
    var y := x.(pending := x.pending + [t]);
    Pushed(x, t);
    LoopOkPush(x, l, s.base, s.conns, t);
    WorkView(s, l, y, t, t.c);
    forall d | 0 <= d < |s.conns| && d != t.c ensures ViewOf(SetLoop(s, l, y), d) == ViewOf(s, d) {
      WorkView(s, l, y, t, d);
    }
    ApartWith(s, l, y, t.c);
  }

  lemma LoopOkPop(x: Loop, l: LoopId, base: LoopId, conns: seq<Conn>)
    requires LoopOk(x, l, base, conns) && x.place.Draining? && x.place.rest != []
    ensures LoopOk(Popped(x), l, base, conns)
    ensures Owes(x, x.place.rest[0]) > 0
  {
    PoppedOwes(x);
    assert forall t :: Owes(Popped(x), t) > 0 ==> Owes(x, t) > 0;
  }

  lemma PopApart(s: Server, l: LoopId)
    requires Inv(s) && l in s.loops && s.loops[l].place.Draining? && s.loops[l].place.rest != []
    ensures var t := s.loops[l].place.rest[0];
      var r := SetLoop(s, l, Popped(s.loops[l]));
      && t.c < |s.conns| && Home(s, t) == l && Apart(r, t.c)
      && ViewOf(s, t.c) == Added(ViewOf(r, t.c), t).(spent := ViewOf(s, t.c).spent)
      && (ViewOf(r, t.c).spent <==> ViewOf(s, t.c).spent || !t.Raw?)
  {
    var t := s.loops[l].place.rest[0];
    var y := Popped(s.loops[l]);
    LoopOkPop(s.loops[l], l, s.base, s.conns);
    PopView(s, l, t.c);
    forall d | 0 <= d < |s.conns| && d != t.c ensures ViewOf(SetLoop(s, l, y), d) == ViewOf(s, d) {
      PopView(s, l, d);
    }
    WhenApart(s, t.c);
    ApartWith(s, l, y, t.c);
  }

  // ---------- the steps ----------

  lemma WhenApart(s: Server, c: ConnId)
    requires Inv(s) && c < |s.conns|
    ensures Apart(s, c) && Good(ViewOf(s, c))
  {
  }

  lemma Together(s: Server, c: ConnId)
    requires Apart(s, c) && Good(ViewOf(s, c))
    ensures Inv(s)
  {
  }

  lemma UnlistedApart(s: Server, c: ConnId)
    requires Apart(s, c)
    ensures var r := s.(table := s.table - {c}); Apart(r, c) && ViewOf(r, c) == ViewOf(s, c).(listed := false)
  {
    var r := s.(table := s.table - {c});
    forall d | 0 <= d < |s.conns| && d != c ensures ViewOf(r, d) == ViewOf(s, d) {
      UnlistedView(s, c, d);
    }
  }

  lemma UnlistedView(s: Server, c: ConnId, d: ConnId)
    requires WellFormed(s) && d < |s.conns| && d != c
    ensures WellFormed(s.(table := s.table - {c})) && ViewOf(s.(table := s.table - {c}), d) == ViewOf(s, d)
  {
  }

  // removeConnectionInLoop finds the connection in the map.
  lemma RemovedApart(s: Server, c: ConnId, b: bool, k: nat, h: bool)
    requires Apart(s, c) && ViewOf(s, c) == Leaving(k, h).(remove := 0, onBase := b)
    ensures Apart(Removed(s, c), c) && ViewOf(Removed(s, c), c) == Dying(b, k, h)
  {
    UnlistedApart(s, c);
    var m := s.(table := s.table - {c});
    PushApart(m, Destroy(c));
    assert Removed(s, c) == Push(m, s.conns[c].loop, Destroy(c));
  }

  // The part of handleClose before the close callback
  function Disabled(s: Server, c: ConnId): Server
    requires WellFormed(s) && c < |s.conns|
  {
    SetLoop(SetState(s, c, Disconnected), s.conns[c].loop, DisableAll(LoopOf(s, c), s.conns[c].fd))
  }

  lemma DisconnectedApart(s: Server, c: ConnId)
    requires Inv(s) && c < |s.conns| && s.conns[c].state == Connected
    ensures Apart(Disabled(s, c), c)
    ensures ViewOf(Disabled(s, c), c) ==
      Leaving(Others(s.conns[c]), Spent(s, c)).(remove := 0, onBase := s.conns[c].loop == s.base)
  {
    WhenApart(s, c);
    DisabledApart(s, c);
    var m := SetLoop(s, s.conns[c].loop, DisableAll(LoopOf(s, c), s.conns[c].fd));
    StateChange(m, c, Disconnected);
    assert SetState(m, c, Disconnected) == Disabled(s, c);
  }

  // handleClose on an open connection
  lemma ClosedInv(s: Server, c: ConnId)
    requires Inv(s) && c < |s.conns| && s.conns[c].state == Connected
    ensures Inv(Closed(s, c))
  {
    DisconnectedApart(s, c);
    if s.conns[c].loop == s.base {
      RemovedApart(Disabled(s, c), c, true, Others(s.conns[c]), Spent(s, c));
    } else {
      PushApart(Disabled(s, c), Remove(c));
    }
    Together(Closed(s, c), c);
  }

  // connectDestroyed is not refused; the functor's own pointer keeps the connection for now.
  lemma DestroyedApart(s: Server, c: ConnId, b: bool, k: nat, h: bool)
    requires Apart(s, c) && ViewOf(s, c) == Dying(b, k, h).(destroy := 0) && LoopOf(s, c).place.Draining?
    ensures Apart(Destroyed(s, c), c) && ViewOf(Destroyed(s, c), c) == Gone(b, k, h).(open := true)
  {
    UnregisteredApart(s, c);
    assert LoopOk(LoopOf(s, c), s.conns[c].loop, s.base, s.conns);
  }

  // ---------- holders let go ----------

  // A dropped connection closes its own socket and no other.
  lemma DroppedOpen(s: Server, c: ConnId, d: ConnId)
    requires WellFormed(s) && c < |s.conns| && d < |s.conns|
    ensures var r := Dropped(s, c);
      WellFormed(r) && (IsOpen(r, d) <==> IsOpen(s, d) && (d != c || Held(s, c)))
  {
  }

  lemma {:induction false} DroppedAllOpen(s: Server, q: seq<Task>, d: ConnId)
    requires WellFormed(s) && Known(q, |s.conns|) && d < |s.conns|
    ensures IsOpen(DroppedAll(s, q), d) <==> IsOpen(s, d) && (!Binds(q, d) || Held(s, d))
    decreases |q|
  {
    if q != [] {
      var t := q[0];
      var m := if t.Raw? then s else Dropped(s, t.c);
      assert q == [t] + q[1..];
      DroppedOpen(s, t.c, d);
      SocketsOnly(s, m, d);
      DroppedAllOpen(m, q[1..], d);
    }
  }

  lemma SocketsOnly(s: Server, r: Server, d: ConnId)
    requires WellFormed(s) && d < |s.conns| && r == s.(sockets := r.sockets)
    ensures WellFormed(r) && (Held(r, d) <==> Held(s, d)) && ViewOf(r, d) == ViewOf(s, d).(open := IsOpen(r, d))
  {
  }

  lemma InvGood(s: Server, c: ConnId)
    requires Inv(s)
    ensures WellFormed(s) && (c < |s.conns| ==> Good(ViewOf(s, c)))
  {
  }

  lemma HoldersInv(s: Server, c: ConnId, kept: nat, calling: nat)
    requires Inv(s) && c < |s.conns| && Good(ViewOf(s, c).(kept := kept + calling))
    ensures Inv(SetHolders(s, c, kept, calling))
  {
    WhenApart(s, c);
    HoldersChange(s, c, kept, calling);
    Together(SetHolders(s, c, kept, calling), c);
  }

  lemma KeepInv(s: Server, c: ConnId)
    requires Inv(s) && c < |s.conns| && Held(s, c)
    ensures Inv(SetHolders(s, c, s.conns[c].kept + 1, s.conns[c].calling))
  {
    InvGood(s, c);
    KeptGood(s, c);
    HoldersInv(s, c, s.conns[c].kept + 1, s.conns[c].calling);
  }

  lemma KeptGood(s: Server, c: ConnId)
    requires WellFormed(s) && c < |s.conns| && Good(ViewOf(s, c)) && Held(s, c)
    ensures Good(ViewOf(s, c).(kept := Others(s.conns[c]) + 1))
  {
  }

  lemma SameGood(s: Server, c: ConnId, n: nat)
    requires WellFormed(s) && c < |s.conns| && Good(ViewOf(s, c)) && n == Others(s.conns[c])
    ensures Good(ViewOf(s, c).(kept := n))
  {
  }

  lemma CheckInv(s: Server, c: ConnId)
    requires Inv(s) && c < |s.conns| && s.conns[c].kept > 0
    ensures Inv(Checked(s, c))
  {
    hide Inv, Good, ViewOf;
    InvGood(s, c);
    SameGood(s, c, s.conns[c].kept - 1 + (s.conns[c].calling + 1));
    HoldersInv(s, c, s.conns[c].kept - 1, s.conns[c].calling + 1);
  }

  lemma ReleaseInv(s: Server, c: ConnId)
    requires Inv(s) && Enabled(s, Release(c))
    ensures Inv(Next(s, Release(c)))
  {
    WhenApart(s, c);
    var m := SetHolders(s, c, s.conns[c].kept - 1, s.conns[c].calling);
    HoldersChange(s, c, s.conns[c].kept - 1, s.conns[c].calling);
    ReleasedGood(m, c, ViewOf(s, c));
    hide Inv, Good, ViewOf, WellFormed, Apart, Held, Dropped;
    SocketsApart(m, Dropped(m, c), c);
    Together(Dropped(m, c), c);
  }

  lemma ReleasedGood(m: Server, c: ConnId, v: View)
    requires WellFormed(m) && c < |m.conns| && Good(v) && v.kept > 0 && ViewOf(m, c) == v.(kept := v.kept - 1)
    ensures var r := Dropped(m, c); WellFormed(r) && c < |r.conns| && Good(ViewOf(r, c))
  {
    DroppedOpen(m, c, c);
    SocketsOnly(m, Dropped(m, c), c);
  }

  // Closing sockets of no other connection
  lemma SocketsApart(s: Server, r: Server, c: ConnId)
    requires Apart(s, c) && r == Dropped(s, c)
    ensures Apart(r, c) && ViewOf(r, c) == ViewOf(s, c).(open := IsOpen(r, c))
  {
    forall d | 0 <= d < |s.conns| && d != c ensures ViewOf(r, d) == ViewOf(s, d) {
      SocketsOnly(s, r, d);
      DroppedOpen(s, c, d);
    }
    SocketsOnly(s, r, c);
  }

  lemma PushInv(s: Server, c: ConnId)
    requires Inv(s) && c < |s.conns|
    ensures Inv(Push(s, s.conns[c].loop, Raw(c)))
  {
    WhenApart(s, c);
    PushApart(s, Raw(c));
    Together(Push(s, s.conns[c].loop, Raw(c)), c);
  }

  lemma CalledInv(s: Server, c: ConnId)
    requires Inv(s) && c < |s.conns| && s.conns[c].calling > 0
    ensures s.conns[c].loop in s.loops && Inv(Called(s, c))
  {
    hide Inv, Good, ViewOf;
    InvGood(s, c);
    SameGood(s, c, s.conns[c].kept + 1 + (s.conns[c].calling - 1));
    HoldersInv(s, c, s.conns[c].kept + 1, s.conns[c].calling - 1);
    PushInv(SetHolders(s, c, s.conns[c].kept + 1, s.conns[c].calling - 1), c);
  }

  // ---------- the end of a batch ----------

  // Nothing changes about a connection but that this batch holds it no longer.
  lemma EndView(s: Server, l: LoopId, d: ConnId)
    requires WellFormed(s) && Enabled(s, EndDrain(l)) && d < |s.conns|
    ensures var m := SetLoop(s, l, s.loops[l].(place := Polling));
      && WellFormed(m) && ViewOf(m, d) == ViewOf(s, d).(spent := Spent(m, d))
      && (Spent(m, d) ==> Spent(s, d)) && (Spent(s, d) && !Spent(m, d) ==> Binds(s.loops[l].place.done, d))
  {
    assert OwesSame(s.loops[l], s.loops[l].(place := Polling));
  }

  // A socket of the batch is closed exactly if nobody holds its connection any more.
  lemma EndGood(s: Server, l: LoopId, d: ConnId)
    requires WellFormed(s) && Enabled(s, EndDrain(l)) && d < |s.conns| && Good(ViewOf(s, d))
    ensures var r := Next(s, EndDrain(l)); WellFormed(r) && d < |r.conns| && Good(ViewOf(r, d))
  {
    var m := SetLoop(s, l, s.loops[l].(place := Polling));
    EndView(s, l, d);
    DroppedAllOpen(m, s.loops[l].place.done, d);
    SocketsOnly(m, Next(s, EndDrain(l)), d);
  }

  lemma EndDrainInv(s: Server, l: LoopId)
    requires Inv(s) && Enabled(s, EndDrain(l))
    ensures Inv(Next(s, EndDrain(l)))
  {
    var r := Next(s, EndDrain(l));
    assert OwesSame(s.loops[l], s.loops[l].(place := Polling));
    assert LoopOk(r.loops[l], l, s.base, s.conns) by {
      assert LoopOk(s.loops[l], l, s.base, s.conns);
    }
    forall d | 0 <= d < |r.conns| ensures Good(ViewOf(r, d)) {
      EndGood(s, l, d);
    }
  }

  // ---------- functors run ----------

  lemma PerformInv(s: Server, l: LoopId)
    requires Inv(s) && Enabled(s, Perform(l))
    ensures Inv(Next(s, Perform(l)))
  {
    var t := s.loops[l].place.rest[0];
    PopApart(s, l);
    WhenApart(s, t.c);
    PerformedInv(SetLoop(s, l, Popped(s.loops[l])), t, ViewOf(s, t.c));
  }

  lemma PerformedInv(r: Server, t: Task, v: View)
    requires Apart(r, t.c) && Good(v) && v == Added(ViewOf(r, t.c), t).(spent := v.spent)
    requires ViewOf(r, t.c).spent <==> v.spent || !t.Raw?
    requires t.Destroy? ==> LoopOf(r, t.c).place.Draining?
    ensures Inv(Performed(r, t))
  {
    match t {
      case Establish(c) => EstablishedApart(r, c, v.onBase, v.kept, true);
      case Remove(c) => RemovedApart(r, c, v.onBase, v.kept, true);
      case Destroy(c) => DestroyedApart(r, c, v.onBase, v.kept, true);
      case Raw(c) => RawApart(r, c);
    }
    Together(Performed(r, t), t.c);
  }

  lemma RawApart(s: Server, c: ConnId)
    requires Apart(s, c)
    ensures var r := Performed(s, Raw(c)); Apart(r, c) && ViewOf(r, c) == ViewOf(s, c)
  {
    var r := Performed(s, Raw(c));
    assert forall d :: 0 <= d < |s.conns| ==> ViewOf(r, d) == ViewOf(s, d);
  }

  lemma NewView(s: Server, t: Server, d: ConnId, fd: Fd)
    requires WellFormed(s) && WellFormed(t) && d < |s.conns| && Good(ViewOf(s, d)) && fd !in s.sockets
    requires t == s.(conns := t.conns, table := s.table + {|s.conns|}, sockets := s.sockets[fd := |s.conns|])
    requires s.conns <= t.conns
    ensures ViewOf(t, d) == ViewOf(s, d)
  {
  }

  lemma NewConn(s: Server, fd: Fd, l: LoopId)
    requires Inv(s) && l in s.loops && fd !in s.sockets
    ensures var t := Listed(s, fd, l);
      Apart(t, |s.conns|) && ViewOf(t, |s.conns|) == Waiting(l == s.base, 0, false).(establish := 0)
  {
    var c := |s.conns|;
    var t := Listed(s, fd, l);
    assert WellFormed(t);
    forall m | m in s.loops ensures LoopOk(t.loops[m], m, t.base, t.conns) {
      LoopOkConns(s.loops[m], m, s.base, s.conns, t.conns);
    }
    forall d | 0 <= d < c ensures ViewOf(t, d) == ViewOf(s, d) {
      NewView(s, t, d, fd);
    }
    assert LoopOk(s.loops[l], l, s.base, s.conns) && LoopOk(s.loops[s.base], s.base, s.base, s.conns);
  }

  lemma AcceptInv(s: Server, fd: Fd, l: LoopId)
    requires Inv(s) && Enabled(s, Accept(fd, l))
    ensures Inv(Next(s, Accept(fd, l)))
  {
    var c := |s.conns|;
    var t := Listed(s, fd, l);
    NewConn(s, fd, l);
    if l == s.base {
      EstablishedApart(t, c, true, 0, false);
    } else {
      PushApart(t, Establish(c));
    }
    Together(Next(s, Accept(fd, l)), c);
  }
}
