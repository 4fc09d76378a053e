/** The three views of a channel's registration always agree, exactly when descriptors are not shared. */
module PollerTheorems {
  import opened PollerModel

  ghost predicate DistinctFds<Id>(channels: map<Id, Channel>) {
    forall c, d :: c in channels && d in channels && channels[c].fd == channels[d].fd ==> c == d
  }

  // One channel against the table and the kernel
  predicate Agrees<Id(==)>(p: Poller<Id>, c: Id)
    requires c in p.channels
  {
    var ch := p.channels[c];
    && ch.index in {NEW, ADDED, DELETED}
    && (ch.index == ADDED <==> ch.fd in p.kernel)
    && (ch.index == ADDED ==> p.kernel[ch.fd] == Entry(ch.events, c))
    && (ch.index != NEW <==> HasChannel(p, c))
    && (ch.index == DELETED ==> ch.events == NONE_EVENT)
  }

  ghost predicate Known<Id>(p: Poller<Id>) {
    && (forall fd :: fd in p.table ==> p.table[fd] in p.channels && p.channels[p.table[fd]].fd == fd)
    && (forall fd :: fd in p.kernel ==> fd in p.table)
  }

  ghost predicate Agreement<Id>(p: Poller<Id>) {
    DistinctFds(p.channels) && Known(p) && forall c :: c in p.channels ==> Agrees(p, c)
  }

  // The cases of updateChannel when the views agree: which operation is issued, and never in vain
  lemma UpdateMeans<Id>(p: Poller<Id>, c: Id, events: Mask)
    requires c in p.channels && Agrees(p, c)
    ensures var fd := p.channels[c].fd;
      var added := p.channels[c].index != ADDED || events != NONE_EVENT;
      var q := UpdateChannel(SetEvents(p, c, events), c);
      && q.channels == p.channels[c := Channel(fd, events, if added then ADDED else DELETED)]
      && q.table == p.table[fd := c]
      && q.kernel == (if added then p.kernel[fd := Entry(events, c)] else p.kernel - {fd})
      && q.refused == p.refused
  {
  }

  lemma RemoveMeans<Id>(p: Poller<Id>, c: Id)
    requires c in p.channels && Agrees(p, c)
    ensures var fd := p.channels[c].fd;
      var q := RemoveChannel(p, c);
      && q.channels == p.channels[c := p.channels[c].(index := NEW)]
      && q.table == p.table - {fd}
      && q.kernel == p.kernel - {fd}
      && q.refused == p.refused
  {
    RemoveChannels(p, c);
  }

  // Whoever changes one channel, with its entries in the table and the kernel, keeps the agreement.
  lemma AgreementChange<Id>(p: Poller<Id>, q: Poller<Id>, c: Id)
    requires Agreement(p) && c in p.channels && c in q.channels && Agrees(q, c)
    requires q.channels == p.channels[c := q.channels[c]] && q.channels[c].fd == p.channels[c].fd
    requires q.table - {p.channels[c].fd} == p.table - {p.channels[c].fd}
    requires q.kernel - {p.channels[c].fd} == p.kernel - {p.channels[c].fd}
    requires p.channels[c].fd in q.table ==> q.table[p.channels[c].fd] == c
    requires p.channels[c].fd in q.kernel ==> p.channels[c].fd in q.table
    ensures Agreement(q)
  {
    var fd := p.channels[c].fd;
    forall d | d in q.channels ensures Agrees(q, d) {
      if d != c {
        OtherFd(p, q, p.channels[d].fd, fd);
        assert Agrees(p, d);
      }
    }
    forall f | f in q.table ensures q.table[f] in q.channels && q.channels[q.table[f]].fd == f {
      OtherFd(p, q, f, fd);
    }
    forall f | f in q.kernel ensures f in q.table {
      OtherFd(p, q, f, fd);
    }
  }

  lemma OtherFd<Id>(p: Poller<Id>, q: Poller<Id>, f: int, fd: int)
    requires q.table - {fd} == p.table - {fd} && q.kernel - {fd} == p.kernel - {fd}
    ensures f != fd ==> (f in q.table <==> f in p.table) && (f in q.kernel <==> f in p.kernel)
    ensures f != fd && f in p.table ==> q.table[f] == p.table[f]
    ensures f != fd && f in p.kernel ==> q.kernel[f] == p.kernel[f]
  {
    if f != fd {
      assert f in q.table <==> f in q.table - {fd};
      assert f in q.kernel <==> f in q.kernel - {fd};
      assert f in p.table ==> (p.table - {fd})[f] == p.table[f];
      assert f in p.kernel ==> (p.kernel - {fd})[f] == p.kernel[f];
    }
  }

  lemma UpdateAgrees<Id>(p: Poller<Id>, c: Id, events: Mask)
    requires Agreement(p) && c in p.channels
    ensures var q := UpdateChannel(SetEvents(p, c, events), c); Agreement(q) && q.refused == p.refused
  {
    UpdateMeans(p, c, events);
    AgreementChange(p, UpdateChannel(SetEvents(p, c, events), c), c);
  }

  lemma RemoveAgrees<Id>(p: Poller<Id>, c: Id)
    requires Agreement(p) && c in p.channels
    ensures Agreement(RemoveChannel(p, c)) && RemoveChannel(p, c).refused == p.refused
  {
    RemoveMeans(p, c);
    AgreementChange(p, RemoveChannel(p, c), c);
  }

  lemma PerformAgrees<Id>(p: Poller<Id>, call: Call<Id>)
    requires Agreement(p) && call.c in p.channels
    ensures Agreement(Perform(p, call)) && Perform(p, call).refused == p.refused
  {
    if call.Remove? {
      RemoveAgrees(p, call.c);
    } else {
      UpdateAgrees(p, call.c, Masked(p.channels[call.c].events, call));
    }
  }

  lemma CreateAgrees<Id>(p: Poller<Id>, c: Id, fd: int)
    requires Agreement(p) && c !in p.channels && Apart(p, Create(c, fd))
    ensures Agreement(Next(p, Create(c, fd)))
  {
    var q := Next(p, Create(c, fd));
    assert fd !in p.table;
    forall d | d in q.channels ensures Agrees(q, d) {
      assert d != c ==> Agrees(p, d);
    }
  }

  lemma DiscardAgrees<Id>(p: Poller<Id>, c: Id)
    requires Agreement(p) && Enabled(p, Discard(c))
    ensures Agreement(Next(p, Discard(c)))
  {
    var q := Next(p, Discard(c));
    assert Agrees(p, c);
    forall d | d in q.channels ensures Agrees(q, d) {
      assert Agrees(p, d);
    }
  }

  lemma StepAgrees<Id>(p: Poller<Id>, s: Step<Id>)
    requires Agreement(p) && Enabled(p, s) && Apart(p, s)
    ensures Agreement(Next(p, s)) && Next(p, s).refused == p.refused
  {
    match s {
      case Calls(call) => PerformAgrees(p, call);
      case Create(c, fd) => CreateAgrees(p, c, fd);
      case Discard(c) => DiscardAgrees(p, c);
    }
  }

  // Over every run in which channels come, make calls and go, and no two channels present at a time share a
  // descriptor: index is kAdded exactly when the kernel watches the descriptor, with the channel's own mask;
  // the table holds the channel exactly when index is not kNew; and the kernel refuses nothing.
  lemma {:induction false} AgreementRun<Id>(p: Poller<Id>, steps: seq<Step<Id>>)
    requires Agreement(p) && ValidRun(p, steps) && StaysApart(p, steps)
    ensures Agreement(Run(p, steps)) && Run(p, steps).refused == p.refused
    decreases |steps|
  {
    if steps != [] {
      StepAgrees(p, steps[0]);
      AgreementRun(Next(p, steps[0]), steps[1..]);
    }
  }

  lemma FreshAgrees<Id>(p: Poller<Id>)
    requires Fresh(p) && DistinctFds(p.channels)
    ensures Agreement(p)
  {
  }

  // What the kernel watches for a descriptor; nothing when it is absent
  function Watched<Id>(p: Poller<Id>, fd: int): Mask {
    if fd in p.kernel then p.kernel[fd].mask else NONE_EVENT
  }

  // The mask a channel should have by its own steps alone, with no poller at all
  function Wanted<Id(==)>(c: Id, steps: seq<Step<Id>>): Mask {
    if steps == [] then NONE_EVENT
    else
      var m := Wanted(c, steps[..|steps| - 1]);
      match steps[|steps| - 1]
      case Calls(call) => if call.c == c then Masked(m, call) else m
      case Create(d, _) => if d == c then NONE_EVENT else m
      case Discard(_) => m
  }

  lemma {:induction false} RunSnoc<Id>(p: Poller<Id>, steps: seq<Step<Id>>, s: Step<Id>)
    ensures ValidRun(p, steps + [s]) <==> ValidRun(p, steps) && Enabled(Run(p, steps), s)
    ensures ValidRun(p, steps + [s]) ==> Run(p, steps + [s]) == Next(Run(p, steps), s)
    decreases |steps|
  {
    if steps == [] {
      assert [s][1..] == [] && steps + [s] == [s];
    } else {
      assert (steps + [s])[1..] == steps[1..] + [s];
      if Enabled(p, steps[0]) {
        RunSnoc(Next(p, steps[0]), steps[1..], s);
      }
    }
  }

  lemma {:induction false} EventsAreWanted<Id>(p: Poller<Id>, steps: seq<Step<Id>>, c: Id)
    requires Fresh(p) && ValidRun(p, steps) && c in Run(p, steps).channels
    ensures Run(p, steps).channels[c].events == Wanted(c, steps)
    decreases |steps|
  {
    if steps != [] {
      var init, last := steps[..|steps| - 1], steps[|steps| - 1];
      assert steps == init + [last];
      RunSnoc(p, init, last);
      var m := Run(p, init);
      if last.Calls? {
        PerformChannels(m, last.call);
      }
      if c in m.channels {
        EventsAreWanted(p, init, c);
      }
    }
  }

  // The kernel watches a channel for what its steps add up to, from its first call until its removal.
  lemma KernelWatchesWhatIsWanted<Id>(p: Poller<Id>, steps: seq<Step<Id>>, c: Id)
    requires Fresh(p) && DistinctFds(p.channels) && ValidRun(p, steps) && StaysApart(p, steps)
    requires c in Run(p, steps).channels
    ensures var q := Run(p, steps);
      Watched(q, q.channels[c].fd) == if HasChannel(q, c) then Wanted(c, steps) else NONE_EVENT
  {
    FreshAgrees(p);
    AgreementRun(p, steps);
    EventsAreWanted(p, steps, c);
    assert Agrees(Run(p, steps), c);
  }

  // ---------- exactly when nothing is refused ----------

  // Whatever the channels that are present call, the kernel refuses nothing.
  ghost predicate NeverRefused<Id(!new)>(p: Poller<Id>) {
    forall steps: seq<Step<Id>> ::
      ValidRun(p, steps) && (forall s :: s in steps ==> s.Calls?) ==> Run(p, steps).refused == p.refused
  }

  lemma {:induction false} CallsStayApart<Id>(p: Poller<Id>, steps: seq<Step<Id>>)
    requires ValidRun(p, steps) && forall s :: s in steps ==> s.Calls?
    ensures StaysApart(p, steps)
    decreases |steps|
  {
    if steps != [] {
      assert steps[0] in steps;
      CallsStayApart(Next(p, steps[0]), steps[1..]);
    }
  }

  lemma AgreementIsNeverRefused<Id(!new)>(p: Poller<Id>)
    requires Agreement(p)
    ensures NeverRefused(p)
  {
    forall steps: seq<Step<Id>> | ValidRun(p, steps) && forall s :: s in steps ==> s.Calls?
      ensures Run(p, steps).refused == p.refused
    {
      CallsStayApart(p, steps);
      AgreementRun(p, steps);
    }
  }

  // A new channel on the descriptor of another gets an EPOLL_CTL_ADD refused after two calls.
  lemma SharedFdIsRefused<Id>(p: Poller<Id>, c: Id, d: Id)
    requires c in p.channels && d in p.channels && c != d && p.channels[c].fd == p.channels[d].fd
    requires p.channels[c].index == NEW && Agrees(p, d)
    ensures var steps := [Calls(EnableReading(d)), Calls(EnableReading(c))];
      ValidRun(p, steps) && Run(p, steps).refused == p.refused + 1
  {
    var s, t := Calls(EnableReading(d)), Calls(EnableReading(c));
    var events := Masked(p.channels[d].events, EnableReading(d));
    assert events != NONE_EVENT;
    UpdateMeans(p, d, events);
    var q := Next(p, s);
    assert q.channels[c] == p.channels[c] && q.channels[c].fd in q.kernel;
    assert Next(q, t).refused == q.refused + 1;
    assert [s, t][1..] == [t] && [t][1..] == [];
    assert ValidRun(Next(q, t), []) && ValidRun(q, [t]) && Run(q, [t]) == Next(q, t);
  }

  lemma SharedFdRefuses<Id(!new)>(p: Poller<Id>, c: Id, d: Id)
    requires c in p.channels && d in p.channels && c != d && p.channels[c].fd == p.channels[d].fd
    requires p.channels[c].index == NEW && Agrees(p, d)
    ensures !NeverRefused(p)
  {
    SharedFdIsRefused(p, c, d);
    var steps := [Calls(EnableReading(d)), Calls(EnableReading(c))];
    assert forall s :: s in steps ==> s.Calls?;
  }

  // Distinct descriptors are exactly what a poller demands of the channels it starts with...
  lemma NeverRefusedIffDistinct<Id(!new)>(p: Poller<Id>)
    requires Fresh(p)
    ensures NeverRefused(p) <==> DistinctFds(p.channels)
  {
    if DistinctFds(p.channels) {
      FreshAgrees(p);
      AgreementIsNeverRefused(p);
    } else {
      var c, d :| c in p.channels && d in p.channels && p.channels[c].fd == p.channels[d].fd && c != d;
      SharedFdRefuses(p, c, d);
    }
  }

  // ... and a descriptor that no channel has at the moment is exactly what it demands of a new one.
  lemma CreateNeverRefusedIff<Id(!new)>(p: Poller<Id>, c: Id, fd: int)
    requires Agreement(p) && c !in p.channels
    ensures NeverRefused(Next(p, Create(c, fd))) <==> Apart(p, Create(c, fd))
  {
    var q := Next(p, Create(c, fd));
    if Apart(p, Create(c, fd)) {
      CreateAgrees(p, c, fd);
      AgreementIsNeverRefused(q);
    } else {
      var d :| d in p.channels && p.channels[d].fd == fd;
      assert Agrees(p, d);
      SharedFdRefuses(q, c, d);
    }
  }
}
