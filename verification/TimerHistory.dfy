/** When the timerfd is armed and for when, and what the requests of a run leave in the timers. */
module TimerHistory {
  import opened TimerModel
  import opened TimerProofs
  import opened TimerTheorems

  // ---------- the timerfd ----------

  // A timerfd armed at `now` for `when` expires then, but not within 100 microseconds.
  function ArmedFor(when: int, now: int): TimerFd {
    Armed(if when < now + 100 then now + 100 else when, now)
  }

  lemma EarliestIff(q: Queue, a: nat)
    requires a in q.heap
    ensures EarliestChanged(q, a) <==> forall e :: e in q.timers ==> q.heap[a].expiration < e.when
  {
  }

  // Adding a timer arms the timerfd for it exactly if every waiting timer is later.
  lemma AddArms(q: Queue, a: nat)
    requires Inv(q) && a in q.adding
    ensures a in q.heap
    ensures var when := q.heap[a].expiration;
      AddInLoop(q, a).fd == if forall e :: e in q.timers ==> when < e.when then ArmedFor(when, q.clock) else q.fd
  {
    AddMeans(q, a);
    EarliestIff(q, a);
    hide EarliestChanged, Inv;
  }

  lemma RearmArms(m: Queue, e: Entry)
    requires Indexed(m.heap, m.timers, m.active) && e in m.timers && forall f :: f in m.timers ==> e.when <= f.when
    ensures Rearm(m).fd == if e.when > 0 then ArmedFor(e.when, m.clock) else m.fd
  {
    assert First(m.timers) in m.timers;
  }

  // What the loop of reset leaves when it reaches the re-arming
  lemma BeforeRearm(q: Queue) returns (m: Queue)
    requires Inv(q) && Enabled(q, End)
    ensures EndRead(q) == Rearm(m) && m.fd == q.fd && m.clock == q.clock
    ensures Indexed(m.heap, m.timers, m.active) && EndRead(q).timers == m.timers
  {
    var quiet := q.(phase := Quiet);
    m := ResetUpTo(quiet, q.phase.batch, q.phase.now, |q.phase.batch|);
    ResetSound(quiet, q.phase.batch, q.phase.now, |q.phase.batch|);
  }

  // The end of a batch arms the timerfd for the first timer that waits then.
  lemma EndArms(q: Queue, e: Entry)
    requires Inv(q) && Enabled(q, End)
    requires e in EndRead(q).timers && forall f :: f in EndRead(q).timers ==> e.when <= f.when
    ensures EndRead(q).fd == if e.when > 0 then ArmedFor(e.when, q.clock) else q.fd
  {
    hide EndRead, Rearm, Inv, Indexed;
    var m := BeforeRearm(q);
    RearmArms(m, e);
  }

  lemma EndLeavesIdle(q: Queue)
    requires Inv(q) && Enabled(q, End) && EndRead(q).timers == {}
    ensures EndRead(q).fd == q.fd
  {
    var m := BeforeRearm(q);
  }

  // Nothing else changes the timerfd, but its expiry and the read that handles it.
  lemma OtherStepsDoNotArm(q: Queue, s: Step)
    requires Inv(q) && Enabled(q, s) && !s.Add? && !s.End?
    ensures Next(q, s).fd ==
      if s.Fire? then Readable
      else if s.Begin? && q.fd.Readable? then Disarmed
      else q.fd
  {
    if s.Cancel? && s.id.timer != 0 {
      CancelMeans(q, s.id);
    }
  }

  // Some expiry of the timerfd has not been read.
  predicate Unread(steps: seq<Step>) {
    steps != [] && (steps[|steps| - 1].Fire? || (!steps[|steps| - 1].Begin? && Unread(steps[..|steps| - 1])))
  }

  lemma {:induction false} RunSnoc(q: Queue, steps: seq<Step>, s: Step)
    ensures ValidRun(q, steps + [s]) <==> ValidRun(q, steps) && Enabled(Run(q, steps), s)
    ensures ValidRun(q, steps + [s]) ==> Run(q, steps + [s]) == Next(Run(q, steps), s)
    decreases |steps|
  {
    if steps == [] {
      assert [] + [s] == [s] && [s][1..] == [];
    } else {
      assert (steps + [s])[0] == steps[0] && (steps + [s])[1..] == steps[1..] + [s];
      if Enabled(q, steps[0]) {
        RunSnoc(Next(q, steps[0]), steps[1..], s);
      }
    }
  }

  lemma EndDoesNotFire(q: Queue)
    requires Inv(q) && Enabled(q, End)
    ensures EndRead(q).fd.Readable? ==> q.fd.Readable?
  {
    if EndRead(q).timers == {} {
      EndLeavesIdle(q);
    } else {
      EndArms(q, First(EndRead(q).timers));
    }
  }

  // The loop is not kept awake for nothing: a readable timerfd has expired since it was last read.
  lemma {:induction false} ReadableMeansExpired(q: Queue, steps: seq<Step>)
    requires Initial(q) && ValidRun(q, steps)
    ensures Run(q, steps).fd.Readable? ==> Unread(steps)
    decreases |steps|
  {
    if steps != [] {
      var init, last := steps[..|steps| - 1], steps[|steps| - 1];
      assert steps == init + [last];
      RunSnoc(q, init, last);
      ReadableMeansExpired(q, init);
      InitialInv(q);
      InvRun(q, init);
      var m := Run(q, init);
      if last.Add? {
        AddArms(m, last.a);
      } else if last.End? {
        EndDoesNotFire(m);
      } else {
        OtherStepsDoNotArm(m, last);
      }
    }
  }

  // ---------- the clock ----------

  lemma ClockStep(q: Queue, s: Step)
    requires Inv(q) && Enabled(q, s)
    ensures Next(q, s).clock == if s.Tick? then s.t else q.clock
  {
    match s {
      case Add(a) => AddMeans(q, a);
      case Cancel(id) => if id.timer != 0 { CancelMeans(q, id); }
      case End => EndMeans(q);
      case NewTimer(_, _, _, _) =>
      case Begin =>
      case RunCallback =>
      case Tick(_) =>
      case Fire =>
    }
  }

  function Now(start: int, steps: seq<Step>): int
    decreases |steps|
  {
    if steps == [] then start else Now(if steps[0].Tick? then steps[0].t else start, steps[1..])
  }

  // The clock shows the last tick of the run.
  lemma {:induction false} ClockIsLastTick(q: Queue, steps: seq<Step>)
    requires Inv(q) && ValidRun(q, steps)
    ensures Run(q, steps).clock == Now(q.clock, steps)
    decreases |steps|
  {
    if steps != [] {
      InvStep(q, steps[0]);
      ClockStep(q, steps[0]);
      ClockIsLastTick(Next(q, steps[0]), steps[1..]);
    }
  }

  // ---------- what was requested ----------

  function Request(s: Step): seq<Step> {
    if s.NewTimer? then [s] else []
  }

  function Made(steps: seq<Step>): seq<Step> {
    if steps == [] then [] else Request(steps[0]) + Made(steps[1..])
  }

  ghost predicate Matches(t: Timer, a: nat, made: seq<Step>) {
    && t.sequence < |made| && made[t.sequence].NewTimer?
    && made[t.sequence].a == a && made[t.sequence].delta == t.delta && made[t.sequence].repeat == t.repeat
  }

  // Each timer is the one its sequence number asks for, and until it has run it waits for the time asked for.
  ghost predicate AsMade(heap: map<nat, Timer>, ran: seq<Id>, made: seq<Step>) {
    forall a :: a in heap ==>
      && Matches(heap[a], a, made)
      && (Id(a, heap[a].sequence) !in ran ==> heap[a].expiration == made[heap[a].sequence].when)
  }

  // Only timers that were asked for run.
  ghost predicate RanAsMade(ran: seq<Id>, made: seq<Step>) {
    forall id :: id in ran ==>
      id.sequence < |made| && made[id.sequence].NewTimer? && made[id.sequence].a == id.timer
  }

  // The callbacks before `next` have run.
  ghost predicate Logged(q: Queue) {
    q.phase.Calling? ==>
      forall i :: 0 <= i < q.phase.next <= |q.phase.batch| && q.phase.batch[i].timer in q.heap ==>
        IdOf(q, q.phase.batch[i].timer) in q.ran
  }

  ghost predicate Born(q: Queue, made: seq<Step>) {
    q.created == |made| && AsMade(q.heap, q.ran, made) && RanAsMade(q.ran, made) && Logged(q)
  }

  lemma CreateBorn(q: Queue, s: Step, made: seq<Step>)
    requires Inv(q) && Born(q, made) && Enabled(q, s) && s.NewTimer?
    ensures Born(Next(q, s), made + [s])
  {
    forall id | id in q.ran ensures id.sequence < q.created { }
  }

  // One more run of an allocated timer
  lemma MoreRan(heap: map<nat, Timer>, ran: seq<Id>, made: seq<Step>, a: nat)
    requires AsMade(heap, ran, made) && RanAsMade(ran, made) && a in heap
    ensures var ran' := ran + [Id(a, heap[a].sequence)]; AsMade(heap, ran', made) && RanAsMade(ran', made)
  {
    assert Matches(heap[a], a, made);
    var ran' := ran + [Id(a, heap[a].sequence)];
    assert forall id :: id in ran' <==> id in ran || id == Id(a, heap[a].sequence);
  }

  lemma CallbackLogged(q: Queue)
    requires Logged(q) && Enabled(q, RunCallback) && q.phase.batch[q.phase.next].timer in q.heap
    ensures Logged(RunNext(q))
  {
    var r := RunNext(q);
    assert r.ran == q.ran + [IdOf(q, q.phase.batch[q.phase.next].timer)];
    assert forall id :: id in q.ran ==> id in r.ran;
  }

  lemma CallbackBorn(q: Queue, made: seq<Step>)
    requires Inv(q) && Born(q, made) && Enabled(q, RunCallback)
    ensures Born(RunNext(q), made)
  {
    var a := q.phase.batch[q.phase.next].timer;
    InBatch(q.phase.batch, q.phase.next);
    assert a in q.heap;
    hide AsMade, RanAsMade, Logged;
    MoreRan(q.heap, q.ran, made, a);
    CallbackLogged(q);
  }

  lemma EndBorn(q: Queue, made: seq<Step>)
    requires Inv(q) && Born(q, made) && Enabled(q, End)
    ensures Born(EndRead(q), made)
  {
    EndMeans(q);
    EndPointwise(q);
    var r := EndRead(q);
    forall a | a in r.heap
      ensures Matches(r.heap[a], a, made)
      ensures Id(a, r.heap[a].sequence) !in r.ran ==> r.heap[a].expiration == made[r.heap[a].sequence].when
    {
      if a in Addresses(q.phase.batch) {
        var i :| 0 <= i < |q.phase.batch| && q.phase.batch[i].timer == a;
        assert IdOf(q, a) in q.ran;
      }
    }
  }

  lemma BornStep(q: Queue, s: Step, made: seq<Step>)
    requires Inv(q) && Born(q, made) && Enabled(q, s)
    ensures Born(Next(q, s), made + Request(s))
  {
    assert made + [] == made;
    match s {
      case NewTimer(_, _, _, _) => CreateBorn(q, s, made);
      case Add(a) => AddMeans(q, a);
      case Cancel(id) => if id.timer != 0 { CancelMeans(q, id); }
      case Begin =>
      case RunCallback => CallbackBorn(q, made);
      case End => EndBorn(q, made);
      case Tick(_) =>
      case Fire =>
    }
  }

  lemma {:induction false} BornRun(q: Queue, steps: seq<Step>, made: seq<Step>)
    requires Inv(q) && Born(q, made) && ValidRun(q, steps)
    ensures Born(Run(q, steps), made + Made(steps))
    decreases |steps|
  {
    hide Born, Inv, Request, Next, Enabled;
    if steps == [] {
      assert made + [] == made;
    } else {
      var s, rest := steps[0], steps[1..];
      InvStep(q, s);
      BornStep(q, s, made);
      BornRun(Next(q, s), rest, made + Request(s));
      assert made + Request(s) + Made(rest) == made + (Request(s) + Made(rest));
    }
  }

  // In every run, every timer is what addTimer was asked for, in the order of the requests: its address, its
  // interval, whether it repeats, and until its first run its time; and only timers that were asked for run.
  lemma TimersAreAsRequested(q: Queue, steps: seq<Step>)
    requires Initial(q) && ValidRun(q, steps)
    ensures var r := Run(q, steps);
      var made := Made(steps);
      && r.created == |made|
      && (forall a :: a in r.heap ==>
            var t := r.heap[a];
            && t.sequence < |made| && made[t.sequence].NewTimer?
            && made[t.sequence].a == a && made[t.sequence].delta == t.delta && made[t.sequence].repeat == t.repeat
            && (Id(a, t.sequence) !in r.ran ==> made[t.sequence].when == t.expiration))
      && (forall id :: id in r.ran ==>
            id.sequence < |made| && made[id.sequence].NewTimer? && made[id.sequence].a == id.timer)
  {
    InitialInv(q);
    assert Born(q, []);
    BornRun(q, steps, []);
    assert [] + Made(steps) == Made(steps);
  }

  // ---------- the assertions of the source ----------

  // The flag is raised exactly when an assertion of the source fails or a freed timer is used.
  lemma InsertFaultsIff(q: Queue, a: nat)
    ensures Insert(q, a).fault <==>
      || q.fault || a !in q.heap || |q.timers| != |q.active|
      || Entry(q.heap[a].expiration, a) in q.timers || Id(a, q.heap[a].sequence) in q.active
  {
  }

  lemma AddFaultsIff(q: Queue, a: nat)
    ensures AddInLoop(q, a).fault <==>
      || q.fault || a !in q.heap || |q.timers| != |q.active|
      || Entry(q.heap[a].expiration, a) in q.timers || Id(a, q.heap[a].sequence) in q.active
  {
    InsertFaultsIff(q.(adding := q.adding - {a}), a);
  }

  lemma FreeFaultsIff(q: Queue, a: nat)
    ensures Free(q, a).fault <==> q.fault || a !in q.heap
  {
  }

  lemma CancelFaultsIff(q: Queue, id: Id)
    ensures CancelInLoop(q, id).fault <==>
      || q.fault
      || (id.timer != 0 && id in q.active
          && (id.timer !in q.heap || Entry(q.heap[id.timer].expiration, id.timer) !in q.timers))
  {
  }

  lemma BeginFaultsIff(q: Queue)
    requires q.phase.Quiet?
    ensures BeginRead(q).fault <==>
      || q.fault
      || exists e :: e in BeginRead(q).phase.batch &&
           (e.timer !in q.heap || Id(e.timer, q.heap[e.timer].sequence) !in q.active)
  {
  }

  lemma RunFaultsIff(q: Queue)
    requires Enabled(q, RunCallback)
    ensures RunNext(q).fault <==> q.fault || q.phase.batch[q.phase.next].timer !in q.heap
  {
  }

  lemma ResetFaultsIff(q: Queue, e: Entry, now: int)
    requires Indexed(q.heap, q.timers, q.active)
    ensures ResetOne(q, e, now).fault <==>
      || q.fault || e.timer !in q.heap
      || (Keeps(q, e.timer) && IdOf(q, e.timer) in q.active)
  {
    if e.timer in q.heap && Keeps(q, e.timer) {
      SameSize(q.heap, q.timers, q.active);
    }
  }

  lemma RearmFaultsIff(q: Queue)
    ensures Rearm(q).fault <==> q.fault || (q.timers != {} && First(q.timers).timer !in q.heap)
  {
  }

  // ---------- a batch comes to its end ----------

  function Repeat(s: Step, n: nat): seq<Step> {
    if n == 0 then [] else [s] + Repeat(s, n - 1)
  }

  lemma {:induction false} CallbacksReturn(m: Queue, n: nat)
    requires Inv(m) && m.phase.Calling? && n == |m.phase.batch| - m.phase.next
    ensures ValidRun(m, Repeat(RunCallback, n)) && Enabled(Run(m, Repeat(RunCallback, n)), End)
    ensures End !in Repeat(RunCallback, n)
    decreases n
  {
    if n > 0 {
      CallbackReturns(m);
      hide Inv, Next;
      CallbacksReturn(Next(m, RunCallback), n - 1);
      assert Repeat(RunCallback, n)[1..] == Repeat(RunCallback, n - 1);
    }
  }

  lemma CallbackReturns(m: Queue)
    requires Inv(m) && Enabled(m, RunCallback)
    ensures var r := Next(m, RunCallback); Inv(r) && r.phase == m.phase.(next := m.phase.next + 1)
  {
    InvStep(m, RunCallback);
    InBatch(m.phase.batch, m.phase.next);
  }

  lemma {:induction false} OnlyCallbacks(n: nat, id: Id)
    ensures Cancel(id) !in Repeat(RunCallback, n)
  {
    if n > 0 {
      OnlyCallbacks(n - 1, id);
    }
  }

  // With callbacks that leave the queue alone, handleRead comes to its end: every due timer has run once, the
  // repeating ones wait again one interval after now, and the others are gone.
  lemma DueTimersRun(q: Queue)
    requires Inv(q) && q.phase.Quiet?
    ensures var b := BeginRead(q);
      var mid := Repeat(RunCallback, |b.phase.batch|);
      && ValidRun(b, mid) && Enabled(Run(b, mid), End)
      && var r := EndRead(Run(b, mid));
      && Addresses(b.phase.batch) <= q.heap.Keys
      && r.ran == q.ran + Ids(q.heap, b.phase.batch)
      && (forall a :: a in Addresses(b.phase.batch) ==> (a in r.heap <==> q.heap[a].repeat))
      && (forall a :: a in Addresses(b.phase.batch) && a in r.heap ==>
            r.heap[a].expiration == q.clock + q.heap[a].delta)
  {
    var b := BeginRead(q);
    var mid := Repeat(RunCallback, |b.phase.batch|);
    Begun(q);
    assert b.phase.next == 0;
    hide BeginRead, EndRead, Inv, Next, Addresses, Ids;
    CallbacksReturn(b, |b.phase.batch|);
    HandleReadMeans(q, mid);
    forall a | a in Addresses(b.phase.batch) ensures Cancel(IdOf(q, a)) !in mid {
      OnlyCallbacks(|b.phase.batch|, IdOf(q, a));
    }
  }
}
