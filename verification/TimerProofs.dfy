/** What every run of the timer queue keeps, and what a cancellation is worth. */
module TimerProofs {
  import opened TimerModel

  // timers_ and activeTimers_ hold the same timers under their current expirations.
  ghost predicate Indexed(heap: map<nat, Timer>, timers: set<Entry>, active: set<Id>) {
    && (forall e :: e in timers ==>
          e.timer in heap && heap[e.timer].expiration == e.when && Id(e.timer, heap[e.timer].sequence) in active)
    && (forall id :: id in active ==>
          && id.timer in heap && heap[id.timer].sequence == id.sequence
          && Entry(heap[id.timer].expiration, id.timer) in timers)
  }

  ghost function Addresses(batch: seq<Entry>): set<nat> {
    set i | 0 <= i < |batch| :: batch[i].timer
  }

  ghost predicate Distinct(batch: seq<Entry>) {
    forall i, j :: 0 <= i < j < |batch| ==> batch[i].timer != batch[j].timer
  }

  // Every allocated timer has exactly one owner: a queued add, the batch, or the two sets.
  ghost predicate Owned(heap: map<nat, Timer>, active: set<Id>, adding: set<nat>, held: set<nat>) {
    && adding <= heap.Keys && held <= heap.Keys && adding !! held
    && (forall a :: a in heap ==>
          0 < a < UINTPTR_MAX && (Id(a, heap[a].sequence) in active <==> a !in adding && a !in held))
  }

  ghost predicate InHeap(heap: map<nat, Timer>, s: nat) {
    exists a :: a in heap && heap[a].sequence == s
  }

  // Each timer ever created is either allocated at one address or was freed exactly once.
  ghost predicate Sequenced(heap: map<nat, Timer>, created: nat, freed: seq<nat>) {
    && (forall a :: a in heap ==> heap[a].sequence < created && heap[a].sequence !in freed)
    && (forall a, b :: a in heap && b in heap && heap[a].sequence == heap[b].sequence ==> a == b)
    && (forall i, j :: 0 <= i < j < |freed| ==> freed[i] != freed[j])
    && (forall i :: 0 <= i < |freed| ==> freed[i] < created)
    && (forall s: nat :: s < created ==> s in freed || InHeap(heap, s))
  }

  ghost predicate Sound(q: Queue, held: set<nat>) {
    && !q.fault
    && Indexed(q.heap, q.timers, q.active)
    && Owned(q.heap, q.active, q.adding, held)
    && Sequenced(q.heap, q.created, q.freed)
  }

  // The timerfd will wake the loop for a timer due at `when`.
  ghost predicate Covered(fd: TimerFd, when: int) {
    fd.Readable? || (fd.Armed? && fd.deadline <= Max(when, fd.armedAt + MIN_DELAY))
  }

  ghost predicate NotStranded(q: Queue) {
    forall e :: e in q.timers ==> Covered(q.fd, e.when)
  }

  ghost predicate Timely(q: Queue) {
    && Valid(q.clock)
    && (q.fd.Armed? ==> q.clock <= q.fd.deadline)
    && (q.phase.Quiet? ==> NotStranded(q))
    && (q.phase.Calling? ==>
          && Valid(q.phase.now)
          && q.phase.next <= |q.phase.batch|
          && (forall e :: e in q.timers && e.when <= q.phase.now ==> Covered(q.fd, e.when)))
  }

  ghost predicate Inv(q: Queue) {
    Distinct(Batch(q)) && Sound(q, Addresses(Batch(q))) && Timely(q)
  }

  // ---------- the two indexes have the same size ----------

  lemma {:induction false} SameSize(heap: map<nat, Timer>, timers: set<Entry>, active: set<Id>)
    requires Indexed(heap, timers, active)
    ensures |timers| == |active|
    decreases timers
  {
    if timers == {} {
      assert forall id :: id !in active;
    } else {
      var e :| e in timers;
      SameSize(heap, timers - {e}, active - {Id(e.timer, heap[e.timer].sequence)});
    }
  }

  // ---------- one operation ----------

  // No error branch of insert is taken, and no size assertion fails.
  lemma InsertSucceeds(q: Queue, a: nat)
    requires Indexed(q.heap, q.timers, q.active) && a in q.heap && IdOf(q, a) !in q.active
    ensures Insert(q, a) == q.(timers := q.timers + {Entry(q.heap[a].expiration, a)}, active := q.active + {IdOf(q, a)})
  {
    SameSize(q.heap, q.timers, q.active);
  }

  lemma InsertSound(q: Queue, a: nat, held: set<nat>)
    requires Sound(q, held + {a}) && a !in held
    ensures Sound(Insert(q, a), held)
  {
    assert a in held + {a};
    InsertSucceeds(q, a);
  }

  lemma FreeSequenced(heap: map<nat, Timer>, created: nat, freed: seq<nat>, a: nat)
    requires Sequenced(heap, created, freed) && a in heap
    ensures Sequenced(heap - {a}, created, freed + [heap[a].sequence])
  {
    var heap', freed' := heap - {a}, freed + [heap[a].sequence];
    assert forall s :: s in freed' <==> s in freed || s == heap[a].sequence;
    forall s: nat | s < created && s !in freed' ensures InHeap(heap', s) {
      var b :| b in heap && heap[b].sequence == s;
      assert b in heap';
    }
  }

  lemma FreeSound(q: Queue, a: nat, held: set<nat>)
    requires Sound(q, held + {a}) && a !in held
    ensures Sound(Free(q, a), held)
  {
    assert a in held + {a};
    FreeSequenced(q.heap, q.created, q.freed, a);
  }

  lemma CreateSequenced(heap: map<nat, Timer>, created: nat, freed: seq<nat>, a: nat, t: Timer)
    requires Sequenced(heap, created, freed) && a !in heap && t.sequence == created
    ensures Sequenced(heap[a := t], created + 1, freed)
  {
    var heap' := heap[a := t];
    assert a in heap' && heap'[a].sequence == created;
    forall s: nat | s < created && s !in freed ensures InHeap(heap', s) {
      var b :| b in heap && heap[b].sequence == s;
      assert b in heap' && heap'[b] == heap[b];
    }
  }

  lemma CreateSound(q: Queue, a: nat, when: int, delta: nat, repeat: bool, held: set<nat>)
    requires Sound(q, held) && 0 < a < UINTPTR_MAX && a !in q.heap
    ensures Sound(Create(q, a, when, delta, repeat), held)
  {
    CreateSequenced(q.heap, q.created, q.freed, a, Timer(when, delta, repeat, q.created));
  }

  // addTimerInLoop in closed form
  lemma AddMeans(q: Queue, a: nat)
    requires Indexed(q.heap, q.timers, q.active) && a in q.heap && IdOf(q, a) !in q.active
    ensures var r := AddInLoop(q, a);
      && r.timers == q.timers + {Entry(q.heap[a].expiration, a)}
      && r.active == q.active + {IdOf(q, a)}
      && r == q.(adding := q.adding - {a}, timers := r.timers, active := r.active, fd := r.fd)
      && r.fd == if EarliestChanged(q, a) then Arm(q, q.heap[a].expiration).fd else q.fd
  {
    InsertSucceeds(q.(adding := q.adding - {a}), a);
  }

  lemma AddSound(q: Queue, a: nat, held: set<nat>)
    requires Sound(q, held) && a in q.adding
    ensures Sound(AddInLoop(q, a), held)
  {
    AddMeans(q, a);
    var m := q.(adding := q.adding - {a});
    InsertSound(m, a, held);
    InsertSucceeds(m, a);
  }

  // cancelInLoop in closed form
  lemma CancelMeans(q: Queue, id: Id)
    requires Indexed(q.heap, q.timers, q.active) && id.timer != 0
    ensures var r := CancelInLoop(q, id);
      && (id in q.active ==>
            var e := Entry(q.heap[id.timer].expiration, id.timer);
            r == Free(q.(timers := q.timers - {e}, active := q.active - {id}), id.timer))
      && (id !in q.active && q.phase.Calling? ==> r == q.(canceling := q.canceling + {id}))
      && (id !in q.active && q.phase.Quiet? ==> r == q)
  {
  }

  lemma CancelSound(q: Queue, id: Id, held: set<nat>)
    requires Sound(q, held)
    ensures Sound(CancelInLoop(q, id), held)
  {
    if id.timer != 0 {
      CancelMeans(q, id);
      if id in q.active {
        var e := Entry(q.heap[id.timer].expiration, id.timer);
        var m := q.(timers := q.timers - {e}, active := q.active - {id});
        FreeSound(m, id.timer, held);
      }
    }
  }

  // ---------- taking the expired timers ----------

  lemma BatchAddresses(x: set<Entry>)
    requires forall e, f :: e in x && f in x && e.timer == f.timer ==> e == f
    ensures Distinct(InOrder(x))
    ensures Addresses(InOrder(x)) == set e | e in x :: e.timer
  {
    var batch := InOrder(x);
    forall e | e in x ensures e.timer in Addresses(batch) {
      var i :| 0 <= i < |batch| && batch[i] == e;
    }
    forall i, j | 0 <= i < j < |batch| ensures batch[i].timer != batch[j].timer {
      assert batch[i] in x && batch[j] in x && Before(batch[i], batch[j]);
    }
  }

  // Taking a set of entries and their identities out of both indexes
  lemma Withdraw(q: Queue, x: set<Entry>, ids: set<Id>, r: Queue)
    requires Sound(q, {}) && x <= q.timers
    requires forall e :: e in x ==> IdOf(q, e.timer) in ids
    requires forall id :: id in ids ==>
      id.timer in q.heap && id == IdOf(q, id.timer) && Entry(q.heap[id.timer].expiration, id.timer) in x
    requires r == q.(timers := q.timers - x, active := q.active - ids,
                     fd := r.fd, canceling := r.canceling, phase := r.phase)
    ensures Sound(r, set e | e in x :: e.timer)
  {
    var held := set e | e in x :: e.timer;
    forall a | a in held ensures a in q.heap && IdOf(q, a) in ids {
      var e :| e in x && e.timer == a;
    }
  }

  lemma TakeExpired(q: Queue)
    requires Sound(q, {}) && q.phase.Quiet?
    ensures Distinct(BeginRead(q).phase.batch)
    ensures Sound(BeginRead(q), Addresses(BeginRead(q).phase.batch))
  {
    var x := Expired(q, q.clock);
    BatchAddresses(x);
    var ids := set e | e in x && e.timer in q.heap :: IdOf(q, e.timer);
    Withdraw(q, x, ids, BeginRead(q));
  }

  // ---------- putting the batch back ----------

  lemma RestartSequenced(heap: map<nat, Timer>, created: nat, freed: seq<nat>, a: nat, t: Timer)
    requires Sequenced(heap, created, freed) && a in heap && t.sequence == heap[a].sequence
    ensures Sequenced(heap[a := t], created, freed)
  {
    var heap' := heap[a := t];
    forall s: nat | s < created && s !in freed ensures InHeap(heap', s) {
      var b :| b in heap && heap[b].sequence == s;
      assert b in heap' && heap'[b].sequence == s;
    }
  }

  lemma ResetOneSound(q: Queue, e: Entry, now: int, held: set<nat>)
    requires Sound(q, held + {e.timer}) && e.timer !in held
    ensures Sound(ResetOne(q, e, now), held)
  {
    var a := e.timer;
    assert a in held + {a};
    if q.heap[a].repeat && IdOf(q, a) !in q.canceling {
      var t := Restarted(q.heap[a], now);
      RestartSequenced(q.heap, q.created, q.freed, a, t);
      InsertSound(q.(heap := q.heap[a := t]), a, held);
    } else {
      FreeSound(q, a, held);
    }
  }

  // A batch member that reset puts back instead of deleting it
  ghost predicate Keeps(q: Queue, a: nat)
    requires a in q.heap
  {
    q.heap[a].repeat && IdOf(q, a) !in q.canceling
  }

  ghost function RestartedEntries(q: Queue, now: int, done: set<nat>): set<Entry>
    requires done <= q.heap.Keys
  {
    set a | a in done && Keeps(q, a) :: Entry(now + q.heap[a].delta, a)
  }

  ghost function RestartedHeap(q: Queue, now: int, done: set<nat>): map<nat, Timer> {
    map a | a in q.heap && (a in done ==> Keeps(q, a)) :: if a in done then Restarted(q.heap[a], now) else q.heap[a]
  }

  // The loop of reset in closed form, after the timers in `done`: it touches nothing else, puts the
  // repeating timers that were not cancelled back at now + interval, and deletes the others.
  ghost predicate ResetTo(q: Queue, now: int, done: set<nat>, r: Queue)
    requires done <= q.heap.Keys
  {
    && r.timers == q.timers + RestartedEntries(q, now, done)
    && r.heap == RestartedHeap(q, now, done)
    && r == q.(heap := r.heap, freed := r.freed, timers := r.timers, active := r.active)
  }

  ghost predicate ResetOneTo(q: Queue, e: Entry, now: int, r: Queue)
    requires e.timer in q.heap
  {
    var a := e.timer;
    && r == q.(heap := r.heap, freed := r.freed, timers := r.timers, active := r.active)
    && if Keeps(q, a) then
         && r.heap == q.heap[a := Restarted(q.heap[a], now)] && r.freed == q.freed
         && r.timers == q.timers + {Entry(now + q.heap[a].delta, a)}
       else
         r.heap == q.heap - {a} && r.freed == q.freed + [q.heap[a].sequence] && r.timers == q.timers
  }

  lemma ResetOneMeans(q: Queue, e: Entry, now: int)
    requires Indexed(q.heap, q.timers, q.active) && e.timer in q.heap && IdOf(q, e.timer) !in q.active
    ensures ResetOneTo(q, e, now, ResetOne(q, e, now))
  {
    if Keeps(q, e.timer) {
      ResetKept(q, e, now);
    }
  }

  lemma ResetKept(q: Queue, e: Entry, now: int)
    requires Indexed(q.heap, q.timers, q.active)
    requires e.timer in q.heap && IdOf(q, e.timer) !in q.active && Keeps(q, e.timer)
    ensures var a := e.timer;
      ResetOne(q, e, now) == q.(
        heap := q.heap[a := Restarted(q.heap[a], now)],
        timers := q.timers + {Entry(now + q.heap[a].delta, a)},
        active := q.active + {IdOf(q, a)})
  {
    var a := e.timer;
    RestartIndexed(q, a, now);
    InsertSucceeds(q.(heap := q.heap[a := Restarted(q.heap[a], now)]), a);
  }

  lemma RestartIndexed(q: Queue, a: nat, now: int)
    requires Indexed(q.heap, q.timers, q.active) && a in q.heap && IdOf(q, a) !in q.active
    ensures Indexed(q.heap[a := Restarted(q.heap[a], now)], q.timers, q.active)
  {
  }

  lemma ResetExtends(q: Queue, now: int, done: set<nat>, e: Entry, m: Queue, r: Queue)
    requires done <= q.heap.Keys && e.timer in q.heap && e.timer !in done
    requires ResetTo(q, now, done, m) && ResetOneTo(m, e, now, r)
    ensures ResetTo(q, now, done + {e.timer}, r)
  {
    var a := e.timer;
    assert m.heap[a] == q.heap[a] && Keeps(m, a) == Keeps(q, a);
    var more := if Keeps(q, a) then {Entry(now + q.heap[a].delta, a)} else {};
    assert RestartedEntries(q, now, done + {a}) == RestartedEntries(q, now, done) + more;
    assert r.heap == RestartedHeap(q, now, done + {a});
  }

  lemma AddressSplit(batch: seq<Entry>, i: nat)
    requires i < |batch| && Distinct(batch)
    ensures Addresses(batch[..i + 1]) == Addresses(batch[..i]) + {batch[i].timer}
    ensures Addresses(batch[i..]) == Addresses(batch[i + 1..]) + {batch[i].timer}
    ensures batch[i].timer !in Addresses(batch[..i]) && batch[i].timer !in Addresses(batch[i + 1..])
    ensures Addresses(batch[..i]) <= Addresses(batch)
  {
    assert batch[i..] == [batch[i]] + batch[i + 1..];
  }

  // One iteration of the loop of reset
  lemma ResetStep(q: Queue, now: int, done: set<nat>, m: Queue, e: Entry, held: set<nat>)
    requires done <= q.heap.Keys && ResetTo(q, now, done, m) && Sound(m, held + {e.timer})
    requires e.timer in q.heap && e.timer !in done && e.timer !in held
    ensures Sound(ResetOne(m, e, now), held) && ResetTo(q, now, done + {e.timer}, ResetOne(m, e, now))
  {
    assert e.timer in held + {e.timer};
    ResetOneSound(m, e, now, held);
    ResetOneMeans(m, e, now);
    ResetExtends(q, now, done, e, m, ResetOne(m, e, now));
  }

  lemma ResetNone(q: Queue, batch: seq<Entry>, now: int)
    requires Sound(q, Addresses(batch))
    ensures Sound(q, Addresses(batch[0..])) && Addresses(batch[..0]) <= q.heap.Keys
    ensures ResetTo(q, now, Addresses(batch[..0]), q)
  {
    assert batch[0..] == batch && Addresses(batch[..0]) == {};
    assert q.heap == RestartedHeap(q, now, {});
  }

  lemma HeldAllocated(q: Queue, batch: seq<Entry>)
    requires Sound(q, Addresses(batch))
    ensures Addresses(batch) <= q.heap.Keys
  {
  }

  lemma ResetMore(q: Queue, batch: seq<Entry>, now: int, i: nat, m: Queue)
    requires Distinct(batch) && Addresses(batch) <= q.heap.Keys && i < |batch|
    requires Sound(m, Addresses(batch[i..]))
    requires Addresses(batch[..i]) <= q.heap.Keys && ResetTo(q, now, Addresses(batch[..i]), m)
    ensures Sound(ResetOne(m, batch[i], now), Addresses(batch[i + 1..])) && Addresses(batch[..i + 1]) <= q.heap.Keys
    ensures ResetTo(q, now, Addresses(batch[..i + 1]), ResetOne(m, batch[i], now))
  {
    hide Sound, ResetTo, ResetOne;
    assert batch[i].timer in Addresses(batch);
    AddressSplit(batch, i);
    ResetStep(q, now, Addresses(batch[..i]), m, batch[i], Addresses(batch[i + 1..]));
  }

  // The loop of reset, after `i` iterations
  lemma {:induction false} ResetSound(q: Queue, batch: seq<Entry>, now: int, i: nat)
    requires Distinct(batch) && Sound(q, Addresses(batch)) && i <= |batch|
    ensures Sound(ResetUpTo(q, batch, now, i), Addresses(batch[i..]))
    ensures Addresses(batch[..i]) <= q.heap.Keys
    ensures ResetTo(q, now, Addresses(batch[..i]), ResetUpTo(q, batch, now, i))
  {
    hide Sound, ResetTo, ResetOne, Distinct, Addresses;
    HeldAllocated(q, batch);
    if i == 0 {
      ResetNone(q, batch, now);
    } else {
      ResetSound(q, batch, now, i - 1);
      ResetMore(q, batch, now, i - 1, ResetUpTo(q, batch, now, i - 1));
    }
  }

  lemma EndSound(q: Queue)
    requires Inv(q) && Enabled(q, End)
    ensures Sound(EndRead(q), {}) && EndRead(q).phase == Quiet
  {
    var batch := q.phase.batch;
    var quiet := q.(phase := Quiet);
    ResetSound(quiet, batch, q.phase.now, |batch|);
    assert Addresses(batch[|batch|..]) == {};
  }

  // ---------- the timerfd ----------

  lemma AddTimely(q: Queue, a: nat, r: Queue)
    requires Timely(q) && a in q.heap
    requires r.timers == q.timers + {Entry(q.heap[a].expiration, a)}
    requires r.phase == q.phase && r.clock == q.clock
    requires r.fd == if EarliestChanged(q, a) then Arm(q, q.heap[a].expiration).fd else q.fd
    ensures Timely(r)
  {
    if !EarliestChanged(q, a) {
      var f := First(q.timers);
      assert f.when <= q.heap[a].expiration && f in q.timers;
    } else {
      assert forall e :: e in q.timers ==> q.heap[a].expiration <= e.when;
    }
  }

  lemma BeginTimely(q: Queue)
    requires Timely(q) && q.phase.Quiet?
    requires forall e :: e in q.timers ==> e.timer < UINTPTR_MAX
    ensures Timely(BeginRead(q))
  {
    var r := BeginRead(q);
    assert forall e :: e in r.timers ==> !Before(e, Entry(q.clock, UINTPTR_MAX));
  }

  lemma EndTimely(q: Queue, m: Queue, r: Queue)
    requires Timely(q) && q.phase.Calling?
    requires m.fd == q.fd && m.clock == q.clock && m.phase == Quiet
    requires forall e :: e in m.timers ==> e in q.timers || e.when >= q.phase.now
    requires forall e :: e in m.timers ==> e.timer in m.heap && m.heap[e.timer].expiration == e.when
    requires r == Rearm(m)
    ensures Timely(r)
  {
    if m.timers != {} {
      var f := First(m.timers);
      if !Valid(f.when) {
        // Only a callback can have inserted such an entry, and that armed the timerfd.
        assert f in q.timers && Covered(q.fd, f.when);
      }
      assert forall e :: e in m.timers ==> f.when <= e.when;
    }
  }

  lemma SoundStep(q: Queue, s: Step)
    requires Inv(q) && Enabled(q, s)
    ensures Distinct(Batch(Next(q, s))) && Sound(Next(q, s), Addresses(Batch(Next(q, s))))
  {
    var held := Addresses(Batch(q));
    match s {
      case NewTimer(a, when, delta, repeat) => CreateSound(q, a, when, delta, repeat, held);
      case Add(a) => AddSound(q, a, held); AddMeans(q, a);
      case Cancel(id) => CancelSound(q, id, held);
      case Begin => assert held == {}; TakeExpired(q);
      case RunCallback => RunSound(q, held);
      case End => EndSound(q); assert Addresses([]) == {};
      case Tick(t) => 
      case Fire => 
    }
  }

  lemma TimelyStep(q: Queue, s: Step)
    requires Inv(q) && Enabled(q, s)
    ensures Timely(Next(q, s))
  {
    match s {
      case Add(a) =>
        AddMeans(q, a);
        AddTimely(q, a, Next(q, s));
      case Begin => BeginTimely(q);
      case End =>
        var batch, now := q.phase.batch, q.phase.now;
        var quiet := q.(phase := Quiet);
        ResetSound(quiet, batch, now, |batch|);
        EndTimely(q, ResetUpTo(quiet, batch, now, |batch|), Next(q, s));
      case NewTimer(_, _, _, _) =>
      case Cancel(_) =>
      case RunCallback =>
      case Tick(_) =>
      case Fire =>
    }
  }

  lemma InvStep(q: Queue, s: Step)
    requires Inv(q) && Enabled(q, s)
    ensures Inv(Next(q, s))
  {
    SoundStep(q, s);
    TimelyStep(q, s);
  }

  lemma RunSound(q: Queue, held: set<nat>)
    requires Sound(q, held) && Enabled(q, RunCallback) && held == Addresses(q.phase.batch)
    ensures Sound(RunNext(q), held)
  {
    assert q.phase.batch[q.phase.next].timer in held;
  }

  lemma InitialInv(q: Queue)
    requires Initial(q)
    ensures Inv(q)
  {
    assert Addresses(Batch(q)) == {};
  }

  // Safety of every run, including every way callbacks re-enter the queue.
  lemma {:induction false} InvRun(q: Queue, steps: seq<Step>)
    requires Inv(q) && ValidRun(q, steps)
    ensures Inv(Run(q, steps))
    decreases |steps|
  {
    if steps != [] {
      InvStep(q, steps[0]);
      InvRun(Next(q, steps[0]), steps[1..]);
    }
  }
}
