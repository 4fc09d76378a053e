/** The guarantees of the timer queue over whole runs. */
module TimerTheorems {
  import opened TimerModel
  import opened TimerProofs

  // ---------- ownership ----------

  // Where a timer is: exactly one of these holds for every allocated timer.
  ghost predicate InSets(q: Queue, a: nat)
    requires a in q.heap
  {
    IdOf(q, a) in q.active && Entry(q.heap[a].expiration, a) in q.timers
  }

  // No assertion fails, no error branch is taken, no freed timer is touched, and every timer
  // ever created is owned once or was freed once.
  lemma SingleOwner(q: Queue, steps: seq<Step>)
    requires Initial(q) && ValidRun(q, steps)
    ensures var r := Run(q, steps);
      && !r.fault
      && |r.timers| == |r.active|
      && (forall a :: a in r.heap ==>
            && (a in r.adding ==> !InSets(r, a) && a !in Addresses(Batch(r)))
            && (InSets(r, a) ==> a !in Addresses(Batch(r)))
            && (a in r.adding || InSets(r, a) || a in Addresses(Batch(r))))
      && (forall s: nat :: s < r.created ==>
            multiset(r.freed)[s] == if InHeap(r.heap, s) then 0 else 1)
  {
    InitialInv(q);
    InvRun(q, steps);
    var r := Run(q, steps);
    SameSize(r.heap, r.timers, r.active);
    forall s: nat | s < r.created
      ensures multiset(r.freed)[s] == if InHeap(r.heap, s) then 0 else 1
    {
      CountDistinct(r.freed, s);
    }
  }

  lemma {:induction false} CountDistinct(s: seq<nat>, x: nat)
    requires forall i, j :: 0 <= i < j < |s| ==> s[i] != s[j]
    ensures multiset(s)[x] == if x in s then 1 else 0
  {
    if s != [] {
      var t := s[..|s| - 1];
      assert s == t + [s[|s| - 1]];
      CountDistinct(t, x);
    }
  }

  // ---------- no stranded timer ----------

  // Between batches a waiting timer is never more than 100 microseconds late without the timerfd
  // being readable: across adds, cancels of the earliest timer, early firings and re-arming.
  lemma NoStrandedTimer(q: Queue, steps: seq<Step>, e: Entry)
    requires Initial(q) && ValidRun(q, steps)
    requires Run(q, steps).phase.Quiet? && e in Run(q, steps).timers
    ensures var r := Run(q, steps);
      || r.fd.Readable?
      || (r.fd.Armed? && r.clock <= r.fd.deadline && (r.fd.deadline <= e.when || r.fd.deadline <= r.fd.armedAt + 100))
  {
    InitialInv(q);
    InvRun(q, steps);
  }

  lemma ClockStaysValid(q: Queue, steps: seq<Step>)
    requires Initial(q) && ValidRun(q, steps)
    ensures Run(q, steps).clock > 0
  {
    InitialInv(q);
    InvRun(q, steps);
  }

  lemma HandledInTime(q: Queue)
    requires Sound(q, {}) && q.phase.Quiet? && q.fd.Readable? && Valid(q.clock)
    ensures NotStranded(EndRead(BeginRead(q)))
  {
    assert Addresses(Batch(q)) == {};
    assert Inv(q);
    InvStep(q, Begin);
    var m := BeginRead(q);
    AllCalled(m);
  }

  // The callbacks may all have returned without touching the queue.
  lemma AllCalled(m: Queue)
    requires Inv(m) && m.phase.Calling?
    ensures NotStranded(EndRead(m))
  {
    var done := m.(phase := m.phase.(next := |m.phase.batch|));
    assert Inv(done) && Enabled(done, End);
    TimelyStep(done, End);
    EndRan(done);
    assert EndRead(done) == EndRead(m);
  }

  // The guard `now.valid()`: a wakeup handled at an invalid time, which a valid clock never shows, would
  // strand exactly the waiting timers.
  lemma StrandedIffInvalidClock(q: Queue)
    requires Sound(q, {}) && q.phase.Quiet? && q.fd.Readable?
    ensures NotStranded(EndRead(BeginRead(q))) <==> q.clock > 0 || q.timers == {}
  {
    var m := BeginRead(q);
    var r := EndRead(m);
    if Valid(q.clock) {
      HandledInTime(q);
    } else {
      assert r.timers == q.timers && r.fd == Disarmed;
      if q.timers != {} {
        assert !Covered(Disarmed, First(q.timers).when);
      }
    }
  }

  // ---------- cancellation ----------

  ghost predicate Live(q: Queue, id: Id) {
    id.timer in q.heap && q.heap[id.timer].sequence == id.sequence
  }

  // A timer that has been created and will never enter another batch.
  ghost predicate Doomed(q: Queue, id: Id) {
    && id.sequence < q.created
    && id !in q.active
    && (Live(q, id) ==> id.timer !in q.adding && !Keeps(q, id.timer))
  }

  // Runs of `id` still to come in the current batch
  ghost function RunsLeft(q: Queue, id: Id): nat {
    if q.phase.Calling? && q.phase.next <= |q.phase.batch| && Live(q, id)
       && id.timer in Addresses(q.phase.batch[q.phase.next..])
    then 1 else 0
  }

  // Processing a cancellation dooms the timer, wherever it is, if and only if its add has been processed.
  lemma CancelDooms(q: Queue, id: Id)
    requires Inv(q) && id.timer != 0 && id.sequence < q.created
    ensures Doomed(CancelInLoop(q, id), id) <==> (Live(q, id) ==> id.timer !in q.adding)
    ensures q.phase.Quiet? && (Live(q, id) ==> id.timer !in q.adding) ==> !Live(CancelInLoop(q, id), id)
    ensures Live(q, id) && id.timer in q.adding ==>
      CancelInLoop(q, id) == q.(canceling := CancelInLoop(q, id).canceling)
  {
    CancelMeans(q, id);
    if Live(q, id) && id !in q.active && id.timer !in q.adding {
      assert id.timer in Addresses(Batch(q));
    }
  }

  // reset in closed form
  lemma EndMeans(q: Queue)
    requires Inv(q) && Enabled(q, End)
    ensures Addresses(q.phase.batch) <= q.heap.Keys
    ensures ResetTo(q.(phase := Quiet), q.phase.now, Addresses(q.phase.batch), EndRead(q).(fd := q.fd))
  {
    var batch := q.phase.batch;
    ResetSound(q.(phase := Quiet), batch, q.phase.now, |batch|);
    assert batch[..|batch|] == batch;
  }

  lemma DoomedEnd(q: Queue, id: Id)
    requires Inv(q) && Enabled(q, End) && Doomed(q, id)
    ensures Doomed(EndRead(q), id)
  {
    EndMeans(q);
    InvStep(q, End);
    if Live(q, id) {
      assert id.timer in Addresses(q.phase.batch);
    }
  }

  lemma DoomedStep(q: Queue, id: Id, s: Step)
    requires Inv(q) && Enabled(q, s) && Doomed(q, id)
    ensures Doomed(Next(q, s), id)
  {
    match s {
      case Add(a) => AddMeans(q, a);
      case Cancel(other) => if other.timer != 0 { CancelMeans(q, other); }
      case Begin => assert Addresses(Batch(q)) == {}; assert !Live(q, id);
      case End => DoomedEnd(q, id);
      case NewTimer(_, _, _, _) =>
      case RunCallback =>
      case Tick(_) =>
      case Fire =>
    }
  }

  lemma RunsCallback(q: Queue, id: Id)
    requires Enabled(q, RunCallback) && Distinct(q.phase.batch) && Addresses(q.phase.batch) <= q.heap.Keys
    ensures multiset(RunNext(q).ran)[id] + RunsLeft(RunNext(q), id) == multiset(q.ran)[id] + RunsLeft(q, id)
  {
    AddressSplit(q.phase.batch, q.phase.next);
    InBatch(q.phase.batch, q.phase.next);
  }

  lemma EndRan(q: Queue)
    requires Inv(q) && Enabled(q, End)
    ensures EndRead(q).ran == q.ran && EndRead(q).phase == Quiet
  {
    EndMeans(q);
  }

  // The runs already logged and the runs left in the batch are together constant.
  lemma RunsStep(q: Queue, id: Id, s: Step)
    requires Inv(q) && Enabled(q, s) && Doomed(q, id)
    ensures multiset(Next(q, s).ran)[id] + RunsLeft(Next(q, s), id) == multiset(q.ran)[id] + RunsLeft(q, id)
  {
    match s {
      case Add(a) => AddMeans(q, a);
      case Cancel(other) =>
        if other.timer != 0 { CancelMeans(q, other); }
      case Begin => assert Addresses(Batch(q)) == {}; assert !Live(q, id);
      case RunCallback => RunsCallback(q, id);
      case End => assert q.phase.batch[q.phase.next..] == []; EndRan(q);
      case NewTimer(_, _, _, _) =>
      case Tick(_) =>
      case Fire =>
    }
  }

  // After the cancellation the callback runs at most in the rest of the current batch, and never in a later one.
  lemma {:induction false} CancelIsFinal(q: Queue, id: Id, steps: seq<Step>)
    requires Inv(q) && ValidRun(q, steps) && Doomed(q, id)
    ensures Doomed(Run(q, steps), id)
    ensures multiset(Run(q, steps).ran)[id] + RunsLeft(Run(q, steps), id) == multiset(q.ran)[id] + RunsLeft(q, id)
    decreases |steps|
  {
    if steps != [] {
      InvStep(q, steps[0]);
      DoomedStep(q, id, steps[0]);
      RunsStep(q, id, steps[0]);
      CancelIsFinal(Next(q, steps[0]), id, steps[1..]);
    }
  }

  // Cancelling one identity leaves every other timer as it was, even one at the same address.
  lemma StaleCancelIsHarmless(q: Queue, id: Id, other: Id)
    requires Inv(q) && other != id && Live(q, other)
    ensures var r := CancelInLoop(q, id);
      && (id.timer == 0 ==> r == q)
      && Live(r, other) && r.heap[other.timer] == q.heap[other.timer]
      && (other in r.active <==> other in q.active)
      && (forall w :: Entry(w, other.timer) in r.timers <==> Entry(w, other.timer) in q.timers)
      && (other in r.canceling <==> other in q.canceling)
      && (other.timer in r.adding <==> other.timer in q.adding)
  {
    if id.timer != 0 {
      CancelMeans(q, id);
    }
  }

  // The cancellation guarantee for runs that start with an empty queue.  A cancelled timer that is
  // still waiting for its turn in the current batch does run there, and that is the only way, unless its
  // add was still queued: then the cancellation does nothing.
  lemma CancelledNeverRunsLater(q: Queue, before: seq<Step>, id: Id, after: seq<Step>)
    requires Initial(q) && ValidRun(q, before)
    requires id.timer != 0 && id.sequence < Run(q, before).created
    requires ValidRun(CancelInLoop(Run(q, before), id), after)
    ensures var m := Run(q, before);
      var c := CancelInLoop(m, id);
      var r := Run(c, after);
      if Live(m, id) && id.timer in m.adding then c == m.(canceling := c.canceling)
      else
        && multiset(r.ran)[id] <= multiset(m.ran)[id] + RunsLeft(c, id)
        && (r.phase.Quiet? ==> multiset(r.ran)[id] == multiset(m.ran)[id] + RunsLeft(c, id))
        && (m.phase.Quiet? || id in m.active ==> multiset(r.ran)[id] == multiset(m.ran)[id])
  {
    InitialInv(q);
    InvRun(q, before);
    var m := Run(q, before);
    InvStep(m, Cancel(id));
    CancelDooms(m, id);
    CancelMeans(m, id);
    var c := CancelInLoop(m, id);
    if !(Live(m, id) && id.timer in m.adding) {
      CancelIsFinal(c, id, after);
      if !Live(c, id) {
        IdsNeverRepeat(c, id, after);
      }
    }
  }

  // An identity that is not allocated any more never comes back, although its address may.
  lemma {:induction false} IdsNeverRepeat(q: Queue, id: Id, steps: seq<Step>)
    requires Inv(q) && ValidRun(q, steps) && id.sequence < q.created && !Live(q, id)
    ensures !Live(Run(q, steps), id)
    decreases |steps|
  {
    if steps != [] {
      var s := steps[0];
      InvStep(q, s);
      match s {
        case Add(a) => AddMeans(q, a);
        case Cancel(other) => if other.timer != 0 { CancelMeans(q, other); }
        case End => EndMeans(q);
        case NewTimer(_, _, _, _) =>
        case Begin =>
        case RunCallback =>
        case Tick(_) =>
        case Fire =>
      }
      IdsNeverRepeat(Next(q, s), id, steps[1..]);
    }
  }

  // ---------- one wakeup ----------

  ghost function Ids(heap: map<nat, Timer>, batch: seq<Entry>): seq<Id>
    requires Addresses(batch) <= heap.Keys
  {
    seq(|batch|, i requires 0 <= i < |batch| => InBatch(batch, i); Id(batch[i].timer, heap[batch[i].timer].sequence))
  }

  lemma InBatch(batch: seq<Entry>, i: nat)
    requires i < |batch|
    ensures batch[i].timer in Addresses(batch)
  {
  }

  // The batch is exactly the waiting timers that are due, in the order of their expirations.
  lemma BatchIsDue(q: Queue)
    requires Inv(q) && q.phase.Quiet?
    ensures var b := BeginRead(q).phase.batch;
      && (forall e :: e in b <==> e in q.timers && e.when <= q.clock)
      && (forall i, j :: 0 <= i < j < |b| ==> b[i].when <= b[j].when && b[i] != b[j])
      && BeginRead(q).timers == set e | e in q.timers && q.clock < e.when
  {
    assert forall e :: e in q.timers ==> e.timer < UINTPTR_MAX;
  }

  // While the callbacks of a batch run, nothing they do changes the batch or its timers.
  ghost predicate InProgress(q: Queue, r: Queue) {
    && q.phase.Calling? && r.phase.Calling?
    && r.phase.batch == q.phase.batch && r.phase.now == q.phase.now
    && (forall a :: a in Addresses(q.phase.batch) ==> a in q.heap && a in r.heap && r.heap[a] == q.heap[a])
    && r.phase.next <= |q.phase.batch|
    && r.ran == q.ran + Ids(q.heap, q.phase.batch)[..r.phase.next]
  }

  lemma InProgressCallback(q: Queue, m: Queue)
    requires InProgress(q, m) && Enabled(m, RunCallback)
    ensures InProgress(q, RunNext(m))
  {
    var i := m.phase.next;
    InBatch(m.phase.batch, i);
    var ids := Ids(q.heap, q.phase.batch);
    assert ids[..i + 1] == ids[..i] + [ids[i]];
  }

  lemma InProgressStep(q: Queue, m: Queue, s: Step)
    requires Inv(m) && InProgress(q, m) && Enabled(m, s) && s != End
    ensures InProgress(q, Next(m, s))
  {
    match s {
      case Add(a) => AddMeans(m, a);
      case Cancel(id) => if id.timer != 0 { CancelMeans(m, id); }
      case RunCallback => InProgressCallback(q, m);
      case NewTimer(_, _, _, _) =>
      case Tick(_) =>
      case Fire =>
    }
  }

  lemma {:induction false} InProgressRun(q: Queue, m: Queue, steps: seq<Step>)
    requires Inv(m) && InProgress(q, m) && ValidRun(m, steps) && End !in steps
    ensures InProgress(q, Run(m, steps)) && Inv(Run(m, steps))
    decreases |steps|
  {
    if steps != [] {
      InvStep(m, steps[0]);
      InProgressStep(q, m, steps[0]);
      InProgressRun(q, Next(m, steps[0]), steps[1..]);
    }
  }

  // reset, timer by timer
  lemma EndPointwise(m: Queue)
    requires Inv(m) && Enabled(m, End)
    ensures var r := EndRead(m);
      var done := Addresses(m.phase.batch);
      && done <= m.heap.Keys
      && r.ran == m.ran
      && r.timers == m.timers + RestartedEntries(m, m.phase.now, done)
      && (forall a :: a in done ==> (a in r.heap <==> Keeps(m, a)))
      && (forall a :: a in done && a in r.heap ==> r.heap[a] == Restarted(m.heap[a], m.phase.now))
      && (forall a :: a !in done ==> (a in r.heap <==> a in m.heap) && (a in r.heap ==> r.heap[a] == m.heap[a]))
  {
    EndMeans(m);
    var quiet := m.(phase := Quiet);
    var done := Addresses(m.phase.batch);
    assert forall a :: a in m.heap ==> Keeps(quiet, a) == Keeps(m, a);
    assert RestartedEntries(quiet, m.phase.now, done) == RestartedEntries(m, m.phase.now, done);
  }

  lemma Begun(q: Queue)
    requires Inv(q) && q.phase.Quiet?
    ensures var b := BeginRead(q);
      && Inv(b) && InProgress(b, b)
      && b.heap == q.heap && b.ran == q.ran && b.canceling == {} && b.phase.now == q.clock
  {
    InvStep(q, Begin);
    var b := BeginRead(q);
    assert b.ran + Ids(b.heap, b.phase.batch)[..0] == b.ran;
  }

  // All callbacks of the batch have returned.
  lemma CallbacksDone(q: Queue, mid: seq<Step>)
    requires Inv(q) && q.phase.Quiet?
    requires ValidRun(BeginRead(q), mid) && End !in mid
    requires Enabled(Run(BeginRead(q), mid), End)
    ensures var batch := BeginRead(q).phase.batch;
      var m := Run(BeginRead(q), mid);
      && Inv(m) && m.phase == Calling(batch, |batch|, q.clock)
      && (forall a :: a in Addresses(batch) ==> a in q.heap && a in m.heap && m.heap[a] == q.heap[a])
      && m.ran == q.ran + Ids(q.heap, batch)
  {
    hide BeginRead, Inv;
    Begun(q);
    var b := BeginRead(q);
    InProgressRun(b, b, mid);
    assert Ids(b.heap, b.phase.batch)[..|b.phase.batch|] == Ids(b.heap, b.phase.batch);
  }

  lemma CancelRecorded(m: Queue, s: Step, a: nat)
    requires Inv(m) && Enabled(m, s) && s != End && m.phase.Calling? && a in Addresses(m.phase.batch)
    ensures a in m.heap
    ensures IdOf(m, a) in Next(m, s).canceling <==> IdOf(m, a) in m.canceling || s == Cancel(IdOf(m, a))
  {
    match s {
      case Add(b) => AddMeans(m, b);
      case Cancel(id) => if id.timer != 0 { CancelMeans(m, id); }
      case RunCallback =>
      case NewTimer(_, _, _, _) =>
      case Tick(_) =>
      case Fire =>
    }
  }

  // A timer of the batch is in cancelingTimers_ exactly if it is cancelled while the callbacks run.
  lemma {:induction false} CancelsRecorded(q: Queue, m: Queue, steps: seq<Step>, a: nat)
    requires Inv(m) && InProgress(q, m) && ValidRun(m, steps) && End !in steps && a in Addresses(q.phase.batch)
    ensures IdOf(q, a) in Run(m, steps).canceling <==> IdOf(q, a) in m.canceling || Cancel(IdOf(q, a)) in steps
    decreases |steps|
  {
    if steps != [] {
      var s := steps[0];
      InvStep(m, s);
      InProgressStep(q, m, s);
      CancelRecorded(m, s, a);
      assert steps == [s] + steps[1..];
      CancelsRecorded(q, Next(m, s), steps[1..], a);
    }
  }

  // reset keeps exactly the repeating timers of the batch that were not cancelled.
  lemma KeptIffNotCancelled(q: Queue, mid: seq<Step>, a: nat)
    requires Inv(q) && q.phase.Quiet?
    requires ValidRun(BeginRead(q), mid) && End !in mid
    requires Enabled(Run(BeginRead(q), mid), End) && a in Addresses(BeginRead(q).phase.batch)
    ensures a in q.heap && a in Run(BeginRead(q), mid).heap
    ensures Keeps(Run(BeginRead(q), mid), a) <==> q.heap[a].repeat && Cancel(IdOf(q, a)) !in mid
  {
    hide BeginRead, Inv, Addresses, Next, Enabled, ValidRun, Run;
    CallbacksDone(q, mid);
    Begun(q);
    CancelsRecorded(BeginRead(q), BeginRead(q), mid, a);
  }

  lemma RestartedAre(m: Queue, now: int, done: set<nat>, was: map<nat, Timer>, left: map<nat, Timer>)
    requires done <= m.heap.Keys && done <= was.Keys
    requires forall a :: a in done ==> was[a] == m.heap[a] && (a in left <==> Keeps(m, a))
    ensures RestartedEntries(m, now, done) == set a | a in done && a in left :: Entry(now + was[a].delta, a)
  {
  }

  // handleRead as one scheduler step.  `mid` is everything the callbacks do, and `m` the state in
  // which the last of them returned: every due timer has run exactly once, in order; the repeating
  // ones that were not cancelled meanwhile wait again at now + interval, the others are gone, and no
  // other timer has been touched by the queue.
  lemma HandleReadMeans(q: Queue, mid: seq<Step>)
    requires Inv(q) && q.phase.Quiet?
    requires ValidRun(BeginRead(q), mid) && End !in mid
    requires Enabled(Run(BeginRead(q), mid), End)
    ensures var batch := BeginRead(q).phase.batch;
      var m := Run(BeginRead(q), mid);
      var r := EndRead(m);
      && Addresses(batch) <= q.heap.Keys && Addresses(batch) <= m.heap.Keys
      && r.ran == q.ran + Ids(q.heap, batch)
      && (forall a :: a in Addresses(batch) ==>
            (a in r.heap <==> q.heap[a].repeat && Cancel(IdOf(q, a)) !in mid))
      && (forall a :: a in Addresses(batch) && a in r.heap ==>
            r.heap[a] == q.heap[a].(expiration := q.clock + q.heap[a].delta))
      && (forall a :: a !in Addresses(batch) ==>
            (a in r.heap <==> a in m.heap) && (a in r.heap ==> r.heap[a] == m.heap[a]))
      && r.timers == m.timers +
           set a | a in Addresses(batch) && a in r.heap :: Entry(q.clock + q.heap[a].delta, a)
  {
    hide BeginRead, EndRead, Inv, Addresses, Next, Enabled, ValidRun, Run, Keeps, RestartedEntries, Ids;
    CallbacksDone(q, mid);
    var m := Run(BeginRead(q), mid);
    assert Enabled(m, End);
    EndPointwise(m);
    forall a | a in Addresses(m.phase.batch)
      ensures a in q.heap && a in m.heap && (Keeps(m, a) <==> q.heap[a].repeat && Cancel(IdOf(q, a)) !in mid)
    {
      KeptIffNotCancelled(q, mid, a);
    }
    RestartedAre(m, q.clock, Addresses(m.phase.batch), q.heap, EndRead(m).heap);
  }

  // ---------- destruction ----------

  // What deleting needs, and keeps, for the timers of a batch
  ghost predicate Deletable(q: Queue, batch: seq<Entry>) {
    !q.fault && Distinct(batch) && Addresses(batch) <= q.heap.Keys && Sequenced(q.heap, q.created, q.freed)
  }

  lemma FreeOne(q: Queue, batch: seq<Entry>)
    requires Deletable(q, batch) && batch != []
    ensures var m := Free(q, batch[0].timer);
      && Deletable(m, batch[1..]) && m.created == q.created
      && m.heap - Addresses(batch[1..]) == q.heap - Addresses(batch)
  {
    var a := batch[0].timer;
    InBatch(batch, 0);
    AddressSplit(batch, 0);
    assert batch[0..] == batch;
    FreeSequenced(q.heap, q.created, q.freed, a);
    assert q.heap - {a} - Addresses(batch[1..]) == q.heap - Addresses(batch);
  }

  lemma {:induction false} FreeAllMeans(q: Queue, batch: seq<Entry>)
    requires Deletable(q, batch)
    ensures var r := FreeAll(q, batch);
      Deletable(r, []) && r.heap == q.heap - Addresses(batch) && r.created == q.created
    decreases |batch|
  {
    if batch == [] {
      assert Addresses(batch) == {};
    } else {
      hide Deletable, Addresses, Free;
      FreeOne(q, batch);
      FreeAllMeans(Free(q, batch[0].timer), batch[1..]);
    }
  }

  // ~TimerQueue between batches: every delete finds its timer, exactly the timers whose add is still queued
  // are left, and every other timer ever created has been freed exactly once.
  lemma DestructorFreesWaiting(q: Queue)
    requires Inv(q) && q.phase.Quiet?
    ensures var r := Destructed(q);
      && !r.fault && r.heap.Keys == q.adding
      && (forall s: nat :: s < q.created ==> multiset(r.freed)[s] == if InHeap(r.heap, s) then 0 else 1)
  {
    assert Addresses(Batch(q)) == {};
    BatchAddresses(q.timers);
    FreeAllMeans(q, InOrder(q.timers));
    var r := Destructed(q);
    forall a | a in q.heap && a !in q.adding ensures a in Addresses(InOrder(q.timers)) {
      assert Entry(q.heap[a].expiration, a) in q.timers;
    }
    forall a | a in q.adding ensures a !in Addresses(InOrder(q.timers)) {
    }
    forall s: nat | s < q.created ensures multiset(r.freed)[s] == if InHeap(r.heap, s) then 0 else 1 {
      CountDistinct(r.freed, s);
    }
  }
}
