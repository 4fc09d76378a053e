/** Runs of the timer queue in which a cancelled timer's callback still runs. */
module TimerRuns {
  import opened TimerModel
  import opened TimerProofs
  import opened TimerTheorems
  import opened TimerQueues

  lemma Take(q: Queue, steps: seq<Step>, r: Queue, s: Step) returns (more: seq<Step>, m: Queue)
    requires ValidRun(q, steps) && Run(q, steps) == r && Enabled(r, s)
    ensures more == steps + [s] && m == Next(r, s) && ValidRun(q, more) && Run(q, more) == m
  {
    assert [s][1..] == [] && ValidRun(Next(r, s), []) && Run(Next(r, s), []) == Next(r, s);
    RunAppend(q, steps, [s]);
    more, m := steps + [s], Next(r, s);
  }

  lemma FirstOfOne(e: Entry)
    ensures InOrder({e}) == [e]
  {
    assert First({e}) == e;
    assert {e} - {e} == {};
    assert InOrder({e}) == [e] + InOrder({});
  }

  lemma FirstOfTwo(e: Entry, f: Entry)
    requires Before(e, f)
    ensures InOrder({e, f}) == [e, f]
  {
    assert e in {e, f} && f in {e, f};
    assert First({e, f}) == e;
    assert {e, f} - {e} == {f};
    FirstOfOne(f);
    assert InOrder({e, f}) == [e] + [f];
  }

  // ---------- a cancel before the add ----------

  // Creating a timer and adding it, with nothing else in the queue
  lemma OneAdded(q: Queue, a: nat, t: Timer)
    requires Initial(q) && 0 < a < UINTPTR_MAX && t.sequence == 0
    ensures var r := AddInLoop(q.(heap := map[a := t], created := 1, adding := {a}), a);
      r == q.(heap := map[a := t], created := 1, timers := {Entry(t.expiration, a)}, active := {Id(a, 0)}, fd := r.fd)
  {
    assert {a} - {a} == {} && {} + {Entry(t.expiration, a)} == {Entry(t.expiration, a)};
  }

  // A due timer that waits alone runs.
  lemma OneRuns(q: Queue, a: nat)
    requires q.phase == Quiet && Valid(q.clock) && a < UINTPTR_MAX
    requires a in q.heap && q.timers == {Entry(q.clock, a)} && q.ran == []
    ensures Enabled(BeginRead(q), RunCallback)
    ensures Next(BeginRead(q), RunCallback).ran == [IdOf(q, a)]
  {
    var e := Entry(q.clock, a);
    assert Expired(q, q.clock) == {e};
    FirstOfOne(e);
  }

  // The loop thread cancels a timer whose add another thread has queued: the cancel is lost.
  lemma CancelBeforeAddIsLost(q: Queue) returns (steps: seq<Step>, r: Queue)
    requires Initial(q)
    ensures ValidRun(q, steps) && Run(q, steps) == r && Cancel(Id(1, 0)) in steps && r.ran == [Id(1, 0)]
  {
    var t := Timer(q.clock, 0, false, 0);
    steps, r := Take(q, [], q, NewTimer(1, q.clock, 0, false));
    assert r == q.(heap := map[1 := t], created := 1, adding := {1}) by {
      assert map[][1 := t] == map[1 := t] && {} + {1} == {1};
    }
    steps, r := Take(q, steps, r, Cancel(Id(1, 0)));
    OneAdded(q, 1, t);
    steps, r := Take(q, steps, r, Add(1));
    OneRuns(r, 1);
    steps, r := Take(q, steps, r, Begin);
    steps, r := Take(q, steps, r, RunCallback);
  }

  // ---------- a cancel in the same batch ----------

  // Two timers that are due now
  ghost function Two(q: Queue, fd: TimerFd): Queue {
    q.(heap := map[1 := Timer(q.clock, 0, false, 0), 2 := Timer(q.clock, 0, false, 1)], created := 2,
       timers := {Entry(q.clock, 1), Entry(q.clock, 2)}, active := {Id(1, 0), Id(2, 1)}, fd := fd)
  }

  lemma SecondAdded(q: Queue, fd: TimerFd)
    requires Initial(q)
    ensures var t := Timer(q.clock, 0, false, 0);
      var r := q.(heap := map[1 := t], created := 1, timers := {Entry(q.clock, 1)}, active := {Id(1, 0)}, fd := fd);
      && Enabled(r, NewTimer(2, q.clock, 0, false))
      && var m := Next(r, NewTimer(2, q.clock, 0, false));
      && Enabled(m, Add(2))
      && Next(m, Add(2)) == Two(q, fd)
  {
    var t := Timer(q.clock, 0, false, 0);
    var r := q.(heap := map[1 := t], created := 1, timers := {Entry(q.clock, 1)}, active := {Id(1, 0)}, fd := fd);
    var m := Next(r, NewTimer(2, q.clock, 0, false));
    assert m.adding == {2} && m.adding - {2} == {};
    assert First(m.timers) == Entry(q.clock, 1);
    assert !EarliestChanged(m, 2);
    assert |m.timers| == 1 && |m.active| == 1;
  }

  lemma BothCalled(q: Queue, fd: TimerFd)
    requires Initial(q)
    ensures var b := BeginRead(Two(q, fd));
      && b.phase == Calling([Entry(q.clock, 1), Entry(q.clock, 2)], 0, q.clock)
      && b.active == {} && b.heap == Two(q, fd).heap && b.ran == []
  {
    var r := Two(q, fd);
    assert Expired(r, q.clock) == {Entry(q.clock, 1), Entry(q.clock, 2)};
    FirstOfTwo(Entry(q.clock, 1), Entry(q.clock, 2));
    assert IdOf(r, 1) == Id(1, 0) && IdOf(r, 2) == Id(2, 1);
  }

  lemma TwoDue(q: Queue) returns (steps: seq<Step>, r: Queue)
    requires Initial(q)
    ensures ValidRun(q, steps) && Run(q, steps) == r && r == Two(q, r.fd)
  {
    var t := Timer(q.clock, 0, false, 0);
    steps, r := Take(q, [], q, NewTimer(1, q.clock, 0, false));
    assert r == q.(heap := map[1 := t], created := 1, adding := {1}) by {
      assert map[][1 := t] == map[1 := t] && {} + {1} == {1};
    }
    OneAdded(q, 1, t);
    steps, r := Take(q, steps, r, Add(1));
    SecondAdded(q, r.fd);
    steps, r := Take(q, steps, r, NewTimer(2, q.clock, 0, false));
    steps, r := Take(q, steps, r, Add(2));
  }

  // The callback of the first timer of a batch cancels the second, which runs all the same.
  lemma CancelledInItsBatchRuns(q: Queue) returns (before: seq<Step>, id: Id, after: seq<Step>)
    requires Initial(q)
    ensures ValidRun(q, before) && id.timer != 0 && id.sequence < Run(q, before).created
    ensures var m := Run(q, before); Live(m, id) && id.timer !in m.adding && multiset(m.ran)[id] == 0
    ensures ValidRun(CancelInLoop(Run(q, before), id), after)
    ensures multiset(Run(CancelInLoop(Run(q, before), id), after).ran)[id] == 1
  {
    var r;
    before, r := TwoDue(q);
    BothCalled(q, r.fd);
    before, r := Take(q, before, r, Begin);
    before, r := Take(q, before, r, RunCallback);
    id, after := Id(2, 1), [RunCallback];
    RunsAfterCancel(r, q.clock);
  }

  lemma RunsAfterCancel(r: Queue, now: int)
    requires r.phase == Calling([Entry(now, 1), Entry(now, 2)], 1, now) && Id(2, 1) !in r.active
    requires 2 in r.heap && r.heap[2].sequence == 1 && r.ran == [Id(1, 0)]
    ensures var c := CancelInLoop(r, Id(2, 1));
      ValidRun(c, [RunCallback]) && multiset(Run(c, [RunCallback]).ran)[Id(2, 1)] == 1
  {
    var c := CancelInLoop(r, Id(2, 1));
    assert [RunCallback][1..] == [];
    assert ValidRun(Next(c, RunCallback), []) && Run(Next(c, RunCallback), []) == Next(c, RunCallback);
    assert Run(c, [RunCallback]).ran == [Id(1, 0), Id(2, 1)];
  }
}
