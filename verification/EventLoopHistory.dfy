/** What a run leaves in the loop's flags, queue and eventfd, read off the sequence of its steps. */
module EventLoopHistory {
  import opened EventLoopModel
  import opened EventLoopTheorems

  lemma {:induction false} RunSnoc(l: Loop, steps: seq<Step>, s: Step)
    ensures ValidRun(l, steps + [s]) <==> ValidRun(l, steps) && Enabled(Run(l, steps), s)
    ensures ValidRun(l, steps + [s]) ==> Run(l, steps + [s]) == Next(Run(l, steps), s)
    decreases |steps|
  {
    if steps == [] {
      assert [] + [s] == [s] && [s][1..] == [];
    } else {
      assert (steps + [s])[0] == steps[0] && (steps + [s])[1..] == steps[1..] + [s];
      if Enabled(l, steps[0]) {
        RunSnoc(Next(l, steps[0]), steps[1..], s);
      }
    }
  }

  // ---------- quit ----------

  predicate Quits(s: Step) {
    s.OwnerQuits? || s.QuitsFrom?
  }

  // quit_ is set exactly by the calls of quit.
  lemma {:induction false} QuitIffCalled(l: Loop, steps: seq<Step>)
    requires ValidRun(l, steps)
    ensures Run(l, steps).quit <==> l.quit || exists s :: s in steps && Quits(s)
    decreases |steps|
  {
    if steps != [] {
      var first, rest := steps[0], steps[1..];
      QuitIffCalled(Next(l, first), rest);
      assert steps == [first] + rest && first in steps;
      assert Next(l, first).quit <==> l.quit || Quits(first);
      if s :| s in rest && Quits(s) {
        assert s in steps;
      }
    }
  }

  // Some test of quit_ comes after a call of quit.
  predicate Ends(quit: bool, steps: seq<Step>)
    decreases |steps|
  {
    steps != [] && ((quit && steps[0].TestQuit?) || Ends(quit || Quits(steps[0]), steps[1..]))
  }

  // The loop ends at the first test of quit_ after a call of quit, and at no other time.
  lemma {:induction false} EndsIffQuitIsSeen(l: Loop, steps: seq<Step>)
    requires ValidRun(l, steps)
    ensures Run(l, steps).place == Ended <==> l.place == Ended || Ends(l.quit, steps)
    decreases |steps|
  {
    if steps != [] {
      EndsIffQuitIsSeen(Next(l, steps[0]), steps[1..]);
    }
  }

  // ---------- the queue ----------

  function PushedBy(s: Step): seq<Functor> {
    if s.OwnerQueues? || s.QueuesFrom? then [s.f] else []
  }

  function Pushed(steps: seq<Step>): seq<Functor> {
    if steps == [] then [] else PushedBy(steps[0]) + Pushed(steps[1..])
  }

  lemma PushedStep(l: Loop, s: Step)
    requires Enabled(l, s)
    ensures Next(l, s).queued == l.queued + PushedBy(s)
  {
  }

  lemma {:induction false} QueuedIsPushed(l: Loop, steps: seq<Step>)
    requires ValidRun(l, steps)
    ensures Run(l, steps).queued == l.queued + Pushed(steps)
    decreases |steps|
  {
    hide PushedBy;
    if steps != [] {
      PushedStep(l, steps[0]);
      QueuedIsPushed(Next(l, steps[0]), steps[1..]);
      assert l.queued + PushedBy(steps[0]) + Pushed(steps[1..]) == l.queued + (PushedBy(steps[0]) + Pushed(steps[1..]));
    }
  }

  // In every run the functors that ran are the first of those ever passed to queueInLoop, in that order;
  // the others are the rest of the batch, then the pending ones.
  lemma ExecutedIsPushed(steps: seq<Step>)
    requires ValidRun(Fresh, steps)
    ensures var l := Run(Fresh, steps);
      Pushed(steps) == l.executed + Rest(l) + l.pending && l.executed <= Pushed(steps)
  {
    QueuedIsPushed(Fresh, steps);
    ExactlyOnceInOrder(Fresh, steps);
    assert [] + Pushed(steps) == Pushed(steps);
  }

  // ---------- the eventfd ----------

  // The wakeup writes since the eventfd was last read
  function Unread(steps: seq<Step>): nat {
    if steps == [] || steps[|steps| - 1].ReadEventfd? then 0
    else
      Unread(steps[..|steps| - 1])
      + if steps[|steps| - 1].OwnerWrites? || steps[|steps| - 1].WritesFrom? then 1 else 0
  }

  lemma CounterStep(l: Loop, s: Step)
    requires Enabled(l, s)
    ensures Next(l, s).counter ==
      if s.ReadEventfd? then 0
      else if s.OwnerWrites? || s.WritesFrom? then
        if l.counter < 0xFFFF_FFFF_FFFF_FFFE then l.counter + 1 else l.counter
      else l.counter
  {
  }

  // The counter is the number of wakeups since the last read, up to the greatest an eventfd can hold.
  lemma {:induction false} CounterCountsWakeups(steps: seq<Step>)
    requires ValidRun(Fresh, steps)
    ensures Run(Fresh, steps).counter ==
      if Unread(steps) <= 0xFFFF_FFFF_FFFF_FFFE then Unread(steps) else 0xFFFF_FFFF_FFFF_FFFE
    decreases |steps|
  {
    hide Next, Enabled;
    if steps != [] {
      var init, last := steps[..|steps| - 1], steps[|steps| - 1];
      assert steps == init + [last];
      RunSnoc(Fresh, init, last);
      CounterStep(Run(Fresh, init), last);
      CounterCountsWakeups(init);
    }
  }

  // The thread's last step is a push or a quit, and its write is still to come.
  predicate BeforeWrite(t: Thread, steps: seq<Step>) {
    steps != [] &&
    match steps[|steps| - 1]
    case QueuesFrom(u, _) => u == t || BeforeWrite(t, steps[..|steps| - 1])
    case QuitsFrom(u) => u == t || BeforeWrite(t, steps[..|steps| - 1])
    case WritesFrom(u) => u != t && BeforeWrite(t, steps[..|steps| - 1])
    case _ => BeforeWrite(t, steps[..|steps| - 1])
  }

  lemma OwingStep(l: Loop, s: Step, t: Thread)
    requires Enabled(l, s)
    ensures t in Next(l, s).owing <==>
      s == QuitsFrom(t) || (s.QueuesFrom? && s.t == t) || (t in l.owing && s != WritesFrom(t))
  {
  }

  // A thread owes a wakeup exactly between its push or its quit and its write.
  lemma {:induction false} OwesIffBeforeWrite(t: Thread, steps: seq<Step>)
    requires ValidRun(Fresh, steps)
    ensures t in Run(Fresh, steps).owing <==> BeforeWrite(t, steps)
    decreases |steps|
  {
    hide Next, Enabled;
    if steps != [] {
      var init, last := steps[..|steps| - 1], steps[|steps| - 1];
      assert steps == init + [last];
      RunSnoc(Fresh, init, last);
      OwingStep(Run(Fresh, init), last, t);
      OwesIffBeforeWrite(t, init);
    }
  }

  // On the loop thread a push is followed by a write exactly if functors are being called.
  lemma {:induction false} OwnerOwesIff(steps: seq<Step>)
    requires ValidRun(Fresh, steps)
    ensures Run(Fresh, steps).ownerOwes <==> OwnerPushed(steps)
    decreases |steps|
  {
    if steps != [] {
      var init, last := steps[..|steps| - 1], steps[|steps| - 1];
      assert steps == init + [last];
      RunSnoc(Fresh, init, last);
      OwnerOwesIff(init);
      CallingIff(init);
    }
  }

  // The loop thread's last step is a push made while functors are being called.
  predicate OwnerPushed(steps: seq<Step>) {
    steps != [] &&
    match steps[|steps| - 1]
    case OwnerQueues(_) => Calling(steps[..|steps| - 1])
    case OwnerWrites => false
    case _ => OwnerPushed(steps[..|steps| - 1])
  }

  // Functors are being called: doPendingFunctors has begun and not ended.
  predicate Calling(steps: seq<Step>) {
    steps != [] &&
    match steps[|steps| - 1]
    case BeginFunctors => true
    case EndFunctors => false
    case _ => Calling(steps[..|steps| - 1])
  }

  lemma {:induction false} CallingIff(steps: seq<Step>)
    requires ValidRun(Fresh, steps)
    ensures Run(Fresh, steps).calling <==> Calling(steps)
    decreases |steps|
  {
    if steps != [] {
      var init, last := steps[..|steps| - 1], steps[|steps| - 1];
      assert steps == init + [last];
      RunSnoc(Fresh, init, last);
      CallingIff(init);
    }
  }

  // ---------- the loop goes round ----------

  function Repeat(s: Step, n: nat): seq<Step> {
    if n == 0 then [] else [s] + Repeat(s, n - 1)
  }

  // The steps of the loop thread in one iteration that runs n functors
  function Iteration(n: nat): seq<Step> {
    [TestQuit, PollReturns, BeginFunctors, Swap] + (Repeat(RunFunctor, n) + [EndFunctors])
  }

  // The rest of a batch
  lemma {:induction false} BatchRuns(l: Loop, steps: seq<Step>)
    requires l.place.Running? && l.place.next <= |l.place.batch| && !l.ownerOwes
    requires steps == Repeat(RunFunctor, |l.place.batch| - l.place.next) + [EndFunctors]
    ensures ValidRun(l, steps)
    ensures Run(l, steps) ==
      l.(executed := l.executed + l.place.batch[l.place.next..], calling := false, place := Testing)
    decreases |steps|
  {
    var n := l.place.next;
    if n == |l.place.batch| {
      assert steps == [EndFunctors] && steps[1..] == [] && l.place.batch[n..] == [];
      assert l.executed + [] == l.executed;
      assert ValidRun(Next(l, EndFunctors), []);
    } else {
      assert steps[0] == RunFunctor;
      assert steps[1..] == Repeat(RunFunctor, |l.place.batch| - n - 1) + [EndFunctors];
      Executed(l.executed, l.place.batch, n);
      BatchRuns(Next(l, RunFunctor), steps[1..]);
    }
  }

  lemma Follows(l: Loop, a: Step, steps: seq<Step>)
    requires Enabled(l, a) && ValidRun(Next(l, a), steps)
    ensures ValidRun(l, [a] + steps) && Run(l, [a] + steps) == Run(Next(l, a), steps)
  {
    assert ([a] + steps)[1..] == steps;
  }

  // Left to itself, a loop that is not told to quit goes through one iteration and comes back to the test of
  // quit_, and in it every functor that was pending has run, in order.
  lemma IterationRunsAll(l: Loop)
    requires l.place == Testing && !l.quit && !l.ownerOwes
    ensures ValidRun(l, Iteration(|l.pending|))
    ensures Run(l, Iteration(|l.pending|)) ==
      l.(executed := l.executed + l.pending, pending := [], calling := false)
  {
    var rest := Repeat(RunFunctor, |l.pending|) + [EndFunctors];
    var l1 := Next(l, TestQuit);
    var l2 := Next(l1, PollReturns);
    var l3 := Next(l2, BeginFunctors);
    var l4 := Next(l3, Swap);
    assert l.pending[0..] == l.pending;
    BatchRuns(l4, rest);
    Follows(l3, Swap, rest);
    Follows(l2, BeginFunctors, [Swap] + rest);
    Follows(l1, PollReturns, [BeginFunctors] + ([Swap] + rest));
    Follows(l, TestQuit, [PollReturns] + ([BeginFunctors] + ([Swap] + rest)));
    assert Iteration(|l.pending|) == [TestQuit] + ([PollReturns] + ([BeginFunctors] + ([Swap] + rest)));
  }
}
