/** No wakeup is lost, and every functor runs exactly once, in order. */
module EventLoopTheorems {
  import opened EventLoopModel

  // The part of the swapped batch that has not run yet
  function Rest(l: Loop): seq<Functor> {
    if l.place.Running? && l.place.next <= |l.place.batch| then l.place.batch[l.place.next..] else []
  }

  // The loop will not block in poll, or some thread is about to make sure of that.
  predicate Awake(l: Loop) {
    l.counter > 0 || l.owing != {} || l.ownerOwes
  }

  predicate Conserved(l: Loop) {
    && l.queued == l.executed + Rest(l) + l.pending
    && (l.place.Running? ==> l.place.next <= |l.place.batch|)
  }

  predicate Signalled(l: Loop) {
    && (l.calling <==> l.place == Swapping || l.place.Running?)
    && (l.ownerOwes ==> l.place.Running?)
    && (l.place == Outside || l.place == Testing || l.place == Polling || l.place.Running? ==>
          l.pending != [] ==> Awake(l))
    && (l.place == Polling && l.quit ==> Awake(l))
  }

  predicate Inv(l: Loop) {
    Conserved(l) && Signalled(l)
  }

  // The one misuse: the owner thread queues before its first poll and nothing else wakes the loop.
  predicate Silent(l: Loop, s: Step) {
    s.OwnerQueues? && l.place == Outside && !Awake(l)
  }

  lemma ConservedStep(l: Loop, s: Step)
    requires Conserved(l) && Enabled(l, s)
    ensures Conserved(Next(l, s))
  {
    var r := Next(l, s);
    match s {
      case RunFunctor => Executed(l.executed, l.place.batch, l.place.next);
      case Swap => Swapped(l.executed, l.pending);
      case EndFunctors => assert Rest(l) == [] && Rest(r) == [];
      case OwnerQueues(f) => Appended(l.executed + Rest(l), l.pending, f);
      case QueuesFrom(_, f) => Appended(l.executed + Rest(l), l.pending, f);
      case _ => assert Rest(r) == Rest(l);
    }
  }

  lemma Executed(e: seq<Functor>, batch: seq<Functor>, i: nat)
    requires i < |batch|
    ensures e + [batch[i]] + batch[i + 1..] == e + batch[i..]
  {
    assert batch[i..] == [batch[i]] + batch[i + 1..];
  }

  lemma Swapped(e: seq<Functor>, p: seq<Functor>)
    ensures p[0..] == p && e + [] + p == e + p + []
  {
  }

  lemma Appended(a: seq<Functor>, b: seq<Functor>, f: Functor)
    ensures a + b + [f] == a + (b + [f])
  {
  }

  // The wakeup protocol survives a step exactly when that step is not the misuse.
  lemma SignalledIff(l: Loop, s: Step)
    requires Signalled(l) && Enabled(l, s)
    ensures Signalled(Next(l, s)) <==> !Silent(l, s)
  {
    if s.WritesFrom? || s.OwnerWrites? {
      assert Next(l, s).counter > 0;
    }
    if Silent(l, s) {
      assert Next(l, s).pending != [];
    }
    if s.QueuesFrom? || s.QuitsFrom? {
      assert s.t in Next(l, s).owing;
    }
  }

  predicate Disciplined(l: Loop, steps: seq<Step>)
    requires ValidRun(l, steps)
    decreases |steps|
  {
    steps == [] || (!Silent(l, steps[0]) && Disciplined(Next(l, steps[0]), steps[1..]))
  }

  lemma {:induction false} InvRun(l: Loop, steps: seq<Step>)
    requires Inv(l) && ValidRun(l, steps) && Disciplined(l, steps)
    ensures Inv(Run(l, steps))
    decreases |steps|
  {
    if steps != [] {
      ConservedStep(l, steps[0]);
      SignalledIff(l, steps[0]);
      InvRun(Next(l, steps[0]), steps[1..]);
    }
  }

  // In no interleaving does the loop block in poll with work or a quit request pending: the eventfd
  // is readable or some thread has yet to do its wakeup write.  A refused write keeps this.
  lemma NoLostWakeup(steps: seq<Step>)
    requires ValidRun(Fresh, steps) && Disciplined(Fresh, steps)
    ensures var l := Run(Fresh, steps);
      l.place == Polling && (l.pending != [] || l.quit) ==> l.counter > 0 || l.owing != {}
  {
    InvRun(Fresh, steps);
  }

  // Without the discipline the loop does wait with work pending, until the poll times out.
  lemma SilentQueueBlocks(f: Functor)
    ensures var steps := [OwnerQueues(f), Enter, TestQuit];
      && ValidRun(Fresh, steps)
      && !Disciplined(Fresh, steps)
      && Run(Fresh, steps).place == Polling
      && Run(Fresh, steps).pending == [f]
      && !Awake(Run(Fresh, steps))
  {
    var l1 := Next(Fresh, OwnerQueues(f));
    var l2 := Next(l1, Enter);
    var l3 := Next(l2, TestQuit);
    var steps := [OwnerQueues(f), Enter, TestQuit];
    assert steps[1..] == [Enter, TestQuit] && steps[1..][1..] == [TestQuit] && [TestQuit][1..] == [];
    assert ValidRun(l3, []) && ValidRun(l2, [TestQuit]) && ValidRun(l1, [Enter, TestQuit]);
    assert Run(l3, []) == l3 && Run(l2, [TestQuit]) == l3 && Run(l1, [Enter, TestQuit]) == l3;
  }

  // The exact harm: the owner's push before the first poll leaves the loop in poll with the functor pending
  // and nothing to wake it before the timeout, if and only if nothing else wakes the loop and it is not
  // about to quit anyway.
  lemma BlocksIff(l: Loop, f: Functor)
    requires l.place == Outside && !l.ownerOwes && !l.calling
    ensures var steps := [OwnerQueues(f), Enter, TestQuit];
      && ValidRun(l, steps)
      && var r := Run(l, steps);
      (r.place == Polling && r.pending != [] && !Awake(r) <==> Silent(l, OwnerQueues(f)) && !l.quit)
  {
    var l1 := Next(l, OwnerQueues(f));
    var l2 := Next(l1, Enter);
    var l3 := Next(l2, TestQuit);
    var steps := [OwnerQueues(f), Enter, TestQuit];
    assert steps[1..] == [Enter, TestQuit] && steps[1..][1..] == [TestQuit] && [TestQuit][1..] == [];
    assert ValidRun(l3, []) && ValidRun(l2, [TestQuit]) && ValidRun(l1, [Enter, TestQuit]);
    assert Run(l3, []) == l3 && Run(l2, [TestQuit]) == l3 && Run(l1, [Enter, TestQuit]) == l3;
  }

  // ---------- exactly once, in order ----------

  lemma LogsGrow(l: Loop, s: Step)
    requires Enabled(l, s)
    ensures l.executed <= Next(l, s).executed && l.queued <= Next(l, s).queued
  {
  }

  // For any producers, whatever functors queue and whether or not they throw: what ran, what is
  // left of the batch and what is pending make up exactly what was ever queued.
  lemma {:induction false} ExactlyOnceInOrder(l: Loop, steps: seq<Step>)
    requires Conserved(l) && ValidRun(l, steps)
    ensures Conserved(Run(l, steps))
    ensures l.executed <= Run(l, steps).executed && l.queued <= Run(l, steps).queued
    decreases |steps|
  {
    hide Conserved;
    if steps != [] {
      ConservedStep(l, steps[0]);
      LogsGrow(l, steps[0]);
      ExactlyOnceInOrder(Next(l, steps[0]), steps[1..]);
    }
  }

  predicate AfterSwap(l: Loop) {
    l.place == Testing || l.place == Polling || l.place == Ended
  }

  // How far everything in `q` has come in the iteration that followed
  predicate Progressing(q: seq<Functor>, l: Loop) {
    && (l.place == Dispatching || l.place == Swapping ==> q <= l.queued)
    && (l.place.Running? ==> q <= l.executed + Rest(l))
    && (AfterSwap(l) ==> q <= l.executed)
    && l.place != Outside
  }

  lemma ProgressStep(q: seq<Functor>, l: Loop, s: Step)
    requires Conserved(l) && Progressing(q, l) && Enabled(l, s)
    ensures Progressing(q, Next(l, s))
  {
    ConservedStep(l, s);
    var r := Next(l, s);
    match s {
      case RunFunctor => Executed(l.executed, l.place.batch, l.place.next);
      case Swap => Swapped(l.executed, l.pending);
      case EndFunctors => assert Rest(l) == [] && l.executed + [] == r.executed;
      case PollReturns => assert l.executed <= r.queued;
      case _ =>
    }
  }

  // Whatever was queued when poll returned has run by the time the loop tests quit_ again.
  lemma {:induction false} OneIteration(q: seq<Functor>, l: Loop, steps: seq<Step>)
    requires Conserved(l) && Progressing(q, l) && ValidRun(l, steps)
    ensures Progressing(q, Run(l, steps))
    decreases |steps|
  {
    if steps != [] {
      ConservedStep(l, steps[0]);
      ProgressStep(q, l, steps[0]);
      OneIteration(q, Next(l, steps[0]), steps[1..]);
    }
  }

  lemma QueuedBeforePollReturnsRuns(l: Loop, steps: seq<Step>)
    requires Conserved(l) && l.place == Dispatching && ValidRun(l, steps)
    ensures AfterSwap(Run(l, steps)) ==> l.queued <= Run(l, steps).executed
  {
    OneIteration(l.queued, l, steps);
  }

  // A quit request is never forgotten, and the loop does not poll again after it has seen it.
  lemma {:induction false} QuitIsFinal(l: Loop, steps: seq<Step>)
    requires ValidRun(l, steps) && l.quit && l.place != Polling
    ensures Run(l, steps).quit && Run(l, steps).place != Polling
    decreases |steps|
  {
    if steps != [] {
      QuitIsFinal(Next(l, steps[0]), steps[1..]);
    }
  }
}
