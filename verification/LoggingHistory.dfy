/** When the back-end thread ends, and when a buffer is changed for another. */
module LoggingHistory {
  import opened Bytes
  import opened Sequences
  import opened LoggingModel
  import opened LoggingTheorems

  // ---------- stop ----------

  // Some test of running_ comes after a stop.
  predicate Ends(stopped: bool, steps: seq<Step>)
    decreases |steps|
  {
    steps != [] && ((stopped && steps[0].Test?) || Ends(stopped || steps[0].Stop?, steps[1..]))
  }

  lemma StopStep(l: Log, s: Step)
    requires Enabled(l, s)
    ensures Next(l, s).running <==> l.running && !s.Stop?
    ensures Next(l, s).place == Ended <==> l.place == Ended || (s.Test? && !l.running)
  {
    match s {
      case Produce(line) => AppendShape(l, line);
      case Finish => RecycleShape(l);
      case _ =>
    }
  }

  // The thread ends at its first test of running_ after a stop, and at no other time.
  lemma {:induction false} EndsIffStopIsSeen(l: Log, steps: seq<Step>)
    requires ValidRun(l, steps)
    ensures Run(l, steps).running <==> l.running && Stop !in steps
    ensures Run(l, steps).place == Ended <==> l.place == Ended || Ends(!l.running, steps)
    decreases |steps|
  {
    hide Next, Enabled;
    if steps != [] {
      StopStep(l, steps[0]);
      EndsIffStopIsSeen(Next(l, steps[0]), steps[1..]);
      assert steps == [steps[0]] + steps[1..];
    }
  }

  // ---------- the buffers ----------

  // A buffer is queued exactly when the line does not fit into what is left of its 4000 bytes, and a buffer is
  // allocated exactly when there is moreover no spare one.
  lemma RotatesIffFull(l: Log, line: Line)
    ensures var full := |Concat(l.current.lines)| + |line| >= 4000;
      var r := Append(l, line);
      && r.buffers == (if full then l.buffers + [l.current] else l.buffers)
      && r.serial == (if full && l.next.Null? then l.serial + 1 else l.serial)
      && r.current.id == (if !full then l.current.id else if l.next.Owner? then l.next.buffer.id else l.serial)
      && r.next == if full then Null else l.next
  {
    AppendShape(l, line);
  }

  // Buffers are queued and allocated by appends alone.
  function Allocations(l: Log, steps: seq<Step>): nat
    requires ValidRun(l, steps)
    decreases |steps|
  {
    if steps == [] then 0
    else
      (if steps[0].Produce? && |Concat(l.current.lines)| + |steps[0].line| >= 4000 && l.next.Null? then 1 else 0)
      + Allocations(Next(l, steps[0]), steps[1..])
  }

  lemma AllocationStep(l: Log, s: Step)
    requires Enabled(l, s)
    ensures Next(l, s).serial == l.serial
      + if s.Produce? && |Concat(l.current.lines)| + |s.line| >= 4000 && l.next.Null? then 1 else 0
  {
    match s {
      case Produce(line) => AppendShape(l, line);
      case Finish => RecycleShape(l);
      case _ =>
    }
  }

  lemma {:induction false} AllocatesOnlyWhenDry(l: Log, steps: seq<Step>)
    requires ValidRun(l, steps)
    ensures Run(l, steps).serial == l.serial + Allocations(l, steps)
    decreases |steps|
  {
    if steps != [] {
      AllocationStep(l, steps[0]);
      AllocatesOnlyWhenDry(Next(l, steps[0]), steps[1..]);
    }
  }

  predicate Fits(b: Buffer) {
    |Concat(b.lines)| < 4000
  }

  predicate AllFit(l: Log) {
    && Fits(l.current) && EmptyOrNull(l.next) && EmptyOrNull(l.new1)
    && (forall i :: 0 <= i < |l.buffers| ==> Fits(l.buffers[i]))
    && (l.place.Writing? ==> forall i :: 0 <= i < |l.place.batch| ==> Fits(l.place.batch[i]))
  }

  lemma AppendFits(l: Log, line: Line)
    requires AllFit(l)
    ensures AllFit(Append(l, line))
  {
    var r := Append(l, line);
    AppendShape(l, line);
    AppendLines(l, line);
    ConcatAppend(l.current.lines, line);
    assert [] + [line] == [line];
    ConcatAppend([], line);
    assert Concat<byte>([]) == [];
    assert Fits(r.current);
  }

  lemma AllFitStep(l: Log, s: Step)
    requires Pooled(l) && AllFit(l) && Enabled(l, s)
    ensures AllFit(Next(l, s))
  {
    match s {
      case Produce(line) => AppendFits(l, line);
      case SwapBuffers =>
        SwapShape(l);
        assert Concat<byte>([]) == [];
      case Finish =>
        RecycleShape(l);
        RecycleSpares(l);
      case Write =>
      case Stop =>
      case Test =>
    }
  }

  lemma {:induction false} AllFitRun(l: Log, steps: seq<Step>)
    requires Pooled(l) && AllFit(l) && ValidRun(l, steps)
    ensures AllFit(Run(l, steps))
    decreases |steps|
  {
    if steps != [] {
      PooledStep(l, steps[0]);
      AllFitStep(l, steps[0]);
      AllFitRun(Next(l, steps[0]), steps[1..]);
    }
  }

  // In every run no buffer ever holds 4000 bytes or more: nothing is written past its end.
  lemma BuffersNeverOverflow(steps: seq<Step>)
    requires ValidRun(Started, steps)
    ensures var l := Run(Started, steps);
      && |Concat(l.current.lines)| < 4000
      && (forall i :: 0 <= i < |l.buffers| ==> |Concat(l.buffers[i].lines)| < 4000)
      && (l.place.Writing? ==> forall i :: 0 <= i < |l.place.batch| ==> |Concat(l.place.batch[i].lines)| < 4000)
  {
    assert Concat<byte>([]) == [];
    AllFitRun(Started, steps);
    var l := Run(Started, steps);
    assert forall i :: 0 <= i < |l.buffers| ==> Fits(l.buffers[i]);
    assert l.place.Writing? ==> forall i :: 0 <= i < |l.place.batch| ==> Fits(l.place.batch[i]);
  }

  // ---------- the assertions of threadFunc ----------

  // The flag is raised exactly when an assertion would fail or a missing buffer be used: at the swap when a spare
  // buffer is missing, and at the recycling when the batch has too few buffers to replace the missing ones.
  lemma FaultsIff(l: Log, s: Step)
    requires Enabled(l, s)
    ensures Next(l, s).fault <==>
      || l.fault
      || (s == SwapBuffers && (l.new1 == Null || l.new2 == Null))
      || (s == Finish && |l.place.batch| < (if l.new1 == Null then 1 else 0) + if l.new2 == Null then 1 else 0)
  {
    match s {
      case Produce(line) => AppendShape(l, line);
      case _ =>
    }
  }

  // ---------- the back end goes round ----------

  function Repeat(s: Step, n: nat): seq<Step> {
    if n == 0 then [] else [s] + Repeat(s, n - 1)
  }

  lemma Follows(l: Log, a: Step, steps: seq<Step>)
    requires Enabled(l, a) && ValidRun(Next(l, a), steps)
    ensures ValidRun(l, [a] + steps) && Run(l, [a] + steps) == Run(Next(l, a), steps)
  {
    assert ([a] + steps)[1..] == steps;
  }

  // The rest of a batch is written and its buffers are given back.
  lemma {:induction false} BatchIsWritten(l: Log, n: nat)
    requires Inv(l) && l.place.Writing? && n == |l.place.batch| - l.place.done
    ensures var steps := Repeat(Write, n) + [Finish];
      ValidRun(l, steps) && Inv(Run(l, steps)) && Run(l, steps).place == Head
    decreases n
  {
    hide Inv;
    var steps := Repeat(Write, n) + [Finish];
    if n == 0 {
      assert steps == [Finish] + [];
      assert ValidRun(Next(l, Finish), []);
      InvStep(l, Finish);
      Follows(l, Finish, []);
    } else {
      var m := Next(l, Write);
      InvStep(l, Write);
      BatchIsWritten(m, n - 1);
      Follows(l, Write, Repeat(Write, n - 1) + [Finish]);
      assert steps == [Write] + (Repeat(Write, n - 1) + [Finish]);
    }
  }

  // One turn of threadFunc with n buffers to write
  function Turn(n: nat): seq<Step> {
    [Test] + ([SwapBuffers] + (Repeat(Write, n) + [Finish]))
  }

  lemma {:induction false} TurnHasOneSwap(n: nat)
    ensures SwapBuffers !in Repeat(Write, n) + [Finish] && Fitting(Repeat(Write, n) + [Finish]) == []
  {
    if n == 0 {
      assert [] + [Finish] == [Finish] && [Finish][1..] == [];
    } else {
      TurnHasOneSwap(n - 1);
      var steps := Repeat(Write, n) + [Finish];
      assert steps[0] == Write && steps[1..] == Repeat(Write, n - 1) + [Finish];
      assert steps == [steps[0]] + steps[1..];
    }
  }

  // Left to itself, a running back end goes through one turn and comes back to the test of running_, and then
  // every line accepted before is in the file.
  lemma TurnWritesAll(l: Log)
    requires Inv(l) && l.place == Head && l.running
    ensures var steps := Turn(|l.buffers| + 1);
      && ValidRun(l, steps)
      && var r := Run(l, steps);
      r.place == Head && r.written == l.accepted && r.sink == Concat(l.accepted) && r.accepted == l.accepted
  {
    var n := |l.buffers| + 1;
    var rest := Repeat(Write, n) + [Finish];
    var m := Next(l, Test);
    InvStep(l, Test);
    var w := Next(m, SwapBuffers);
    SwapShape(m);
    InvStep(m, SwapBuffers);
    BatchIsWritten(w, n);
    Follows(m, SwapBuffers, rest);
    Follows(l, Test, [SwapBuffers] + rest);
    TurnHasOneSwap(n);
    FileHoldsTheLastSwap(m, rest);
  }
}
