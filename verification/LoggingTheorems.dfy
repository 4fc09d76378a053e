/** No accepted line is lost, duplicated, reordered or split, and the buffer pool never runs dry. */
module LoggingTheorems {
  import opened Bytes
  import opened Sequences
  import opened LoggingModel

  function LinesOf(bs: seq<Buffer>): seq<Line> {
    if bs == [] then [] else LinesOf(bs[..|bs| - 1]) + bs[|bs| - 1].lines
  }

  // The buffers of the batch that are not written yet
  function Unwritten(l: Log): seq<Buffer> {
    if l.place.Writing? && l.place.done <= |l.place.batch| then l.place.batch[l.place.done..] else []
  }

  // Every line that is accepted but not in the file, in order
  function Held(l: Log): seq<Line> {
    LinesOf(Unwritten(l)) + LinesOf(l.buffers) + l.current.lines
  }

  predicate Conserved(l: Log) {
    && l.written + Held(l) == l.accepted
    && l.sink == Concat(l.written)
    && (l.place.Writing? ==> l.place.done <= |l.place.batch|)
  }

  predicate EmptyOrNull(s: Slot) {
    s.Null? || s.buffer.lines == []
  }

  // nextBuffer_ is only ever null while buffers_ is not empty, so the back end always gets two back.
  predicate Pooled(l: Log) {
    && !l.fault
    && EmptyOrNull(l.next) && EmptyOrNull(l.new1) && EmptyOrNull(l.new2)
    && (l.next.Null? ==> l.buffers != [])
    && (!l.place.Writing? ==> l.new1.Owner? && l.new2.Owner?)
    && (l.place.Writing? ==> l.new1.Null? && |l.place.batch| >= if l.new2.Null? then 2 else 1)
  }

  function Has(s: Slot, id: nat): nat {
    if s.Owner? && s.buffer.id == id then 1 else 0
  }

  function Count(bs: seq<Buffer>, id: nat): nat {
    if bs == [] then 0 else Count(bs[..|bs| - 1], id) + if bs[|bs| - 1].id == id then 1 else 0
  }

  // How many owners a buffer has
  function Owners(l: Log, id: nat): nat {
    Has(Owner(l.current), id) + Has(l.next, id) + Has(l.new1, id) + Has(l.new2, id)
    + Count(l.buffers, id) + if l.place.Writing? then Count(l.place.batch, id) else 0
  }

  // Every buffer ever allocated has one owner or was destroyed, once.
  ghost predicate Owned(l: Log) {
    forall id: nat :: Owners(l, id) + Count(l.destroyed, id) == if id < l.serial then 1 else 0
  }

  ghost predicate Inv(l: Log) {
    Conserved(l) && Pooled(l) && Owned(l)
  }

  // ---------- conservation ----------

  lemma LinesOfAppend(bs: seq<Buffer>, b: Buffer)
    ensures LinesOf(bs + [b]) == LinesOf(bs) + b.lines
  {
    assert (bs + [b])[..|bs|] == bs;
  }

  lemma {:induction false} LinesOfFront(bs: seq<Buffer>)
    requires bs != []
    ensures LinesOf(bs) == bs[0].lines + LinesOf(bs[1..])
  {
    if |bs| == 1 {
      assert bs[..0] == [] && bs[1..] == [];
      assert LinesOf(bs) == [] + bs[0].lines;
    } else {
      var init := bs[..|bs| - 1];
      LinesOfFront(init);
      assert bs[1..][..|bs| - 2] == init[1..];
      Assoc(bs[0].lines, LinesOf(init[1..]), bs[|bs| - 1].lines);
    }
  }

  // AsyncLogging::append in its three cases, apart from the contents of the buffers
  lemma AppendShape(l: Log, line: Line)
    ensures var r := Append(l, line);
      && r == l.(current := r.current, next := r.next, buffers := r.buffers, accepted := r.accepted, serial := r.serial)
      && r.accepted == (if |line| < BUFFER_SIZE then l.accepted + [line] else l.accepted)
      && if BUFFER_SIZE - Length(l.current) > |line| then
           r.buffers == l.buffers && r.current.id == l.current.id && r.next == l.next && r.serial == l.serial
         else
           && r.buffers == l.buffers + [l.current] && r.next == Null
           && r.current.id == (if l.next.Owner? then l.next.buffer.id else l.serial)
           && r.serial == if l.next.Owner? then l.serial else l.serial + 1
  {
  }

  // The lines in the current buffer afterwards
  lemma AppendLines(l: Log, line: Line)
    requires EmptyOrNull(l.next)
    ensures var r := Append(l, line);
      r.current.lines ==
        if BUFFER_SIZE - Length(l.current) > |line| then l.current.lines + [line]
        else if |line| < BUFFER_SIZE then [line] else []
    ensures BUFFER_SIZE - Length(l.current) > |line| ==> |line| < BUFFER_SIZE
  {
    assert Concat<byte>([]) == [];
    assert [] + [line] == [line];
  }

  lemma AddLast(a: seq<Line>, b: seq<Line>, c: seq<Line>, x: seq<Line>)
    ensures a + b + (c + x) == a + b + c + x
    ensures a + (b + c) + x == a + b + c + x
  {
  }

  // A line that fits is added at the end of what is held; one that does not leaves it as it was.
  lemma AppendHeld(l: Log, line: Line)
    requires EmptyOrNull(l.next)
    ensures Held(Append(l, line)) == Held(l) + if |line| < BUFFER_SIZE then [line] else []
  {
    var r := Append(l, line);
    AppendShape(l, line);
    AppendLines(l, line);
    LinesOfAppend(l.buffers, l.current);
    AddLast(LinesOf(Unwritten(l)), LinesOf(l.buffers), l.current.lines, if |line| < BUFFER_SIZE then [line] else []);
  }

  lemma Assoc(a: seq<Line>, b: seq<Line>, c: seq<Line>)
    ensures a + b + c == a + (b + c)
  {
  }

  lemma AppendConserved(l: Log, line: Line)
    requires Conserved(l) && EmptyOrNull(l.next)
    ensures Conserved(Append(l, line))
  {
    AppendShape(l, line);
    AppendHeld(l, line);
    Assoc(l.written, Held(l), if |line| < BUFFER_SIZE then [line] else []);
  }

  lemma SwapConserved(l: Log)
    requires Conserved(l) && Pooled(l) && l.place == Waiting
    ensures Conserved(Swap(l))
  {
    var r := Swap(l);
    LinesOfAppend(l.buffers, l.current);
    assert r.place.batch[0..] == l.buffers + [l.current];
    AddLast([], LinesOf(l.buffers), l.current.lines, []);
    assert [] + LinesOf(l.buffers) == LinesOf(l.buffers);
    assert Held(r) == Held(l);
  }

  lemma WriteConserved(l: Log)
    requires Conserved(l) && Enabled(l, Write)
    ensures Conserved(WriteOne(l))
  {
    var r := WriteOne(l);
    var u := Unwritten(l);
    var x := u[0].lines;
    assert Unwritten(r) == u[1..];
    LinesOfFront(u);
    Assoc(x, LinesOf(u[1..]), LinesOf(l.buffers));
    Assoc(x, LinesOf(u[1..]) + LinesOf(l.buffers), l.current.lines);
    assert Held(l) == x + Held(r);
    Assoc(l.written, x, Held(r));
    ConcatSplit(l.written, x);
  }

  // Recycling touches the spare buffers only.
  lemma RecycleShape(l: Log)
    requires l.place.Writing?
    ensures var r := Recycle(l);
      r == l.(place := Head, new1 := r.new1, new2 := r.new2, destroyed := r.destroyed, fault := r.fault)
  {
  }

  lemma FinishConserved(l: Log)
    requires Conserved(l) && Enabled(l, Finish)
    ensures Conserved(Recycle(l))
  {
    RecycleShape(l);
    assert Unwritten(l) == [];
  }

  // ---------- ownership ----------

  lemma CountAppend(bs: seq<Buffer>, b: Buffer, id: nat)
    ensures Count(bs + [b], id) == Count(bs, id) + if b.id == id then 1 else 0
  {
    assert (bs + [b])[..|bs|] == bs;
  }

  lemma {:induction false} CountConcat(a: seq<Buffer>, b: seq<Buffer>, id: nat)
    ensures Count(a + b, id) == Count(a, id) + Count(b, id)
  {
    if b == [] {
      assert a + b == a;
    } else {
      assert (a + b)[..|a + b| - 1] == a + b[..|b| - 1];
      CountConcat(a, b[..|b| - 1], id);
    }
  }

  lemma AppendOwners(l: Log, line: Line, id: nat)
    ensures var r := Append(l, line);
      Owners(r, id) == Owners(l, id) + if r.serial > l.serial && id == l.serial then 1 else 0
    ensures Append(l, line).destroyed == l.destroyed
  {
    var r := Append(l, line);
    AppendShape(l, line);
    if BUFFER_SIZE - Length(l.current) > |line| {
      assert Has(Owner(r.current), id) == Has(Owner(l.current), id);
    } else {
      CountAppend(l.buffers, l.current, id);
      assert Count(r.buffers, id) == Count(l.buffers, id) + Has(Owner(l.current), id);
      assert Has(r.next, id) == 0;
    }
  }

  // The swap only moves buffers: the spare ones to the front, the filled ones to the batch.
  lemma SwapShape(l: Log)
    requires l.new1.Owner? && l.new2.Owner?
    ensures var r := Swap(l);
      && r.place == Writing(l.buffers + [l.current], 0) && r.buffers == []
      && Owner(r.current) == l.new1 && r.new1 == Null
      && (if l.next.Null? then r.next == l.new2 && r.new2 == Null else r.next == l.next && r.new2 == l.new2)
      && r.serial == l.serial && r.destroyed == l.destroyed
  {
  }

  lemma SwapOwners(l: Log, id: nat)
    requires l.place == Waiting && l.new1.Owner? && l.new2.Owner?
    ensures Owners(Swap(l), id) == Owners(l, id)
  {
    SwapShape(l);
    CountAppend(l.buffers, l.current, id);
    SameTotal(l, Swap(l), id, Count(l.buffers, id));
  }

  lemma SameTotal(l: Log, r: Log, id: nat, n: nat)
    requires l.place == Waiting && r.place.Writing? && r.buffers == []
    requires n == Count(l.buffers, id) && Count(r.place.batch, id) == n + Has(Owner(l.current), id)
    requires Owner(r.current) == l.new1 && r.new1 == Null
    requires if l.next.Null? then r.next == l.new2 && r.new2 == Null else r.next == l.next && r.new2 == l.new2
    ensures Owners(r, id) == Owners(l, id)
  {
    assert Count(r.buffers, id) == 0;
  }

  // Where the spare buffers come from, and what becomes of the others
  lemma RecycleSpares(l: Log)
    requires Pooled(l) && l.place.Writing?
    ensures var batch := l.place.batch;
      var n := if |batch| > 2 then 2 else |batch|;
      var k := if l.new2.Null? then n - 2 else n - 1;
      var r := Recycle(l);
      && 0 <= k && !r.fault && r.new1 == Owner(Reset(batch[n - 1]))
      && r.new2 == (if l.new2.Null? then Owner(Reset(batch[n - 2])) else l.new2)
      && r.destroyed == l.destroyed + batch[n..] + batch[..k]
  {
    var batch := l.place.batch;
    var n := if |batch| > 2 then 2 else |batch|;
    var two := if |batch| > 2 then batch[..2] else batch;
    assert two == batch[..n] && two[..n - 1] == batch[..n - 1];
    assert l.new2.Null? ==> two[..n - 1][..n - 2] == batch[..n - 2];
  }

  lemma CountLast(bs: seq<Buffer>, n: nat, id: nat)
    requires 0 < n <= |bs|
    ensures Count(bs[..n], id) == Count(bs[..n - 1], id) + Has(Owner(bs[n - 1]), id)
  {
    assert bs[..n][..n - 1] == bs[..n - 1];
  }

  // A batch is its last one or two of the first n, the rest of those, and the others.
  lemma CountBatch(bs: seq<Buffer>, n: nat, both: bool, id: nat)
    requires (if both then 1 else 0) < n <= |bs|
    ensures Count(bs, id) ==
      Count(bs[n..], id) + Count(bs[..if both then n - 2 else n - 1], id)
      + Has(Owner(bs[n - 1]), id) + if both then Has(Owner(bs[n - 2]), id) else 0
  {
    assert bs == bs[..n] + bs[n..];
    CountConcat(bs[..n], bs[n..], id);
    CountLast(bs, n, id);
    if both {
      CountLast(bs, n - 1, id);
    }
  }

  lemma RecycleOwners(l: Log, id: nat)
    requires Pooled(l) && l.place.Writing?
    ensures Owners(Recycle(l), id) + Count(Recycle(l).destroyed, id) == Owners(l, id) + Count(l.destroyed, id)
  {
    hide Count;
    var batch := l.place.batch;
    var n := if |batch| > 2 then 2 else |batch|;
    var k := if l.new2.Null? then n - 2 else n - 1;
    RecycleShape(l);
    RecycleSpares(l);
    CountConcat(l.destroyed + batch[n..], batch[..k], id);
    CountConcat(l.destroyed, batch[n..], id);
    CountBatch(batch, n, l.new2.Null?, id);
  }

  lemma OwnedStep(l: Log, s: Step)
    requires Owned(l) && Pooled(l) && Enabled(l, s)
    ensures Owned(Next(l, s))
  {
    var r := Next(l, s);
    forall id: nat ensures Owners(r, id) + Count(r.destroyed, id) == if id < r.serial then 1 else 0 {
      assert Owners(l, id) + Count(l.destroyed, id) == if id < l.serial then 1 else 0;
      match s {
        case Produce(line) => AppendOwners(l, line, id); AppendShape(l, line);
        case SwapBuffers => SwapOwners(l, id); SwapShape(l);
        case Finish => RecycleOwners(l, id); RecycleShape(l);
        case Write => assert Owners(r, id) == Owners(l, id);
        case Stop => assert Owners(r, id) == Owners(l, id);
        case Test => assert Owners(r, id) == Owners(l, id);
      }
    }
  }

  // ---------- no two owners ----------

  lemma {:induction false} CountAt(bs: seq<Buffer>, i: nat)
    requires i < |bs|
    ensures Count(bs, bs[i].id) > 0
  {
    if i < |bs| - 1 {
      CountAt(bs[..|bs| - 1], i);
    }
  }

  lemma {:induction false} CountTwo(bs: seq<Buffer>, i: nat, j: nat)
    requires i < j < |bs| && bs[i].id == bs[j].id
    ensures Count(bs, bs[i].id) > 1
  {
    if j < |bs| - 1 {
      CountTwo(bs[..|bs| - 1], i, j);
    } else {
      CountAt(bs[..|bs| - 1], i);
    }
  }

  // The owners of a buffer other than buffers_ and the batch
  function Slots(l: Log, id: nat): nat {
    Has(Owner(l.current), id) + Has(l.next, id) + Has(l.new1, id) + Has(l.new2, id)
  }

  lemma QueuedAlone(l: Log, i: nat)
    requires Owned(l) && i < |l.buffers|
    ensures var id := l.buffers[i].id;
      Slots(l, id) == 0 && Count(l.buffers, id) == 1 && (l.place.Writing? ==> Count(l.place.batch, id) == 0)
    ensures forall j :: i < j < |l.buffers| ==> l.buffers[j].id != l.buffers[i].id
  {
    assert Owners(l, l.buffers[i].id) <= 1;
    CountAt(l.buffers, i);
    forall j | i < j < |l.buffers| && l.buffers[j].id == l.buffers[i].id ensures false {
      CountTwo(l.buffers, i, j);
    }
  }

  lemma BatchAlone(l: Log, i: nat)
    requires Owned(l) && l.place.Writing? && i < |l.place.batch|
    ensures var id := l.place.batch[i].id;
      Slots(l, id) == 0 && Count(l.buffers, id) == 0 && Count(l.place.batch, id) == 1
    ensures forall j :: i < j < |l.place.batch| ==> l.place.batch[j].id != l.place.batch[i].id
  {
    assert Owners(l, l.place.batch[i].id) <= 1;
    CountAt(l.place.batch, i);
    forall j | i < j < |l.place.batch| && l.place.batch[j].id == l.place.batch[i].id ensures false {
      CountTwo(l.place.batch, i, j);
    }
  }

  lemma SlotsApart(l: Log)
    requires Owned(l)
    ensures forall id: nat :: Slots(l, id) <= 1
    ensures l.next.Owner? ==> l.next.buffer.id != l.current.id
    ensures l.new1.Owner? ==> l.new1.buffer.id != l.current.id
    ensures l.new2.Owner? ==> l.new2.buffer.id != l.current.id
    ensures l.new1.Owner? && l.next.Owner? ==> l.next.buffer.id != l.new1.buffer.id
    ensures l.new2.Owner? && l.next.Owner? ==> l.next.buffer.id != l.new2.buffer.id
    ensures l.new1.Owner? && l.new2.Owner? ==> l.new1.buffer.id != l.new2.buffer.id
  {
    forall id: nat ensures Slots(l, id) <= 1 {
      assert Owners(l, id) <= 1;
    }
    assert Slots(l, l.current.id) <= 1;
    assert l.next.Owner? ==> Slots(l, l.next.buffer.id) <= 1;
    assert l.new1.Owner? ==> Slots(l, l.new1.buffer.id) <= 1;
  }

  // ---------- all of it ----------

  lemma PooledStep(l: Log, s: Step)
    requires Pooled(l) && Enabled(l, s)
    ensures Pooled(Next(l, s))
  {
    match s {
      case Produce(line) => AppendShape(l, line);
      case Finish => RecycleShape(l); RecycleSpares(l);
      case _ =>
    }
  }

  lemma InvStep(l: Log, s: Step)
    requires Inv(l) && Enabled(l, s)
    ensures Inv(Next(l, s))
  {
    PooledStep(l, s);
    OwnedStep(l, s);
    match s {
      case Produce(line) => AppendConserved(l, line);
      case SwapBuffers => SwapConserved(l);
      case Write => WriteConserved(l);
      case Finish => FinishConserved(l);
      case Stop =>
      case Test =>
    }
  }

  lemma {:induction false} InvRun(l: Log, steps: seq<Step>)
    requires Inv(l) && ValidRun(l, steps)
    ensures Inv(Run(l, steps))
    decreases |steps|
  {
    if steps != [] {
      InvStep(l, steps[0]);
      InvRun(Next(l, steps[0]), steps[1..]);
    }
  }

  // At every step of every interleaving, the file followed by the unwritten part of the batch,
  // buffers_ and currentBuffer_ is the concatenation of the accepted lines, and no line is split
  // between two of these places.
  lemma NoLineIsLost(steps: seq<Step>)
    requires ValidRun(Started, steps)
    ensures var l := Run(Started, steps);
      && l.written + LinesOf(Unwritten(l)) + LinesOf(l.buffers) + l.current.lines == l.accepted
      && l.sink == Concat(l.written)
      && l.sink + Concat(Held(l)) == Concat(l.accepted)
  {
    StartedInv();
    InvRun(Started, steps);
    var l := Run(Started, steps);
    ConcatSplit(l.written, Held(l));
    Assoc(l.written, LinesOf(Unwritten(l)), LinesOf(l.buffers));
    Assoc(l.written, LinesOf(Unwritten(l)) + LinesOf(l.buffers), l.current.lines);
  }

  lemma StartedInv()
    ensures Inv(Started)
  {
    assert Held(Started) == [];
    forall id: nat ensures Owners(Started, id) + Count(Started.destroyed, id) == if id < 4 then 1 else 0 {}
  }

  // What is accepted: exactly the appended lines shorter than a buffer, in lock order.
  function Fitting(steps: seq<Step>): seq<Line> {
    if steps == [] then []
    else (if steps[0].Produce? && |steps[0].line| < 4000 then [steps[0].line] else []) + Fitting(steps[1..])
  }

  lemma {:induction false} AcceptedLines(l: Log, steps: seq<Step>)
    requires ValidRun(l, steps)
    ensures Run(l, steps).accepted == l.accepted + Fitting(steps)
    decreases |steps|
  {
    if steps != [] {
      var s := steps[0];
      var x := if s.Produce? && |s.line| < 4000 then [s.line] else [];
      AcceptedStep(l, s, x);
      AcceptedLines(Next(l, s), steps[1..]);
      Assoc(l.accepted, x, Fitting(steps[1..]));
    }
  }

  lemma AcceptedStep(l: Log, s: Step, x: seq<Line>)
    requires Enabled(l, s) && x == if s.Produce? && |s.line| < BUFFER_SIZE then [s.line] else []
    ensures Next(l, s).accepted == l.accepted + x
  {
    match s {
      case Produce(line) => AppendShape(l, line);
      case Finish => RecycleShape(l);
      case _ =>
    }
  }

  // In every interleaving: no assertion of threadFunc fails, both spare buffers are there and empty
  // at each loop head, and every buffer ever allocated has exactly one owner or was destroyed once.
  lemma PoolNeverRunsDry(steps: seq<Step>)
    requires ValidRun(Started, steps)
    ensures var l := Run(Started, steps);
      && !l.fault
      && (l.place == Head || l.place == Waiting ==>
            l.new1.Owner? && l.new2.Owner? && l.new1.buffer.lines == [] && l.new2.buffer.lines == [])
      && (l.next.Null? ==> l.buffers != [])
      && (forall id: nat :: Owners(l, id) + Count(l.destroyed, id) == if id < l.serial then 1 else 0)
  {
    StartedInv();
    InvRun(Started, steps);
  }

  // ---------- delivery ----------

  // `before` is exactly what is in the file or in the part of the batch still to be written.
  predicate OnTheWay(l: Log, before: seq<Line>) {
    before == l.written + LinesOf(Unwritten(l))
  }

  // Only a swap adds to it.
  lemma OnTheWayStep(l: Log, before: seq<Line>, s: Step)
    requires OnTheWay(l, before) && Enabled(l, s) && !s.SwapBuffers?
    ensures OnTheWay(Next(l, s), before)
  {
    match s {
      case Produce(line) => AppendShape(l, line);
      case Write => OnTheWayWrite(l, before);
      case Finish =>
        RecycleShape(l);
        assert Unwritten(l) == [];
      case Stop =>
      case Test =>
    }
  }

  lemma OnTheWayWrite(l: Log, before: seq<Line>)
    requires OnTheWay(l, before) && Enabled(l, Write)
    ensures OnTheWay(WriteOne(l), before)
  {
    var u := Unwritten(l);
    assert Unwritten(WriteOne(l)) == u[1..];
    hide LinesOf, Unwritten;
    LinesOfFront(u);
    Assoc(l.written, u[0].lines, LinesOf(u[1..]));
  }

  lemma {:induction false} OnTheWayRun(l: Log, before: seq<Line>, steps: seq<Step>)
    requires ValidRun(l, steps) && OnTheWay(l, before) && SwapBuffers !in steps
    ensures OnTheWay(Run(l, steps), before)
    decreases |steps|
  {
    if steps != [] {
      assert steps[0] in steps;
      OnTheWayStep(l, before, steps[0]);
      OnTheWayRun(Next(l, steps[0]), before, steps[1..]);
    }
  }

  lemma SwapStartsDelivery(l: Log)
    requires Inv(l) && Enabled(l, SwapBuffers)
    ensures OnTheWay(Next(l, SwapBuffers), l.accepted)
  {
    InvStep(l, SwapBuffers);
    var r := Next(l, SwapBuffers);
    assert r.accepted == r.written + Held(r) && r.current.lines == [] && r.buffers == [];
    assert Held(r) == LinesOf(Unwritten(r)) + [] + [];
  }

  // Once the batch of a swap is finished, and until the next swap, the file holds exactly the lines
  // accepted before that swap.  So a thread that ends has written everything if and only if no line
  // that fits was appended after its last swap.
  lemma FileHoldsTheLastSwap(l: Log, steps: seq<Step>)
    requires Inv(l) && Enabled(l, SwapBuffers)
    requires ValidRun(Next(l, SwapBuffers), steps) && SwapBuffers !in steps
    ensures var r := Run(Next(l, SwapBuffers), steps);
      !r.place.Writing? ==> r.written == l.accepted && (r.written == r.accepted <==> Fitting(steps) == [])
  {
    var m := Next(l, SwapBuffers);
    SwapStartsDelivery(l);
    OnTheWayRun(m, l.accepted, steps);
    AcceptedLines(m, steps);
    AcceptedStep(l, SwapBuffers, []);
    var r := Run(m, steps);
    assert l.accepted + [] == l.accepted;
    if !r.place.Writing? {
      assert r.written + [] == r.written;
      assert |r.accepted| == |l.accepted| + |Fitting(steps)|;
    }
  }

  // The lines that fit into a buffer
  function Fit(lines: seq<Line>): seq<Line> {
    if lines == [] then []
    else
      var last := lines[|lines| - 1];
      Fit(lines[..|lines| - 1]) + if |last| < BUFFER_SIZE then [last] else []
  }

  // A line that is accepted and then missing from the file when the back end has ended
  lemma StopLosesALine(line: Line) returns (steps: seq<Step>, r: Log)
    requires |line| < BUFFER_SIZE
    ensures ValidRun(Started, steps) && Run(Started, steps) == r
    ensures r.place == Ended && r.accepted == [line] && r.written == [] && r.sink == []
  {
    var a := Next(Started, Produce(line));
    var b := Next(a, Stop);
    r := Next(b, Test);
    AppendShape(Started, line);
    assert [] + [line] == [line];
    steps := [Produce(line), Stop, Test];
    assert steps[1..] == [Stop, Test] && [Stop, Test][1..] == [Test] && [Test][1..] == [];
    assert ValidRun(r, []) && Run(r, []) == r;
    assert ValidRun(b, [Test]) && Run(b, [Test]) == r;
    assert ValidRun(a, [Stop, Test]) && Run(a, [Stop, Test]) == r;
  }
}
