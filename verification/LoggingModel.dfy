/**
 Asynchronous logging with double buffering: any number of producers, one back-end thread and
 a pool of fixed-size buffers that move between owners.  A step is one region under the lock,
 one buffer written, or the recycling of a written batch.
 */
module LoggingModel {
  import opened Bytes
  import opened Sequences

  const BUFFER_SIZE: nat := 4000   // FixedBuffer::kSize

  type Line = seq<byte>

  // A FixedBuffer: its identity and the lines appended to it
  datatype Buffer = Buffer(id: nat, lines: seq<Line>)

  datatype Slot = Null | Owner(buffer: Buffer)

  function Length(b: Buffer): nat {
    |Concat(b.lines)|
  }

  // FixedBuffer::append
  function Appended(b: Buffer, line: Line): Buffer {
    if BUFFER_SIZE - Length(b) > |line| then b.(lines := b.lines + [line]) else b
  }

  function Reset(b: Buffer): Buffer {
    b.(lines := [])
  }

  // `Writing` lasts from the swap to the recycling; `done` buffers of the batch are written.
  // `Waiting` lasts from the test of running_ to the swap, and so includes the wait with its timeout.
  datatype Place = Head | Waiting | Writing(batch: seq<Buffer>, done: nat) | Ended

  datatype Log = Log(
    current: Buffer,        // currentBuffer_
    next: Slot,             // nextBuffer_
    buffers: seq<Buffer>,   // buffers_
    place: Place,           // of the back-end thread, with buffersToWrite
    new1: Slot,             // newBuffer1
    new2: Slot,             // newBuffer2
    running: bool,
    sink: seq<byte>,        // the log file
    written: seq<Line>,     // the lines in it
    accepted: seq<Line>,    // lines appended under the lock that fit into a buffer
    serial: nat,            // identities handed out so far
    destroyed: seq<Buffer>,
    fault: bool)

  // The line goes into the current buffer, or into the next or a new one; it may not fit there either.
  function Stored(l: Log, line: Line): Log {
    if BUFFER_SIZE - Length(l.current) > |line| then l.(current := Appended(l.current, line))
    else
      var l := Advanced(l);
      l.(current := Appended(l.current, line))
  }

  // The full buffer is queued, and the next one, or a new one, takes its place.
  function Advanced(l: Log): Log {
    var l := l.(buffers := l.buffers + [l.current]);
    if l.next.Owner? then l.(current := l.next.buffer, next := Null)
    else l.(current := Buffer(l.serial, []), serial := l.serial + 1)
  }

  // AsyncLogging::append
  function Append(l: Log, line: Line): Log {
    Stored(l, line).(accepted := if |line| < BUFFER_SIZE then l.accepted + [line] else l.accepted)
  }

  // The locked region of threadFunc.  It may run at any time: the wait has a timeout.
  function Swap(l: Log): Log {
    if l.new1.Null? || l.new2.Null? then l.(fault := true)
    else
      var m := l.(place := Writing(l.buffers + [l.current], 0), buffers := [], current := l.new1.buffer, new1 := Null);
      if l.next.Null? then m.(next := l.new2, new2 := Null) else m
  }

  function WriteOne(l: Log): Log
    requires l.place.Writing? && l.place.done < |l.place.batch|
  {
    var b := l.place.batch[l.place.done];
    l.(sink := l.sink + Concat(b.lines), written := l.written + b.lines, place := l.place.(done := l.place.done + 1))
  }

  // The end of an iteration of threadFunc: resize(2), refill newBuffer1 and newBuffer2, clear
  function Recycle(l: Log): Log
    requires l.place.Writing?
  {
    var batch := l.place.batch;
    var two := if |batch| > 2 then batch[..2] else batch;
    var l := l.(place := Head, destroyed := l.destroyed + batch[|two|..]);
    if l.new1.Null? && two == [] then l.(fault := true)
    else
      var rest := if l.new1.Null? then two[..|two| - 1] else two;
      var m := if l.new1.Null? then l.(new1 := Owner(Reset(two[|two| - 1]))) else l;
      if l.new2.Null? && rest == [] then m.(fault := true)
      else
        var left := if l.new2.Null? then rest[..|rest| - 1] else rest;
        var n := if l.new2.Null? then m.(new2 := Owner(Reset(rest[|rest| - 1]))) else m;
        n.(destroyed := n.destroyed + left)
  }

  datatype Step = Produce(line: Line) | Stop | Test | SwapBuffers | Write | Finish

  predicate Enabled(l: Log, s: Step) {
    match s
    case Produce(_) => true
    case Stop => true
    case Test => l.place == Head
    case SwapBuffers => l.place == Waiting
    case Write => l.place.Writing? && l.place.done < |l.place.batch|
    case Finish => l.place.Writing? && l.place.done == |l.place.batch|
  }

  function Next(l: Log, s: Step): Log
    requires Enabled(l, s)
  {
    match s
    case Produce(line) => Append(l, line)
    case Stop => l.(running := false)
    case Test => l.(place := if l.running then Waiting else Ended)
    case SwapBuffers => Swap(l)
    case Write => WriteOne(l)
    case Finish => Recycle(l)
  }

  predicate ValidRun(l: Log, steps: seq<Step>)
    decreases |steps|
  {
    steps == [] || (Enabled(l, steps[0]) && ValidRun(Next(l, steps[0]), steps[1..]))
  }

  function Run(l: Log, steps: seq<Step>): Log
    requires ValidRun(l, steps)
    decreases |steps|
  {
    if steps == [] then l else Run(Next(l, steps[0]), steps[1..])
  }

  // After start(): four empty buffers
  const Started := Log(Buffer(0, []), Owner(Buffer(1, [])), [], Head, Owner(Buffer(2, [])), Owner(Buffer(3, [])),
                       true, [], [], [], 4, [], false)
}
