/** The logging front end and back end in the form of the source. */
module AsyncLoggings {
  import opened Bytes
  import opened Sequences
  import opened LoggingModel
  import opened LoggingTheorems

  // FixedBuffer over its array; `model` is the buffer of the step machine that it implements.
  class FixedBuffer {
    const data: array<byte>
    var cur: nat
    ghost var model: LoggingModel.Buffer

    ghost predicate Valid()
      reads this, data
    {
      data.Length == BUFFER_SIZE && cur <= BUFFER_SIZE && data[..cur] == Concat(model.lines)
    }

    constructor (ghost id: nat)
      ensures Valid() && fresh(data) && model == Buffer(id, [])
    {
      data := new byte[BUFFER_SIZE];
      cur, model := 0, Buffer(id, []);
    }

    // The memcpy of append
    method Copy(line: Line)
      requires cur + |line| <= data.Length
      modifies data
      ensures data[..cur + |line|] == old(data[..cur]) + line
    {
      for i := 0 to |line|
        invariant data[..cur + i] == old(data[..cur]) + line[..i]
      {
        data[cur + i] := line[i];
        assert data[..cur + (i + 1)] == data[..cur + i] + [line[i]];
      }
    }

    method Append(line: Line)
      requires Valid()
      modifies this, data
      ensures Valid() && model == Appended(old(model), line) && model.id == old(model.id)
    {
      if BUFFER_SIZE - cur > |line| {
        Copy(line);
        ConcatAppend(model.lines, line);
        cur, model := cur + |line|, model.(lines := model.lines + [line]);
      }
    }

    method Reset()
      requires Valid()
      modifies this
      ensures Valid() && model == LoggingModel.Reset(old(model))
    {
      cur, model := 0, LoggingModel.Reset(model);
    }
  }

  ghost function SlotOf(b: FixedBuffer?): Slot
    reads b
  {
    if b == null then Null else Owner(b.model)
  }

  ghost function Models(bs: seq<FixedBuffer>): (r: seq<LoggingModel.Buffer>)
    reads bs
    ensures |r| == |bs|
  {
    seq(|bs|, i requires 0 <= i < |bs| reads bs => bs[i].model)
  }

  // Where threadFunc is; `done` buffers of buffersToWrite are written.
  datatype Stage = AtHead | AtWait | InBatch(done: nat) | AtEnd

  class AsyncLogging {
    var currentBuffer: FixedBuffer?
    var nextBuffer: FixedBuffer?
    var buffers: seq<FixedBuffer>
    var newBuffer1: FixedBuffer?
    var newBuffer2: FixedBuffer?
    var buffersToWrite: seq<FixedBuffer>
    var stage: Stage
    var running: bool
    var sink: seq<byte>
    ghost var written: seq<Line>
    ghost var accepted: seq<Line>
    ghost var serial: nat
    ghost var destroyed: seq<LoggingModel.Buffer>
    ghost var objects: set<FixedBuffer>   // every buffer that was ever allocated

    ghost function Arrays(): set<array<byte>>
      reads this`objects
    {
      set o | o in objects :: o.data
    }

    // The pointers point to buffers of this logger.
    ghost predicate Refs()
      reads this
    {
      && currentBuffer != null && currentBuffer in objects
      && (nextBuffer != null ==> nextBuffer in objects)
      && (newBuffer1 != null ==> newBuffer1 in objects)
      && (newBuffer2 != null ==> newBuffer2 in objects)
      && (forall o :: o in buffers ==> o in objects)
      && (forall o :: o in buffersToWrite ==> o in objects)
    }

    // Different buffers have different identities and different arrays.
    ghost predicate Wired()
      reads this`objects, this`serial, objects, Arrays()
    {
      && (forall o :: o in objects ==> o.Valid() && o.model.id < serial)
      && (forall o, p :: o in objects && p in objects && o != p ==> o.model.id != p.model.id && o.data != p.data)
    }

    ghost function Abs(): Log
      requires Refs()
      reads this, objects
    {
      var place := match stage
        case AtHead => Head
        case AtWait => Waiting
        case InBatch(done) => Writing(Models(buffersToWrite), done)
        case AtEnd => Ended;
      Log(currentBuffer.model, SlotOf(nextBuffer), Models(buffers), place, SlotOf(newBuffer1), SlotOf(newBuffer2),
          running, sink, written, accepted, serial, destroyed, false)
    }

    ghost predicate Valid()
      reads this, objects, Arrays()
    {
      Refs() && Wired() && Inv(Abs()) && (!stage.InBatch? ==> buffersToWrite == [])
    }

    constructor ()
      ensures Valid() && Abs() == Started && fresh(objects) && fresh(Arrays())
    {
      currentBuffer, nextBuffer, newBuffer1, newBuffer2 := null, null, null, null;
      buffers, buffersToWrite, stage, running, sink := [], [], AtHead, true, [];
      written, accepted, serial, destroyed, objects := [], [], 0, [], {};
      new;
      Open();
      StartedInv();
    }

    // The four buffers of a logger that has started
    method Open()
      requires Wired() && objects == {} && serial == 0 && buffers == [] && buffersToWrite == []
      requires stage == AtHead && running && sink == [] && written == [] && accepted == [] && destroyed == []
      modifies this`currentBuffer, this`nextBuffer, this`newBuffer1, this`newBuffer2, this`buffers
      modifies this`objects, this`serial
      ensures Refs() && Wired() && Abs() == Started && fresh(objects) && fresh(Arrays())
    {
      hide Wired;
      var b0, b1 := AllocateTwo();
      var b2, b3 := AllocateTwo();
      Point(b0, b1, b2, b3, []);
      assert Models([]) == [];
    }

    // Only the pointers change.
    method Point(
        current: FixedBuffer, next: FixedBuffer?, new1: FixedBuffer?, new2: FixedBuffer?, queue: seq<FixedBuffer>)
      requires Wired()
      modifies this`currentBuffer, this`nextBuffer, this`newBuffer1, this`newBuffer2, this`buffers
      ensures Wired() && currentBuffer == current && nextBuffer == next && newBuffer1 == new1 && newBuffer2 == new2
      ensures buffers == queue
    {
      currentBuffer, nextBuffer, newBuffer1, newBuffer2, buffers := current, next, new1, new2, queue;
    }

    method AllocateTwo() returns (a: FixedBuffer, b: FixedBuffer)
      requires Wired()
      modifies this`objects, this`serial
      ensures Wired() && fresh({a, b}) && fresh({a.data, b.data})
      ensures a.model == Buffer(old(serial), []) && b.model == Buffer(old(serial) + 1, [])
      ensures objects == old(objects) + {a, b} && Arrays() == old(Arrays()) + {a.data, b.data}
      ensures serial == old(serial) + 2
    {
      hide Wired;
      a := Allocate();
      b := Allocate();
    }

    // new Buffer
    method Allocate() returns (b: FixedBuffer)
      requires Wired()
      modifies this`objects, this`serial
      ensures Wired() && fresh(b) && fresh(b.data) && b.model == Buffer(old(serial), [])
      ensures objects == old(objects) + {b} && Arrays() == old(Arrays()) + {b.data} && serial == old(serial) + 1
    {
      b := new FixedBuffer(serial);
      objects, serial := objects + {b}, serial + 1;
    }

    // ---------- who owns what ----------

    // currentBuffer_ is nobody else's.
    ghost predicate CurrentAlone()
      reads this
    {
      && currentBuffer !in buffers && currentBuffer !in buffersToWrite
      && currentBuffer != nextBuffer && currentBuffer != newBuffer1 && currentBuffer != newBuffer2
    }

    // No two pointers of the logger are equal.
    ghost predicate Distinct()
      reads this
    {
      && CurrentAlone()
      && (nextBuffer != null ==> nextBuffer !in buffers && nextBuffer !in buffersToWrite
                                 && nextBuffer != newBuffer1 && nextBuffer != newBuffer2)
      && (newBuffer1 != null ==> newBuffer1 !in buffers && newBuffer1 !in buffersToWrite && newBuffer1 != newBuffer2)
      && (newBuffer2 != null ==> newBuffer2 !in buffers && newBuffer2 !in buffersToWrite)
      && (forall i, j :: 0 <= i < j < |buffers| ==> buffers[i] != buffers[j])
      && (forall i, j :: 0 <= i < j < |buffersToWrite| ==> buffersToWrite[i] != buffersToWrite[j])
      && (forall o :: o in buffers ==> o !in buffersToWrite)
    }

    lemma QueueApart()
      requires Refs() && Wired() && Owned(Abs()) && (!stage.InBatch? ==> buffersToWrite == [])
      ensures forall i :: 0 <= i < |buffers| ==>
        && buffers[i] != currentBuffer && buffers[i] != nextBuffer
        && buffers[i] != newBuffer1 && buffers[i] != newBuffer2 && buffers[i] !in buffersToWrite
      ensures forall i, j :: 0 <= i < j < |buffers| ==> buffers[i] != buffers[j]
    {
      hide Wired, Owned, Owners;
      var l := Abs();
      forall i | 0 <= i < |buffers|
        ensures buffers[i] != currentBuffer && buffers[i] != nextBuffer
        ensures buffers[i] != newBuffer1 && buffers[i] != newBuffer2 && buffers[i] !in buffersToWrite
        ensures forall j :: i < j < |buffers| ==> buffers[i] != buffers[j]
      {
        QueuedAlone(l, i);
        assert forall j :: i < j < |buffers| ==> l.buffers[j] == buffers[j].model;
        forall j | 0 <= j < |buffersToWrite| && buffersToWrite[j] == buffers[i] ensures false {
          CountAt(Models(buffersToWrite), j);
        }
      }
    }

    lemma BatchApart()
      requires Refs() && Wired() && Owned(Abs()) && (!stage.InBatch? ==> buffersToWrite == [])
      ensures forall i :: 0 <= i < |buffersToWrite| ==>
        && buffersToWrite[i] != currentBuffer && buffersToWrite[i] != nextBuffer
        && buffersToWrite[i] != newBuffer1 && buffersToWrite[i] != newBuffer2
      ensures forall i, j :: 0 <= i < j < |buffersToWrite| ==> buffersToWrite[i] != buffersToWrite[j]
    {
      hide Wired, Owned, Owners;
      var l := Abs();
      forall i | 0 <= i < |buffersToWrite|
        ensures buffersToWrite[i] != currentBuffer && buffersToWrite[i] != nextBuffer
        ensures buffersToWrite[i] != newBuffer1 && buffersToWrite[i] != newBuffer2
        ensures forall j :: i < j < |buffersToWrite| ==> buffersToWrite[i] != buffersToWrite[j]
      {
        BatchAlone(l, i);
        assert forall j :: i < j < |buffersToWrite| ==> l.place.batch[j] == buffersToWrite[j].model;
      }
    }

    // Two equal pointers would be two owners of one identity.
    lemma NoAliases()
      requires Valid()
      ensures Distinct()
    {
      assert Owned(Abs());
      hide Inv, Wired, Owned;
      QueueApart();
      BatchApart();
      SlotsApart(Abs());
    }

    // ---------- the front end ----------

    // Nothing but currentBuffer_ is written.
    method AppendCurrent(line: Line)
      requires Refs() && Wired() && CurrentAlone()
      modifies currentBuffer, currentBuffer.data
      ensures Refs() && Wired() && Abs() == old(Abs()).(current := Appended(old(Abs()).current, line))
    {
      hide Appended;
      currentBuffer.Append(line);
      assert Models(buffers) == old(Models(buffers)) && Models(buffersToWrite) == old(Models(buffersToWrite));
    }

    method AdvanceToNext()
      requires Refs() && Wired() && Distinct() && nextBuffer != null
      modifies this`buffers, this`currentBuffer, this`nextBuffer, this`newBuffer1, this`newBuffer2
      ensures Refs() && Wired() && CurrentAlone() && Abs() == Advanced(old(Abs()))
    {
      hide Wired;
      Point(nextBuffer, null, newBuffer1, newBuffer2, buffers + [currentBuffer]);
      assert Models(buffers) == old(Models(buffers)) + [old(currentBuffer.model)];
    }

    method AdvanceToNew()
      requires Refs() && Wired() && nextBuffer == null
      modifies this`buffers, this`currentBuffer, this`nextBuffer, this`newBuffer1, this`newBuffer2
      modifies this`objects, this`serial
      ensures Refs() && Wired() && CurrentAlone() && Abs() == Advanced(old(Abs()))
      ensures fresh(currentBuffer) && fresh(currentBuffer.data) && objects == old(objects) + {currentBuffer}
    {
      hide Wired;
      var b := Allocate();
      Point(b, null, newBuffer1, newBuffer2, buffers + [currentBuffer]);
      assert Models(buffers) == old(Models(buffers)) + [old(currentBuffer.model)];
    }

    method Store(line: Line)
      requires Refs() && Wired() && Distinct()
      modifies this`buffers, this`currentBuffer, this`nextBuffer, this`newBuffer1, this`newBuffer2
      modifies this`objects, this`serial, objects, Arrays()
      ensures Refs() && Wired() && fresh(objects - old(objects)) && fresh(Arrays() - old(Arrays()))
      ensures Abs() == Stored(old(Abs()), line)
    {
      var avail := BUFFER_SIZE - currentBuffer.cur;
      assert currentBuffer.cur == Length(currentBuffer.model);
      hide Wired, Distinct, Length, Appended;
      if avail > |line| {
        CurrentFree();
        AppendCurrent(line);
      } else {
        Advance();
        AppendCurrent(line);
      }
    }

    method Advance()
      requires Refs() && Wired() && Distinct()
      modifies this`buffers, this`currentBuffer, this`nextBuffer, this`newBuffer1, this`newBuffer2
      modifies this`objects, this`serial
      ensures Refs() && Wired() && CurrentAlone() && Abs() == Advanced(old(Abs()))
      ensures fresh(objects - old(objects)) && fresh(Arrays() - old(Arrays()))
    {
      hide Wired, Distinct;
      if nextBuffer != null {
        AdvanceToNext();
      } else {
        AdvanceToNew();
      }
    }

    lemma CurrentFree()
      requires Distinct()
      ensures CurrentAlone()
    {
    }

    method StoreAccepted(line: Line)
      requires Refs() && Wired() && Distinct()
      modifies this, objects, Arrays()
      ensures Refs() && Wired() && fresh(objects - old(objects)) && fresh(Arrays() - old(Arrays()))
      ensures Abs() == LoggingModel.Append(old(Abs()), line)
      ensures buffersToWrite == old(buffersToWrite) && stage == old(stage)
    {
      hide Wired, Distinct, Stored;
      Store(line);
      if |line| < BUFFER_SIZE {
        accepted := accepted + [line];
      }
    }

    // AsyncLogging::append, under the lock
    method Append(line: Line)
      requires Valid()
      modifies this, objects, Arrays()
      ensures Valid() && Abs() == Next(old(Abs()), Produce(line))
      ensures buffersToWrite == old(buffersToWrite) && stage == old(stage)
      ensures fresh(objects - old(objects)) && fresh(Arrays() - old(Arrays()))
    {
      NoAliases();
      InvStep(Abs(), Produce(line));
      AppendShape(Abs(), line);
      hide Inv, Distinct, Wired, LoggingModel.Append;
      StoreAccepted(line);
    }

    // ---------- the back end ----------

    method SetBatch(batch: seq<FixedBuffer>, at: Stage)
      requires Wired()
      modifies this`buffersToWrite, this`stage
      ensures Wired() && buffersToWrite == batch && stage == at
    {
      buffersToWrite, stage := batch, at;
    }

    method TakeBuffers()
      requires Refs() && Wired() && newBuffer1 != null && newBuffer2 != null
      modifies this`currentBuffer, this`nextBuffer, this`newBuffer1, this`newBuffer2
      modifies this`buffers, this`buffersToWrite, this`stage
      ensures Refs() && Wired() && Abs() == Swap(old(Abs())) && stage.InBatch?
    {
      hide Wired;
      SetBatch(buffers + [currentBuffer], InBatch(0));
      var next, new2 := nextBuffer, newBuffer2;
      if next == null {
        next, new2 := new2, null;
      }
      Point(newBuffer1, next, null, new2, []);
      assert Models(buffersToWrite) == old(Models(buffers)) + [old(currentBuffer.model)];
    }

    // The locked region of threadFunc
    method SwapBuffers()
      requires Valid() && Enabled(Abs(), Step.SwapBuffers)
      modifies this
      ensures Valid() && Abs() == Next(old(Abs()), Step.SwapBuffers) && objects == old(objects)
      ensures stage == InBatch(0) && accepted == old(accepted) && running == old(running)
    {
      InvStep(Abs(), Step.SwapBuffers);
      hide Inv, Wired;
      TakeBuffers();
    }

    method Output()
      requires Refs() && Wired() && stage.InBatch? && stage.done < |buffersToWrite|
      modifies this`sink, this`written, this`stage
      ensures Refs() && Wired() && Abs() == WriteOne(old(Abs())) && stage == InBatch(old(stage.done) + 1)
    {
      var b := buffersToWrite[stage.done];
      assert b in buffersToWrite && b.Valid();
      sink, written := sink + b.data[..b.cur], written + b.model.lines;
      stage := InBatch(stage.done + 1);
    }

    // output.append for the next buffer of the batch
    method WriteBuffer()
      requires Valid() && Enabled(Abs(), Write)
      modifies this`sink, this`written, this`stage
      ensures Valid() && Abs() == Next(old(Abs()), Write) && stage == InBatch(old(stage.done) + 1)
    {
      InvStep(Abs(), Write);
      hide Inv, Wired;
      Output();
    }

    // std::move(buffersToWrite.back()), pop_back and reset
    method TakeBack() returns (b: FixedBuffer)
      requires Refs() && Wired() && Distinct() && buffersToWrite != []
      modifies this`buffersToWrite, buffersToWrite[|buffersToWrite| - 1]
      ensures b == old(buffersToWrite)[|old(buffersToWrite)| - 1]
      ensures buffersToWrite == old(buffersToWrite)[..|old(buffersToWrite)| - 1]
      ensures Refs() && Wired() && b.model == LoggingModel.Reset(old(b.model))
      ensures Models(buffersToWrite) == old(Models(buffersToWrite))[..|buffersToWrite|] && FrontKept() && SparesKept()
    {
      b := buffersToWrite[|buffersToWrite| - 1];
      assert b in buffersToWrite;
      buffersToWrite := buffersToWrite[..|buffersToWrite| - 1];
      b.Reset();
    }

    // What the front end owns
    twostate predicate FrontKept()
      reads this, objects
      requires old(Refs()) && Refs()
    {
      && currentBuffer == old(currentBuffer) && nextBuffer == old(nextBuffer) && buffers == old(buffers)
      && currentBuffer.model == old(currentBuffer.model) && SlotOf(nextBuffer) == old(SlotOf(nextBuffer))
      && Models(buffers) == old(Models(buffers))
    }

    twostate predicate SparesKept()
      reads this, objects
      requires old(Refs()) && Refs()
    {
      SlotOf(newBuffer1) == old(SlotOf(newBuffer1)) && SlotOf(newBuffer2) == old(SlotOf(newBuffer2))
    }

    twostate lemma StillDistinct(batch: seq<FixedBuffer>)
      requires old(Distinct()) && batch == old(buffersToWrite) && buffersToWrite <= batch
      requires currentBuffer == old(currentBuffer) && nextBuffer == old(nextBuffer) && buffers == old(buffers)
      requires newBuffer1 == old(newBuffer1) && newBuffer2 == old(newBuffer2)
      ensures Distinct()
    {
      assert forall o :: o in buffersToWrite ==> o in batch;
    }

    // resize(2): the buffers after the first two are destroyed.
    method Resize()
      requires Refs() && Wired() && Distinct()
      modifies this`buffersToWrite, this`destroyed
      ensures Refs() && Wired() && Distinct() && FrontKept() && SparesKept()
      ensures var n := if |old(buffersToWrite)| > 2 then 2 else |old(buffersToWrite)|;
        && buffersToWrite == old(buffersToWrite)[..n]
        && Models(buffersToWrite) == old(Models(buffersToWrite))[..n]
        && destroyed == old(destroyed) + old(Models(buffersToWrite))[n..]
    {
      if |buffersToWrite| > 2 {
        destroyed := destroyed + Models(buffersToWrite)[2..];
        buffersToWrite := buffersToWrite[..2];
      } else {
        assert Models(buffersToWrite)[|buffersToWrite|..] == [];
      }
      StillDistinct(old(buffersToWrite));
    }

    // clear
    method Clear()
      requires Refs() && Wired()
      modifies this`buffersToWrite, this`destroyed, this`stage
      ensures Refs() && Wired() && FrontKept() && SparesKept() && buffersToWrite == [] && stage == AtHead
      ensures destroyed == old(destroyed) + old(Models(buffersToWrite))
    {
      destroyed := destroyed + Models(buffersToWrite);
      buffersToWrite, stage := [], AtHead;
    }

    method RefillFirst()
      requires Refs() && Wired() && Distinct() && newBuffer1 == null && buffersToWrite != []
      modifies this`newBuffer1, this`buffersToWrite, objects
      ensures Refs() && Wired() && Distinct() && FrontKept()
      ensures var n := |old(buffersToWrite)| - 1;
        && SlotOf(newBuffer1) == Owner(LoggingModel.Reset(old(Models(buffersToWrite))[n]))
        && SlotOf(newBuffer2) == old(SlotOf(newBuffer2))
        && Models(buffersToWrite) == old(Models(buffersToWrite))[..n]
    {
      newBuffer1 := TakeBack();
    }

    method RefillSecond()
      requires Refs() && Wired() && Distinct() && newBuffer2 == null && buffersToWrite != []
      modifies this`newBuffer2, this`buffersToWrite, objects
      ensures Refs() && Wired() && Distinct() && FrontKept()
      ensures var n := |old(buffersToWrite)| - 1;
        && SlotOf(newBuffer2) == Owner(LoggingModel.Reset(old(Models(buffersToWrite))[n]))
        && SlotOf(newBuffer1) == old(SlotOf(newBuffer1))
        && Models(buffersToWrite) == old(Models(buffersToWrite))[..n]
    {
      newBuffer2 := TakeBack();
    }

    // Refilling newBuffer1 and newBuffer2; the assertions are those of the source.
    method RefillBoth()
      requires Refs() && Wired() && Distinct() && newBuffer1 == null
      requires |buffersToWrite| >= if newBuffer2 == null then 2 else 1
      modifies this`newBuffer1, this`newBuffer2, this`buffersToWrite, objects
      ensures Refs() && Wired() && FrontKept()
      ensures var bs, n := old(Models(buffersToWrite)), |old(buffersToWrite)|;
        && SlotOf(newBuffer1) == Owner(LoggingModel.Reset(bs[n - 1]))
        && SlotOf(newBuffer2) ==
             (if old(newBuffer2) == null then Owner(LoggingModel.Reset(bs[n - 2])) else old(SlotOf(newBuffer2)))
        && Models(buffersToWrite) == bs[..if old(newBuffer2) == null then n - 2 else n - 1]
    {
      hide Wired, Distinct, Models;
      ghost var bs := Models(buffersToWrite);
      if newBuffer1 == null {
        assert buffersToWrite != [];
        RefillFirst();
      }
      if newBuffer2 == null {
        assert buffersToWrite != [];
        RefillSecond();
        assert bs[..|bs| - 1][..|bs| - 2] == bs[..|bs| - 2];
      }
    }

    method RefillAndClear()
      requires Refs() && Wired() && Distinct() && newBuffer1 == null
      requires |buffersToWrite| >= if newBuffer2 == null then 2 else 1
      modifies this`newBuffer1, this`newBuffer2, this`buffersToWrite, this`destroyed, this`stage, objects
      ensures Refs() && Wired() && FrontKept() && buffersToWrite == [] && stage == AtHead
      ensures var bs := old(Models(buffersToWrite));
        var n := if |bs| > 2 then 2 else |bs|;
        var k := if old(newBuffer2) == null then n - 2 else n - 1;
        && SlotOf(newBuffer1) == Owner(LoggingModel.Reset(bs[n - 1]))
        && SlotOf(newBuffer2) ==
             (if old(newBuffer2) == null then Owner(LoggingModel.Reset(bs[n - 2])) else old(SlotOf(newBuffer2)))
        && destroyed == old(destroyed) + bs[n..] + bs[..k]
    {
      hide Wired, Distinct, Models, LoggingModel.Reset;
      ghost var bs := Models(buffersToWrite);
      ghost var n := if |bs| > 2 then 2 else |bs|;
      Resize();
      RefillBoth();
      assert old(newBuffer2) == null ==> bs[..n][..n - 2] == bs[..n - 2];
      assert bs[..n][..n - 1] == bs[..n - 1];
      Clear();
    }

    method Refill()
      requires Refs() && Wired() && Distinct() && Pooled(Abs()) && stage.InBatch?
      modifies this`newBuffer1, this`newBuffer2, this`buffersToWrite, this`destroyed, this`stage, objects
      ensures Refs() && Wired() && Abs() == LoggingModel.Recycle(old(Abs())) && buffersToWrite == []
    {
      ghost var l := Abs();
      RecycleShape(l);
      RecycleSpares(l);
      hide Wired, Distinct, Models, LoggingModel.Recycle, LoggingModel.Reset;
      RefillAndClear();
    }

    // The end of an iteration of threadFunc
    method Recycle()
      requires Valid() && Enabled(Abs(), Finish)
      modifies this, objects
      ensures Valid() && Abs() == Next(old(Abs()), Finish) && objects == old(objects)
      ensures stage == AtHead && accepted == old(accepted) && written == old(written) && running == old(running)
    {
      NoAliases();
      InvStep(Abs(), Finish);
      RecycleShape(Abs());
      hide Wired, Distinct, LoggingModel.Recycle;
      Refill();
    }

    // ---------- an iteration ----------

    // A batch is being written, and `before` is what the file holds when it is done.
    ghost predicate Delivering(before: seq<Line>)
      reads this, objects, Arrays()
    {
      Valid() && OnTheWay(Abs(), before)
    }

    // Producers that get the lock while the back end waits or writes a batch
    method AppendAll(lines: seq<Line>, ghost before: seq<Line>)
      requires Delivering(before)
      modifies this, objects, Arrays()
      ensures Delivering(before) && stage == old(stage) && buffersToWrite == old(buffersToWrite)
      ensures running == old(running) && accepted == old(accepted) + Fit(lines)
      ensures fresh(objects - old(objects)) && fresh(Arrays() - old(Arrays()))
    {
      hide Valid, Abs, Delivering;
      for i := 0 to |lines|
        invariant Delivering(before) && stage == old(stage) && buffersToWrite == old(buffersToWrite)
        invariant running == old(running) && accepted == old(accepted) + Fit(lines[..i])
        invariant fresh(objects - old(objects)) && fresh(Arrays() - old(Arrays()))
      {
        AppendOne(lines[i], before);
        assert lines[..i + 1][..i] == lines[..i];
      }
      assert lines[..|lines|] == lines;
    }

    method AppendOne(line: Line, ghost before: seq<Line>)
      requires Delivering(before)
      modifies this, objects, Arrays()
      ensures Delivering(before) && stage == old(stage) && buffersToWrite == old(buffersToWrite)
      ensures running == old(running)
      ensures accepted == old(accepted) + if |line| < BUFFER_SIZE then [line] else []
      ensures fresh(objects - old(objects)) && fresh(Arrays() - old(Arrays()))
    {
      AppendShape(Abs(), line);
      OnTheWayStep(Abs(), before, Produce(line));
      hide Inv, Wired, OnTheWay, LoggingModel.Append;
      Append(line);
    }

    // Writing the batch; `script(i)` is what producers append before the i-th buffer is written.
    method WriteBatch(script: nat -> seq<Line>, ghost before: seq<Line>)
      requires Delivering(before) && stage == InBatch(0)
      modifies this, objects, Arrays()
      ensures Valid() && Enabled(Abs(), Finish) && written == before && old(accepted) <= accepted
      ensures running == old(running)
      ensures fresh(objects - old(objects)) && fresh(Arrays() - old(Arrays()))
    {
      hide Valid, Abs, Delivering;
      var n := |buffersToWrite|;
      for i := 0 to n
        invariant Delivering(before) && stage == InBatch(i) && |buffersToWrite| == n && running == old(running)
        invariant old(accepted) <= accepted && fresh(objects - old(objects)) && fresh(Arrays() - old(Arrays()))
      {
        WriteNext(script(i), before);
      }
      AllWritten(before);
    }

    lemma AllWritten(before: seq<Line>)
      requires Delivering(before) && stage == InBatch(|buffersToWrite|)
      ensures Valid() && Enabled(Abs(), Finish) && written == before
    {
      assert Unwritten(Abs()) == [] && written + [] == written;
    }

    lemma FileHolds()
      requires Valid()
      ensures sink == Concat(written)
    {
    }

    method WriteNext(lines: seq<Line>, ghost before: seq<Line>)
      requires Delivering(before) && stage.InBatch? && stage.done < |buffersToWrite|
      modifies this, objects, Arrays()
      ensures Delivering(before) && stage == InBatch(old(stage.done) + 1) && buffersToWrite == old(buffersToWrite)
      ensures old(accepted) <= accepted && running == old(running)
      ensures fresh(objects - old(objects)) && fresh(Arrays() - old(Arrays()))
    {
      hide Valid, Abs, Delivering;
      AppendAll(lines, before);
      WriteOneOf(before);
    }

    method WriteOneOf(ghost before: seq<Line>)
      requires Delivering(before) && stage.InBatch? && stage.done < |buffersToWrite|
      modifies this`sink, this`written, this`stage
      ensures Delivering(before) && stage == InBatch(old(stage.done) + 1)
    {
      OnTheWayStep(Abs(), before, Write);
      hide Inv, Wired, OnTheWay;
      WriteBuffer();
    }

    // while (running_)
    method TestRunning()
      requires Valid() && stage == AtHead
      modifies this`stage
      ensures Valid() && Abs() == Next(old(Abs()), Test) && stage == if running then AtWait else AtEnd
    {
      hide Inv, Wired;
      InvStep(Abs(), Test);
      SetStage(if running then AtWait else AtEnd);
    }

    method SetStage(at: Stage)
      requires Refs() && Wired() && !at.InBatch? && !stage.InBatch?
      modifies this`stage
      ensures Refs() && Wired() && stage == at
      ensures Abs() == old(Abs()).(place := match at case AtHead => Head case AtWait => Waiting case _ => Ended)
    {
      stage := at;
    }

    method SetRunning(on: bool)
      requires Refs() && Wired()
      modifies this`running
      ensures Refs() && Wired() && running == on && Abs() == old(Abs()).(running := on)
    {
      running := on;
    }

    // stop(), without the join
    method Stop()
      requires Valid()
      modifies this`running
      ensures Valid() && Abs() == Next(old(Abs()), Step.Stop) && !running && objects == old(objects)
    {
      hide Inv, Wired;
      InvStep(Abs(), Step.Stop);
      SetRunning(false);
    }

    // waitForSeconds: producers get the lock, and stop() may come.
    method Wait(lines: seq<Line>, stops: bool)
      requires Valid() && stage == AtWait
      modifies this, objects, Arrays()
      ensures Valid() && stage == AtWait && written == old(written) && accepted == old(accepted) + Fit(lines)
      ensures running == (old(running) && !stops)
      ensures fresh(objects - old(objects)) && fresh(Arrays() - old(Arrays()))
    {
      hide Valid, Abs, Delivering;
      WaitDelivers();
      ghost var before := written;
      AppendAll(lines, before);
      Delivered(before);
      if stops {
        Stop();
      }
    }

    lemma WaitDelivers()
      requires Valid() && stage == AtWait
      ensures Delivering(written)
    {
      assert written + [] == written;
    }

    lemma Delivered(before: seq<Line>)
      requires Delivering(before) && stage == AtWait
      ensures Valid() && written == before
    {
      assert written + [] == written;
    }

    method StartBatch()
      requires Valid() && stage == AtWait
      modifies this
      ensures Delivering(old(accepted)) && stage == InBatch(0)
      ensures accepted == old(accepted) && running == old(running) && objects == old(objects)
    {
      SwapStartsDelivery(Abs());
      hide Inv, Wired, OnTheWay;
      SwapBuffers();
    }

    // One turn of threadFunc, entered if and only if running_ is set; stop() does not cut it short.
    // Afterwards the file holds what was accepted before the swap, that is, everything accepted before the
    // turn and what producers appended during the wait, whatever they append later.
    method Iterate(early: seq<Line>, stops: bool, script: nat -> seq<Line>) returns (entered: bool)
      requires Valid() && stage == AtHead
      modifies this, objects, Arrays()
      ensures Valid() && (entered <==> old(running)) && stage == if entered then AtHead else AtEnd
      ensures !entered ==> written == old(written) && accepted == old(accepted)
      ensures entered ==>
        && written == old(accepted) + Fit(early) && sink == Concat(written) && written <= accepted
        && running == !stops
      ensures fresh(objects - old(objects)) && fresh(Arrays() - old(Arrays()))
    {
      hide Valid, Abs, Delivering;
      TestRunning();
      entered := running;
      if entered {
        Wait(early, stops);
        ghost var before := accepted;
        StartBatch();
        WriteBatch(script, before);
        Recycle();
        FileHolds();
      }
    }
  }
}
