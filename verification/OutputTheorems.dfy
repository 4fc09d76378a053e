/** The byte stream, the write interest, the half-close and the backlog notices over every run. */
module OutputTheorems {
  import opened Bytes
  import opened Sequences
  import opened OutputModel

  predicate Streams(c: Conn) {
    c.wire + c.output == Concat(c.kept)
  }

  predicate Interested(c: Conn) {
    && (c.status != Disconnected ==> (c.writing <==> c.output != []))
    && (c.status == Disconnected ==> !c.writing)
  }

  // A half-close happens after the backlog is gone, and a requested one is never forgotten.
  predicate Closing(c: Conn) {
    && (c.fin && c.status != Disconnected ==> c.output == [])
    && (c.status == Disconnecting ==> c.fin || c.writing || c.shutdowns > 0 || c.closes > 0)
  }

  predicate Inv(c: Conn) {
    Streams(c) && Interested(c) && Closing(c)
  }

  lemma BufferedStream(c: Conn, rest: seq<byte>)
    ensures var r := Buffered(c, rest); r.wire == c.wire && r.output == c.output + rest && r.kept == c.kept
  {
  }

  // Where the bytes of a kept message go
  lemma SendBytes(c: Conn, m: seq<byte>, w: WriteResult)
    requires c.status != Disconnected && !(Direct(c) && w.Broken?) && (w.Wrote? ==> w.n <= |m|)
    ensures var r := SendInLoop(c, m, w);
      var n := if Direct(c) && w.Wrote? then w.n else 0;
      r.kept == c.kept + [m] && r.wire == c.wire + m[..n] && r.output == c.output + m[n..]
  {
    if Direct(c) && w.Wrote? {
      var sent := c.(kept := c.kept + [m], wire := c.wire + m[..w.n]);
      BufferedStream(Notify(sent, w.n == |m| && c.onComplete, WriteComplete), m[w.n..]);
    } else {
      BufferedStream(c.(kept := c.kept + [m]), m);
      assert m[..0] == [] && m[0..] == m;
    }
  }

  lemma Rejoined(wire: seq<byte>, output: seq<byte>, m: seq<byte>, n: nat)
    requires n <= |m| && (n == 0 || output == [])
    ensures (wire + m[..n]) + (output + m[n..]) == wire + output + m
  {
    assert m[..n] + m[n..] == m;
  }

  // sendInLoop keeps a message whole or drops it whole; it drops it exactly when the connection is
  // disconnected or a direct write fails with EPIPE or ECONNRESET.
  lemma SendWholeOrNothing(c: Conn, m: seq<byte>, w: WriteResult)
    requires Streams(c) && (w.Wrote? ==> w.n <= |m|)
    ensures var r := SendInLoop(c, m, w);
      if c.status == Disconnected || (Direct(c) && w.Broken?) then r == c
      else r.kept == c.kept + [m] && r.wire + r.output == c.wire + c.output + m && c.wire <= r.wire && Streams(r)
  {
    if c.status != Disconnected && !(Direct(c) && w.Broken?) {
      SendBytes(c, m, w);
      Rejoined(c.wire, c.output, m, if Direct(c) && w.Wrote? then w.n else 0);
      ConcatAppend(c.kept, m);
    }
  }

  lemma SendInterested(c: Conn, m: seq<byte>, w: WriteResult)
    requires Interested(c) && Closing(c) && KernelOk(c, w, |m|)
    ensures Interested(SendInLoop(c, m, w)) && Closing(SendInLoop(c, m, w))
  {
  }

  lemma SendInv(c: Conn, m: seq<byte>, w: WriteResult)
    requires Inv(c) && KernelOk(c, w, |m|)
    ensures Inv(SendInLoop(c, m, w))
  {
    SendWholeOrNothing(c, m, w);
    SendInterested(c, m, w);
  }

  lemma WriteInv(c: Conn, w: WriteResult)
    requires Inv(c) && KernelOk(c, w, |c.output|)
    ensures Inv(HandleWrite(c, w))
  {
    if w.Wrote? {
      assert c.output == c.output[..w.n] + c.output[w.n..];
      assert c.wire + c.output[..w.n] + c.output[w.n..] == c.wire + c.output;
    }
  }

  lemma InvStep(c: Conn, s: Step)
    requires Inv(c) && Enabled(c, s)
    ensures Inv(Next(c, s))
  {
    match s {
      case Send(m, w) => SendInv(c, m, w);
      case KeepAlive(w) => SendInv(c, HEARTBEAT, w);
      case Writable(w) => WriteInv(c, w);
      case _ =>
    }
  }

  lemma {:induction false} InvRun(c: Conn, steps: seq<Step>)
    requires Inv(c) && ValidRun(c, steps)
    ensures Inv(Run(c, steps))
    decreases |steps|
  {
    if steps != [] {
      InvStep(c, steps[0]);
      InvRun(Next(c, steps[0]), steps[1..]);
    }
  }

  // ---------- the stream ----------

  // Over every run with arbitrary partial writes, would-block results and faults, the bytes taken by
  // the kernel and the backlog are the kept messages, whole and in order; and the channel waits for
  // writability exactly when there is a backlog, until the connection is disconnected.
  lemma StreamIsIntact(mark: nat, onComplete: bool, onHighWater: bool, steps: seq<Step>)
    requires ValidRun(Fresh(mark, onComplete, onHighWater), steps)
    ensures var c := Run(Fresh(mark, onComplete, onHighWater), steps);
      && c.wire + c.output == Concat(c.kept)
      && (c.status != Disconnected ==> (c.writing <==> c.output != []))
  {
    InvRun(Fresh(mark, onComplete, onHighWater), steps);
  }

  // What is on the wire is never taken back, and kept messages stay kept.
  lemma {:induction false} StreamOnlyGrows(c: Conn, steps: seq<Step>)
    requires Inv(c) && ValidRun(c, steps)
    ensures c.wire <= Run(c, steps).wire && c.kept <= Run(c, steps).kept
    decreases |steps|
  {
    if steps != [] {
      var s := steps[0];
      InvStep(c, s);
      GrowsStep(c, s);
      StreamOnlyGrows(Next(c, s), steps[1..]);
    }
  }

  lemma GrowsStep(c: Conn, s: Step)
    requires Inv(c) && Enabled(c, s)
    ensures c.wire <= Next(c, s).wire && c.kept <= Next(c, s).kept
  {
    if s.Send? {
      SendWholeOrNothing(c, s.m, s.w);
    } else if s.KeepAlive? {
      SendWholeOrNothing(c, HEARTBEAT, s.w);
    }
  }

  // ---------- half-close ----------

  // The FIN follows every kept byte, except exactly when the connection was disconnected with a
  // backlog before the queued shutdownInLoop ran.
  lemma FinFollowsEverythingIff(c: Conn, s: Step)
    requires Inv(c) && Enabled(c, s) && !c.fin && Next(c, s).fin
    ensures Next(c, s).wire == Concat(Next(c, s).kept) <==> c.status != Disconnected || c.output == []
  {
    InvStep(c, s);
    var r := Next(c, s);
    assert r.wire + r.output == Concat(r.kept);
    if r.output == [] {
      assert r.wire + [] == r.wire;
    } else {
      assert |r.wire| < |Concat(r.kept)|;
    }
  }

  // The exception: shutdown from another thread, then a hangup, then the queued functor.
  lemma FinCanTruncate()
    ensures var c := Fresh(100, false, false);
      var steps := [Establish, Send([1], WouldBlock), Shutdown, Hangup, ShutdownQueued];
      ValidRun(c, steps) && Run(c, steps).fin && Run(c, steps).wire == [] && Run(c, steps).kept == [[1]]
  {
    var c := Fresh(100, false, false);
    var c1 := Next(c, Establish);
    var c2 := Next(c1, Send([1], WouldBlock));
    var c3 := Next(c2, Shutdown);
    var c4 := Next(c3, Hangup);
    var c5 := Next(c4, ShutdownQueued);
    var steps := [Establish, Send([1], WouldBlock), Shutdown, Hangup, ShutdownQueued];
    assert steps[1..] == [Send([1], WouldBlock), Shutdown, Hangup, ShutdownQueued];
    assert steps[1..][1..] == [Shutdown, Hangup, ShutdownQueued];
    assert [Shutdown, Hangup, ShutdownQueued][1..] == [Hangup, ShutdownQueued];
    assert [Hangup, ShutdownQueued][1..] == [ShutdownQueued] && [ShutdownQueued][1..] == [];
    assert ValidRun(c5, []) && Run(c5, []) == c5;
    assert ValidRun(c4, [ShutdownQueued]) && Run(c4, [ShutdownQueued]) == c5;
    assert ValidRun(c3, [Hangup, ShutdownQueued]) && Run(c3, [Hangup, ShutdownQueued]) == c5;
    assert ValidRun(c2, steps[1..][1..]) && Run(c2, steps[1..][1..]) == c5;
    assert ValidRun(c1, steps[1..]) && Run(c1, steps[1..]) == c5;
  }

  // Nothing is written after the half-close.
  lemma {:induction false} NothingAfterFin(c: Conn, steps: seq<Step>)
    requires Inv(c) && ValidRun(c, steps) && c.fin
    ensures Run(c, steps).fin && Run(c, steps).wire == c.wire && Run(c, steps).kept == c.kept
    decreases |steps|
  {
    if steps != [] {
      InvStep(c, steps[0]);
      FinStep(c, steps[0]);
      NothingAfterFin(Next(c, steps[0]), steps[1..]);
    }
  }

  lemma FinStep(c: Conn, s: Step)
    requires Inv(c) && Enabled(c, s) && c.fin
    ensures Next(c, s).fin && Next(c, s).wire == c.wire && Next(c, s).kept == c.kept
  {
  }

  // While there is a backlog, one thing alone sends the FIN: the handleWrite that drains the backlog of a
  // connection that is being shut down.
  lemma DrainingWriteShutsDown(c: Conn, s: Step)
    requires Inv(c) && Enabled(c, s) && c.status != Disconnected && c.output != [] && !c.fin
    ensures Next(c, s).fin <==> c.status == Disconnecting && s == Writable(Wrote(|c.output|))
  {
  }

  // In every run, once the functors of a shutdown have run, the FIN is out if and only if every kept byte is
  // on the wire: the FIN is neither early nor forgotten.
  lemma FinIffDrained(mark: nat, onComplete: bool, onHighWater: bool, steps: seq<Step>)
    requires ValidRun(Fresh(mark, onComplete, onHighWater), steps)
    ensures var c := Run(Fresh(mark, onComplete, onHighWater), steps);
      c.status == Disconnecting && c.shutdowns == 0 && c.closes == 0 ==> (c.fin <==> c.wire == Concat(c.kept))
  {
    InvRun(Fresh(mark, onComplete, onHighWater), steps);
    var c := Run(Fresh(mark, onComplete, onHighWater), steps);
    if c.output == [] {
      assert c.wire + [] == c.wire;
    } else {
      assert |c.wire| < |Concat(c.kept)|;
    }
  }

  // In every run, a connection that is closing has sent its FIN, or still waits to write its
  // backlog, or has a functor queued that will act.
  lemma ShutdownIsNotForgotten(mark: nat, onComplete: bool, onHighWater: bool, steps: seq<Step>)
    requires ValidRun(Fresh(mark, onComplete, onHighWater), steps)
    ensures var c := Run(Fresh(mark, onComplete, onHighWater), steps);
      c.status == Disconnecting ==> c.fin || c.writing || c.shutdowns > 0 || c.closes > 0
  {
    InvRun(Fresh(mark, onComplete, onHighWater), steps);
  }

  // ---------- notices ----------

  predicate Crosses(c: Conn, d: Conn) {
    |c.output| < c.mark <= |d.output|
  }

  function Crossings(c: Conn, steps: seq<Step>): nat
    requires ValidRun(c, steps)
    decreases |steps|
  {
    if steps == [] then 0
    else (if Crosses(c, Next(c, steps[0])) then 1 else 0) + Crossings(Next(c, steps[0]), steps[1..])
  }

  function HighWaters(notices: seq<Notice>): nat {
    if notices == [] then 0
    else HighWaters(notices[..|notices| - 1]) + if notices[|notices| - 1].HighWater? then 1 else 0
  }

  // The notices a step may queue: a high-water notice with the new backlog exactly on an upward
  // crossing; a write-complete notice only when everything kept is on the wire.
  predicate RightNotices(c: Conn, d: Conn) {
    && d.mark == c.mark && d.onHighWater == c.onHighWater
    && if Crosses(c, d) then d.notices == c.notices + [HighWater(|d.output|)]
       else
         || d.notices == c.notices
         || (d.notices == c.notices + [WriteComplete] && d.output == [] && d.wire == Concat(d.kept))
  }

  lemma BufferedNotices(c: Conn, rest: seq<byte>)
    requires c.onHighWater && rest != []
    ensures RightNotices(c, Buffered(c, rest))
  {
  }

  lemma SendNotices(c: Conn, m: seq<byte>, w: WriteResult)
    requires Inv(c) && KernelOk(c, w, |m|) && c.onHighWater
    ensures RightNotices(c, SendInLoop(c, m, w))
  {
    var d := SendInLoop(c, m, w);
    SendWholeOrNothing(c, m, w);
    if c.status == Disconnected || (Direct(c) && w.Broken?) {
    } else if Direct(c) && w.Wrote? {
      DirectNotices(c, m, w);
    } else if m != [] {
      BufferedNotices(c.(kept := c.kept + [m]), m);
    }
  }

  lemma DirectNotices(c: Conn, m: seq<byte>, w: WriteResult)
    requires Direct(c) && c.status != Disconnected && w.Wrote? && w.n <= |m| && c.onHighWater
    requires Streams(SendInLoop(c, m, w))
    ensures RightNotices(c, SendInLoop(c, m, w))
  {
    var d := SendInLoop(c, m, w);
    if w.n == |m| {
      assert d.output == [] && d.wire + [] == d.wire;
    } else {
      BufferedNotices(c.(kept := c.kept + [m], wire := c.wire + m[..w.n]), m[w.n..]);
    }
  }

  lemma WriteNotices(c: Conn, w: WriteResult)
    requires Inv(c) && KernelOk(c, w, |c.output|) && c.onHighWater
    ensures RightNotices(c, HandleWrite(c, w))
  {
    WriteInv(c, w);
    var d := HandleWrite(c, w);
    if d.output == [] {
      assert d.wire + [] == d.wire;
    }
  }

  lemma NoticesOfStep(c: Conn, s: Step)
    requires Inv(c) && Enabled(c, s) && c.onHighWater
    ensures RightNotices(c, Next(c, s))
  {
    match s {
      case Send(m, w) => SendNotices(c, m, w);
      case KeepAlive(w) => SendNotices(c, HEARTBEAT, w);
      case Writable(w) => WriteNotices(c, w);
      case _ =>
    }
  }

  // Over a run there are as many high-water notices as upward crossings of the mark.
  lemma {:induction false} HighWaterCountsCrossings(c: Conn, steps: seq<Step>)
    requires Inv(c) && ValidRun(c, steps) && c.onHighWater
    ensures HighWaters(Run(c, steps).notices) == HighWaters(c.notices) + Crossings(c, steps)
    decreases |steps|
  {
    if steps != [] {
      var d := Next(c, steps[0]);
      InvStep(c, steps[0]);
      NoticesOfStep(c, steps[0]);
      assert (c.notices + [WriteComplete])[..|c.notices|] == c.notices;
      assert (c.notices + [HighWater(|d.output|)])[..|c.notices|] == c.notices;
      HighWaterCountsCrossings(d, steps[1..]);
    }
  }

  ghost predicate DipsAt(c: Conn, steps: seq<Step>, i: nat) {
    i <= |steps| && ValidRun(c, steps[..i]) && |Run(c, steps[..i]).output| < c.mark
  }

  // Between two high-water notices the backlog was below the mark.
  lemma {:induction false} BacklogFallsBetween(c: Conn, steps: seq<Step>)
    requires Inv(c) && ValidRun(c, steps) && c.onHighWater
    requires |c.output| >= c.mark && Crossings(c, steps) > 0
    ensures exists i: nat :: DipsAt(c, steps, i)
    decreases |steps|
  {
    var s := steps[0];
    var d := Next(c, s);
    InvStep(c, s);
    NoticesOfStep(c, s);
    var j: nat := 0;
    if |d.output| < c.mark {
      assert steps[1..][..0] == [];
    } else {
      BacklogFallsBetween(d, steps[1..]);
      j :| DipsAt(d, steps[1..], j);
    }
    assert steps[..j + 1][0] == s && steps[..j + 1][1..] == steps[1..][..j];
    assert DipsAt(c, steps, j + 1);
  }

  // A write that leaves nothing to send: the last of the backlog, or a whole message at once.
  predicate Completes(c: Conn, s: Step) {
    match s
    case Send(m, w) => c.status != Disconnected && Direct(c) && w == Wrote(|m|)
    case KeepAlive(w) => c.status == Connected && Direct(c) && w == Wrote(|HEARTBEAT|)
    case Writable(w) => c.writing && w == Wrote(|c.output|)
    case _ => false
  }

  function Completions(c: Conn, steps: seq<Step>): nat
    requires ValidRun(c, steps)
    decreases |steps|
  {
    if steps == [] then 0
    else (if Completes(c, steps[0]) then 1 else 0) + Completions(Next(c, steps[0]), steps[1..])
  }

  function WriteCompletes(notices: seq<Notice>): nat {
    if notices == [] then 0
    else WriteCompletes(notices[..|notices| - 1]) + if notices[|notices| - 1].WriteComplete? then 1 else 0
  }

  lemma NotifyCompletes(c: Conn, wanted: bool, n: Notice)
    ensures WriteCompletes(Notify(c, wanted, n).notices) ==
      WriteCompletes(c.notices) + if wanted && n.WriteComplete? then 1 else 0
  {
    assert (c.notices + [n])[..|c.notices|] == c.notices;
  }

  lemma BufferedCompletes(c: Conn, rest: seq<byte>)
    ensures WriteCompletes(Buffered(c, rest).notices) == WriteCompletes(c.notices)
    ensures Buffered(c, rest).onComplete == c.onComplete
  {
    var size := |c.output| + |rest|;
    NotifyCompletes(c, size >= c.mark && |c.output| < c.mark && c.onHighWater, HighWater(size));
  }

  lemma SendCompletes(c: Conn, m: seq<byte>, w: WriteResult)
    requires w.Wrote? ==> w.n <= |m|
    ensures var d := SendInLoop(c, m, w);
      && d.onComplete == c.onComplete
      && WriteCompletes(d.notices) ==
           WriteCompletes(c.notices) + if c.onComplete && Completes(c, Send(m, w)) then 1 else 0
  {
    if c.status != Disconnected && !(Direct(c) && w.Broken?) {
      var k := c.(kept := c.kept + [m]);
      if Direct(c) && w.Wrote? {
        var sent := k.(wire := k.wire + m[..w.n]);
        NotifyCompletes(sent, w.n == |m| && k.onComplete, WriteComplete);
        BufferedCompletes(Notify(sent, w.n == |m| && k.onComplete, WriteComplete), m[w.n..]);
      } else {
        BufferedCompletes(k, m);
      }
    }
  }

  lemma CompletesStep(c: Conn, s: Step)
    requires Enabled(c, s)
    ensures var d := Next(c, s);
      && d.onComplete == c.onComplete
      && WriteCompletes(d.notices) == WriteCompletes(c.notices) + if c.onComplete && Completes(c, s) then 1 else 0
  {
    match s {
      case Send(m, w) => SendCompletes(c, m, w);
      case KeepAlive(w) => SendCompletes(c, HEARTBEAT, w);
      case Writable(w) =>
        if c.writing && w == Wrote(|c.output|) {
          var d := c.(wire := c.wire + c.output[..w.n], output := c.output[w.n..]);
          NotifyCompletes(d.(writing := false), c.onComplete, WriteComplete);
        }
      case _ =>
    }
  }

  // With the callback set, over a run there are exactly as many write-complete notices as completing writes.
  lemma {:induction false} WriteCompleteCountsCompletions(c: Conn, steps: seq<Step>)
    requires ValidRun(c, steps)
    ensures WriteCompletes(Run(c, steps).notices) ==
      WriteCompletes(c.notices) + if c.onComplete then Completions(c, steps) else 0
    decreases |steps|
  {
    if steps != [] {
      CompletesStep(c, steps[0]);
      WriteCompleteCountsCompletions(Next(c, steps[0]), steps[1..]);
    }
  }
}
