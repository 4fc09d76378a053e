/** What a run does to a connection's output, read off the sequence of its steps. */
module OutputHistory {
  import opened Bytes
  import opened Sequences
  import opened OutputModel
  import opened OutputTheorems

  // ---------- the connection's state ----------

  // The steps after which the connection is disconnected
  predicate Disconnects(c: Conn, s: Step) {
    || s == Hangup
    || (s == Writable(Broken) && c.output != [])
    || s == ForceCloseQueued
    || (s == Destroy && c.status == Connected)
  }

  predicate Closed(c: Conn, steps: seq<Step>)
    requires ValidRun(c, steps)
    decreases |steps|
  {
    c.status == Disconnected || (steps != [] && (Disconnects(c, steps[0]) || Closed(Next(c, steps[0]), steps[1..])))
  }

  // shutdown or forceClose is called on an established connection
  predicate Asked(established: bool, steps: seq<Step>)
    decreases |steps|
  {
    steps != [] && (
      || (established && (steps[0].Shutdown? || steps[0].ForceClose?))
      || Asked(established || steps[0].Establish?, steps[1..]))
  }

  // A forced close is queued only on a connection that is established.
  predicate Started(c: Conn) {
    c.closes > 0 || c.shutdowns > 0 ==> c.status != Connecting
  }

  lemma StatusStep(c: Conn, s: Step)
    requires Inv(c) && Started(c) && Enabled(c, s)
    ensures var d := Next(c, s);
      && Started(d)
      && d.status ==
        if c.status == Disconnected || Disconnects(c, s) then Disconnected
        else if c.status == Connected && (s.Shutdown? || s.ForceClose?) then Disconnecting
        else if s.Establish? then Connected else c.status
  {
    if s.Send? {
      SendKeepsStatus(c, s.m, s.w);
    } else if s.KeepAlive? {
      SendKeepsStatus(c, HEARTBEAT, s.w);
    }
  }

  lemma SendKeepsStatus(c: Conn, m: seq<byte>, w: WriteResult)
    requires w.Wrote? ==> w.n <= |m|
    ensures var d := SendInLoop(c, m, w);
      d.status == c.status && d.shutdowns == c.shutdowns && d.closes == c.closes && d.fin == c.fin
  {
  }

  lemma {:induction false} StatusRun(c: Conn, steps: seq<Step>)
    requires Inv(c) && Started(c) && ValidRun(c, steps)
    ensures Run(c, steps).status ==
      if Closed(c, steps) then Disconnected
      else if c.status == Disconnecting || Asked(c.status == Connected, steps) then Disconnecting
      else if c.status == Connected || Establish in steps then Connected else Connecting
    decreases |steps|
  {
    if steps != [] {
      var s := steps[0];
      InvStep(c, s);
      StatusStep(c, s);
      StatusRun(Next(c, s), steps[1..]);
      assert steps == [s] + steps[1..];
    }
  }

  // In every run the state is what the steps make it: disconnected by a hangup, a broken buffered write, a forced
  // close or the destruction of a connected one; else closing once shutdown or forceClose was called after the
  // connection was established; else connected once it was.
  lemma StatusIsTheHistory(mark: nat, onComplete: bool, onHighWater: bool, steps: seq<Step>)
    requires ValidRun(Fresh(mark, onComplete, onHighWater), steps)
    ensures var c := Fresh(mark, onComplete, onHighWater);
      Run(c, steps).status ==
        if Closed(c, steps) then Disconnected
        else if Asked(false, steps) then Disconnecting
        else if Establish in steps then Connected else Connecting
  {
    StatusRun(Fresh(mark, onComplete, onHighWater), steps);
  }

  // ---------- shutdown and forceClose take effect ----------

  predicate Leaving(c: Conn) {
    c.status == Disconnecting || c.status == Disconnected
  }

  lemma {:induction false} LeavingRun(c: Conn, steps: seq<Step>)
    requires Leaving(c) && ValidRun(c, steps)
    ensures Leaving(Run(c, steps))
    decreases |steps|
  {
    if steps != [] {
      LeavingRun(Next(c, steps[0]), steps[1..]);
    }
  }

  // However the run goes on after shutdown was called on a connected connection: it is never connected again,
  // and unless it gets disconnected, once the queued functors have run the FIN is out if and only if every kept
  // byte is on the wire.
  lemma ShutdownIsCarriedOut(c: Conn, steps: seq<Step>)
    requires Inv(c) && c.status == Connected && ValidRun(Next(c, Shutdown), steps)
    ensures var r := Run(Next(c, Shutdown), steps);
      && (r.status == Disconnecting || r.status == Disconnected)
      && (r.status != Disconnected && r.shutdowns == 0 && r.closes == 0 ==> (r.fin <==> r.wire == Concat(r.kept)))
  {
    InvStep(c, Shutdown);
    LeavingRun(Next(c, Shutdown), steps);
    InvRun(Next(c, Shutdown), steps);
    var r := Run(Next(c, Shutdown), steps);
    if r.output == [] {
      assert r.wire + [] == r.wire;
    } else {
      assert |r.wire| < |Concat(r.kept)|;
    }
  }

  predicate Forced(c: Conn) {
    c.status == Disconnected || (c.status == Disconnecting && c.closes > 0)
  }

  lemma {:induction false} ForcedRun(c: Conn, steps: seq<Step>)
    requires Forced(c) && ValidRun(c, steps)
    ensures Forced(Run(c, steps))
    decreases |steps|
  {
    if steps != [] {
      ForcedRun(Next(c, steps[0]), steps[1..]);
    }
  }

  // After forceClose on a connected or closing connection it is never connected again, and it is disconnected
  // once a queued forceCloseInLoop has run.
  lemma ForceCloseIsCarriedOut(c: Conn, steps: seq<Step>)
    requires c.status == Connected || c.status == Disconnecting
    requires ValidRun(Next(c, ForceClose), steps)
    ensures var r := Run(Next(c, ForceClose), steps);
      && (r.status == Disconnecting || r.status == Disconnected)
      && (r.closes == 0 || ForceCloseQueued in steps ==> r.status == Disconnected)
  {
    ForcedRun(Next(c, ForceClose), steps);
    if ForceCloseQueued in steps {
      RunsForced(Next(c, ForceClose), steps);
    }
  }

  lemma {:induction false} RunsForced(c: Conn, steps: seq<Step>)
    requires Forced(c) && ValidRun(c, steps) && (ForceCloseQueued in steps || c.status == Disconnected)
    ensures Run(c, steps).status == Disconnected
    decreases |steps|
  {
    if steps != [] {
      assert steps == [steps[0]] + steps[1..];
      RunsForced(Next(c, steps[0]), steps[1..]);
    }
  }

  function Times(s: Step, steps: seq<Step>): nat {
    if steps == [] then 0 else (if steps[0] == s then 1 else 0) + Times(s, steps[1..])
  }

  // The calls that queue a functor: shutdown while connected, forceClose while connected or closing
  function Shutdowns(c: Conn, steps: seq<Step>): nat
    requires ValidRun(c, steps)
    decreases |steps|
  {
    if steps == [] then 0
    else (if steps[0] == Shutdown && c.status == Connected then 1 else 0) + Shutdowns(Next(c, steps[0]), steps[1..])
  }

  function ForceCloses(c: Conn, steps: seq<Step>): nat
    requires ValidRun(c, steps)
    decreases |steps|
  {
    if steps == [] then 0
    else
      (if steps[0] == ForceClose && (c.status == Connected || c.status == Disconnecting) then 1 else 0)
      + ForceCloses(Next(c, steps[0]), steps[1..])
  }

  lemma ShutdownsStep(c: Conn, s: Step)
    requires Enabled(c, s)
    ensures Next(c, s).shutdowns == c.shutdowns
      + (if s == Shutdown && c.status == Connected then 1 else 0) - (if s == ShutdownQueued then 1 else 0)
  {
    if s.Send? {
      SendKeepsStatus(c, s.m, s.w);
    } else if s.KeepAlive? {
      SendKeepsStatus(c, HEARTBEAT, s.w);
    }
  }

  lemma ClosesStep(c: Conn, s: Step)
    requires Enabled(c, s)
    ensures Next(c, s).closes == c.closes
      + (if s == ForceClose && (c.status == Connected || c.status == Disconnecting) then 1 else 0)
      - (if s == ForceCloseQueued then 1 else 0)
  {
    if s.Send? {
      SendKeepsStatus(c, s.m, s.w);
    } else if s.KeepAlive? {
      SendKeepsStatus(c, HEARTBEAT, s.w);
    }
  }

  // Every functor that shutdown and forceClose queue runs once: none is lost, none is made up.
  lemma {:induction false} FunctorsAreConserved(c: Conn, steps: seq<Step>)
    requires ValidRun(c, steps)
    ensures Run(c, steps).shutdowns + Times(ShutdownQueued, steps) == c.shutdowns + Shutdowns(c, steps)
    ensures Run(c, steps).closes + Times(ForceCloseQueued, steps) == c.closes + ForceCloses(c, steps)
    decreases |steps|
  {
    if steps != [] {
      ShutdownsStep(c, steps[0]);
      ClosesStep(c, steps[0]);
      FunctorsAreConserved(Next(c, steps[0]), steps[1..]);
    }
  }

  // ---------- what is sent ----------

  // The message a step offers to the peer: a heartbeat only while connected
  function Offered(c: Conn, s: Step): seq<seq<byte>> {
    match s
    case Send(m, _) => [m]
    case KeepAlive(_) =>
      if c.status == Connected then [[72, 69, 65, 82, 84, 66, 69, 65, 84]] else []  // "HEARTBEAT"
    case _ => []
  }

  // It is dropped when the connection is disconnected or, with nothing waiting, the write is broken.
  function Accepted(c: Conn, s: Step): seq<seq<byte>> {
    if c.status == Disconnected || ((s.Send? || s.KeepAlive?) && s.w == Broken && c.output == []) then []
    else Offered(c, s)
  }

  function AllAccepted(c: Conn, steps: seq<Step>): seq<seq<byte>>
    requires ValidRun(c, steps)
    decreases |steps|
  {
    if steps == [] then [] else Accepted(c, steps[0]) + AllAccepted(Next(c, steps[0]), steps[1..])
  }

  lemma AcceptedStep(c: Conn, s: Step)
    requires Inv(c) && Enabled(c, s)
    ensures Next(c, s).kept == c.kept + Accepted(c, s)
  {
    match s {
      case Send(m, w) => SendWholeOrNothing(c, m, w);
      case KeepAlive(w) => SendWholeOrNothing(c, HEARTBEAT, w);
      case _ =>
    }
  }

  lemma {:induction false} KeptIsAccepted(c: Conn, steps: seq<Step>)
    requires Inv(c) && ValidRun(c, steps)
    ensures Run(c, steps).kept == c.kept + AllAccepted(c, steps)
    decreases |steps|
  {
    hide Inv, Next, Enabled, Accepted;
    if steps != [] {
      InvStep(c, steps[0]);
      AcceptedStep(c, steps[0]);
      var now, later := Accepted(c, steps[0]), AllAccepted(Next(c, steps[0]), steps[1..]);
      KeptIsAccepted(Next(c, steps[0]), steps[1..]);
      assert c.kept + now + later == c.kept + (now + later);
    }
  }

  // How many bytes the kernel takes in a step: a message is written at once only when nothing waits.
  function Taken(c: Conn, s: Step): nat {
    match s
    case Send(_, Wrote(n)) => if c.status != Disconnected && c.output == [] then n else 0
    case KeepAlive(Wrote(n)) => if c.status == Connected && c.output == [] then n else 0
    case Writable(Wrote(n)) => if c.status != Disconnected then n else 0
    case _ => 0
  }

  function AllTaken(c: Conn, steps: seq<Step>): nat
    requires ValidRun(c, steps)
    decreases |steps|
  {
    if steps == [] then 0 else Taken(c, steps[0]) + AllTaken(Next(c, steps[0]), steps[1..])
  }

  lemma TakenStep(c: Conn, s: Step)
    requires Inv(c) && Enabled(c, s)
    ensures |Next(c, s).wire| == |c.wire| + Taken(c, s)
  {
    if s.Send? && c.status != Disconnected && !(Direct(c) && s.w.Broken?) {
      SendBytes(c, s.m, s.w);
    } else if s.KeepAlive? && c.status == Connected && !(Direct(c) && s.w.Broken?) {
      SendBytes(c, HEARTBEAT, s.w);
    }
  }

  lemma {:induction false} TakenRun(c: Conn, steps: seq<Step>)
    requires Inv(c) && ValidRun(c, steps)
    ensures |Run(c, steps).wire| == |c.wire| + AllTaken(c, steps)
    decreases |steps|
  {
    if steps != [] {
      InvStep(c, steps[0]);
      TakenStep(c, steps[0]);
      TakenRun(Next(c, steps[0]), steps[1..]);
    }
  }

  // In every run the wire holds as many bytes as the kernel took, and they are the first bytes of the messages
  // accepted, in order; the rest of those messages is the backlog.
  lemma WireIsAccepted(mark: nat, onComplete: bool, onHighWater: bool, steps: seq<Step>)
    requires ValidRun(Fresh(mark, onComplete, onHighWater), steps)
    ensures var c := Fresh(mark, onComplete, onHighWater);
      var r := Run(c, steps);
      var all := Concat(AllAccepted(c, steps));
      AllTaken(c, steps) <= |all| && r.wire == all[..AllTaken(c, steps)] && r.output == all[AllTaken(c, steps)..]
  {
    var c := Fresh(mark, onComplete, onHighWater);
    InvRun(c, steps);
    KeptIsAccepted(c, steps);
    TakenRun(c, steps);
    var r := Run(c, steps);
    assert [] + AllAccepted(c, steps) == AllAccepted(c, steps);
    assert (r.wire + r.output)[..|r.wire|] == r.wire && (r.wire + r.output)[|r.wire|..] == r.output;
  }

  // ---------- the FIN ----------

  // The steps that send the FIN: a queued shutdownInLoop that finds no backlog, or finds the connection
  // disconnected, and the handleWrite that drains the backlog of a closing connection
  predicate SendsFin(c: Conn, s: Step) {
    || (s == ShutdownQueued && (c.output == [] || c.status == Disconnected))
    || (s == Writable(Wrote(|c.output|)) && c.output != [] && c.status == Disconnecting)
  }

  predicate FinSent(c: Conn, steps: seq<Step>)
    requires ValidRun(c, steps)
    decreases |steps|
  {
    c.fin || (steps != [] && (SendsFin(c, steps[0]) || FinSent(Next(c, steps[0]), steps[1..])))
  }

  lemma FinStepIff(c: Conn, s: Step)
    requires Inv(c) && Enabled(c, s)
    ensures Next(c, s).fin <==> c.fin || SendsFin(c, s)
  {
    if s.Send? {
      SendKeepsStatus(c, s.m, s.w);
    } else if s.KeepAlive? {
      SendKeepsStatus(c, HEARTBEAT, s.w);
    }
  }

  lemma {:induction false} FinIffSent(c: Conn, steps: seq<Step>)
    requires Inv(c) && ValidRun(c, steps)
    ensures Run(c, steps).fin <==> FinSent(c, steps)
    decreases |steps|
  {
    if steps != [] {
      InvStep(c, steps[0]);
      FinStepIff(c, steps[0]);
      FinIffSent(Next(c, steps[0]), steps[1..]);
    }
  }

  // ---------- callbacks that are not set ----------

  lemma QuietStep(c: Conn, s: Step)
    requires Enabled(c, s) && !c.onHighWater
    ensures var d := Next(c, s); !d.onHighWater && (d.notices == c.notices || d.notices == c.notices + [WriteComplete])
  {
  }

  // Without the high-water callback no high-water notice is ever queued.
  lemma {:induction false} NoCallbackNoNotice(c: Conn, steps: seq<Step>)
    requires ValidRun(c, steps) && !c.onHighWater
    ensures HighWaters(Run(c, steps).notices) == HighWaters(c.notices)
    decreases |steps|
  {
    if steps != [] {
      QuietStep(c, steps[0]);
      assert (c.notices + [WriteComplete])[..|c.notices|] == c.notices;
      NoCallbackNoNotice(Next(c, steps[0]), steps[1..]);
    }
  }
}
