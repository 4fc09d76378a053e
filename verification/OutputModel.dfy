/**
 The output side of a TCP connection: direct and buffered writes, partial writes, faults,
 half-close, forced close, heartbeats and backlog notices.  What the kernel's write does is
 a parameter of the step.
 */
module OutputModel {
  import opened Bytes

  datatype Status = Connecting | Connected | Disconnecting | Disconnected

  // A write takes some bytes, would block, fails with EPIPE or ECONNRESET, or fails otherwise.
  datatype WriteResult = Wrote(n: nat) | WouldBlock | Broken | Failed

  datatype Notice = WriteComplete | HighWater(size: nat)

  datatype Conn = Conn(
    status: Status,
    writing: bool,            // the channel is interested in EPOLLOUT
    output: seq<byte>,        // outputBuffer_
    wire: seq<byte>,          // what the kernel has taken
    fin: bool,                // shutdownWrite has been called
    kept: seq<seq<byte>>,     // the messages sendInLoop did not drop
    notices: seq<Notice>,     // callbacks queued so far
    shutdowns: nat,           // queued shutdownInLoop functors
    closes: nat,              // queued forceCloseInLoop functors
    mark: nat,                // highWaterMark_
    onComplete: bool,         // writeCompleteCallback_ is set
    onHighWater: bool)        // highWaterMarkCallback_ is set

  const HEARTBEAT: seq<byte> := [72, 69, 65, 82, 84, 66, 69, 65, 84]

  function Notify(c: Conn, wanted: bool, n: Notice): Conn {
    if wanted then c.(notices := c.notices + [n]) else c
  }

  predicate Direct(c: Conn) {
    !c.writing && c.output == []
  }

  // The part of sendInLoop that keeps what write did not take
  function Buffered(c: Conn, rest: seq<byte>): Conn {
    if rest == [] then c else
    var size := |c.output| + |rest|;
    Notify(c, size >= c.mark && |c.output| < c.mark && c.onHighWater, HighWater(size))
      .(output := c.output + rest, writing := true)
  }

  // TcpConnection::sendInLoop
  function SendInLoop(c: Conn, m: seq<byte>, w: WriteResult): Conn
    requires w.Wrote? ==> w.n <= |m|
  {
    if c.status == Disconnected then c
    else if Direct(c) && w.Broken? then c
    else
      var c := c.(kept := c.kept + [m]);
      if Direct(c) && w.Wrote? then
        Buffered(Notify(c.(wire := c.wire + m[..w.n]), w.n == |m| && c.onComplete, WriteComplete), m[w.n..])
      else Buffered(c, m)
  }

  // TcpConnection::handleClose, as far as output is concerned
  function HandleClose(c: Conn): Conn {
    c.(status := Disconnected, writing := false)
  }

  // TcpConnection::shutdownInLoop
  function ShutdownInLoop(c: Conn): Conn {
    if c.writing then c else c.(fin := true)
  }

  // TcpConnection::handleWrite
  function HandleWrite(c: Conn, w: WriteResult): Conn
    requires w.Wrote? ==> w.n <= |c.output|
  {
    if !c.writing then c
    else if w.Wrote? then
      var d := c.(wire := c.wire + c.output[..w.n], output := c.output[w.n..]);
      if d.output != [] then d
      else
        var e := Notify(d.(writing := false), c.onComplete, WriteComplete);
        if c.status == Disconnecting then ShutdownInLoop(e) else e
    else if w.Broken? then HandleClose(c)
    else c
  }

  datatype Step =
    | Establish                              // connectEstablished
    | Send(m: seq<byte>, w: WriteResult)     // sendInLoop, from send or a queued send
    | KeepAlive(w: WriteResult)              // onKeepAliveTimeout
    | Writable(w: WriteResult)               // handleWrite
    | Hangup                                 // handleClose from the channel
    | Shutdown                               // the check and set in shutdown
    | ShutdownQueued                         // its shutdownInLoop
    | ForceClose                             // the check and set in forceClose
    | ForceCloseQueued                       // its forceCloseInLoop
    | Destroy                                // connectDestroyed

  // After a half-close the kernel answers every write with EPIPE.
  predicate KernelOk(c: Conn, w: WriteResult, len: nat) {
    (w.Wrote? ==> w.n <= len) && (c.fin ==> w == Broken)
  }

  predicate Enabled(c: Conn, s: Step) {
    match s
    case Establish => c.status == Connecting
    case Send(m, w) => KernelOk(c, w, |m|)
    case KeepAlive(w) => KernelOk(c, w, |HEARTBEAT|)
    case Writable(w) => KernelOk(c, w, |c.output|) && w != Wrote(0)
    case ShutdownQueued => c.shutdowns > 0
    case ForceCloseQueued => c.closes > 0
    case _ => true
  }

  function Next(c: Conn, s: Step): Conn
    requires Enabled(c, s)
  {
    match s
    case Establish => c.(status := Connected)
    case Send(m, w) => SendInLoop(c, m, w)
    case KeepAlive(w) => if c.status == Connected then SendInLoop(c, HEARTBEAT, w) else c
    case Writable(w) => HandleWrite(c, w)
    case Hangup => HandleClose(c)
    case Shutdown => if c.status == Connected then c.(status := Disconnecting, shutdowns := c.shutdowns + 1) else c
    case ShutdownQueued => ShutdownInLoop(c.(shutdowns := c.shutdowns - 1))
    case ForceClose =>
      if c.status == Connected || c.status == Disconnecting
      then c.(status := Disconnecting, closes := c.closes + 1) else c
    case ForceCloseQueued =>
      var c := c.(closes := c.closes - 1);
      if c.status == Connected || c.status == Disconnecting then HandleClose(c) else c
    case Destroy => if c.status == Connected then HandleClose(c) else c
  }

  predicate ValidRun(c: Conn, steps: seq<Step>)
    decreases |steps|
  {
    steps == [] || (Enabled(c, steps[0]) && ValidRun(Next(c, steps[0]), steps[1..]))
  }

  function Run(c: Conn, steps: seq<Step>): Conn
    requires ValidRun(c, steps)
    decreases |steps|
  {
    if steps == [] then c else Run(Next(c, steps[0]), steps[1..])
  }

  function Fresh(mark: nat, onComplete: bool, onHighWater: bool): Conn {
    Conn(Connecting, false, [], [], false, [], [], 0, 0, mark, onComplete, onHighWater)
  }
}
