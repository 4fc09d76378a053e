/** The output side of a connection in the form of the source: an object that owns a Buffer. */
module TcpConnections {
  import opened Bytes
  import opened Buffers
  import opened OutputModel
  import opened OutputTheorems

  class TcpConnection {
    var status: Status
    var writing: bool
    const outputBuffer: Buffer
    var fin: bool
    var shutdowns: nat
    var closes: nat
    var mark: nat
    var onComplete: bool
    var onHighWater: bool
    ghost var wire: seq<byte>
    ghost var kept: seq<seq<byte>>
    var notices: seq<Notice>

    ghost function Abs(): Conn
      reads this, outputBuffer, outputBuffer.data
      requires outputBuffer.Valid()
    {
      Conn(status, writing, outputBuffer.Contents(), wire, fin, kept, notices, shutdowns, closes,
           mark, onComplete, onHighWater)
    }

    ghost predicate Valid()
      reads this, outputBuffer, outputBuffer.data
    {
      outputBuffer.Valid() && Inv(Abs())
    }

    constructor (mark: nat, onComplete: bool, onHighWater: bool)
      ensures Valid() && Abs() == Fresh(mark, onComplete, onHighWater)
      ensures fresh(outputBuffer) && fresh(outputBuffer.data)
    {
      var buffer := new Buffer(INITIAL_SIZE);
      outputBuffer := buffer;
      status, writing, fin, shutdowns, closes := Connecting, false, false, 0, 0;
      this.mark, this.onComplete, this.onHighWater := mark, onComplete, onHighWater;
      wire, kept, notices := [], [], [];
    }

    method Notify(wanted: bool, n: Notice)
      requires outputBuffer.Valid()
      modifies this`notices
      ensures outputBuffer.Valid() && Abs() == OutputModel.Notify(old(Abs()), wanted, n)
    {
      if wanted {
        notices := notices + [n];
      }
    }

    // The second half of sendInLoop
    method KeepRest(rest: seq<byte>)
      requires outputBuffer.Valid()
      modifies this`notices, this`writing, outputBuffer, outputBuffer.data
      ensures outputBuffer.Valid() && Abs() == Buffered(old(Abs()), rest)
      ensures fresh(outputBuffer.data) || outputBuffer.data == old(outputBuffer.data)
    {
      if |rest| > 0 {
        var oldLen := outputBuffer.Readable();
        Notify(oldLen + |rest| >= mark && oldLen < mark && onHighWater, HighWater(oldLen + |rest|));
        outputBuffer.Append(rest);
        if !writing {
          writing := true;
        }
      }
    }

    // TcpConnection::sendInLoop; `w` is what write returns if it is called.
    method SendInLoop(m: seq<byte>, w: WriteResult)
      requires Valid() && KernelOk(Abs(), w, |m|)
      modifies this, outputBuffer, outputBuffer.data
      ensures Valid() && Abs() == OutputModel.SendInLoop(old(Abs()), m, w)
      ensures fresh(outputBuffer.data) || outputBuffer.data == old(outputBuffer.data)
    {
      SendInv(Abs(), m, w);
      SendOrKeep(m, w);
    }

    // The body of sendInLoop
    method SendOrKeep(m: seq<byte>, w: WriteResult)
      requires outputBuffer.Valid() && (w.Wrote? ==> w.n <= |m|)
      modifies this`wire, this`kept, this`notices, this`writing, outputBuffer, outputBuffer.data
      ensures outputBuffer.Valid() && Abs() == OutputModel.SendInLoop(old(Abs()), m, w)
      ensures fresh(outputBuffer.data) || outputBuffer.data == old(outputBuffer.data)
    {
      if status == Disconnected {
        return;
      }
      var nwrote, faultError := 0, false;
      if !writing && outputBuffer.Readable() == 0 {
        nwrote, faultError := WriteDirectly(m, w);
      } else {
        kept := kept + [m];
      }
      if !faultError {
        assert m[0..] == m;
        KeepRest(m[nwrote..]);
      }
    }

    // The direct write of sendInLoop
    method WriteDirectly(m: seq<byte>, w: WriteResult) returns (nwrote: nat, faultError: bool)
      requires outputBuffer.Valid() && (w.Wrote? ==> w.n <= |m|)
      modifies this`wire, this`kept, this`notices
      ensures outputBuffer.Valid() && (faultError <==> w.Broken?)
      ensures nwrote == if w.Wrote? then w.n else 0
      ensures var c := old(Abs()); var k := c.(kept := c.kept + [m]);
        Abs() == if w.Broken? then c
                 else if w.Wrote? then
                   OutputModel.Notify(k.(wire := c.wire + m[..w.n]), w.n == |m| && c.onComplete, WriteComplete)
                 else k
    {
      nwrote, faultError := 0, false;
      match w {
        case Wrote(n) =>
          nwrote := n;
          wire := wire + m[..n];
          kept := kept + [m];
          Notify(n == |m| && onComplete, WriteComplete);
        case Broken => faultError := true;
        case WouldBlock => kept := kept + [m];
        case Failed => kept := kept + [m];
      }
    }

    // TcpConnection::handleClose
    method HandleClose()
      requires outputBuffer.Valid() && Streams(Abs())
      modifies this`status, this`writing
      ensures Valid() && Abs() == OutputModel.HandleClose(old(Abs()))
    {
      status := Disconnected;
      writing := false;
    }

    // TcpConnection::shutdownInLoop, for a functor that was queued by shutdown
    method ShutdownInLoop()
      requires outputBuffer.Valid()
      modifies this`fin
      ensures outputBuffer.Valid() && Abs() == OutputModel.ShutdownInLoop(old(Abs()))
    {
      if !writing {
        fin := true;
      }
    }

    // TcpConnection::handleWrite
    method HandleWrite(w: WriteResult)
      requires Valid() && Enabled(Abs(), Writable(w))
      modifies this, outputBuffer, outputBuffer.data
      ensures Valid() && Abs() == OutputModel.HandleWrite(old(Abs()), w)
      ensures outputBuffer.data == old(outputBuffer.data)
    {
      WriteInv(Abs(), w);
      if writing {
        if w.Wrote? {
          Drain(w.n);
        } else if w.Broken? {
          HandleClose();
        }
      }
    }

    // The branch of handleWrite in which write took n bytes
    method Drain(n: nat)
      requires outputBuffer.Valid() && writing && 0 < n <= |outputBuffer.Contents()|
      modifies this, outputBuffer
      ensures outputBuffer.Valid() && Abs() == OutputModel.HandleWrite(old(Abs()), Wrote(n))
      ensures outputBuffer.data == old(outputBuffer.data)
    {
      ghost var output := outputBuffer.Contents();
      outputBuffer.Retrieve(n);
      assert outputBuffer.Contents() == output[n..];
      wire := wire + output[..n];
      if outputBuffer.Readable() == 0 {
        writing := false;
        Notify(onComplete, WriteComplete);
        if status == Disconnecting {
          ShutdownInLoop();
        }
      }
    }

    // TcpConnection::shutdown on the loop thread, where the functor runs at once
    method Shutdown()
      requires Valid()
      modifies this`status, this`fin
      ensures Valid()
      ensures var c := Next(old(Abs()), Step.Shutdown);
        Abs() == if old(status) == Connected then Next(c, ShutdownQueued) else c
      ensures if old(status) == Connected
        then status == Disconnecting && (fin <==> old(fin) || outputBuffer.Contents() == [])
        else status == old(status) && fin == old(fin)
    {
      InvStep(Abs(), Step.Shutdown);
      if status == Connected {
        InvStep(Next(Abs(), Step.Shutdown), ShutdownQueued);
        status := Disconnecting;
        ShutdownInLoop();
      }
    }

    // TcpConnection::forceClose on the loop thread
    method ForceClose()
      requires Valid()
      modifies this`status, this`writing
      ensures Valid()
      ensures var c := Next(old(Abs()), Step.ForceClose);
        Abs() == if old(status) == Connected || old(status) == Disconnecting then Next(c, ForceCloseQueued) else c
      ensures if old(status) == Connecting then Abs() == old(Abs()) else status == Disconnected && !writing
    {
      if status == Connected || status == Disconnecting {
        status := Disconnecting;
        HandleClose();
      }
    }

    // TcpConnection::onKeepAliveTimeout
    method OnKeepAliveTimeout(w: WriteResult)
      requires Valid() && Enabled(Abs(), KeepAlive(w))
      modifies this, outputBuffer, outputBuffer.data
      ensures Valid() && Abs() == Next(old(Abs()), KeepAlive(w))
      ensures fresh(outputBuffer.data) || outputBuffer.data == old(outputBuffer.data)
    {
      if status == Connected {
        SendInLoop(HEARTBEAT, w);
      }
    }
  }
}
