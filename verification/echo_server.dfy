/** The echo server of the tests: its message callback as a method on objects. */
module EchoServers {
  import opened Basics
  import opened Buffers
  import opened TcpConnections
  import CM = ConnectionModel
  import Echo

  class EchoServer {
    /** Take everything out of the input buffer and send it back. */
    method UserDefineMessageCallback(conn: TcpConnection, buf: Buffer, reply: WriteOutcome)
      requires conn.Valid() && buf == conn.inputBuffer
      modifies conn`ledger, conn.channel, conn.channel.poller, conn.socket,
               conn.inputBuffer, conn.outputBuffer, conn.outputBuffer.data
      ensures conn.Valid() && conn.Others() == old(conn.Others())
      ensures conn.View() == CM.RunScript(old(conn.View()), Echo.EchoScript(old(conn.View()).input, reply))
      ensures conn.inputBuffer.contents == []
    {
      Echo.ScriptIsOneSend(conn.View(), reply);
      var msg := buf.RetrieveAllAsString();
      conn.RecordTaken(msg);
      assert conn.View() == CM.TakeAll(old(conn.View()));
      conn.Send(msg, reply);
    }
  }
}
