/**
 * The UDP socket listener: the lifecycle and receive loop of
 * SNTPService/SocketListener.cs together with the UDP start-up of
 * SNTPService/UdpListener.cs, as one class whose methods update its fields
 * in place. Each method is proved against the pure functions of ListenerSpec.
 */
module Listener {
  import opened Wrappers
  import opened Net
  import opened ListenerSpec

  class UdpListener {
    var socket: Socket
    var thread: ListenerThread
    const sendBuffer: array<byte>

    var interfaceAddress: Option<IPAddress>
    var receiveTimeout: int
    var sendTimeout: int
    var listenBacklog: int
    var bufferSize: int
    var isActive: bool

    /** Every ClientConnected event raised, in order. */
    var raised: seq<ClientConnectedEventArgs>
    /** Every payload passed to the socket's Send, in order. */
    var sent: seq<seq<byte>>

    /**
     * The send buffer has its fixed size; a bound socket's port is a valid
     * port; an active listener has a socket that was bound (it may since
     * have been closed).
     */
    ghost predicate Valid()
      reads this
    {
      && sendBuffer.Length == SendBufferSize
      && (IsBound(socket) ==> MinPort <= socket.local.value.port <= MaxPort)
      && (isActive ==> IsBound(socket) || socket.Closed?)
    }

    /** A new listener is inactive, has no socket and uses the default settings. */
    constructor ()
      ensures Valid() && fresh(sendBuffer)
      ensures !isActive && socket == NoSocket && thread == NoThread
      ensures interfaceAddress == Some(Any)
      ensures bufferSize == 65535 && listenBacklog == 10
      ensures receiveTimeout == -1 && sendTimeout == -1
      ensures raised == [] && sent == []
    {
      socket := NoSocket;
      thread := NoThread;
      sendBuffer := new byte[SendBufferSize];
      interfaceAddress := Some(Any);
      bufferSize := 65535;
      isActive := false;
      listenBacklog := 10;
      receiveTimeout := -1;
      sendTimeout := -1;
      raised := [];
      sent := [];
    }

    /**
     * The port the socket is bound to; -1 when there is no socket. Reading
     * the local end point of an unbound or a closed socket throws.
     */
    function ActivePort(): (r: Outcome<int>)
      reads this
      requires Valid()
      ensures r == Returns(-1) <==> socket.NoSocket?
      ensures r.Returns? && r.value != -1 <==> IsBound(socket)
      ensures IsBound(socket) ==> r == Returns(socket.local.value.port)
    {
      match socket
      case NoSocket => Returns(-1)
      case Open(_, _, local, _, _) => if local.Some? then Returns(local.value.port) else Throws(OtherException)
      case Closed => Throws(OtherException)
    }

    /**
     * Stops the listener. On an inactive listener the InvalidOperationException
     * is caught and false returned. Otherwise the flag is cleared first; the
     * call then returns true only if logging the socket's local end point
     * succeeds, that is, if the socket is open and bound.
     */
    method Stop() returns (ok: bool)
      requires Valid()
      modifies this`isActive
      ensures Valid()
      ensures !isActive
      ensures ok <==> old(isActive) && IsBound(socket)
    {
      if !isActive {
        return false;
      }
      isActive := false;
      ok := IsBound(socket);
    }

    /** Dispose(disposing): stops an active listener when disposing, and always drops the thread. */
    method Dispose(disposing: bool)
      requires Valid()
      modifies this`isActive, this`thread
      ensures Valid()
      ensures isActive == (old(isActive) && !disposing)
      ensures thread == NoThread
    {
      if disposing {
        if isActive {
          var _ := Stop();
        }
      }
      thread := NoThread;
    }

    /**
     * Start(servicePort, allowBroadcast): the three checks, in order, then
     * socket setup. A check that fails throws (a Failure result) and changes
     * nothing; a setup step that throws makes Start return false.
     */
    method Start(servicePort: int, allowBroadcast: bool, script: SetupScript)
      returns (r: Result<bool, StartError>)
      requires Valid() && WellFormedSetup(script)
      modifies this`socket, this`isActive, this`thread
      ensures Valid()
      ensures var check := CheckStart(servicePort, old(isActive), interfaceAddress);
              check.Some? ==> r == Failure(check.value) && socket == old(socket)
                              && isActive == old(isActive) && thread == old(thread)
      ensures var check := CheckStart(servicePort, old(isActive), interfaceAddress);
              check.None? ==>
                var s := Setup(old(socket), old(thread), interfaceAddress.value, servicePort,
                               allowBroadcast, receiveTimeout, sendTimeout, script);
                r == Success(s.ok) && socket == s.socket && isActive == s.active && thread == s.thread
    {
      var check := CheckStart(servicePort, isActive, interfaceAddress);
      if check.Some? {
        return Failure(check.value);
      }
      var address := interfaceAddress.value;
      if script.failsAt == Some(CreateSocket) {
        return Success(false);
      }
      socket := Open(false, false, None, None, None);
      if script.failsAt == Some(SetReuseAddress) {
        return Success(false);
      }
      socket := socket.(reuseAddress := true);
      if allowBroadcast {
        if script.failsAt == Some(SetBroadcast) {
          return Success(false);
        }
        socket := socket.(broadcast := true);
      }
      if script.failsAt == Some(Bind) {
        return Success(false);
      }
      socket := socket.(local := Some(BoundEndPoint(address, servicePort, script)));
      if script.failsAt == Some(SetReceiveTimeout) {
        return Success(false);
      }
      socket := socket.(receiveTimeout := Some(receiveTimeout));
      if script.failsAt == Some(SetSendTimeout) {
        return Success(false);
      }
      socket := socket.(sendTimeout := Some(sendTimeout));
      isActive := true;
      thread := Created;
      if script.failsAt == Some(StartThread) {
        return Success(false);
      }
      thread := Running;
      return Success(true);
    }

    /** Closes the socket (HandleDisconnect); closing a closed socket changes nothing. */
    method HandleDisconnect()
      requires Valid() && !socket.NoSocket?
      modifies this`socket
      ensures Valid()
      ensures socket == Closed
    {
      socket := Closed;
    }

    /** One Read of the response stream from `pos` into the send buffer. */
    method ReadResponse(response: seq<byte>, pos: nat) returns (n: nat)
      requires Valid() && pos <= |response|
      modifies sendBuffer
      ensures n == Min(SendBufferSize, |response| - pos)
      ensures sendBuffer[..n] == response[pos..pos + n]
    {
      n := Min(sendBuffer.Length, |response| - pos);
      var i := 0;
      while i < n
        invariant 0 <= i <= n
        invariant sendBuffer[..i] == response[pos..pos + i]
      {
        sendBuffer[i] := response[pos + i];
        i := i + 1;
        assert sendBuffer[..i] == sendBuffer[..i - 1] + [sendBuffer[i - 1]];
      }
    }

    /**
     * Writes a response back on the socket: reads it chunk by chunk into the
     * send buffer and sends each chunk, until Read returns 0 or a Send throws.
     */
    method SendResponse(response: seq<byte>, sendFault: Option<SendFault>) returns (fault: Option<Fault>)
      requires Valid()
      modifies this`sent, sendBuffer
      ensures Valid()
      ensures sent == old(sent) + SentChunks(response, sendFault)
      ensures fault == if SendThrows(response, sendFault) then Some(sendFault.value.fault) else None
    {
      ghost var done: seq<seq<byte>> := [];
      var pos := 0;
      var count := 0;
      var n := ReadResponse(response, pos);
      while n > 0
        invariant 0 <= pos <= |response|
        invariant n == Min(SendBufferSize, |response| - pos)
        invariant sendBuffer[..n] == response[pos..pos + n]
        invariant sent == old(sent) + done && count == |done|
        invariant Chunks(response) == done + Chunks(response[pos..])
        invariant sendFault.Some? ==> count <= sendFault.value.chunk
        decreases |response| - pos
      {
        if sendFault.Some? && sendFault.value.chunk == count {
          SendStopsAt(response, sendFault, done, pos);
          return Some(sendFault.value.fault);
        }
        ChunksFrom(response, pos);
        var chunk := sendBuffer[..n];
        sent := sent + [chunk];
        done := done + [chunk];
        pos := pos + n;
        count := count + 1;
        n := ReadResponse(response, pos);
      }
      SendCompletes(response, sendFault, done);
      return None;
    }

    /**
     * One receive step: poll, check Available, receive one datagram, raise
     * ClientConnected, and write a response back if a subscriber denied the
     * connection. SocketExceptions are swallowed; any other exception closes
     * the socket.
     */
    method OnSocket(script: ReceiveScript)
      requires Valid() && !socket.NoSocket?
      modifies this`socket, this`raised, this`sent, sendBuffer
      ensures Valid()
      ensures var e := OnSocketEffect(old(socket).Open?, script);
              && raised == old(raised) + OptionToSeq(e.raised)
              && sent == old(sent) + e.sends
              && socket == (if e.closes then Closed else old(socket))
    {
      var fault: Option<Fault> := None;
      if !socket.Open? {
        // Poll on a disposed socket throws ObjectDisposedException
        fault := Some(OtherException);
      } else if script.poll.Throws? {
        fault := Some(script.poll.fault);
      } else if !script.poll.value {
        // not readable: sleep briefly and return
      } else if script.available.Throws? {
        fault := Some(script.available.fault);
      } else if script.available.value == 0 {
        // spurious readiness: nothing to read
      } else if script.receive.Throws? {
        fault := Some(script.receive.fault);
      } else if script.receive.value.count > 0 {
        raised := raised + [ConnectedArgs(script)];
        match script.verdict {
          case HandlerThrows(f) =>
            fault := Some(f);
          case Verdict(allowConnect, response) =>
            if !allowConnect && response.Some? {
              fault := SendResponse(response.value, script.sendFault);
            }
        }
      }
      if fault.Some? && fault.value.OtherException? {
        HandleDisconnect();
      }
    }

    /**
     * The listening loop (StartUdpListening): calls OnSocket while the
     * listener is active. Each round may end with another thread's Stop; the
     * loop observes the flag at its next check. Rounds bound the loop, which
     * in the source runs until the listener is stopped.
     */
    method StartUdpListening(rounds: seq<Round>) returns (iterations: nat)
      requires Valid()
      modifies this`socket, this`raised, this`sent, sendBuffer, this`isActive
      ensures Valid()
      ensures iterations == Iterations(old(isActive), rounds)
      ensures isActive == (old(isActive) && FirstStop(rounds) == |rounds|)
      ensures var t := Run(old(socket).Open?, rounds[..iterations]);
              && raised == old(raised) + t.raised
              && sent == old(sent) + t.sends
              && socket == (if iterations == 0 || t.open then old(socket) else Closed)
    {
      ghost var socket0 := socket;
      ghost var raised0 := raised;
      ghost var sent0 := sent;
      ghost var active0 := isActive;
      var i := 0;
      while isActive && i < |rounds|
        invariant Valid()
        invariant 0 <= i <= |rounds|
        invariant i > 0 ==> active0
        invariant isActive ==> active0 && i <= FirstStop(rounds)
        invariant !isActive ==> (i == 0 && !active0) || (FirstStop(rounds) < |rounds| && i == FirstStop(rounds) + 1)
        invariant var t := Run(socket0.Open?, rounds[..i]);
                  && raised == raised0 + t.raised
                  && sent == sent0 + t.sends
                  && socket == (if i == 0 || t.open then socket0 else Closed)
        decreases |rounds| - i
      {
        assert rounds[..i + 1][..i] == rounds[..i];
        OnSocket(rounds[i].script);
        if rounds[i].stopRequested {
          var _ := Stop();
        }
        i := i + 1;
      }
      iterations := i;
    }
  }
}
