/**
 * The decisions of the socket listener (SNTPService/SocketListener.cs and
 * SNTPService/UdpListener.cs) as pure functions over what the socket
 * reports. Socket calls are not modelled as behaviour: each call's outcome
 * (a value, or the exception it throws) is an input.
 */
module ListenerSpec {
  import opened Wrappers
  import opened Net

  /** The capacity of the listener's fixed send buffer. */
  const SendBufferSize := 1460

  // ---------------------------------------------------------------------
  // Socket state and exceptions
  // ---------------------------------------------------------------------

  /**
   * The listener's socket: none yet, an open socket with the options set so
   * far and the local end point once bound, or a closed (disposed) socket.
   */
  datatype Socket =
    | NoSocket
    | Open(reuseAddress: bool, broadcast: bool, local: Option<EndPoint>,
           receiveTimeout: Option<int>, sendTimeout: Option<int>)
    | Closed

  predicate IsBound(s: Socket) {
    s.Open? && s.local.Some?
  }

  datatype SocketError = ConnectionReset | OtherSocketError(code: int)

  /** An exception: a SocketException with its error code, or any other exception. */
  datatype Fault = SocketException(error: SocketError) | OtherException

  /** What one call did: returned a value or threw. */
  datatype Outcome<+T> = Returns(value: T) | Throws(fault: Fault)

  // ---------------------------------------------------------------------
  // One receive step (OnSocket)
  // ---------------------------------------------------------------------

  /** What ReceiveFrom left behind: the buffer's contents, its return value and the sender. */
  datatype Received = Received(buffer: seq<byte>, count: nat, from: EndPoint)

  /**
   * What the ClientConnected subscribers left in the event arguments
   * (AllowConnect and an optional Response stream), or the exception one of
   * them threw.
   */
  datatype HandlerVerdict =
    | Verdict(allowConnect: bool, response: Option<seq<byte>>)
    | HandlerThrows(fault: Fault)

  /** The `chunk`-th Send call (counting from 0) throws `fault`. */
  datatype SendFault = SendFault(chunk: nat, fault: Fault)

  /**
   * The outcomes of the socket calls one OnSocket call makes, in order,
   * plus the identity and liveness of the channel the event arguments carry.
   */
  datatype ReceiveScript = ReceiveScript(
    poll: Outcome<bool>,
    available: Outcome<nat>,
    receive: Outcome<Received>,
    channelId: nat,
    channelConnected: bool,
    verdict: HandlerVerdict,
    sendFault: Option<SendFault>)

  /**
   * The observable effect of one OnSocket call: the ClientConnected event it
   * raised, the payloads it passed to Send, whether it slept, and whether it
   * closed the socket.
   */
  datatype StepEffect = StepEffect(
    raised: Option<ClientConnectedEventArgs>,
    sends: seq<seq<byte>>,
    slept: bool,
    closes: bool)

  function Min(a: int, b: int): (m: int)
    ensures m <= a && m <= b && (m == a || m == b)
  {
    if a <= b then a else b
  }

  /** A response stream read into the send buffer: the successive chunks Read returns. */
  function Chunks(s: seq<byte>): (r: seq<seq<byte>>)
    ensures r == [] <==> s == []
    decreases |s|
  {
    if |s| == 0 then []
    else
      var n := Min(SendBufferSize, |s|);
      [s[..n]] + Chunks(s[n..])
  }

  function Flatten(cs: seq<seq<byte>>): (r: seq<byte>)
  {
    if cs == [] then [] else cs[0] + Flatten(cs[1..])
  }

  /** The chunks of a suffix: the next buffer-sized piece, then the chunks after it. */
  lemma ChunksFrom(s: seq<byte>, pos: nat)
    requires pos < |s|
    ensures var n := Min(SendBufferSize, |s| - pos);
            Chunks(s[pos..]) == [s[pos..pos + n]] + Chunks(s[pos + n..])
  {
    var n := Min(SendBufferSize, |s| - pos);
    assert s[pos..][..n] == s[pos..pos + n];
    assert s[pos..][n..] == s[pos + n..];
  }

  /** Reading the response in buffer-sized chunks loses nothing, and every chunk fits the buffer. */
  lemma {:induction false} ChunksReassemble(s: seq<byte>)
    ensures Flatten(Chunks(s)) == s
    ensures |Chunks(s)| == (|s| + SendBufferSize - 1) / SendBufferSize
    ensures forall i :: 0 <= i < |Chunks(s)| ==> 0 < |Chunks(s)[i]| <= SendBufferSize
    decreases |s|
  {
    if |s| > 0 {
      var n := Min(SendBufferSize, |s|);
      ChunksReassemble(s[n..]);
      assert s[..n] + s[n..] == s;
    }
  }

  /** Whether the Send loop over `response` throws before it finishes. */
  predicate SendThrows(response: seq<byte>, sendFault: Option<SendFault>)
  {
    sendFault.Some? && sendFault.value.chunk < |Chunks(response)|
  }

  /** A Send that throws while chunks remain ends the write-back after the chunks already sent. */
  lemma SendStopsAt(response: seq<byte>, sendFault: Option<SendFault>, done: seq<seq<byte>>, pos: nat)
    requires pos < |response| && Chunks(response) == done + Chunks(response[pos..])
    requires sendFault.Some? && sendFault.value.chunk == |done|
    ensures SendThrows(response, sendFault) && SentChunks(response, sendFault) == done
  {
    assert Chunks(response)[..|done|] == done;
  }

  /** When the whole response has been read, every chunk was sent unless a Send threw earlier. */
  lemma SendCompletes(response: seq<byte>, sendFault: Option<SendFault>, done: seq<seq<byte>>)
    requires Chunks(response) == done + Chunks(response[|response|..])
    requires sendFault.Some? ==> |done| <= sendFault.value.chunk
    ensures !SendThrows(response, sendFault) && SentChunks(response, sendFault) == done
  {
    assert response[|response|..] == [];
  }

  /** The chunks actually sent: all of them, or those before the Send that throws. */
  function SentChunks(response: seq<byte>, sendFault: Option<SendFault>): (r: seq<seq<byte>>)
    ensures r <= Chunks(response)
    ensures !SendThrows(response, sendFault) ==> r == Chunks(response)
    ensures SendThrows(response, sendFault) ==> |r| == sendFault.value.chunk
  {
    if SendThrows(response, sendFault) then Chunks(response)[..sendFault.value.chunk]
    else Chunks(response)
  }

  /** The event arguments built for a received datagram. */
  function ConnectedArgs(s: ReceiveScript): (args: ClientConnectedEventArgs)
    requires s.receive.Returns?
  {
    var r := s.receive.value;
    ClientConnectedEventArgs(
      SocketChannel(s.channelId, r.from, s.channelConnected),
      Some(SocketBuffer(r.buffer, r.count)))
  }

  /**
   * An exception caught in OnSocket: a SocketException is swallowed (whether
   * or not it is ConnectionReset) and the socket stays open; any other
   * exception goes to HandleDisconnect, which closes the socket.
   */
  function Failed(raised: Option<ClientConnectedEventArgs>, sends: seq<seq<byte>>, f: Fault): (e: StepEffect)
  {
    StepEffect(raised, sends, false, f.OtherException?)
  }

  /**
   * The exception thrown by the call that actually ran and threw on an open
   * socket, if any: Poll, Available, ReceiveFrom, a ClientConnected
   * subscriber, or the Send that fails while writing a response back.
   */
  function ThrownFault(s: ReceiveScript): (f: Option<Fault>)
    ensures s.poll.Throws? ==> f == Some(s.poll.fault)
    ensures s.poll == Returns(false) ==> f.None?
  {
    match s.poll
    case Throws(f) => Some(f)
    case Returns(readable) =>
      if !readable then None
      else match s.available
        case Throws(f) => Some(f)
        case Returns(available) =>
          if available == 0 then None
          else match s.receive
            case Throws(f) => Some(f)
            case Returns(received) =>
              if received.count == 0 then None
              else match s.verdict
                case HandlerThrows(f) => Some(f)
                case Verdict(allowConnect, response) =>
                  if allowConnect || response.None? then None
                  else if SendThrows(response.value, s.sendFault) then Some(s.sendFault.value.fault)
                  else None
  }

  /** The call that threw, if any, threw a SocketException. */
  predicate OnlySocketExceptions(s: ReceiveScript)
  {
    ThrownFault(s).Some? ==> ThrownFault(s).value.SocketException?
  }

  /**
   * One OnSocket call on an open (`open`) or closed socket. On a closed
   * socket Poll throws ObjectDisposedException, which is not a
   * SocketException, so the call ends in HandleDisconnect.
   */
  function OnSocketEffect(open: bool, s: ReceiveScript): (r: StepEffect)
    // ClientConnected is raised at most once, exactly when Poll reports
    // readable, Available is non-zero and ReceiveFrom returned a positive count
    ensures r.raised.Some? <==>
              open && s.poll == Returns(true)
              && s.available.Returns? && s.available.value != 0
              && s.receive.Returns? && s.receive.value.count > 0
    ensures r.raised.Some? ==> r.raised == Some(ConnectedArgs(s))
    // readable but nothing available: nothing received, nothing raised
    ensures open && s.poll == Returns(true) && s.available == Returns(0) ==> r == StepEffect(None, [], false, false)
    ensures r.slept <==> open && s.poll == Returns(false)
    ensures r.slept ==> r.raised.None? && r.sends == [] && !r.closes
    // a response is written back only when a subscriber denied the connection and supplied one
    ensures r.sends != [] ==>
              && r.raised.Some? && s.verdict.Verdict? && !s.verdict.allowConnect
              && s.verdict.response.Some?
              && r.sends <= Chunks(s.verdict.response.value)
    ensures r.raised.Some? && s.verdict.Verdict? && !s.verdict.allowConnect && s.verdict.response.Some? ==>
              r.sends == SentChunks(s.verdict.response.value, s.sendFault)
    // the socket is closed exactly when the call that threw threw something
    // other than a SocketException; a closed socket is closed again
    ensures r.closes <==> !open || (ThrownFault(s).Some? && ThrownFault(s).value.OtherException?)
    ensures open && OnlySocketExceptions(s) ==> !r.closes
    ensures !open ==> r == StepEffect(None, [], false, true)
    ensures open && s.poll.Throws? ==> r == StepEffect(None, [], false, s.poll.fault.OtherException?)
  {
    if !open then Failed(None, [], OtherException)
    else match s.poll
      case Throws(f) => Failed(None, [], f)
      case Returns(readable) =>
        if !readable then StepEffect(None, [], true, false)
        else match s.available
          case Throws(f) => Failed(None, [], f)
          case Returns(available) =>
            if available == 0 then StepEffect(None, [], false, false)
            else match s.receive
              case Throws(f) => Failed(None, [], f)
              case Returns(received) =>
                if received.count == 0 then StepEffect(None, [], false, false)
                else
                  var args := Some(ConnectedArgs(s));
                  match s.verdict
                  case HandlerThrows(f) => Failed(args, [], f)
                  case Verdict(allowConnect, response) =>
                    if allowConnect || response.None? then StepEffect(args, [], false, false)
                    else
                      var sent := SentChunks(response.value, s.sendFault);
                      if SendThrows(response.value, s.sendFault) then Failed(args, sent, s.sendFault.value.fault)
                      else StepEffect(args, sent, false, false)
  }

  // ---------------------------------------------------------------------
  // The listening loop (StartUdpListening)
  // ---------------------------------------------------------------------

  /**
   * One iteration of the listening loop: the OnSocket call's script and
   * whether another thread called Stop while it ran.
   */
  datatype Round = Round(script: ReceiveScript, stopRequested: bool)

  /** All events raised, all payloads sent, and whether the socket is still open. */
  datatype RunTrace = RunTrace(raised: seq<ClientConnectedEventArgs>, sends: seq<seq<byte>>, open: bool)

  /** The effect of running OnSocket for each round in turn, from an open or closed socket. */
  function Run(open: bool, rounds: seq<Round>): (t: RunTrace)
    ensures t.open ==> open
    decreases |rounds|
  {
    if rounds == [] then RunTrace([], [], open)
    else Extend(Run(open, rounds[..|rounds| - 1]), rounds[|rounds| - 1])
  }

  /** A trace extended by one more OnSocket call. */
  function Extend(t: RunTrace, round: Round): (t': RunTrace)
    ensures t'.open ==> t.open
  {
    var e := OnSocketEffect(t.open, round.script);
    RunTrace(t.raised + OptionToSeq(e.raised), t.sends + e.sends, t.open && !e.closes)
  }

  /** Extending a trace appends the step's events and sends after the earlier ones. */
  lemma ExtendAfter(p: RunTrace, q: RunTrace, round: Round)
    ensures Extend(RunTrace(p.raised + q.raised, p.sends + q.sends, q.open), round)
         == RunTrace(p.raised + Extend(q, round).raised, p.sends + Extend(q, round).sends, Extend(q, round).open)
  {
    var e := OnSocketEffect(q.open, round.script);
    assert (p.raised + q.raised) + OptionToSeq(e.raised) == p.raised + (q.raised + OptionToSeq(e.raised));
    assert (p.sends + q.sends) + e.sends == p.sends + (q.sends + e.sends);
  }

  /** The index of the first round in which Stop is called, or the number of rounds. */
  function FirstStop(rounds: seq<Round>): (k: nat)
    ensures k <= |rounds|
    ensures forall j :: 0 <= j < k ==> !rounds[j].stopRequested
    ensures k < |rounds| ==> rounds[k].stopRequested
  {
    if rounds == [] then 0
    else if rounds[0].stopRequested then 0
    else 1 + FirstStop(rounds[1..])
  }

  /** How many times the loop calls OnSocket: none when inactive, else up to and including the round that stops it. */
  function Iterations(active: bool, rounds: seq<Round>): (n: nat)
    ensures n <= |rounds|
    ensures !active ==> n == 0
    ensures active && FirstStop(rounds) < |rounds| ==> n > 0 && rounds[n - 1].stopRequested
    ensures forall j :: 0 <= j < n - 1 ==> !rounds[j].stopRequested
    ensures active && FirstStop(rounds) == |rounds| ==> n == |rounds|
  {
    if !active then 0
    else if FirstStop(rounds) < |rounds| then FirstStop(rounds) + 1
    else |rounds|
  }

  /** Each iteration raises ClientConnected at most once. */
  lemma {:induction false} RunRaisesAtMostOncePerRound(open: bool, rounds: seq<Round>)
    ensures |Run(open, rounds).raised| <= |rounds|
    decreases |rounds|
  {
    if rounds != [] {
      RunRaisesAtMostOncePerRound(open, rounds[..|rounds| - 1]);
    }
  }

  /**
   * Once HandleDisconnect has closed the socket the loop keeps going while
   * the listener is active, but no iteration receives, raises or sends
   * anything again.
   */
  lemma {:induction false} ClosedSocketStaysSilent(rounds: seq<Round>)
    ensures Run(false, rounds) == RunTrace([], [], false)
    decreases |rounds|
  {
    if rounds != [] {
      ClosedSocketStaysSilent(rounds[..|rounds| - 1]);
    }
  }

  /** Running two stretches of rounds one after the other is running them together. */
  lemma {:induction false} RunAppend(open: bool, a: seq<Round>, b: seq<Round>)
    ensures var p := Run(open, a);
            var q := Run(p.open, b);
            Run(open, a + b) == RunTrace(p.raised + q.raised, p.sends + q.sends, q.open)
    decreases |b|
  {
    if b == [] {
      assert a + b == a;
    } else {
      var b', last := b[..|b| - 1], b[|b| - 1];
      assert (a + b)[..|a + b| - 1] == a + b';
      assert (a + b)[|a + b| - 1] == last;
      RunAppend(open, a, b');
      var p := Run(open, a);
      ExtendAfter(p, Run(p.open, b'), last);
    }
  }

  /**
   * A socket closed in some round stays closed: every later round raises
   * nothing and sends nothing, so the whole run is the run up to that round.
   */
  lemma RunStaysClosed(open: bool, rounds: seq<Round>, k: nat)
    requires k <= |rounds| && !Run(open, rounds[..k]).open
    ensures Run(open, rounds) == Run(open, rounds[..k])
  {
    assert rounds == rounds[..k] + rounds[k..];
    RunAppend(open, rounds[..k], rounds[k..]);
    ClosedSocketStaysSilent(rounds[k..]);
  }

  /** When every exception the socket throws is a SocketException, the socket is never closed. */
  lemma {:induction false} SocketExceptionsKeepSocketOpen(rounds: seq<Round>)
    requires forall i :: 0 <= i < |rounds| ==> OnlySocketExceptions(rounds[i].script)
    ensures Run(true, rounds).open
    decreases |rounds|
  {
    if rounds != [] {
      SocketExceptionsKeepSocketOpen(rounds[..|rounds| - 1]);
    }
  }

  // ---------------------------------------------------------------------
  // Starting the UDP listener (UdpListener.Start)
  // ---------------------------------------------------------------------

  /**
   * The exceptions Start throws before touching any state:
   * ArgumentOutOfRangeException for the port, InvalidOperationException when
   * already active or when no interface address is set.
   */
  datatype StartError = PortOutOfRange | AlreadyActive | InterfaceAddressUnset

  /** The validation at the head of Start, in the source's order; the first failing check decides. */
  function CheckStart(port: int, active: bool, interfaceAddress: Option<IPAddress>): (r: Option<StartError>)
    ensures r.None? <==> MinPort <= port <= MaxPort && !active && interfaceAddress.Some?
    ensures !(MinPort <= port <= MaxPort) ==> r == Some(PortOutOfRange)
    ensures r == Some(AlreadyActive) <==> MinPort <= port <= MaxPort && active
    ensures r == Some(InterfaceAddressUnset) <==> MinPort <= port <= MaxPort && !active && interfaceAddress.None?
  {
    if port > MaxPort || port < MinPort then Some(PortOutOfRange)
    else if active then Some(AlreadyActive)
    else if interfaceAddress.None? then Some(InterfaceAddressUnset)
    else None
  }

  /** The steps of socket setup, in order; any of them may throw. */
  datatype SetupStep =
    | CreateSocket
    | SetReuseAddress
    | SetBroadcast
    | Bind
    | SetReceiveTimeout
    | SetSendTimeout
    | StartThread

  /**
   * The setup step that throws, if any, and the port the operating system
   * assigns when asked to bind port 0.
   */
  datatype SetupScript = SetupScript(failsAt: Option<SetupStep>, ephemeralPort: int)

  predicate WellFormedSetup(script: SetupScript)
  {
    MinPort < script.ephemeralPort <= MaxPort
  }

  /** The listener thread: none, created but not started, or running the listening loop. */
  datatype ListenerThread = NoThread | Created | Running

  /** The state setup leaves behind, and Start's return value. */
  datatype SetupResult = SetupResult(socket: Socket, active: bool, thread: ListenerThread, ok: bool)

  /** Whether the step that the script makes throw is actually executed. */
  predicate SetupThrows(script: SetupScript, allowBroadcast: bool)
  {
    script.failsAt.Some? && (script.failsAt.value == SetBroadcast ==> allowBroadcast)
  }

  /** The local end point Bind gives the socket. */
  function BoundEndPoint(address: IPAddress, port: int, script: SetupScript): (ep: EndPoint)
  {
    EndPoint(address, if port == 0 then script.ephemeralPort else port)
  }

  /**
   * Socket setup inside Start's try block. An exception is caught and Start
   * returns false; state assigned before the throwing step stays assigned.
   */
  function Setup(prior: Socket, priorThread: ListenerThread, address: IPAddress, port: int,
                 allowBroadcast: bool, receiveTimeout: int, sendTimeout: int,
                 script: SetupScript): (r: SetupResult)
    ensures r.ok <==> !SetupThrows(script, allowBroadcast)
    ensures r.ok ==> r == SetupResult(
                           Open(true, allowBroadcast, Some(BoundEndPoint(address, port, script)),
                                Some(receiveTimeout), Some(sendTimeout)),
                           true, Running, true)
    // the listener is marked active only once the socket is bound and configured
    ensures r.active <==> r.ok || script.failsAt == Some(StartThread)
    ensures r.active ==> r.socket == Open(true, allowBroadcast, Some(BoundEndPoint(address, port, script)),
                                          Some(receiveTimeout), Some(sendTimeout))
    ensures !r.active ==> r.thread == priorThread
    ensures script.failsAt == Some(CreateSocket) ==> r.socket == prior
  {
    var fails := (step: SetupStep) => script.failsAt == Some(step);
    var created := Open(false, false, None, None, None);
    if fails(CreateSocket) then SetupResult(prior, false, priorThread, false)
    else if fails(SetReuseAddress) then SetupResult(created, false, priorThread, false)
    else
      var reused := created.(reuseAddress := true);
      if allowBroadcast && fails(SetBroadcast) then SetupResult(reused, false, priorThread, false)
      else
        var optioned := reused.(broadcast := allowBroadcast);
        if fails(Bind) then SetupResult(optioned, false, priorThread, false)
        else
          var bound := optioned.(local := Some(BoundEndPoint(address, port, script)));
          if fails(SetReceiveTimeout) then SetupResult(bound, false, priorThread, false)
          else
            var withReceive := bound.(receiveTimeout := Some(receiveTimeout));
            if fails(SetSendTimeout) then SetupResult(withReceive, false, priorThread, false)
            else
              var configured := withReceive.(sendTimeout := Some(sendTimeout));
              if fails(StartThread) then SetupResult(configured, true, Created, false)
              else SetupResult(configured, true, Running, true)
  }
}
