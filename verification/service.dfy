/**
 * The SNTP service (SNTPService/SntpService.cs): owns a UDP listener,
 * admits datagrams, queues one work item per admitted datagram and answers
 * Client-mode requests by turning the request object into the response.
 * Queued work items are processed by calling ProcessRequest; the clock
 * readings, the serialiser and whether SendTo throws are inputs.
 */
module Service {
  import opened Wrappers
  import opened Net
  import opened SntpMessages
  import opened ListenerSpec
  import opened Listener
  import opened MessageEventArgs
  import opened ServicePolicy

  class SntpService {
    const port: int
    const constants: Constants
    var interfaceAddress: Option<IPAddress>
    var listener: UdpListener?

    /** Arguments of every message-received notification, in order. */
    var received: seq<SntpMessageEventArgs>
    /** Work items queued for processing, in order. */
    var workItems: seq<SntpMessageEventArgs>
    /** Arguments of every message-sent notification, in order. */
    var sentNotices: seq<SntpMessageEventArgs>
    /** Every reply SendTo completed, in order. */
    var replies: seq<Datagram>

    ghost predicate Valid()
      reads this, listener
    {
      && ValidConstants(constants)
      && (listener != null ==> listener.Valid())
    }

    /** A service for `port`; it has no listener and no interface address until set. */
    constructor (port: int, constants: Constants)
      requires ValidConstants(constants)
      ensures Valid()
      ensures this.port == port && this.constants == constants
      ensures interfaceAddress == None && listener == null
      ensures received == [] && workItems == [] && sentNotices == [] && replies == []
    {
      this.port := port;
      this.constants := constants;
      interfaceAddress := None;
      listener := null;
      received := [];
      workItems := [];
      sentNotices := [];
      replies := [];
    }

    /**
     * Builds a new listener configured from the service and starts it on the
     * service's port with broadcast reception enabled. The listener's
     * exceptions propagate. Because the listener is new it is never already
     * active; an interface address left unset makes Start throw.
     */
    method Start(script: SetupScript) returns (r: Result<bool, StartError>)
      requires Valid() && WellFormedSetup(script)
      modifies this`listener
      ensures Valid()
      ensures fresh(listener)
      ensures listener.interfaceAddress == interfaceAddress
      ensures listener.bufferSize == constants.maxMessageSize
      ensures listener.receiveTimeout == constants.receiveTimeout
      ensures listener.sendTimeout == constants.sendTimeout
      ensures listener.raised == [] && listener.sent == [] && listener.listenBacklog == 10
      ensures r != Failure(AlreadyActive)
      ensures var check := CheckStart(port, false, interfaceAddress);
              check.Some? ==> && r == Failure(check.value) && !listener.isActive
                              && listener.socket == NoSocket && listener.thread == NoThread
      ensures var check := CheckStart(port, false, interfaceAddress);
              check.None? ==>
                var s := Setup(NoSocket, NoThread, interfaceAddress.value, port, true,
                               constants.receiveTimeout, constants.sendTimeout, script);
                && r == Success(s.ok) && listener.socket == s.socket
                && listener.isActive == s.active && listener.thread == s.thread
    {
      var l := new UdpListener();
      l.interfaceAddress := interfaceAddress;
      l.bufferSize := constants.maxMessageSize;
      l.receiveTimeout := constants.receiveTimeout;
      l.sendTimeout := constants.sendTimeout;
      listener := l;
      r := l.Start(port, true, script);
    }

    /** Stops the listener; with no listener (never started) the failure is caught and false returned. */
    method Stop() returns (ok: bool)
      requires Valid()
      modifies (if listener == null then {} else {listener})`isActive
      ensures Valid()
      ensures listener == null ==> !ok
      ensures listener != null ==>
                && !listener.isActive
                && listener.socket == old(listener.socket)
                && (ok <==> old(listener.isActive) && IsBound(listener.socket))
    {
      if listener == null {
        return false;
      }
      ok := listener.Stop();
    }

    /**
     * The ClientConnected subscriber: an admitted datagram gets a correlation
     * object (parsing the whole buffer), one message-received notification
     * and one work item; any other datagram is dropped without either. A
     * message-received subscriber that throws (`notifyFault`) skips the work
     * item, and its exception is returned to the caller, the listener's
     * receive step.
     */
    method OnClientConnect(args: ClientConnectedEventArgs, parse: seq<byte> -> Option<Message>,
                           notifyFault: Option<Fault>) returns (fault: Option<Fault>)
      modifies this`received, this`workItems
      ensures !Admitted(args, constants) ==>
                fault == None && received == old(received) && workItems == old(workItems)
      ensures Admitted(args, constants) ==>
                && fault == notifyFault
                && |received| == |old(received)| + 1
                && received[..|old(received)|] == old(received)
                && workItems == old(workItems) +
                     (if notifyFault.None? then [received[|old(received)|]] else [])
      ensures Admitted(args, constants) ==>
                var m := received[|old(received)|];
                && fresh(m) && (m.request != null ==> fresh(m.request))
                && m.channel == args.channel
                && m.channelBuffer == args.channelBuffer.value
                && m.response == null
                && m.RequestValue() == parse(args.channelBuffer.value.buffer)
    {
      fault := None;
      if Admitted(args, constants) {
        var m := new SntpMessageEventArgs(args.channel, args.channelBuffer.value, parse);
        received := received + [m];
        if notifyFault.Some? {
          return notifyFault;
        }
        workItems := workItems + [m];
      }
    }

    /**
     * Processes one work item. A Client-mode request object becomes the
     * response in place (mode, both timestamps from the two clock readings,
     * stratum, reference identifier) and is sent; anything else is left alone.
     */
    method ProcessRequest(args: SntpMessageEventArgs, receiveNow: Instant, transmitNow: Instant,
                          serialize: Message -> seq<byte>, sendSucceeds: bool)
      modifies args, args.request, this`sentNotices, this`replies
      ensures var reply := Respond(old(args.RequestValue()), receiveNow, transmitNow);
              reply.None? ==>
                && args.response == old(args.response)
                && args.RequestValue() == old(args.RequestValue())
                && sentNotices == old(sentNotices) && replies == old(replies)
      ensures var reply := Respond(old(args.RequestValue()), receiveNow, transmitNow);
              reply.Some? ==>
                && args.response == args.request
                && args.RequestValue() == reply
                && replies == old(replies) +
                     (if sendSucceeds then [Datagram(serialize(reply.value), args.channel.remoteEndpoint)] else [])
                && sentNotices == old(sentNotices) + (if sendSucceeds then [args] else [])
    {
      if args.request != null {
        match args.request.mode {
          case Client =>
            var m := args.request;
            args.response := m;
            m.mode := Server;
            m.receiveTime := receiveNow;
            m.transmitTime := transmitNow;
            m.stratum := Secondary;
            m.referenceIdentifier := LOCL;
            SendReply(args, serialize, sendSucceeds);
          case Broadcast =>
          case Reserved =>
          case ReservedNTPControl =>
          case ReservedPrivate =>
          case Server =>
          case SymmetricActive =>
          case SymmetricPassive =>
          case Unknown(_) =>
            // logged and ignored
        }
      }
    }

    /**
     * One datagram through the service: the ClientConnected subscriber, then
     * the work item it queued, processed with the given clock readings. What
     * is notified, queued, sent and thrown is what `Handle` describes.
     */
    method ServeDatagram(args: ClientConnectedEventArgs, parse: seq<byte> -> Option<Message>,
                         notifyFault: Option<Fault>, receiveNow: Instant, transmitNow: Instant,
                         serialize: Message -> seq<byte>, sendSucceeds: bool)
      returns (fault: Option<Fault>)
      modifies this`received, this`workItems, this`sentNotices, this`replies
      ensures var h := Handle(args, constants, parse, notifyFault, receiveNow, transmitNow);
              && fault == h.fault
              && |received| == |old(received)| + (if h.notified then 1 else 0)
              && |workItems| == |old(workItems)| + (if h.queued then 1 else 0)
              && replies == old(replies) +
                   (if h.reply.Some? && sendSucceeds
                    then [Datagram(serialize(h.reply.value), args.channel.remoteEndpoint)] else [])
              && |sentNotices| == |old(sentNotices)| + (if h.reply.Some? && sendSucceeds then 1 else 0)
      ensures var h := Handle(args, constants, parse, notifyFault, receiveNow, transmitNow);
              && (!h.notified ==> received == old(received))
              && (!h.queued ==> workItems == old(workItems))
              && (!(h.reply.Some? && sendSucceeds) ==> sentNotices == old(sentNotices))
      ensures var h := Handle(args, constants, parse, notifyFault, receiveNow, transmitNow);
              h.notified ==>
                var m := received[|old(received)|];
                && received[..|old(received)|] == old(received)
                && workItems == old(workItems) + (if h.queued then [m] else [])
                && m.channel == args.channel
                && (h.reply.Some? ==> m.response == m.request && m.RequestValue() == h.reply)
                && (h.reply.Some? && sendSucceeds ==> sentNotices == old(sentNotices) + [m])
    {
      var before := |received|;
      fault := OnClientConnect(args, parse, notifyFault);
      if fault.None? && |received| > before {
        var m := received[before];
        ProcessRequest(m, receiveNow, transmitNow, serialize, sendSucceeds);
      }
    }

    /**
     * Sends the serialised response to the request's sender and raises
     * message-sent; if SendTo throws, the exception is caught and neither happens.
     */
    method SendReply(args: SntpMessageEventArgs, serialize: Message -> seq<byte>, sendSucceeds: bool)
      requires args.response != null
      modifies this`sentNotices, this`replies
      ensures replies == old(replies) +
                (if sendSucceeds then [Datagram(serialize(args.response.Value()), args.channel.remoteEndpoint)] else [])
      ensures sentNotices == old(sentNotices) + (if sendSucceeds then [args] else [])
    {
      if sendSucceeds {
        replies := replies + [Datagram(serialize(args.response.Value()), args.channel.remoteEndpoint)];
        sentNotices := sentNotices + [args];
      }
    }
  }
}
