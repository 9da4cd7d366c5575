/**
 * The decisions of the SNTP service (SNTPService/SntpService.cs) as pure
 * functions: which datagrams are admitted, which requests are answered, and
 * what the answer holds.
 */
module ServicePolicy {
  import opened Wrappers
  import opened Net
  import opened SntpMessages
  import opened ListenerSpec

  /**
   * The protocol constants the service is built with. Their values are not
   * part of this model; the smallest admitted size does not exceed the largest.
   */
  datatype Constants = Constants(minMessageSize: int, maxMessageSize: int,
                                 receiveTimeout: int, sendTimeout: int)

  predicate ValidConstants(c: Constants)
  {
    c.minMessageSize <= c.maxMessageSize
  }

  /** The admission filter of OnClientConnect: a buffer, a live channel and a size within bounds. */
  predicate Admitted(args: ClientConnectedEventArgs, c: Constants): (admitted: bool)
    ensures admitted ==> args.channelBuffer.Some? && args.channel.isConnected
    ensures admitted ==> c.minMessageSize <= args.channelBuffer.value.bytesTransferred <= c.maxMessageSize
    // both bounds are inclusive
    ensures (&& ValidConstants(c) && args.channelBuffer.Some? && args.channel.isConnected
             && args.channelBuffer.value.bytesTransferred in {c.minMessageSize, c.maxMessageSize})
            ==> admitted
  {
    && args.channelBuffer.Some?
    && args.channel.isConnected
    && c.minMessageSize <= args.channelBuffer.value.bytesTransferred <= c.maxMessageSize
  }

  /**
   * The reply to a request, given the two clock readings taken while
   * building it. Only a Client-mode request is answered; every other mode,
   * an unknown mode and a missing (unparsable) request get no reply.
   */
  function Respond(request: Option<Message>, receiveNow: Instant, transmitNow: Instant): (r: Option<Message>)
    ensures r.Some? <==> request.Some? && request.value.mode == Client
    ensures r.Some? ==> && r.value.mode == Server
                        && r.value.stratum == Secondary
                        && r.value.referenceIdentifier == LOCL
                        && r.value.receiveTime == receiveNow
                        && r.value.transmitTime == transmitNow
    // every other field, the originate timestamp included, is the request's own
    ensures r.Some? ==> r.value.(mode := Client,
                                 stratum := request.value.stratum,
                                 referenceIdentifier := request.value.referenceIdentifier,
                                 receiveTime := request.value.receiveTime,
                                 transmitTime := request.value.transmitTime) == request.value
  {
    if request.Some? && request.value.mode.Client? then
      Some(request.value.(mode := Server,
                          receiveTime := receiveNow,
                          transmitTime := transmitNow,
                          stratum := Secondary,
                          referenceIdentifier := LOCL))
    else None
  }

  /** A reply is itself never answered: its mode is Server. */
  lemma ReplyIsNotAnswered(request: Option<Message>, t1: Instant, t2: Instant, t3: Instant, t4: Instant)
    ensures Respond(Respond(request, t1, t2), t3, t4) == None
  {
  }

  /**
   * Section 5 of RFC 4330 asks a server to copy the request's Transmit
   * Timestamp into the reply's Originate Timestamp; this service leaves the
   * request's Originate Timestamp in place, so the two differ whenever the
   * request's own timestamps do.
   */
  lemma OriginateIsNotTheRequestTransmitTime(request: Message, t1: Instant, t2: Instant)
    requires request.mode == Client && request.originateTime != request.transmitTime
    ensures Respond(Some(request), t1, t2).value.originateTime != request.transmitTime
  {
  }

  /**
   * What one ClientConnected event leads to: whether message-received was
   * raised, whether a work item was queued, the reply, and the exception a
   * message-received subscriber threw out of the ClientConnected handler.
   */
  datatype Handling = Handling(notified: bool, queued: bool, reply: Option<Message>, fault: Option<Fault>)

  /**
   * One datagram from admission to reply: the admission filter, parsing of
   * the whole buffer, the message-received notification and the work item
   * (both issued even when parsing failed), then the mode policy.
   * `notifyFault` is what a message-received subscriber throws, if anything;
   * that exception skips the work item and leaves the ClientConnected
   * handler, so the listener's receive step sees it as `HandlerThrows`.
   */
  function Handle(args: ClientConnectedEventArgs, c: Constants, parse: seq<byte> -> Option<Message>,
                  notifyFault: Option<Fault>, receiveNow: Instant, transmitNow: Instant): (h: Handling)
    ensures h.notified == Admitted(args, c)
    ensures h.queued <==> Admitted(args, c) && notifyFault.None?
    ensures h.fault.Some? <==> Admitted(args, c) && notifyFault.Some?
    ensures h.fault.Some? ==> h.fault == notifyFault
    ensures h.reply.Some? <==>
              && h.queued
              && parse(args.channelBuffer.value.buffer).Some?
              && parse(args.channelBuffer.value.buffer).value.mode == Client
    ensures h.reply.Some? ==> h.reply.value.mode == Server && h.reply.value.stratum == Secondary
  {
    if !Admitted(args, c) then Handling(false, false, None, None)
    else if notifyFault.Some? then Handling(true, false, None, notifyFault)
    else Handling(true, true, Respond(parse(args.channelBuffer.value.buffer), receiveNow, transmitNow), None)
  }

  /**
   * A datagram whose size is outside the bounds never reaches the parser:
   * its handling is the same whatever the parser and the message-received
   * subscribers do, and it is neither notified nor answered.
   */
  lemma SizeFilterKeepsParserOut(args: ClientConnectedEventArgs, c: Constants,
                                 p1: seq<byte> -> Option<Message>, p2: seq<byte> -> Option<Message>,
                                 f1: Option<Fault>, f2: Option<Fault>, t1: Instant, t2: Instant)
    requires args.channelBuffer.Some?
    requires !(c.minMessageSize <= args.channelBuffer.value.bytesTransferred <= c.maxMessageSize)
    ensures Handle(args, c, p1, f1, t1, t2) == Handle(args, c, p2, f2, t1, t2) == Handling(false, false, None, None)
  {
  }
}
