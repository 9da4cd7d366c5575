/**
 * The request/response correlation object of one datagram
 * (SNTPService/SntpMessageEventArgs.cs): the channel, the raw buffer, the
 * parsed request (null when parsing failed) and, once computed, the response.
 */
module MessageEventArgs {
  import opened Wrappers
  import opened Net
  import opened SntpMessages

  /** The exception thrown for a null constructor argument, with the parameter's name. */
  datatype ArgumentNullException = ArgumentNullException(paramName: string)

  class SntpMessageEventArgs {
    /** Set once by the constructor (private setters in the source). */
    const channel: SocketChannel
    const channelBuffer: SocketBuffer
    const request: SntpMessage?
    /** Public setter; assigned by the request handler. */
    var response: SntpMessage?

    /**
     * Captures the channel and the buffer, then runs the parser over the
     * whole buffer. A parse failure is caught: the object is still built,
     * with no request.
     */
    constructor (channel: SocketChannel, data: SocketBuffer, parse: seq<byte> -> Option<Message>)
      ensures this.channel == channel && channelBuffer == data
      ensures response == null
      ensures request == null <==> parse(data.buffer).None?
      ensures request != null ==> fresh(request) && request.Value() == parse(data.buffer).value
    {
      this.channel := channel;
      channelBuffer := data;
      var parsed := parse(data.buffer);
      if parsed.Some? {
        request := new SntpMessage(parsed.value);
      } else {
        request := null;
      }
      response := null;
    }

    /**
     * The constructor as the source declares it, with nullable arguments:
     * a null channel is refused first, then a null buffer.
     */
    static method Create(channel: Option<SocketChannel>, data: Option<SocketBuffer>,
                         parse: seq<byte> -> Option<Message>)
      returns (r: Result<SntpMessageEventArgs, ArgumentNullException>)
      ensures channel.None? ==> r == Failure(ArgumentNullException("channel"))
      ensures channel.Some? && data.None? ==> r == Failure(ArgumentNullException("data"))
      ensures r.Success? <==> channel.Some? && data.Some?
      ensures r.Success? ==> fresh(r.value)
      ensures r.Success? ==> r.value.channel == channel.value && r.value.channelBuffer == data.value
      ensures r.Success? ==> r.value.response == null
      ensures r.Success? ==> (r.value.request == null <==> parse(data.value.buffer).None?)
      ensures r.Success? && r.value.request != null ==> r.value.request.Value() == parse(data.value.buffer).value
    {
      if channel.None? {
        return Failure(ArgumentNullException("channel"));
      }
      if data.None? {
        return Failure(ArgumentNullException("data"));
      }
      var args := new SntpMessageEventArgs(channel.value, data.value, parse);
      return Success(args);
    }

    /** The parsed request's current field values, or `None` when parsing failed. */
    function RequestValue(): (m: Option<Message>)
      reads this, request
      ensures m.Some? <==> request != null
    {
      if request == null then None else Some(request.Value())
    }
  }
}
