# SNTP service: a verified model of the listener and the request handler

This project models the core of a small SNTP responder written in C#: a
UDP socket listener that runs a polling receive loop and raises a
ClientConnected event for each datagram, and the SNTP service that admits
datagrams by size, parses them into a request/response correlation object,
queues each for processing, answers Client-mode requests by turning the
request message into the response in place, and sends the reply.

Modules:

- `Wrappers` (wrappers.dfy): `Option` for null, `Result` for a call that throws.
- `Net` (net.dfy): bytes, addresses, end points, the channel and the receive buffer of one datagram, the ClientConnected event arguments.
- `SntpMessages` (sntp_message.dfy): the message's header fields as a value (`Message`) and as an object with settable fields (`SntpMessage`). The wire codec is not part of this model.
- `ListenerSpec` (listener_spec.dfy): the listener's decisions as pure functions over the outcomes of the socket calls: one receive step (`OnSocketEffect`), the chunked write-back of a response (`Chunks`), the listening loop (`Run`), the ordered start-up checks (`CheckStart`) and socket setup (`Setup`), with lemmas about them.
- `Listener` (listener.dfy): class `UdpListener`, the state the C# `SocketListener` and `UdpListener` update in place (socket, thread, `IsActive`, settings, the 1460-byte send buffer), with methods proved against `ListenerSpec`. The abstract base class and its one subclass are one class here.
- `MessageEventArgs` (message_event_args.dfy): class `SntpMessageEventArgs`, the correlation object.
- `ServicePolicy` (service_policy.dfy): admission, the mode policy and the reply's fields as pure functions, with lemmas.
- `Service` (service.dfy): class `SntpService`, proved against `ServicePolicy`.

Socket calls, the clock and the parser are inputs. A `ReceiveScript` gives,
for one receive step, what Poll, Available, ReceiveFrom, the event's
subscribers and each Send did (a value or an exception); a `SetupScript`
names the setup step that throws, if any; the listening loop takes a
sequence of rounds, each a script and whether another thread called Stop
meanwhile. The clock is two `Instant` arguments (the handler reads the
clock twice), parsing is an opaque `seq<byte> -> Option<Message>` and
serialising an opaque `Message -> seq<byte>`. The size constants are a
`Constants` value with the minimum not above the maximum.

Behaviour as the code has it, where one might expect otherwise:

- `Stop` clears `IsActive` before it logs the socket's local end point; when the socket is missing, unbound or already closed that logging throws, the exception is caught, and `Stop` returns false although the listener is now stopped.
- Every SocketException in the receive step is swallowed, ConnectionReset or not. Any other exception goes to `HandleDisconnect`, which closes the socket but neither clears `IsActive` nor raises ClientDisconnected. The loop therefore keeps running; each later round fails on the closed socket and closes it again, and nothing more is received or sent (`ClosedSocketStaysSilent`, `RunStaysClosed`).
- The receive step catches every exception, so the loop's own catch, the only place ClientDisconnected is raised, is never reached; the model has no such event.
- The message-received notification and the work item are issued for every admitted datagram, also when parsing failed and the request is null. A message-received subscriber that throws skips the work item; its exception leaves the ClientConnected handler and reaches the receive step, which closes the socket unless it is a SocketException.
- The reply keeps the request's originate timestamp instead of copying the request's transmit timestamp there as section 5 of RFC 4330 asks (`OriginateIsNotTheRequestTransmitTime`).
- The service's `InterfaceAddress` is null until set, and its `Start` passes it to a new listener, so an unset address makes `Start` throw.

## Model

| member | source | states |
|---|---|---|
| Listener.UdpListener.constructor | SNTPService/SocketListener.cs:33-41 | a new listener is inactive, has no socket and no thread, interface address Any, buffer size 65535, backlog 10, both timeouts -1 |
| Listener.UdpListener.ActivePort | SNTPService/SocketListener.cs:24-31 | -1 exactly when there is no socket; the bound port when the socket is bound; throws for an unbound or closed socket |
| Listener.UdpListener.Stop | SNTPService/SocketListener.cs:71-87 | never throws; afterwards the listener is inactive; returns true only if it was active and its socket is open and bound |
| Listener.UdpListener.Dispose | SNTPService/SocketListener.cs:54-64 | disposing stops an active listener; the thread reference is cleared either way |
| Listener.UdpListener.Start | SNTPService/UdpListener.cs:23-62 | a failed check throws the check's error and changes nothing; otherwise the new socket, flag and thread are those of `Setup` and the result is its success flag |
| Listener.UdpListener.HandleDisconnect | SNTPService/SocketListener.cs:169-179 | closes the socket and changes nothing else |
| Listener.UdpListener.ReadResponse | SNTPService/SocketListener.cs:115 | one Read copies the next min(1460, remaining) response bytes to the front of the send buffer |
| Listener.UdpListener.SendResponse | SNTPService/SocketListener.cs:113-118 | the payloads sent are exactly the response's chunks up to the Send that throws, and that Send's exception is returned |
| Listener.UdpListener.OnSocket | SNTPService/SocketListener.cs:93-140 | the events raised, payloads sent and socket state are those `OnSocketEffect` gives for the current socket |
| Listener.UdpListener.StartUdpListening | SNTPService/UdpListener.cs:67-80 | the loop calls OnSocket once per round while active, stops after the first round that calls Stop, and its events, sends and socket are those of `Run` over those rounds |
| ListenerSpec.OnSocketEffect | SNTPService/SocketListener.cs:93-140 | ClientConnected is raised at most once, exactly when poll is readable, Available is non-zero and ReceiveFrom returned a positive count; readable with nothing available does nothing; a response is written back only when a subscriber denied the connection and gave one; the socket is closed exactly when it was already closed or the call that threw threw something other than a SocketException |
| ListenerSpec.SentChunks | SNTPService/SocketListener.cs:115-117 | the chunks sent are a prefix of the response's chunks: all of them, or as many as precede the Send that throws |
| ListenerSpec.ChunksReassemble | SNTPService/SocketListener.cs:113-118 | the chunks put together give back the whole response, there are ceil(n/1460) of them, and each holds 1 to 1460 bytes |
| ListenerSpec.Run | SNTPService/UdpListener.cs:67-80 | a loop entered with a closed socket ends with it closed |
| ListenerSpec.RunAppend | SNTPService/UdpListener.cs:67-80 | running the rounds of two stretches one after the other raises the events and sends of the first stretch followed by those of the second, and ends with the second's socket state |
| ListenerSpec.RunStaysClosed | SNTPService/SocketListener.cs:136-139 | once an iteration has closed the socket, the rest of the loop raises nothing, sends nothing and does not reopen it |
| ListenerSpec.Iterations | SNTPService/UdpListener.cs:69-73 | an inactive listener runs no iteration; an active one runs every round up to and including the first that calls Stop, and all rounds when none does |
| ListenerSpec.Chunks | SNTPService/SocketListener.cs:113-118 | an empty response is sent as no chunk at all, and a non-empty one as at least one |
| ListenerSpec.FirstStop | SNTPService/UdpListener.cs:69 | no round before the returned index calls Stop, and the round at it does |
| ListenerSpec.RunRaisesAtMostOncePerRound | SNTPService/UdpListener.cs:67-80 | the loop raises at most one ClientConnected per iteration |
| ListenerSpec.ClosedSocketStaysSilent | SNTPService/SocketListener.cs:136-139 | once the socket is closed, no later iteration raises an event, sends anything or reopens it |
| ListenerSpec.SocketExceptionsKeepSocketOpen | SNTPService/SocketListener.cs:130-135 | when every exception is a SocketException the socket stays open through any number of iterations |
| ListenerSpec.CheckStart | SNTPService/UdpListener.cs:25-35 | the checks run port range, then already active, then interface address, and the first that fails decides the error; none fails exactly when the port is in 0..65535, the listener inactive and an address set |
| ListenerSpec.Setup | SNTPService/UdpListener.cs:37-61 | setup succeeds exactly when no executed step throws, and then leaves a reusable, bound, configured socket, an active flag and a running thread; the flag is set only after the socket is bound and configured; a failure before that leaves the listener inactive and the thread untouched |
| MessageEventArgs.SntpMessageEventArgs.constructor | SNTPService/SntpMessageEventArgs.cs:35-60 | channel and buffer are the arguments; the request holds the parse of the whole buffer, or is null when parsing fails; the response is null |
| MessageEventArgs.SntpMessageEventArgs.Create | SNTPService/SntpMessageEventArgs.cs:35-41 | a null channel throws ArgumentNullException("channel") first, then a null buffer throws ArgumentNullException("data"); otherwise the object is built as by the constructor |
| ServicePolicy.Admitted | SNTPService/SntpService.cs:50-53 | admitted only with a buffer, a connected channel and a byte count within the size bounds; both bounds are inclusive |
| ServicePolicy.Respond | SNTPService/SntpService.cs:78-101 | there is a reply exactly for a Client-mode request; it has mode Server, stratum Secondary, reference LOCL and the two clock readings as receive and transmit times, and every other field of the request |
| ServicePolicy.ReplyIsNotAnswered | SNTPService/SntpService.cs:79-97 | a reply, being in Server mode, would itself get no reply |
| ServicePolicy.OriginateIsNotTheRequestTransmitTime | SNTPService/SntpService.cs:80-86 | the reply's originate time is not the request's transmit time whenever the request's two differ |
| ServicePolicy.Handle | SNTPService/SntpService.cs:46-66 | an event is notified exactly when admitted; it is queued exactly when admitted and no message-received subscriber threw, whose exception is otherwise handed back; it is answered exactly when queued, parsed and in Client mode, with a Server-mode Secondary reply |
| ServicePolicy.SizeFilterKeepsParserOut | SNTPService/SntpService.cs:50-53 | a datagram outside the size bounds is neither notified nor answered, whatever the parser and the message-received subscribers would do |
| Service.SntpService.constructor | SNTPService/SntpService.cs:17-20 | a new service has its port, no listener and no interface address |
| Service.SntpService.Start | SNTPService/SntpService.cs:22-32 | a fresh listener gets the service's address, the maximum message size as buffer size and the configured timeouts, and is started on the service's port with broadcast; it is never already active; a failed check leaves it with no socket and no thread, otherwise socket, flag and thread are those of `Setup` |
| Service.SntpService.Stop | SNTPService/SntpService.cs:34-44 | without a listener returns false; otherwise only the listener's active flag changes, to false, and the result is true exactly when it was active with a bound socket |
| Service.SntpService.OnClientConnect | SNTPService/SntpService.cs:46-66 | an admitted datagram adds exactly one correlation object, carrying its channel, buffer and parsed request, to the notifications, and to the work items unless a message-received subscriber threw, whose exception is then returned; a rejected one adds to neither and returns none |
| Service.SntpService.ProcessRequest | SNTPService/SntpService.cs:73-103 | a Client-mode request object becomes the response in place with the fields of `Respond`, and is sent; any other mode or a null request changes nothing and sends nothing |
| Service.SntpService.ServeDatagram | SNTPService/SntpService.cs:46-103 | one datagram through the subscriber and then its work item notifies, queues, answers, sends and throws exactly as `Handle` says, the reply going to the datagram's sender; every list that `Handle` does not extend is left unchanged |
| Service.SntpService.SendReply | SNTPService/SntpService.cs:105-122 | the serialised response goes to the sender and message-sent is raised only when SendTo does not throw; a throwing SendTo changes nothing |

## Left out

- The SNTP wire codec (48-byte layout, 64-bit fixed-point timestamps, RFC 4330 section 4): SntpMessage.cs is not part of this model, so parsing and serialising are opaque inputs and no round trip is claimed.
- The classes behind the channel, the buffer and ClientConnectedEventArgs are not part of this model; the channel's identifier and liveness, the buffer's contents and the subscribers' AllowConnect and Response are inputs of the receive step. The listener's BufferSize only sizes that buffer, so the model stores it but does not use it.
- Threads and the thread pool: the listening loop is a method the caller runs, queued work items are processed by calling ProcessRequest, and concurrent Stop calls are the rounds' flags. Concurrent sends on one socket are not modelled.
- The wiring of events: the listener records the ClientConnected events it raises; passing each to the service's OnClientConnect is the caller's step, and an exception OnClientConnect returns is what the receive step's `HandlerThrows` verdict stands for. The service's OnClientDisconnect only logs and is not modelled.
- The 10 ms sleep after an unreadable poll, and the Poll timeout: the model records only that the step slept.
- Listener.UdpListener.ReadResponse: the response stream is read as a memory stream that fills the buffer while bytes remain; a stream returning short reads is not modelled.
- Listener.UdpListener.HandleDisconnect: requires a socket; with none, the source's Close throws and HandleDisconnect calls itself without end. The listening loop never reaches that case, since an active listener always has a socket.
- Listener.UdpListener.StartUdpListening: runs for a given sequence of rounds; the source's loop runs until the listener is stopped.
- The unused ListenerError event, ListenBacklog (set, never used), logging, Console output, the finalizer's GC call and the console entry point.
