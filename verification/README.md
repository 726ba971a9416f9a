# QtRpc2, modelled and proved

A model in Dafny of the protocol stack of QtRpc2, from the bytes on the wire to the objects a
program holds, with proofs of what each part promises. Each file is one part:

| file | part |
|---|---|
| `QtTypes`, `QStrings`, `DataStream` | Qt's integers, string operations, `QVariant` and `QDataStream` |
| `Signature`, `ReturnValue`, `Message` | the values that travel, and the three wire formats of a message |
| `Framing` | the size-and-payload frames, and the loop that reassembles them |
| `MessageWire`, `Protocol` | streams of messages; the names the two devices use between themselves |
| `ServerDevice`, `ServerAnswers`, `ServerStates` | the server's end of a connection; what it answers to what; its states over whole runs |
| `ClientDevice`, `ClientSignals` | the client's end; what it signals and writes for what |
| `Negotiation` | both ends over two byte channels, and the switch of the version in mid-stream |
| `MessageBus` | matching replies to calls, across threads |
| `EndToEnd` | from a caller through both devices to the service layer and back |
| `AsyncRequests` | the asynchronous `getService`, `selectService` and `connect` |
| `AsyncInvariant`, `AsyncSteps` | what holds between the steps of these, and that every step keeps it |
| `AsyncResults`, `AsyncOutcome` | what they promise in every run, and what they leave behind |
| `AsyncBus` | that their calls and replies are what the message bus makes of them |
| `AsyncReconnect`, `AsyncAssign` | the runs in which a connect or an assignment breaks the promise |
| `AsyncWorld` | several proxies, shared connections and shared tokens: exactly when it does not |
| `ServiceSharing`, `ServiceHolders` | reference-counted services, their registry, and who gets events; who holds what after each step |
| `ServiceTable` | the server's numbering of services, and its authentication gate |
| `ThreadPool` | the choice of a thread for a new instance |

## How it is built

Objects the program updates in place are classes here, with the same fields and loops. The
contract of each method equates the new fields with a specification function of the old ones,
and the properties are proved of those functions, over all runs. Where threads or machines
interleave, each stretch of code that holds a lock, or handles one event, is one step of a
transition function, and the properties hold in every state any sequence of steps reaches.

`QDataStream` is concrete: big-endian integers, length-prefixed strings and lists, a recursive
`QVariant`. Reading past the end gives zeros, as in Qt, so the readers are total and the
properties of framing and of the fallback reading hold for all bytes, well formed or not.

Some promises of the code hold only under a condition. They are stated as equivalences, with
the condition on the side a caller can check:

- A signature survives its text form exactly when it is canonical (`RoundTripExactly`). Printing
  fills name and arguments into place markers one after the other, so a marker inside the name
  takes the arguments: canonical includes that no marker of the name numbered 2 or less takes
  them, unless it reads just like them. `"%2(a)"` is accepted and reads back with the name `a`
  (`PlaceMarkerTakesArgument`), and a message named `%2` can turn into a request for a version
  (`DisguisedRequest`). A text survives parse-print-parse exactly when, besides, its arguments
  are not one blank (`ReparseExactly`).
- The original format carries a reply exactly when it is a value or an error, and a call
  exactly when its signature is canonical or empty (`OriginalReplyExactly`, `OriginalCallExactly`).
- An original-format frame that reaches the server after the switch is read as written exactly
  when its id passes for neither the magic number (version 2) nor a message type (version 1)
  (`LateFrameExactly`).
- Two calls get the same id exactly when their numbers differ by a multiple of 2^32
  (`IdsCollideExactly`).
- Selecting a service of the original protocol keeps registry and live services in step
  exactly when nothing is registered under 0 (`SelectOriginalExactly`).
- A new connect keeps the promises made to all requests of all proxies, in every continuation,
  exactly when its proxy has no request under way, no other proxy has a connect under way with
  the same token, and, unless the url has a path, the token names no service
  (`AsyncWorld.ConnectExactly`). Its bus gives the same ids again, while the proxy's maps are
  keyed by the bare id; and copies of a token share their data, so that the marks a connect
  leaves there are read by whichever connect hears first.
- An assignment keeps them, and keeps every request on the connection it was begun on, exactly
  when nothing is under way at the proxy or the connection is the same
  (`AsyncWorld.AssignExactly`). Otherwise a request is lost, or two replies are due under one id,
  as soon as the other connection gives the id of a request under way; and what was under way
  can end on the other connection (`AsyncWorld.AssignBreaks`).
- A service function runs exactly when its number is known and not waiting for
  authentication; the number 0 means any one service and waits for nothing (`RunsExactly`,
  `ThroughZero`). Services of the three-argument form wait for nothing, even when their own
  authentication failed (`RunsWithoutAuthExactly`, `FailedSelectionStays`).

## Model

| member | source | states |
|---|---|---|
| DataStream.VariantRoundTrip | lib/message.cpp:354-465 | A `QVariant`, however nested, is read back whole, and the reader stops exactly where the writer did |
| DataStream.I64Onto | lib/clientprotocoliodevice.cpp:264-272 | Any eight header bytes can be recovered from `totalSize`, so the header already consumed is not lost state |
| DataStream.MostSignificantFirst | lib/message.cpp:426-465 | An integer goes out from its most significant byte to its least |
| QStrings.FillFixedExactly | lib/signature.cpp:151-154 | Filling a text into place markers leaves the whole as it was if and only if every one of them read like that text |
| Signatures.TwoFillings | lib/signature.cpp:151-154 | What `toString` gives is the template with the name filled in by one `arg` and the arguments by another |
| Signatures.Printed | lib/signature.cpp:151-154 | What `toString` prints: name and arguments, save that the arguments go into the lowest place markers of the name, and only there if one is numbered below 2 |
| Signatures.RoundTripExactly | lib/signature.cpp:97-154 | `parse(toString(sig)) == sig` if and only if the name is non-empty and free of parentheses, no place marker of it numbered 2 or less takes the arguments, and the arguments are trimmed, free of commas and parentheses, and not one empty argument |
| Signatures.ReparseExactly | lib/signature.cpp:97-154 | For every accepted text, printing and parsing again gives the same signature if and only if its arguments are not a single blank and no place marker of its name takes them |
| Signatures.ReadBackName | lib/signature.cpp:97-154 | Whatever signature is printed, the name read back is nothing or the name as printed, which is the name unless it has a place marker numbered 2 or less |
| Signatures.PlaceMarkerTakesArgument | lib/signature.cpp:151-154 | The name `%2` with a plain argument reads back as that argument |
| Signatures.AcceptedShape | lib/signature.cpp:97-129 | An accepted text is a non-empty name and one parenthesis pair at the very end, and nothing more |
| Signatures.Signature.Parse | lib/signature.cpp:97-129 | Accepts exactly the texts of that shape; a refusal clears the arguments and leaves the name |
| ReturnValues.ReturnRoundTrip | lib/returnvalue.cpp:301-341 | A return value of any tag comes back with the fields of its tag and nothing else |
| ReturnValues.ReadReturn | lib/returnvalue.cpp:301-321 | The reader consumes exactly the bytes of one return value |
| Messages.CodecRoundTrip | lib/message.cpp:354-465 | For every message, every version and every suffix, the reader gets the version's projection of the message and stops at the end of its encoding |
| Messages.CallRead | lib/message.cpp:100-123 | A call is read with the id, type, arguments and service it was made with, in the formats that carry a service |
| Messages.ReplyRead | lib/message.cpp:125-132 | A reply is read with its id, and what its tag says it holds |
| Messages.ExampleBytes | lib/message.cpp:426-465 | The bytes of one call in each of the three formats |
| Messages.TypedFormatsExactly | lib/message.cpp:371-424 | Versions 1 and 2 carry a message unchanged if and only if the fields its type does not use are as in a new message, and a return holds only the fields of its tag, with the arguments they make |
| Messages.OriginalReplyExactly | lib/message.cpp:76-98 | The original format carries a reply if and only if it is a value or an error; the id and type always survive |
| Messages.OriginalCallExactly | lib/message.cpp:354-370 | The original format carries a call if and only if its signature is empty or canonical; its service becomes 1 |
| Messages.Message.FromCall | lib/message.cpp:100-123 | A return built from arguments is rebuilt from two (an error), one (a value), or none (an error) |
| Messages.Message.FromReturn | lib/message.cpp:125-132 | A reply carries the return value and its form as arguments |
| Messages.Message.SetArgs | lib/message.cpp:226-246 | Setting arguments keeps the return value in step for a return, and leaves it otherwise |
| Messages.Message.SetReturn | lib/message.cpp:261-273 | Setting a return value keeps the arguments in step |
| Messages.Message.WriteTo | lib/message.cpp:426-465 | Appends exactly the encoding in the message's own version |
| Messages.Message.ReadFrom | lib/message.cpp:354-424 | Takes exactly one message from the front of the stream in the version set beforehand |
| Messages.Message.Size | lib/message.cpp:290-297 | The size announced is the number of bytes the next write takes |
| Framing.Incremental | lib/clientprotocoliodevice.cpp:260-298 | Parsing what came, then its residue with what comes later, is parsing it all at once |
| Framing.ChunksDoNotMatter | lib/clientprotocoliodevice.cpp:260-298 | For all bytes and all ways to cut them, the frames dispatched and the bytes left over are those of the whole stream |
| Framing.WireRoundTrip | lib/serverprotocolinstanceiodevice.cpp:125-176 | The frames dispatched are those written, in order, nothing left over |
| Framing.AnyChunkingRoundTrip | lib/clientprotocoliodevice.cpp:260-298 | The same when the stream arrives in any fragments |
| Framing.FrameInHand | lib/serverprotocolinstanceiodevice.cpp:139-153 | When `totalSize <= read`, the buffer is the first frame of all bytes not yet dispatched, even for a non-positive size |
| Framing.NothingPending | lib/serverprotocolinstanceiodevice.cpp:125-133 | Where the loop stops, no complete frame is left |
| MessageWire.PrefixHead | lib/serverprotocolinstanceiodevice.cpp:125-176 | A prefix of a stream of messages that holds a complete frame holds the first message whole |
| Protocol.NegotiationTexts | lib/clientprotocoliodevice.cpp:98-135 | Both negotiation messages survive the original format |
| Protocol.PlainNameKept | lib/signature.cpp:97-154 | A message whose name has no place marker numbered 2 or less negotiates once read if and only if it does as written |
| Protocol.DisguisedRequest | lib/message.cpp:460 | A message named `%2` does not negotiate, and is read as a request for a version when its argument type is named so |
| ServerDevice.FallbackOnce | lib/serverprotocolinstanceiodevice.cpp:149-215 | Whatever the bytes: a frame whose first reading is refused has changed nothing, and takes effect in at most one of its two readings |
| ServerDevice.DrainIncremental | lib/serverprotocolinstanceiodevice.cpp:125-176 | The server's state after two reads is its state after one read of all the bytes |
| ServerDevice.ParseAppends | lib/serverprotocolinstanceiodevice.cpp:178-336 | Every message but the request for a version leaves the version alone and only appends ordinary messages, each written in it |
| ServerDevice.ServerInstance.constructor | lib/serverprotocolinstanceiodevice.cpp:361-372 | A new instance is connecting, in version 0, and its first bytes are the welcome with its own maximum |
| ServerDevice.ServerInstance.WriteMessage | lib/serverprotocolinstanceiodevice.cpp:345-355 | Writes one whole frame, in the current version |
| ServerDevice.ServerInstance.ChangeTo | lib/serverprotocolinstanceiodevice.cpp:388-394 | A state is announced exactly when it is later than the current one |
| ServerDevice.ServerInstance.Select | lib/serverprotocolinstanceiodevice.cpp:239-277 | The answer to selectService in each format and state, and when it makes the server ready |
| ServerDevice.ServerInstance.CheckProtocol | lib/serverprotocolinstanceiodevice.cpp:222-336 | The acknowledgement goes out in the old version and the switch follows it; the other protocol functions |
| ServerDevice.ServerInstance.Parse | lib/serverprotocolinstanceiodevice.cpp:178-215 | What each type of message does, and that any other type does nothing |
| ServerDevice.ServerInstance.Dispatch | lib/serverprotocolinstanceiodevice.cpp:149-174 | A frame is read in the current version, then perhaps in version 0 |
| ServerDevice.ServerInstance.ReadyRead | lib/serverprotocolinstanceiodevice.cpp:125-176 | The loop dispatches exactly the complete frames of all bytes received so far, in order, and its fields hold exactly the rest |
| ServerStates.AnswersInOrder | lib/serverprotocolinstanceiodevice.cpp:178-336 | In every run, whatever frames arrive: everything to be done with a message is done once and in order, the answers are those due for these actions, in order, each with the id of its message and the service layer's result, and the state is the highest asked for |
| ServerAnswers.ReceiveAccounts | lib/serverprotocolinstanceiodevice.cpp:149-215 | One frame, whatever its bytes, keeps that account |
| ServerAnswers.DueFrom | lib/serverprotocolinstanceiodevice.cpp:185-192 | Each answer belongs to one action, and answers come in the order of the actions |
| ServerAnswers.AnswersArrived | lib/serverprotocolinstanceiodevice.cpp:178-215 | Each action that answers belongs to one message received, in the order of arrival |
| ServerAnswers.ReadyExactly | lib/serverprotocolinstanceiodevice.cpp:249-276 | The server is ready if and only if a selection has succeeded, or its protocol or transport has asked for that state |
| ServerStates.StatesAnnounced | lib/serverprotocolinstanceiodevice.cpp:182-193 | In every run, whatever frames arrive: announced states, counting every message the client would take for an announcement, strictly increase; a function reaches the service layer if the ready state has been announced before, and is refused if not, and a selection by whether any state has |
| ServerStates.GateAlways | lib/serverprotocolinstanceiodevice.cpp:239-276 | The invariant behind it, kept by every frame, by the application's own messages and by the transport |
| ClientDevice.DrainIncremental | lib/clientprotocoliodevice.cpp:260-298 | The client's state after two reads is its state after one read of all the bytes |
| ClientDevice.ParseAppends | lib/clientprotocoliodevice.cpp:300-322 | Every message but welcome and acknowledgement leaves the version alone and only appends messages the server takes |
| ClientSignals.SignalsInOrder | lib/clientprotocoliodevice.cpp:300-322 | Every function received raises one sendCallback, every event one sendEvent and every return one returnReceived with its id and value, in order, and nothing else raises any of these |
| ClientSignals.ReceiveTells | lib/clientprotocoliodevice.cpp:98-186 | One frame, whatever its bytes, raises the signals due for its message, in particular the answers to the connect and to the selection of a service, and makes the device write what is due; only a fatal error ends the connection, only a version refused makes it give up; and what cannot be written is told under its own id |
| ClientDevice.ClientConnection.WriteMessage | lib/clientprotocoliodevice.cpp:203-225 | One whole frame when connected, else an error to the caller and nothing written |
| ClientDevice.ClientConnection.CheckProtocol | lib/clientprotocoliodevice.cpp:98-186 | The smaller maximum is requested on the welcome; the version changes on the acknowledgement; fatal errors end the connection |
| ClientDevice.ClientConnection.Parse | lib/clientprotocoliodevice.cpp:300-322 | Which signal each type of message raises |
| ClientDevice.ClientConnection.ReadyRead | lib/clientprotocoliodevice.cpp:260-298 | As on the server, with one reading per frame |
| Negotiation.LateFrameExactly | lib/serverprotocolinstanceiodevice.cpp:152-173 | A version-0 frame that arrives after the switch is received as written if and only if its id is safe for the version |
| Negotiation.InvNext | lib/serverprotocolinstanceiodevice.cpp:222-237 | Every step of the two-peer system keeps: in flight is exactly what was written and not handled, and who writes which version when |
| Negotiation.EveryFrameAsWritten | lib/clientprotocoliodevice.cpp:98-135 | In every interleaving, with any fragmentation, every frame handled by either side is the message written, in order, in its version's projection; the client never gives up |
| Negotiation.SwitchExactlyAtAck | lib/serverprotocolinstanceiodevice.cpp:224-237 | The acknowledgement is the server's last message in version 0, and every later one is in the version agreed on |
| Negotiation.QuietMeansAgreed | lib/clientprotocoliodevice.cpp:101-131 | Once the channels are empty nothing was lost and both sides use the smaller of the two maxima |
| Negotiation.SafeWithoutMagic | lib/serverprotocolinstanceiodevice.cpp:160-173 | Unless version 1 is agreed on, safety of ids means only that no version-0 message has the magic number as its id |
| Negotiation.ServerCatchUpIsDrain | lib/serverprotocolinstanceiodevice.cpp:125-176 | The system's server is the one the server class implements |
| Negotiation.ClientCatchUpIsDrain | lib/clientprotocoliodevice.cpp:260-298 | The system's client is the one the client class implements |
| EndToEnd.BothTellAlways | lib/serverprotocolinstanceiodevice.cpp:125-176 | In every interleaving of the two peers both accounts hold |
| EndToEnd.ReturnsAnswerCalls | lib/clientprotocoliodevice.cpp:300-322 | Every return signalled is the server's message due for one action, which was for one of the client's own calls and has its id, or which the application wrote itself |
| EndToEnd.AnswersInCallOrder | lib/serverprotocolinstanceiodevice.cpp:185-192 | Answers reach the client in the order of its calls, and none comes twice |
| EndToEnd.CallerGetsItsAnswer | lib/clientmessagebus.cpp:134-219 | What a waiting caller returns, or an object is told, is what the service layer answered to that very call, or an error of the client's own |
| MessageBus.OnePlace | lib/clientmessagebus.cpp:134-219 | In every run an id given out is in exactly one place: pending, stored, returned, posted or dropped; any other id in none |
| MessageBus.FreshId | lib/clientmessagebus.cpp:142-145 | Up to 2^32 calls, each gets an id that nothing refers to |
| MessageBus.IdsCollideExactly | lib/clientmessagebus.cpp:142-182 | In runs of any length, two calls get the same id if and only if they are a multiple of 2^32 calls apart |
| MessageBus.StandingMeans | lib/clientmessagebus.cpp:196-219 | Being answered with a value is the same as that value being the first reply to the id's call |
| MessageBus.FirstReplyOnly | lib/clientmessagebus.cpp:149-156 | What a waiting caller returns, or an object is told, is the first reply to that very call, once |
| MessageBus.LateReplyIgnored | lib/clientmessagebus.cpp:200-204 | A duplicate, unknown or late reply changes nothing |
| MessageBus.NoLostWakeUp | lib/clientmessagebus.cpp:136-156 | A caller that is blocked and not signalled is still unanswered; one whose reply is stored has been woken or has timed out, and if woken returns it when next run in time |
| MessageBus.DisconnectResolvesAll | lib/clientmessagebus.cpp:78-90 | Under interleaving with calls and replies, a finished disconnect leaves no call it saw pending, and no thread blocked on one |
| MessageBus.AnswersStand | lib/clientmessagebus.cpp:69-76 | A second disconnect, or anything else, never changes an answer already given, nor tells it twice |
| MessageBus.PostedToAsker | lib/clientmessagebus.cpp:168-219 | Whatever is posted goes to the object and the slot the call of that number named |
| MessageBus.DroppedForNobody | lib/clientmessagebus.cpp:205-219 | A reply is dropped only if its call named no object, or one that is gone |
| MessageBus.ClientMessageBus.BeginSync | lib/clientmessagebus.cpp:134-146 | A waiting call is registered under the next id before it waits; from the bus's own thread it is refused with no effect |
| MessageBus.ClientMessageBus.Resume | lib/clientmessagebus.cpp:149-156 | What each return from `wait` leads to; a timeout leaves the call registered |
| MessageBus.ClientMessageBus.CallAsync | lib/clientmessagebus.cpp:174-189 | Registers object and slot under the next id |
| MessageBus.ClientMessageBus.ReturnReceived | lib/clientmessagebus.cpp:196-219 | Routes a reply once: stored and signalled, posted, dropped with its object, or ignored |
| MessageBus.ClientMessageBus.Disconnected | lib/clientmessagebus.cpp:78-90 | Alone, the loop empties the pending calls and gives each waiting one the disconnect error, touching no stored result |
| AsyncWorld.ConnectExactly | lib/clientproxy.cpp:296-404 | From any state of any number of proxies that careful runs reach, a connect keeps, for all of them and in everything that may follow, one carrier per entry, one completion per request and every completion true to its chain, if and only if nothing is under way at its proxy, no other connect is under way with its token, and the token names no service besides its path |
| AsyncWorld.AssignExactly | lib/clientproxy.cpp:1006-1035 | The same for an assignment, with every request on the connection it was begun on, if and only if nothing is under way at the proxy or the connection is the one it is on |
| AsyncWorld.AlwaysKept | lib/clientproxy.cpp:296-715 | In every careful run of several proxies, sharing connections and tokens, with calls and losses at any time, all of this holds of each of them |
| AsyncWorld.EachReachable | lib/clientproxy_p.h:141-151 | To each proxy what the others do is no more than ids used up, a bus lost, and marks changed while it has no connect under way; so all that is proved of one proxy holds of each |
| AsyncWorld.AssignBreaks | lib/clientproxy.cpp:1006-1035 | An assignment while something is under way has a continuation that breaks the promises themselves, if no service has been returned yet, or if the other bus is up and behind the id of a getService or selectService under way |
| AsyncWorld.SharedTokenBreaks | lib/clientproxy.cpp:429-467 | A connect begun while another proxy's is under way with its token has a continuation that breaks the promises: the other takes its mark, and it ends without its default token |
| AsyncAssign.AssignCollides | lib/clientproxy.cpp:545-565 | When the bus taken over has yet to give the id of a getService or selectService under way, two things come to be due under one id |
| AsyncReconnect.NamedEnds | lib/clientproxy.cpp:449-467 | A connect without a path, with a token that names a service, has a run that breaks the promises: it ends with what became of that service |
| AsyncBus.BusMakesTraffic | lib/clientmessagebus.cpp:168-219 | In every run of a bus, up to 2^32 calls, each step is for a proxy's requests a call under the next id, the one reply to a call not yet answered, or nothing at all |
| AsyncReconnect.Collision | lib/clientmessagebus.cpp:55-64 | For every state with a request under way at its proxy, a continuation of a connect that breaks the promises: an id given twice with two replies due, or a connect that ends without its own default token |
| AsyncResults.OneCompletion | lib/clientproxy.cpp:408-715 | A request is completed at most once, with the id first returned to its caller, at the object it named; and exactly when nothing stands for it any more |
| AsyncResults.CompletionsLawful | lib/clientproxy.cpp:567-715 | Every completion says what its own chain came to: the first error of its calls; or the reply to its selection, after a successful auth in versions that have services; or that it is not connected. A connect ends with its own url, default token and service. It comes on the connection the request was made on |
| AsyncResults.ServiceAuthenticated | lib/clientproxy.cpp:626-694 | A getService that ends without an error was given the reply to its own selection of the service asked for, and unless in version 0 that is a service whose auth succeeded after it |
| AsyncOutcome.TakenLast | lib/clientproxy.cpp:526-532 | In every run the proxy has taken over what the last successful selection was given, a service or the one of version 0, and nothing else changes it |
| AsyncOutcome.SelectedIsTaken | lib/clientproxy.cpp:526-532 | A selectService completed with a service leaves the proxy with that service |
| AsyncOutcome.StateLast | lib/clientproxy.cpp:408-471 | In every run the connection's state is what the last connect that began or ended, or the last loss of the bus, made of it: connected if and only if a connect ended without an error |
| AsyncResults.OneCarrier | lib/clientproxy.cpp:445-465 | Until then exactly one thing carries it, a bus call, a queued event or the request inside it, and its entry is under that thing's id |
| AsyncResults.NoStrayCalls | lib/clientproxy.cpp:711-714 | No bus call or event is without its entry, and no entry has two |
| AsyncResults.CallsInOrder | lib/clientproxy.cpp:589-694 | An unanswered call asks what the replies so far call for: version twice, the selection that version calls for, the authentication; the url, then the default token |
| AsyncSteps.HandledFinds | lib/clientproxy.cpp:567-588 | A completion slot always finds the entry, and the status, it is invoked for, and a service it is given is of the proxy's own connection |
| AsyncResults.AllCompleted | lib/clientproxy.cpp:408-715 | When all calls are answered and all events handled, every request has been completed |
| AsyncResults.EveryChainEnds | lib/clientproxy.cpp:429-467 | Each reply and each event uses up work, so replies and events are bounded unless more is requested |
| AsyncSteps.StepKeeps | lib/clientproxy.cpp:408-715 | Every request, reply, event and loss of the bus, every assignment with nothing under way, and whatever others do on the connection keep the invariant behind these |
| AsyncRequests.ClientProxyPrivate.GetFor | lib/clientproxy.cpp:545-565 | A user's getService is accepted under the id returned, or refused with no effect |
| AsyncRequests.ClientProxyPrivate.SelectServiceFor | lib/clientproxy.cpp:512-524 | The same for selectService |
| AsyncRequests.ClientProxyPrivate.ConnectFor | lib/clientproxy.cpp:393-404 | A connect is accepted at any time, under id 1 of a new bus, with its marks left in the token; without a path a service the token names stays there |
| AsyncRequests.ClientProxyPrivate.AssignConnection | lib/clientproxy.cpp:1006-1035 | An assignment changes the connection and leaves the maps, so that the calls of the old connection are answered into them |
| AsyncRequests.ClientProxyPrivate.StartGet | lib/clientproxy.cpp:545-565 | A getService is registered under its first bus call's id, or not at all |
| AsyncRequests.ClientProxyPrivate.StartSelect | lib/clientproxy.cpp:512-524 | A selectService is registered under the id of the getService inside it |
| AsyncRequests.ClientProxyPrivate.GetServiceCompletedSlot | lib/clientproxy.cpp:567-715 | One step of the chain, including the failed call that leaves its status behind, and the proxy taking over a version-0 service |
| AsyncRequests.ClientProxyPrivate.SelectServiceCompletedSlot | lib/clientproxy.cpp:526-532 | The end of a selectService, and the proxy taking over the service |
| AsyncRequests.ClientProxyPrivate.ConnectCompletedSlot | lib/clientproxy.cpp:408-471 | One step of a connect: default token, then perhaps a service, then the end, with the connection's state |
| ServiceSharing.RegistryExactly | lib/clientproxy.cpp:175-185 | In every run a connection's registry maps an id if and only if a service with that id is alive on it, never two; a connection outlives its services |
| ServiceSharing.AliveExactly | lib/clientproxy.cpp:969-994 | A service is alive if and only if a proxy or a return value holds it |
| ServiceSharing.DestroyServiceExactly | lib/clientproxy.cpp:55-63 | destroyService is sent in exactly the step in which the last holder lets go, if the connection is up then, and never twice for one service |
| ServiceSharing.OneList | lib/clientproxy.cpp:1006-1035 | A proxy is in the list of its current service and in no other |
| ServiceSharing.EventsReachSharers | lib/clientproxy.cpp:88-173 | An event reaches each sharer of the service addressed once and nobody else; a callback reaches exactly one, whenever there is one |
| ServiceSharing.StepKeeps | lib/clientproxy.cpp:227-248 | Every assignment, copy, deselection, destruction, connect, loss and arriving return value keeps all of that |
| ServiceHolders.HoldersAfter | lib/clientproxy.cpp:1006-1035 | After every step each proxy and each return value holds the connection and service the step gives it, and otherwise what it held; a connection is up until its bus goes |
| ServiceHolders.ArrivesLive | lib/clientproxy.cpp:969-994 | An arriving service return value holds the live service of that number on the connection, the old one if there was one |
| ServiceHolders.ReachedThrough | lib/clientproxy.cpp:1006-1035 | Afterwards events reach a proxy through the service the step has given it, and no other |
| ServiceHolders.SharersAfter | lib/clientproxy.cpp:65-86 | A step of one proxy leaves every other in its place in the list, and the primary as it was unless it is the one that leaves |
| ServiceHolders.SendEventReaches | lib/clientproxy.cpp:137-154 | What the connection object routes a message to is the sharers of the service addressed, in every run |
| ServiceSharing.SelectOriginalExactly | lib/clientproxy.cpp:735-741 | Selecting a service of version 0 keeps it if and only if nothing is registered under 0 |
| ServiceSharing.ServiceData.Add | lib/clientproxy.cpp:65-72 | Appends the proxy and makes it primary if there was none |
| ServiceSharing.ServiceData.Remove | lib/clientproxy.cpp:74-86 | Removes the proxy everywhere; the first one left becomes primary if it was |
| ServiceSharing.RemoveOrderly | lib/clientproxy.cpp:74-86 | Afterwards the others are still listed once each and one of them is primary, if any |
| ServiceSharing.ServiceData.SendEvent | lib/clientproxy.cpp:88-95 | Reaches the whole list, in order |
| ServiceSharing.ServiceData.SendCallback | lib/clientproxy.cpp:97-113 | Reaches the primary, which is there unless the list is empty |
| ServiceSharing.ConnectionData.SendEvent | lib/clientproxy.cpp:137-154 | Reaches the service addressed, or in version 0 whichever is listed first |
| ServiceTable.NumbersAndObjects | lib/serverprotocolinstancebase.cpp:110-140 | The numbers given out are 1, 2, 3 and so on, each for ever the object it was given for, and no object has two |
| ServiceTable.SameNumberForEver | lib/serverprotocolinstancebase.cpp:183-218 | A service object sent to the client twice has the same number both times, whatever happens between |
| ServiceTable.ServiceIdInverts | lib/serverprotocolinstancebase.cpp:225-228 | serviceId inverts the table, and is 0 exactly for objects without a number |
| ServiceTable.RunsExactly | lib/serverprotocolinstancebase.cpp:148-161 | A call reaches a service if and only if its number is known, is not gated (or the function is auth), and an auth of two texts has two arguments |
| ServiceTable.RefusalsSayWhy | lib/serverprotocolinstancebase.cpp:148-161 | A call that does not run returns the error of the first guard that refuses it, and changes nothing |
| ServiceTable.RunsAsCalled | lib/serverprotocolinstancebase.cpp:154-173 | A call that runs reaches the object of its number with the function and arguments given, a default token standing for the connection's, a user and password going as a token |
| ServiceTable.CallReturns | lib/serverprotocolinstancebase.cpp:172-218 | It returns what the service gave: a value or an error as it is, an object as its number, the old one or the next; and only a successful auth changes anything else |
| ServiceTable.SelectionReturns | lib/serverprotocolinstancebase.cpp:110-140 | A selection returns the next number, for the object made |
| ServiceTable.TokenSetLast | lib/serverprotocolinstancebase.cpp:165-170 | The default token is the one set last |
| ServiceTable.AuthenticatedFirst | lib/serverprotocolinstancebase.cpp:126-140 | Between the opening of a service without authentication and any function run through its number lies a successful auth through that number |
| ServiceTable.ObjectAuthenticatedFirst | lib/serverprotocolinstancebase.cpp:126-161 | Before a successful auth through its number, an object opened without authentication runs any other function only through the number 0 |
| ServiceTable.ThroughZero | lib/serverprotocolinstancebase.cpp:84-91 | The run where it does; and an auth through 0 leaves the object's own number waiting |
| ServiceTable.RunsWithoutAuthExactly | lib/serverprotocolinstancebase.cpp:110-181 | With no successful auth ever through its number, a service runs functions through it if and only if it was not opened by the one-argument form |
| ServiceTable.FailedSelectionStays | lib/serverprotocolinstancebase.cpp:116-123 | A three-argument selection whose auth fails returns the error and leaves its object in the table, waiting for nothing |
| ServiceTable.StaysOpen | lib/serverprotocolinstancebase.cpp:172-176 | A number once open is never gated again |
| ServiceTable.ServerProtocolInstanceBase.GetServiceObjectFor | lib/serverprotocolinstancebase.cpp:110-124 | Registers the object whether or not its auth succeeds, and gates nothing |
| ServiceTable.ServerProtocolInstanceBase.GetServiceObject | lib/serverprotocolinstancebase.cpp:126-140 | Registers and gates the object |
| ServiceTable.ServerProtocolInstanceBase.ParseGiven | lib/serverprotocolinstancebase.cpp:183-218 | A service object goes out as its number, a new one only if it had none |
| ServiceTable.ServerProtocolInstanceBase.Call | lib/serverprotocolinstancebase.cpp:148-181 | The lookup, the gate, the substitution of default tokens, and what a successful auth changes |
| ServiceTable.ServerProtocolInstanceBase.ServiceId | lib/serverprotocolinstancebase.cpp:225-228 | The number of an object in the table |
| ThreadPool.Server.RequestThread | lib/server.cpp:116-132 | The thread chosen is the first idle one, else the last one less busy than thread 0, else thread 0, and it alone counts one more |
| ThreadPool.Server.RemoveService | lib/server.cpp:161-165 | The current thread alone counts one less |
| ThreadPool.CountsConserved | lib/server.cpp:108-165 | In every run each count is the number of live instances on its thread, and together they are all of them |
| ThreadPool.PeakLoadExactly | lib/server.cpp:108-165 | The most instances any thread ever has is exactly the peak number alive divided by the number of threads, rounded up, although `lowest` is never updated |
| ThreadPool.Pigeonhole | lib/server.cpp:116-132 | No way of spreading instances has a lower maximum |
| ThreadPool.RequestsOnly | lib/server.cpp:116-132 | The closed form of all counts after k requests |
| ThreadPool.RequestsBalance | lib/server.cpp:116-132 | While instances only arrive, threads never differ by more than one |

## Left out

- Sockets, SSL, ping timers, process and thread start-up, Zeroconf: the channels are reliable FIFO byte queues, and `connected()` of a transport is a list of messages it writes.
- Signatures.Printed: in a place marker only the ASCII digits count as digits.
- DataStream.VariantRoundTrip: the variant is null, bool, int, uint, list or string, with a simplified type word and no null flag; a null string and an empty one are not told apart; the other Qt types are not modelled.
- Conversions of a text variant to a number, and of other variants to a text, are not those of Qt.
- ReturnValues.ReturnRoundTrip: a return value is a value here, since copy-on-write makes sharing invisible; the object it may hold is in ServiceSharing and ServiceTable.
- ServerDevice.ServerInstance.Parse: the service layer is a function of everything that came before; the slot a returned callback goes to, and the token of setDefaultToken, are only logged here.
- ServerDevice.ServerInstance.CheckProtocol: a request without a version calls `disconnect()`, modelled as a mark with no further effect; a fatal `error` message calls it too, which is not modelled, nor is the token setDefaultToken copies.
- ClientDevice.ClientConnection.CheckProtocol: arguments past the end read as null, where the original has undefined behaviour; its `disconnect()` is a mark.
- EndToEnd.CallerGetsItsAnswer: for ids other than the connection's own two; an answer the application gives later to an asynchronous call is taken to be its own message, whatever id it names.
- Negotiation.EveryFrameAsWritten: messages of types the server does not take, and messages from the application that negotiate as they are or as they are printed, are not sent; results of the service layer are assumed small enough to frame.
- MessageBus.OnePlace: for at most 2^32 calls; beyond that ids repeat, which IdsCollideExactly makes precise. A caller's timeout is a step that may come at any time; an invokeMethod that fails for want of the slot is not modelled.
- MessageBus.ClientMessageBus.Disconnected: its contract is for the loop undisturbed; the interleaved loop is in the steps DisconnectBegins, DisconnectResolves and DisconnectEnds.
- AsyncResults.OneCompletion: for runs in which a connect, an assignment or a change of a token's marks comes only where it does no harm, which AsyncWorld makes exact; requests with no object to tell are not modelled.
- AsyncRequests, AsyncWorld: ids are unbounded, where the bus starts again after 2^32 calls; AsyncBus relates the two up to there.
- AsyncWorld.AssignExactly: when a service was returned on the connection left behind, handling its event takes the proxy back there; that step comes only after a careless assignment and is not modelled.
- AsyncWorld.ConnectExactly: values stand for the shared connections and tokens; a connect that is refused, a waiting connect and the user's own changes to a token are the steps Appears and Touch, and Touch comes only where no connect is under way with the token.
- AsyncResults.AllCompleted: a call the server never answers stays pending; a server that answers selectService with neither a service nor an error is not modelled, since the code then uses a null pointer.
- AsyncRequests.ClientProxyPrivate.ConnectFor: the url has been taken apart and names a protocol there is; the waiting forms of the three requests and plain asynchronous function calls only use up ids.
- ServiceSharing.StepKeeps: letting go of the last pointer is one step with what let go; assignment from a proxy without a service uses a null pointer in the original and is excluded; an event that finds the bus gone is dropped by the proxy itself, which is not modelled.
- ServiceTable.ServerProtocolInstanceBase.Call: token arguments past the end of the list are not looked at, where the original asserts; a service that calls back into the instance during a call is not modelled; an asynchronous answer to auth counts as success, as in the code.
- ServiceTable.NumbersAndObjects: for at most 2^32 - 2 numbers, since the code uses -1 for none and 0 for any.
- ThreadPool.Server.RemoveService: called on a thread of the pool, with a pool that is not empty; the other threading models choose nothing.
- Replies of clients to callbacks: their connection is commented out in lib/clientproxy.cpp.
- Service listings, debug output, meta-object lookups, exceptions and the examples: presentation.
