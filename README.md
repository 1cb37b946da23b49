# A verified model of the CB-FLTS Chrome bridge

The CB-FLTS desktop application drives Google Chrome (used as its PDF viewer)
through three cooperating pieces:

- **the client** (`host/client.py`): `ChromeMessagingHandler` sends one
  `ChromeRequest` per TCP connection to the bridge. It loads the single reply
  into a `ChromeResponse`.
- **the bridge** (`host/flts-chrome-bridge.py`): a Chrome native-messaging
  host.
  - Its server thread accepts TCP clients one at a time. It answers an EXIT
    request itself, forwards every other request from `flts` to Chrome as a
    length-prefixed frame on stdout, and queues that client's socket.
  - Its reader thread reads length-prefixed frames from stdin. It hands each
    frame to a delivery thread, which writes it to the queued client sockets.
- **the extension** (`app/main.js`): it receives each forwarded request and
  renames or closes tabs. It posts back a response object with the request's
  id.

## Modules

- `JsonValues` (`json.dfy`): JSON values. `json.dumps`/`json.loads` are an
  abstract `Codec`; `Inverse(c)` says that parsing what was rendered gives it
  back.
- `Messages` (`messages.dfy`): the message classes shared by both Python
  files. `BaseMessage` is a class with the four attributes. `ChromeRequest`
  and `ChromeResponse` are its named constructors `Request` and `Response`.
  - `to_json` and `_load_prop_from_dict` are loops over the property mapping.
  - They are proved against `ToDict` and `LoadDict`, two functions defined by
    recursion over the property list.
  - The proved properties: the serialised keys, field-by-field loading, the
    text round trip, and `source`.
  - Loading follows Python's `in` on the parsed root. An object yields its
    members. A list or a string loads nothing, unless a wire key is one of
    its elements or substrings, where reading it raises TypeError. Any
    other root raises.
- `Framing` (`framing.dfy`): the 4-byte little-endian length header.
  - It is written unsigned (`'I'`) and read back signed (`'i'`).
  - One reader step (`ReadFrame`) behaves as `sys.stdin.read` does at the end
    of the stream.
  - The round trip covers one frame and a whole stream of frames.
- `Bridge` (`bridge.dfy`): the bridge process as one state record.
  - The state holds stdin, stdout, the pending TCP clients, a log per
    accepted socket, the socket queue with its `None` sentinel, the exit
    queue and the server/reader flags.
  - Each Python function that changes the process state is a method of
    `BridgeProcess` whose postcondition is a function of the old state. The
    loops of the server, the reader and the delivery carry invariants.
    `port_number` only computes a value and is the function `PortNumber`.
  - Lemmas prove what one delivery does to each socket and what one handled
    connection does. They also prove that the server stops exactly at the
    first EXIT request, that reading terminates, and that the state
    invariant is preserved across any interleaving of whole loop turns of
    the two threads.
- `Client` (`client.dfy`): `ChromeMessagingHandler` and its error cases.
  Lemmas connect it to the bridge: a client's EXIT request comes back as a
  successful reply with the request's id.
- `Extension` (`extension.dfy`): the command handler of `app/main.js`. The
  Chrome APIs' answers are inputs. `getExistingTabIds` keeps its nested
  loops and is proved equal to a filter. Every response is proved to echo
  the request id and to load in the client as a `ChromeResponse` with the
  same numbering of SUCCESS and ERROR.

### Behaviour of the code worth knowing

- **Delivery broadcasts.** `send_response_to_flts` does not match one
  response to one client. It sends the same response to every client queued
  up to the first `None` sentinel, closing each of them.
  `OneResponseReachesEveryWaitingClient` shows this.
- **End of stdin does not stop the server.** It only queues the `None`
  sentinel and ends the reader thread; the server thread can stay blocked in
  `accept` (`StillListening`).
- **An empty response closes only the first client.** `sys.exit(0)` in a
  delivery thread ends that thread and that delivery, not the process.
- **A short payload is delivered.** If the stream ends before the payload
  does, `read(n)` returns the bytes that are left and they are delivered.
  A negative length reads to the end of the stream.
- **`prop_dict` is ignored.** `BaseMessage.__init__` loads it while no
  attribute exists yet, so `hasattr` fails for every property. The
  defaults are then assigned. The constructors therefore ignore it.
- **A port out of range is not caught.** `bind` and `connect` raise
  OverflowError for a port outside 0..65535. Neither `start_server` nor
  `send_request` catches it, since it is not a `socket.error`. The bridge
  closes its server socket and exits with status 1; the client's error is
  `PortOverflow`.
- **`false` is a success.** `is_successful` compares with `==`, and in
  Python `False == 0`, so a reply whose type is `false` counts as SUCCESS.

## Model

| member | source | states |
|---|---|---|
| Messages.WireKey | host/flts-chrome-bridge.py:42-49 | the property table maps id, client_source, message_type and data one-to-one onto requestId, source, type and data |
| Messages.LoadObject | host/flts-chrome-bridge.py:63-90 | an object root yields its members; a list or string root that loads without raising yields nothing; null, boolean and number roots, and unparsable text, raise |
| Messages.LoadObjectOfDumped | host/flts-chrome-bridge.py:51-70 | parsing a dumped object gives back its members |
| Messages.NonObjectRootLoadsNothing | host/flts-chrome-bridge.py:86-90 | a list or string root that loads without raising leaves every property unchanged |
| Messages.ListRootRaises | host/flts-chrome-bridge.py:86-90 | a list root raises exactly when one of its elements is "requestId", "source", "type" or "data" |
| Messages.DictOfContents | host/flts-chrome-bridge.py:51-61 | the dict built over any list of properties has exactly their wire keys, each mapped to that property's value |
| Messages.ToDictContents | host/flts-chrome-bridge.py:42-61 | `to_json`'s dict has the keys requestId, source, type, data, holding id, client_source, message_type, data |
| Messages.LoadFromAt | host/flts-chrome-bridge.py:86-90 | after a loading loop over some properties, a property takes the dict's value if it is in the list and its wire key is present, else keeps its value |
| Messages.LoadDictAt | host/flts-chrome-bridge.py:86-90 | `_load_prop_from_dict` sets a property from its wire key when present and leaves it otherwise |
| Messages.LoadDictFields | host/flts-chrome-bridge.py:86-90 | the same, field by field for id, client_source, message_type and data |
| Messages.LoadDictIgnoresUnknownKeys | host/flts-chrome-bridge.py:86-90 | keys other than the four wire keys have no effect on loading |
| Messages.LoadToDictRoundTrip | host/flts-chrome-bridge.py:51-90 | loading a message's dict into any message reproduces the message |
| Messages.TextRoundTrip | host/flts-chrome-bridge.py:51-70 | `load_from_json(to_json())` reproduces the message through a codec whose parse inverts its render |
| Messages.SourceOfSpec | host/flts-chrome-bridge.py:72-84 | `source` succeeds exactly when loading does not raise, and returns the loaded "source" member, or "" when absent |
| Messages.SourceOfSerialized | host/flts-chrome-bridge.py:72-84 | the source of a serialised message is its client_source |
| Messages.BaseMessage.constructor | host/flts-chrome-bridge.py:31-40 | a new message has id "", source "", type -1 and data {} whatever prop_dict holds |
| Messages.BaseMessage.Request | host/flts-chrome-bridge.py:103-106 | a ChromeRequest has source "flts", the drawn uuid as id, type -1, data {} |
| Messages.BaseMessage.Response | host/flts-chrome-bridge.py:116-119 | a ChromeResponse has source "chrome", type UNKNOWN, id "" and data {} |
| Messages.BaseMessage.SetProp | host/flts-chrome-bridge.py:216-219 | assigning one attribute changes that field only |
| Messages.BaseMessage.LoadPropFromDict | host/flts-chrome-bridge.py:86-90 | the loop leaves the fields equal to `LoadDict` of the old fields |
| Messages.BaseMessage.ToJson | host/flts-chrome-bridge.py:51-61 | the loop renders exactly the four-key dict of the fields |
| Messages.BaseMessage.LoadFromJson | host/flts-chrome-bridge.py:63-70 | it succeeds iff the text loads without raising, and then loads it; on failure nothing changes |
| Messages.BaseMessage.IsSuccessfulResponse | host/flts-chrome-bridge.py:121-126 | true exactly when the type compares equal to SUCCESS: the number 0, or `false`, since Python has `False == 0` |
| Messages.Source | host/flts-chrome-bridge.py:72-84 | returns the loaded "source" member, "" when absent, and fails when loading raises |
| Framing.PackLength | host/flts-chrome-bridge.py:170 | the packed length is four bytes |
| Framing.Unsigned | host/flts-chrome-bridge.py:187 | the header's unsigned value is below 2^32 |
| Framing.UnpackLength | host/flts-chrome-bridge.py:187 | the signed value lies in [-2^31, 2^31) and is non-negative exactly when the unsigned one is below 2^31 |
| Framing.UnpackPack | host/flts-chrome-bridge.py:168-187 | every length below 2^32 reads back unsigned as itself; read signed, lengths below 2^31 come back unchanged and larger ones as the length minus 2^32 |
| Framing.EncodeFrame | host/flts-chrome-bridge.py:168-173 | a frame is the packed length followed by the payload |
| Framing.ReadFrame | host/flts-chrome-bridge.py:177-190 | empty input is the end of the stream, 1-3 bytes a bad header; otherwise header, payload and rest partition the input, and the payload has the declared length when that many bytes remain, else it is everything left (a short read, or a negative length) |
| Framing.ReadEncodedFrame | host/flts-chrome-bridge.py:168-190 | reading a written frame gives its payload and leaves the following bytes |
| Framing.ReadEncodedFrames | host/flts-chrome-bridge.py:176-195 | reading a stream of written frames gives every payload in order, then a clean end of stream |
| Bridge.Received | host/flts-chrome-bridge.py:225 | one receive yields a prefix of the request of at most 4096 bytes, all of it when it fits |
| Bridge.FirstNoMore | host/flts-chrome-bridge.py:199-202 | the delivery loop stops at the first sentinel; every item before it is a waiting client |
| Bridge.ReadOneMeasure | host/flts-chrome-bridge.py:176-195 | each reader turn strictly decreases the unread input or stops the reader |
| Bridge.DeliverKeeps | host/flts-chrome-bridge.py:198-211 | a delivery changes only the socket queue and the sockets |
| Bridge.DeliverBroadcast | host/flts-chrome-bridge.py:198-211 | a non-empty response is sent to, and closes, exactly the clients queued before the first sentinel; the queue drops them and the sentinel |
| Bridge.DeliverEmptyCases | host/flts-chrome-bridge.py:198-207 | an empty queue changes nothing; an empty response closes the first client only; a leading sentinel is consumed alone |
| Bridge.DeliverValid | host/flts-chrome-bridge.py:198-211 | delivery keeps the bridge invariant |
| Bridge.SingleWaitingClientGetsResponse | host/flts-chrome-bridge.py:198-211 | with one client queued, that client gets the response and is closed |
| Bridge.OneResponseReachesEveryWaitingClient | host/flts-chrome-bridge.py:198-211 | with two clients queued, both get the first response |
| Bridge.ExitReplyDecodes | host/flts-chrome-bridge.py:214-221 | the exit reply reads back as source "chrome", SUCCESS, the request id and "Bridge about to close" |
| Bridge.HandleConnectionSpec | host/flts-chrome-bridge.py:224-240 | a non-flts request is dropped; EXIT is answered and closed and signals the exit queue; anything else is framed to stdout and its socket queued |
| Bridge.ExitReplyEchoesId | host/flts-chrome-bridge.py:229-234 | the id in the exit reply is the request's requestId, or the fresh uuid when absent |
| Bridge.ForwardedFrameReadsBack | host/flts-chrome-bridge.py:238 | a forwarded request is read back by Chrome's side as exactly the received bytes |
| Bridge.HandleConnectionValid | host/flts-chrome-bridge.py:224-240 | handling a fresh socket keeps the invariant |
| Bridge.ServeOneValid | host/flts-chrome-bridge.py:249-261 | one server turn keeps the invariant |
| Bridge.ReadOneValid | host/flts-chrome-bridge.py:176-195 | one reader turn keeps the invariant |
| Bridge.ServeOneSpec | host/flts-chrome-bridge.py:249-261 | a server turn consumes one client and stops listening exactly on an EXIT request |
| Bridge.FirstExit | host/flts-chrome-bridge.py:227-231 | the index of the first EXIT request among the clients |
| Bridge.ServeStopsAtFirstExit | host/flts-chrome-bridge.py:243-267 | the server accepts clients up to and including the first EXIT request, then closes; with none it keeps listening |
| Bridge.ReadOneAtEnd | host/flts-chrome-bridge.py:179-184 | a zero-byte read puts the None sentinel on the socket queue and stops the reader |
| Bridge.ReadOneBadHeader | host/flts-chrome-bridge.py:186-187 | a header of 1 to 3 bytes stops the reader without queueing the sentinel |
| Bridge.ReadAllStops | host/flts-chrome-bridge.py:176-195 | the reader always terminates and keeps the invariant |
| Bridge.ReadAllKeepsServer | host/flts-chrome-bridge.py:176-195 | the reader does not touch the server's listening flag or backlog |
| Bridge.ServeForwarded | host/flts-chrome-bridge.py:249-261 | serving a forwarded request writes its frame and leaves its socket open and alone in the queue |
| Bridge.ForwardThenRespond | host/flts-chrome-bridge.py:176-240 | a forwarded request followed by Chrome's framed response delivers that response to its client and closes it |
| Bridge.RunScheduleKeepsStoppedServer | host/flts-chrome-bridge.py:176-195 | with the server closed and not listening, any schedule of turns leaves it closed and not listening: only the reader moves |
| Bridge.RunScheduleValid | host/flts-chrome-bridge.py:279-285 | any interleaving of server and reader turns keeps the invariant |
| Bridge.ServeValid | host/flts-chrome-bridge.py:243-267 | the server loop keeps the invariant and never ends listening with a client left; a server that never listened is left as it was; one that stops listening has its socket closed |
| Bridge.PortNumber | host/flts-chrome-bridge.py:148-164 | the configured port, and -1 exactly when none is configured or the configuration says -1 |
| Bridge.PortInRange | host/flts-chrome-bridge.py:247 | defined as the range 0..65535 that `bind` and `connect` accept; a port in range is never the no-port value -1 |
| Bridge.RunBridgeSpec | host/flts-chrome-bridge.py:243-287 | exit status 1 exactly when no port is configured or the port is outside 0..65535 (the uncaught OverflowError of `bind`, after which the server socket is closed); with no port nothing changes; otherwise status 0 exactly when the server stopped, else it is blocked in accept with no client left |
| Bridge.BridgeProcess.constructor | host/flts-chrome-bridge.py:270-272 | the process starts with empty queues and the given input and clients |
| Bridge.BridgeProcess.SendRequestToChrome | host/flts-chrome-bridge.py:168-173 | stdout grows by one frame, nothing else changes |
| Bridge.BridgeProcess.SendResponseToFlts | host/flts-chrome-bridge.py:198-211 | the loop leaves the state `Deliver` gives |
| Bridge.BridgeProcess.ExitResponse | host/flts-chrome-bridge.py:214-221 | the exit reply is sent on the socket, which is closed |
| Bridge.BridgeProcess.HandleClientConnection | host/flts-chrome-bridge.py:224-240 | the state `HandleConnection` gives |
| Bridge.BridgeProcess.DrainExitQueue | host/flts-chrome-bridge.py:259-261 | the loop empties the exit queue and stops listening iff it held a None |
| Bridge.BridgeProcess.ListenOn | host/flts-chrome-bridge.py:244-248 | listening starts iff the bind succeeds; a failed bind closes the server |
| Bridge.BridgeProcess.ServeNext | host/flts-chrome-bridge.py:249-261 | one accept, handle and drain |
| Bridge.BridgeProcess.ServeAll | host/flts-chrome-bridge.py:249-261 | the loop leaves the state `Serve` gives |
| Bridge.BridgeProcess.StartServer | host/flts-chrome-bridge.py:243-267 | bind, then serve until stopped |
| Bridge.BridgeProcess.ReadNext | host/flts-chrome-bridge.py:177-195 | one reader turn |
| Bridge.BridgeProcess.ReadThreadFunc | host/flts-chrome-bridge.py:176-195 | the loop leaves the state `ReadAll` gives |
| Bridge.BridgeProcess.RunTurns | host/flts-chrome-bridge.py:249-261 | the two threads' loop turns in schedule order leave the state `RunSchedule` gives |
| Bridge.BridgeProcess.StartBridge | host/flts-chrome-bridge.py:243-287 | the final state and exit status `RunBridge` gives |
| Client.SendOutcome | host/client.py:141-171 | no port fails before anything is sent; a port outside 0..65535 fails with the uncaught OverflowError of `connect`, sending nothing; the request is sent exactly when a connection is made, and what is sent is its JSON text; a response is returned exactly when the reply loads; a socket error is re-raised with its text |
| Client.ListReplyGivesDefaults | host/client.py:157-171 | a reply that parses to a list holding no wire key returns the ChromeResponse defaults without raising |
| Client.ChromeMessagingHandler.constructor | host/client.py:120-121 | the port is the one given, -1 by default |
| Client.ChromeMessagingHandler.SetPortNumber | host/client.py:132-139 | the getter then returns the port set |
| Client.ChromeMessagingHandler.SendRequest | host/client.py:141-171 | no port raises before connecting; a port outside 0..65535 raises OverflowError from `connect`; a socket error is re-raised; otherwise the request is sent and the reply loaded into a ChromeResponse |
| Client.ResponseKeepsDefaults | host/client.py:157-171 | the returned response keeps the ChromeResponse default for each key the reply lacks |
| Client.RequestReachesBridge | host/flts-chrome-bridge.py:224-231 | a sent request is routed by its own source and recognised as EXIT exactly when it is one |
| Client.ExitRoundTrip | host/client.py:141-171 | an EXIT request makes the bridge reply on that socket and close it, and the client returns a successful response with the request id |
| Extension.GetExistingTabIds | app/main.js:176-197 | the nested loops return the requested ids present in some window, in request order |
| Extension.ExistingTabIdsSpec | app/main.js:186-192 | an id is kept iff it was requested and exists, as many times as it was requested |
| Extension.ExistingTabIdsOrdered | app/main.js:186-192 | the kept ids are a subsequence of the requested ones |
| Extension.AllTabIdsSpec | app/main.js:180-185 | the collected ids are exactly the ids of the tabs of every window |
| Extension.TabIdsSpec | app/main.js:182-184 | the ids of one window are exactly those of its tabs |
| Extension.SendFLTSResponse | app/main.js:102-111 | the posted object has the keys type, data, source and requestId, and the client loads it as those values with source "chrome" |
| Extension.RenameTab | app/main.js:115-146 | answered exactly when data is not null; the answer echoes the id and is SUCCESS exactly when some tab matched |
| Extension.ValidIds | app/main.js:149-151 | usable exactly when data is an object with a non-null tabIds; every id kept is the id of an existing tab; for an array, an id is kept iff it was requested and exists, as often as it was requested and in request order; any other value keeps none |
| Extension.CloseTabs | app/main.js:149-170 | answered exactly when the tab ids are usable; the answer echoes the id and is SUCCESS exactly when `ValidIds` keeps an id (which `CloseOutcome` ties to the requested ids) |
| Extension.ParseCommand | app/main.js:81-99 | every answer echoes the id from "chrome"; no answer only for a rename with null data or a close without usable tab ids |
| Extension.OnFLTSCommand | app/main.js:60-78 | only a message with own type, data and requestId, and no own hasOwnProperty, is answered, with the id echoed |
| Extension.OnFLTSCommandResponds | app/main.js:60-111 | a message without type, data and requestId gets no response; any response comes from "chrome", echoes requestId and is SUCCESS or ERROR |
| Extension.OnFLTSCommandSilent | app/main.js:115-170 | a well-shaped command goes unanswered iff a rename has null data or a close has no usable tabIds |
| Extension.UnknownTypeIsError | app/main.js:81-99 | a type other than RENAME and CLOSE gets ERROR "Request type could not be determined" |
| Extension.RenameOutcome | app/main.js:115-146 | a rename succeeds iff a tab matches, reporting the first match's ids, else ERROR "Tab not found" |
| Extension.CloseOutcome | app/main.js:149-170 | a close succeeds ("Tabs closed") iff some kept id exists, which for an array of ids is iff some requested id is an existing tab; else ERROR "No matching tabs to close" |
| Extension.ResponseReadByClient | app/main.js:102-111 | the posted response loads in the client as type, data, source "chrome" and the echoed id; it is successful iff its type is SUCCESS, and both sides number SUCCESS, ERROR and UNKNOWN alike |

## Left out

- **Threads:** the threads and the blocking `Queue` semantics are modelled
  as a schedule of server and reader turns. After the schedule the server
  runs to its end and then the reader does. Delivery threads run to
  completion when they are started. A server turn is atomic: the model
  does not capture the window between `send_request_to_chrome(message)`
  and `socket_queue.put(client_socket)` (host/flts-chrome-bridge.py:238-240),
  in which a response Chrome writes finds the queue empty and is dropped, so
  `ForwardThenRespond` holds only because turns are atomic.
- **Sockets:** real sockets are handles with a log of the bytes sent and a
  closed flag. A socket the handler neither answers nor queues (a request
  that does not load or does not come from `flts`) stays open in the
  model. In CPython it is closed once `client_sock` is rebound at the next
  `accept` and the old socket object is collected. A single `recv(4096)`
  is modelled as truncation to 4096 bytes; a recv that returns fewer
  bytes than were sent is not modelled.
- **Handles:** a Python socket is a value that the server hands over, not a
  number. `nextHandle` stands for the identity of each accepted socket.
- **Socket errors:** a socket error once the bridge is connected (during
  `sendall` or `recv`) is not modelled. The bridge's sockets never fail
  after `accept`. In the client, the only failure modelled is the error
  that replaces the whole exchange.
- **Process environment:** `msvcrt.setmode`, the file logger and
  `ConfigParser` are left out. The configured port is an input
  (`PortNumber`). A `ValueError` from `int()` on a non-numeric port is not
  modelled.
- **JSON:** the JSON text grammar is abstract (a `Codec`), as are number
  formats and floats. Which exception a failed load raises (ValueError or
  TypeError) is not distinguished; each one ends the handler thread, or
  propagates out of `send_request`.
- **UUIDs:** `uuid4()` is part of each connection's input.
- **UTF-8:** the `.decode('utf-8')` of a response and its failure on
  invalid text are not modelled. Payloads are bytes. `client.sendall(response)`
  then sends that decoded text: in Python 2, text with a non-ASCII
  character raises UnicodeEncodeError after the client has been taken off
  the socket queue and before anything is written to it or it is closed.
  The model sends the bytes unchanged and closes the socket.
- **Extension UI and samples:** the UI functions of `app/main.js` (`connect`,
  `updateUiState`, `appendMessage`, `onDisconnected`) and `getKeys` are left
  out, as are the sample callers of `host/client.py` (`exit_bridge`,
  `rename_tab` and the script body). They only print, draw or build sample
  requests.
- **Chrome APIs:** `chrome.tabs.query`, `chrome.windows.getAll`,
  `executeScript` and `tabs.remove` are inputs (`ChromeState`). Their
  callbacks always run, and the tabs they rename or remove are not
  modelled.
- Extension.ValidIds: a `tabIds` that is a string, or an object with a
  `length` property, has its characters or indexed properties compared with
  the tab ids. The model treats every non-array value as holding no ids,
  which gives the same response for strings but not for such objects.
- Bridge.BridgeProcess.StartBridge: the reader thread is a daemon and
  `stdin_thread.join()` waits for it. A reader that never reaches the end of
  its input would keep the process alive; the model's input is finite.
- Bridge.BridgeProcess.SendRequestToChrome: it requires a message shorter
  than 2^31 bytes, where `struct.pack('I')` accepts up to 2^32. Every
  forwarded message comes from one receive of at most 4096 bytes.
