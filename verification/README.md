# sharefrom: signaling relay, client connection and worker gate in Dafny

sharefrom moves a file from one device to another over a WebRTC data channel. The
two devices find each other through a Cloudflare worker. Its Durable Object,
`SignalingServer`, pairs the two WebSockets of a session, a *laptop* and a *phone*,
and relays their offer, answer and ICE-candidate messages. The browser class
`WebRTCConnection` keeps the signaling socket alive. It sets up the peer connection,
cuts a file into 16384-byte frames on the sending side and reassembles them on the
receiving side. In front of the Durable Object, the worker's `fetch` checks every
signaling request and adds security headers to every response.

The model has five modules:

- `Wire` (wire.dfy) holds what the parts share: the two roles, the JSON envelopes of
  the signaling protocol, and the parts of a request the worker reads.
- `Relay` (relay.dfy) models worker/SignalingServer.ts.
  - The relay's state is a `Table`: the sessions map, plus one `Link` per server-side
    socket. A link holds its open flag, the calls made on it, and the (session, role)
    its listeners were registered with.
  - `Connect`, `Forward`, `Disconnect` and `Dispatch` give the state after each
    handler. The lemmas about them state the relay's rules and its invariant.
  - `class SignalingServer` holds the `sessions` map and the sockets as fields. Each
    of its methods is proved to produce exactly the state the matching function
    gives.
- `FileTransfer` (filetransfer.dfy) covers the framing `sendFile` emits and the
  receiving state machine of `handleDataChannelMessage`, with the round-trip theorem.
- `Connection` (connection.dfy) models `class WebRTCConnection`.
  - Browser objects are handles, and every call made on them goes into a log,
    `calls`.
  - Browser events (open, error, close, timeout, message, ICE candidate, data
    channel) are methods.
  - The reconnect rule is the function `CloseStep`, with lemmas over runs of closes.
  - Each method's `modifies` clause names only the fields it writes, so a handler
    provably leaves every other field, the callback flags included, as it was. Every
    method keeps `Valid()`: the counter stays within 3, and the socket and peer
    connection held are handles already allocated.
- `Gateway` (gateway.dfy) models worker/index.ts: the session-id allow-list, the
  ordered checks on `/api/signal/connect`, and the security-header merge. The merge
  is modelled both on a fresh header map and in place on the asset response's headers.

## Model

| member | source | states |
|---|---|---|
| Wire.Role.Other | worker/SignalingServer.ts:97 | the peer role is always the other one of the two slots |
| Relay.Session.Clear | worker/SignalingServer.ts:111-116 | clearing a role empties that slot only; the other slot and createdAt are kept |
| Relay.Accept | worker/SignalingServer.ts:69-86 | handleWebSocket opens the socket, binds its listeners to (id, role) and appends accept plus the greeting to its log; no session and no other socket changes |
| Relay.Connect | worker/SignalingServer.ts:19-67 | a refusal is 400, 426 or 409 and changes no existing session; on 101 the reply names the fresh socket, which is open; no socket that existed before is touched |
| Relay.Forward | worker/SignalingServer.ts:88-105 | handleMessage changes no session and opens, closes or rebinds no socket; each socket's log is unchanged or gains exactly the forwarded text |
| Relay.Disconnect | worker/SignalingServer.ts:107-129 | handleClose adds no session and no socket, rebinds no socket and opens none |
| Relay.Dispatch | worker/SignalingServer.ts:72-82 | no socket event adds a session or a socket, rebinds a socket's listeners or reopens a socket |
| Relay.GuardsPrecedeLookup | worker/SignalingServer.ts:23-32 | a missing or empty `session` gets 400 and a missing or wrong `Upgrade` gets 426, both with the table unchanged; so the sessions map changes only for a request that passed both |
| Relay.RoleAssignment | worker/SignalingServer.ts:39-61 | laptop slot free ⇒ the new socket takes it; else phone slot free ⇒ it takes that; else 409 with the sessions map unchanged; no other session changes |
| Relay.SessionGetOrCreate | worker/SignalingServer.ts:39-47 | an unseen id adds exactly that key, a new session whose laptop is the new socket and whose createdAt is now; an existing session keeps its createdAt |
| Relay.GreetingNamesRole | worker/SignalingServer.ts:63-86 | on 101 the socket is fresh and open, holds the slot of some role, and its only calls are accept plus one `{type:'connected', role}` naming that role |
| Relay.ConnectKeepsInv | worker/SignalingServer.ts:19-67 | fetch keeps the invariant: slots hold issued sockets, and each socket's listeners are bound to the slot holding it; no empty session is stored |
| Relay.RelayDelivery | worker/SignalingServer.ts:88-101 | for every socket, a message that parses is appended verbatim to the other role's socket if that socket is open; no session, slot or other socket changes |
| Relay.RelayDrops | worker/SignalingServer.ts:89-90 | unknown session, text that fails to parse, or an absent or closed target: the table is unchanged, nothing is buffered |
| Relay.RelayNeverEchoes | worker/SignalingServer.ts:72-100 | a message from any socket, including one whose slot an error event cleared while it stays open and bound, is never sent back to that socket; in particular the slot holder's own message never is |
| Relay.SlotsAreDistinct | worker/SignalingServer.ts:51-61 | under the invariant, two different (session, role) slots never hold the same socket |
| Relay.RelayKeepsInv | worker/SignalingServer.ts:88-105 | handleMessage keeps the invariant |
| Relay.DisconnectSlots | worker/SignalingServer.ts:107-128 | closing role R clears only R's slot; the session is deleted exactly when the other slot is empty too; no other session changes |
| Relay.DisconnectNotifies | worker/SignalingServer.ts:118-123 | the other role's socket, if open, gets exactly one `peer-disconnected` and then close(1000, "Other peer disconnected"); every other socket, the closing one included, is untouched |
| Relay.DisconnectUnknown | worker/SignalingServer.ts:108-109 | a close for an unknown session id changes nothing |
| Relay.DisconnectKeepsInv | worker/SignalingServer.ts:107-129 | handleClose keeps the invariant |
| Relay.DispatchKeepsInv | worker/SignalingServer.ts:72-82 | the message, close and error listeners keep the invariant |
| Relay.ThirdConnectionRefused | worker/SignalingServer.ts:51-61 | for a fresh id the first socket is the laptop and the second the phone; a third gets 409 and leaves the sessions alone |
| Relay.Lifecycle | worker/SignalingServer.ts:19-129 | whole session: laptop then phone; the phone's offer reaches the laptop after its greeting; the laptop's close tells the phone once and closes it while the session stays; the phone's close deletes the session |
| Relay.SignalingServer.constructor | worker/SignalingServer.ts:15-17 | the relay starts with no sessions and no sockets |
| Relay.SignalingServer.Fetch | worker/SignalingServer.ts:19-67 | the new sessions map, sockets and response are exactly those `Connect` gives, and the invariant is kept |
| Relay.SignalingServer.HandleWebSocket | worker/SignalingServer.ts:69-86 | the socket is accepted, bound to (id, role), and sent its greeting |
| Relay.SignalingServer.HandleMessage | worker/SignalingServer.ts:88-105 | the new state is exactly `Forward` of the old one, and the invariant is kept |
| Relay.SignalingServer.HandleClose | worker/SignalingServer.ts:107-129 | the new state is exactly `Disconnect` of the old one, and the invariant is kept |
| Relay.SignalingServer.OnSocketEvent | worker/SignalingServer.ts:72-82 | a socket event runs the listener registered for that socket, and the invariant is kept |
| FileTransfer.ChunksFrom | src/webrtc.ts:183-191 | every slice the loop cuts is non-empty and at most 16384 bytes |
| FileTransfer.Binaries | src/webrtc.ts:186-191 | one binary frame per chunk, the i-th carrying the i-th chunk |
| FileTransfer.Frames | src/webrtc.ts:168-195 | the metadata frame (name, byte size, MIME type) comes first and `file-end` last; everything between is a binary frame of 1 to 16384 bytes |
| FileTransfer.ChunksReassemble | src/webrtc.ts:183-191 | the chunks read in order concatenate to the file's bytes from the offset on |
| FileTransfer.ChunkSizes | src/webrtc.ts:183-191 | there are ⌈n/16384⌉ chunks, none for an empty file; each is 16384 bytes except the last, which is non-empty and at most 16384 |
| FileTransfer.FramesShape | src/webrtc.ts:174-194 | the frames are one metadata frame (name, size, MIME type), then only binary chunk frames, then one `file-end`; the chunks concatenate to the file |
| FileTransfer.Receive | src/webrtc.ts:200-226 | a delivery leaves the receiver idle and carries the buffer's bytes; only a metadata frame or a delivery changes the pending metadata; a parse failure changes nothing |
| FileTransfer.ReceiveRules | src/webrtc.ts:200-226 | a file is delivered exactly on `file-end` with metadata pending (buffer concatenated, pending name and MIME type), after which both fields are cleared; a binary frame is always appended; a metadata frame empties the buffer; `file-end` with nothing pending, other types and text that fails to parse change nothing |
| FileTransfer.ReceiveAllAppend | src/webrtc.ts:200-226 | feeding a+b is feeding a, then b from the state a left; delivered files concatenate |
| FileTransfer.ReceiveChunks | src/webrtc.ts:222-225 | binary frames only append to the buffer, in order, whatever the metadata, and deliver nothing |
| FileTransfer.RoundTrip | src/webrtc.ts:174-226 | from any receiver state, the frames of file f deliver exactly [f] (same name, MIME type and bytes) and leave the receiver idle |
| FileTransfer.StreamRoundTrip | src/webrtc.ts:168-226 | files sent one after another arrive as the same files in the same order |
| Connection.CloseStep | src/webrtc.ts:54-63 | the counter grows by one exactly when a reconnect is scheduled, and never passes 3 |
| Connection.CloseStepRule | src/webrtc.ts:54-63 | a reconnect is scheduled exactly for an unclean close below 3 attempts, and the counter then grows by exactly one; otherwise the counter is unchanged; it never passes 3 |
| Connection.CloseRunBound | src/webrtc.ts:54-63 | across any run of closes the counter stays ≤ 3, and the reconnects scheduled equal the counter's growth, so at most 3 |
| Connection.UncleanRunExhausts | src/webrtc.ts:54-63 | enough unclean closes in a row bring the counter to exactly 3 |
| Connection.SignalCalls | src/webrtc.ts:119-150 | at most four calls; the only socket send is the answer, on the signaling socket |
| Connection.SignalDispatch | src/webrtc.ts:119-150 | an offer first sets the remote description and sends exactly one message, the answer, last; answer and ICE candidate pass their payload unchanged and send nothing; other types make no call |
| Connection.SendsOn | src/webrtc.ts:180-194 | one `dataChannel.send` per frame, the i-th sending the i-th frame on the channel |
| Connection.CloseCalls | src/webrtc.ts:240-243 | close makes at most three calls, and each closes a primitive |
| Connection.CloseCallsOnce | src/webrtc.ts:240-243 | close calls nothing when all three are null, and otherwise closes each present primitive exactly once |
| Connection.WebRTCConnection.constructor | src/webrtc.ts:10-22 | a connection starts with no socket, peer, channel, callbacks or buffered file, and 0 attempts |
| Connection.WebRTCConnection.SetOnFileReceived | src/webrtc.ts:228-230 | registers the file callback; it may write that flag only, so every other field is unchanged |
| Connection.WebRTCConnection.SetOnConnectionStateChange | src/webrtc.ts:232-234 | registers the state callback; it may write that flag only, so every other field is unchanged |
| Connection.WebRTCConnection.SetOnError | src/webrtc.ts:236-238 | registers the error callback; it may write that flag only, so every other field is unchanged |
| Connection.WebRTCConnection.Report | src/webrtc.ts:50 | `onError?.()` calls the callback only when one is registered; only the call log changes |
| Connection.WebRTCConnection.Reject | src/webrtc.ts:31-61 | a reject settles only a pending promise; the reject of a reconnect's promise reaches onError through its catch; only the promise and the call log change |
| Connection.WebRTCConnection.Connect | src/webrtc.ts:24-37 | opens exactly one socket, a fresh handle, at `ws(s)://host/api/signal/connect?session=id`, arms the timeout, and leaves a pending promise; only ws, the handle counter, the log, the timeout and the promise change |
| Connection.WebRTCConnection.OnSocketOpen | src/webrtc.ts:38-44 | disarms the timeout, resets the counter to 0, creates one peer connection with a fresh handle, and resolves; ws, the channel, the receiver and the callbacks are unchanged |
| Connection.WebRTCConnection.OnSocketError | src/webrtc.ts:46-52 | disarms the timeout, reports "Failed to connect to signaling server", and rejects the pending promise with it; only the timeout, the promise and the log change |
| Connection.WebRTCConnection.OnConnectTimeout | src/webrtc.ts:34-36 | only an armed timeout fires, and it rejects the pending promise with the timeout message; only the timeout, the promise and the log change |
| Connection.WebRTCConnection.OnSocketClose | src/webrtc.ts:54-63 | the counter moves as `CloseStep` says, and one reconnect is scheduled after 2000 ms exactly when it says so; only the timeout, the counter and the log change |
| Connection.WebRTCConnection.OnReconnectTimer | src/webrtc.ts:59-61 | the timer calls connect again: a fresh socket, the timeout armed, a pending promise whose failure goes to onError; the counter, peer, channel, receiver and callbacks are unchanged |
| Connection.WebRTCConnection.OnSocketMessage | src/webrtc.ts:65-72 | text that fails to parse is reported and nothing else happens; parsed values are dispatched as handleSignalingMessage says, and its `null` failure is reported; only pc, ws, the channel and the log can change |
| Connection.WebRTCConnection.HandleSignalingMessage | src/webrtc.ts:119-150 | with no peer nothing happens; `peer-disconnected` runs close; `null` fails on reading its type; any other value makes exactly the calls of `SignalCalls`; only pc, ws, the channel and the log can change |
| Connection.WebRTCConnection.OnIceCandidate | src/webrtc.ts:81-88 | a candidate is sent as `ice-candidate` only when present and the socket is open; only the log changes |
| Connection.WebRTCConnection.OnConnectionStateChange | src/webrtc.ts:90-95 | the state goes to the callback only while there is a peer connection and a callback; only the log changes |
| Connection.WebRTCConnection.OnDataChannel | src/webrtc.ts:97-100 | the answering side adopts the channel it was given; nothing else changes |
| Connection.WebRTCConnection.CreateOffer | src/webrtc.ts:152-166 | with no peer it fails with "Peer connection not initialized" and changes nothing; otherwise it opens channel `fileTransfer` under a fresh handle, makes and sets the offer, and sends exactly one `offer` message; only the channel, the handle counter and the log change |
| Connection.WebRTCConnection.SendFile | src/webrtc.ts:168-195 | without an open channel it fails with "Data channel not ready" and sends nothing; otherwise it sends exactly the frames `Frames(file)` in order; only the log changes |
| Connection.WebRTCConnection.SendChunks | src/webrtc.ts:183-191 | the loop sends one binary frame per chunk of `Chunks(content)`, in order, and changes nothing but the call log |
| Connection.WebRTCConnection.HandleDataChannelMessage | src/webrtc.ts:200-226 | the buffer and metadata move as `Receive` says, and a delivered file goes to the callback; only those two fields and the log change |
| Connection.WebRTCConnection.Close | src/webrtc.ts:240-247 | pc, ws and dataChannel are all null afterwards; each present one is closed once; a second close calls nothing; nothing else changes |
| Gateway.MatchRun | worker/index.ts:42 | a match has between lo and hi characters, all in the class |
| Gateway.IsValidSessionId | worker/index.ts:40-43 | an accepted id has 1 to 64 characters, all in `[0-9A-Za-z_-]` |
| Gateway.MatchRunMeaning | worker/index.ts:42 | the anchored run `[class]{lo,hi}$` matches exactly when the length is within lo..hi and every character is in the class |
| Gateway.SessionIdAllowList | worker/index.ts:40-43 | a session id is valid exactly when 1 ≤ length ≤ 64 and every character is in `[0-9A-Za-z_-]` |
| Gateway.RefusedIds | worker/index.ts:40-43 | "../evil", the empty id and any 200-character id are refused |
| Gateway.SetUnlessCsp | worker/index.ts:28-31 | one pass of the loop: the key is present afterwards with the entry's value, or with its old value when it is an existing CSP; no other header changes |
| Gateway.ApplyEntries | worker/index.ts:28-32 | the loop removes no header and leaves every entry's name present |
| Gateway.Secured | worker/index.ts:26-32 | the merged headers keep every existing name and hold all six security header names |
| Gateway.TextResponse | worker/index.ts:52-54 | a refusal response has the given status and text and carries no security header before the merge |
| Gateway.LookupAt | worker/index.ts:6-24 | with distinct keys, each header entry is found under its own name |
| Gateway.LookupMissing | worker/index.ts:6-24 | a name no entry carries is not found |
| Gateway.ApplyEntriesAt | worker/index.ts:28-32 | per key: a name no entry carries keeps its presence and value; a name an entry carries holds the entry's value, except that an existing CSP keeps its own |
| Gateway.SecuredHeaders | worker/index.ts:6-38 | every security header is present; an existing CSP keeps its value, else it gets the policy; the other five are overwritten; every other header keeps its presence and value |
| Gateway.WithSecurityHeaders | worker/index.ts:26-38 | status, statusText and body are kept and the headers become `Secured` of the old ones |
| Gateway.SignalGate | worker/index.ts:50-84 | a refusal is 405, 403 or 400; a forwarded request is a GET whose `session` parameter is the forwarded id, of 1 to 64 characters |
| Gateway.GateOrder | worker/index.ts:50-84 | non-GET gets 405 first; then a present Origin with another host or one that fails to parse gets 403; then a missing id 400; then an id outside the allow-list 400; a request is forwarded exactly when it passes all four, under its own id |
| Gateway.ForwardedHasSession | worker/index.ts:74-84 | a forwarded request always passes the Durable Object's missing-id guard |
| Gateway.Headers.constructor | worker/index.ts:97-104 | a headers object starts with the given entries |
| Gateway.Fetch | worker/index.ts:45-106 | a rejected signaling request gets its status and text with security headers, and the stub is not called; a forwarded one returns the stub's response, unchanged on 101 and secured otherwise; any other path returns the asset response itself with its headers secured in place |

## Left out

- Time and randomness are parameters. `Date.now()` is the `now` argument of
  `Connect`. The answer and offer a peer connection produces are arguments too.
- JSON is a datatype. `JSON.parse` and `JSON.stringify` are replaced by `Message`,
  `Control` and a `Malformed`/`Unparsable` case for text that does not parse.
  `Message` covers every value that parses: the five envelopes, `null`, and any
  other value as `Unrecognised`.
- A text that parses is held as its parsed value, not its characters. Two texts
  that parse to the same value (differing in whitespace or key order) are not told
  apart, so the relay is shown to forward the same value, not the same characters.
- `new URL(...)` is reduced to the host it yields, or none when it throws. Header
  names are compared exactly; the case-insensitivity of `Headers` is left out.
- Async interleaving is left out. Each handler runs to completion as one step. A
  rejection from an RTCPeerConnection call, and the `onError` it would reach through
  the `catch` of `ws.onmessage`, is left out.
- `Connection.WebRTCConnection.SendFile`, `Connection.WebRTCConnection.HandleSignalingMessage`
  and `Connection.WebRTCConnection.CreateOffer` assume that every
  `dataChannel.send` and `ws.send` succeeds. In the browser, `dataChannel.send` throws
  once the channel is no longer open or its send queue is full. The 16384-byte loop
  does not wait for the queue to drain, and `readyState` is read only once, before the
  first frame. Such a throw would end sendFile part-way, with no `file-end`, and the
  receiver would keep a partial buffer. `ws.send` throws while the socket is still
  connecting; in handleSignalingMessage that throw would reach `onError`. None of
  these failures is modelled.
- Timers are events. The 10-second connect timeout is the flag `timeoutArmed` plus
  the event `OnConnectTimeout`. The 2000 ms reconnect delay is a recorded
  `ScheduleReconnect(2000)` plus the event `OnReconnectTimer`.
- The `if (!this.ws)` reject at src/webrtc.ts:32 is not modelled. It cannot be
  reached, because the socket is assigned on the line before.
- Console logging, the STUN server list and the `dataChannel.onopen`/`onclose`
  handlers that only log are left out.
- The readyState of a socket or channel is a parameter of the method that reads it.
- Handlers of older sockets and peer connections are not told apart from the current
  ones. Events are delivered to the connection object.
- `Connection.WebRTCConnection.OnSocketMessage`: the messages of the SyntaxError
  `JSON.parse` throws and of the TypeError reading `.type` of `null` throws are
  engine-specific. Each is represented by one constant.
- `FileTransfer.Receive`: text frames on the receiving side that fail to parse, or
  that parse to `null`, throw out of the handler, which has no try/catch. The model leaves the state unchanged
  and reports `ParseError`; it claims no recovery.
- The real `Blob`/`File` objects are not modelled. A file is its name, MIME type and
  byte sequence.
- Retrying after a failed first connect: the code retries on any unclean close,
  including one before the socket ever opened (src/webrtc.ts:54-63). The model
  follows the code.
- Session eviction after inactivity is left out because the code has none;
  `createdAt` is stored but never read.
- Checking the relayed message's `type` is left out because the relay only checks
  that the text parses.
- src/main.ts and src/analytics.ts are not part of this model: they are DOM rendering,
  QR drawing, `crypto.randomUUID` and wrappers around an analytics script.
- The Durable Object namespace (`idFromName`, `get`, `stub.fetch`) and the ASSETS
  binding are inputs to `Gateway.Fetch`: the stub's response and the asset's headers.
