/**
 * The browser side of src/webrtc.ts: the `WebRTCConnection` class with its signaling
 * socket, peer connection and data channel, the reconnect counter, the dispatch of
 * signaling messages, `sendFile` and the receiving state machine.
 *
 * The browser primitives (WebSocket, RTCPeerConnection, RTCDataChannel, timers and
 * the registered callbacks) are opaque handles; every call the class makes on them is
 * appended to the log `calls`. Their own state (a socket's or channel's readyState,
 * the answer or offer a peer connection produces) is read from the browser and so is
 * a parameter of the method that reads it. Events the browser raises are methods.
 */
module Connection {
  import opened Wire
  import opened FileTransfer

  const MaxReconnectAttempts: nat := 3
  const ReconnectDelayMs: nat := 2000
  const ConnectTimeoutMs: nat := 10000
  const ChannelLabel: string := "fileTransfer"

  const SignalFailure: string := "Failed to connect to signaling server"
  const TimeoutFailure: string := "Connection timeout - please check your internet connection"
  const NoPeer: string := "Peer connection not initialized"
  const ChannelNotReady: string := "Data channel not ready"
  /** Stands for the message of the SyntaxError JSON.parse throws; its wording is the engine's. */
  const ParseFailure: string := "JSON.parse: unexpected input"
  /** Stands for the message of the TypeError reading `.type` of `null` throws; its wording is the engine's. */
  const NullAccess: string := "Cannot read properties of null (reading 'type')"

  /** An opaque browser object. */
  type Handle = nat

  /** `readyState` of a WebSocket or an RTCDataChannel. */
  datatype ReadyState = Connecting | Open | Closing | Closed

  /** A call the class makes on a browser primitive or a registered callback. */
  datatype Call =
    | OpenSocket(socket: Handle, url: string)
    | SocketSend(socket: Handle, text: Text)
    | SocketClose(socket: Handle)
    | NewPeer(peer: Handle)
    | SetRemote(peer: Handle, description: Payload)
    | MakeAnswer(peer: Handle)
    | MakeOffer(peer: Handle)
    | SetLocal(peer: Handle, description: Payload)
    | AddCandidate(peer: Handle, candidate: Payload)
    | OpenChannel(peer: Handle, name: string, channel: Handle)
    | ChannelSend(channel: Handle, frame: Frame)
    | ChannelClose(channel: Handle)
    | PeerClose(peer: Handle)
    | ScheduleReconnect(delayMs: nat)
    | ReportError(message: string)
    | ReportState(state: string)
    | ReportFile(file: File)

  /** The promise `connect()` returned most recently; `retry` when a reconnect timer made it. */
  datatype Settlement = Unstarted | Pending(retry: bool) | Resolved | Rejected(reason: string)

  /** The result of an async method: it resolves, or it throws an Error with this message. */
  datatype Status = Done | Failed(message: string)

  // ---------------------------------------------------------------------------
  // Reconnect counter
  // ---------------------------------------------------------------------------

  /**
   * The `onclose` rule: an unclean close while fewer than three attempts have been made
   * counts one more attempt and schedules one reconnect; otherwise nothing happens.
   * Yields the new counter and whether a reconnect was scheduled.
   */
  function CloseStep(attempts: nat, wasClean: bool): (r: (nat, bool))
    ensures r.0 == attempts + (if r.1 then 1 else 0)
    ensures attempts <= MaxReconnectAttempts ==> r.0 <= MaxReconnectAttempts
  {
    if !wasClean && attempts < MaxReconnectAttempts then (attempts + 1, true) else (attempts, false)
  }

  /**
   * One close: a reconnect is scheduled exactly for an unclean close below the cap, and
   * then the counter grows by exactly one; a clean close or a close at the cap leaves
   * the counter as it was. The counter never passes the cap.
   */
  lemma CloseStepRule(attempts: nat, wasClean: bool)
    ensures CloseStep(attempts, wasClean).1 <==> !wasClean && attempts < MaxReconnectAttempts
    ensures CloseStep(attempts, wasClean).0 == attempts + (if CloseStep(attempts, wasClean).1 then 1 else 0)
    ensures attempts <= MaxReconnectAttempts ==> CloseStep(attempts, wasClean).0 <= MaxReconnectAttempts
  {
  }

  /**
   * A run of closes with no successful open in between (`cleans[i]` is the i-th
   * close's `wasClean`): the final counter and the number of reconnects scheduled.
   */
  function CloseRun(attempts: nat, cleans: seq<bool>): (nat, nat)
    decreases |cleans|
  {
    if cleans == [] then (attempts, 0)
    else
      var step := CloseStep(attempts, cleans[0]);
      var rest := CloseRun(step.0, cleans[1..]);
      (rest.0, rest.1 + (if step.1 then 1 else 0))
  }

  /**
   * However the connection keeps dropping, the counter stays within the cap, and a run
   * of closes schedules exactly as many reconnects as it added to the counter, so at
   * most three from a fresh start.
   */
  lemma {:induction false} CloseRunBound(attempts: nat, cleans: seq<bool>)
    requires attempts <= MaxReconnectAttempts
    ensures attempts <= CloseRun(attempts, cleans).0 <= MaxReconnectAttempts
    ensures CloseRun(attempts, cleans).1 == CloseRun(attempts, cleans).0 - attempts
    decreases |cleans|
  {
    if cleans != [] {
      var step := CloseStep(attempts, cleans[0]);
      CloseRunBound(step.0, cleans[1..]);
    }
  }

  /** Enough unclean closes in a row use up every attempt; after that nothing is scheduled. */
  lemma {:induction false} UncleanRunExhausts(attempts: nat, cleans: seq<bool>)
    requires attempts <= MaxReconnectAttempts
    requires forall i :: 0 <= i < |cleans| ==> !cleans[i]
    requires |cleans| >= MaxReconnectAttempts - attempts
    ensures CloseRun(attempts, cleans).0 == MaxReconnectAttempts
    decreases |cleans|
  {
    if cleans != [] {
      if attempts < MaxReconnectAttempts {
        UncleanRunExhausts(attempts + 1, cleans[1..]);
      } else {
        CloseRunBound(attempts, cleans[1..]);
      }
    }
  }

  // ---------------------------------------------------------------------------
  // Calls made on the primitives
  // ---------------------------------------------------------------------------

  /** `${protocol}//${host}/api/signal/connect?session=${sessionId}` */
  function SignalingUrl(secure: bool, host: string, sessionId: string): string
  {
    (if secure then "wss:" else "ws:") + "//" + host + "/api/signal/connect?session=" + sessionId
  }

  /** `this.ws?.send(JSON.stringify(message))` */
  function SendOnSocket(ws: Option<Handle>, message: Message): seq<Call>
  {
    if ws.Some? then [SocketSend(ws.value, Json(message))] else []
  }

  /**
   * The calls handleSignalingMessage makes for a message other than `peer-disconnected`
   * while the peer connection `peer` exists; `answer` is what `createAnswer` resolves to.
   */
  function SignalCalls(peer: Handle, ws: Option<Handle>, message: Message, answer: Payload): (cs: seq<Call>)
    ensures |cs| <= 4
    ensures forall i :: 0 <= i < |cs| && cs[i].SocketSend? ==> ws.Some? && cs[i] == SocketSend(ws.value, Json(Answer(answer)))
  {
    match message
    case Offer(offer) =>
      [SetRemote(peer, offer), MakeAnswer(peer), SetLocal(peer, answer)] + SendOnSocket(ws, Answer(answer))
    case Answer(description) => [SetRemote(peer, description)]
    case IceCandidate(candidate) => [AddCandidate(peer, candidate)]
    case _ => []
  }

  /**
   * Dispatch: an offer sets the remote description before anything else and sends
   * exactly one message, the answer, and only on the signaling socket; an answer and an
   * ICE candidate are handed to the peer connection unchanged and send nothing;
   * `connected` and unknown types make no call at all.
   */
  lemma SignalDispatch(peer: Handle, ws: Handle, message: Message, answer: Payload)
    ensures var cs := SignalCalls(peer, Some(ws), message, answer);
            match message
            case Offer(offer) =>
              && cs[0] == SetRemote(peer, offer)
              && (forall i :: 0 <= i < |cs| && cs[i].SocketSend? <==> i == |cs| - 1)
              && cs[|cs| - 1] == SocketSend(ws, Json(Answer(answer)))
            case Answer(d) => cs == [SetRemote(peer, d)]
            case IceCandidate(c) => cs == [AddCandidate(peer, c)]
            case _ => cs == []
  {
  }

  /** One `dataChannel.send` per frame, in order. */
  function SendsOn(channel: Handle, frames: seq<Frame>): (cs: seq<Call>)
    ensures |cs| == |frames|
    ensures forall i :: 0 <= i < |frames| ==> cs[i] == ChannelSend(channel, frames[i])
  {
    if frames == [] then [] else [ChannelSend(channel, frames[0])] + SendsOn(channel, frames[1..])
  }

  lemma {:induction false} SendsOnAppend(channel: Handle, a: seq<Frame>, b: seq<Frame>)
    ensures SendsOn(channel, a + b) == SendsOn(channel, a) + SendsOn(channel, b)
    decreases |a|
  {
    if a != [] {
      assert (a + b)[0] == a[0] && (a + b)[1..] == a[1..] + b;
      SendsOnAppend(channel, a[1..], b);
    } else {
      assert a + b == b;
    }
  }

  lemma {:induction false} BinariesAppend(a: seq<Bytes>, b: seq<Bytes>)
    ensures Binaries(a + b) == Binaries(a) + Binaries(b)
    decreases |a|
  {
    if a != [] {
      assert (a + b)[0] == a[0] && (a + b)[1..] == a[1..] + b;
      BinariesAppend(a[1..], b);
    } else {
      assert a + b == b;
    }
  }

  /** One turn of sendFile's loop: one more chunk is one more send. */
  lemma SendChunkStep(channel: Handle, sent: seq<Bytes>, chunk: Bytes)
    ensures SendsOn(channel, Binaries(sent + [chunk])) == SendsOn(channel, Binaries(sent)) + [ChannelSend(channel, Binary(chunk))]
  {
    BinariesAppend(sent, [chunk]);
    SendsOnAppend(channel, Binaries(sent), [Binary(chunk)]);
    assert Binaries([chunk]) == [Binary(chunk)];
    assert SendsOn(channel, [Binary(chunk)]) == [ChannelSend(channel, Binary(chunk))];
  }

  /** The metadata send, the chunk sends and the end-marker send are the sends of `Frames(file)`. */
  lemma SendFileFrames(channel: Handle, file: File)
    ensures [ChannelSend(channel, MetadataFrame(file))] + SendsOn(channel, Binaries(Chunks(file.content)))
              + [ChannelSend(channel, Text(FileEnd))]
            == SendsOn(channel, Frames(file))
  {
    var mid := Binaries(Chunks(file.content));
    SendsOnAppend(channel, [MetadataFrame(file)], mid);
    SendsOnAppend(channel, [MetadataFrame(file)] + mid, [Text(FileEnd)]);
    assert [MetadataFrame(file)][1..] == [] && [Text(FileEnd)][1..] == [];
    assert SendsOn(channel, [MetadataFrame(file)]) == [ChannelSend(channel, MetadataFrame(file))];
    assert SendsOn(channel, [Text(FileEnd)]) == [ChannelSend(channel, Text(FileEnd))];
  }

  lemma AppendThree(a: seq<Call>, b: seq<Call>, c: seq<Call>, d: seq<Call>)
    ensures a + b + c + d == a + (b + c + d)
  {
  }

  /** The calls close() makes: close the channel, then the peer connection, then the socket, each if present. */
  function CloseCalls(channel: Option<Handle>, peer: Option<Handle>, ws: Option<Handle>): (cs: seq<Call>)
    ensures |cs| <= 3
    ensures forall i :: 0 <= i < |cs| ==> cs[i].ChannelClose? || cs[i].PeerClose? || cs[i].SocketClose?
  {
    (if channel.Some? then [ChannelClose(channel.value)] else [])
    + (if peer.Some? then [PeerClose(peer.value)] else [])
    + (if ws.Some? then [SocketClose(ws.value)] else [])
  }

  /** With nothing left to close, close() calls nothing; otherwise it closes each primitive once. */
  lemma CloseCallsOnce(channel: Option<Handle>, peer: Option<Handle>, ws: Option<Handle>)
    ensures CloseCalls(None, None, None) == []
    ensures |CloseCalls(channel, peer, ws)| ==
              (if channel.Some? then 1 else 0) + (if peer.Some? then 1 else 0) + (if ws.Some? then 1 else 0)
    ensures peer.Some? ==> PeerClose(peer.value) in CloseCalls(channel, peer, ws)
    ensures ws.Some? ==> SocketClose(ws.value) in CloseCalls(channel, peer, ws)
    ensures channel.Some? ==> ChannelClose(channel.value) in CloseCalls(channel, peer, ws)
  {
  }

  // ---------------------------------------------------------------------------
  // The class
  // ---------------------------------------------------------------------------

  class WebRTCConnection {
    const sessionId: string
    /** `window.location.protocol === 'https:'` and `window.location.host`. */
    const secure: bool
    const host: string

    var pc: Option<Handle>
    var ws: Option<Handle>
    var dataChannel: Option<Handle>
    var reconnectAttempts: nat
    var fileBuffer: seq<Bytes>
    var currentFileMetadata: Option<Metadata>

    /** Which of `onFileReceived`, `onConnectionStateChange` and `onError` are set. */
    var hasOnFileReceived: bool
    var hasOnStateChange: bool
    var hasOnError: bool

    /** The connect timeout is pending, and the state of the latest connect() promise. */
    var timeoutArmed: bool
    var promise: Settlement

    /** Every call made on a primitive or callback, in order, and the next fresh handle. */
    var calls: seq<Call>
    var nextHandle: Handle

    /**
     * The counter never passes the cap, and the socket and the peer connection the
     * class holds are handles it has already allocated.
     */
    ghost predicate Valid()
      reads this`reconnectAttempts, this`pc, this`ws, this`nextHandle
    {
      && reconnectAttempts <= MaxReconnectAttempts
      && (pc.Some? ==> pc.value < nextHandle)
      && (ws.Some? ==> ws.value < nextHandle)
    }

    /** The receiving state machine's two fields. */
    function Rx(): Receiver
      reads this`fileBuffer, this`currentFileMetadata
    {
      Receiver(fileBuffer, currentFileMetadata)
    }

    constructor (sessionId: string, secure: bool, host: string)
      ensures Valid()
      ensures this.sessionId == sessionId && this.secure == secure && this.host == host
      ensures pc == None && ws == None && dataChannel == None
      ensures reconnectAttempts == 0 && Rx() == Idle
      ensures !hasOnFileReceived && !hasOnStateChange && !hasOnError
      ensures !timeoutArmed && promise == Unstarted && calls == [] && nextHandle == 0
    {
      this.sessionId := sessionId;
      this.secure := secure;
      this.host := host;
      pc := None;
      ws := None;
      dataChannel := None;
      reconnectAttempts := 0;
      fileBuffer := [];
      currentFileMetadata := None;
      hasOnFileReceived := false;
      hasOnStateChange := false;
      hasOnError := false;
      timeoutArmed := false;
      promise := Unstarted;
      calls := [];
      nextHandle := 0;
    }

    /** Setting `onFileReceived` changes that flag and nothing else. */
    method SetOnFileReceived()
      requires Valid()
      modifies this`hasOnFileReceived
      ensures Valid()
      ensures hasOnFileReceived
    {
      hasOnFileReceived := true;
    }

    /** Setting `onConnectionStateChange` changes that flag and nothing else. */
    method SetOnConnectionStateChange()
      requires Valid()
      modifies this`hasOnStateChange
      ensures Valid()
      ensures hasOnStateChange
    {
      hasOnStateChange := true;
    }

    /** Setting `onError` changes that flag and nothing else. */
    method SetOnError()
      requires Valid()
      modifies this`hasOnError
      ensures Valid()
      ensures hasOnError
    {
      hasOnError := true;
    }

    /** `this.onError?.(message)` */
    method Report(message: string)
      requires Valid()
      modifies this`calls
      ensures Valid()
      ensures calls == old(calls) + (if hasOnError then [ReportError(message)] else [])
    {
      if hasOnError {
        calls := calls + [ReportError(message)];
      }
    }

    /**
     * `reject(new Error(reason))` on the latest connect() promise: it takes effect only
     * while the promise is pending; a promise made by a reconnect timer is caught and
     * handed to `onError`.
     */
    method Reject(reason: string)
      requires Valid()
      modifies this`promise, this`calls
      ensures Valid()
      ensures promise == if old(promise).Pending? then Rejected(reason) else old(promise)
      ensures calls == old(calls) +
                (if old(promise).Pending? && old(promise).retry && hasOnError then [ReportError(reason)] else [])
    {
      if promise.Pending? {
        var retry := promise.retry;
        promise := Rejected(reason);
        if retry {
          Report(reason);
        }
      }
    }

    /**
     * connect(): open a socket to the signaling URL, arm the 10-second timeout and
     * return a pending promise. `retry` marks the call the reconnect timer makes.
     */
    method Connect(retry: bool)
      requires Valid()
      modifies this`ws, this`nextHandle, this`calls, this`timeoutArmed, this`promise
      ensures Valid()
      ensures ws == Some(old(nextHandle)) && nextHandle == old(nextHandle) + 1
      ensures calls == old(calls) + [OpenSocket(old(nextHandle), SignalingUrl(secure, host, sessionId))]
      ensures timeoutArmed && promise == Pending(retry)
    {
      var socket := nextHandle;
      nextHandle := nextHandle + 1;
      ws := Some(socket);
      calls := calls + [OpenSocket(socket, SignalingUrl(secure, host, sessionId))];
      timeoutArmed := true;
      promise := Pending(retry);
    }

    /** `ws.onopen`: disarm the timeout, reset the counter, create the peer connection, resolve. */
    method OnSocketOpen()
      requires Valid()
      modifies this`timeoutArmed, this`reconnectAttempts, this`nextHandle, this`pc, this`calls, this`promise
      ensures Valid()
      ensures reconnectAttempts == 0
      ensures pc == Some(old(nextHandle)) && nextHandle == old(nextHandle) + 1
      ensures calls == old(calls) + [NewPeer(old(nextHandle))]
      ensures !timeoutArmed && promise == if old(promise).Pending? then Resolved else old(promise)
    {
      timeoutArmed := false;
      reconnectAttempts := 0;
      var peer := nextHandle;
      nextHandle := nextHandle + 1;
      pc := Some(peer);
      calls := calls + [NewPeer(peer)];
      if promise.Pending? {
        promise := Resolved;
      }
    }

    /** `ws.onerror`: disarm the timeout, report the failure, reject the promise. */
    method OnSocketError()
      requires Valid()
      modifies this`timeoutArmed, this`calls, this`promise
      ensures Valid()
      ensures !timeoutArmed
      ensures promise == if old(promise).Pending? then Rejected(SignalFailure) else old(promise)
      ensures calls == old(calls)
                + (if hasOnError then [ReportError(SignalFailure)] else [])
                + (if old(promise).Pending? && old(promise).retry && hasOnError then [ReportError(SignalFailure)] else [])
    {
      timeoutArmed := false;
      Report(SignalFailure);
      Reject(SignalFailure);
    }

    /** The connect timeout firing: it only fires while armed, and rejects the promise. */
    method OnConnectTimeout()
      requires Valid()
      modifies this`timeoutArmed, this`calls, this`promise
      ensures Valid()
      ensures !timeoutArmed
      ensures promise == if old(timeoutArmed) && old(promise).Pending? then Rejected(TimeoutFailure) else old(promise)
      ensures calls == old(calls) +
                (if old(timeoutArmed) && old(promise).Pending? && old(promise).retry && hasOnError
                 then [ReportError(TimeoutFailure)] else [])
    {
      if timeoutArmed {
        timeoutArmed := false;
        Reject(TimeoutFailure);
      }
    }

    /** `ws.onclose`: disarm the timeout and apply the reconnect rule. */
    method OnSocketClose(wasClean: bool)
      requires Valid()
      modifies this`timeoutArmed, this`reconnectAttempts, this`calls
      ensures Valid()
      ensures !timeoutArmed
      ensures reconnectAttempts == CloseStep(old(reconnectAttempts), wasClean).0
      ensures calls == old(calls) +
                (if CloseStep(old(reconnectAttempts), wasClean).1 then [ScheduleReconnect(ReconnectDelayMs)] else [])
    {
      timeoutArmed := false;
      if !wasClean && reconnectAttempts < MaxReconnectAttempts {
        reconnectAttempts := reconnectAttempts + 1;
        calls := calls + [ScheduleReconnect(ReconnectDelayMs)];
      }
    }

    /** The reconnect timer firing: `this.connect().catch(err => this.onError?.(err))`. */
    method OnReconnectTimer()
      requires Valid()
      modifies this`ws, this`nextHandle, this`calls, this`timeoutArmed, this`promise
      ensures Valid()
      ensures ws == Some(old(nextHandle)) && nextHandle == old(nextHandle) + 1
      ensures calls == old(calls) + [OpenSocket(old(nextHandle), SignalingUrl(secure, host, sessionId))]
      ensures timeoutArmed && promise == Pending(true)
    {
      Connect(true);
    }

    /**
     * `ws.onmessage`: text that JSON.parse rejects is caught and reported; a parsed
     * value goes to handleSignalingMessage, and what that throws is caught and reported.
     * `answer` is what `createAnswer` yields.
     */
    method OnSocketMessage(text: Text, answer: Payload)
      requires Valid()
      modifies this`calls, this`pc, this`ws, this`dataChannel
      ensures Valid()
      ensures text.Malformed? ==>
                && calls == old(calls) + (if hasOnError then [ReportError(ParseFailure)] else [])
                && pc == old(pc) && ws == old(ws) && dataChannel == old(dataChannel)
      ensures text.Json? && text.msg.PeerDisconnected? && old(pc).Some? ==>
                && pc == None && ws == None && dataChannel == None
                && calls == old(calls) + CloseCalls(old(dataChannel), old(pc), old(ws))
      ensures text.Json? && !(text.msg.PeerDisconnected? && old(pc).Some?) ==>
                && pc == old(pc) && ws == old(ws) && dataChannel == old(dataChannel)
                && calls == old(calls)
                     + (if old(pc).Some? then SignalCalls(old(pc).value, old(ws), text.msg, answer) else [])
                     + (if old(pc).Some? && text.msg.Null? && hasOnError then [ReportError(NullAccess)] else [])
    {
      if text.Malformed? {
        Report(ParseFailure);
      } else {
        var status := HandleSignalingMessage(text.msg, answer);
        if status.Failed? {
          Report(status.message);
        }
      }
    }

    /**
     * handleSignalingMessage: ignored while there is no peer connection; `offer` sets
     * the remote description, creates an answer, sets it locally and sends it;
     * `answer` sets the remote description; `ice-candidate` adds the candidate;
     * `peer-disconnected` closes everything; `null` throws on reading its type;
     * anything else is ignored.
     */
    method HandleSignalingMessage(message: Message, answer: Payload) returns (status: Status)
      requires Valid()
      modifies this`calls, this`pc, this`ws, this`dataChannel
      ensures Valid()
      ensures status == if old(pc).Some? && message.Null? then Failed(NullAccess) else Done
      ensures old(pc).None? ==> calls == old(calls) && pc == None && ws == old(ws) && dataChannel == old(dataChannel)
      ensures old(pc).Some? && message.PeerDisconnected? ==>
                && pc == None && ws == None && dataChannel == None
                && calls == old(calls) + CloseCalls(old(dataChannel), old(pc), old(ws))
      ensures old(pc).Some? && !message.PeerDisconnected? ==>
                && calls == old(calls) + SignalCalls(old(pc).value, old(ws), message, answer)
                && pc == old(pc) && ws == old(ws) && dataChannel == old(dataChannel)
    {
      status := Done;
      if pc.None? {
        return;
      }
      var peer := pc.value;
      match message {
        case Connected(_) =>
        case Offer(offer) =>
          calls := calls + [SetRemote(peer, offer)];
          calls := calls + [MakeAnswer(peer)];
          calls := calls + [SetLocal(peer, answer)];
          if ws.Some? {
            calls := calls + [SocketSend(ws.value, Json(Answer(answer)))];
          }
        case Answer(description) =>
          calls := calls + [SetRemote(peer, description)];
        case IceCandidate(candidate) =>
          calls := calls + [AddCandidate(peer, candidate)];
        case PeerDisconnected =>
          Close();
        case Null =>
          status := Failed(NullAccess);
        case Unrecognised(_) =>
      }
    }

    /** `pc.onicecandidate`: forward a candidate while the signaling socket is open. */
    method OnIceCandidate(candidate: Option<Payload>, socketState: ReadyState)
      requires Valid()
      modifies this`calls
      ensures Valid()
      ensures calls == old(calls) +
                (if candidate.Some? && socketState == Open then SendOnSocket(ws, IceCandidate(candidate.value)) else [])
    {
      if candidate.Some? && ws.Some? && socketState == Open {
        calls := calls + [SocketSend(ws.value, Json(IceCandidate(candidate.value)))];
      }
    }

    /** `pc.onconnectionstatechange`: tell the callback, while there is a peer connection. */
    method OnConnectionStateChange(state: string)
      requires Valid()
      modifies this`calls
      ensures Valid()
      ensures calls == old(calls) + (if pc.Some? && hasOnStateChange then [ReportState(state)] else [])
    {
      if pc.Some? && hasOnStateChange {
        calls := calls + [ReportState(state)];
      }
    }

    /** `pc.ondatachannel`: the answering side adopts the channel the offerer created. */
    method OnDataChannel(channel: Handle)
      requires Valid()
      modifies this`dataChannel
      ensures Valid()
      ensures dataChannel == Some(channel)
    {
      dataChannel := Some(channel);
    }

    /**
     * createOffer: fails when there is no peer connection; otherwise creates the
     * `fileTransfer` channel, creates an offer, sets it locally and sends it on the
     * signaling socket. `offer` is what the peer connection's createOffer yields.
     */
    method CreateOffer(offer: Payload) returns (status: Status)
      requires Valid()
      modifies this`nextHandle, this`dataChannel, this`calls
      ensures Valid()
      ensures old(pc).None? ==>
                && status == Failed(NoPeer) && calls == old(calls)
                && dataChannel == old(dataChannel) && nextHandle == old(nextHandle)
      ensures old(pc).Some? ==>
                && status == Done
                && dataChannel == Some(old(nextHandle)) && nextHandle == old(nextHandle) + 1
                && calls == old(calls)
                     + [OpenChannel(old(pc).value, ChannelLabel, old(nextHandle)), MakeOffer(old(pc).value),
                        SetLocal(old(pc).value, offer)]
                     + SendOnSocket(ws, Offer(offer))
    {
      if pc.None? {
        return Failed(NoPeer);
      }
      var peer := pc.value;
      var channel := nextHandle;
      nextHandle := nextHandle + 1;
      dataChannel := Some(channel);
      calls := calls + [OpenChannel(peer, ChannelLabel, channel)];
      calls := calls + [MakeOffer(peer)];
      calls := calls + [SetLocal(peer, offer)];
      if ws.Some? {
        calls := calls + [SocketSend(ws.value, Json(Offer(offer)))];
      }
      status := Done;
    }

    /**
     * sendFile: unless there is a data channel whose readyState is `open`, fail before
     * sending anything; otherwise send the metadata frame, the chunks of the file, and
     * the `file-end` frame.
     */
    method SendFile(file: File, channelState: ReadyState) returns (status: Status)
      requires Valid()
      modifies this`calls
      ensures Valid()
      ensures dataChannel.None? || channelState != Open ==>
                status == Failed(ChannelNotReady) && calls == old(calls)
      ensures dataChannel.Some? && channelState == Open ==>
                status == Done && calls == old(calls) + SendsOn(dataChannel.value, Frames(file))
    {
      if dataChannel.None? || channelState != Open {
        return Failed(ChannelNotReady);
      }
      var channel := dataChannel.value;
      ghost var before := calls;
      calls := calls + [ChannelSend(channel, MetadataFrame(file))];
      SendChunks(channel, file.content);
      calls := calls + [ChannelSend(channel, Text(FileEnd))];
      AppendThree(before, [ChannelSend(channel, MetadataFrame(file))],
                  SendsOn(channel, Binaries(Chunks(file.content))), [ChannelSend(channel, Text(FileEnd))]);
      SendFileFrames(channel, file);
      status := Done;
    }

    /** The `while (offset < file.size)` loop of sendFile: one send per 16384-byte slice. */
    method SendChunks(channel: Handle, content: Bytes)
      modifies this`calls
      ensures calls == old(calls) + SendsOn(channel, Binaries(Chunks(content)))
    {
      var offset: nat := 0;
      ghost var sent: seq<Bytes> := [];
      while offset < |content|
        invariant Chunks(content) == sent + ChunksFrom(content, offset)
        invariant calls == old(calls) + SendsOn(channel, Binaries(sent))
        decreases |content| - offset
      {
        var chunk := content[offset .. Min(offset + ChunkSize, |content|)];
        assert ChunksFrom(content, offset) == [chunk] + ChunksFrom(content, offset + ChunkSize);
        SendChunkStep(channel, sent, chunk);
        calls := calls + [ChannelSend(channel, Binary(chunk))];
        sent := sent + [chunk];
        offset := offset + ChunkSize;
      }
      assert ChunksFrom(content, offset) == [];
      assert Chunks(content) == sent;
    }

    /**
     * handleDataChannelMessage, the receiving state machine; a delivered file goes to
     * `onFileReceived`. Text that JSON.parse rejects throws out of the handler and
     * changes nothing.
     */
    method HandleDataChannelMessage(frame: Frame) returns (outcome: Outcome)
      requires Valid()
      modifies this`fileBuffer, this`currentFileMetadata, this`calls
      ensures Valid()
      ensures (Rx(), outcome) == Receive(old(Rx()), frame)
      ensures calls == old(calls) + (if outcome.Delivered? && hasOnFileReceived then [ReportFile(outcome.file)] else [])
    {
      match frame {
        case Binary(chunk) =>
          fileBuffer := fileBuffer + [chunk];
          outcome := Absorbed;
        case Text(control) =>
          match control {
            case Unparsable(_) =>
              outcome := ParseError;
            case FileMetadata(name, size, mimeType) =>
              currentFileMetadata := Some(Metadata(name, size, mimeType));
              fileBuffer := [];
              outcome := Absorbed;
            case FileEnd =>
              if currentFileMetadata.Some? {
                var m := currentFileMetadata.value;
                var file := File(m.name, m.mimeType, Concat(fileBuffer));
                if hasOnFileReceived {
                  calls := calls + [ReportFile(file)];
                }
                fileBuffer := [];
                currentFileMetadata := None;
                outcome := Delivered(file);
              } else {
                outcome := Absorbed;
              }
            case OtherControl(_) =>
              outcome := Absorbed;
          }
      }
    }

    /** close(): close the channel, the peer connection and the socket, then forget all three. */
    method Close()
      requires Valid()
      modifies this`pc, this`ws, this`dataChannel, this`calls
      ensures Valid()
      ensures pc == None && ws == None && dataChannel == None
      ensures calls == old(calls) + CloseCalls(old(dataChannel), old(pc), old(ws))
      ensures old(pc).None? && old(ws).None? && old(dataChannel).None? ==> calls == old(calls)
    {
      if dataChannel.Some? {
        calls := calls + [ChannelClose(dataChannel.value)];
      }
      if pc.Some? {
        calls := calls + [PeerClose(pc.value)];
      }
      if ws.Some? {
        calls := calls + [SocketClose(ws.value)];
      }
      pc := None;
      ws := None;
      dataChannel := None;
    }
  }
}
