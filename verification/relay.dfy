/**
 * The signaling relay of worker/SignalingServer.ts: a table from session id to a
 * two-slot record (laptop, phone), the server ends of the WebSockets it holds, and
 * the four handlers that change them (fetch, message, close, error).
 *
 * Sockets are link ids. A `Link` records whether the socket is open, every call the
 * server made on it (accept, send, close), and the (session id, role) its event
 * listeners were registered with. The abstract state is the `Table` datatype; the
 * specification functions Connect, Forward, Disconnect and Dispatch give the state
 * after each handler, and the class SignalingServer implements them step by step.
 */
module Relay {
  import opened Wire

  type LinkId = nat

  /** The arguments the listeners of one socket were registered with. */
  datatype Binding = Binding(sessionId: string, role: Role)

  /** A call the server made on a socket. */
  datatype LinkEvent = Accepted | Sent(text: Text) | Closed(code: int, reason: string)

  /** The server end of one WebSocket. */
  datatype Link = Link(open: bool, events: seq<LinkEvent>, listener: Option<Binding>)

  /** One session record: `laptopWs`, `phoneWs` and `createdAt`. */
  datatype Session = Session(laptop: Option<LinkId>, phone: Option<LinkId>, createdAt: int)
  {
    function Slot(r: Role): Option<LinkId>
    {
      if r == Laptop then laptop else phone
    }

    function Clear(r: Role): (s: Session)
      ensures s.Slot(r).None? && s.Slot(r.Other()) == Slot(r.Other()) && s.createdAt == createdAt
    {
      if r == Laptop then this.(laptop := None) else this.(phone := None)
    }

    predicate Empty()
    {
      laptop.None? && phone.None?
    }
  }

  /** The whole state of the relay: the sessions map and the sockets created so far. */
  datatype Table = Table(sessions: map<string, Session>, links: map<LinkId, Link>, nextLink: nat)

  /** The response to an upgrade request: an error status, or 101 with the new socket pair. */
  datatype Reply = Status(code: int, text: string) | Switching(link: LinkId)

  /** An event the runtime delivers to a socket's listeners. */
  datatype SocketEvent = MessageEvent(data: Text) | CloseEvent | ErrorEvent

  const NormalClosure: int := 1000
  const PeerGoneReason: string := "Other peer disconnected"

  const EmptyTable: Table := Table(map[], map[], 0)

  /**
   * The relay's invariant: every socket id was handed out, no session is left with
   * both slots empty, and the socket in slot `r` of session `id` has its listeners
   * bound to exactly (id, r).
   */
  ghost predicate Inv(t: Table)
  {
    && (forall l :: l in t.links ==> l < t.nextLink)
    && (forall id :: id in t.sessions ==> !t.sessions[id].Empty())
    && (forall id, r :: id in t.sessions && t.sessions[id].Slot(r).Some? ==> Holds(t, id, r))
  }

  ghost predicate Holds(t: Table, id: string, r: Role)
    requires id in t.sessions && t.sessions[id].Slot(r).Some?
  {
    var l := t.sessions[id].Slot(r).value;
    l in t.links && t.links[l].listener == Some(Binding(id, r))
  }

  /** Whether `l` names a socket of `t` whose ready state is OPEN. */
  predicate IsOpen(t: Table, l: Option<LinkId>)
  {
    l.Some? && l.value in t.links && t.links[l.value].open
  }

  /** `ws.send(text)` on socket `l`. */
  function Send(t: Table, l: LinkId, text: Text): Table
    requires l in t.links
  {
    t.(links := t.links[l := t.links[l].(events := t.links[l].events + [Sent(text)])])
  }

  /** `otherWs.send({type:'peer-disconnected'})` followed by `otherWs.close(1000, ...)`. */
  function NotifyAndClose(t: Table, l: LinkId): Table
    requires l in t.links
  {
    var link := t.links[l];
    var events := link.events + [Sent(Json(PeerDisconnected)), Closed(NormalClosure, PeerGoneReason)];
    t.(links := t.links[l := link.(open := false, events := events)])
  }

  /**
   * handleWebSocket: accept the socket, bind its listeners to (id, role) and send it
   * the greeting `{type:'connected', role}`.
   */
  function Accept(t: Table, l: LinkId, id: string, role: Role): (r: Table)
    requires l in t.links
    ensures r.sessions == t.sessions && r.nextLink == t.nextLink && r.links.Keys == t.links.Keys
    ensures r.links[l].open && r.links[l].listener == Some(Binding(id, role))
    ensures r.links[l].events == t.links[l].events + [Accepted, Sent(Json(Connected(role)))]
    ensures forall k :: k in t.links && k != l ==> r.links[k] == t.links[k]
  {
    var link := t.links[l];
    var events := link.events + [Accepted, Sent(Json(Connected(role)))];
    t.(links := t.links[l := Link(true, events, Some(Binding(id, role)))])
  }

  /**
   * SignalingServer.fetch: the two guards, the new socket pair, get-or-create of the
   * session, and role assignment. `now` is the value of `Date.now()`.
   */
  function Connect(t: Table, req: Request, now: int): (r: (Table, Reply))
    ensures r.1.Status? ==> r.1.code == 400 || r.1.code == 426 || r.1.code == 409
    ensures r.1.Status? ==> forall id :: id in t.sessions ==> id in r.0.sessions && r.0.sessions[id] == t.sessions[id]
    ensures r.1.Switching? ==> r.1.link == t.nextLink && r.1.link in r.0.links && r.0.links[r.1.link].open
    ensures forall k :: k in t.links && k != t.nextLink ==> k in r.0.links && r.0.links[k] == t.links[k]
  {
    if MissingSession(req) then (t, Status(400, "Missing session ID"))
    else if req.upgrade != Some("websocket") then (t, Status(426, "Expected WebSocket upgrade"))
    else
      var id := req.session.value;
      var l := t.nextLink;
      var paired := t.(links := t.links[l := Link(false, [], None)], nextLink := l + 1);
      var s := if id in t.sessions then t.sessions[id] else Session(None, None, now);
      var stored := paired.(sessions := t.sessions[id := s]);
      if s.laptop.None? then
        (Accept(stored.(sessions := stored.sessions[id := s.(laptop := Some(l))]), l, id, Laptop), Switching(l))
      else if s.phone.None? then
        (Accept(stored.(sessions := stored.sessions[id := s.(phone := Some(l))]), l, id, Phone), Switching(l))
      else
        (stored, Status(409, "Session already has both connections"))
  }

  /** handleMessage: forward text that parses to the other role's open socket. */
  function Forward(t: Table, id: string, sender: Role, data: Text): (r: Table)
    ensures r.sessions == t.sessions && r.nextLink == t.nextLink && r.links.Keys == t.links.Keys
    ensures forall k :: k in t.links ==>
              && r.links[k].open == t.links[k].open && r.links[k].listener == t.links[k].listener
              && (r.links[k].events == t.links[k].events || r.links[k].events == t.links[k].events + [Sent(data)])
  {
    if id !in t.sessions || data.Malformed? then t
    else
      var target := t.sessions[id].Slot(sender.Other());
      if IsOpen(t, target) then Send(t, target.value, data) else t
  }

  /**
   * handleClose: clear the closing role's slot, notify and close the other socket
   * when it is open, and delete the session once both slots are empty.
   */
  function Disconnect(t: Table, id: string, role: Role): (r: Table)
    ensures r.nextLink == t.nextLink && r.links.Keys == t.links.Keys && r.sessions.Keys <= t.sessions.Keys
    ensures forall k :: k in t.links ==> r.links[k].listener == t.links[k].listener && (r.links[k].open ==> t.links[k].open)
  {
    if id !in t.sessions then t
    else
      var s := t.sessions[id].Clear(role);
      var other := s.Slot(role.Other());
      var notified := if IsOpen(t, other) then NotifyAndClose(t, other.value) else t;
      notified.(sessions := if s.Empty() then t.sessions - {id} else t.sessions[id := s])
  }

  /**
   * The listeners registered in handleWebSocket: a message goes to handleMessage, and
   * both a close and an error go to handleClose, with the (session id, role) the
   * socket was accepted under. A close event also means the socket is no longer open.
   */
  function Dispatch(t: Table, l: LinkId, ev: SocketEvent): (r: Table)
    ensures r.nextLink == t.nextLink && r.links.Keys == t.links.Keys && r.sessions.Keys <= t.sessions.Keys
    ensures forall k :: k in t.links ==> r.links[k].listener == t.links[k].listener && (r.links[k].open ==> t.links[k].open)
  {
    if l !in t.links || t.links[l].listener.None? then t
    else
      var b := t.links[l].listener.value;
      match ev
      case MessageEvent(data) => Forward(t, b.sessionId, b.role, data)
      case CloseEvent => Disconnect(t.(links := t.links[l := t.links[l].(open := false)]), b.sessionId, b.role)
      case ErrorEvent => Disconnect(t, b.sessionId, b.role)
  }

  // ---------------------------------------------------------------------------
  // Properties of the handlers
  // ---------------------------------------------------------------------------

  /** Both guards of fetch come before the session lookup: a rejected request changes nothing. */
  lemma GuardsPrecedeLookup(t: Table, req: Request, now: int)
    ensures MissingSession(req) ==> Connect(t, req, now) == (t, Status(400, "Missing session ID"))
    ensures !MissingSession(req) && req.upgrade != Some("websocket") ==>
              Connect(t, req, now) == (t, Status(426, "Expected WebSocket upgrade"))
    ensures Connect(t, req, now).0.sessions != t.sessions ==>
              !MissingSession(req) && req.upgrade == Some("websocket")
  {
  }

  /**
   * Role assignment: the new socket takes the laptop slot when it is free, else the
   * phone slot when that is free, else the request gets 409 and no slot changes.
   * An unseen id gets exactly one new session; an existing one is reused.
   */
  lemma RoleAssignment(t: Table, req: Request, now: int)
    requires Inv(t) && !MissingSession(req) && req.upgrade == Some("websocket")
    ensures var id := req.session.value;
            var s := if id in t.sessions then t.sessions[id] else Session(None, None, now);
            var r := Connect(t, req, now);
            && r.0.sessions - {id} == t.sessions - {id}
            && (s.laptop.None? ==>
                  r.1 == Switching(t.nextLink) && r.0.sessions == t.sessions[id := s.(laptop := Some(t.nextLink))])
            && (s.laptop.Some? && s.phone.None? ==>
                  r.1 == Switching(t.nextLink) && r.0.sessions == t.sessions[id := s.(phone := Some(t.nextLink))])
            && (s.laptop.Some? && s.phone.Some? ==>
                  r.1 == Status(409, "Session already has both connections") && r.0.sessions == t.sessions)
  {
    var id := req.session.value;
    if id !in t.sessions {
      assert t.sessions[id := Session(None, None, now)] - {id} == t.sessions - {id};
    }
  }

  /** Get-or-create: an unseen id adds exactly one key; an existing session keeps its creation time. */
  lemma SessionGetOrCreate(t: Table, req: Request, now: int)
    requires Inv(t) && !MissingSession(req) && req.upgrade == Some("websocket")
    ensures var id := req.session.value;
            var t' := Connect(t, req, now).0;
            && t'.sessions.Keys == t.sessions.Keys + {id}
            && (id in t.sessions ==> t'.sessions[id].createdAt == t.sessions[id].createdAt)
            && (id !in t.sessions ==> t'.sessions[id] == Session(Some(t.nextLink), None, now))
  {
    RoleAssignment(t, req, now);
    var id := req.session.value;
    if id in t.sessions {
      assert !t.sessions[id].Empty();
    }
  }

  /**
   * On acceptance the new socket is fresh, open, bound to the slot it took, and has
   * been sent exactly one message, `{type:'connected', role}` naming that slot.
   */
  lemma GreetingNamesRole(t: Table, req: Request, now: int)
    requires Inv(t)
    ensures var r := Connect(t, req, now);
            r.1.Switching? ==>
              var l := r.1.link;
              var id := req.session.value;
              && l == t.nextLink && l !in t.links && id in r.0.sessions
              && exists role: Role ::
                   && r.0.sessions[id].Slot(role) == Some(l)
                   && r.0.links[l] == Link(true, [Accepted, Sent(Json(Connected(role)))], Some(Binding(id, role)))
  {
    var r := Connect(t, req, now);
    if r.1.Switching? {
      var id := req.session.value;
      var s := if id in t.sessions then t.sessions[id] else Session(None, None, now);
      var role := if s.laptop.None? then Laptop else Phone;
      assert r.0.sessions[id].Slot(role) == Some(t.nextLink);
    }
  }

  /** fetch keeps the relay's invariant. */
  lemma ConnectKeepsInv(t: Table, req: Request, now: int)
    requires Inv(t)
    ensures Inv(Connect(t, req, now).0)
  {
    if !MissingSession(req) && req.upgrade == Some("websocket") {
      var id := req.session.value;
      var t' := Connect(t, req, now).0;
      var l := t.nextLink;
      var s := if id in t.sessions then t.sessions[id] else Session(None, None, now);
      var role := if s.laptop.None? then Laptop else Phone;
      assert l !in t.links;
      forall id', r | id' in t'.sessions && t'.sessions[id'].Slot(r).Some?
        ensures Holds(t', id', r)
      {
        if id' == id && r == role && s.Slot(role).None? {
          assert t'.links[l].listener == Some(Binding(id, role));
        } else {
          assert id' in t.sessions && t.sessions[id'].Slot(r) == t'.sessions[id'].Slot(r);
          assert Holds(t, id', r);
        }
      }
    }
  }

  /**
   * What one relayed message does to each socket: text that parses is appended to the
   * other role's socket when that socket is open, and no other socket, slot or
   * session changes. Nothing is queued for an absent peer.
   */
  lemma RelayDelivery(t: Table, id: string, sender: Role, data: Text, l: LinkId)
    requires l in t.links
    ensures var t' := Forward(t, id, sender, data);
            && t'.sessions == t.sessions && t'.nextLink == t.nextLink && t'.links.Keys == t.links.Keys
            && t'.links[l].open == t.links[l].open && t'.links[l].listener == t.links[l].listener
            && t'.links[l].events ==
                 if id in t.sessions && data.Json? && t.sessions[id].Slot(sender.Other()) == Some(l) && t.links[l].open
                 then t.links[l].events + [Sent(data)]
                 else t.links[l].events
  {
  }

  /** Text that does not parse, an unknown session, or an absent or closed peer: nothing changes. */
  lemma RelayDrops(t: Table, id: string, sender: Role, data: Text)
    requires id !in t.sessions || data.Malformed? || !IsOpen(t, t.sessions[id].Slot(sender.Other()))
    ensures Forward(t, id, sender, data) == t
  {
  }

  /**
   * A message is never sent back to the socket it came from: this holds for every
   * socket, including one whose slot an error event already cleared while it stays
   * open and bound, and in particular for the socket holding the sender's slot.
   */
  lemma RelayNeverEchoes(t: Table, l: LinkId, data: Text)
    requires Inv(t) && l in t.links
    ensures Dispatch(t, l, MessageEvent(data)).links[l] == t.links[l]
    ensures forall id, r :: id in t.sessions && t.sessions[id].Slot(r) == Some(l) ==>
              Forward(t, id, r, data).links[l] == t.links[l]
  {
    if t.links[l].listener.Some? {
      var b := t.links[l].listener.value;
      var target := if b.sessionId in t.sessions then t.sessions[b.sessionId].Slot(b.role.Other()) else None;
      if target.Some? {
        assert Holds(t, b.sessionId, b.role.Other());
      }
    }
    forall id, r | id in t.sessions && t.sessions[id].Slot(r) == Some(l)
      ensures Forward(t, id, r, data).links[l] == t.links[l]
    {
      assert Holds(t, id, r);
      if t.sessions[id].Slot(r.Other()).Some? {
        assert Holds(t, id, r.Other());
      }
    }
  }

  /** The sockets held in two different slots are different sockets. */
  lemma SlotsAreDistinct(t: Table, id1: string, r1: Role, id2: string, r2: Role)
    requires Inv(t) && id1 in t.sessions && id2 in t.sessions
    requires t.sessions[id1].Slot(r1).Some? && t.sessions[id2].Slot(r2).Some?
    requires (id1, r1) != (id2, r2)
    ensures t.sessions[id1].Slot(r1) != t.sessions[id2].Slot(r2)
  {
    assert Holds(t, id1, r1) && Holds(t, id2, r2);
  }

  lemma RelayKeepsInv(t: Table, id: string, sender: Role, data: Text)
    requires Inv(t)
    ensures Inv(Forward(t, id, sender, data))
  {
    if id in t.sessions && data.Json? && IsOpen(t, t.sessions[id].Slot(sender.Other())) {
      var target := t.sessions[id].Slot(sender.Other()).value;
      var t' := Send(t, target, data);
      forall id', r | id' in t'.sessions && t'.sessions[id'].Slot(r).Some?
        ensures Holds(t', id', r)
      {
        assert Holds(t, id', r);
      }
    }
  }

  /**
   * Closing role R clears R's slot and nothing else in the session; the session is
   * deleted exactly when the other slot is empty too; no other session changes.
   */
  lemma DisconnectSlots(t: Table, id: string, role: Role)
    requires id in t.sessions
    ensures var s := t.sessions[id];
            var t' := Disconnect(t, id, role);
            && t'.sessions - {id} == t.sessions - {id}
            && (id in t'.sessions <==> s.Slot(role.Other()).Some?)
            && (id in t'.sessions ==> t'.sessions[id] == s.Clear(role))
            && t'.nextLink == t.nextLink
  {
    var s := t.sessions[id].Clear(role);
    if !s.Empty() {
      assert t.sessions[id := s] - {id} == t.sessions - {id};
    }
  }

  /**
   * What a close does to each socket: the other role's socket, when open, is sent
   * exactly one `peer-disconnected` and then closed with code 1000; every other
   * socket, including the closing one, is untouched.
   */
  lemma DisconnectNotifies(t: Table, id: string, role: Role, l: LinkId)
    requires l in t.links
    ensures var t' := Disconnect(t, id, role);
            && t'.links.Keys == t.links.Keys && t'.links[l].listener == t.links[l].listener
            && t'.links[l] ==
                 if id in t.sessions && t.sessions[id].Slot(role.Other()) == Some(l) && t.links[l].open
                 then t.links[l].(open := false,
                                  events := t.links[l].events + [Sent(Json(PeerDisconnected)), Closed(1000, PeerGoneReason)])
                 else t.links[l]
  {
  }

  /** A close for an unknown session id is a no-op. */
  lemma DisconnectUnknown(t: Table, id: string, role: Role)
    requires id !in t.sessions
    ensures Disconnect(t, id, role) == t
  {
  }

  lemma DisconnectKeepsInv(t: Table, id: string, role: Role)
    requires Inv(t)
    ensures Inv(Disconnect(t, id, role))
  {
    var t' := Disconnect(t, id, role);
    forall id', r | id' in t'.sessions && t'.sessions[id'].Slot(r).Some?
      ensures Holds(t', id', r)
    {
      if id in t.sessions {
        DisconnectSlots(t, id, role);
        assert t.sessions[id'].Slot(r) == t'.sessions[id'].Slot(r);
      }
      assert Holds(t, id', r);
      DisconnectNotifies(t, id, role, t.sessions[id'].Slot(r).value);
    }
    if id in t.sessions {
      DisconnectSlots(t, id, role);
    }
  }

  lemma DispatchKeepsInv(t: Table, l: LinkId, ev: SocketEvent)
    requires Inv(t)
    ensures Inv(Dispatch(t, l, ev))
  {
    if l in t.links && t.links[l].listener.Some? {
      var b := t.links[l].listener.value;
      match ev
      case MessageEvent(data) => RelayKeepsInv(t, b.sessionId, b.role, data);
      case CloseEvent =>
        var t1 := t.(links := t.links[l := t.links[l].(open := false)]);
        forall id', r | id' in t1.sessions && t1.sessions[id'].Slot(r).Some?
          ensures Holds(t1, id', r)
        {
          assert Holds(t, id', r);
        }
        DisconnectKeepsInv(t1, b.sessionId, b.role);
      case ErrorEvent => DisconnectKeepsInv(t, b.sessionId, b.role);
    }
  }

  /**
   * For a fresh session id, the first connection becomes the laptop, the second the
   * phone, and a third is refused with 409 without touching the session.
   */
  lemma ThirdConnectionRefused(t: Table, req: Request, now: int)
    requires Inv(t) && !MissingSession(req) && req.upgrade == Some("websocket")
    requires req.session.value !in t.sessions
    ensures var id := req.session.value;
            var r1 := Connect(t, req, now);
            var r2 := Connect(r1.0, req, now);
            var r3 := Connect(r2.0, req, now);
            && r1.1 == Switching(t.nextLink) && r1.0.sessions[id].laptop == Some(t.nextLink)
            && r2.1 == Switching(t.nextLink + 1) && r2.0.sessions[id].phone == Some(t.nextLink + 1)
            && r2.0.sessions[id].laptop == Some(t.nextLink)
            && r3.1 == Status(409, "Session already has both connections") && r3.0.sessions == r2.0.sessions
  {
    var id := req.session.value;
    var r1 := Connect(t, req, now);
    RoleAssignment(t, req, now);
    ConnectKeepsInv(t, req, now);
    var r2 := Connect(r1.0, req, now);
    RoleAssignment(r1.0, req, now);
    ConnectKeepsInv(r1.0, req, now);
    RoleAssignment(r2.0, req, now);
  }

  /**
   * The two-device lifecycle on a fresh relay: the first socket becomes the laptop and
   * the second the phone; the phone's offer reaches the laptop verbatim after its
   * greeting; when the laptop's socket closes, the phone is told once and closed while
   * the session stays with the phone's slot held; when the phone's socket closes too,
   * the session is gone and the phone receives nothing more.
   */
  lemma Lifecycle(req: Request, now1: int, now2: int, offer: Payload)
    requires !MissingSession(req) && req.upgrade == Some("websocket")
    ensures var id := req.session.value;
            var c1 := Connect(EmptyTable, req, now1);
            var c2 := Connect(c1.0, req, now2);
            var t3 := Dispatch(c2.0, 1, MessageEvent(Json(Offer(offer))));
            var t4 := Dispatch(t3, 0, CloseEvent);
            var t5 := Dispatch(t4, 1, CloseEvent);
            && c1.1 == Switching(0) && c2.1 == Switching(1)
            && c2.0.sessions[id] == Session(Some(0), Some(1), now1)
            && t3.links[0].events == [Accepted, Sent(Json(Connected(Laptop))), Sent(Json(Offer(offer)))]
            && t4.links[1].events ==
                 [Accepted, Sent(Json(Connected(Phone))), Sent(Json(PeerDisconnected)), Closed(NormalClosure, PeerGoneReason)]
            && id in t4.sessions && t4.sessions[id] == Session(None, Some(1), now1)
            && id !in t5.sessions
            && t5.links[1].events == t4.links[1].events
  {
    LifecyclePairing(req, now1, now2);
    var c2 := Connect(Connect(EmptyTable, req, now1).0, req, now2);
    LifecycleTraffic(c2.0, req.session.value, now1, offer);
  }

  /** The first two connections of a fresh id: the laptop on socket 0, the phone on socket 1. */
  lemma LifecyclePairing(req: Request, now1: int, now2: int)
    requires !MissingSession(req) && req.upgrade == Some("websocket")
    ensures var id := req.session.value;
            var c1 := Connect(EmptyTable, req, now1);
            var c2 := Connect(c1.0, req, now2);
            && c1.1 == Switching(0) && c2.1 == Switching(1)
            && c2.0.sessions == map[id := Session(Some(0), Some(1), now1)]
            && 0 in c2.0.links && 1 in c2.0.links
            && c2.0.links[0] == Link(true, [Accepted, Sent(Json(Connected(Laptop)))], Some(Binding(id, Laptop)))
            && c2.0.links[1] == Link(true, [Accepted, Sent(Json(Connected(Phone)))], Some(Binding(id, Phone)))
  {
    var id := req.session.value;
    var c1 := Connect(EmptyTable, req, now1);
    assert c1.0.sessions == map[id := Session(Some(0), None, now1)];
    assert c1.0.nextLink == 1 && 0 in c1.0.links && 1 !in c1.0.links;
    assert c1.0.links[0] == Link(true, [Accepted, Sent(Json(Connected(Laptop)))], Some(Binding(id, Laptop)));
    var c2 := Connect(c1.0, req, now2);
    assert c2.0.sessions == map[id := Session(Some(0), Some(1), now1)];
  }

  /** The traffic of a paired session: the phone's offer, the laptop's close, the phone's close. */
  lemma LifecycleTraffic(t: Table, id: string, now1: int, offer: Payload)
    requires t.sessions == map[id := Session(Some(0), Some(1), now1)]
    requires 0 in t.links && t.links[0] == Link(true, [Accepted, Sent(Json(Connected(Laptop)))], Some(Binding(id, Laptop)))
    requires 1 in t.links && t.links[1] == Link(true, [Accepted, Sent(Json(Connected(Phone)))], Some(Binding(id, Phone)))
    ensures var t3 := Dispatch(t, 1, MessageEvent(Json(Offer(offer))));
            var t4 := Dispatch(t3, 0, CloseEvent);
            var t5 := Dispatch(t4, 1, CloseEvent);
            && t3.links[0].events == [Accepted, Sent(Json(Connected(Laptop))), Sent(Json(Offer(offer)))]
            && t4.links[1].events ==
                 [Accepted, Sent(Json(Connected(Phone))), Sent(Json(PeerDisconnected)), Closed(NormalClosure, PeerGoneReason)]
            && id in t4.sessions && t4.sessions[id] == Session(None, Some(1), now1)
            && id !in t5.sessions
            && t5.links[1].events == t4.links[1].events
  {
    var t3 := Dispatch(t, 1, MessageEvent(Json(Offer(offer))));
    assert t3.links[0].events == [Accepted, Sent(Json(Connected(Laptop)))] + [Sent(Json(Offer(offer)))];
    var t4 := Dispatch(t3, 0, CloseEvent);
    assert t4.links[1].events ==
      [Accepted, Sent(Json(Connected(Phone)))] + [Sent(Json(PeerDisconnected)), Closed(NormalClosure, PeerGoneReason)];
    assert t4.sessions == map[id := Session(None, Some(1), now1)];
  }

  // ---------------------------------------------------------------------------
  // The Durable Object
  // ---------------------------------------------------------------------------

  /** The SignalingServer Durable Object: the sessions map and the sockets it holds. */
  class SignalingServer {
    var sessions: map<string, Session>
    var links: map<LinkId, Link>
    var nextLink: nat

    function State(): Table
      reads this
    {
      Table(sessions, links, nextLink)
    }

    ghost predicate Valid()
      reads this
    {
      Inv(State())
    }

    constructor ()
      ensures Valid() && State() == EmptyTable
    {
      sessions := map[];
      links := map[];
      nextLink := 0;
    }

    /** fetch: reply to one upgrade request; `now` is `Date.now()`. */
    method Fetch(req: Request, now: int) returns (reply: Reply)
      requires Valid()
      modifies this
      ensures Valid()
      ensures (State(), reply) == Connect(old(State()), req, now)
    {
      ghost var t0 := State();
      ConnectKeepsInv(t0, req, now);
      if MissingSession(req) {
        return Status(400, "Missing session ID");
      }
      if req.upgrade != Some("websocket") {
        return Status(426, "Expected WebSocket upgrade");
      }
      // new WebSocketPair(): the server end starts out not yet accepted
      var server := nextLink;
      links := links[server := Link(false, [], None)];
      nextLink := nextLink + 1;
      var id := req.session.value;
      var session: Session;
      if id in sessions {
        session := sessions[id];
      } else {
        session := Session(None, None, now);
        sessions := sessions[id := session];
      }
      assert session == if id in t0.sessions then t0.sessions[id] else Session(None, None, now);
      assert sessions == t0.sessions[id := session];
      assert links == t0.links[server := Link(false, [], None)] && server == t0.nextLink;
      if session.laptop.None? {
        sessions := sessions[id := session.(laptop := Some(server))];
        HandleWebSocket(server, id, Laptop);
        reply := Switching(server);
        assert (State(), reply) == Connect(t0, req, now);
      } else if session.phone.None? {
        sessions := sessions[id := session.(phone := Some(server))];
        HandleWebSocket(server, id, Phone);
        reply := Switching(server);
        assert (State(), reply) == Connect(t0, req, now);
      } else {
        reply := Status(409, "Session already has both connections");
        assert (State(), reply) == Connect(t0, req, now);
      }
    }

    /** handleWebSocket: accept, register the listeners for (id, role), greet. */
    method HandleWebSocket(ws: LinkId, id: string, role: Role)
      requires ws in links
      modifies this
      ensures State() == Accept(old(State()), ws, id, role)
    {
      ghost var before := links[ws].events;
      links := links[ws := links[ws].(open := true, events := links[ws].events + [Accepted])];
      links := links[ws := links[ws].(listener := Some(Binding(id, role)))];
      links := links[ws := links[ws].(events := links[ws].events + [Sent(Json(Connected(role)))])];
      assert links[ws].events == before + [Accepted, Sent(Json(Connected(role)))];
    }

    /** handleMessage */
    method HandleMessage(id: string, sender: Role, data: Text)
      requires Valid()
      modifies this
      ensures Valid()
      ensures State() == Forward(old(State()), id, sender, data)
    {
      RelayKeepsInv(State(), id, sender, data);
      if id !in sessions {
        return;
      }
      var session := sessions[id];
      if data.Malformed? {
        return;  // JSON.parse threw: the error is logged and nothing is forwarded
      }
      var target := if sender == Laptop then session.phone else session.laptop;
      if target.Some? && target.value in links && links[target.value].open {
        var link := links[target.value];
        links := links[target.value := link.(events := link.events + [Sent(data)])];
      }
    }

    /** handleClose */
    method HandleClose(id: string, role: Role)
      requires Valid()
      modifies this
      ensures Valid()
      ensures State() == Disconnect(old(State()), id, role)
    {
      DisconnectKeepsInv(State(), id, role);
      if id !in sessions {
        return;
      }
      var session := sessions[id];
      if role == Laptop {
        session := session.(laptop := None);
      } else {
        session := session.(phone := None);
      }
      sessions := sessions[id := session];
      var other := if role == Laptop then session.phone else session.laptop;
      if other.Some? && other.value in links && links[other.value].open {
        var link := links[other.value];
        ghost var before := link.events;
        links := links[other.value := link.(events := link.events + [Sent(Json(PeerDisconnected))])];
        link := links[other.value];
        links := links[other.value := link.(open := false, events := link.events + [Closed(NormalClosure, PeerGoneReason)])];
        assert links[other.value].events == before + [Sent(Json(PeerDisconnected)), Closed(NormalClosure, PeerGoneReason)];
      }
      if session.laptop.None? && session.phone.None? {
        sessions := sessions - {id};
        assert sessions == old(sessions) - {id};
      }
    }

    /** The runtime delivers an event to the listeners of socket `ws`. */
    method OnSocketEvent(ws: LinkId, ev: SocketEvent)
      requires Valid()
      modifies this
      ensures Valid()
      ensures State() == Dispatch(old(State()), ws, ev)
    {
      DispatchKeepsInv(State(), ws, ev);
      if ws !in links || links[ws].listener.None? {
        return;
      }
      var b := links[ws].listener.value;
      match ev {
        case MessageEvent(data) =>
          HandleMessage(b.sessionId, b.role, data);
        case CloseEvent =>
          links := links[ws := links[ws].(open := false)];
          DispatchKeepsInv(old(State()), ws, ev);
          assert Inv(State()) by {
            var t := old(State());
            forall id', r | id' in sessions && sessions[id'].Slot(r).Some?
              ensures Holds(State(), id', r)
            {
              assert Holds(t, id', r);
            }
          }
          HandleClose(b.sessionId, b.role);
        case ErrorEvent =>
          HandleClose(b.sessionId, b.role);
      }
    }
  }
}
