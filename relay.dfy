/**
 * The PeerJS signalling relay of peerjs-server-worker.js (class PeerJSWSServer):
 * a registry `clients` from peer id to socket, a table `sessions` from socket
 * to its id and pending expiry timer, the message router and the front door
 * that takes the peer id from the upgrade request.
 *
 * Sockets are objects with a `readyState` and an `outbox` recording every
 * `send` and `close` made on them. Timers are abstract: `setTimeout` hands out
 * a fresh token and records the callback as pending, `clearTimeout` forgets
 * it, and the runtime firing it is the method `FireTimer`. `JSON.parse` is the
 * caller's: a message arrives already parsed, `None` when it is not valid JSON.
 */
module Relay {
  import opened Wrappers

  // WebSocket readyState values; WS_READY_STATE_OPEN is Open.
  const Connecting := 0
  const Open := 1
  const Closing := 2
  const Closed := 3

  const IdTakenCode := 1001
  const IdTakenReason := "ID-taken"

  // MessageType values
  const TypeOpen := "OPEN"
  const TypeLeave := "LEAVE"
  const TypeCandidate := "CANDIDATE"
  const TypeOffer := "OFFER"
  const TypeAnswer := "ANSWER"
  const TypeExpire := "EXPIRE"
  const TypeHeartbeat := "HEARTBEAT"

  /** A JSON value carried by a message, kept as its text: the relay never looks inside. */
  type Payload = string

  /** The fields `{type, dst, src, payload}` of a parsed message; `None` is an absent field. */
  datatype Envelope = Envelope(
    msgType: Option<string>,
    src: Option<string>,
    dst: Option<string>,
    payload: Option<Payload>)

  /** JavaScript truthiness of an optional string: present and not empty. */
  predicate Truthy(s: Option<string>) {
    s.Some? && s.value != ""
  }

  /** The acknowledgement `{type: "OPEN"}`. */
  function OpenAck(): Envelope {
    Envelope(Some(TypeOpen), None, None, None)
  }

  /** The frame forwarded for `data` received from the socket bound to `id`: `{type, src: src || id, dst, payload}`. */
  function Forwarded(data: Envelope, id: string): (e: Envelope)
    ensures e.msgType == data.msgType && e.dst == data.dst && e.payload == data.payload
    ensures Truthy(data.src) ==> e.src == data.src
    ensures !Truthy(data.src) ==> e.src == Some(id)
  {
    data.(src := if Truthy(data.src) then data.src else Some(id))
  }

  /** What a socket has been asked to do, in order. */
  datatype Frame = Sent(msg: Envelope) | ClosedWith(code: int, reason: string)

  /**
   * One accepted WebSocket. `clientId` is the id that `fetch` extracted and
   * that `handleWebSocket` captured in the socket's listeners.
   */
  class Socket {
    const clientId: string
    var readyState: int
    var outbox: seq<Frame>

    /** `webSocket.accept()` on the server side of a fresh pair. */
    constructor (clientId: string)
      ensures this.clientId == clientId && readyState == Open && outbox == []
    {
      this.clientId := clientId;
      readyState := Open;
      outbox := [];
    }

    /**
     * `send(msg)`. The Workers runtime refuses to send on a socket whose
     * `close` has already been called: the call throws and nothing is sent.
     * Here that is `ok == false` with the outbox as it was.
     */
    method Send(msg: Envelope) returns (ok: bool)
      modifies this
      ensures ok <==> old(readyState) == Open
      ensures ok ==> outbox == old(outbox) + [Sent(msg)]
      ensures !ok ==> outbox == old(outbox)
      ensures readyState == old(readyState)
    {
      ok := readyState == Open;
      if ok {
        outbox := outbox + [Sent(msg)];
      }
    }

    /** `close(code, reason)`: the socket starts closing unless it is closed already. */
    method Close(code: int, reason: string)
      modifies this
      ensures outbox == old(outbox) + [ClosedWith(code, reason)]
      ensures readyState == if old(readyState) == Closed then Closed else Closing
    {
      outbox := outbox + [ClosedWith(code, reason)];
      if readyState != Closed {
        readyState := Closing;
      }
    }
  }

  type TimerId = nat

  /** A session `{id, timer}`; `timer` is `None` for `null`. */
  datatype Session = Session(id: string, timer: Option<TimerId>)

  /**
   * A pending expiry callback, armed for 30000 ms: when it fires it runs
   * `onSocketClose(ws, id)`. The delay itself is not modelled; the runtime
   * firing the callback is `Server.FireTimer`.
   */
  datatype Expiry = Expiry(ws: Socket, id: string)

  /** The pending timers once `clearTimeout(timer)` has run (`clearTimeout(null)` does nothing). */
  function Cleared(timers: map<TimerId, Expiry>, timer: Option<TimerId>): (r: map<TimerId, Expiry>)
    ensures timer.Some? ==> timer.value !in r
    ensures forall t :: t in r <==> t in timers && timer != Some(t)
    ensures forall t :: t in r ==> r[t] == timers[t]
  {
    if timer.Some? then timers - {timer.value} else timers
  }

  /** The body of a response to `fetch`. */
  const MissingIdBody := "Client ID is required"
  const NotUpgradeBody := "request isn't trying to upgrade to websocket."

  /** The decision `fetch` takes on a request. */
  datatype Admission = Reject(status: int, body: string) | Admit(clientId: string)

  /** A response of `fetch`: a 400, or the client side of a new pair whose server side is `ws`. */
  datatype Response = BadRequest(body: string) | SwitchingProtocols(ws: Socket)

  /** `s.split("/")`. */
  function Split(s: string): (parts: seq<string>)
    ensures |parts| >= 1
    ensures forall i :: 0 <= i < |parts| ==> '/' !in parts[i]
  {
    if |s| == 0 then [""]
    else
      var rest := Split(s[1..]);
      if s[0] == '/' then [""] + rest
      else [[s[0]] + rest[0]] + rest[1..]
  }

  /** `parts.join("/")`, the inverse of `Split`. */
  function Join(parts: seq<string>): string
    requires |parts| >= 1
  {
    if |parts| == 1 then parts[0] else parts[0] + "/" + Join(parts[1..])
  }

  /** Round trip: joining the pieces of a split gives back the string. */
  lemma {:induction false} JoinSplit(s: string)
    ensures Join(Split(s)) == s
  {
    if |s| > 0 {
      var rest := Split(s[1..]);
      JoinSplit(s[1..]);
      assert s == [s[0]] + s[1..];
      if s[0] == '/' {
        assert ([""] + rest)[1..] == rest;
      } else {
        var parts := [[s[0]] + rest[0]] + rest[1..];
        assert parts[1..] == rest[1..];
        if |rest| > 1 {
          assert Join(rest) == rest[0] + "/" + Join(rest[1..]);
        }
      }
    }
  }

  /** Splitting a piece without '/' gives that piece alone. */
  lemma {:induction false} SplitPiece(p: string)
    requires '/' !in p
    ensures Split(p) == [p]
  {
    if |p| > 0 {
      assert '/' !in p[1..];
      SplitPiece(p[1..]);
      assert [p[0]] + p[1..] == p;
    }
  }

  /** Splitting `p + "/" + r` for a piece p without '/' gives p, then the pieces of r. */
  lemma {:induction false} SplitAfterPiece(p: string, r: string)
    requires '/' !in p
    ensures Split(p + "/" + r) == [p] + Split(r)
  {
    if |p| == 0 {
      assert p + "/" + r == "/" + r;
      assert ("/" + r)[1..] == r;
    } else {
      assert '/' !in p[1..];
      SplitAfterPiece(p[1..], r);
      var s := p + "/" + r;
      assert s[0] == p[0] && s[1..] == p[1..] + "/" + r;
      var rest := Split(s[1..]);
      assert rest[0] == p[1..] && rest[1..] == Split(r);
      assert [p[0]] + p[1..] == p;
    }
  }

  /** Round trip the other way: pieces without '/' survive a join and a split. */
  lemma {:induction false} SplitJoin(parts: seq<string>)
    requires |parts| >= 1
    requires forall i :: 0 <= i < |parts| ==> '/' !in parts[i]
    ensures Split(Join(parts)) == parts
  {
    if |parts| == 1 {
      SplitPiece(parts[0]);
    } else {
      SplitJoin(parts[1..]);
      SplitAfterPiece(parts[0], Join(parts[1..]));
      assert [parts[0]] + parts[1..] == parts;
    }
  }

  /** The client id: the second-to-last path segment when the path has more than 3 segments, else the `id` query parameter. */
  function ClientIdOf(pathname: string, idParam: Option<string>): Option<string> {
    var a := Split(pathname);
    if |a| > 3 then Some(a[|a| - 2]) else idParam
  }

  /**
   * `toLowerCase` on a header value. Header values are byte strings (every
   * character at most U+00FF), and on those `toLowerCase` changes only
   * 'A'..'Z' as far as comparing with "websocket" goes: no other character
   * below U+0100 lowers to an ASCII letter.
   */
  function AsciiLower(c: char): char {
    if 'A' <= c <= 'Z' then (c as int + 32) as char else c
  }

  /** `request.headers.get("upgrade")?.toLowerCase() === "websocket"`. */
  predicate IsWebSocketUpgrade(upgrade: Option<string>) {
    && upgrade.Some?
    && |upgrade.value| == 9
    && forall i :: 0 <= i < 9 ==> AsciiLower(upgrade.value[i]) == "websocket"[i]
  }

  /** The checks of `fetch`: a missing id is a 400, checked before the upgrade header, which is a 400 too. */
  function Decide(pathname: string, idParam: Option<string>, upgrade: Option<string>): (r: Admission)
    ensures r.Admit? <==> Truthy(ClientIdOf(pathname, idParam)) && IsWebSocketUpgrade(upgrade)
    ensures r.Admit? ==> Some(r.clientId) == ClientIdOf(pathname, idParam)
    ensures !Truthy(ClientIdOf(pathname, idParam)) ==> r == Reject(400, MissingIdBody)
    ensures Truthy(ClientIdOf(pathname, idParam)) && !IsWebSocketUpgrade(upgrade) ==> r == Reject(400, NotUpgradeBody)
  {
    var clientId := ClientIdOf(pathname, idParam);
    if !Truthy(clientId) then Reject(400, MissingIdBody)
    else if !IsWebSocketUpgrade(upgrade) then Reject(400, NotUpgradeBody)
    else Admit(clientId.value)
  }

  /** A path with more than three segments decides the id alone: the query parameter is ignored, even when that segment is empty. */
  lemma PathOverridesQuery(pathname: string, q1: Option<string>, q2: Option<string>, upgrade: Option<string>)
    requires |Split(pathname)| > 3
    ensures Decide(pathname, q1, upgrade) == Decide(pathname, q2, upgrade)
    ensures Split(pathname)[|Split(pathname)| - 2] == "" ==> Decide(pathname, q1, upgrade) == Reject(400, MissingIdBody)
  {
  }

  /** The path PeerJS clients use, `/peerjs/myapp/0.1.0/<peer id>/websocket`, yields the peer id whatever the query says. */
  lemma PeerJsPath(peer: string, query: Option<string>)
    requires peer != "" && '/' !in peer
    ensures Decide(Join(["", "peerjs", "myapp", "0.1.0", peer, "websocket"]), query, Some("websocket")) == Admit(peer)
  {
    SplitJoin(["", "peerjs", "myapp", "0.1.0", peer, "websocket"]);
    UpgradeHeader();
  }

  /** The header value is compared without regard to ASCII case. */
  lemma UpgradeHeader()
    ensures IsWebSocketUpgrade(Some("websocket")) && IsWebSocketUpgrade(Some("WebSocket"))
    ensures !IsWebSocketUpgrade(Some("websockets")) && !IsWebSocketUpgrade(None)
  {
  }

  /** The relay: class PeerJSWSServer. */
  class Server {
    /** peer id -> socket */
    var clients: map<string, Socket>
    /** socket -> `{id, timer}` */
    var sessions: map<Socket, Session>
    /** the runtime's pending `setTimeout` callbacks of this server */
    var timers: map<TimerId, Expiry>
    /** the token the next `setTimeout` hands out */
    var nextTimer: TimerId

    /**
     * A registered socket has a session under the same id; a session and a
     * pending expiry carry the id of their socket; tokens are never reused.
     */
    ghost predicate Valid()
      reads this
    {
      && (forall id :: id in clients ==> clients[id] in sessions && sessions[clients[id]].id == id)
      && (forall ws :: ws in sessions ==> sessions[ws].id == ws.clientId)
      && (forall ws :: ws in sessions && sessions[ws].timer.Some? ==> sessions[ws].timer.value < nextTimer)
      && (forall t :: t in timers ==> t < nextTimer && timers[t].id == timers[t].ws.clientId)
    }

    /** The socket currently registered under id, as a set (empty when there is none). */
    ghost function Holder(id: string): set<Socket>
      reads this
    {
      if id in clients then {clients[id]} else {}
    }

    /** The sockets a message from ws may act on. */
    ghost function Affected(ws: Socket, message: Option<Envelope>): set<Socket>
      reads this
    {
      if message.None? then {}
      else if message.value.msgType == Some(TypeOpen) then {ws} + Holder(ws.clientId)
      else if message.value.msgType == Some(TypeHeartbeat) then {}
      else if Truthy(message.value.dst) then Holder(message.value.dst.value)
      else {}
    }

    constructor ()
      ensures Valid()
      ensures clients == map[] && sessions == map[] && timers == map[]
    {
      clients := map[];
      sessions := map[];
      timers := map[];
      nextTimer := 0;
    }

    /** `setTimeout(callback, 30000)`: a fresh pending timer. */
    method SetTimeout(callback: Expiry) returns (t: TimerId)
      modifies this`timers, this`nextTimer
      ensures t == old(nextTimer) && nextTimer == t + 1
      ensures timers == old(timers)[t := callback]
    {
      t := nextTimer;
      nextTimer := nextTimer + 1;
      timers := timers[t := callback];
    }

    /** `clearTimeout(timer)`. */
    method ClearTimeout(timer: Option<TimerId>)
      modifies this`timers
      ensures timers == Cleared(old(timers), timer)
    {
      timers := Cleared(timers, timer);
    }

    /** `startExpiration(ws)`: cancel the session's pending timer and arm a fresh one; nothing without a session. */
    method StartExpiration(ws: Socket)
      requires Valid()
      modifies this
      ensures Valid()
      ensures clients == old(clients)
      ensures ws !in old(sessions) ==> unchanged(this)
      ensures ws in old(sessions) ==>
        && nextTimer == old(nextTimer) + 1
        && sessions == old(sessions)[ws := Session(old(sessions)[ws].id, Some(old(nextTimer)))]
        && timers == Cleared(old(timers), old(sessions)[ws].timer)[old(nextTimer) := Expiry(ws, old(sessions)[ws].id)]
    {
      if ws in sessions {
        var session := sessions[ws];
        ClearTimeout(session.timer);
        var t := SetTimeout(Expiry(ws, session.id));
        sessions := sessions[ws := session.(timer := Some(t))];
      }
    }

    /** `onSocketClose(ws, id)`: drop the session and, only if id still maps to ws, the registration. */
    method OnSocketClose(ws: Socket, id: string)
      requires Valid()
      requires id == ws.clientId // every caller passes the id the socket was opened with
      modifies this
      ensures Valid()
      ensures sessions == old(sessions) - {ws}
      ensures clients == if id in old(clients) && old(clients)[id] == ws then old(clients) - {id} else old(clients)
      ensures timers == if ws in old(sessions) then Cleared(old(timers), old(sessions)[ws].timer) else old(timers)
      ensures nextTimer == old(nextTimer)
    {
      if ws in sessions {
        ClearTimeout(sessions[ws].timer);
        sessions := sessions - {ws};
      }
      if id in clients && clients[id] == ws {
        clients := clients - {id};
      }
    }

    /** The runtime runs the pending callback t, if any: `onSocketClose(ws, session.id)`. */
    method FireTimer(t: TimerId)
      requires Valid()
      modifies this
      ensures Valid()
      ensures t !in old(timers) ==> unchanged(this)
      ensures t in old(timers) ==>
        var cb := old(timers)[t];
        && sessions == old(sessions) - {cb.ws}
        && clients == (if cb.id in old(clients) && old(clients)[cb.id] == cb.ws then old(clients) - {cb.id} else old(clients))
        && timers == (if cb.ws in old(sessions) then Cleared(old(timers) - {t}, old(sessions)[cb.ws].timer) else old(timers) - {t})
        && nextTimer == old(nextTimer)
        && t !in timers
    {
      if t in timers {
        var cb := timers[t];
        timers := timers - {t};
        OnSocketClose(cb.ws, cb.id);
      }
    }

    /**
     * Whether `onSocketOpen(ws, id)` gets as far as acknowledging: ws is open
     * and is not itself the open socket registered under its id, which the
     * handler closes before it sends.
     */
    ghost predicate Acknowledges(ws: Socket)
      reads this, ws
    {
      ws.readyState == Open && !(ws.clientId in clients && clients[ws.clientId] == ws)
    }

    /**
     * `onSocketOpen(ws, id)`: close the socket id was registered to if it is
     * open (even when it is ws itself), register ws, give it a new session
     * `{id, timer: null}` without clearing the timer of any session it had,
     * acknowledge, and start the expiry timer. When the acknowledgement
     * cannot be sent (ws was closed, by this very handler or before), the
     * send throws and the expiry timer is never started.
     */
    method OnSocketOpen(ws: Socket)
      requires Valid()
      modifies this, ws, Holder(ws.clientId)
      ensures Valid()
      ensures clients == old(clients)[ws.clientId := ws]
      ensures old(Acknowledges(ws)) ==>
        && nextTimer == old(nextTimer) + 1
        && sessions == old(sessions)[ws := Session(ws.clientId, Some(old(nextTimer)))]
        && timers == old(timers)[old(nextTimer) := Expiry(ws, ws.clientId)]
        && ws.outbox == old(ws.outbox) + [Sent(OpenAck())]
        && ws.readyState == old(ws.readyState)
      ensures !old(Acknowledges(ws)) ==>
        && nextTimer == old(nextTimer)
        && sessions == old(sessions)[ws := Session(ws.clientId, None)]
        && timers == old(timers)
      ensures ws.clientId in old(clients) && old(clients[ws.clientId].readyState) == Open ==>
        var h := old(clients[ws.clientId]);
        && h.outbox == old(h.outbox) + [ClosedWith(IdTakenCode, IdTakenReason)]
        && h.readyState == Closing
      ensures ws.clientId in old(clients) && old(clients[ws.clientId]) != ws && old(clients[ws.clientId].readyState) != Open ==>
        unchanged(old(clients[ws.clientId]))
      ensures old(ws.readyState) != Open ==> ws.readyState == old(ws.readyState) && ws.outbox == old(ws.outbox)
    {
      EvictHolder(ws.clientId);
      Install(ws);
    }

    /**
     * The rest of `onSocketOpen`: register ws, acknowledge, and start the
     * expiry timer; a send that throws ends the handler after registering.
     */
    method Install(ws: Socket)
      requires Valid()
      modifies this, ws
      ensures Valid()
      ensures clients == old(clients)[ws.clientId := ws]
      ensures ws.readyState == old(ws.readyState)
      ensures old(ws.readyState) == Open ==>
        && nextTimer == old(nextTimer) + 1
        && sessions == old(sessions)[ws := Session(ws.clientId, Some(old(nextTimer)))]
        && timers == old(timers)[old(nextTimer) := Expiry(ws, ws.clientId)]
        && ws.outbox == old(ws.outbox) + [Sent(OpenAck())]
      ensures old(ws.readyState) != Open ==>
        && nextTimer == old(nextTimer)
        && sessions == old(sessions)[ws := Session(ws.clientId, None)]
        && timers == old(timers)
        && ws.outbox == old(ws.outbox)
    {
      Register(ws);
      var ok := ws.Send(OpenAck());
      if !ok {
        return;
      }
      ghost var armed := Session(ws.clientId, Some(nextTimer));
      assert sessions[ws := armed] == old(sessions)[ws := armed];
      StartExpiration(ws);
    }

    /** The first step of `onSocketOpen`: close the socket registered under id if it is open. */
    method EvictHolder(id: string)
      modifies Holder(id)
      ensures id in clients && old(clients[id].readyState) == Open ==>
        && clients[id].outbox == old(clients[id].outbox) + [ClosedWith(IdTakenCode, IdTakenReason)]
        && clients[id].readyState == Closing
      ensures id in clients && old(clients[id].readyState) != Open ==> unchanged(clients[id])
    {
      if id in clients {
        var oldWs := clients[id];
        if oldWs.readyState == Open {
          oldWs.Close(IdTakenCode, IdTakenReason);
        }
      }
    }

    /** The second step of `onSocketOpen`: register ws under its id with a session `{id, timer: null}`. */
    method Register(ws: Socket)
      requires Valid()
      modifies this`clients, this`sessions
      ensures Valid()
      ensures clients == old(clients)[ws.clientId := ws]
      ensures sessions == old(sessions)[ws := Session(ws.clientId, None)]
    {
      clients := clients[ws.clientId := ws];
      sessions := sessions[ws := Session(ws.clientId, None)];
    }

    /**
     * `onSocketMessage(ws, id, message)`: drop what does not parse, handle
     * OPEN and HEARTBEAT, and forward every other type, unknown ones included,
     * to the registered and open destination.
     */
    method OnSocketMessage(ws: Socket, message: Option<Envelope>)
      requires Valid()
      modifies this, Affected(ws, message)
      ensures Valid()
      // not valid JSON: no state change, nothing sent
      ensures message.None? ==> unchanged(this)
      // OPEN: onSocketOpen
      ensures message.Some? && message.value.msgType == Some(TypeOpen) ==>
        clients == old(clients)[ws.clientId := ws]
      ensures message.Some? && message.value.msgType == Some(TypeOpen) && old(Acknowledges(ws)) ==>
        && nextTimer == old(nextTimer) + 1
        && sessions == old(sessions)[ws := Session(ws.clientId, Some(old(nextTimer)))]
        && timers == old(timers)[old(nextTimer) := Expiry(ws, ws.clientId)]
        && ws.outbox == old(ws.outbox) + [Sent(OpenAck())]
        && ws.readyState == old(ws.readyState)
      ensures message.Some? && message.value.msgType == Some(TypeOpen) && !old(Acknowledges(ws)) ==>
        && nextTimer == old(nextTimer)
        && sessions == old(sessions)[ws := Session(ws.clientId, None)]
        && timers == old(timers)
      ensures message.Some? && message.value.msgType == Some(TypeOpen)
              && ws.clientId in old(clients) && old(clients[ws.clientId].readyState) == Open ==>
        var h := old(clients[ws.clientId]);
        && h.outbox == old(h.outbox) + [ClosedWith(IdTakenCode, IdTakenReason)]
        && h.readyState == Closing
      ensures message.Some? && message.value.msgType == Some(TypeOpen)
              && ws.clientId in old(clients) && old(clients[ws.clientId]) != ws && old(clients[ws.clientId].readyState) != Open ==>
        unchanged(old(clients[ws.clientId]))
      ensures message.Some? && message.value.msgType == Some(TypeOpen) && old(ws.readyState) != Open ==>
        ws.readyState == old(ws.readyState) && ws.outbox == old(ws.outbox)
      // HEARTBEAT only rearms the timer, and does nothing without a session
      ensures message.Some? && message.value.msgType == Some(TypeHeartbeat) && ws !in old(sessions) ==>
        unchanged(this)
      ensures message.Some? && message.value.msgType == Some(TypeHeartbeat) && ws in old(sessions) ==>
        && clients == old(clients)
        && nextTimer == old(nextTimer) + 1
        && sessions == old(sessions)[ws := Session(old(sessions)[ws].id, Some(old(nextTimer)))]
        && timers == Cleared(old(timers), old(sessions)[ws].timer)[old(nextTimer) := Expiry(ws, old(sessions)[ws].id)]
      // every other type is forwarded, and forwarding never touches the registry
      ensures message.Some? && message.value.msgType != Some(TypeOpen) && message.value.msgType != Some(TypeHeartbeat) ==>
        && clients == old(clients) && sessions == old(sessions)
        && timers == old(timers) && nextTimer == old(nextTimer)
      ensures message.Some? && message.value.msgType != Some(TypeOpen) && message.value.msgType != Some(TypeHeartbeat)
              && Truthy(message.value.dst) && message.value.dst.value in old(clients) ==>
        var dest := old(clients)[message.value.dst.value];
        && (old(dest.readyState) == Open ==>
              dest.outbox == old(dest.outbox) + [Sent(Forwarded(message.value, ws.clientId))] && dest.readyState == old(dest.readyState))
        && (old(dest.readyState) != Open ==> unchanged(dest))
    {
      if message.None? {
        return;
      }
      var data := message.value;
      if data.msgType == Some(TypeOpen) {
        OnSocketOpen(ws);
        return;
      }
      if data.msgType == Some(TypeHeartbeat) {
        StartExpiration(ws);
        return;
      }
      if !Truthy(data.dst) || data.dst.value !in clients {
        return;
      }
      var dest := clients[data.dst.value];
      if dest.readyState == Open {
        var sent := dest.Send(Forwarded(data, ws.clientId));
      }
    }

    /** `fetch(request)` with `handleWebSocket`: check the request, then accept a socket bound to the id. */
    method Fetch(pathname: string, idParam: Option<string>, upgrade: Option<string>) returns (r: Response)
      ensures Decide(pathname, idParam, upgrade).Reject? ==> r == BadRequest(Decide(pathname, idParam, upgrade).body)
      ensures Decide(pathname, idParam, upgrade).Admit? ==>
        && r.SwitchingProtocols? && fresh(r.ws)
        && r.ws.clientId == Decide(pathname, idParam, upgrade).clientId
        && r.ws.readyState == Open && r.ws.outbox == []
    {
      var decision := Decide(pathname, idParam, upgrade);
      if decision.Reject? {
        return BadRequest(decision.body);
      }
      var ws := new Socket(decision.clientId);
      r := SwitchingProtocols(ws);
    }
  }
}
