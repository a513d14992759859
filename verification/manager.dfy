/** The WebSocket broadcast hub (`backend/websocket/manager.py`): a list of
    live connections; a broadcast sends one message to each and drops the
    connections whose send failed. Which sends fail is an input. */
module Manager {
  import Json
  import Seqs

  /** A connected WebSocket. */
  type ConnId = nat

  /** The `{type, data}` envelope every pushed message uses. */
  datatype Message = Message(kind: string, data: Json.Value)

  /** One send attempt. */
  datatype Delivery = Delivery(conn: ConnId, message: Message)

  datatype Hub = Hub(connections: seq<ConnId>)

  /** A hub after a broadcast, and the sends it attempted. */
  datatype Broadcasted = Broadcasted(hub: Hub, sent: seq<Delivery>)

  const AudioLevelTag: string := "audio_level"
  const LightStatusTag: string := "light_status"
  const EventTag: string := "event"
  const StateChangeTag: string := "state_change"
  const NotificationTag: string := "notification"

  /** `ConnectionManager.__init__`. */
  function NewHub(): (h: Hub)
    ensures ConnectionCount(h) == 0
  {
    Hub([])
  }

  /** `get_connection_count`. */
  function ConnectionCount(h: Hub): nat {
    |h.connections|
  }

  /** `connect`: the accepted connection is appended. */
  function Connect(h: Hub, ws: ConnId): (r: Hub)
    ensures r.connections == h.connections + [ws]
    ensures ConnectionCount(r) == ConnectionCount(h) + 1
  {
    Hub(h.connections + [ws])
  }

  /** `disconnect`: removes the connection if present, otherwise nothing. */
  function Disconnect(h: Hub, ws: ConnId): (r: Hub)
    ensures ws !in h.connections ==> r == h
    ensures ws in h.connections ==> ConnectionCount(r) == ConnectionCount(h) - 1
    ensures multiset(r.connections) == multiset(h.connections) - multiset{ws}
  {
    Hub(Seqs.Remove(h.connections, ws))
  }

  /** `disconnect` of a present connection drops its first occurrence and
      keeps every other connection in its place in the list. */
  lemma DisconnectKeepsOrder(h: Hub, ws: ConnId)
    requires ws in h.connections
    ensures var i := Seqs.FirstIndex(h.connections, ws);
      Disconnect(h, ws).connections == h.connections[..i] + h.connections[i + 1..]
  {
    Seqs.RemoveFirst(h.connections, ws);
  }

  /** The same message sent to each connection, in list order. */
  function SendAll(conns: seq<ConnId>, msg: Message): (sent: seq<Delivery>)
    ensures |sent| == |conns|
    ensures forall i :: 0 <= i < |sent| ==> sent[i] == Delivery(conns[i], msg)
  {
    if conns == [] then [] else [Delivery(conns[0], msg)] + SendAll(conns[1..], msg)
  }

  /** Every delivery of a broadcast carries the broadcast message. */
  lemma SendAllCarries(conns: seq<ConnId>, msg: Message)
    ensures forall d :: d in SendAll(conns, msg) ==> d.message == msg
  {
    var sent := SendAll(conns, msg);
    forall d | d in sent
      ensures d.message == msg
    {
      var i :| 0 <= i < |sent| && sent[i] == d;
    }
  }

  /** `broadcast`: sends `msg` to every connection, collects the ones whose
      send raised (`failed`), then disconnects each of them. No exception
      reaches the caller. */
  function Broadcast(h: Hub, msg: Message, failed: set<ConnId>): (r: Broadcasted)
    ensures r.hub.connections == Seqs.Without(h.connections, failed)
    ensures r.sent == SendAll(h.connections, msg)
  {
    var disconnected := Seqs.Within(h.connections, failed);
    Seqs.RemoveEachWithin(h.connections, failed);
    Broadcasted(Hub(Seqs.RemoveEach(h.connections, disconnected)), SendAll(h.connections, msg))
  }

  /** Dropping nothing keeps the list as it is. */
  lemma {:induction false} WithoutDisjoint(s: seq<ConnId>, drop: set<ConnId>)
    requires forall c :: c in s ==> c !in drop
    ensures Seqs.Without(s, drop) == s
  {
    if s != [] {
      WithoutDisjoint(s[1..], drop);
      assert s == [s[0]] + s[1..];
    }
  }

  /** A broadcast in which every send succeeds, or with nobody connected,
      leaves the connection list unchanged. */
  lemma BroadcastKeepsHealthy(h: Hub, msg: Message, failed: set<ConnId>)
    requires forall c :: c in h.connections ==> c !in failed
    ensures Broadcast(h, msg, failed).hub == h
    ensures ConnectionCount(h) == 0 ==> Broadcast(h, msg, failed).sent == []
  {
    WithoutDisjoint(h.connections, failed);
  }

  /** `send_personal`: one send; a failed send disconnects that client. */
  function SendPersonal(h: Hub, msg: Message, ws: ConnId, fails: bool): (r: Broadcasted)
    ensures r.sent == [Delivery(ws, msg)]
    ensures !fails ==> r.hub == h
    ensures fails ==> r.hub == Disconnect(h, ws)
  {
    Broadcasted(if fails then Disconnect(h, ws) else h, [Delivery(ws, msg)])
  }

  /** The envelope the `broadcast_*` helpers build. */
  function Envelope(tag: string, data: Json.Value): (m: Message)
    ensures m.kind == tag && m.data == data
  {
    Message(tag, data)
  }

  /** `broadcast_audio_level`. */
  function BroadcastAudioLevel(h: Hub, data: Json.Value, failed: set<ConnId>): (r: Broadcasted)
    ensures r.sent == SendAll(h.connections, Message(AudioLevelTag, data))
    ensures r.hub.connections == Seqs.Without(h.connections, failed)
  {
    Broadcast(h, Envelope(AudioLevelTag, data), failed)
  }

  /** `broadcast_light_status`. */
  function BroadcastLightStatus(h: Hub, data: Json.Value, failed: set<ConnId>): (r: Broadcasted)
    ensures r.sent == SendAll(h.connections, Message(LightStatusTag, data))
    ensures r.hub.connections == Seqs.Without(h.connections, failed)
  {
    Broadcast(h, Envelope(LightStatusTag, data), failed)
  }

  /** `broadcast_event`. */
  function BroadcastEvent(h: Hub, data: Json.Value, failed: set<ConnId>): (r: Broadcasted)
    ensures r.sent == SendAll(h.connections, Message(EventTag, data))
    ensures r.hub.connections == Seqs.Without(h.connections, failed)
  {
    Broadcast(h, Envelope(EventTag, data), failed)
  }

  /** `broadcast_state_change`. */
  function BroadcastStateChange(h: Hub, data: Json.Value, failed: set<ConnId>): (r: Broadcasted)
    ensures r.sent == SendAll(h.connections, Message(StateChangeTag, data))
    ensures r.hub.connections == Seqs.Without(h.connections, failed)
  {
    Broadcast(h, Envelope(StateChangeTag, data), failed)
  }

  /** `broadcast_notification` (the timestamp is not modelled). */
  function BroadcastNotification(h: Hub, level: string, title: string, message: string,
                                 failed: set<ConnId>): (r: Broadcasted)
    ensures r.sent == SendAll(h.connections, Message(NotificationTag, Json.Obj(map[
              "level" := Json.Str(level), "title" := Json.Str(title), "message" := Json.Str(message)])))
    ensures r.hub.connections == Seqs.Without(h.connections, failed)
  {
    Broadcast(h, Envelope(NotificationTag, Json.Obj(map[
      "level" := Json.Str(level), "title" := Json.Str(title), "message" := Json.Str(message)])), failed)
  }

  /** `broadcast` written as the source's two loops: the first sends to
      each connection and collects the failures, the second disconnects
      them one by one. It agrees with `Broadcast`. */
  method BroadcastLoop(h: Hub, msg: Message, failed: set<ConnId>) returns (r: Hub, sent: seq<Delivery>)
    ensures r.connections == Seqs.Without(h.connections, failed)
    ensures sent == SendAll(h.connections, msg)
  {
    var disconnected;
    sent, disconnected := SendCollecting(h.connections, msg, failed);
    var remaining := DisconnectEach(h.connections, disconnected);
    Seqs.RemoveEachWithin(h.connections, failed);
    r := Hub(remaining);
  }

  /** The first loop of `broadcast`: send to each connection in order,
      noting the ones whose send raised. */
  method SendCollecting(conns: seq<ConnId>, msg: Message, failed: set<ConnId>)
    returns (sent: seq<Delivery>, disconnected: seq<ConnId>)
    ensures sent == SendAll(conns, msg)
    ensures disconnected == Seqs.Within(conns, failed)
  {
    disconnected := [];
    sent := [];
    var i := 0;
    while i < |conns|
      invariant 0 <= i <= |conns|
      invariant sent == SendAll(conns[..i], msg)
      invariant disconnected == Seqs.Within(conns[..i], failed)
    {
      SendAllSnoc(conns[..i], conns[i], msg);
      WithinSnoc(conns[..i], conns[i], failed);
      assert conns[..i + 1] == conns[..i] + [conns[i]];
      sent := sent + [Delivery(conns[i], msg)];
      if conns[i] in failed {
        disconnected := disconnected + [conns[i]];
      }
      i := i + 1;
    }
    assert conns[..i] == conns;
  }

  /** The second loop of `broadcast`: `disconnect` each noted connection. */
  method DisconnectEach(conns: seq<ConnId>, disconnected: seq<ConnId>) returns (remaining: seq<ConnId>)
    ensures remaining == Seqs.RemoveEach(conns, disconnected)
  {
    remaining := conns;
    var j := 0;
    while j < |disconnected|
      invariant 0 <= j <= |disconnected|
      invariant Seqs.RemoveEach(remaining, disconnected[j..]) == Seqs.RemoveEach(conns, disconnected)
    {
      assert disconnected[j..][1..] == disconnected[j + 1..];
      remaining := Seqs.Remove(remaining, disconnected[j]);
      j := j + 1;
    }
    assert disconnected[j..] == [];
  }

  lemma {:induction false} SendAllSnoc(conns: seq<ConnId>, c: ConnId, msg: Message)
    ensures SendAll(conns + [c], msg) == SendAll(conns, msg) + [Delivery(c, msg)]
  {
    if conns != [] {
      assert (conns + [c])[1..] == conns[1..] + [c];
      SendAllSnoc(conns[1..], c, msg);
    }
  }

  lemma {:induction false} WithinSnoc(s: seq<ConnId>, c: ConnId, keep: set<ConnId>)
    ensures Seqs.Within(s + [c], keep) == Seqs.Within(s, keep) + (if c in keep then [c] else [])
  {
    if s == [] {
      assert s + [c] == [c];
    } else {
      assert (s + [c])[0] == s[0];
      assert (s + [c])[1..] == s[1..] + [c];
      WithinSnoc(s[1..], c, keep);
    }
  }
}
