/** Real-time streaming to WebSocket clients (`backend/websocket/streams.py`):
    the telemetry streams go out only while `is_streaming` holds;
    notifications always go out. Rounding of floats in payloads is not
    modelled. */
module Streams {
  import opened Wrappers
  import Json
  import Manager
  import EventLogger
  import StateMachine
  import Seqs

  datatype StreamManager = StreamManager(isStreaming: bool, hub: Manager.Hub)

  /** The fields of one audio analysis frame that are streamed. */
  datatype AudioData = AudioData(rms: real, peak: real, frequencyPeak: real)

  /** A stream manager after one streaming call, and the sends it made. */
  datatype Streamed = Streamed(streams: StreamManager, sent: seq<Manager.Delivery>)

  /** `StreamManager.__init__`. */
  function NewStreamManager(hub: Manager.Hub): (s: StreamManager)
    ensures !s.isStreaming && s.hub == hub
  {
    StreamManager(false, hub)
  }

  /** `start_streaming`. */
  function StartStreaming(s: StreamManager): (r: StreamManager)
    ensures r.isStreaming && r.hub == s.hub
  {
    s.(isStreaming := true)
  }

  /** `stop_streaming`. */
  function StopStreaming(s: StreamManager): (r: StreamManager)
    ensures !r.isStreaming && r.hub == s.hub
  {
    s.(isStreaming := false)
  }

  /** Broadcasts `msg` through the hub, ungated. */
  function Publish(s: StreamManager, msg: Manager.Message, failed: set<Manager.ConnId>): (r: Streamed)
    ensures r.streams.isStreaming == s.isStreaming
    ensures r.sent == Manager.SendAll(s.hub.connections, msg)
    ensures r.streams.hub == Manager.Broadcast(s.hub, msg, failed).hub
  {
    var b := Manager.Broadcast(s.hub, msg, failed);
    Streamed(s.(hub := b.hub), b.sent)
  }

  /** The `if not self.is_streaming: return` guard of the telemetry streams:
      while not streaming nothing is sent and nothing changes. */
  function Gated(s: StreamManager, msg: Manager.Message, failed: set<Manager.ConnId>): (r: Streamed)
    ensures !s.isStreaming ==> r == Streamed(s, [])
    ensures s.isStreaming ==> r == Publish(s, msg, failed)
  {
    if !s.isStreaming then Streamed(s, []) else Publish(s, msg, failed)
  }

  /** The `audio_level` payload. */
  function AudioPayload(a: AudioData): Json.Value {
    Json.Obj(map["rms" := Json.Num(a.rms), "peak" := Json.Num(a.peak), "frequency_peak" := Json.Num(a.frequencyPeak)])
  }

  /** `stream_audio_data`. */
  function StreamAudioData(s: StreamManager, a: AudioData, failed: set<Manager.ConnId>): (r: Streamed)
    ensures r == Gated(s, Manager.Message(Manager.AudioLevelTag, AudioPayload(a)), failed)
  {
    var b := if s.isStreaming then Manager.BroadcastAudioLevel(s.hub, AudioPayload(a), failed)
             else Manager.Broadcasted(s.hub, []);
    Streamed(s.(hub := b.hub), b.sent)
  }

  /** `stream_light_status`. */
  function StreamLightStatus(s: StreamManager, status: Json.Value, failed: set<Manager.ConnId>): (r: Streamed)
    ensures r == Gated(s, Manager.Message(Manager.LightStatusTag, status), failed)
  {
    var b := if s.isStreaming then Manager.BroadcastLightStatus(s.hub, status, failed)
             else Manager.Broadcasted(s.hub, []);
    Streamed(s.(hub := b.hub), b.sent)
  }

  /** `stream_event`: the event is sent as its `to_dict` form. */
  function StreamEvent(s: StreamManager, e: EventLogger.Event, failed: set<Manager.ConnId>): (r: Streamed)
    ensures r == Gated(s, Manager.Message(Manager.EventTag, EventLogger.ToDict(e)), failed)
  {
    var b := if s.isStreaming then Manager.BroadcastEvent(s.hub, EventLogger.ToDict(e), failed)
             else Manager.Broadcasted(s.hub, []);
    Streamed(s.(hub := b.hub), b.sent)
  }

  /** The `state_change` payload: the states' string values, plus
      `countdown_remaining` when the event carries one. */
  function StateChangePayload(e: StateMachine.StateChangeEvent): (p: Json.Value)
    ensures p.Obj?
    ensures p.fields.Keys == {"from", "to"} + (if e.countdownRemaining.Some? then {"countdown_remaining"} else {})
    ensures p.fields["from"] == Json.Str(e.fromState.Value())
    ensures p.fields["to"] == Json.Str(e.toState.Value())
    ensures e.countdownRemaining.Some? ==>
              p.fields["countdown_remaining"] == Json.Num(e.countdownRemaining.value)
  {
    var base := map["from" := Json.Str(e.fromState.Value()), "to" := Json.Str(e.toState.Value())];
    if e.countdownRemaining.Some? then
      Json.Obj(base["countdown_remaining" := Json.Num(e.countdownRemaining.value)])
    else
      Json.Obj(base)
  }

  /** Reads a state back from its string value, as a client does. */
  function StateFromValue(v: string): (s: Option<StateMachine.State>)
    ensures s.Some? ==> s.value.Value() == v
  {
    if v == "non_trick" then Some(StateMachine.NonTrick)
    else if v == "trick_countdown" then Some(StateMachine.TrickCountdown)
    else if v == "trick_active" then Some(StateMachine.TrickActive)
    else if v == "trick_reset" then Some(StateMachine.TrickReset)
    else None
  }

  /** Reads a `state_change` payload back into an event. */
  function PayloadToEvent(p: Json.Value): Option<StateMachine.StateChangeEvent> {
    if !p.Obj? || "from" !in p.fields || "to" !in p.fields then None
    else if !p.fields["from"].Str? || !p.fields["to"].Str? then None
    else
      var from := StateFromValue(p.fields["from"].s);
      var to := StateFromValue(p.fields["to"].s);
      if from.None? || to.None? then None
      else if "countdown_remaining" in p.fields then
        if p.fields["countdown_remaining"].Num? then
          Some(StateMachine.StateChangeEvent(from.value, to.value, Some(p.fields["countdown_remaining"].n)))
        else None
      else Some(StateMachine.StateChangeEvent(from.value, to.value, None))
  }

  /** The payload loses nothing a client needs: reading it back yields the
      event, including whether it was a countdown tick. */
  lemma StateChangePayloadRoundTrip(e: StateMachine.StateChangeEvent)
    ensures PayloadToEvent(StateChangePayload(e)) == Some(e)
  {
    var p := StateChangePayload(e);
    assert "from" in p.fields && "to" in p.fields;
    assert StateFromValue(e.fromState.Value()) == Some(e.fromState);
    assert StateFromValue(e.toState.Value()) == Some(e.toState);
    if e.countdownRemaining.None? {
      assert "countdown_remaining" !in p.fields;
    }
  }

  /** `stream_state_change`. */
  function StreamStateChange(s: StreamManager, e: StateMachine.StateChangeEvent,
                             failed: set<Manager.ConnId>): (r: Streamed)
    ensures r == Gated(s, Manager.Message(Manager.StateChangeTag, StateChangePayload(e)), failed)
  {
    var b := if s.isStreaming then Manager.BroadcastStateChange(s.hub, StateChangePayload(e), failed)
             else Manager.Broadcasted(s.hub, []);
    Streamed(s.(hub := b.hub), b.sent)
  }

  /** `send_notification`: not gated by the streaming flag. */
  function SendNotification(s: StreamManager, level: string, title: string, message: string,
                            failed: set<Manager.ConnId>): (r: Streamed)
    ensures r.streams.isStreaming == s.isStreaming
    ensures r.sent == Manager.SendAll(s.hub.connections, Manager.Message(Manager.NotificationTag,
              Json.Obj(map["level" := Json.Str(level), "title" := Json.Str(title), "message" := Json.Str(message)])))
  {
    var b := Manager.BroadcastNotification(s.hub, level, title, message, failed);
    Streamed(s.(hub := b.hub), b.sent)
  }

  /** What one iteration of the light-status loop observes: the streaming
      flag as other tasks left it when the loop condition is evaluated, the
      status read from the lights (None when `get_status` raised), and the
      connections whose send fails. */
  datatype Round = Round(streaming: bool, status: Option<Json.Value>, failed: set<Manager.ConnId>)

  /** Every delivery is a light-status message whose data is the status
      read in one of the first `n` rounds. */
  predicate SentFrom(sent: seq<Manager.Delivery>, rounds: seq<Round>, n: nat)
    requires n <= |rounds|
  {
    forall d :: d in sent ==>
      && d.message.kind == Manager.LightStatusTag
      && exists j :: 0 <= j < n && rounds[j].status == Some(d.message.data)
  }

  /** One pass through the loop body once the flag has been read as set: a
      status that was read goes to every client connected at that point, and
      a failed read sends nothing. */
  function PollRound(s: StreamManager, round: Round): (r: Streamed)
    ensures r.streams.isStreaming
    ensures round.status.Some? ==>
      r.sent == Manager.SendAll(s.hub.connections, Manager.Message(Manager.LightStatusTag, round.status.value))
    ensures round.status.None? ==> r == Streamed(s.(isStreaming := true), [])
  {
    var on := s.(isStreaming := true);
    if round.status.Some? then StreamLightStatus(on, round.status.value, round.failed)
    else Streamed(on, [])
  }

  /** The loop's outcome over some rounds: the stream manager afterwards, how
      many rounds ran the body, and everything sent, in order. */
  datatype Polled = Polled(streams: StreamManager, iterations: nat, sent: seq<Manager.Delivery>)

  /** Reference semantics of the light-status loop, one round at a time: the
      body runs while the flag is read as set, and the loop ends, leaving the
      flag off, at the first round where it is not. */
  function Poll(s: StreamManager, rounds: seq<Round>): (p: Polled)
    ensures p.iterations <= |rounds|
    decreases |rounds|
  {
    if rounds == [] then Polled(s, 0, [])
    else if !rounds[0].streaming then Polled(s.(isStreaming := false), 0, [])
    else
      var here := PollRound(s, rounds[0]);
      var rest := Poll(here.streams, rounds[1..]);
      Polled(rest.streams, rest.iterations + 1, here.sent + rest.sent)
  }

  /** The body runs exactly through the leading rounds that read the flag as
      set; the loop ends with the flag off when a round reads it unset. */
  lemma {:induction false} PollStops(s: StreamManager, rounds: seq<Round>)
    ensures var p := Poll(s, rounds);
      && (forall j :: 0 <= j < p.iterations ==> rounds[j].streaming)
      && (p.iterations < |rounds| ==> !rounds[p.iterations].streaming && !p.streams.isStreaming)
    decreases |rounds|
  {
    if rounds != [] && rounds[0].streaming {
      var here := PollRound(s, rounds[0]);
      PollStops(here.streams, rounds[1..]);
      var rest := Poll(here.streams, rounds[1..]);
      assert forall j :: 0 < j <= rest.iterations ==> rounds[j] == rounds[1..][j - 1];
    }
  }

  /** One round of the loop that reads the flag as set, followed by the rest. */
  lemma PollUnfold(s: StreamManager, rounds: seq<Round>)
    requires rounds != [] && rounds[0].streaming
    ensures var here := PollRound(s, rounds[0]); var rest := Poll(here.streams, rounds[1..]);
      Poll(s, rounds) == Polled(rest.streams, rest.iterations + 1, here.sent + rest.sent)
  {
  }

  /** Polling `a` and then `b` is polling `a + b`, when the loop ran through
      every round of `a`. */
  lemma {:induction false} PollSplit(s: StreamManager, a: seq<Round>, b: seq<Round>)
    requires Poll(s, a).iterations == |a|
    ensures var p := Poll(s, a); var q := Poll(p.streams, b);
      Poll(s, a + b) == Polled(q.streams, |a| + q.iterations, p.sent + q.sent)
    decreases |a|
  {
    if a == [] {
      assert a + b == b;
    } else {
      var here := PollRound(s, a[0]);
      var rest := Poll(here.streams, a[1..]);
      assert Poll(s, a) == Polled(rest.streams, rest.iterations + 1, here.sent + rest.sent) by {
        PollUnfold(s, a);
      }
      var q := Poll(rest.streams, b);
      assert Poll(here.streams, a[1..] + b) == Polled(q.streams, |a| - 1 + q.iterations, rest.sent + q.sent) by {
        PollSplit(here.streams, a[1..], b);
      }
      assert Poll(s, a + b) == Polled(q.streams, |a| + q.iterations, here.sent + (rest.sent + q.sent)) by {
        assert (a + b)[0] == a[0];
        assert (a + b)[1..] == a[1..] + b;
        PollUnfold(s, a + b);
      }
      assert Poll(s, a).streams == rest.streams && Poll(s, a).sent == here.sent + rest.sent;
      assert Poll(Poll(s, a).streams, b) == q;
      Seqs.AppendAssoc(here.sent, rest.sent, q.sent);
    }
  }

  /** The loop leaves nothing out: what it sends is, round by round, the
      broadcast of each round that ran, each going to the clients connected
      when that round began. */
  lemma PollSendsEachRound(s: StreamManager, rounds: seq<Round>, j: nat)
    requires j < Poll(s, rounds).iterations
    ensures var before := Poll(s, rounds[..j]);
      var here := PollRound(before.streams, rounds[j]);
      before.iterations == j &&
      Poll(s, rounds).sent == before.sent + here.sent + Poll(here.streams, rounds[j + 1..]).sent
  {
    var before := Poll(s, rounds[..j]);
    PollStops(s, rounds);
    PollStops(s, rounds[..j]);
    assert before.iterations == j;
    assert rounds == rounds[..j] + rounds[j..];
    PollSplit(s, rounds[..j], rounds[j..]);
    var left := rounds[j..];
    assert left[0] == rounds[j] && left[1..] == rounds[j + 1..];
    PollUnfold(before.streams, left);
    var here := PollRound(before.streams, rounds[j]);
    Seqs.AppendAssoc(before.sent, here.sent, Poll(here.streams, left[1..]).sent);
  }

  /** The loop sends nothing but light-status messages, each carrying a
      status that one of the rounds that ran read. */
  lemma {:induction false} PollSound(s: StreamManager, rounds: seq<Round>)
    ensures SentFrom(Poll(s, rounds).sent, rounds, Poll(s, rounds).iterations)
    decreases |rounds|
  {
    if rounds != [] && rounds[0].streaming {
      var here := PollRound(s, rounds[0]);
      var rest := Poll(here.streams, rounds[1..]);
      PollUnfold(s, rounds);
      PollSound(here.streams, rounds[1..]);
      forall d | d in here.sent + rest.sent
        ensures d.message.kind == Manager.LightStatusTag
        ensures exists j :: 0 <= j < rest.iterations + 1 && rounds[j].status == Some(d.message.data)
      {
        if d in here.sent {
          var v := rounds[0].status.value;
          Manager.SendAllCarries(s.(isStreaming := true).hub.connections, Manager.Message(Manager.LightStatusTag, v));
          assert rounds[0].status == Some(d.message.data);
        } else {
          var j :| 0 <= j < rest.iterations && rounds[1..][j].status == Some(d.message.data);
          assert rounds[j + 1].status == Some(d.message.data);
        }
      }
    }
  }

  /** `periodic_light_status_stream`, over a finite horizon of rounds: the
      loop keeps polling while the flag holds and stops at the first round
      in which it does not. */
  method PeriodicLightStatus(s: StreamManager, rounds: seq<Round>)
    returns (r: StreamManager, iterations: nat, sent: seq<Manager.Delivery>)
    ensures Polled(r, iterations, sent) == Poll(s, rounds)
    ensures iterations <= |rounds|
    ensures forall j :: 0 <= j < iterations ==> rounds[j].streaming
    ensures iterations < |rounds| ==> !rounds[iterations].streaming && !r.isStreaming
    ensures SentFrom(sent, rounds, iterations)
  {
    r := s;
    iterations := 0;
    sent := [];
    var stopped := false;
    while iterations < |rounds| && !stopped
      invariant iterations <= |rounds|
      invariant stopped ==> Polled(r, iterations, sent) == Poll(s, rounds)
      invariant !stopped ==> var rest := Poll(r, rounds[iterations..]);
        Poll(s, rounds) == Polled(rest.streams, iterations + rest.iterations, sent + rest.sent)
      decreases |rounds| - iterations, if stopped then 0 else 1
    {
      var round := rounds[iterations];
      var left := rounds[iterations..];
      assert left[0] == round && left[1..] == rounds[iterations + 1..];
      if !round.streaming {
        r := r.(isStreaming := false);
        stopped := true;
      } else {
        var here := PollRound(r, round);
        PollUnfold(r, left);
        Seqs.AppendAssoc(sent, here.sent, Poll(here.streams, left[1..]).sent);
        r := here.streams;
        sent := sent + here.sent;
        iterations := iterations + 1;
      }
    }
    PollStops(s, rounds);
    PollSound(s, rounds);
  }

}
