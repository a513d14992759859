/** The orchestration controller (`backend/controller.py`): run/stop
    lifecycle, the audio-trigger gate, per-state hardware effects, mode
    selection, and the forgiving merge-patch of the live configuration.

    Hardware objects appear only as the fields the controller reads and
    writes (the microphone's thresholds, the state machine's timing, the
    scream delay); every call into a driver is returned as an `Effect`. */
module Controller {
  import opened Wrappers
  import Json
  import Seqs
  import SM = StateMachine
  import EventLogger
  import Manager
  import Streams

  // ---------------------------------------------------------------------
  // Configuration records and their defaults

  datatype AudioConfig = AudioConfig(
    triggerFrequencyMin: real,
    triggerFrequencyMax: real,
    triggerAmplitudeThreshold: real,
    sampleRate: int,
    chunkSize: int)

  datatype TimingConfig = TimingConfig(
    countdownDuration: real,
    activeDuration: real,
    resetDuration: real,
    screamDelay: real)

  datatype IntensityLevel = IntensityLevel(brightness: real, volume: real)

  datatype IntensityConfig = IntensityConfig(child: IntensityLevel, adult: IntensityLevel)

  datatype Config = Config(mode: string, audio: AudioConfig, timing: TimingConfig, intensity: IntensityConfig)

  /** The defaults a missing configuration file yields. */
  const DefaultConfig: Config := Config(
    "child",
    AudioConfig(800.0, 1200.0, 0.3, 44100, 1024),
    TimingConfig(3.0, 2.0, 5.0, 2.0),
    IntensityConfig(IntensityLevel(0.6, 0.5), IntensityLevel(1.0, 1.0)))

  /** The microphone fields the controller touches. */
  datatype Microphone = Microphone(
    triggerFreqMin: real,
    triggerFreqMax: real,
    triggerThreshold: real,
    sampleRate: int)

  /** Calls into the lighting, speaker and microphone drivers, task
      creation for them, and the configuration write. */
  datatype Effect =
    | InitMicrophone
    | InitLights
    | InitSpeaker
    | StartAmbientPattern
    | PlayAmbientMusic(volume: real)
    | StartListening
    | StartLightStream
    | StopListening
    | CancelAmbient
    | CancelLightStream
    | ShutdownLights
    | ShutdownSpeaker
    | SetVolume(volume: real)
    | GlitchEffect(progress: real)
    | ApplyDistortion(progress: real)
    | PlayScareSequence(volume: real, screamDelay: real)
    | TriggerFlash(brightness: real)
    | ResetLightsToAmbient(duration: real)
    | ResetAudio(duration: real)
    | SaveConfig(saved: Config)

  /** The id under which the controller registers its callbacks. */
  const ControllerCallback: nat := 0

  datatype Controller = Controller(
    config: Config,
    microphone: Microphone,
    machine: SM.Machine,
    logger: EventLogger.Logger,
    streams: Streams.StreamManager,
    isRunning: bool,
    screamDelay: real,
    pendingTriggers: nat)

  /** A controller after one operation, the driver calls it made, and the
      messages it pushed to clients. */
  datatype Outcome = Outcome(ctl: Controller, effects: seq<Effect>, sent: seq<Manager.Delivery>)

  /** The state machine's durations mirror `config.timing`. */
  predicate TimingSynced(c: Controller) {
    c.machine.timing == SM.Timing(c.config.timing.countdownDuration,
                                  c.config.timing.activeDuration,
                                  c.config.timing.resetDuration)
  }

  /** The microphone's thresholds mirror `config.audio`. */
  predicate AudioSynced(c: Controller) {
    && c.microphone.triggerFreqMin == c.config.audio.triggerFrequencyMin
    && c.microphone.triggerFreqMax == c.config.audio.triggerFrequencyMax
    && c.microphone.triggerThreshold == c.config.audio.triggerAmplitudeThreshold
    && c.microphone.sampleRate == c.config.audio.sampleRate
  }

  /** The controller invariant: live components agree with the config
      record, the parts are well formed, and streaming runs exactly while
      the box runs. */
  predicate Valid(c: Controller) {
    && TimingSynced(c)
    && AudioSynced(c)
    && c.screamDelay == c.config.timing.screamDelay
    && SM.Valid(c.machine)
    && EventLogger.Valid(c.logger)
    && c.streams.isStreaming == c.isRunning
  }

  /** `ScareBoxController.__init__`: components built from the config, the
      controller's callbacks registered, not running. */
  function Init(config: Config, hub: Manager.Hub): (c: Controller)
    ensures Valid(c) && !c.isRunning && c.pendingTriggers == 0
    ensures c.machine.state == SM.NonTrick && c.machine.mode == SM.Child
    ensures c.machine.callbacks == [ControllerCallback] && c.logger.callbacks == [ControllerCallback]
    ensures c.logger.events == [] && c.logger.maxEvents == EventLogger.DefaultMaxEvents
  {
    var mic := Microphone(config.audio.triggerFrequencyMin, config.audio.triggerFrequencyMax,
                          config.audio.triggerAmplitudeThreshold, config.audio.sampleRate);
    var timing := SM.Timing(config.timing.countdownDuration, config.timing.activeDuration,
                            config.timing.resetDuration);
    Controller(
      config,
      mic,
      SM.RegisterCallback(SM.Init(timing), ControllerCallback),
      EventLogger.RegisterCallback(EventLogger.NewLogger(EventLogger.DefaultMaxEvents), ControllerCallback),
      Streams.NewStreamManager(hub),
      false,
      config.timing.screamDelay,
      0)
  }

  // ---------------------------------------------------------------------
  // Logging through the shared event log

  /** Logging as the source does it: `EventLogger.log` calls the
      controller's `_on_event` like a plain function, and since `_on_event`
      is a coroutine function the call only creates a coroutine that is
      never awaited, so the event is never streamed. */
  function LogAsWritten(c: Controller, level: EventLogger.EventLevel, category: EventLogger.EventCategory,
                        message: string, details: Option<map<string, Json.Value>>): (r: Controller)
    requires Valid(c)
    ensures Valid(r) && r == c.(logger := r.logger)
    ensures r.logger == EventLogger.Log(c.logger, level, category, message, details, {}).logger
  {
    c.(logger := EventLogger.Log(c.logger, level, category, message, details, {}).logger)
  }

  /** Logging as intended: the new event is appended and then handed to
      `stream_event`, which pushes it to clients while streaming. */
  function LogEvent(c: Controller, level: EventLogger.EventLevel, category: EventLogger.EventCategory,
                    message: string, details: Option<map<string, Json.Value>>,
                    failed: set<Manager.ConnId>): (r: Outcome)
    requires Valid(c)
    ensures Valid(r.ctl) && r.effects == []
    ensures r.ctl.logger == LogAsWritten(c, level, category, message, details).logger
    ensures r.ctl == c.(logger := r.ctl.logger, streams := r.ctl.streams)
    ensures r.ctl.streams.isStreaming == c.streams.isStreaming
    ensures !c.isRunning ==> r.sent == [] && r.ctl.streams == c.streams
  {
    var logged := LogAsWritten(c, level, category, message, details);
    var out := Streams.StreamEvent(c.streams, EventLogger.Event(level, category, message, details), failed);
    Outcome(logged.(streams := out.streams), [], out.sent)
  }

  /** While the box runs, the intended logging sends the event's dictionary
      to every connected client. */
  lemma LogEventStreams(c: Controller, level: EventLogger.EventLevel, category: EventLogger.EventCategory,
                        message: string, details: Option<map<string, Json.Value>>,
                        failed: set<Manager.ConnId>)
    requires Valid(c) && c.isRunning
    ensures LogEvent(c, level, category, message, details, failed).sent
            == Manager.SendAll(c.streams.hub.connections,
                 Manager.Message(Manager.EventTag,
                   EventLogger.ToDict(EventLogger.Event(level, category, message, details))))
  {
  }

  /** One call to the event log. */
  datatype Entry = Entry(level: EventLogger.EventLevel, category: EventLogger.EventCategory,
                         message: string, details: Option<map<string, Json.Value>>)

  function EntryEvent(x: Entry): EventLogger.Event {
    EventLogger.Event(x.level, x.category, x.message, x.details)
  }

  /** The events a run of log calls creates, in call order. */
  function EntryEvents(xs: seq<Entry>): (es: seq<EventLogger.Event>)
    ensures |es| == |xs|
    ensures forall i :: 0 <= i < |xs| ==> es[i] == EntryEvent(xs[i])
    decreases |xs|
  {
    if xs == [] then [] else EntryEvents(xs[..|xs| - 1]) + [EntryEvent(xs[|xs| - 1])]
  }

  lemma EntryEventsSnoc(prior: seq<EventLogger.Event>, xs: seq<Entry>)
    requires xs != []
    ensures prior + EntryEvents(xs) == (prior + EntryEvents(xs[..|xs| - 1])) + [EntryEvent(xs[|xs| - 1])]
  {
  }

  /** Several log calls in a row. */
  function LogEntries(c: Controller, xs: seq<Entry>, failed: set<Manager.ConnId>): (r: Outcome)
    requires Valid(c)
    ensures Valid(r.ctl) && r.effects == []
    ensures r.ctl == c.(logger := r.ctl.logger, streams := r.ctl.streams)
    ensures r.ctl.streams.isStreaming == c.streams.isStreaming
    ensures r.ctl.logger.maxEvents == c.logger.maxEvents && r.ctl.logger.callbacks == c.logger.callbacks
    ensures !c.isRunning ==> r.sent == []
    decreases |xs|
  {
    if xs == [] then Outcome(c, [], [])
    else
      var before := LogEntries(c, xs[..|xs| - 1], failed);
      var x := xs[|xs| - 1];
      var logged := LogEvent(before.ctl, x.level, x.category, x.message, x.details, failed);
      Outcome(logged.ctl, [], before.sent + logged.sent)
  }

  /** After several log calls the log holds the most recent `maxEvents` of
      its old events followed by the new ones, in call order. */
  lemma {:induction false} LogEntriesKeepsLast(c: Controller, xs: seq<Entry>, failed: set<Manager.ConnId>)
    requires Valid(c)
    ensures LogEntries(c, xs, failed).ctl.logger.events
            == Seqs.Suffix(c.logger.events + EntryEvents(xs), c.logger.maxEvents)
    decreases |xs|
  {
    if xs == [] {
      assert c.logger.events + EntryEvents(xs) == c.logger.events;
    } else {
      var init := xs[..|xs| - 1];
      var x := xs[|xs| - 1];
      var before := LogEntries(c, init, failed);
      LogEntriesKeepsLast(c, init, failed);
      EventLogger.LogAppends(before.ctl.logger, x.level, x.category, x.message, x.details, {});
      EntryEventsSnoc(c.logger.events, xs);
      Seqs.SuffixAppend(c.logger.events + EntryEvents(init), EntryEvent(x), c.logger.maxEvents);
    }
  }

  /** With a client connected while the box runs, the source's logging
      pushes nothing to it, whereas the intended logging pushes the event. */
  lemma LoggedEventsNeverReachClients(c: Controller, message: string, failed: set<Manager.ConnId>)
    requires Valid(c) && c.isRunning && |c.streams.hub.connections| > 0
    ensures LogAsWritten(c, EventLogger.Info, EventLogger.System, message, None).streams == c.streams
    ensures |LogEvent(c, EventLogger.Info, EventLogger.System, message, None, failed).sent| > 0
    ensures LogEvent(c, EventLogger.Info, EventLogger.System, message, None, failed).sent[0].message.kind
            == Manager.EventTag
  {
    LogEventStreams(c, EventLogger.Info, EventLogger.System, message, None, failed);
  }

  // ---------------------------------------------------------------------
  // Hardware bring-up

  /** The devices `initialize` brings up, in order. */
  datatype Device = MicrophoneDevice | LightsDevice | SpeakerDevice

  const Devices: seq<Device> := [MicrophoneDevice, LightsDevice, SpeakerDevice]

  function DeviceIndex(d: Device): (i: nat)
    ensures i < |Devices| && Devices[i] == d
  {
    match d
    case MicrophoneDevice => 0
    case LightsDevice => 1
    case SpeakerDevice => 2
  }

  /** The HARDWARE message logged once a device is up. */
  function ReadyMessage(d: Device): string {
    match d
    case MicrophoneDevice => "Microphone initialized"
    case LightsDevice => "Lights initialized"
    case SpeakerDevice => "Speaker initialized"
  }

  /** The driver calls that bring a device up (discovery, connection and
      initialisation), as one effect. */
  function BringUp(d: Device): Effect {
    match d
    case MicrophoneDevice => InitMicrophone
    case LightsDevice => InitLights
    case SpeakerDevice => InitSpeaker
  }

  /** The device whose bring-up raised, and the exception's text. */
  datatype Failure = Failure(device: Device, reason: string)

  /** How many devices come up before the failing one (all of them when
      nothing fails). */
  function ReadyCount(failing: Option<Failure>): (k: nat)
    ensures k <= |Devices|
  {
    if failing.Some? then DeviceIndex(failing.value.device) else |Devices|
  }

  function ReadyEntries(ds: seq<Device>): (xs: seq<Entry>)
    ensures |xs| == |ds|
    ensures forall i :: 0 <= i < |ds| ==>
              xs[i] == Entry(EventLogger.Info, EventLogger.Hardware, ReadyMessage(ds[i]), None)
  {
    if ds == [] then []
    else [Entry(EventLogger.Info, EventLogger.Hardware, ReadyMessage(ds[0]), None)] + ReadyEntries(ds[1..])
  }

  function BringUps(ds: seq<Device>): (es: seq<Effect>)
    ensures |es| == |ds|
    ensures forall i :: 0 <= i < |ds| ==> es[i] == BringUp(ds[i])
  {
    if ds == [] then [] else [BringUp(ds[0])] + BringUps(ds[1..])
  }

  /** The log calls `initialize` makes: a start message, one message per
      device that came up, then either completion or the failure. */
  function InitEntries(failing: Option<Failure>): seq<Entry> {
    [Entry(EventLogger.Info, EventLogger.System, "Initializing Scare Box...", None)]
    + ReadyEntries(Devices[..ReadyCount(failing)])
    + [if failing.None? then Entry(EventLogger.Info, EventLogger.System, "Initialization complete", None)
       else Entry(EventLogger.Error, EventLogger.System, "Initialization failed: " + failing.value.reason, None)]
  }

  /** The controller after `initialize`, and whether it raised. */
  datatype Initialized = Initialized(outcome: Outcome, raised: bool)

  /** `initialize`: brings the devices up in order; the first one that
      raises stops the sequence, is logged as an error, and the exception
      propagates. */
  function Initialize(c: Controller, failing: Option<Failure>, failed: set<Manager.ConnId>): (r: Initialized)
    requires Valid(c)
    ensures r.raised <==> failing.Some?
    ensures Valid(r.outcome.ctl)
    ensures r.outcome.ctl == c.(logger := r.outcome.ctl.logger, streams := r.outcome.ctl.streams)
    ensures r.outcome.ctl.logger.events
            == Seqs.Suffix(c.logger.events + EntryEvents(InitEntries(failing)), c.logger.maxEvents)
    ensures failing.None? ==> r.outcome.effects == BringUps(Devices)
    ensures failing.Some? ==> r.outcome.effects == BringUps(Devices[..ReadyCount(failing) + 1])
  {
    var logged := LogEntries(c, InitEntries(failing), failed);
    LogEntriesKeepsLast(c, InitEntries(failing), failed);
    var attempted := if failing.None? then Devices else Devices[..ReadyCount(failing) + 1];
    Initialized(Outcome(logged.ctl, BringUps(attempted), logged.sent), failing.Some?)
  }

  /** `initialize` reports an error exactly when a device fails: on success
      it logs five info entries; when device `d` fails it logs the devices
      before `d` as ready and ends with one error entry. */
  lemma InitializeReports(failing: Option<Failure>)
    ensures failing.None? ==>
              |InitEntries(failing)| == 5
              && forall i :: 0 <= i < 5 ==> InitEntries(failing)[i].level == EventLogger.Info
    ensures failing.Some? ==>
              && |InitEntries(failing)| == DeviceIndex(failing.value.device) + 2
              && InitEntries(failing)[|InitEntries(failing)| - 1].level == EventLogger.Error
              && forall i :: 0 <= i < |InitEntries(failing)| - 1 ==> InitEntries(failing)[i].level == EventLogger.Info
  {
    var xs := InitEntries(failing);
    var ready := ReadyEntries(Devices[..ReadyCount(failing)]);
    assert forall i :: 1 <= i < |xs| - 1 ==> xs[i] == ready[i - 1];
  }

  // ---------------------------------------------------------------------
  // Mode and intensity

  /** Upper-case labels used in log messages (`mode.value.upper()`). */
  function ModeLabel(m: SM.Mode): string {
    match m
    case Child => "CHILD"
    case Adult => "ADULT"
  }

  /** ASCII lower-casing of one character. */
  function LowerChar(ch: char): char {
    if 'A' <= ch <= 'Z' then (ch as int + 32) as char else ch
  }

  /** `str.lower()` on ASCII text. */
  function Lower(s: string): (r: string)
    ensures |r| == |s|
    ensures forall i :: 0 <= i < |s| ==> r[i] == LowerChar(s[i])
  {
    seq(|s|, i requires 0 <= i < |s| => LowerChar(s[i]))
  }

  /** The mode `set_mode` picks for a string. */
  function ParseMode(s: string): (m: SM.Mode)
    ensures m == SM.Child <==> Lower(s) == "child"
  {
    if Lower(s) == "child" then SM.Child else SM.Adult
  }

  /** Parsing a mode's own value, in any letter case, gives the mode back;
      anything that is not "child" means ADULT. */
  lemma ParseModeExamples()
    ensures ParseMode(SM.Mode.Child.Value()) == SM.Child && ParseMode(SM.Mode.Adult.Value()) == SM.Adult
    ensures ParseMode("CHILD") == SM.Child && ParseMode("Child") == SM.Child
    ensures ParseMode("") == SM.Adult && ParseMode("kid") == SM.Adult
  {
    assert Lower("CHILD") == "child";
    assert Lower("Child") == "child";
    assert Lower("child") == "child";
    assert Lower("adult")[0] == 'a';
    assert Lower("kid")[0] == 'k';
  }

  /** `_get_intensity_multipliers`: the child profile in CHILD mode, the
      adult profile otherwise. */
  function IntensityMultipliers(c: Controller): (p: IntensityLevel)
    ensures c.machine.mode == SM.Child ==> p == c.config.intensity.child
    ensures c.machine.mode == SM.Adult ==> p == c.config.intensity.adult
  {
    if c.machine.mode == SM.Child then c.config.intensity.child else c.config.intensity.adult
  }

  /** `set_mode`: switches the state machine's mode, logs it, and sets the
      speaker volume from the new profile. The config record's `mode` is
      not touched. */
  function SetMode(c: Controller, s: string, failed: set<Manager.ConnId>): (r: Outcome)
    requires Valid(c)
    ensures Valid(r.ctl)
    ensures r.ctl.machine == SM.SetMode(c.machine, ParseMode(s))
    ensures r.ctl.logger == EventLogger.Log(c.logger, EventLogger.Info, EventLogger.Config,
              "Mode changed to " + ModeLabel(ParseMode(s)), None, {}).logger
    ensures r.ctl.config == c.config && r.ctl.isRunning == c.isRunning
    ensures r.ctl.microphone == c.microphone && r.ctl.screamDelay == c.screamDelay
    ensures r.ctl.pendingTriggers == c.pendingTriggers
    ensures !c.isRunning ==> r.sent == [] && r.ctl.streams == c.streams
    ensures r.effects == [SetVolume(IntensityMultipliers(r.ctl).volume)]
  {
    var mode := ParseMode(s);
    var c1 := c.(machine := SM.SetMode(c.machine, mode));
    var logged := LogEvent(c1, EventLogger.Info, EventLogger.Config, "Mode changed to " + ModeLabel(mode), None, failed);
    Outcome(logged.ctl, [SetVolume(IntensityMultipliers(logged.ctl).volume)], logged.sent)
  }

  /** After `set_mode(s)` the multipliers are the child profile exactly
      when `s` lower-cases to "child". */
  lemma SetModeSelectsProfile(c: Controller, s: string, failed: set<Manager.ConnId>)
    requires Valid(c)
    ensures Lower(s) == "child" ==> IntensityMultipliers(SetMode(c, s, failed).ctl) == c.config.intensity.child
    ensures Lower(s) != "child" ==> IntensityMultipliers(SetMode(c, s, failed).ctl) == c.config.intensity.adult
  {
  }

  // ---------------------------------------------------------------------
  // Lifecycle

  /** `start`: a no-op when already running; otherwise marks the box
      running, turns streaming on, starts the ambient effects and the
      microphone, and logs twice (the first message before streaming is
      on). */
  function Start(c: Controller, failed: set<Manager.ConnId>): (r: Outcome)
    requires Valid(c)
    ensures Valid(r.ctl) && r.ctl.isRunning
    ensures c.isRunning ==> r == Outcome(c, [], [])
    ensures !c.isRunning ==>
              && r.ctl.machine == c.machine && r.ctl.config == c.config
              && r.effects == [StartAmbientPattern, PlayAmbientMusic(IntensityMultipliers(c).volume),
                               StartListening, StartLightStream]
  {
    if c.isRunning then Outcome(c, [], [])
    else
      var mode := c.machine.mode;
      var first := LogEvent(c, EventLogger.Info, EventLogger.System,
                            "Starting Scare Box in " + ModeLabel(mode) + " mode", None, failed);
      var streaming := first.ctl.(isRunning := true, streams := Streams.StartStreaming(first.ctl.streams));
      var effects := [StartAmbientPattern, PlayAmbientMusic(IntensityMultipliers(c).volume),
                      StartListening, StartLightStream];
      var last := LogEvent(streaming, EventLogger.Info, EventLogger.System, "Scare Box started", None, failed);
      Outcome(last.ctl, effects, first.sent + last.sent)
  }

  /** `stop`: a no-op when already stopped; otherwise marks the box
      stopped, turns streaming off and shuts the drivers down. The state
      machine is not stopped. */
  function Stop(c: Controller, failed: set<Manager.ConnId>): (r: Outcome)
    requires Valid(c)
    ensures Valid(r.ctl) && !r.ctl.isRunning
    ensures !c.isRunning ==> r == Outcome(c, [], [])
    ensures c.isRunning ==>
              && r.ctl.machine == c.machine && r.ctl.config == c.config
              && r.effects == [StopListening, CancelAmbient, CancelLightStream, ShutdownLights, ShutdownSpeaker]
  {
    if !c.isRunning then Outcome(c, [], [])
    else
      var first := LogEvent(c, EventLogger.Info, EventLogger.System, "Stopping Scare Box...", None, failed);
      var stopped := first.ctl.(isRunning := false, streams := Streams.StopStreaming(first.ctl.streams));
      var last := LogEvent(stopped, EventLogger.Info, EventLogger.System, "Scare Box stopped", None, failed);
      Outcome(last.ctl, [StopListening, CancelAmbient, CancelLightStream, ShutdownLights, ShutdownSpeaker],
              first.sent + last.sent)
  }

  /** Starting twice is starting once, and likewise for stopping. */
  lemma StartStopIdempotent(c: Controller, failed: set<Manager.ConnId>)
    requires Valid(c)
    ensures Start(Start(c, failed).ctl, failed) == Outcome(Start(c, failed).ctl, [], [])
    ensures Stop(Stop(c, failed).ctl, failed) == Outcome(Stop(c, failed).ctl, [], [])
  {
  }

  // ---------------------------------------------------------------------
  // Triggers

  /** `_on_audio_trigger`: dropped silently (no log, no task) unless the
      state machine can trigger; otherwise logged and a `trigger_sequence`
      task is created, counted in `pendingTriggers`. */
  function OnAudioTrigger(c: Controller, failed: set<Manager.ConnId>): (r: Outcome)
    requires Valid(c)
    ensures Valid(r.ctl) && r.effects == []
    ensures !SM.CanTrigger(c.machine) ==> r == Outcome(c, [], [])
    ensures SM.CanTrigger(c.machine) ==>
              && r.ctl.pendingTriggers == c.pendingTriggers + 1
              && r.ctl.machine == c.machine
              && r.ctl.logger == EventLogger.Log(c.logger, EventLogger.Info, EventLogger.Trigger,
                   "Audio trigger detected", Some(map["type" := Json.Str("audio")]), {}).logger
  {
    if !SM.CanTrigger(c.machine) then Outcome(c, [], [])
    else
      var logged := LogEvent(c, EventLogger.Info, EventLogger.Trigger, "Audio trigger detected",
                             Some(map["type" := Json.Str("audio")]), failed);
      Outcome(logged.ctl.(pendingTriggers := c.pendingTriggers + 1), [], logged.sent)
  }

  /** `trigger_sequence`: logs the request, then asks the state machine. */
  function TriggerSequence(c: Controller, failed: set<Manager.ConnId>): (r: Outcome)
    requires Valid(c)
    ensures Valid(r.ctl) && r.effects == []
    ensures r.ctl.machine == SM.TriggerSequence(c.machine)
    ensures r.ctl.logger == EventLogger.Log(c.logger, EventLogger.Info, EventLogger.Trigger,
              "Scare sequence triggered", Some(map["type" := Json.Str("manual")]), {}).logger
    ensures r.ctl.pendingTriggers == c.pendingTriggers && r.ctl.config == c.config
    ensures r.ctl.microphone == c.microphone && r.ctl.screamDelay == c.screamDelay
    ensures r.ctl.isRunning == c.isRunning
    ensures !c.isRunning ==> r.sent == [] && r.ctl.streams == c.streams
  {
    var logged := LogEvent(c, EventLogger.Info, EventLogger.Trigger, "Scare sequence triggered",
                           Some(map["type" := Json.Str("manual")]), failed);
    Outcome(logged.ctl.(machine := SM.TriggerSequence(c.machine)), [], logged.sent)
  }

  /** Running one task created by `_on_audio_trigger`. */
  function RunPendingTrigger(c: Controller, failed: set<Manager.ConnId>): (r: Outcome)
    requires Valid(c) && c.pendingTriggers > 0
    ensures Valid(r.ctl) && r.ctl.pendingTriggers == c.pendingTriggers - 1
    ensures r.ctl.machine == SM.TriggerSequence(c.machine)
  {
    TriggerSequence(c.(pendingTriggers := c.pendingTriggers - 1), failed)
  }

  /** Two audio triggers arriving before either task runs are both
      accepted, yet running both tasks schedules one sequence: the second
      `trigger_sequence` finds the first one's task pending. */
  lemma DoubleAudioTriggerSchedulesOnce(c: Controller, failed: set<Manager.ConnId>)
    requires Valid(c) && c.pendingTriggers == 0 && c.machine.task == SM.NoTask
    ensures var t1 := OnAudioTrigger(c, failed).ctl;
            var t2 := OnAudioTrigger(t1, failed).ctl;
            && t2.pendingTriggers == 2
            && var r1 := RunPendingTrigger(t2, failed).ctl;
               var r2 := RunPendingTrigger(r1, failed).ctl;
               r1.machine.task == SM.Scheduled && r2.machine == r1.machine && r2.pendingTriggers == 0
  {
    var t1 := OnAudioTrigger(c, failed).ctl;
    assert t1.machine == c.machine && t1.pendingTriggers == 1;
    var t2 := OnAudioTrigger(t1, failed).ctl;
    assert t2.machine == c.machine && t2.pendingTriggers == 2;
    var r1 := RunPendingTrigger(t2, failed).ctl;
    assert r1.machine == SM.TriggerSequence(c.machine) && r1.pendingTriggers == 1;
    var r2 := RunPendingTrigger(r1, failed).ctl;
    assert r2.machine == SM.TriggerSequence(r1.machine);
  }

  // ---------------------------------------------------------------------
  // Configuration

  /** The keys `update_config` acts on, and every other key. */
  datatype ConfigKey =
    | CountdownDuration | ActiveDuration | ResetDuration | ScreamDelay
    | TriggerFrequencyMin | TriggerFrequencyMax | TriggerAmplitudeThreshold
    | Unrecognised

  /** The request-body name of a recognised key. */
  function KeyName(k: ConfigKey): string {
    match k
    case CountdownDuration => "countdown_duration"
    case ActiveDuration => "active_duration"
    case ResetDuration => "reset_duration"
    case ScreamDelay => "scream_delay"
    case TriggerFrequencyMin => "trigger_frequency_min"
    case TriggerFrequencyMax => "trigger_frequency_max"
    case TriggerAmplitudeThreshold => "trigger_amplitude_threshold"
    case Unrecognised => ""
  }

  /** Which key a request-body name denotes. */
  function KeyOf(name: string): (k: ConfigKey)
    ensures k != Unrecognised ==> KeyName(k) == name
  {
    if name == "countdown_duration" then CountdownDuration
    else if name == "active_duration" then ActiveDuration
    else if name == "reset_duration" then ResetDuration
    else if name == "scream_delay" then ScreamDelay
    else if name == "trigger_frequency_min" then TriggerFrequencyMin
    else if name == "trigger_frequency_max" then TriggerFrequencyMax
    else if name == "trigger_amplitude_threshold" then TriggerAmplitudeThreshold
    else Unrecognised
  }

  /** Every recognised key is found again from its name, and `mode` is not
      one of them. */
  lemma KeyNamesRoundTrip(k: ConfigKey)
    requires k != Unrecognised
    ensures KeyOf(KeyName(k)) == k
    ensures KeyOf("mode") == Unrecognised
  {
  }

  /** The values of recognised keys are numbers, as the API's request model
      declares them. */
  predicate WellTyped(patch: seq<(string, Json.Value)>) {
    forall i :: 0 <= i < |patch| ==> KeyOf(patch[i].0) != Unrecognised ==> patch[i].1.Num?
  }

  /** Setting one recognised key: timing keys update the state machine (or
      the scream delay) and `config.timing`, trigger keys update the
      microphone and `config.audio`. */
  function SetKey(c: Controller, k: ConfigKey, x: real): (r: Controller)
    ensures k == Unrecognised ==> r == c
    ensures TimingSynced(c) ==> TimingSynced(r)
    ensures AudioSynced(c) ==> AudioSynced(r)
    ensures c.screamDelay == c.config.timing.screamDelay ==> r.screamDelay == r.config.timing.screamDelay
    ensures r.logger == c.logger && r.streams == c.streams && r.isRunning == c.isRunning
    ensures r.pendingTriggers == c.pendingTriggers
    ensures r.machine == c.machine.(timing := r.machine.timing)
    ensures r.config.intensity == c.config.intensity && r.config.mode == c.config.mode
  {
    match k
    case CountdownDuration =>
      c.(machine := SM.UpdateTiming(c.machine, Some(x), None, None),
         config := c.config.(timing := c.config.timing.(countdownDuration := x)))
    case ActiveDuration =>
      c.(machine := SM.UpdateTiming(c.machine, None, Some(x), None),
         config := c.config.(timing := c.config.timing.(activeDuration := x)))
    case ResetDuration =>
      c.(machine := SM.UpdateTiming(c.machine, None, None, Some(x)),
         config := c.config.(timing := c.config.timing.(resetDuration := x)))
    case ScreamDelay =>
      c.(screamDelay := x, config := c.config.(timing := c.config.timing.(screamDelay := x)))
    case TriggerFrequencyMin =>
      c.(microphone := c.microphone.(triggerFreqMin := x),
         config := c.config.(audio := c.config.audio.(triggerFrequencyMin := x)))
    case TriggerFrequencyMax =>
      c.(microphone := c.microphone.(triggerFreqMax := x),
         config := c.config.(audio := c.config.audio.(triggerFrequencyMax := x)))
    case TriggerAmplitudeThreshold =>
      c.(microphone := c.microphone.(triggerThreshold := x),
         config := c.config.(audio := c.config.audio.(triggerAmplitudeThreshold := x)))
    case Unrecognised => c
  }

  /** The number carried by a patch value (recognised keys always carry one). */
  function NumberOf(value: Json.Value): real {
    if value.Num? then value.n else 0.0
  }

  /** The log message for one key. The source appends ` = ` and Python's
      `str()` of the value, which is not modelled. */
  function ConfigMessage(key: string): string {
    "Config updated: " + key
  }

  /** The loop of `update_config` over the patch entries so far, in order:
      each entry is logged, then applied. */
  function ApplyPatch(c: Controller, patch: seq<(string, Json.Value)>, failed: set<Manager.ConnId>): (r: Outcome)
    requires Valid(c) && WellTyped(patch)
    ensures Valid(r.ctl) && r.effects == []
    ensures r.ctl.isRunning == c.isRunning && r.ctl.pendingTriggers == c.pendingTriggers
    ensures r.ctl.machine == c.machine.(timing := r.ctl.machine.timing)
    ensures r.ctl.logger.maxEvents == c.logger.maxEvents && r.ctl.logger.callbacks == c.logger.callbacks
    decreases |patch|
  {
    if patch == [] then Outcome(c, [], [])
    else
      var before := ApplyPatch(c, patch[..|patch| - 1], failed);
      var step := PatchStep(before.ctl, patch[|patch| - 1], failed);
      Outcome(step.ctl, [], before.sent + step.sent)
  }

  /** One pass of the `update_config` loop: log the key, then apply it. */
  function PatchStep(c: Controller, entry: (string, Json.Value), failed: set<Manager.ConnId>): (r: Outcome)
    requires Valid(c)
    ensures Valid(r.ctl) && r.effects == []
    ensures r.ctl.isRunning == c.isRunning && r.ctl.pendingTriggers == c.pendingTriggers
    ensures r.ctl.machine == c.machine.(timing := r.ctl.machine.timing)
    ensures r.ctl.logger == EventLogger.Log(c.logger, EventLogger.Info, EventLogger.Config,
                                            ConfigMessage(entry.0), None, {}).logger
    ensures GetConfig(r.ctl) == PatchView(GetConfig(c), KeyOf(entry.0), NumberOf(entry.1))
    ensures KeyOf(entry.0) == Unrecognised ==> r.ctl.config == c.config
  {
    var logged := LogEvent(c, EventLogger.Info, EventLogger.Config, ConfigMessage(entry.0), None, failed);
    SetKeyReadBack(logged.ctl, KeyOf(entry.0), NumberOf(entry.1));
    Outcome(SetKey(logged.ctl, KeyOf(entry.0), NumberOf(entry.1)), [], logged.sent)
  }

  /** `update_config`: applies the patch, then writes the whole config. */
  function UpdateConfig(c: Controller, patch: seq<(string, Json.Value)>, failed: set<Manager.ConnId>): (r: Outcome)
    requires Valid(c) && WellTyped(patch)
    ensures Valid(r.ctl)
    ensures r.ctl == ApplyPatch(c, patch, failed).ctl
    ensures r.effects == [SaveConfig(r.ctl.config)]
  {
    var applied := ApplyPatch(c, patch, failed);
    Outcome(applied.ctl, [SaveConfig(applied.ctl.config)], applied.sent)
  }

  // ---------------------------------------------------------------------
  // Read-back

  datatype AudioView = AudioView(
    triggerFrequencyMin: real,
    triggerFrequencyMax: real,
    triggerAmplitudeThreshold: real,
    sampleRate: int)

  datatype TimingView = TimingView(
    countdownDuration: real,
    activeDuration: real,
    resetDuration: real,
    screamDelay: real)

  /** The dictionary `get_config` returns. */
  datatype ConfigView = ConfigView(mode: string, audio: AudioView, timing: TimingView)

  /** `get_config`: read from the live components, not from the config
      record. */
  function GetConfig(c: Controller): (v: ConfigView)
    ensures v.mode == c.machine.mode.Value()
    ensures v.audio.triggerFrequencyMin == c.microphone.triggerFreqMin
    ensures v.audio.triggerFrequencyMax == c.microphone.triggerFreqMax
    ensures v.audio.triggerAmplitudeThreshold == c.microphone.triggerThreshold
    ensures v.audio.sampleRate == c.microphone.sampleRate
    ensures v.timing.countdownDuration == c.machine.timing.countdown
    ensures v.timing.activeDuration == c.machine.timing.active
    ensures v.timing.resetDuration == c.machine.timing.reset
    ensures v.timing.screamDelay == c.screamDelay
  {
    ConfigView(
      c.machine.mode.Value(),
      AudioView(c.microphone.triggerFreqMin, c.microphone.triggerFreqMax,
                c.microphone.triggerThreshold, c.microphone.sampleRate),
      TimingView(c.machine.timing.countdown, c.machine.timing.active,
                 c.machine.timing.reset, c.screamDelay))
  }
  /** While the controller invariant holds, the live components that
      `get_config` reads agree with the stored config record, so the report
      shows the stored audio and timing settings (`chunk_size` is not
      reported). */
  lemma GetConfigIsStored(c: Controller)
    requires Valid(c)
    ensures var a := c.config.audio; var t := c.config.timing;
      && GetConfig(c).audio == AudioView(a.triggerFrequencyMin, a.triggerFrequencyMax,
                                         a.triggerAmplitudeThreshold, a.sampleRate)
      && GetConfig(c).timing == TimingView(t.countdownDuration, t.activeDuration,
                                           t.resetDuration, t.screamDelay)
  {
  }


  /** Merge-patch of one key into the reported configuration: the field of
      that name in its section takes the value; unknown keys are ignored. */
  function PatchView(v: ConfigView, k: ConfigKey, x: real): ConfigView {
    match k
    case CountdownDuration => v.(timing := v.timing.(countdownDuration := x))
    case ActiveDuration => v.(timing := v.timing.(activeDuration := x))
    case ResetDuration => v.(timing := v.timing.(resetDuration := x))
    case ScreamDelay => v.(timing := v.timing.(screamDelay := x))
    case TriggerFrequencyMin => v.(audio := v.audio.(triggerFrequencyMin := x))
    case TriggerFrequencyMax => v.(audio := v.audio.(triggerFrequencyMax := x))
    case TriggerAmplitudeThreshold => v.(audio := v.audio.(triggerAmplitudeThreshold := x))
    case Unrecognised => v
  }

  /** Merge-patch of a whole patch, entry by entry. */
  function PatchViewAll(v: ConfigView, patch: seq<(string, Json.Value)>): ConfigView
    decreases |patch|
  {
    if patch == [] then v
    else
      var entry := patch[|patch| - 1];
      PatchView(PatchViewAll(v, patch[..|patch| - 1]), KeyOf(entry.0), NumberOf(entry.1))
  }

  /** Setting one key shows up in `get_config` as the merge-patch. */
  lemma SetKeyReadBack(c: Controller, k: ConfigKey, x: real)
    ensures GetConfig(SetKey(c, k, x)) == PatchView(GetConfig(c), k, x)
  {
  }

  /** `update_config` followed by `get_config` reports the old
      configuration merge-patched with the update: recognised keys show
      their new values, everything else is as before. */
  lemma {:induction false} UpdateConfigReadBack(c: Controller, patch: seq<(string, Json.Value)>,
                                                failed: set<Manager.ConnId>)
    requires Valid(c) && WellTyped(patch)
    ensures GetConfig(UpdateConfig(c, patch, failed).ctl) == PatchViewAll(GetConfig(c), patch)
    decreases |patch|
  {
    if patch != [] {
      var prefix := patch[..|patch| - 1];
      assert WellTyped(prefix) by {
        forall i | 0 <= i < |prefix| ensures prefix[i] == patch[i] { }
      }
      UpdateConfigReadBack(c, prefix, failed);
    }
  }

  /** Updating a single recognised key: `get_config` shows the new value
      in that field and every other field unchanged. */
  lemma SingleKeyReadBack(c: Controller, k: ConfigKey, x: real, failed: set<Manager.ConnId>)
    requires Valid(c) && k != Unrecognised
    ensures WellTyped([(KeyName(k), Json.Num(x))])
    ensures GetConfig(UpdateConfig(c, [(KeyName(k), Json.Num(x))], failed).ctl) == PatchView(GetConfig(c), k, x)
  {
    var patch := [(KeyName(k), Json.Num(x))];
    KeyNamesRoundTrip(k);
    assert WellTyped(patch);
    UpdateConfigReadBack(c, patch, failed);
    assert patch[..0] == [];
    assert PatchViewAll(GetConfig(c), patch) == PatchView(GetConfig(c), k, x);
  }

  /** The example of setting the amplitude threshold alone. */
  lemma ThresholdUpdateReadBack(c: Controller, v: real, failed: set<Manager.ConnId>)
    requires Valid(c)
    ensures var patch := [("trigger_amplitude_threshold", Json.Num(v))];
            GetConfig(UpdateConfig(c, patch, failed).ctl)
            == GetConfig(c).(audio := GetConfig(c).audio.(triggerAmplitudeThreshold := v))
  {
    assert KeyName(TriggerAmplitudeThreshold) == "trigger_amplitude_threshold";
    SingleKeyReadBack(c, TriggerAmplitudeThreshold, v, failed);
  }

  /** The log entries `update_config` writes: one CONFIG info entry per key,
      recognised or not, in patch order. */
  function ConfigEvents(patch: seq<(string, Json.Value)>): (es: seq<EventLogger.Event>)
    ensures |es| == |patch|
    ensures forall i :: 0 <= i < |es| ==>
              es[i] == EventLogger.Event(EventLogger.Info, EventLogger.Config, ConfigMessage(patch[i].0), None)
    decreases |patch|
  {
    if patch == [] then []
    else
      ConfigEvents(patch[..|patch| - 1])
      + [EventLogger.Event(EventLogger.Info, EventLogger.Config, ConfigMessage(patch[|patch| - 1].0), None)]
  }

  /** `update_config` appends exactly one entry per key to the bounded log. */
  lemma {:induction false} UpdateConfigLogsEachKey(c: Controller, patch: seq<(string, Json.Value)>,
                                                   failed: set<Manager.ConnId>)
    requires Valid(c) && WellTyped(patch)
    ensures UpdateConfig(c, patch, failed).ctl.logger.events
            == Seqs.Suffix(c.logger.events + ConfigEvents(patch), c.logger.maxEvents)
    decreases |patch|
  {
    if patch != [] {
      var prefix := patch[..|patch| - 1];
      assert WellTyped(prefix) by {
        forall i | 0 <= i < |prefix| ensures prefix[i] == patch[i] { }
      }
      UpdateConfigLogsEachKey(c, prefix, failed);
      var entry := patch[|patch| - 1];
      var e := EventLogger.Event(EventLogger.Info, EventLogger.Config, ConfigMessage(entry.0), None);
      assert UpdateConfig(c, patch, failed).ctl.logger.events
             == Seqs.Suffix(UpdateConfig(c, prefix, failed).ctl.logger.events + [e], c.logger.maxEvents);
      ConfigEventsSnoc(c.logger.events, patch);
      Seqs.SuffixAppend(c.logger.events + ConfigEvents(prefix), e, c.logger.maxEvents);
    }
  }

  lemma ConfigEventsSnoc(prior: seq<EventLogger.Event>, patch: seq<(string, Json.Value)>)
    requires patch != []
    ensures prior + ConfigEvents(patch)
            == (prior + ConfigEvents(patch[..|patch| - 1]))
               + [EventLogger.Event(EventLogger.Info, EventLogger.Config, ConfigMessage(patch[|patch| - 1].0), None)]
  {
    assert ConfigEvents(patch)
           == ConfigEvents(patch[..|patch| - 1])
              + [EventLogger.Event(EventLogger.Info, EventLogger.Config, ConfigMessage(patch[|patch| - 1].0), None)];
  }

  /** A patch with no recognised key (such as `mode`) changes no reported
      field; it is only logged. */
  lemma UnknownKeysChangeNothing(c: Controller, patch: seq<(string, Json.Value)>, failed: set<Manager.ConnId>)
    requires Valid(c)
    requires forall i :: 0 <= i < |patch| ==> KeyOf(patch[i].0) == Unrecognised
    ensures GetConfig(UpdateConfig(c, patch, failed).ctl) == GetConfig(c)
    ensures UpdateConfig(c, patch, failed).ctl.config == c.config
  {
    assert WellTyped(patch);
    UpdateConfigReadBack(c, patch, failed);
    UnknownKeysKeepView(GetConfig(c), patch);
    UnknownKeysKeepConfig(c, patch, failed);
  }

  lemma {:induction false} UnknownKeysKeepView(v: ConfigView, patch: seq<(string, Json.Value)>)
    requires forall i :: 0 <= i < |patch| ==> KeyOf(patch[i].0) == Unrecognised
    ensures PatchViewAll(v, patch) == v
    decreases |patch|
  {
    if patch != [] {
      var prefix := patch[..|patch| - 1];
      assert forall i :: 0 <= i < |prefix| ==> prefix[i] == patch[i];
      UnknownKeysKeepView(v, prefix);
    }
  }

  lemma {:induction false} UnknownKeysKeepConfig(c: Controller, patch: seq<(string, Json.Value)>,
                                                 failed: set<Manager.ConnId>)
    requires Valid(c)
    requires forall i :: 0 <= i < |patch| ==> KeyOf(patch[i].0) == Unrecognised
    ensures WellTyped(patch) && ApplyPatch(c, patch, failed).ctl.config == c.config
    decreases |patch|
  {
    if patch != [] {
      var prefix := patch[..|patch| - 1];
      assert forall i :: 0 <= i < |prefix| ==> prefix[i] == patch[i];
      UnknownKeysKeepConfig(c, prefix, failed);
    }
  }

  // ---------------------------------------------------------------------
  // Reacting to state changes

  /** The progress `_execute_state_effects` derives from a tick; None when
      the configured countdown is 0 (the division raises). */
  function CountdownProgress(remaining: real, countdown: real): (p: Option<real>)
    ensures countdown == 0.0 <==> p.None?
    ensures p.Some? ==> p.value * countdown == countdown - remaining
  {
    if countdown == 0.0 then None else Some(1.0 - remaining / countdown)
  }

  /** For the ticks of a run with a nonzero countdown, progress is i/20:
      it starts at 0, grows by 1/20 per tick and stays below 1. */
  lemma TickProgress(d: real, i: nat)
    requires d != 0.0 && i < SM.Steps
    ensures CountdownProgress(SM.Remaining(d, i), d) == Some((i as real) / (SM.Steps as real))
    ensures 0.0 <= (i as real) / (SM.Steps as real) < 1.0
  {
    var p := (i as real) / (SM.Steps as real);
    var q := 1.0 - p;
    var remaining := SM.Remaining(d, i);
    assert (i as real) * (d / (SM.Steps as real)) == d * p;
    assert remaining == d * q;
    DivCancel(d, q);
    assert remaining / d == q;
  }

  lemma DivCancel(d: real, q: real)
    requires d != 0.0
    ensures (d * q) / d == q
  {
    var r := (d * q) / d;
    assert r * d == d * q;
    assert (r - q) * d == 0.0;
  }

  /** `_execute_state_effects`: what the drivers are asked to do for one
      event, scaled by the current mode's multipliers. */
  function StateEffects(c: Controller, e: SM.StateChangeEvent): (effects: seq<Effect>)
    ensures e.toState == SM.NonTrick ==> effects == []
    ensures e.toState == SM.TrickActive ==>
              effects == [PlayScareSequence(IntensityMultipliers(c).volume, c.screamDelay),
                          TriggerFlash(IntensityMultipliers(c).brightness)]
    ensures e.toState == SM.TrickReset ==>
              effects == [ResetLightsToAmbient(c.config.timing.resetDuration),
                          ResetAudio(c.config.timing.resetDuration)]
    ensures e.toState == SM.TrickCountdown && e.countdownRemaining.None? ==> effects == []
  {
    var intensity := IntensityMultipliers(c);
    if e.toState == SM.TrickCountdown then
      if e.countdownRemaining.None? then []
      else
        match CountdownProgress(e.countdownRemaining.value, c.config.timing.countdownDuration)
        case None => []
        case Some(p) => [GlitchEffect(p), ApplyDistortion(p)]
    else if e.toState == SM.TrickActive then
      [PlayScareSequence(intensity.volume, c.screamDelay), TriggerFlash(intensity.brightness)]
    else if e.toState == SM.TrickReset then
      [ResetLightsToAmbient(c.config.timing.resetDuration), ResetAudio(c.config.timing.resetDuration)]
    else []
  }

  /** During an uncancelled run each countdown tick drives the glitch and
      distortion effects at progress i/20. */
  lemma TickEffects(c: Controller, i: nat)
    requires Valid(c) && c.config.timing.countdownDuration != 0.0 && i < SM.Steps
    ensures var d := c.machine.timing.countdown;
            var p := (i as real) / (SM.Steps as real);
            StateEffects(c, SM.CountdownTicks(d)[i]) == [GlitchEffect(p), ApplyDistortion(p)]
  {
    TickProgress(c.config.timing.countdownDuration, i);
  }

  /** The message `_on_state_change` logs. */
  function StateChangeMessage(e: SM.StateChangeEvent): string {
    "State changed: " + e.fromState.Value() + " -> " + e.toState.Value()
  }

  /** `stream_state_change` on the controller's stream manager. */
  function PushStateChange(c: Controller, e: SM.StateChangeEvent, failed: set<Manager.ConnId>): (r: Outcome)
    requires Valid(c)
    ensures Valid(r.ctl) && r.effects == []
    ensures r.ctl == c.(streams := r.ctl.streams)
    ensures !c.isRunning ==> r == Outcome(c, [], [])
  {
    var out := Streams.StreamStateChange(c.streams, e, failed);
    Outcome(c.(streams := out.streams), [], out.sent)
  }

  /** `_on_state_change`: logs the change, streams it, then runs the
      state's effects. */
  function OnStateChange(c: Controller, e: SM.StateChangeEvent, failed: set<Manager.ConnId>): (r: Outcome)
    requires Valid(c)
    ensures Valid(r.ctl)
    ensures r.ctl.machine == c.machine && r.ctl.config == c.config
    ensures !c.isRunning ==> r.sent == []
  {
    var logged := LogEvent(c, EventLogger.Info, EventLogger.State, StateChangeMessage(e), None, failed);
    var pushed := PushStateChange(logged.ctl, e, failed);
    Outcome(pushed.ctl, StateEffects(c, e), logged.sent + pushed.sent)
  }

  /** The effects of `_on_state_change` are those of the state entered,
      computed with the intensity and timing current before the call. */
  lemma OnStateChangeEffects(c: Controller, e: SM.StateChangeEvent, failed: set<Manager.ConnId>)
    requires Valid(c)
    ensures OnStateChange(c, e, failed).effects == StateEffects(c, e)
    ensures e.toState == SM.NonTrick ==> OnStateChange(c, e, failed).effects == []
  {
  }

  /** `_on_audio_data`: forwards the frame to the audio stream. */
  function OnAudioData(c: Controller, a: Streams.AudioData, failed: set<Manager.ConnId>): (r: Outcome)
    requires Valid(c)
    ensures Valid(r.ctl) && r.effects == []
    ensures r.ctl == c.(streams := r.ctl.streams)
    ensures !c.isRunning ==> r == Outcome(c, [], [])
  {
    var out := Streams.StreamAudioData(c.streams, a, failed);
    Outcome(c.(streams := out.streams), [], out.sent)
  }
}
