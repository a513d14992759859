/** The scare sequence state machine (`backend/state_machine.py`).

    The asynchronous sequence task is modelled in small steps: `Resume` runs
    the task from one suspension point (an `await asyncio.sleep`) to the
    next and returns the `StateChangeEvent`s emitted on the way. `FullRun`
    and `CancelledRun` describe whole traces independently, and the lemmas
    at the end of the module connect the two views. */
module StateMachine {
  import opened Wrappers
  import Observers
  import Seqs

  /** System operational states. */
  datatype State = NonTrick | TrickCountdown | TrickActive | TrickReset {
    /** The enum's string value, as sent to clients. */
    function Value(): string {
      match this
      case NonTrick => "non_trick"
      case TrickCountdown => "trick_countdown"
      case TrickActive => "trick_active"
      case TrickReset => "trick_reset"
    }
  }

  /** Operating modes. */
  datatype Mode = Child | Adult {
    function Value(): string {
      match this
      case Child => "child"
      case Adult => "adult"
    }
  }

  /** A transition, or a countdown tick when `fromState == toState` and
      `countdownRemaining` is present. Timestamps are not modelled. */
  datatype StateChangeEvent = StateChangeEvent(fromState: State, toState: State, countdownRemaining: Option<real>)

  /** Phase durations in seconds. */
  datatype Timing = Timing(countdown: real, active: real, reset: real)

  /** The constructor's default durations. */
  const DefaultTiming: Timing := Timing(3.0, 4.0, 5.0)

  /** Number of countdown ticks. */
  const Steps: nat := 20

  /** Number of events an uncancelled run emits: one transition into the
      countdown, the ticks, and three more transitions. */
  const RunLength: nat := Steps + 4

  /** The `sequence_task`: none or finished; created but not yet started;
      or suspended after emitting `emitted` events, with the tick length
      `step` computed when the countdown began. */
  datatype Task = NoTask | Scheduled | Suspended(emitted: nat, step: real)

  datatype Machine = Machine(
    timing: Timing,
    state: State,
    mode: Mode,
    task: Task,
    callbacks: seq<Observers.CallbackId>)

  /** A machine together with the events one operation emitted. */
  datatype Step = Step(machine: Machine, events: seq<StateChangeEvent>)

  /** The state a run is in once it has emitted `k` events. */
  function StateAfter(k: nat): State {
    if k == 0 then NonTrick
    else if k <= Steps + 1 then TrickCountdown
    else if k == Steps + 2 then TrickActive
    else if k == Steps + 3 then TrickReset
    else NonTrick
  }

  /** The event counts at which a run can be suspended, hence cancelled:
      after the first tick's sleep, after each later tick, and during the
      active and reset holds. Events 0 and 1 are emitted with no await
      between them. */
  predicate SuspensionPoint(k: nat) {
    2 <= k < RunLength
  }

  /** The machine invariant: without a running sequence the machine rests
      in NON_TRICK, and a suspended run sits at a suspension point in the
      state its progress implies. */
  predicate Valid(m: Machine) {
    match m.task
    case NoTask => m.state == NonTrick
    case Scheduled => m.state == NonTrick
    case Suspended(k, _) => SuspensionPoint(k) && m.state == StateAfter(k)
  }

  /** `StateMachine.__init__`. */
  function Init(timing: Timing): (m: Machine)
    ensures Valid(m) && m.task == NoTask && m.callbacks == []
    ensures m.state == NonTrick && m.mode == Child && m.timing == timing
  {
    Machine(timing, NonTrick, Child, NoTask, [])
  }

  /** `can_trigger`: only the current state is consulted. */
  predicate CanTrigger(m: Machine) {
    m.state == NonTrick
  }

  /** `sequence_task and not sequence_task.done()`. */
  predicate Busy(m: Machine) {
    m.task != NoTask
  }

  /** `trigger_sequence`: creates the sequence task when the machine is in
      NON_TRICK and no earlier task is still pending. The state itself only
      changes once the task runs. */
  function TriggerSequence(m: Machine): (r: Machine)
    ensures r.state == m.state && r.timing == m.timing && r.mode == m.mode
    ensures r.callbacks == m.callbacks
    ensures r != m <==> CanTrigger(m) && !Busy(m)
    ensures r != m ==> r.task == Scheduled
    ensures Valid(m) ==> Valid(r)
  {
    if !CanTrigger(m) then m
    else if Busy(m) then m
    else m.(task := Scheduled)
  }

  /** `_transition_to`: records the old and new state in one event. */
  function Transition(m: Machine, s: State): (r: Step)
    ensures r.machine.state == s
    ensures r.machine == m.(state := s)
    ensures r.events == [StateChangeEvent(m.state, s, None)]
  {
    Step(m.(state := s), [StateChangeEvent(m.state, s, None)])
  }

  /** The countdown tick emitted at step `i` of `_countdown_phase`: the
      remaining time uses the duration current at that tick and the step
      length fixed when the countdown began. */
  function TickEvent(s: State, countdown: real, i: nat, step: real): StateChangeEvent {
    StateChangeEvent(s, s, Some(countdown - (i as real) * step))
  }

  /** Runs the sequence task up to its next suspension point (or to its
      end), emitting the events of `_run_sequence` and `_countdown_phase`
      that lie in between. */
  function Resume(m: Machine): (r: Step)
    requires Valid(m) && Busy(m)
    ensures Valid(r.machine)
    ensures r.machine.timing == m.timing && r.machine.mode == m.mode
    ensures r.machine.callbacks == m.callbacks
    ensures |r.events| == if m.task == Scheduled then 2 else 1
    ensures r.events[0].fromState == m.state
    ensures r.events[|r.events| - 1].toState == r.machine.state
  {
    match m.task
    case Scheduled =>
      var step := m.timing.countdown / (Steps as real);
      var entered := Transition(m, TrickCountdown);
      Step(entered.machine.(task := Suspended(2, step)),
           entered.events + [TickEvent(TrickCountdown, m.timing.countdown, 0, step)])
    case Suspended(k, step) =>
      if k <= Steps then
        Step(m.(task := Suspended(k + 1, step)), [TickEvent(m.state, m.timing.countdown, k - 1, step)])
      else if k == Steps + 1 then
        var t := Transition(m, TrickActive);
        Step(t.machine.(task := Suspended(k + 1, step)), t.events)
      else if k == Steps + 2 then
        var t := Transition(m, TrickReset);
        Step(t.machine.(task := Suspended(k + 1, step)), t.events)
      else
        var t := Transition(m, NonTrick);
        Step(t.machine.(task := NoTask), t.events)
  }

  /** Cancelling the task: a suspended run catches `CancelledError` and
      moves to NON_TRICK from wherever it is; a task that never started
      runs none of its body. */
  function Cancel(m: Machine): (r: Step)
    ensures r.machine.task == NoTask
    ensures m.task.Suspended? ==>
              r.machine == m.(state := NonTrick, task := NoTask)
              && r.events == [StateChangeEvent(m.state, NonTrick, None)]
    ensures !m.task.Suspended? ==> r.machine == m.(task := NoTask) && r.events == []
  {
    if m.task.Suspended? then
      var t := Transition(m, NonTrick);
      Step(t.machine.(task := NoTask), t.events)
    else
      Step(m.(task := NoTask), [])
  }

  /** `stop`: cancels a pending task, then transitions to NON_TRICK
      unconditionally. */
  function Stop(m: Machine): (r: Step)
    ensures r.machine.state == NonTrick && r.machine.task == NoTask
    ensures Valid(r.machine) && CanTrigger(r.machine)
    ensures r.machine.timing == m.timing && r.machine.mode == m.mode
    ensures r.machine.callbacks == m.callbacks
    ensures |r.events| >= 1 && r.events[0].fromState == m.state
    ensures forall i :: 0 <= i < |r.events| ==> r.events[i].toState == NonTrick
    ensures |r.events| == if m.task.Suspended? then 2 else 1
  {
    var cancelled := Cancel(m);
    var t := Transition(cancelled.machine, NonTrick);
    Step(t.machine, cancelled.events + t.events)
  }

  /** `update_timing`: each duration given replaces the current one; the
      others are kept. */
  function UpdateTiming(m: Machine, countdown: Option<real>, active: Option<real>, reset: Option<real>): (r: Machine)
    ensures countdown.Some? ==> r.timing.countdown == countdown.value
    ensures countdown.None? ==> r.timing.countdown == m.timing.countdown
    ensures active.Some? ==> r.timing.active == active.value
    ensures active.None? ==> r.timing.active == m.timing.active
    ensures reset.Some? ==> r.timing.reset == reset.value
    ensures reset.None? ==> r.timing.reset == m.timing.reset
    ensures r == m.(timing := r.timing)
    ensures Valid(m) ==> Valid(r)
  {
    var c := if countdown.Some? then countdown.value else m.timing.countdown;
    var a := if active.Some? then active.value else m.timing.active;
    var s := if reset.Some? then reset.value else m.timing.reset;
    m.(timing := Timing(c, a, s))
  }

  /** `set_mode`. */
  function SetMode(m: Machine, mode: Mode): (r: Machine)
    ensures r.mode == mode && r == m.(mode := mode)
    ensures Valid(m) ==> Valid(r)
  {
    m.(mode := mode)
  }

  /** `register_state_change_callback`: callbacks are kept in registration
      order. The model returns emitted events rather than calling them;
      the controller delivers each event to its handler. */
  function RegisterCallback(m: Machine, cb: Observers.CallbackId): (r: Machine)
    ensures r.callbacks == m.callbacks + [cb]
    ensures r == m.(callbacks := r.callbacks)
    ensures Valid(m) ==> Valid(r)
  {
    m.(callbacks := m.callbacks + [cb])
  }

  /** Runs the task for at most `n` resumptions. */
  function Drive(m: Machine, n: nat): (r: Step)
    requires Valid(m)
    ensures Valid(r.machine)
    ensures r.machine.timing == m.timing && r.machine.mode == m.mode
    decreases n
  {
    if n == 0 || !Busy(m) then Step(m, [])
    else
      var s := Resume(m);
      var rest := Drive(s.machine, n - 1);
      Step(rest.machine, s.events + rest.events)
  }

  // ---------------------------------------------------------------------
  // Whole traces

  /** The time left at tick `i` of a countdown lasting `d` seconds. */
  function Remaining(d: real, i: nat): real {
    d - (i as real) * (d / (Steps as real))
  }

  /** The twenty countdown ticks of a run whose countdown lasts `d`. */
  function CountdownTicks(d: real): (ticks: seq<StateChangeEvent>)
    ensures |ticks| == Steps
    ensures forall i :: 0 <= i < Steps ==>
              ticks[i] == StateChangeEvent(TrickCountdown, TrickCountdown, Some(Remaining(d, i)))
  {
    seq(Steps, i requires 0 <= i < Steps =>
      StateChangeEvent(TrickCountdown, TrickCountdown, Some(Remaining(d, i))))
  }

  /** The trace of an uncancelled run started from NON_TRICK. */
  function FullRun(d: real): (run: seq<StateChangeEvent>)
    ensures |run| == RunLength
  {
    [StateChangeEvent(NonTrick, TrickCountdown, None)]
    + CountdownTicks(d)
    + [StateChangeEvent(TrickCountdown, TrickActive, None),
       StateChangeEvent(TrickActive, TrickReset, None),
       StateChangeEvent(TrickReset, NonTrick, None)]
  }

  /** The trace of a run cancelled once it has emitted `k` events: the
      first `k` events, then one transition to NON_TRICK. */
  function CancelledRun(d: real, k: nat): (run: seq<StateChangeEvent>)
    requires SuspensionPoint(k)
    ensures |run| == k + 1
    ensures run[..k] == FullRun(d)[..k]
  {
    FullRun(d)[..k] + [StateChangeEvent(StateAfter(k), NonTrick, None)]
  }

  /** Event `k` of an uncancelled run, defined position by position: it
      leaves the state the run is in after `k` events and enters the state
      it is in after `k + 1`. */
  function RunEvent(d: real, k: nat): (e: StateChangeEvent)
    ensures e.fromState == StateAfter(k) && e.toState == StateAfter(k + 1)
  {
    if k == 0 then StateChangeEvent(NonTrick, TrickCountdown, None)
    else if k <= Steps then StateChangeEvent(TrickCountdown, TrickCountdown, Some(Remaining(d, k - 1)))
    else StateChangeEvent(StateAfter(k), StateAfter(k + 1), None)
  }

  /** `FullRun` agrees with `RunEvent` at every position. */
  lemma FullRunAt(d: real, k: nat)
    requires k < RunLength
    ensures FullRun(d)[k] == RunEvent(d, k)
  {
    if 1 <= k <= Steps {
      assert FullRun(d)[k] == CountdownTicks(d)[k - 1];
    }
  }

  /** The shape of an uncancelled run: enter the countdown, twenty ticks,
      then active, reset and back to NON_TRICK, each event leaving from the
      state the previous one entered. */
  lemma FullRunShape(d: real)
    ensures FullRun(d)[0] == StateChangeEvent(NonTrick, TrickCountdown, None)
    ensures forall i :: 1 <= i <= Steps ==>
              FullRun(d)[i] == StateChangeEvent(TrickCountdown, TrickCountdown, Some(Remaining(d, i - 1)))
    ensures FullRun(d)[Steps + 1] == StateChangeEvent(TrickCountdown, TrickActive, None)
    ensures FullRun(d)[Steps + 2] == StateChangeEvent(TrickActive, TrickReset, None)
    ensures FullRun(d)[Steps + 3] == StateChangeEvent(TrickReset, NonTrick, None)
    ensures forall i :: 0 <= i < RunLength ==> FullRun(d)[i].toState == StateAfter(i + 1)
    ensures forall i :: 0 <= i < RunLength ==> FullRun(d)[i].fromState == StateAfter(i)
    ensures FullRun(d)[RunLength - 1].toState == NonTrick
  {
    var run := FullRun(d);
    var ticks := CountdownTicks(d);
    forall i | 1 <= i <= Steps
      ensures run[i] == ticks[i - 1]
    {
    }
  }

  /** Countdown values: the first is the full duration, the last is one
      twentieth of it, and for a positive duration they strictly decrease
      and stay positive. */
  lemma CountdownValues(d: real)
    ensures Remaining(d, 0) == d
    ensures Remaining(d, Steps - 1) == d / (Steps as real)
    ensures d > 0.0 ==> forall i, j :: 0 <= i < j < Steps ==> Remaining(d, i) > Remaining(d, j)
    ensures d > 0.0 ==> forall i :: 0 <= i < Steps ==> Remaining(d, i) >= d / (Steps as real) > 0.0
  {
    var step := d / (Steps as real);
    if d > 0.0 {
      forall i: nat, j: nat | i < j < Steps
        ensures Remaining(d, i) > Remaining(d, j)
      {
        MulStrict(i as real, j as real, step);
      }
      forall i: nat | i < Steps
        ensures Remaining(d, i) >= step
      {
        MulLe(i as real, (Steps - 1) as real, step);
      }
    }
  }

  lemma MulStrict(a: real, b: real, c: real)
    requires a < b && c > 0.0
    ensures a * c < b * c
  {
  }

  lemma MulLe(a: real, b: real, c: real)
    requires a <= b && c > 0.0
    ensures a * c <= b * c
  {
  }

  /** One resumption of a suspended run emits the next event of `FullRun`. */
  lemma ResumeFollowsFullRun(m: Machine)
    requires Valid(m) && m.task.Suspended?
    requires m.task.step == m.timing.countdown / (Steps as real)
    ensures Resume(m).events == [FullRun(m.timing.countdown)[m.task.emitted]]
  {
    var k := m.task.emitted;
    var d := m.timing.countdown;
    FullRunAt(d, k);
    if k <= Steps {
      assert m.state == TrickCountdown;
      assert Resume(m).events == [TickEvent(TrickCountdown, d, k - 1, m.task.step)];
      TickIsRemaining(d, k - 1, m.task.step);
      assert RunEvent(d, k) == StateChangeEvent(TrickCountdown, TrickCountdown, Some(Remaining(d, k - 1)));
    } else if k == Steps + 1 {
      assert m.state == TrickCountdown;
      assert Resume(m).events == [StateChangeEvent(TrickCountdown, TrickActive, None)] == [RunEvent(d, k)];
    } else if k == Steps + 2 {
      assert m.state == TrickActive;
      assert Resume(m).events == [StateChangeEvent(TrickActive, TrickReset, None)] == [RunEvent(d, k)];
    } else {
      assert m.state == TrickReset;
      assert Resume(m).events == [StateChangeEvent(TrickReset, NonTrick, None)] == [RunEvent(d, k)];
    }
  }

  /** A tick taken with the step fixed at the start of the countdown
      reports the time `Remaining` defines. */
  lemma TickIsRemaining(d: real, i: nat, step: real)
    requires step == d / (Steps as real)
    ensures TickEvent(TrickCountdown, d, i, step)
            == StateChangeEvent(TrickCountdown, TrickCountdown, Some(Remaining(d, i)))
  {
    var x := d - (i as real) * step;
    assert TickEvent(TrickCountdown, d, i, step) == StateChangeEvent(TrickCountdown, TrickCountdown, Some(x));
    assert Remaining(d, i) == x;
  }

  /** One resumption of a suspended run moves it one event further, into
      the state that event enters; the last one ends the task. */
  lemma ResumeAdvances(m: Machine)
    requires Valid(m) && m.task.Suspended?
    ensures m.task.emitted + 1 < RunLength ==>
              Resume(m).machine == m.(task := Suspended(m.task.emitted + 1, m.task.step),
                                      state := StateAfter(m.task.emitted + 1))
    ensures m.task.emitted + 1 == RunLength ==>
              Resume(m).machine == m.(task := NoTask, state := NonTrick)
  {
  }

  /** A run the scheduler resumes from a suspension point emits exactly the
      corresponding stretch of `FullRun`, provided the countdown duration
      does not change during the run. */
  lemma {:induction false} DriveFollowsFullRun(m: Machine, n: nat)
    requires Valid(m) && m.task.Suspended?
    requires m.task.step == m.timing.countdown / (Steps as real)
    requires m.task.emitted + n <= RunLength
    ensures Drive(m, n).events == FullRun(m.timing.countdown)[m.task.emitted .. m.task.emitted + n]
    decreases n
  {
    var k := m.task.emitted;
    var run := FullRun(m.timing.countdown);
    if n > 0 {
      var s := Resume(m);
      ResumeFollowsFullRun(m);
      ResumeAdvances(m);
      DriveUnfold(m, n);
      Seqs.SliceCons(run, k, k + n);
      if k + 1 < RunLength {
        DriveFollowsFullRun(s.machine, n - 1);
      } else {
        assert n == 1 && Drive(s.machine, 0) == Step(s.machine, []);
      }
    }
  }

  /** After `n` resumptions from a suspension point the run is `n` events
      further on, in the state those events enter, or finished in
      NON_TRICK once all of them have been emitted. */
  lemma {:induction false} DriveAdvances(m: Machine, n: nat)
    requires Valid(m) && m.task.Suspended?
    requires m.task.emitted + n <= RunLength
    ensures m.task.emitted + n < RunLength ==>
              Drive(m, n).machine == m.(task := Suspended(m.task.emitted + n, m.task.step),
                                        state := StateAfter(m.task.emitted + n))
    ensures m.task.emitted + n == RunLength ==>
              Drive(m, n).machine == m.(task := NoTask, state := NonTrick)
    decreases n
  {
    var k := m.task.emitted;
    if n > 0 {
      var s := Resume(m);
      ResumeAdvances(m);
      DriveUnfold(m, n);
      if k + 1 < RunLength {
        DriveAdvances(s.machine, n - 1);
      } else {
        assert n == 1 && Drive(s.machine, 0) == Step(s.machine, []);
      }
    }
  }

  /** One resumption followed by the rest. */
  lemma DriveUnfold(m: Machine, n: nat)
    requires Valid(m) && Busy(m) && n > 0
    ensures Drive(m, n).events == Resume(m).events + Drive(Resume(m).machine, n - 1).events
    ensures Drive(m, n).machine == Drive(Resume(m).machine, n - 1).machine
  {
  }

  /** A triggered run left alone emits exactly `FullRun` and leaves the
      machine in NON_TRICK with no task, ready to trigger again. */
  lemma RunCompletes(m: Machine)
    requires Valid(m) && m.task == Scheduled
    ensures Drive(m, RunLength - 1).events == FullRun(m.timing.countdown)
    ensures Drive(m, RunLength - 1).machine == m.(task := NoTask)
    ensures CanTrigger(Drive(m, RunLength - 1).machine)
  {
    DriveFromScheduled(m, RunLength - 1);
    assert FullRun(m.timing.countdown)[..RunLength] == FullRun(m.timing.countdown);
  }

  /** Cancelling a run after `n` resumptions (at any suspension point)
      yields `CancelledRun`: the events so far, then one transition to
      NON_TRICK from the state the run had reached. `Stop` adds its own
      NON_TRICK to NON_TRICK transition after it. */
  lemma CancelAnywhere(m: Machine, n: nat)
    requires Valid(m) && m.task == Scheduled
    requires 1 <= n < RunLength - 1
    ensures Drive(m, n).events + Cancel(Drive(m, n).machine).events
            == CancelledRun(m.timing.countdown, n + 1)
    ensures Stop(Drive(m, n).machine).events
            == [StateChangeEvent(StateAfter(n + 1), NonTrick, None), StateChangeEvent(NonTrick, NonTrick, None)]
    ensures Stop(Drive(m, n).machine).machine == m.(task := NoTask)
  {
    var d := m.timing.countdown;
    DriveFromScheduled(m, n);
    var mid := Drive(m, n).machine;
    assert mid.task.Suspended? && mid.state == StateAfter(n + 1);
    assert Cancel(mid).events == [StateChangeEvent(StateAfter(n + 1), NonTrick, None)];
  }

  /** The first `n` resumptions of a scheduled run follow `FullRun`. */
  lemma DriveFromScheduled(m: Machine, n: nat)
    requires Valid(m) && m.task == Scheduled
    requires 1 <= n < RunLength
    ensures Drive(m, n).events == FullRun(m.timing.countdown)[..n + 1]
    ensures n + 1 < RunLength ==>
              Drive(m, n).machine == m.(task := Suspended(n + 1, m.timing.countdown / (Steps as real)),
                                        state := StateAfter(n + 1))
    ensures n + 1 == RunLength ==> Drive(m, n).machine == m.(task := NoTask, state := NonTrick)
  {
    var d := m.timing.countdown;
    var run := FullRun(d);
    var s := Resume(m);
    DriveUnfold(m, n);
    FullRunAt(d, 0);
    FullRunAt(d, 1);
    TickIsRemaining(d, 0, d / (Steps as real));
    assert s.events == [run[0], run[1]] == run[..2];
    assert s.machine == m.(state := TrickCountdown, task := Suspended(2, d / (Steps as real)));
    DriveFollowsFullRun(s.machine, n - 1);
    DriveAdvances(s.machine, n - 1);
    assert run[..n + 1] == run[..2] + run[2..n + 1];
  }

  /** While a run is pending or in flight, `trigger_sequence` changes
      nothing and emits no event: before the task starts the task guard
      rejects it, afterwards the state guard does. */
  lemma RejectedWhileBusy(m: Machine)
    requires Valid(m) && Busy(m)
    ensures TriggerSequence(m) == m
    ensures m.task.Suspended? <==> !CanTrigger(m)
  {
  }

  /** A second trigger right after a first one is a no-op. */
  lemma TriggerIdempotent(m: Machine)
    ensures TriggerSequence(TriggerSequence(m)) == TriggerSequence(m)
  {
  }

  /** Every state reached in the middle of a run rejects a trigger. */
  lemma RejectedDuringRun(m: Machine, n: nat)
    requires Valid(m) && m.task == Scheduled
    requires 1 <= n < RunLength - 1
    ensures !CanTrigger(Drive(m, n).machine)
    ensures TriggerSequence(Drive(m, n).machine) == Drive(m, n).machine
  {
    DriveFromScheduled(m, n);
  }
}
