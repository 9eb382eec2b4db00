/**
  RVM safety controller (rvm/controller.py, with the commands of rvm/remote.py and rvm/simulation.py
  that reach it). One method per lock section; sensor readings, stop failures and clocks are arbitrary.

  Not everything runs under the lock: a safe-state entry and STOP_ALL first stop the outputs without waiting
  for it. Such a stop can land between the check and the write of another thread's section, and may set or clear
  the fault there. `inFlight` counts the threads in that window; each of them still owes its locked part.
 */
module RvmController {
  import opened Basics

  datatype MachineState = Booting | Idle | SessionActive | Processing | SyncPending | Full | Maintenance | SafeState | ErrorState

  datatype Reason =
    | ServicePanelForcedOpen | CollectionDoorForcedOpen | HighImpact | CameraOccluded | CameraOffline
    | HighTemperature | OutputStopFailed | ControlLoopError | PowerLossMidItem

  datatype Snapshot = Snapshot(
    chamberOpen: bool, itemPresent: bool, acceptance: bool, reverseMotion: bool,
    weight: int, weightStable: bool, fill: int, panelOpen: bool, doorOpen: bool, vibration: int,
    cameraOnline: bool, cameraOccluded: bool, cameraBlurry: bool, temperature: int)

  datatype Conveyor = Stopped | Forward | Backward
  datatype Outputs = Outputs(gate: bool, conveyor: Conveyor, compactor: bool)
  datatype Actuation = OpenGate | RunConveyor(direction: Conveyor) | StartCompactor

  datatype Alert = Alert(critical: bool, fraud: bool)
  datatype Lease = Lease(session: Id, expiresAt: int)

  /** What the safety argument observes: an output switched on, with the interlocks at that moment, or an item credited. */
  datatype Event =
    | SwitchedOn(actuation: Actuation, latched: bool, fault: bool, hazard: bool, racing: bool)
    | Accepted

  const OFF := Outputs(false, Stopped, false)

  /** How one `all_stop` goes; a failing one may leave any of the running outputs on. */
  datatype Stop = Done | Failing(gate: bool, conveyor: bool, compactor: bool)

  function AfterStop(o: Outputs, stop: Stop): (after: Outputs)
    ensures NothingMore(after, o) && (stop.Done? ==> after == OFF)
  {
    match stop
    case Done => OFF
    case Failing(gate, conveyor, compactor) =>
      Outputs(o.gate && gate, if conveyor then o.conveyor else Stopped, o.compactor && compactor)
  }

  /** What other threads do meanwhile without the lock: `begun` of them start a stop, and then the fault reads `fault`. */
  datatype Meanwhile = Meanwhile(begun: nat, stop: Stop, fault: bool)

  /** No thread is in its unlocked stop. */
  predicate Undisturbed(inFlight: nat, m: Meanwhile) { inFlight + m.begun == 0 }

  function OutputsAfter(o: Outputs, inFlight: nat, m: Meanwhile): (after: Outputs)
    ensures NothingMore(after, o)
  {
    if Undisturbed(inFlight, m) then o else AfterStop(o, m.stop)
  }

  function FaultAfter(fault: bool, inFlight: nat, m: Meanwhile): bool { if Undisturbed(inFlight, m) then fault else m.fault }

  /** Nothing runs in `after` that did not run in `before`. */
  predicate NothingMore(after: Outputs, before: Outputs) {
    && (after.gate ==> before.gate)
    && (after.conveyor == Stopped || after.conveyor == before.conveyor)
    && (after.compactor ==> before.compactor)
  }

  function Actuated(o: Outputs, a: Actuation): Outputs {
    match a
    case OpenGate => o.(gate := true)
    case RunConveyor(direction) => o.(conveyor := direction)
    case StartCompactor => o.(compactor := true)
  }

  /**
    Latch and sensors were clear when the output was switched on, and so was the fault unless an unlocked stop was
    in flight; an item is credited only once the conveyor moved it.
   */
  predicate Clear(events: seq<Event>, i: nat)
    requires i < |events|
  {
    match events[i]
    case SwitchedOn(_, latched, fault, hazard, racing) => !latched && !hazard && (fault ==> racing)
    case Accepted => i > 0 && events[i - 1].SwitchedOn? && events[i - 1].actuation == RunConveyor(Forward)
  }

  ghost predicate AllClear(events: seq<Event>) { forall i :: 0 <= i < |events| ==> Clear(events, i) }

  lemma ClearAppend(events: seq<Event>, e: Event)
    requires AllClear(events) && Clear(events + [e], |events|)
    ensures AllClear(events + [e])
  {
    forall i | 0 <= i < |events| ensures Clear(events + [e], i) {
      assert Clear(events, i);
    }
  }

  /** Output `a` was switched on, on record, at or after position `from`. */
  ghost predicate Recorded(events: seq<Event>, from: nat, a: Actuation) {
    exists i :: from <= i < |events| && events[i].SwitchedOn? && events[i].actuation == a
  }

  /** A step only adds to the history, and whatever runs after it ran before or is on record. */
  ghost predicate Guarded(events: seq<Event>, outputs: Outputs, events': seq<Event>, outputs': Outputs) {
    && events <= events'
    && (outputs'.gate ==> outputs.gate || Recorded(events', |events|, OpenGate))
    && (outputs'.conveyor == Stopped || outputs'.conveyor == outputs.conveyor
        || Recorded(events', |events|, RunConveyor(outputs'.conveyor)))
    && (outputs'.compactor ==> outputs.compactor || Recorded(events', |events|, StartCompactor))
  }

  lemma GuardedTransitive(e0: seq<Event>, o0: Outputs, e1: seq<Event>, o1: Outputs, e2: seq<Event>, o2: Outputs)
    requires Guarded(e0, o0, e1, o1) && Guarded(e1, o1, e2, o2)
    ensures Guarded(e0, o0, e2, o2)
  {
    forall a | Recorded(e1, |e0|, a) ensures Recorded(e2, |e0|, a) {
      var i :| |e0| <= i < |e1| && e1[i].SwitchedOn? && e1[i].actuation == a;
      assert e2[i] == e1[i];
    }
    forall a | Recorded(e2, |e1|, a) ensures Recorded(e2, |e0|, a) {
    }
  }

  /** Switching one output on, on record; the outputs may have dropped before and after it. */
  lemma SwitchedOnGuarded(events: seq<Event>, outputs: Outputs, e: Event, outputs': Outputs, now: Outputs)
    requires e.SwitchedOn? && NothingMore(outputs', outputs) && NothingMore(now, Actuated(outputs', e.actuation))
    ensures Guarded(events, outputs, events + [e], now)
  {
    assert (events + [e])[|events|] == e;
  }

  class Controller {
    const vibrationThreshold: int
    const maxTemperature: int
    const maxFill: int
    const minWeight: int
    const maxWeight: int
    const chamberTimeout: int
    const compactorEnabled: bool
    const cameraEnabled: bool
    const mockHardware: bool

    var state: MachineState
    var safeReason: Option<Reason>
    var alert: Option<Alert>
    var outputFault: bool
    var outputs: Outputs
    var inFlight: nat
    var last: Snapshot
    var lease: Option<Lease>
    var processingStartedAt: Option<int>
    var weightReported: bool
    ghost var events: seq<Event>

    /** A latched machine has a reason, and the history is clear. */
    ghost predicate Coherent()
      reads this
    {
      (state == SafeState ==> safeReason.Some?) && AllClear(events)
    }

    /** A failed stop is latched, unless it is an unlocked one whose locked part is still to come. */
    ghost predicate Valid()
      reads this
    {
      Coherent() && (outputFault ==> state == SafeState || inFlight > 0)
    }

    /** An open panel or door, an impact or overheating. */
    predicate SensorHazard(s: Snapshot) {
      s.panelOpen || s.doorOpen || s.vibration >= vibrationThreshold || s.temperature >= maxTemperature
    }

    predicate PhysicalHazard(s: Snapshot)
      reads this
    {
      outputFault || SensorHazard(s)
    }

    predicate LatchActive()
      reads this
    {
      state == SafeState || safeReason.Some? || (alert.Some? && alert.value.critical)
    }

    predicate Stopped()
      reads this
    {
      outputs == OFF
    }

    /** Stopped, or latched with the failed stop recorded; only a stop still in flight may have cleared that record. */
    ghost predicate StoppedOrFaulted()
      reads this
    {
      Stopped() || ((outputFault || inFlight > 0) && state == SafeState && safeReason.Some?)
    }

    constructor (vibration: int, temperature: int, fill: int, lightest: int, heaviest: int, timeout: int,
                 compactor: bool, camera: bool, mock: bool, idle: Snapshot)
      ensures Valid() && Stopped() && state == Booting && events == [] && inFlight == 0
    {
      vibrationThreshold, maxTemperature, maxFill := vibration, temperature, fill;
      minWeight, maxWeight, chamberTimeout := lightest, heaviest, timeout;
      compactorEnabled, cameraEnabled, mockHardware := compactor, camera, mock;
      state, safeReason, alert, outputFault, outputs := Booting, None, None, false, OFF;
      last, lease, processingStartedAt, weightReported, events, inFlight := idle, None, None, false, [], 0;
    }

    // ----- hardware -----------------------------------------------------------------------------

    method AnyStop() returns (stop: Stop)
    {
      var done, gate, conveyor, compactor := *, *, *, *;
      stop := if done then Done else Failing(gate, conveyor, compactor);
    }

    method AnyMeanwhile() returns (m: Meanwhile)
    {
      var begun: int, fault := *, *;
      var stop := AnyStop();
      m := Meanwhile(if begun < 0 then 0 else begun, stop, fault);
    }

    /** `all_stop` may fail half way; it never switches anything on. */
    method AllStop() returns (failed: bool)
      modifies this`outputs
      ensures NothingMore(outputs, old(outputs))
      ensures !failed ==> outputs == OFF
    {
      var stop := AnyStop();
      outputs := AfterStop(outputs, stop);
      failed := stop.Failing?;
    }

    method ReadSensors() returns (failed: bool, s: Snapshot)
    {
      failed, s := *, *;
    }

    /** Unlocked stops of other threads: they only switch outputs off, but may move the fault either way. */
    method Elsewhere()
      modifies this`outputs, this`outputFault, this`inFlight
      ensures NothingMore(outputs, old(outputs)) && inFlight >= old(inFlight)
      ensures inFlight == 0 ==> outputs == old(outputs) && outputFault == old(outputFault)
    {
      var m := AnyMeanwhile();
      Interfere(m);
    }

    method Interfere(m: Meanwhile)
      modifies this`outputs, this`outputFault, this`inFlight
      ensures outputs == OutputsAfter(old(outputs), old(inFlight), m)
      ensures outputFault == FaultAfter(old(outputFault), old(inFlight), m) && inFlight == old(inFlight) + m.begun
    {
      inFlight := inFlight + m.begun;
      if inFlight > 0 {
        outputs, outputFault := AfterStop(outputs, m.stop), m.fault;
      }
    }

    /**
      Switches one output on; the history records the interlocks of this very moment. The fault is on record exactly
      when another thread's stop sets it, or leaves it set, between the check and the write.
     */
    method SwitchOn(a: Actuation, s: Snapshot, before: Meanwhile, after: Meanwhile)
      requires AllClear(events) && !LatchActive() && !SensorHazard(s) && (outputFault ==> inFlight > 0)
      modifies this`outputs, this`outputFault, this`inFlight, this`events
      ensures AllClear(events) && Guarded(old(events), old(outputs), events, outputs)
      ensures inFlight == old(inFlight) + before.begun + after.begun
      ensures events == old(events) + [SwitchedOn(
        a, false, FaultAfter(old(outputFault), old(inFlight), before), false, !Undisturbed(old(inFlight), before))]
      ensures outputs == OutputsAfter(
        Actuated(OutputsAfter(old(outputs), old(inFlight), before), a), old(inFlight) + before.begun, after)
      ensures outputFault == FaultAfter(
        FaultAfter(old(outputFault), old(inFlight), before), old(inFlight) + before.begun, after)
    {
      Interfere(before);
      ghost var stopped := outputs;
      outputs := Actuated(outputs, a);
      ghost var e := SwitchedOn(a, LatchActive(), outputFault, SensorHazard(s), inFlight > 0);
      ClearAppend(events, e);
      events := events + [e];
      Interfere(after);
      SwitchedOnGuarded(old(events), old(outputs), e, stopped, outputs);
    }

    // ----- stops and the latch ------------------------------------------------------------------

    method StopOutputs() returns (stopped: bool)
      modifies this`outputs, this`outputFault, this`inFlight
      ensures NothingMore(outputs, old(outputs)) && inFlight >= old(inFlight)
      ensures stopped ==> outputs == OFF
      ensures inFlight == 0 ==> outputFault == !stopped
    {
      var failed := AllStop();
      outputFault := failed;
      stopped := !failed;
      Elsewhere();
    }

    method SetAlert(critical: bool, fraud: bool)
      modifies this`alert
      ensures alert == if !critical && old(alert).Some? && old(alert).value.critical then old(alert) else Some(Alert(critical, fraud))
    {
      if !critical && alert.Some? && alert.value.critical { return; }
      alert := Some(Alert(critical, fraud));
    }

    /** A latched SAFE_STATE is left only for maintenance; otherwise the new state is the one asked for. */
    method SetState(next: MachineState)
      modifies this`state
      ensures old(state) == SafeState && safeReason.Some? ==> state == SafeState || state == Maintenance
      ensures old(state) != SafeState || safeReason.None? || next == Maintenance ==> state == next
      ensures state == next || state == old(state)
    {
      if state == SafeState && next != SafeState && next != Maintenance && safeReason.Some? { return; }
      state := next;
    }

    /**
      Stops at once, then latches under the lock, and escalates once to OUTPUT_STOP_FAILED when that stop failed.
      However the stops fail, it ends in SAFE_STATE with a reason, and an unresolved fault is never forgotten.
     */
    method EnterSafeState(reason: Reason)
      requires Coherent()
      modifies this`outputs, this`outputFault, this`inFlight, this`alert, this`safeReason, this`state
      ensures Valid() && state == SafeState && safeReason.Some? && StoppedOrFaulted()
      ensures NothingMore(outputs, old(outputs)) && inFlight >= old(inFlight)
      ensures safeReason == Some(reason) || safeReason == Some(OutputStopFailed)
      decreases reason != OutputStopFailed, 1
    {
      var first := StopOutputs();
      LatchUnderLock(reason);
    }

    /** The locked part of a safe-state entry: whatever a guarded write left running is stopped, and the machine latched. */
    method LatchUnderLock(reason: Reason)
      requires Coherent()
      modifies this`outputs, this`outputFault, this`inFlight, this`alert, this`safeReason, this`state
      ensures Valid() && state == SafeState && safeReason.Some? && StoppedOrFaulted()
      ensures NothingMore(outputs, old(outputs)) && inFlight >= old(inFlight)
      ensures safeReason == Some(reason) || safeReason == Some(OutputStopFailed)
      decreases reason != OutputStopFailed, 0
    {
      var stopped := StopOutputs();
      if state == SafeState && safeReason == Some(reason) { return; }
      SetAlert(true, false);
      safeReason := Some(reason);
      SetState(SafeState);
      if !stopped && reason != OutputStopFailed {
        EnterSafeState(OutputStopFailed);
      }
    }

    // ----- stops outside the lock -----------------------------------------------------------------

    /** The first, unlocked stop of a safe-state entry, of STOP_ALL or of the loop's error handler. */
    method BeginUnlockedStop()
      requires Valid()
      modifies this`outputs, this`outputFault, this`inFlight
      ensures Valid() && NothingMore(outputs, old(outputs)) && inFlight > 0
    {
      inFlight := inFlight + 1;
      Elsewhere();
    }

    /** Once the lock is taken: latched with a reason, and everything off or the fault recorded. */
    method FinishSafeState(reason: Reason)
      requires Valid() && inFlight > 0
      modifies this`outputs, this`outputFault, this`inFlight, this`alert, this`safeReason, this`state
      ensures Valid() && state == SafeState && safeReason.Some? && StoppedOrFaulted() && NothingMore(outputs, old(outputs))
    {
      inFlight := inFlight - 1;
      LatchUnderLock(reason);
    }

    /** The locked part of STOP_ALL: everything off, or the failure latched and raised. */
    method FinishStopAll() returns (raised: bool)
      requires Valid() && inFlight > 0
      modifies this`outputs, this`outputFault, this`inFlight, this`alert, this`safeReason, this`state
      ensures Valid() && StoppedOrFaulted() && NothingMore(outputs, old(outputs))
      ensures !raised ==> Stopped()
      ensures raised ==> state == SafeState && safeReason == Some(OutputStopFailed)
    {
      inFlight := inFlight - 1;
      var stopped := SafeAllStop();
      raised := !stopped;
    }

    /** An unlocked stop that succeeded and owes nothing more (the error handler of a latched machine). */
    method FinishUnlockedStop()
      requires Valid() && inFlight > 0
      modifies this`outputFault, this`inFlight
      ensures Valid()
    {
      outputFault := false;
      inFlight := inFlight - 1;
    }

    /** Either everything is off and nothing else changed, or the failed stop is latched. */
    method SafeAllStop() returns (stopped: bool)
      requires Coherent()
      modifies this`outputs, this`outputFault, this`inFlight, this`alert, this`safeReason, this`state
      ensures Valid() && StoppedOrFaulted() && NothingMore(outputs, old(outputs)) && inFlight >= old(inFlight)
      ensures stopped ==> Stopped() && (outputFault ==> inFlight > 0)
      ensures stopped ==> state == old(state) && safeReason == old(safeReason) && alert == old(alert)
      ensures !stopped ==> state == SafeState && safeReason == Some(OutputStopFailed)
    {
      stopped := StopOutputs();
      if !stopped {
        EnterSafeState(OutputStopFailed);
      }
    }

    /** Closing outputs is always allowed; a failed close latches and is raised, a done one leaves the others as they were. */
    method CloseOutput(conveyor: bool, gate: bool, compactor: bool) returns (raised: bool)
      requires Valid()
      modifies this`outputs, this`outputFault, this`inFlight, this`alert, this`safeReason, this`state
      ensures Valid() && NothingMore(outputs, old(outputs)) && inFlight >= old(inFlight)
      ensures raised ==> state == SafeState && safeReason == Some(OutputStopFailed) && StoppedOrFaulted()
      ensures !raised ==> state == old(state) && safeReason == old(safeReason) && alert == old(alert)
      ensures !raised ==> (gate ==> !outputs.gate) && (conveyor ==> outputs.conveyor == Conveyor.Stopped) && (compactor ==> !outputs.compactor)
      ensures !raised && inFlight == 0 ==>
        && outputFault == old(outputFault)
        && (!gate ==> outputs.gate == old(outputs).gate) && (!conveyor ==> outputs.conveyor == old(outputs).conveyor)
        && (!compactor ==> outputs.compactor == old(outputs).compactor)
    {
      raised := *;
      if raised {
        EnterSafeState(OutputStopFailed);
      } else {
        outputs := Outputs(
          outputs.gate && !gate, if conveyor then Conveyor.Stopped else outputs.conveyor, outputs.compactor && !compactor);
        Elsewhere();
      }
    }

    method ReportFraud()
      requires Valid()
      modifies this`outputs, this`outputFault, this`inFlight, this`alert, this`safeReason, this`state
      ensures Valid() && StoppedOrFaulted() && NothingMore(outputs, old(outputs)) && inFlight >= old(inFlight)
      ensures state == old(state) || state == SafeState
      ensures old(safeReason).Some? ==> safeReason.Some?
    {
      var stopped := SafeAllStop();
      SetAlert(false, true);
    }

    // ----- interlocks ---------------------------------------------------------------------------

    /** Camera worker status as seen now: online and unobstructed. */
    predicate CameraBlocked(s: Snapshot, workerOnline: bool, workerOccluded: bool)
      reads this
    {
      var online := (if mockHardware then s.cameraOnline else true) && (cameraEnabled ==> workerOnline);
      var occluded := s.cameraOccluded || (cameraEnabled && workerOccluded);
      !online || occluded
    }

    predicate ActuationBlocked(s: Snapshot, workerOnline: bool, workerOccluded: bool)
      reads this
    {
      || PhysicalHazard(s) || CameraBlocked(s, workerOnline, workerOccluded) || LatchActive()
      || state == SafeState || state == Maintenance || state == Full || s.fill >= maxFill
    }

    predicate MaintenanceBlocked(s: Snapshot)
      reads this
    {
      PhysicalHazard(s) || LatchActive()
    }

    /** Reads, checks and writes in one lock section; when blocked, everything is stopped instead. */
    method GuardedOutput(a: Actuation, maintenance: bool) returns (blocked: bool)
      requires Valid()
      modifies this`outputs, this`outputFault, this`inFlight, this`alert, this`safeReason, this`state, this`events
      ensures Valid() && Guarded(old(events), old(outputs), events, outputs)
      ensures blocked ==> events == old(events) && StoppedOrFaulted()
      ensures blocked ==> (state == old(state) && safeReason == old(safeReason)) || (state == SafeState && safeReason == Some(OutputStopFailed))
      ensures !blocked ==> |events| == |old(events)| + 1 && events[|old(events)|].SwitchedOn? && events[|old(events)|].actuation == a
      ensures !blocked && inFlight == 0 ==> outputs == Actuated(old(outputs), a) && !outputFault
      ensures !blocked ==> state == old(state) && safeReason == old(safeReason) && !LatchActive()
    {
      var failed, s := ReadSensors();
      var online, occluded := *, *;
      var before := AnyMeanwhile();
      var after := AnyMeanwhile();
      blocked := GuardedWrite(a, maintenance, failed, s, online, occluded, before, after);
    }

    predicate Blocked(maintenance: bool, s: Snapshot, workerOnline: bool, workerOccluded: bool)
      reads this
    {
      if maintenance then MaintenanceBlocked(s) else ActuationBlocked(s, workerOnline, workerOccluded)
    }

    /** The section for given readings and given doings of the other threads. */
    method GuardedWrite(a: Actuation, maintenance: bool, failed: bool, s: Snapshot, online: bool, occluded: bool,
                        before: Meanwhile, after: Meanwhile) returns (blocked: bool)
      requires Valid()
      modifies this`outputs, this`outputFault, this`inFlight, this`alert, this`safeReason, this`state, this`events
      ensures Valid() && Guarded(old(events), old(outputs), events, outputs)
      ensures blocked <==> failed || old(Blocked(maintenance, s, online, occluded))
      ensures blocked ==> events == old(events) && StoppedOrFaulted()
      ensures blocked ==> (state == old(state) && safeReason == old(safeReason)) || (state == SafeState && safeReason == Some(OutputStopFailed))
      ensures !blocked ==> state == old(state) && safeReason == old(safeReason) && alert == old(alert) && !LatchActive()
      ensures !blocked ==> inFlight == old(inFlight) + before.begun + after.begun
      ensures !blocked ==> events == old(events) + [SwitchedOn(
        a, false, !Undisturbed(old(inFlight), before) && before.fault, false, !Undisturbed(old(inFlight), before))]
      ensures !blocked ==> outputs == OutputsAfter(
        Actuated(OutputsAfter(old(outputs), old(inFlight), before), a), old(inFlight) + before.begun, after)
      ensures !blocked ==> outputFault == FaultAfter(
        FaultAfter(false, old(inFlight), before), old(inFlight) + before.begun, after)
    {
      blocked := failed || Blocked(maintenance, s, online, occluded);
      if blocked {
        var stopped := SafeAllStop();
        return;
      }
      SwitchOn(a, s, before, after);
    }

    /**
      The race is real: from every state in which the check passes, another thread can begin its stop right after it and
      fail, and the write then runs with the fault set.
     */
    method WriteDuringFailingStop(a: Actuation, maintenance: bool, s: Snapshot, online: bool, occluded: bool)
      requires Valid() && !Blocked(maintenance, s, online, occluded)
      modifies this`outputs, this`outputFault, this`inFlight, this`alert, this`safeReason, this`state, this`events
      ensures Valid() && outputFault && outputs == Actuated(old(outputs), a) && inFlight == old(inFlight) + 1
      ensures events == old(events) + [SwitchedOn(a, false, true, false, true)]
      ensures state == old(state) && safeReason == old(safeReason) && alert == old(alert) && !LatchActive()
    {
      var failing := Failing(true, true, true);
      var blocked := GuardedWrite(
        a, maintenance, false, s, online, occluded, Meanwhile(1, failing, true), Meanwhile(0, failing, true));
    }

    /** And it ends with the locked part of that stop: latched, and everything off or the fault still on record. */
    method FailingStopCatchesUp(a: Actuation, maintenance: bool, s: Snapshot, online: bool, occluded: bool, reason: Reason)
      returns (running: Outputs, fault: bool)
      requires Valid() && !Blocked(maintenance, s, online, occluded)
      modifies this`outputs, this`outputFault, this`inFlight, this`alert, this`safeReason, this`state, this`events
      ensures running == Actuated(old(outputs), a) && fault
      ensures events == old(events) + [SwitchedOn(a, false, true, false, true)]
      ensures Valid() && state == SafeState && safeReason.Some? && StoppedOrFaulted()
    {
      WriteDuringFailingStop(a, maintenance, s, online, occluded);
      running, fault := outputs, outputFault;
      FinishSafeState(reason);
    }

    /** Opens the gate unless the session bound is exhausted; the bound itself touches no output. */
    method TryOpenInputGate(boundReached: bool) returns (isOpen: bool)
      requires Valid()
      modifies this`outputs, this`outputFault, this`inFlight, this`alert, this`safeReason, this`state, this`events
      ensures Valid() && Guarded(old(events), old(outputs), events, outputs)
      ensures state == old(state) || (state == SafeState && safeReason == Some(OutputStopFailed))
      ensures old(safeReason).Some? ==> safeReason.Some?
      ensures (state == SafeState || LatchActive()) ==> events == old(events)
      ensures !isOpen && !boundReached ==> StoppedOrFaulted()
    {
      if boundReached { return false; }
      var blocked := GuardedOutput(OpenGate, false);
      isOpen := !blocked;
    }

    /** A technician's jog: only in MAINTENANCE, refused elsewhere without touching any output. */
    method MaintenanceOutput(a: Actuation) returns (refused: bool)
      requires Valid()
      modifies this`outputs, this`outputFault, this`inFlight, this`alert, this`safeReason, this`state, this`events
      ensures Valid() && Guarded(old(events), old(outputs), events, outputs)
      ensures old(state) != Maintenance ==> refused && outputs == old(outputs) && events == old(events) && state == old(state)
    {
      if state != Maintenance { return true; }
      refused := GuardedOutput(a, true);
    }

    // ----- leases -------------------------------------------------------------------------------

    /** A refused activation saves no lease and changes the state only to latch a failed stop; an accepted one runs the gate alone. */
    method ActivateLease(candidate: Lease, refusal: bool, now: int, boundReached: bool) returns (activated: bool)
      requires Valid()
      modifies this
      ensures Valid() && Guarded(old(events), old(outputs), events, outputs)
      ensures !activated ==> lease == old(lease)
      ensures !activated ==> (state == old(state) && safeReason == old(safeReason)) || (state == SafeState && safeReason == Some(OutputStopFailed))
      ensures activated ==> lease == Some(candidate) && state == SessionActive && !LatchActive()
      ensures activated ==> NothingMore(outputs, OFF.(gate := !boundReached))
      ensures activated && inFlight == 0 ==> outputs == OFF.(gate := !boundReached) && !outputFault
    {
      if refusal || candidate.expiresAt <= now { return false; }
      // A session starts only from a stopped machine.
      var stopped := SafeAllStop();
      if !stopped { return false; }
      var failed, s := ReadSensors();
      var online, occluded := *, *;
      if failed || ActuationBlocked(s, online, occluded) {
        stopped := SafeAllStop();
        return false;
      }
      lease := Some(candidate);
      SetState(SessionActive);
      if !boundReached {
        ghost var was, running := events, outputs;
        var before := AnyMeanwhile();
        var after := AnyMeanwhile();
        SwitchOn(OpenGate, s, before, after);
        GuardedTransitive(old(events), old(outputs), was, running, events, outputs);
      }
      return true;
    }

    /** A renewal extends the running, unexpired lease of the same session and never shortens, revives or replaces one. */
    method RenewLease(candidate: Lease, refusal: bool, now: int) returns (renewed: bool)
      modifies this`lease
      ensures HasLease(now) <==> old(HasLease(now))
      ensures renewed ==> HasLease(now) && lease == Some(candidate) && lease.value.session == old(lease).value.session
                          && lease.value.expiresAt > old(lease).value.expiresAt
      ensures !renewed ==> lease == old(lease)
      ensures !renewed && !refusal && HasLease(now) && lease.value.session == candidate.session ==> lease.value.expiresAt >= candidate.expiresAt
    {
      if !HasLease(now) || lease.value.session != candidate.session || refusal || candidate.expiresAt <= lease.value.expiresAt {
        return false;
      }
      lease := Some(candidate);
      return true;
    }

    predicate HasLease(now: int)
      reads this
    {
      lease.Some? && lease.value.expiresAt > now
    }

    method ExpireLease(now: int)
      requires Valid()
      modifies this`outputs, this`outputFault, this`inFlight, this`alert, this`safeReason, this`state
      ensures Valid() && NothingMore(outputs, old(outputs)) && inFlight >= old(inFlight)
      ensures old(state) != SessionActive && old(state) != Processing ==>
        state == old(state) && outputs == old(outputs) && safeReason == old(safeReason) && outputFault == old(outputFault)
      ensures (old(state) == SessionActive || old(state) == Processing) && !HasLease(now) ==>
        StoppedOrFaulted() && (state == SyncPending || state == SafeState)
      ensures state == SafeState && old(state) != SafeState ==> StoppedOrFaulted()
    {
      if state != SessionActive && state != Processing { return; }
      if !HasLease(now) {
        SetState(SyncPending);
        var stopped := SafeAllStop();
      }
    }

    // ----- sensor processing --------------------------------------------------------------------

    method LatchHazard(active: bool, wasActive: bool, reason: Reason)
      requires Valid()
      modifies this`outputs, this`outputFault, this`inFlight, this`alert, this`safeReason, this`state
      ensures Valid() && NothingMore(outputs, old(outputs))
      ensures active ==> state == SafeState
      ensures old(state) == SafeState ==> state == SafeState
      ensures old(safeReason).Some? ==> safeReason.Some?
      ensures !active ==> state == old(state)
    {
      if active && (!wasActive || state != SafeState) {
        EnterSafeState(reason);
      }
    }

    method LatchIntrusion(current: Snapshot)
      requires Valid()
      modifies this`outputs, this`outputFault, this`inFlight, this`alert, this`safeReason, this`state
      ensures Valid() && NothingMore(outputs, old(outputs))
      ensures current.panelOpen || current.doorOpen || current.vibration >= vibrationThreshold ==> state == SafeState
      ensures old(state) == SafeState ==> state == SafeState
      ensures state == old(state) || state == SafeState
    {
      LatchHazard(current.panelOpen, last.panelOpen, ServicePanelForcedOpen);
      LatchHazard(current.doorOpen, last.doorOpen, CollectionDoorForcedOpen);
      LatchHazard(current.vibration >= vibrationThreshold, last.vibration >= vibrationThreshold, HighImpact);
    }

    method LatchCameraAndHeat(current: Snapshot)
      requires Valid()
      modifies this`outputs, this`outputFault, this`inFlight, this`alert, this`safeReason, this`state
      ensures Valid() && NothingMore(outputs, old(outputs))
      ensures current.temperature >= maxTemperature ==> state == SafeState
      ensures old(state) == SafeState ==> state == SafeState
      ensures state == old(state) || state == SafeState
    {
      LatchHazard(current.cameraOccluded, last.cameraOccluded, CameraOccluded);
      if last.cameraOnline && !current.cameraOnline {
        EnterSafeState(CameraOffline);
      }
      if current.cameraBlurry && !last.cameraBlurry {
        SetAlert(false, false);
      }
      LatchHazard(current.temperature >= maxTemperature, last.temperature >= maxTemperature, HighTemperature);
    }

    /** The hazard block of a pass: every open panel or door, impact, covered or lost camera and overheating. */
    method ProcessHazards(current: Snapshot)
      requires Valid()
      modifies this`outputs, this`outputFault, this`inFlight, this`alert, this`safeReason, this`state
      ensures Valid() && NothingMore(outputs, old(outputs))
      ensures SensorHazard(current) ==> state == SafeState
      ensures old(state) == SafeState ==> state == SafeState
      ensures state == old(state) || state == SafeState
    {
      if current.chamberOpen && !last.chamberOpen && state != SessionActive {
        ReportFraud();
      }
      LatchIntrusion(current);
      LatchCameraAndHeat(current);
      if current.reverseMotion && !last.reverseMotion {
        ReportFraud();
      }
    }

    /** The item at the acceptance beam: moved and credited, or rejected with everything off. */
    method AcceptItem(boundReached: bool) returns (raised: bool)
      requires Valid() && state == Processing
      modifies this
      ensures Valid() && Guarded(old(events), old(outputs), events, outputs)
      ensures raised ==> state == SafeState && StoppedOrFaulted()
      ensures last == old(last)
    {
      var blocked := false;
      if boundReached {
        var stopped := SafeAllStop();
      } else {
        blocked := GuardedOutput(RunConveyor(Forward), false);
        if !blocked {
          ClearAppend(events, Accepted);
          events := events + [Accepted];
          raised := CloseOutput(true, false, false);
          if raised { return; }
          if compactorEnabled {
            var refused := GuardedOutput(StartCompactor, false);
            if !refused {
              raised := CloseOutput(false, false, true);
              if raised { return; }
            }
          }
        }
      }
      processingStartedAt := None;
      SetState(SessionActive);
      raised := false;
    }

    /** A newly detected item: the gate is closed before anything else. */
    method DetectItem(now: int) returns (raised: bool)
      requires Valid()
      modifies this
      ensures Valid() && events == old(events) && NothingMore(outputs, old(outputs))
      ensures raised ==> state == SafeState && StoppedOrFaulted()
      ensures old(state) == SafeState ==> state == SafeState
      ensures last == old(last)
    {
      raised := false;
      if state != SessionActive {
        ReportFraud();
      } else {
        SetState(Processing);
        processingStartedAt, weightReported := Some(now), false;
        raised := CloseOutput(false, true, false);
      }
    }

    method WeighItem(current: Snapshot, boundReached: bool)
      requires Valid()
      modifies this
      ensures Valid() && Guarded(old(events), old(outputs), events, outputs)
      ensures old(state) == SafeState ==> state == SafeState
      ensures last == old(last)
    {
      if state == Processing && current.weightStable && current.weight > 0 && !weightReported {
        if !(minWeight <= current.weight <= maxWeight) {
          ReportFraud();
          processingStartedAt := None;
          SetState(SessionActive);
          var isOpen := TryOpenInputGate(boundReached);
        }
        weightReported := true;
      }
    }

    /** The item block of a pass: detection, weighing and acceptance. */
    method ProcessItem(current: Snapshot, now: int) returns (raised: bool)
      requires Valid()
      modifies this
      ensures Valid() && Guarded(old(events), old(outputs), events, outputs)
      ensures raised ==> state == SafeState && StoppedOrFaulted()
      ensures old(state) == SafeState ==> state == SafeState
      ensures last == old(last)
    {
      if current.itemPresent && !last.itemPresent {
        raised := DetectItem(now);
        if raised { return; }
      }
      var gateBound, itemBound := *, *;
      ghost var detected, running := events, outputs;
      WeighItem(current, gateBound);
      GuardedTransitive(old(events), old(outputs), detected, running, events, outputs);
      if current.acceptance && !last.acceptance {
        if state != Processing {
          ReportFraud();
        } else {
          detected, running := events, outputs;
          raised := AcceptItem(itemBound);
          GuardedTransitive(old(events), old(outputs), detected, running, events, outputs);
          if raised { return; }
        }
      }
      raised := false;
    }

    /** One pass over a sensor snapshot; a failed close aborts it, already latched. */
    method ProcessSensors(current: Snapshot, now: int) returns (raised: bool)
      requires Valid()
      modifies this
      ensures Valid() && Guarded(old(events), old(outputs), events, outputs)
      ensures raised ==> state == SafeState && StoppedOrFaulted()
      ensures !raised && SensorHazard(current) ==> state == SafeState
      ensures !raised && (state == SafeState || PhysicalHazard(current)) ==> StoppedOrFaulted()
    {
      ProcessHazards(current);
      if current.fill >= maxFill && state != Full && state != SafeState {
        SetState(Full);
        var stopped := SafeAllStop();
      }
      raised := ProcessItem(current, now);
      if raised { return; }
      // Level-triggered: while latched or hazardous, every pass drives all outputs off again.
      if state == SafeState || PhysicalHazard(current) {
        var stopped := SafeAllStop();
      }
    }

    /**
      One control-loop pass. A pass that does not abort ends latched when a hazard is present, and one
      that ends latched or hazardous ends with every output off, or with the fault recorded and latched.
     */
    method Tick(now: int) returns (aborted: bool, current: Snapshot)
      requires Valid()
      modifies this
      ensures Valid() && Guarded(old(events), old(outputs), events, outputs)
      ensures !aborted && SensorHazard(current) ==> state == SafeState && safeReason.Some?
      ensures !aborted && (state == SafeState || SensorHazard(current)) ==> StoppedOrFaulted()
      ensures !aborted && outputFault ==> StoppedOrFaulted() || inFlight > 0
    {
      var failed, snapshot := ReadSensors();
      current := snapshot;
      if failed { return true, current; }
      aborted := ProcessSensors(current, now);
      last := current;
      if aborted { return; }
      ExpireLease(now);
      if state == Processing && processingStartedAt.Some? && now - processingStartedAt.value > chamberTimeout {
        ReportFraud();
        SetState(SessionActive);
        aborted := CloseOutput(true, false, false);
      }
    }

    /** The loop around a pass: an aborted pass always ends latched, with its root cause kept. */
    method RunOnce(now: int) returns (aborted: bool)
      requires Valid()
      modifies this
      ensures Valid() && Guarded(old(events), old(outputs), events, outputs)
      ensures aborted ==> LatchActive() && StoppedOrFaulted()
    {
      var current;
      aborted, current := Tick(now);
      if aborted {
        if LatchActive() {
          var stopped := SafeAllStop();
        } else {
          EnterSafeState(ControlLoopError);
        }
      }
    }

    // ----- operator and server commands ---------------------------------------------------------

    /** The validated reset: the latch is cleared only when a fresh reading shows every condition clear. */
    method Reset(deactivateLease: bool, now: int, boundReached: bool) returns (refused: bool)
      requires Valid()
      modifies this
      ensures Valid() && Guarded(old(events), old(outputs), events, outputs)
      ensures refused ==> old(safeReason).Some? ==> safeReason.Some?
    {
      var stopped := SafeAllStop();
      var failed, s := ReadSensors();
      var online, occluded := *, *;
      if failed || PhysicalHazard(s) || CameraBlocked(s, online, occluded) { return true; }
      safeReason, alert := None, None;
      if deactivateLease {
        lease := None;
      }
      processingStartedAt := None;
      if HasLease(now) {
        SetState(SessionActive);
        var isOpen := TryOpenInputGate(boundReached);
      } else {
        SetState(Idle);
      }
      return false;
    }

    method EnterMaintenance() returns (refused: bool)
      requires Valid()
      modifies this
      ensures Valid() && events == old(events) && NothingMore(outputs, old(outputs))
      ensures !refused ==> state == Maintenance && Stopped() && safeReason == old(safeReason)
    {
      var stopped := SafeAllStop();
      if !stopped { return true; }
      SetState(Maintenance);
      return false;
    }

    method ResumeOperation(now: int, boundReached: bool) returns (refused: bool)
      requires Valid()
      modifies this
      ensures Valid() && Guarded(old(events), old(outputs), events, outputs)
      ensures old(safeReason).Some? || old(alert).Some? ==> refused && state == old(state) && outputs == old(outputs)
    {
      if safeReason.Some? || alert.Some? { return true; }
      var stopped := SafeAllStop();
      if !stopped { return true; }
      if HasLease(now) {
        SetState(SessionActive);
        var isOpen := TryOpenInputGate(boundReached);
      } else {
        SetState(Idle);
      }
      return false;
    }

    method RemoteOpenGate(now: int, boundReached: bool) returns (refused: bool)
      requires Valid()
      modifies this
      ensures Valid() && Guarded(old(events), old(outputs), events, outputs)
    {
      if state != SessionActive || !HasLease(now) || alert.Some? || boundReached { return true; }
      var isOpen := TryOpenInputGate(boundReached);
      refused := !isOpen;
    }

    /** The server ended the session: a latch, maintenance or a full bin outlives it. */
    method EndServerSession()
      requires Valid()
      modifies this
      ensures Valid() && events == old(events) && NothingMore(outputs, old(outputs)) && StoppedOrFaulted()
      ensures old(safeReason).Some? ==> safeReason.Some?
    {
      lease, processingStartedAt := None, None;
      if alert.Some? && alert.value.fraud {
        alert := None;
      }
      if state != SafeState && state != Maintenance && state != Full {
        SetState(Idle);
      }
      var stopped := SafeAllStop();
    }

    /** A new process: no fault is known yet, everything is stopped once, and a machine caught mid-item or latched stays latched. */
    method StartAfterRestart()
      requires Coherent()
      modifies this
      ensures Valid() && events == old(events) && NothingMore(outputs, old(outputs)) && StoppedOrFaulted()
      ensures old(state) == Processing || old(state) == SafeState ==> state == SafeState && safeReason.Some?
    {
      outputFault, inFlight := false, 0;
      var stopped := SafeAllStop();
      if state == Processing {
        EnterSafeState(PowerLossMidItem);
      } else if state == SafeState || state == Maintenance || state == SessionActive || state == Full || state == ErrorState {
        SetState(state);
      } else {
        SetState(Idle);
      }
    }

    /**
      Any interleaving of lock sections and unlocked stops: whatever runs was running before, or was switched on with
      latch and sensors clear and with no fault but one an unlocked stop in flight had just set.
     */
    method Run(steps: nat)
      requires Valid()
      modifies this
      ensures Valid() && Guarded(old(events), old(outputs), events, outputs)
    {
      var n := 0;
      while n < steps
        invariant Valid() && Guarded(old(events), old(outputs), events, outputs)
      {
        ghost var was, running := events, outputs;
        AnyStep();
        GuardedTransitive(old(events), old(outputs), was, running, events, outputs);
        n := n + 1;
      }
    }

    method AnyStep()
      requires Valid()
      modifies this
      ensures Valid() && Guarded(old(events), old(outputs), events, outputs)
    {
      var choice: int, bound, flag, other := *, *, *, *;
      if choice <= 4 {
        LoopOrLeaseStep(choice);
      } else if choice <= 8 {
        UnlockedStep(choice);
      } else if choice == 9 {
        EndServerSession();
      } else if choice == 10 {
        var stopped := SafeAllStop();
      } else if choice == 11 {
        var raised := CloseOutput(bound, flag, other);
      } else if choice == 12 {
        StartAfterRestart();
      } else {
        CommandStep(choice);
      }
    }

    method LoopOrLeaseStep(choice: int)
      requires Valid()
      modifies this
      ensures Valid() && Guarded(old(events), old(outputs), events, outputs)
    {
      var now: int, bound, flag, candidate: Lease, a: Actuation, done := *, *, *, *, *, *;
      if choice == 0 {
        var current;
        done, current := Tick(now);
      } else if choice == 1 {
        done := ActivateLease(candidate, flag, now, bound);
      } else if choice == 2 {
        done := RenewLease(candidate, flag, now);
      } else if choice == 3 {
        done := TryOpenInputGate(bound);
      } else {
        done := MaintenanceOutput(a);
      }
    }

    method UnlockedStep(choice: int)
      requires Valid()
      modifies this
      ensures Valid() && Guarded(old(events), old(outputs), events, outputs)
    {
      var reason: Reason := *;
      if choice == 5 || inFlight == 0 {
        BeginUnlockedStop();
      } else if choice == 6 {
        FinishSafeState(reason);
      } else if choice == 7 {
        var raised := FinishStopAll();
      } else {
        FinishUnlockedStop();
      }
    }

    method CommandStep(choice: int)
      requires Valid()
      modifies this
      ensures Valid() && Guarded(old(events), old(outputs), events, outputs)
    {
      var now: int, bound, flag, refused := *, *, *, *;
      if choice == 13 {
        refused := Reset(flag, now, bound);
      } else if choice == 14 {
        refused := EnterMaintenance();
      } else if choice == 15 {
        refused := ResumeOperation(now, bound);
      } else {
        refused := RemoteOpenGate(now, bound);
      }
    }
  }
}
