/**
 * The server's records (signal.go, train.go, stretch.go) and the logic that
 * reads one record at a time: validators, the speed a train is given, the
 * route a signal sends a train on, and the steps of the switch machine.
 * A Go pointer to a signal is the signal's `SignalId`; a pointer to a train
 * is its `Id`. Mutexes are erased.
 */
module ServerRecords {
  import opened Wrappers
  import opened ServerUtils

  // `SignalAspect`.
  const SIGNAL_CLEAR: uint8 := 0
  const SIGNAL_PRELIMINARY_CAUTION: uint8 := 1
  const SIGNAL_CAUTION: uint8 := 2
  const SIGNAL_DANGER: uint8 := 3

  // `StretchType`.
  const STRETCH_TYPE_UNKNOWN: uint8 := 0
  const STRETCH_TYPE_ONE_WAY_SINGLE_TRACK: uint8 := 1
  const STRETCH_TYPE_INVALID: uint8 := 2

  // Train to ground control opcodes (model_train.go).
  const TI_GC_REED_SWITCH_TRIGGERED: uint8 := 1
  const TI_GC_SWITCH_SUCCESS: uint8 := 2
  const TI_GC_SWITCH_FAILURE: uint8 := 3

  // Ground control to train opcodes (model_train.go).
  const GC_TI_FORWARD: uint8 := 1
  const GC_TI_BACKWARD: uint8 := 2
  const GC_TI_FAST_STOP: uint8 := 3
  const GC_TI_SWITCH_PASSTHROUGH: uint8 := 4
  const GC_TI_SWITCH_DETOUR: uint8 := 5

  datatype SignalId = SignalId(stretchId: uint8, id: uint8)

  datatype Signal = Signal(
    stretchId: uint8, id: uint8, name: string,
    speedLimit: uint8,                      // 0 = slow, 1 = half, 2 = fast
    isSwitch: bool,
    splitter: Option<bool>,                 // a switch's kind: splitter (true) or merger (false)
    stretchDetourId: Option<uint8>, signalDetourId: Option<uint8>, signalDetour: Option<SignalId>,
    loopsBack: bool,
    stretchLoopBackId: Option<uint8>, signalLoopBackId: Option<uint8>, signalLoopBack: Option<SignalId>,
    passthrough: bool,                      // true = passthrough, false = detour
    queuedForSwitching: bool, currentlySwitching: bool, switchFailure: bool,
    previousSignal: Option<SignalId>, nextSignal: Option<SignalId>,
    zoneOccupied: bool, zoneOccupiedBy: Option<uint8>,
    forceRed: bool, aspect: uint8)

  datatype Train = Train(
    id: uint8, name: string, speedSlow: uint8, speedHalf: uint8, speedFast: uint8,
    accessKey: uint32, online: bool,
    lastSignal: Option<SignalId>, lastSignalPassedAspect: Option<uint8>,
    started: bool, stopAtSignal: bool, signalToStopAt: Option<SignalId>,
    switchAttempt: uint8)

  /** A stretch and the ids of the signals in its `Signals` map. */
  datatype Stretch = Stretch(id: uint8, name: string, stretchType: uint8, signals: set<uint8>)

  // ----- validators -----

  function SignalIdIsValid(s: SignalId): (ok: bool)
    ensures ok <==> s.stretchId != 0 && s.id != 0
  {
    !(s.stretchId == 0 || s.id == 0)
  }

  /** `Signal.isValid`. */
  function SignalIsValid(s: Signal): (ok: bool)
    ensures ok <==>
              && s.stretchId != 0 && 1 <= |s.name| <= 50 && s.speedLimit <= 2
              && !(s.isSwitch && s.loopsBack)
              && (s.isSwitch ==> s.splitter.Some? && s.stretchDetourId.Some? && s.signalDetourId.Some?)
              && (s.loopsBack ==>
                    && s.stretchLoopBackId.Some? && s.signalLoopBackId.Some?
                    && SignalId(s.stretchLoopBackId.value, s.signalLoopBackId.value) != SignalId(s.stretchId, s.id))
  {
    !(s.stretchId == 0 || |s.name| == 0 || |s.name| > 50 || s.speedLimit > 2 || (s.isSwitch && s.loopsBack)
      || (s.isSwitch && (s.splitter.None? || s.stretchDetourId.None? || s.signalDetourId.None?))
      || (s.loopsBack && (s.stretchLoopBackId.None? || s.signalLoopBackId.None?
                          || (s.stretchId == s.stretchLoopBackId.value && s.id == s.signalLoopBackId.value))))
  }

  /** `Train.isValid`; the speeds are bytes, so the fast speed is at most 255 by its type. */
  function TrainIsValid(t: Train): (ok: bool)
    ensures ok <==> 1 <= |t.name| <= 50 && t.speedSlow != 0 && t.speedSlow < t.speedHalf < t.speedFast
  {
    !(|t.name| == 0 || |t.name| > 50 || t.speedSlow == 0 || t.speedHalf <= t.speedSlow || t.speedFast <= t.speedHalf)
  }

  /** `Stretch.isValid`: strictly between UNKNOWN and INVALID leaves one type. */
  function StretchIsValid(s: Stretch): (ok: bool)
    ensures ok <==> 1 <= |s.name| <= 50 && s.stretchType == STRETCH_TYPE_ONE_WAY_SINGLE_TRACK
  {
    !(|s.name| == 0 || |s.name| > 50 || s.stretchType <= STRETCH_TYPE_UNKNOWN || s.stretchType >= STRETCH_TYPE_INVALID)
  }

  // ----- speeds -----

  /** `calcTrainSpeed`: the train's speed for a zone's speed limit. */
  function CalcTrainSpeed(t: Train, speedLimit: uint8): (speed: uint8)
    ensures speedLimit == 0 ==> speed == t.speedSlow
    ensures speedLimit == 1 ==> speed == t.speedHalf
    ensures speedLimit == 2 ==> speed == t.speedFast
    ensures speedLimit > 2 ==> speed == 0
  {
    match speedLimit
    case 0 => t.speedSlow
    case 1 => t.speedHalf
    case 2 => t.speedFast
    case _ => 0
  }

  /** `calcTrainSpeedOnSignal`: the speed limited further by the aspect passed. */
  function CalcTrainSpeedOnSignal(t: Train, signalAspect: uint8, speedLimit: uint8): (speed: uint8)
    ensures signalAspect <= SIGNAL_PRELIMINARY_CAUTION ==> speed == CalcTrainSpeed(t, speedLimit)
    ensures signalAspect == SIGNAL_CAUTION ==> speed == MinUInt8(t.speedHalf, CalcTrainSpeed(t, speedLimit))
    ensures signalAspect > SIGNAL_CAUTION ==> speed == 0
  {
    var absoluteTrainSpeed := CalcTrainSpeed(t, speedLimit);
    if signalAspect == SIGNAL_CLEAR || signalAspect == SIGNAL_PRELIMINARY_CAUTION then absoluteTrainSpeed
    else if signalAspect == SIGNAL_CAUTION then MinUInt8(t.speedHalf, absoluteTrainSpeed)
    else 0
  }

  /** For a valid train no speed exceeds the fast speed, none exceeds the half speed under Caution, and Danger stops it. */
  lemma SpeedOnSignalBounded(t: Train, signalAspect: uint8, speedLimit: uint8)
    requires TrainIsValid(t)
    ensures CalcTrainSpeedOnSignal(t, signalAspect, speedLimit) <= t.speedFast
    ensures signalAspect == SIGNAL_CAUTION ==> CalcTrainSpeedOnSignal(t, signalAspect, speedLimit) <= t.speedHalf
    ensures signalAspect == SIGNAL_DANGER ==> CalcTrainSpeedOnSignal(t, signalAspect, speedLimit) == 0
  {
    var absolute := CalcTrainSpeed(t, speedLimit);
    assert absolute <= t.speedFast;
  }

  // ----- routes -----

  /** Only a switch of known kind may be asked its route: a switch with no kind is a nil dereference. */
  predicate HasKind(s: Signal)
  {
    s.isSwitch ==> s.splitter.Some?
  }

  /**
   * `getNextSignal`: a splitter sends the train on the detour when it is in
   * detour position, or when it is queued to leave passthrough position;
   * anything else sends it on to the next signal.
   */
  function GetNextSignal(s: Signal): (next: Option<SignalId>)
    requires HasKind(s)
    ensures !(s.isSwitch && s.splitter.value) ==> next == s.nextSignal
    ensures s.isSwitch && s.splitter.value && !s.queuedForSwitching ==>
              next == (if s.passthrough then s.nextSignal else s.signalDetour)
    ensures s.isSwitch && s.splitter.value && s.queuedForSwitching ==>
              next == (if s.passthrough then s.signalDetour else s.nextSignal)
  {
    if s.isSwitch && s.splitter.value then
      if s.queuedForSwitching then
        if s.passthrough then s.signalDetour else s.nextSignal
      else if !s.passthrough then s.signalDetour
      else s.nextSignal
    else s.nextSignal
  }

  // ----- the switch machine, one signal at a time -----

  /** `switchDetour`: refused when the zone is occupied, the switch is already in detour, or a change is queued. */
  function QueueDetour(s: Signal): (r: Option<Signal>)
    ensures r.Some? <==> !s.zoneOccupied && s.passthrough && !s.queuedForSwitching
    ensures r.Some? ==> && r.value.queuedForSwitching && r.value.aspect == SIGNAL_DANGER
                        && r.value.passthrough == s.passthrough
                        && r.value.(queuedForSwitching := false, aspect := s.aspect) == s
  {
    if s.zoneOccupied then None
    else if !s.passthrough || s.queuedForSwitching then None
    else Some(s.(queuedForSwitching := true, aspect := SIGNAL_DANGER))
  }

  /** `switchPassthrough`: the mirror image, refused when already in passthrough. */
  function QueuePassthrough(s: Signal): (r: Option<Signal>)
    ensures r.Some? <==> !s.zoneOccupied && !s.passthrough && !s.queuedForSwitching
    ensures r.Some? ==> && r.value.queuedForSwitching && r.value.aspect == SIGNAL_DANGER
                        && r.value.passthrough == s.passthrough
                        && r.value.(queuedForSwitching := false, aspect := s.aspect) == s
  {
    if s.zoneOccupied then None
    else if s.passthrough || s.queuedForSwitching then None
    else Some(s.(queuedForSwitching := true, aspect := SIGNAL_DANGER))
  }

  /** Neither command looks at whether the signal is a switch at all. */
  lemma QueueIgnoresSwitchFlag(s: Signal)
    ensures QueueDetour(s).Some? == QueueDetour(s.(isSwitch := !s.isSwitch)).Some?
    ensures QueuePassthrough(s).Some? == QueuePassthrough(s.(isSwitch := !s.isSwitch)).Some?
  {
  }

  /** The byte `switchSwitchPosition` sends: to the other position. */
  function SwitchOpcode(s: Signal): (op: uint8)
    ensures op == (if s.passthrough then GC_TI_SWITCH_DETOUR else GC_TI_SWITCH_PASSTHROUGH)
  {
    if s.passthrough then GC_TI_SWITCH_DETOUR else GC_TI_SWITCH_PASSTHROUGH
  }

  /** True when `switchSwitchPosition` acts on the signal: a switch with a change queued. */
  predicate StartsSwitching(s: Signal)
  {
    s.isSwitch && s.queuedForSwitching
  }

  /** `onPositionSwitchedSuccessfully` on the signal: the change is done and the position flips. */
  function SwitchSucceeded(s: Signal): (r: Signal)
    ensures !r.queuedForSwitching && !r.currentlySwitching && r.passthrough == !s.passthrough
    ensures r.(queuedForSwitching := s.queuedForSwitching, currentlySwitching := s.currentlySwitching,
               passthrough := s.passthrough) == s
  {
    s.(queuedForSwitching := false, currentlySwitching := false, passthrough := !s.passthrough)
  }

  /**
   * A whole cycle on a switch: queueing a change, starting it and its success
   * leave the switch idle in the other position, and the byte sent names
   * that position.
   */
  lemma SwitchCycleFlipsPosition(s: Signal)
    requires s.isSwitch
    ensures QueueDetour(s).Some? ==>
              var q := QueueDetour(s).value;
              && StartsSwitching(q) && SwitchOpcode(q) == GC_TI_SWITCH_DETOUR
              && var done := SwitchSucceeded(q.(currentlySwitching := true));
              !done.passthrough && !done.queuedForSwitching && !done.currentlySwitching
    ensures QueuePassthrough(s).Some? ==>
              var q := QueuePassthrough(s).value;
              && StartsSwitching(q) && SwitchOpcode(q) == GC_TI_SWITCH_PASSTHROUGH
              && var done := SwitchSucceeded(q.(currentlySwitching := true));
              done.passthrough && !done.queuedForSwitching && !done.currentlySwitching
  {
  }

  /**
   * While a change is queued on a splitter, the route it gives is the one it
   * will give once the change succeeds: a train is routed to where the
   * switch is about to point.
   */
  lemma QueuedRouteIsFinalRoute(s: Signal)
    requires s.isSwitch && s.splitter == Some(true)
    ensures QueueDetour(s).Some? ==>
              var q := QueueDetour(s).value;
              && GetNextSignal(q) == s.signalDetour
              && GetNextSignal(SwitchSucceeded(q.(currentlySwitching := true))) == s.signalDetour
    ensures QueuePassthrough(s).Some? ==>
              var q := QueuePassthrough(s).value;
              && GetNextSignal(q) == s.nextSignal
              && GetNextSignal(SwitchSucceeded(q.(currentlySwitching := true))) == s.nextSignal
  {
    if QueueDetour(s).Some? {
      var q := QueueDetour(s).value;
      assert q.passthrough && q.queuedForSwitching && q.isSwitch && q.splitter == Some(true);
      assert q.signalDetour == s.signalDetour;
    }
    if QueuePassthrough(s).Some? {
      var q := QueuePassthrough(s).value;
      assert !q.passthrough && q.queuedForSwitching && q.isSwitch && q.splitter == Some(true);
      assert q.nextSignal == s.nextSignal;
    }
  }

  /** `Signal.initialize` on a signal just read from the database, which has no links yet. */
  function Initialized(v: Signal): (r: Signal)
    ensures !r.zoneOccupied && r.zoneOccupiedBy.None? && r.passthrough
    ensures v.isSwitch ==> !r.queuedForSwitching
    ensures !v.isSwitch ==> r.queuedForSwitching == v.queuedForSwitching
    ensures v.nextSignal.None? ==> r.aspect == SIGNAL_DANGER
    ensures v.nextSignal.Some? ==> r.aspect == v.aspect
    ensures r.(zoneOccupied := v.zoneOccupied, zoneOccupiedBy := v.zoneOccupiedBy, passthrough := v.passthrough,
               queuedForSwitching := v.queuedForSwitching, aspect := v.aspect) == v
  {
    var s := v.(zoneOccupied := false, zoneOccupiedBy := None, passthrough := true);
    var s := if s.isSwitch then s.(queuedForSwitching := false, passthrough := true) else s;
    if s.nextSignal.None? then s.(aspect := SIGNAL_DANGER) else s
  }
}
