/**
 * The in-memory operations of train.go on the server state: listing,
 * lookup by access key, the in-memory part of `Train.update`, the checks
 * of a manual jump start, the switch-attempt machine and the bytes sent to
 * a train.
 */
module TrainOps {
  import opened Wrappers
  import opened ServerUtils
  import opened ServerRecords
  import opened ServerState
  import opened TrainWire
  import opened IdOrder

  /** `trainsToArray`: every train once, in ascending id order. */
  method TrainsToArray(c: Controller) returns (r: seq<Train>)
    requires c.Valid()
    ensures |r| == |c.trains|
    ensures forall i :: 0 <= i < |r| ==> r[i].id in c.trains && r[i] == c.trains[r[i].id]
    ensures forall k :: k in c.trains ==> c.trains[k] in r
    ensures forall i, j :: 0 <= i < j < |r| ==> r[i].id < r[j].id
  {
    r := ValuesInIdOrder(c.trains, (t: Train) => t.id);
  }

  /** `getTrainByAccessKey`: some train holding the key, in the map's iteration order. */
  method GetTrainByAccessKey(c: Controller, accessKey: uint32) returns (r: Option<uint8>)
    ensures r.Some? ==> r.value in c.trains && c.trains[r.value].accessKey == accessKey
    ensures r.None? <==> forall k :: k in c.trains ==> c.trains[k].accessKey != accessKey
  {
    var rest := c.trains.Keys;
    while rest != {}
      invariant rest <= c.trains.Keys
      invariant forall k :: k in c.trains && k !in rest ==> c.trains[k].accessKey != accessKey
      decreases |rest|
    {
      var k :| k in rest;
      if c.trains[k].accessKey == accessKey {
        return Some(k);
      }
      rest := rest - {k};
    }
    return None;
  }

  /** The train after `update` copies the editable fields: its name and three speeds. */
  function WithDetails(t: Train, edit: Train): (r: Train)
    ensures r.name == edit.name && r.speedSlow == edit.speedSlow && r.speedHalf == edit.speedHalf
    ensures r.speedFast == edit.speedFast
    ensures r.(name := t.name, speedSlow := t.speedSlow, speedHalf := t.speedHalf, speedFast := t.speedFast) == t
    ensures TrainIsValid(r) == TrainIsValid(edit)
  {
    t.(name := edit.name, speedSlow := edit.speedSlow, speedHalf := edit.speedHalf, speedFast := edit.speedFast)
  }

  /** The in-memory part of `Train.update` (the database write is taken to succeed). */
  method UpdateTrain(c: Controller, edit: Train) returns (e: Envelope)
    requires c.Valid()
    modifies c
    ensures e.ok <==> edit.id != 0 && TrainIsValid(edit) && edit.id in old(c.trains)
    ensures edit.id == 0 || !TrainIsValid(edit) ==> e == Fail(ERROR_CODE_DATA_NOT_VALID)
    ensures edit.id != 0 && TrainIsValid(edit) && edit.id !in old(c.trains) ==> e == Fail(ERROR_CODE_COULD_NOT_FIND_RECORD)
    ensures c.trains == if e.ok then old(c.trains)[edit.id := WithDetails(old(c.trains)[edit.id], edit)] else old(c.trains)
    ensures e.ok ==> e == Ok
    ensures c.signals == old(c.signals) && c.stretches == old(c.stretches)
    ensures c.signalList == old(c.signalList) && c.wire == old(c.wire)
    ensures c.Valid()
  {
    if edit.id == 0 || !TrainIsValid(edit) {
      return Fail(ERROR_CODE_DATA_NOT_VALID);
    }
    if edit.id !in c.trains {
      return Fail(ERROR_CODE_COULD_NOT_FIND_RECORD);
    }
    var train := c.trains[edit.id];
    train := train.(name := edit.name, speedSlow := edit.speedSlow, speedHalf := edit.speedHalf, speedFast := edit.speedFast);
    c.trains := c.trains[edit.id := train];
    return Ok;
  }

  // ----- manual jump start -----

  /** The `ManuallyJumpStartTrain` request: a train to start at a signal. */
  datatype JumpStart = JumpStart(trainId: uint8, stretchId: uint8, signalId: uint8)

  /**
   * The refusal `manuallyJumpStartTrain` gives, checked in this order: a
   * zero train id; an unknown train, stretch or signal; a train that is not
   * online; a train that has passed a signal or is running.
   */
  function JumpStartRefusal(trains: map<uint8, Train>, stretches: map<uint8, Stretch>, m: JumpStart): (code: Option<uint8>)
    ensures code == Some(ERROR_CODE_DATA_NOT_VALID) <==> m.trainId == 0
    ensures code == Some(ERROR_CODE_COULD_NOT_FIND_RECORD) <==>
              m.trainId != 0 && (m.trainId !in trains || GetSignal(stretches, SignalId(m.stretchId, m.signalId)).None?)
    ensures code == Some(ERROR_CODE_TRAIN_NOT_ONLINE) <==>
              && m.trainId != 0 && m.trainId in trains && GetSignal(stretches, SignalId(m.stretchId, m.signalId)).Some?
              && !trains[m.trainId].online
    ensures code == Some(ERROR_CODE_TRAIN_NOT_STOPPED) <==>
              && m.trainId != 0 && m.trainId in trains && GetSignal(stretches, SignalId(m.stretchId, m.signalId)).Some?
              && trains[m.trainId].online && (trains[m.trainId].lastSignal.Some? || trains[m.trainId].started)
    ensures code.None? <==>
              && m.trainId != 0 && m.trainId in trains && GetSignal(stretches, SignalId(m.stretchId, m.signalId)).Some?
              && trains[m.trainId].online && trains[m.trainId].lastSignal.None? && !trains[m.trainId].started
  {
    if m.trainId == 0 then Some(ERROR_CODE_DATA_NOT_VALID)
    else if m.trainId !in trains then Some(ERROR_CODE_COULD_NOT_FIND_RECORD)
    else if m.stretchId !in stretches then Some(ERROR_CODE_COULD_NOT_FIND_RECORD)
    else if m.signalId !in stretches[m.stretchId].signals then Some(ERROR_CODE_COULD_NOT_FIND_RECORD)
    else if !trains[m.trainId].online then Some(ERROR_CODE_TRAIN_NOT_ONLINE)
    else if trains[m.trainId].lastSignal.Some? || trains[m.trainId].started then Some(ERROR_CODE_TRAIN_NOT_STOPPED)
    else None
  }

  /**
   * `manuallyJumpStartTrain` up to its call of `enterZone`: on success the
   * train is started with no signal passed and no stop requested, and the
   * signal it is to enter is returned.
   */
  method ManuallyJumpStartTrain(c: Controller, m: JumpStart) returns (e: Envelope, enter: Option<SignalId>)
    requires c.Valid()
    modifies c
    ensures e.ok <==> JumpStartRefusal(old(c.trains), old(c.stretches), m).None?
    ensures !e.ok ==> e == Fail(JumpStartRefusal(old(c.trains), old(c.stretches), m).value)
                      && enter.None? && c.trains == old(c.trains)
    ensures e.ok ==> && e == Ok && enter == Some(SignalId(m.stretchId, m.signalId)) && enter.value in c.signals
                     && c.trains == old(c.trains)[m.trainId := old(c.trains)[m.trainId].(started := true,
                          lastSignal := None, lastSignalPassedAspect := None, stopAtSignal := false, signalToStopAt := None)]
    ensures c.signals == old(c.signals) && c.stretches == old(c.stretches)
    ensures c.signalList == old(c.signalList) && c.wire == old(c.wire)
    ensures c.Valid()
  {
    if m.trainId == 0 {
      return Fail(ERROR_CODE_DATA_NOT_VALID), None;
    }
    if m.trainId !in c.trains {
      return Fail(ERROR_CODE_COULD_NOT_FIND_RECORD), None;
    }
    var train := c.trains[m.trainId];
    if m.stretchId !in c.stretches {
      return Fail(ERROR_CODE_COULD_NOT_FIND_RECORD), None;
    }
    var stretch := c.stretches[m.stretchId];
    if m.signalId !in stretch.signals {
      return Fail(ERROR_CODE_COULD_NOT_FIND_RECORD), None;
    }
    if !train.online {
      return Fail(ERROR_CODE_TRAIN_NOT_ONLINE), None;
    }
    if train.lastSignal.Some? || train.started {
      return Fail(ERROR_CODE_TRAIN_NOT_STOPPED), None;
    }
    // The train has passed no signal here, so no zone is freed.
    train := train.(started := true, lastSignal := None, lastSignalPassedAspect := None,
                    stopAtSignal := false, signalToStopAt := None);
    c.trains := c.trains[m.trainId := train];
    return Ok, Some(SignalId(m.stretchId, m.signalId));
  }

  // ----- bytes to the train -----

  /** What `sendMessageToTrain` writes: the framed message when the train is online, nothing otherwise. */
  function Sent(t: Train, message: seq<uint8>): (w: seq<TrainWrite>)
    ensures t.online ==> w == [TrainWrite(t.id, TrainFrame(message))]
    ensures !t.online ==> w == []
  {
    if t.online then [TrainWrite(t.id, TrainFrame(message))] else []
  }

  method SendMessageToTrain(c: Controller, trainId: uint8, message: seq<uint8>)
    requires c.Valid() && trainId in c.trains
    modifies c
    ensures c.trains == old(c.trains) && c.signals == old(c.signals) && c.stretches == old(c.stretches)
    ensures c.wire == old(c.wire) + Sent(c.trains[trainId], message)
    ensures c.signalList == old(c.signalList)
    ensures c.Valid()
  {
    var t := c.trains[trainId];
    if !t.online {
      return;
    }
    c.wire := c.wire + [TrainWrite(trainId, TrainFrame(message))];
  }

  /** The frames a train is sent are the ones its reader reads back, message for message. */
  lemma SentIsReadBack(t: Train, message: seq<uint8>, rest: seq<uint8>)
    requires t.online && 0 < |message| < 0x100
    ensures |Sent(t, message)| == 1 && ReadFrames(Sent(t, message)[0].bytes + rest) == [message] + ReadFrames(rest)
  {
    ReadFrameOfFrame(message, rest);
  }

  // ----- the switch-attempt machine -----

  /**
   * `switchSwitchPosition`: nothing unless the signal is a switch with a
   * change queued; otherwise the switch is marked as switching, the train's
   * attempt counter goes up (wrapping at 256) and the train is told the
   * position to switch to.
   */
  method SwitchSwitchPosition(c: Controller, trainId: uint8, sid: SignalId)
    requires c.Valid() && trainId in c.trains && sid in c.signals
    modifies c
    ensures !StartsSwitching(old(c.signals)[sid]) ==> c.signals == old(c.signals) && c.trains == old(c.trains) && c.wire == old(c.wire)
    ensures StartsSwitching(old(c.signals)[sid]) ==>
              var s := old(c.signals)[sid];
              var t := old(c.trains)[trainId];
              && c.signals == old(c.signals)[sid := s.(currentlySwitching := true)]
              && c.trains == old(c.trains)[trainId := t.(switchAttempt := Inc8(t.switchAttempt))]
              && c.wire == old(c.wire) + Sent(t, [SwitchOpcode(s)])
    ensures c.stretches == old(c.stretches) && c.signalList == old(c.signalList)
    ensures c.Valid()
  {
    var s := c.signals[sid];
    if !s.isSwitch || !s.queuedForSwitching {
      return;
    }
    MarkSwitching(c, sid);
    CountAttempt(c, trainId);
    var message: seq<uint8>;
    if s.passthrough {
      message := [GC_TI_SWITCH_DETOUR];
    } else {
      message := [GC_TI_SWITCH_PASSTHROUGH];
    }
    SendMessageToTrain(c, trainId, message);
  }

  /** The switch is marked as switching. */
  method MarkSwitching(c: Controller, sid: SignalId)
    requires c.Valid() && sid in c.signals
    modifies c
    ensures c.signals == old(c.signals)[sid := old(c.signals)[sid].(currentlySwitching := true)]
    ensures c.trains == old(c.trains) && c.wire == old(c.wire)
    ensures c.stretches == old(c.stretches) && c.signalList == old(c.signalList)
    ensures c.Valid()
  {
    c.signals := c.signals[sid := c.signals[sid].(currentlySwitching := true)];
  }

  /** The train's attempt counter goes up, wrapping at 256. */
  method CountAttempt(c: Controller, trainId: uint8)
    requires c.Valid() && trainId in c.trains
    modifies c
    ensures c.trains == old(c.trains)[trainId := old(c.trains)[trainId].(switchAttempt := Inc8(old(c.trains)[trainId].switchAttempt))]
    ensures c.signals == old(c.signals) && c.wire == old(c.wire)
    ensures c.stretches == old(c.stretches) && c.signalList == old(c.signalList)
    ensures c.Valid()
  {
    var t := c.trains[trainId];
    c.trains := c.trains[trainId := t.(switchAttempt := (t.switchAttempt as int + 1) % 0x100)];
  }

  /** `onPositionSwitchedSuccessfully`: the switch the train last passed completes its change. */
  method OnPositionSwitchedSuccessfully(c: Controller, trainId: uint8)
    requires c.Valid() && trainId in c.trains
    modifies c
    ensures var last := old(c.trains)[trainId].lastSignal;
      c.signals == if last.Some? && old(c.signals)[last.value].isSwitch
                   then old(c.signals)[last.value := SwitchSucceeded(old(c.signals)[last.value])]
                   else old(c.signals)
    ensures c.trains == old(c.trains) && c.stretches == old(c.stretches)
    ensures c.signalList == old(c.signalList) && c.wire == old(c.wire)
    ensures c.Valid()
  {
    var last := c.trains[trainId].lastSignal;
    if last.None? || !c.signals[last.value].isSwitch {
      return;
    }
    var s := c.signals[last.value];
    c.signals := c.signals[last.value := s.(queuedForSwitching := false, currentlySwitching := false,
                                            passthrough := !s.passthrough)];
  }

  /** What `onPositionSwitchedFailure` does next. */
  datatype FailureStep =
    | MarkFailed(sid: SignalId)        // give up: the switch is marked as failed
    | Retry(target: Option<SignalId>)  // call `switchSwitchPosition` on the train's last signal
    | Ignore                           // nothing

  /**
   * As train.go writes it: give up on a switch once the attempts reach the
   * maximum, and otherwise call `switchSwitchPosition` on the last signal,
   * even when there is none — a nil dereference in Go.
   */
  function FailureStepAsWritten(t: Train, signals: map<SignalId, Signal>, maxAttempts: uint8): (step: FailureStep)
    ensures step.MarkFailed? <==> t.lastSignal.Some? && t.lastSignal.value in signals
                                   && signals[t.lastSignal.value].isSwitch && t.switchAttempt >= maxAttempts
    ensures step.Retry? ==> step.target == t.lastSignal
  {
    if t.lastSignal.Some? && t.lastSignal.value in signals && signals[t.lastSignal.value].isSwitch
       && t.switchAttempt >= maxAttempts then
      MarkFailed(t.lastSignal.value)
    else Retry(t.lastSignal)
  }

  /** A failure report from a train that has passed no signal makes the as-written code dereference nil. */
  lemma FailureWithoutSignalRetriesNil(t: Train, signals: map<SignalId, Signal>, maxAttempts: uint8)
    requires t.lastSignal.None?
    ensures FailureStepAsWritten(t, signals, maxAttempts) == Retry(None)
  {
  }

  /** The intended step: as written, but a train with no last signal has nothing to retry. */
  function FailureStepOf(t: Train, signals: map<SignalId, Signal>, maxAttempts: uint8): (step: FailureStep)
    ensures step.MarkFailed? <==> t.lastSignal.Some? && t.lastSignal.value in signals
                                   && signals[t.lastSignal.value].isSwitch && t.switchAttempt >= maxAttempts
    ensures step.Ignore? <==> t.lastSignal.None?
    ensures step.Retry? ==> step.target == t.lastSignal && step.target.Some?
    ensures t.lastSignal.Some? ==> step == FailureStepAsWritten(t, signals, maxAttempts)
  {
    if t.lastSignal.None? then Ignore else FailureStepAsWritten(t, signals, maxAttempts)
  }

  /**
   * `onPositionSwitchedFailure` with the nil case ignored: after the maximum
   * number of attempts the switch is marked as failed, before it the change
   * is sent again.
   */
  method OnPositionSwitchedFailure(c: Controller, trainId: uint8, maxAttempts: uint8)
    requires c.Valid() && trainId in c.trains
    modifies c
    ensures var step := FailureStepOf(old(c.trains)[trainId], old(c.signals), maxAttempts);
      match step
      case MarkFailed(sid) =>
        && c.signals == old(c.signals)[sid := old(c.signals)[sid].(switchFailure := true)]
        && c.trains == old(c.trains) && c.wire == old(c.wire)
      case Ignore => c.signals == old(c.signals) && c.trains == old(c.trains) && c.wire == old(c.wire)
      case Retry(target) =>
        var s := old(c.signals)[target.value];
        var t := old(c.trains)[trainId];
        if StartsSwitching(s) then
          && c.signals == old(c.signals)[target.value := s.(currentlySwitching := true)]
          && c.trains == old(c.trains)[trainId := t.(switchAttempt := Inc8(t.switchAttempt))]
          && c.wire == old(c.wire) + Sent(t, [SwitchOpcode(s)])
        else c.signals == old(c.signals) && c.trains == old(c.trains) && c.wire == old(c.wire)
    ensures c.stretches == old(c.stretches) && c.signalList == old(c.signalList)
    ensures c.Valid()
  {
    var t := c.trains[trainId];
    if t.lastSignal.Some? && c.signals[t.lastSignal.value].isSwitch && t.switchAttempt >= maxAttempts {
      var s := c.signals[t.lastSignal.value];
      c.signals := c.signals[t.lastSignal.value := s.(switchFailure := true)];
      return;
    }
    if t.lastSignal.None? {
      return;
    }
    SwitchSwitchPosition(c, trainId, t.lastSignal.value);
  }
}
