/**
 * A train's TCP connection (model_train.go): authentication by a 4-byte
 * little-endian access key, the read loop of size-prefixed frames, the
 * dispatch of each frame on its first byte, and the train's state on
 * connecting and on disconnecting. The connection is the sequence of bytes
 * the train sends before it hangs up.
 */
module TrainLink {
  import opened Wrappers
  import opened ServerUtils
  import opened ServerRecords
  import opened ServerState
  import opened TrainWire
  import opened SignalOps
  import opened TrainOps

  /**
   * `authenticateTrain`: `io.ReadFull` of four bytes, which fails when the
   * stream ends first, then the train whose access key those bytes encode.
   * `rest` is what the connection holds after the key.
   */
  method AuthenticateTrain(c: Controller, stream: seq<uint8>) returns (train: Option<uint8>, rest: seq<uint8>)
    ensures |stream| < 4 ==> train.None?
    ensures |stream| >= 4 ==> rest == stream[4..]
    ensures |stream| >= 4 && train.Some? ==>
              train.value in c.trains && c.trains[train.value].accessKey == LeUint32(stream[..4])
    ensures |stream| >= 4 ==>
              (train.None? <==> forall k :: k in c.trains ==> c.trains[k].accessKey != LeUint32(stream[..4]))
  {
    var readData := 0;
    var buffer: seq<uint8> := [];
    rest := stream;
    while readData < 4
      invariant readData == 0 || readData == 4
      invariant |buffer| == readData <= |stream| && buffer == stream[..readData] && rest == stream[readData..]
      decreases 4 - readData
    {
      if |rest| < 4 {
        return None, rest;
      }
      var dataBuffer := rest[..4];
      var read := |dataBuffer|;
      rest := rest[read..];
      readData := readData + read;
      buffer := buffer + dataBuffer;
    }
    var accessKey := LeUint32(buffer[..4]);
    train := GetTrainByAccessKey(c, accessKey);
  }

  /** A train that opens with the bytes of its key is asked about exactly that key. */
  lemma GreetingCarriesKey(key: uint32, rest: seq<uint8>)
    ensures |LeBytes(key) + rest| >= 4
    ensures LeUint32((LeBytes(key) + rest)[..4]) == key
    ensures (LeBytes(key) + rest)[4..] == rest
  {
    assert (LeBytes(key) + rest)[..4] == LeBytes(key);
    LeUint32OfLeBytes(key);
  }

  /** What `onMicrocontrollerMessage` does with a frame. */
  datatype Reaction =
    | ReedSwitch(payload: seq<uint8>)  // `trainReedSwitchTriggered` with the bytes after the opcode
    | SwitchSuccess                    // `onPositionSwitchedSuccessfully`
    | SwitchFailure                    // `onPositionSwitchedFailure`
    | NoReaction

  /** The opcode switch of `onMicrocontrollerMessage`: an empty frame and an unknown first byte do nothing. */
  function ReactionOf(buffer: seq<uint8>): (r: Reaction)
    ensures r.NoReaction? <==> |buffer| == 0 || buffer[0] !in {TI_GC_REED_SWITCH_TRIGGERED, TI_GC_SWITCH_SUCCESS, TI_GC_SWITCH_FAILURE}
    ensures r.ReedSwitch? <==> |buffer| > 0 && buffer[0] == TI_GC_REED_SWITCH_TRIGGERED
    ensures r.ReedSwitch? ==> [buffer[0]] + r.payload == buffer
    ensures r.SwitchSuccess? <==> |buffer| > 0 && buffer[0] == TI_GC_SWITCH_SUCCESS
    ensures r.SwitchFailure? <==> |buffer| > 0 && buffer[0] == TI_GC_SWITCH_FAILURE
  {
    if |buffer| == 0 then NoReaction
    else if buffer[0] == TI_GC_REED_SWITCH_TRIGGERED then ReedSwitch(buffer[1..])
    else if buffer[0] == TI_GC_SWITCH_SUCCESS then SwitchSuccess
    else if buffer[0] == TI_GC_SWITCH_FAILURE then SwitchFailure
    else NoReaction
  }

  /** A report the train frames is read by the server as one frame with that report's reaction. */
  lemma ReportIsDispatched(report: seq<uint8>, rest: seq<uint8>)
    requires 0 < |report| < 0x100
    ensures var frames := ReadFrames(TrainFrame(report) + rest);
      && |frames| > 0 && frames[0] == report && frames[1..] == ReadFrames(rest)
      && ReactionOf(frames[0]) == ReactionOf(report)
  {
    ReadFrameOfFrame(report, rest);
  }

  /**
   * `trainReedSwitchTriggered`: only a started train that has passed a
   * signal moves on, into the zone of that signal's next signal (which may
   * be none). The result is the argument handed to `enterZone`.
   */
  function ReedSwitchStep(t: Train, signals: map<SignalId, Signal>): (enter: Option<Option<SignalId>>)
    requires t.lastSignal.Some? ==> t.lastSignal.value in signals && HasKind(signals[t.lastSignal.value])
    ensures enter.Some? <==> t.started && t.lastSignal.Some?
    ensures enter.Some? ==> enter.value == GetNextSignal(signals[t.lastSignal.value])
  {
    if t.started && t.lastSignal.Some? then Some(GetNextSignal(signals[t.lastSignal.value])) else None
  }

  /** A stopped train, or one that has passed no signal, ignores its reed switch. */
  lemma IdleTrainIgnoresReedSwitch(t: Train, signals: map<SignalId, Signal>)
    requires t.lastSignal.Some? ==> t.lastSignal.value in signals && HasKind(signals[t.lastSignal.value])
    requires !t.started || t.lastSignal.None?
    ensures ReedSwitchStep(t, signals).None?
  {
  }

  /**
   * `onMicrocontrollerMessage`, run to completion before the next frame is
   * read. A reed-switch report changes no state here and returns the zone
   * to enter, which `enterZone` would then take.
   */
  method OnMicrocontrollerMessage(c: Controller, trainId: uint8, buffer: seq<uint8>, maxAttempts: uint8)
    returns (enter: Option<Option<SignalId>>)
    requires c.Valid() && trainId in c.trains
    modifies c
    ensures !ReactionOf(buffer).ReedSwitch? ==> enter.None?
    ensures ReactionOf(buffer).ReedSwitch? ==> enter == ReedSwitchStep(old(c.trains)[trainId], old(c.signals))
    ensures ReactionOf(buffer).NoReaction? || ReactionOf(buffer).ReedSwitch? ==>
              c.trains == old(c.trains) && c.signals == old(c.signals) && c.wire == old(c.wire)
    ensures ReactionOf(buffer).SwitchSuccess? ==>
              var last := old(c.trains)[trainId].lastSignal;
              && c.trains == old(c.trains) && c.wire == old(c.wire)
              && c.signals == if last.Some? && old(c.signals)[last.value].isSwitch
                              then old(c.signals)[last.value := SwitchSucceeded(old(c.signals)[last.value])]
                              else old(c.signals)
    ensures ReactionOf(buffer).SwitchFailure? ==>
              match FailureStepOf(old(c.trains)[trainId], old(c.signals), maxAttempts)
              case MarkFailed(sid) =>
                && c.signals == old(c.signals)[sid := old(c.signals)[sid].(switchFailure := true)]
                && c.trains == old(c.trains) && c.wire == old(c.wire)
              case Ignore => c.signals == old(c.signals) && c.trains == old(c.trains) && c.wire == old(c.wire)
              case Retry(target) =>
                var s := old(c.signals)[target.value];
                var t := old(c.trains)[trainId];
                if StartsSwitching(s) then
                  && c.signals == old(c.signals)[target.value := s.(currentlySwitching := true)]
                  && c.trains == old(c.trains)[trainId := t.(switchAttempt := Inc8(t.switchAttempt))]
                  && c.wire == old(c.wire) + Sent(t, [SwitchOpcode(s)])
                else c.signals == old(c.signals) && c.trains == old(c.trains) && c.wire == old(c.wire)
    ensures c.trains.Keys == old(c.trains).Keys
    ensures c.stretches == old(c.stretches) && c.signalList == old(c.signalList)
    ensures c.Valid()
  {
    match ReactionOf(buffer)
    case ReedSwitch(_) =>
      enter := ReedSwitchStep(c.trains[trainId], c.signals);
    case SwitchSuccess =>
      OnPositionSwitchedSuccessfully(c, trainId);
      enter := None;
    case SwitchFailure =>
      OnPositionSwitchedFailure(c, trainId, maxAttempts);
      enter := None;
    case NoReaction =>
      enter := None;
  }

  /**
   * `handleTrainMessages`: read a size byte, skip it when it is 0, read that
   * many bytes and hand them to `onMicrocontrollerMessage`, until the
   * connection ends. `frames` are the frames read, in order.
   */
  method HandleTrainMessages(c: Controller, trainId: uint8, stream: seq<uint8>, maxAttempts: uint8)
    returns (frames: seq<seq<uint8>>)
    requires c.Valid() && trainId in c.trains
    modifies c
    ensures frames == ReadFrames(stream)
    ensures c.trains.Keys == old(c.trains).Keys
    ensures c.stretches == old(c.stretches) && c.signalList == old(c.signalList)
    ensures c.Valid()
  {
    var rest := stream;
    frames := [];
    while |rest| > 0
      invariant frames + ReadFrames(rest) == ReadFrames(stream)
      invariant c.trains.Keys == old(c.trains).Keys && trainId in c.trains
      invariant c.stretches == old(c.stretches) && c.signalList == old(c.signalList)
      invariant c.Valid()
      decreases |rest|
    {
      var size := rest[0];
      if size == 0 {
        assert ReadFrames(rest) == ReadFrames(rest[1..]) by { ReadFramesStep(rest); }
        rest := rest[1..];
        continue;
      }
      if |rest| - 1 < size as int {
        assert ReadFrames(rest) == [] by { ReadFramesStep(rest); }
        return;
      }
      var buffer := rest[1..1 + size as int];
      assert ReadFrames(rest) == [buffer] + ReadFrames(rest[1 + size as int..]) by { ReadFramesStep(rest); }
      ConcatFrames(frames, buffer, ReadFrames(rest[1 + size as int..]));
      rest := rest[1 + size as int..];
      frames := frames + [buffer];
      HandleFrame(c, trainId, buffer, maxAttempts);
    }
  }

  /** The frame handed on from the read loop; what the loop keeps of its effect. */
  method HandleFrame(c: Controller, trainId: uint8, buffer: seq<uint8>, maxAttempts: uint8)
    requires c.Valid() && trainId in c.trains
    modifies c
    ensures c.trains.Keys == old(c.trains).Keys
    ensures c.stretches == old(c.stretches) && c.signalList == old(c.signalList)
    ensures c.Valid()
  {
    var _ := OnMicrocontrollerMessage(c, trainId, buffer, maxAttempts);
  }

  lemma ConcatFrames(frames: seq<seq<uint8>>, frame: seq<uint8>, later: seq<seq<uint8>>)
    ensures frames + ([frame] + later) == (frames + [frame]) + later
  {
  }

  /** On connecting the train is marked online. */
  method Connect(c: Controller, trainId: uint8)
    requires c.Valid() && trainId in c.trains
    modifies c
    ensures c.trains == old(c.trains)[trainId := old(c.trains)[trainId].(online := true)]
    ensures c.signals == old(c.signals) && c.stretches == old(c.stretches)
    ensures c.signalList == old(c.signalList) && c.wire == old(c.wire)
    ensures c.Valid()
  {
    c.trains := c.trains[trainId := c.trains[trainId].(online := true)];
  }

  /** The train after it disconnects: offline, stopped, and past no signal. */
  function Disconnected(t: Train): (r: Train)
    ensures !r.online && !r.started && r.lastSignal.None? && r.lastSignalPassedAspect.None?
    ensures r.(online := t.online, started := t.started, lastSignal := t.lastSignal,
               lastSignalPassedAspect := t.lastSignalPassedAspect) == t
  {
    t.(online := false, started := false, lastSignal := None, lastSignalPassedAspect := None)
  }

  /** On disconnecting, the zone of the last signal passed is freed and the train is reset. */
  method Disconnect(c: Controller, trainId: uint8)
    requires c.Valid() && trainId in c.trains
    modifies c
    ensures c.trains == old(c.trains)[trainId := Disconnected(old(c.trains)[trainId])]
    ensures var last := old(c.trains)[trainId].lastSignal;
      c.signals == if last.Some? then Recalculated(Freed(old(c.signals), last.value), last.value) else old(c.signals)
    ensures c.stretches == old(c.stretches) && c.signalList == old(c.signalList) && c.wire == old(c.wire)
    ensures c.Valid()
  {
    var t := c.trains[trainId];
    if t.lastSignal.Some? {
      UnOccupyZone(c, t.lastSignal.value);
    }
    c.trains := c.trains[trainId := Disconnected(t)];
    assert c.Valid();
  }

  /**
   * `onNewSignalBoxConnection`: authenticate; refuse a connection whose key
   * is unknown or whose train is already online; otherwise connect, read
   * until the connection ends, and disconnect. `train` is the train the key
   * named and `accepted` whether the connection was served.
   */
  method OnNewSignalBoxConnection(c: Controller, stream: seq<uint8>, maxAttempts: uint8)
    returns (train: Option<uint8>, accepted: bool, frames: seq<seq<uint8>>)
    requires c.Valid()
    modifies c
    ensures |stream| < 4 ==> train.None?
    ensures |stream| >= 4 && train.Some? ==>
              train.value in old(c.trains) && old(c.trains)[train.value].accessKey == LeUint32(stream[..4])
    ensures |stream| >= 4 ==>
              (train.None? <==> forall k :: k in old(c.trains) ==> old(c.trains)[k].accessKey != LeUint32(stream[..4]))
    ensures accepted <==> train.Some? && !old(c.trains)[train.value].online
    ensures !accepted ==> frames == [] && c.trains == old(c.trains) && c.signals == old(c.signals) && c.wire == old(c.wire)
    ensures c.trains.Keys == old(c.trains).Keys
    ensures accepted ==> frames == ReadFrames(stream[4..])
    ensures accepted ==>
              var t := c.trains[train.value];
              && !t.online && !t.started && t.lastSignal.None? && t.lastSignalPassedAspect.None?
    ensures c.stretches == old(c.stretches) && c.signalList == old(c.signalList)
    ensures c.Valid()
  {
    var rest;
    train, rest := AuthenticateTrain(c, stream);
    if train.None? || c.trains[train.value].online {
      return train, false, [];
    }
    Connect(c, train.value);
    frames := HandleTrainMessages(c, train.value, rest, maxAttempts);
    Disconnect(c, train.value);
    accepted := true;
  }
}
