/**
 * The in-memory operations of signal.go on the server state: the aspect
 * rule applied to one signal and to the two behind it, freeing a zone, the
 * two switch commands, forcing a signal to red and back, and the
 * in-memory part of `Signal.update`.
 */
module SignalOps {
  import opened Wrappers
  import opened ServerUtils
  import opened ServerRecords
  import opened ServerState

  /** `calculateSignalAspect`: the signal's aspect becomes the one the block rule gives. */
  method CalculateSignalAspect(c: Controller, id: SignalId)
    requires c.Valid() && id in c.signals
    modifies c
    ensures c.signals == WithAspect(old(c.signals), id)
    ensures c.trains == old(c.trains) && c.stretches == old(c.stretches)
    ensures c.signalList == old(c.signalList) && c.wire == old(c.wire)
    ensures c.Valid()
  {
    var s := c.signals[id];
    var aspect: uint8;
    if s.zoneOccupied {
      aspect := SIGNAL_DANGER;
    } else if s.nextSignal.Some? && s.nextSignal.value in c.signals && c.signals[s.nextSignal.value].zoneOccupied {
      aspect := SIGNAL_CAUTION;
    } else if s.nextSignal.Some? && s.nextSignal.value in c.signals
              && Occupied(c.signals, c.signals[s.nextSignal.value].nextSignal) {
      aspect := SIGNAL_PRELIMINARY_CAUTION;
    } else {
      aspect := SIGNAL_CLEAR;
    }
    assert aspect == AspectFor(c.signals, id);
    c.signals := c.signals[id := s.(aspect := aspect)];
  }

  /** `signalAspectChangedCalculate`: the signal, then the signal behind it, then the one behind that. */
  method SignalAspectChangedCalculate(c: Controller, id: SignalId)
    requires c.Valid() && id in c.signals
    modifies c
    ensures c.signals == Recalculated(old(c.signals), id)
    ensures c.trains == old(c.trains) && c.stretches == old(c.stretches)
    ensures c.signalList == old(c.signalList) && c.wire == old(c.wire)
    ensures c.Valid()
  {
    CalculateSignalAspect(c, id);
    var p := c.signals[id].previousSignal;
    if p.Some? && p.value in c.signals {
      CalculateSignalAspect(c, p.value);
      var pp := c.signals[p.value].previousSignal;
      if pp.Some? && pp.value in c.signals {
        CalculateSignalAspect(c, pp.value);
      }
    }
  }

  /** The zone behind the signal as `unOccupyZone` leaves it, before the recalculation. */
  function Freed(signals: map<SignalId, Signal>, id: SignalId): map<SignalId, Signal>
    requires id in signals
  {
    signals[id := signals[id].(zoneOccupied := false, zoneOccupiedBy := None)]
  }

  /** `unOccupyZone`: the zone is free and nobody holds it; the aspects behind it are recalculated. */
  method UnOccupyZone(c: Controller, id: SignalId)
    requires c.Valid() && id in c.signals
    modifies c
    ensures c.signals == Recalculated(Freed(old(c.signals), id), id)
    ensures c.trains == old(c.trains) && c.stretches == old(c.stretches)
    ensures c.signalList == old(c.signalList) && c.wire == old(c.wire)
    ensures c.Valid()
  {
    var s := c.signals[id];
    c.signals := c.signals[id := s.(zoneOccupied := false, zoneOccupiedBy := None)];
    SignalAspectChangedCalculate(c, id);
  }

  /** Once a zone is freed its signal no longer shows Danger, and nothing but aspects changed. */
  lemma FreedZoneNotDanger(signals: map<SignalId, Signal>, id: SignalId)
    requires id in signals
    ensures var r := Recalculated(Freed(signals, id), id);
      && id in r && !r[id].zoneOccupied && r[id].zoneOccupiedBy.None? && r[id].aspect != SIGNAL_DANGER
      && SameButAspects(Freed(signals, id), r)
  {
    var f := Freed(signals, id);
    RecalculatedSameButAspects(f, id);
    RecalculatedBehind(f, id);
    assert id in Behind(f, id);
  }

  /** `switchPassthrough`: queue a change to passthrough, refused as `QueuePassthrough` says. */
  method SwitchPassthrough(c: Controller, id: SignalId) returns (ok: bool)
    requires c.Valid() && id in c.signals
    modifies c
    ensures ok <==> QueuePassthrough(old(c.signals)[id]).Some?
    ensures c.signals == if ok then old(c.signals)[id := QueuePassthrough(old(c.signals)[id]).value] else old(c.signals)
    ensures c.trains == old(c.trains) && c.stretches == old(c.stretches)
    ensures c.signalList == old(c.signalList) && c.wire == old(c.wire)
    ensures c.Valid()
  {
    var s := c.signals[id];
    if s.zoneOccupied {
      return false;
    }
    if s.passthrough || s.queuedForSwitching {
      return false;
    }
    c.signals := c.signals[id := s.(queuedForSwitching := true, aspect := SIGNAL_DANGER)];
    return true;
  }

  /** `switchDetour`: queue a change to detour, refused as `QueueDetour` says. */
  method SwitchDetour(c: Controller, id: SignalId) returns (ok: bool)
    requires c.Valid() && id in c.signals
    modifies c
    ensures ok <==> QueueDetour(old(c.signals)[id]).Some?
    ensures c.signals == if ok then old(c.signals)[id := QueueDetour(old(c.signals)[id]).value] else old(c.signals)
    ensures c.trains == old(c.trains) && c.stretches == old(c.stretches)
    ensures c.signalList == old(c.signalList) && c.wire == old(c.wire)
    ensures c.Valid()
  {
    var s := c.signals[id];
    if s.zoneOccupied {
      return false;
    }
    if !s.passthrough || s.queuedForSwitching {
      return false;
    }
    c.signals := c.signals[id := s.(queuedForSwitching := true, aspect := SIGNAL_DANGER)];
    return true;
  }

  /** The state `forceRed` leaves: the zone held by the signal itself, then the recalculation. */
  function ForcedRed(signals: map<SignalId, Signal>, id: SignalId): (r: map<SignalId, Signal>)
    requires id in signals
    ensures r.Keys == signals.Keys
    ensures r[id].forceRed && r[id].zoneOccupied
  {
    var m := signals[id := signals[id].(forceRed := true, zoneOccupied := true, aspect := SIGNAL_DANGER)];
    RecalculatedSameButAspects(m, id);
    Recalculated(m, id)
  }

  /** The state `unforceRed` leaves: the zone released, then the recalculation. */
  function UnforcedRed(signals: map<SignalId, Signal>, id: SignalId): (r: map<SignalId, Signal>)
    requires id in signals
    ensures r.Keys == signals.Keys
    ensures !r[id].forceRed && !r[id].zoneOccupied
  {
    var m := signals[id := signals[id].(forceRed := false, zoneOccupied := false, aspect := SIGNAL_CLEAR)];
    RecalculatedSameButAspects(m, id);
    Recalculated(m, id)
  }

  /** `forceRed`: refused when already forced or when a train holds the zone. */
  method ForceRed(c: Controller, id: SignalId) returns (e: Envelope)
    requires c.Valid() && id in c.signals
    modifies c
    ensures e.ok <==> !old(c.signals)[id].forceRed && !old(c.signals)[id].zoneOccupied
    ensures e.ok ==> e == Ok && c.signals == ForcedRed(old(c.signals), id)
    ensures !e.ok ==> e == Fail(ERROR_CODE_DATA_NOT_VALID) && c.signals == old(c.signals)
    ensures c.trains == old(c.trains) && c.stretches == old(c.stretches)
    ensures c.signalList == old(c.signalList) && c.wire == old(c.wire)
    ensures c.Valid()
  {
    var s := c.signals[id];
    if s.forceRed || s.zoneOccupied {
      return Fail(ERROR_CODE_DATA_NOT_VALID);
    }
    c.signals := c.signals[id := s.(forceRed := true, zoneOccupied := true, aspect := SIGNAL_DANGER)];
    SignalAspectChangedCalculate(c, id);
    return Ok;
  }

  /** `unforceRed`: refused unless the signal is forced. */
  method UnforceRed(c: Controller, id: SignalId) returns (e: Envelope)
    requires c.Valid() && id in c.signals
    modifies c
    ensures e.ok <==> old(c.signals)[id].forceRed
    ensures e.ok ==> e == Ok && c.signals == UnforcedRed(old(c.signals), id)
    ensures !e.ok ==> e == Fail(ERROR_CODE_DATA_NOT_VALID) && c.signals == old(c.signals)
    ensures c.trains == old(c.trains) && c.stretches == old(c.stretches)
    ensures c.signalList == old(c.signalList) && c.wire == old(c.wire)
    ensures c.Valid()
  {
    var s := c.signals[id];
    if !s.forceRed {
      return Fail(ERROR_CODE_DATA_NOT_VALID);
    }
    c.signals := c.signals[id := s.(forceRed := false, zoneOccupied := false, aspect := SIGNAL_CLEAR)];
    SignalAspectChangedCalculate(c, id);
    return Ok;
  }

  /**
   * A forced signal holds its own zone and shows Danger, and the signal
   * behind it, when its zone is free and it leads into this one, shows Caution.
   */
  lemma ForcedRedShowsDanger(signals: map<SignalId, Signal>, id: SignalId)
    requires id in signals
    ensures var r := ForcedRed(signals, id);
      id in r && r[id].forceRed && r[id].zoneOccupied && r[id].aspect == SIGNAL_DANGER
    ensures forall p :: p in signals && p != id && signals[id].previousSignal == Some(p)
                        && signals[p].nextSignal == Some(id) && !signals[p].zoneOccupied ==>
                          ForcedRed(signals, id)[p].aspect == SIGNAL_CAUTION
  {
    var m := signals[id := signals[id].(forceRed := true, zoneOccupied := true, aspect := SIGNAL_DANGER)];
    RecalculatedSameButAspects(m, id);
    RecalculatedBehind(m, id);
    assert id in Behind(m, id);
    forall p | p in signals && p != id && signals[id].previousSignal == Some(p)
               && signals[p].nextSignal == Some(id) && !signals[p].zoneOccupied
      ensures ForcedRed(signals, id)[p].aspect == SIGNAL_CAUTION
    {
      assert p in Behind(m, id);
      assert Occupied(m, m[p].nextSignal);
    }
  }

  /** A released signal is no longer forced, its zone is free and it does not show Danger. */
  lemma UnforcedRedReleases(signals: map<SignalId, Signal>, id: SignalId)
    requires id in signals
    ensures var r := UnforcedRed(signals, id);
      id in r && !r[id].forceRed && !r[id].zoneOccupied && r[id].aspect != SIGNAL_DANGER
  {
    var m := signals[id := signals[id].(forceRed := false, zoneOccupied := false, aspect := SIGNAL_CLEAR)];
    RecalculatedSameButAspects(m, id);
    RecalculatedBehind(m, id);
    assert id in Behind(m, id);
  }

  lemma SameButAspectsTrans(a: map<SignalId, Signal>, b: map<SignalId, Signal>, d: map<SignalId, Signal>)
    requires SameButAspects(a, b) && SameButAspects(b, d)
    ensures SameButAspects(a, d)
  {
    forall k | k in a ensures d[k] == a[k].(aspect := d[k].aspect) {
      assert b[k] == a[k].(aspect := b[k].aspect);
      assert d[k] == b[k].(aspect := d[k].aspect);
    }
  }

  /**
   * Forcing a free signal to red and releasing it again gives back the
   * state it started from, but for aspects.
   */
  lemma ForceThenUnforceRestores(signals: map<SignalId, Signal>, id: SignalId)
    requires id in signals && !signals[id].forceRed && !signals[id].zoneOccupied
    ensures SameButAspects(signals, UnforcedRed(ForcedRed(signals, id), id))
  {
    var m := signals[id := signals[id].(forceRed := true, zoneOccupied := true, aspect := SIGNAL_DANGER)];
    var f := ForcedRed(signals, id);
    RecalculatedSameButAspects(m, id);
    var n := f[id := f[id].(forceRed := false, zoneOccupied := false, aspect := SIGNAL_CLEAR)];
    assert SameButAspects(signals, n) by {
      forall k | k in signals ensures n[k] == signals[k].(aspect := n[k].aspect) {
        assert f[k] == m[k].(aspect := f[k].aspect);
      }
    }
    RecalculatedSameButAspects(n, id);
    SameButAspectsTrans(signals, n, UnforcedRed(f, id));
  }

  // ----- Signal.update -----

  /**
   * The refusal `Signal.update` gives before it writes anything: Data Not
   * Valid for a zero or invalid key or record, Could Not Find for a signal,
   * a detour target or a loop-back target that no stretch lists. Each
   * target is looked up in the stretch its own stretch id names.
   */
  function UpdateRefusal(stretches: map<uint8, Stretch>, rec: Signal): (code: Option<uint8>)
    ensures code.None? <==>
              && rec.stretchId != 0 && rec.id != 0 && SignalIsValid(rec)
              && GetSignal(stretches, SignalId(rec.stretchId, rec.id)).Some?
              && (rec.isSwitch ==> GetSignal(stretches, SignalId(rec.stretchDetourId.value, rec.signalDetourId.value)).Some?)
              && (rec.loopsBack ==> GetSignal(stretches, SignalId(rec.stretchLoopBackId.value, rec.signalLoopBackId.value)).Some?)
    ensures code == Some(ERROR_CODE_DATA_NOT_VALID) <==> !(rec.stretchId != 0 && rec.id != 0 && SignalIsValid(rec))
    ensures code.Some? ==> code.value == ERROR_CODE_DATA_NOT_VALID || code.value == ERROR_CODE_COULD_NOT_FIND_RECORD
  {
    if rec.stretchId == 0 || rec.id == 0 || !SignalIsValid(rec) then Some(ERROR_CODE_DATA_NOT_VALID)
    else if rec.stretchId !in stretches || rec.id !in stretches[rec.stretchId].signals then Some(ERROR_CODE_COULD_NOT_FIND_RECORD)
    else if rec.isSwitch && (rec.stretchDetourId.value !in stretches
                             || rec.signalDetourId.value !in stretches[rec.stretchDetourId.value].signals) then
      Some(ERROR_CODE_COULD_NOT_FIND_RECORD)
    else if rec.loopsBack && (rec.stretchLoopBackId.value !in stretches
                              || rec.signalLoopBackId.value !in stretches[rec.stretchLoopBackId.value].signals) then
      Some(ERROR_CODE_COULD_NOT_FIND_RECORD)
    else None
  }

  /**
   * The refusal as signal.go writes it: after checking that the detour
   * (loop-back) stretch exists, it looks the detour (loop-back) signal id
   * up in the signal's own stretch.
   */
  function UpdateRefusalAsWritten(stretches: map<uint8, Stretch>, rec: Signal): (code: Option<uint8>)
    ensures code.None? <==>
              && rec.stretchId != 0 && rec.id != 0 && SignalIsValid(rec)
              && GetSignal(stretches, SignalId(rec.stretchId, rec.id)).Some?
              && (rec.isSwitch ==> && rec.stretchDetourId.value in stretches
                                   && GetSignal(stretches, SignalId(rec.stretchId, rec.signalDetourId.value)).Some?)
              && (rec.loopsBack ==> && rec.stretchLoopBackId.value in stretches
                                    && GetSignal(stretches, SignalId(rec.stretchId, rec.signalLoopBackId.value)).Some?)
  {
    if rec.stretchId == 0 || rec.id == 0 || !SignalIsValid(rec) then Some(ERROR_CODE_DATA_NOT_VALID)
    else if rec.stretchId !in stretches || rec.id !in stretches[rec.stretchId].signals then Some(ERROR_CODE_COULD_NOT_FIND_RECORD)
    else if rec.isSwitch && (rec.stretchDetourId.value !in stretches
                             || rec.signalDetourId.value !in stretches[rec.stretchId].signals) then
      Some(ERROR_CODE_COULD_NOT_FIND_RECORD)
    else if rec.loopsBack && (rec.stretchLoopBackId.value !in stretches
                              || rec.signalLoopBackId.value !in stretches[rec.stretchId].signals) then
      Some(ERROR_CODE_COULD_NOT_FIND_RECORD)
    else None
  }

  /**
   * The signal after a successful update: name, speed limit and both flags
   * copied; the switch fields copied and the detour looked up when it is a
   * switch, all cleared when not; the loop-back fields likewise; every
   * other field kept.
   */
  function Updated(stretches: map<uint8, Stretch>, s: Signal, rec: Signal): (r: Signal)
    requires SignalIsValid(rec)
    ensures r.name == rec.name && r.speedLimit == rec.speedLimit && r.isSwitch == rec.isSwitch && r.loopsBack == rec.loopsBack
    ensures rec.isSwitch ==> && r.splitter == rec.splitter && r.stretchDetourId == rec.stretchDetourId
                             && r.signalDetourId == rec.signalDetourId
                             && r.signalDetour == GetSignal(stretches, SignalId(rec.stretchDetourId.value, rec.signalDetourId.value))
    ensures !rec.isSwitch ==> r.splitter.None? && r.stretchDetourId.None? && r.signalDetourId.None? && r.signalDetour.None?
    ensures rec.loopsBack ==> && r.stretchLoopBackId == rec.stretchLoopBackId && r.signalLoopBackId == rec.signalLoopBackId
                              && r.signalLoopBack == GetSignal(stretches, SignalId(rec.stretchLoopBackId.value, rec.signalLoopBackId.value))
    ensures !rec.loopsBack ==> r.stretchLoopBackId.None? && r.signalLoopBackId.None? && r.signalLoopBack.None?
    ensures && r.stretchId == s.stretchId && r.id == s.id && r.passthrough == s.passthrough
            && r.queuedForSwitching == s.queuedForSwitching && r.currentlySwitching == s.currentlySwitching
            && r.switchFailure == s.switchFailure && r.previousSignal == s.previousSignal && r.nextSignal == s.nextSignal
            && r.zoneOccupied == s.zoneOccupied && r.zoneOccupiedBy == s.zoneOccupiedBy
            && r.forceRed == s.forceRed && r.aspect == s.aspect
    ensures HasKind(r)
  {
    var t := s.(name := rec.name, speedLimit := rec.speedLimit, isSwitch := rec.isSwitch, loopsBack := rec.loopsBack);
    var t := if rec.isSwitch then
               t.(splitter := rec.splitter, stretchDetourId := rec.stretchDetourId, signalDetourId := rec.signalDetourId,
                  signalDetour := GetSignal(stretches, SignalId(rec.stretchDetourId.value, rec.signalDetourId.value)))
             else t.(splitter := None, stretchDetourId := None, signalDetourId := None, signalDetour := None);
    if rec.loopsBack then
      t.(stretchLoopBackId := rec.stretchLoopBackId, signalLoopBackId := rec.signalLoopBackId,
         signalLoopBack := GetSignal(stretches, SignalId(rec.stretchLoopBackId.value, rec.signalLoopBackId.value)))
    else t.(stretchLoopBackId := None, signalLoopBackId := None, signalLoopBack := None)
  }

  /** The in-memory part of `Signal.update` (the database write is taken to succeed). */
  method UpdateSignal(c: Controller, rec: Signal) returns (e: Envelope)
    requires c.Valid()
    modifies c
    ensures e.ok <==> UpdateRefusal(old(c.stretches), rec).None?
    ensures !e.ok ==> e == Fail(UpdateRefusal(old(c.stretches), rec).value) && c.signals == old(c.signals)
    ensures e.ok ==> var sid := SignalId(rec.stretchId, rec.id);
              && e == Ok && sid in old(c.signals)
              && c.signals == old(c.signals)[sid := Updated(old(c.stretches), old(c.signals)[sid], rec)]
    ensures c.trains == old(c.trains) && c.stretches == old(c.stretches)
    ensures c.signalList == old(c.signalList) && c.wire == old(c.wire)
    ensures c.Valid()
  {
    if rec.stretchId == 0 || rec.id == 0 || !SignalIsValid(rec) {
      return Fail(ERROR_CODE_DATA_NOT_VALID);
    }
    if rec.stretchId !in c.stretches {
      return Fail(ERROR_CODE_COULD_NOT_FIND_RECORD);
    }
    var stretch := c.stretches[rec.stretchId];
    if rec.id !in stretch.signals {
      return Fail(ERROR_CODE_COULD_NOT_FIND_RECORD);
    }
    if rec.isSwitch {
      if rec.stretchDetourId.value !in c.stretches {
        return Fail(ERROR_CODE_COULD_NOT_FIND_RECORD);
      }
      if rec.signalDetourId.value !in c.stretches[rec.stretchDetourId.value].signals {
        return Fail(ERROR_CODE_COULD_NOT_FIND_RECORD);
      }
    }
    if rec.loopsBack {
      if rec.stretchLoopBackId.value !in c.stretches {
        return Fail(ERROR_CODE_COULD_NOT_FIND_RECORD);
      }
      if rec.signalLoopBackId.value !in c.stretches[rec.stretchLoopBackId.value].signals {
        return Fail(ERROR_CODE_COULD_NOT_FIND_RECORD);
      }
    }
    var sid := SignalId(rec.stretchId, rec.id);
    var signal := c.signals[sid];
    signal := signal.(name := rec.name, speedLimit := rec.speedLimit, isSwitch := rec.isSwitch, loopsBack := rec.loopsBack);
    if rec.isSwitch {
      signal := signal.(splitter := rec.splitter, stretchDetourId := rec.stretchDetourId, signalDetourId := rec.signalDetourId);
      signal := signal.(signalDetour := GetSignal(c.stretches, SignalId(rec.stretchDetourId.value, signal.signalDetourId.value)));
    } else {
      signal := signal.(splitter := None, stretchDetourId := None, signalDetourId := None, signalDetour := None);
    }
    if rec.loopsBack {
      signal := signal.(stretchLoopBackId := rec.stretchLoopBackId, signalLoopBackId := rec.signalLoopBackId);
      signal := signal.(signalLoopBack := GetSignal(c.stretches, SignalId(rec.stretchLoopBackId.value, signal.signalLoopBackId.value)));
    } else {
      signal := signal.(stretchLoopBackId := None, signalLoopBackId := None, signalLoopBack := None);
    }
    c.signals := c.signals[sid := signal];
    return Ok;
  }

  /**
   * After an update the checks accept, the detour and loop-back links of
   * the record point at the signals its ids name, and both are listed by
   * their stretches.
   */
  lemma AcceptedUpdateLinksResolve(stretches: map<uint8, Stretch>, s: Signal, rec: Signal)
    requires UpdateRefusal(stretches, rec).None?
    ensures SignalIsValid(rec)
    ensures rec.isSwitch ==> Updated(stretches, s, rec).signalDetour == Some(SignalId(rec.stretchDetourId.value, rec.signalDetourId.value))
    ensures rec.loopsBack ==> Updated(stretches, s, rec).signalLoopBack == Some(SignalId(rec.stretchLoopBackId.value, rec.signalLoopBackId.value))
  {
  }

  /**
   * As written, the checks accept a switch whose detour signal id is listed
   * by its own stretch but not by the detour stretch, and the update then
   * stores no detour link: signal 1 of stretch 1 detouring to signal 2 of
   * the empty stretch 2.
   */
  lemma AsWrittenAcceptsDanglingDetour()
    ensures var stretches := map[1 := Stretch(1, "A", 1, {1, 2}), 2 := Stretch(2, "B", 1, {})];
      var rec := Signal(1, 1, "S", 0, true, Some(true), Some(2), Some(2), None, false, None, None, None,
                        true, false, false, false, None, None, false, None, false, SIGNAL_CLEAR);
      && UpdateRefusalAsWritten(stretches, rec).None?
      && Updated(stretches, rec, rec).signalDetour.None?
      && UpdateRefusal(stretches, rec) == Some(ERROR_CODE_COULD_NOT_FIND_RECORD)
  {
    var stretches := map[1 := Stretch(1, "A", 1, {1, 2}), 2 := Stretch(2, "B", 1, {})];
    var rec := Signal(1, 1, "S", 0, true, Some(true), Some(2), Some(2), None, false, None, None, None,
                      true, false, false, false, None, None, false, None, false, SIGNAL_CLEAR);
    assert SignalIsValid(rec);
    assert 2 !in stretches[2].signals;
  }

  /**
   * As written, the checks also refuse a good detour: signal 1 of stretch 1
   * detouring to signal 3 of stretch 2, which stretch 2 lists, is refused
   * because stretch 1 lists no signal 3.
   */
  lemma AsWrittenRefusesListedDetour()
    ensures var stretches := map[1 := Stretch(1, "A", 1, {1}), 2 := Stretch(2, "B", 1, {3})];
      var rec := Signal(1, 1, "S", 0, true, Some(true), Some(2), Some(3), None, false, None, None, None,
                        true, false, false, false, None, None, false, None, false, SIGNAL_CLEAR);
      && UpdateRefusalAsWritten(stretches, rec) == Some(ERROR_CODE_COULD_NOT_FIND_RECORD)
      && UpdateRefusal(stretches, rec).None?
  {
    var stretches := map[1 := Stretch(1, "A", 1, {1}), 2 := Stretch(2, "B", 1, {3})];
    var rec := Signal(1, 1, "S", 0, true, Some(true), Some(2), Some(3), None, false, None, None, None,
                      true, false, false, false, None, None, false, None, false, SIGNAL_CLEAR);
    assert SignalIsValid(rec);
    assert 3 !in stretches[1].signals;
  }
}
