/** What the control panel offers for each train and signal (COMPONENTS/Controls/Controls.tsx). */
module Controls {
  import opened JsData
  import opened ClientTrain
  import opened SignalView

  /** Column `#1`. */
  datatype ManualCell = ManuallyStop(trainId: Js<int>) | ManuallyStart(train: Train)

  /** Column `#2`. */
  datatype StopAtSignalCell = CancelStopAtSignal(trainId: Js<int>) | ManuallyStopAtSignal(trainId: Js<int>) | NoButton

  /** The `change-direction` column: a button bound to one signal, or a caption. */
  datatype DirectionControl =
    | UnforceRedButton(signal: SignalIdRef)
    | ForceRedButton(signal: SignalIdRef)
    | SwitchDetourButton(signal: SignalIdRef)
    | SwitchPassthroughButton(signal: SignalIdRef)
    | Caption(text: string)

  function ManualColumn(t: Train): (cell: ManualCell)
    ensures cell.ManuallyStop? <==> Truthy(t.started)
    ensures cell.ManuallyStop? ==> cell.trainId == t.id
    ensures cell.ManuallyStart? ==> cell.train == t
  {
    if Truthy(t.started) then ManuallyStop(t.id) else ManuallyStart(t)
  }

  /** A field that is missing (rather than `null`) passes the `!== null` test too. */
  function StopAtSignalColumn(t: Train): (cell: StopAtSignalCell)
    ensures cell.NoButton? <==> !Truthy(t.started)
    ensures cell.CancelStopAtSignal? <==> Truthy(t.started) && !t.signalToStopAt.Null?
    ensures cell.ManuallyStopAtSignal? <==> Truthy(t.started) && t.signalToStopAt.Null?
    ensures !cell.NoButton? ==> cell.trainId == t.id
  {
    if Truthy(t.started) then
      if t.signalToStopAt != Null then CancelStopAtSignal(t.id) else ManuallyStopAtSignal(t.id)
    else NoButton
  }

  /** The `direction` column's caption key. */
  function DirectionCaption(v: SignalView): (caption: string)
    ensures caption == "forced-red" <==> Truthy(v.forceRed)
    ensures caption == "" <==> !Truthy(v.forceRed) && !Truthy(v.isSwitch)
    ensures caption == "failure" <==> !Truthy(v.forceRed) && Truthy(v.isSwitch) && Truthy(v.switchFailure)
    ensures caption == "switching" <==>
              !Truthy(v.forceRed) && Truthy(v.isSwitch) && !Truthy(v.switchFailure) && Truthy(v.currentlySwitching)
    ensures caption == "queued-for-switching" <==>
              && !Truthy(v.forceRed) && Truthy(v.isSwitch) && !Truthy(v.switchFailure)
              && !Truthy(v.currentlySwitching) && Truthy(v.queuedForSwitching)
    ensures caption in {"passthrough", "detour"} <==>
              && !Truthy(v.forceRed) && Truthy(v.isSwitch) && !Truthy(v.switchFailure)
              && !Truthy(v.currentlySwitching) && !Truthy(v.queuedForSwitching)
    ensures caption == "passthrough" ==> Truthy(v.passthrough)
    ensures caption == "detour" ==> !Truthy(v.passthrough)
  {
    if Truthy(v.forceRed) then "forced-red"
    else if Truthy(v.isSwitch) then
      if Truthy(v.switchFailure) then "failure"
      else if Truthy(v.currentlySwitching) then "switching"
      else if Truthy(v.queuedForSwitching) then "queued-for-switching"
      else if Truthy(v.passthrough) then "passthrough"
      else "detour"
    else ""
  }

  function ChangeDirection(v: SignalView): (control: DirectionControl)
    ensures control.UnforceRedButton? <==> !Truthy(v.isSwitch) && Truthy(v.forceRed)
    ensures control.ForceRedButton? <==> !Truthy(v.isSwitch) && !Truthy(v.forceRed)
    ensures control.Caption? <==> Truthy(v.isSwitch) && Truthy(v.queuedForSwitching)
    ensures control.SwitchDetourButton? <==>
              Truthy(v.isSwitch) && !Truthy(v.queuedForSwitching) && Truthy(v.passthrough)
    ensures control.SwitchPassthroughButton? <==>
              Truthy(v.isSwitch) && !Truthy(v.queuedForSwitching) && !Truthy(v.passthrough)
    ensures control.Caption? ==>
              control.text == (if Truthy(v.passthrough) then "switching-passthrough-detour"
                               else "switching-detour-passthrough")
    ensures !control.Caption? ==> control.signal == GetSignalId(v)
  {
    if !Truthy(v.isSwitch) then
      if Truthy(v.forceRed) then UnforceRedButton(GetSignalId(v)) else ForceRedButton(GetSignalId(v))
    else if Truthy(v.queuedForSwitching) then
      if Truthy(v.passthrough) then Caption("switching-passthrough-detour") else Caption("switching-detour-passthrough")
    else if Truthy(v.passthrough) then SwitchDetourButton(GetSignalId(v))
    else SwitchPassthroughButton(GetSignalId(v))
  }
}
