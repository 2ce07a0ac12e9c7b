/**
 * The signal editor's validation and submit logic (COMPONENTS/Signals/Signals.tsx).
 * The drafts it builds are given to the client's Signal constructor, which
 * is not part of this model; a draft is modelled as the fields it is given,
 * every other field left `undefined`.
 */
module SignalsForm {
  import opened Wrappers
  import opened JsData

  /** What the dialog's inputs and check boxes hold. */
  datatype SignalFormFields = SignalFormFields(
    stretchId: int, name: string, speedLimit: int,
    isSwitch: bool, splitter: bool, stretchDetourId: int, signalDetourId: int,
    loopsBack: bool, stretchLoopBackId: int, signalLoopBackId: int)

  datatype SignalRequest = InsertSignal(signal: SignalRecord) | UpdateSignal(signal: SignalRecord)
                         | DeleteSignal(signal: SignalRecord)

  const Blank: SignalRecord := SignalRecord(Undefined, Undefined, Undefined, Undefined, Undefined,
    Undefined, Undefined, Undefined, Undefined, Undefined, Undefined, Undefined, Undefined, Undefined,
    Undefined, Undefined, Undefined)

  /**
   * `getsignalFromForm`: stretch, name, speed limit and the two check boxes;
   * the edited signal's stretch and id override the form's; the switch and
   * loop-back fields are set only when their boxes are checked.
   */
  function GetSignalFromForm(form: SignalFormFields, editing: Option<SignalRecord>): (s: SignalRecord)
    ensures s.name == Val(form.name) && s.speedLimit == Val(form.speedLimit)
    ensures s.isSwitch == Val(form.isSwitch) && s.loopsBack == Val(form.loopsBack)
    ensures editing.None? ==> s.stretchId == Val(form.stretchId) && s.id == Undefined
    ensures editing.Some? ==> s.stretchId == editing.value.stretchId && s.id == editing.value.id
    ensures form.isSwitch ==> s.splitter == Val(form.splitter)
                              && s.stretchDetourId == Val(form.stretchDetourId)
                              && s.signalDetourId == Val(form.signalDetourId)
    ensures !form.isSwitch ==> s.splitter == Undefined && s.stretchDetourId == Undefined && s.signalDetourId == Undefined
    ensures form.loopsBack ==> s.stretchLoopBackId == Val(form.stretchLoopBackId)
                               && s.signalLoopBackId == Val(form.signalLoopBackId)
    ensures !form.loopsBack ==> s.stretchLoopBackId == Undefined && s.signalLoopBackId == Undefined
    ensures s.passthrough == Undefined && s.forceRed == Undefined && s.aspect == Undefined
  {
    var signal := Blank.(stretchId := Val(form.stretchId), name := Val(form.name),
      speedLimit := Val(form.speedLimit), isSwitch := Val(form.isSwitch), loopsBack := Val(form.loopsBack));
    var signal := if editing.Some? then signal.(stretchId := editing.value.stretchId, id := editing.value.id) else signal;
    var signal := if form.isSwitch then signal.(splitter := Val(form.splitter),
      stretchDetourId := Val(form.stretchDetourId), signalDetourId := Val(form.signalDetourId)) else signal;
    if form.loopsBack then signal.(stretchLoopBackId := Val(form.stretchLoopBackId),
      signalLoopBackId := Val(form.signalLoopBackId)) else signal
  }

  /** `isValid` looks at nothing but the name's `length`, in UTF-16 code units. */
  function IsValid(s: SignalRecord): (ok: bool)
    requires s.name.Val?
    ensures ok <==> 1 <= Utf16Length(s.name.v) <= 50
    ensures ok ==> 1 <= |s.name.v| <= 50
  {
    if Utf16Length(s.name.v) == 0 then false else if Utf16Length(s.name.v) > 50 then false else true
  }

  /** A switch that also loops back, with no detour target, still passes the form's check. */
  lemma IsValidIgnoresRouting()
    ensures IsValid(GetSignalFromForm(SignalFormFields(0, "S1", 7, true, false, 0, 0, true, 0, 0), None))
  {
  }

  /** A 26-character name written with characters beyond U+FFFF is 52 code units long, so it is refused. */
  lemma AstralNameRefused(form: SignalFormFields, editing: Option<SignalRecord>)
    requires |form.name| == 26 && forall k :: 0 <= k < |form.name| ==> form.name[k] as int >= 0x1_0000
    ensures !IsValid(GetSignalFromForm(form, editing))
  {
    Utf16LengthOfAstral(form.name);
  }

  function Add(form: SignalFormFields, editing: Option<SignalRecord>): (r: Option<SignalRequest>)
    ensures r.Some? <==> 1 <= Utf16Length(form.name) <= 50
    ensures r.Some? ==> r.value == InsertSignal(GetSignalFromForm(form, editing))
  {
    var signal := GetSignalFromForm(form, editing);
    if !IsValid(signal) then None else Some(InsertSignal(signal))
  }

  function Update(form: SignalFormFields, editing: SignalRecord): (r: Option<SignalRequest>)
    ensures r.Some? <==> 1 <= Utf16Length(form.name) <= 50
    ensures r.Some? ==> r.value.UpdateSignal? && r.value.signal.stretchId == editing.stretchId
                        && r.value.signal.id == editing.id
    ensures r.Some? ==> r.value == UpdateSignal(GetSignalFromForm(form, Some(editing)))
  {
    var signal := GetSignalFromForm(form, Some(editing));
    if !IsValid(signal) then None else Some(UpdateSignal(signal))
  }

  /** `remove`: a draft with the id alone; in particular it carries no stretch id. */
  function Remove(editing: SignalRecord): (r: SignalRequest)
    ensures r == DeleteSignal(Blank.(id := editing.id))
    ensures r.signal.stretchId == Undefined
  {
    DeleteSignal(Blank.(id := editing.id))
  }
}
