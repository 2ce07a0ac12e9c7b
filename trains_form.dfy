/** The train editor's validation and submit logic (COMPONENTS/Trains/Trains.tsx). */
module TrainsForm {
  import opened Wrappers
  import opened JsData
  import opened ClientTrain

  /** What the dialog's inputs hold: the name text and the three parsed speeds. */
  datatype TrainFormFields = TrainFormFields(name: string, speedSlow: int, speedHalf: int, speedFast: int)

  /** The call a submit button makes on the page's network wrappers. */
  datatype TrainRequest = InsertTrain(train: Train) | UpdateTrain(train: Train) | DeleteTrain(train: Train)

  /**
   * `getTrainFromForm`: a new Train built from the name and the speeds,
   * given the edited train's id when there is one.
   */
  function GetTrainFromForm(form: TrainFormFields, editing: Option<Train>): (t: Train)
    ensures t.name == Val(form.name)
    ensures t.speedSlow == Val(form.speedSlow) && t.speedHalf == Val(form.speedHalf) && t.speedFast == Val(form.speedFast)
    ensures editing.None? ==> t.id == Undefined
    ensures editing.Some? ==> t.id == editing.value.id
    ensures t.accessKey == Undefined && t.online == Undefined && t.started == Undefined
    ensures t.lastSignal == Undefined && t.signalToStopAt == Undefined
  {
    var train := FromJson(Val(Blank.(name := Val(form.name), speedSlow := Val(form.speedSlow),
      speedHalf := Val(form.speedHalf), speedFast := Val(form.speedFast))));
    if editing.Some? then train.(id := editing.value.id) else train
  }

  /**
   * `isValid`; it reads the name's `length` in UTF-16 code units and
   * compares the speeds, which the form always fills in.
   */
  function IsValid(t: Train): (ok: bool)
    requires t.name.Val? && t.speedSlow.Val? && t.speedHalf.Val? && t.speedFast.Val?
    ensures ok <==> (1 <= Utf16Length(t.name.v) <= 50
                     && t.speedSlow.v != 0 && t.speedSlow.v < t.speedHalf.v < t.speedFast.v <= 255)
  {
    if Utf16Length(t.name.v) == 0 then false
    else if Utf16Length(t.name.v) > 50 then false
    else if t.speedSlow.v == 0 || t.speedHalf.v <= t.speedSlow.v || t.speedFast.v <= t.speedHalf.v
            || t.speedFast.v > 255 then false
    else true
  }

  /** Only a zero slow speed is refused, not a negative one. */
  lemma NegativeSlowSpeedAccepted()
    ensures IsValid(GetTrainFromForm(TrainFormFields("loco", -5, 10, 20), None))
  {
  }

  /** `add`: the insert wrapper is called with the form's train only when it is valid. */
  function Add(form: TrainFormFields, editing: Option<Train>): (r: Option<TrainRequest>)
    ensures r.Some? <==> IsValid(GetTrainFromForm(form, editing))
    ensures r.Some? ==> r.value == InsertTrain(GetTrainFromForm(form, editing))
  {
    var train := GetTrainFromForm(form, editing);
    if !IsValid(train) then None else Some(InsertTrain(train))
  }

  /** `update`: as `add`, with the edited train's id carried over. */
  function Update(form: TrainFormFields, editing: Train): (r: Option<TrainRequest>)
    ensures r.Some? <==> IsValid(GetTrainFromForm(form, Some(editing)))
    ensures r.Some? ==> r.value.UpdateTrain? && r.value.train.id == editing.id
                        && r.value.train == GetTrainFromForm(form, Some(editing))
  {
    var train := GetTrainFromForm(form, Some(editing));
    if !IsValid(train) then None else Some(UpdateTrain(train))
  }

  /** `remove`: the delete wrapper gets a train carrying only the edited train's id. */
  function Remove(editing: Train): (r: TrainRequest)
    ensures r.DeleteTrain? && r.train == Blank.(id := editing.id)
  {
    DeleteTrain(FromJson(Val(Blank.(id := editing.id))))
  }
}
