/** The client's train record (MODELS/Trains/Train.ts). */
module ClientTrain {
  import opened Wrappers
  import opened JsData

  datatype Train = Train(
    id: Js<int>,
    name: Js<string>,
    speedSlow: Js<int>,
    speedHalf: Js<int>,
    speedFast: Js<int>,
    accessKey: Js<int>,
    online: Js<bool>,
    lastSignal: Js<SignalRecord>,
    lastSignalPassedAspect: Js<int>,
    started: Js<bool>,
    stopAtSignal: Js<bool>,
    signalToStopAt: Js<SignalRecord>)

  /** A train that was never filled in: every field is `undefined`. */
  const Blank: Train := Train(Undefined, Undefined, Undefined, Undefined, Undefined, Undefined,
    Undefined, Undefined, Undefined, Undefined, Undefined, Undefined)

  /**
   * `new Train(train)`: `undefined` and `null` leave every field unset,
   * any object has its twelve fields copied one to one.
   */
  function FromJson(train: Js<Train>): (t: Train)
    ensures !train.Val? ==> t == Blank
    ensures train.Val? ==> t == train.v
  {
    match train
    case Val(source) =>
      Train(source.id, source.name, source.speedSlow, source.speedHalf, source.speedFast,
        source.accessKey, source.online, source.lastSignal, source.lastSignalPassedAspect,
        source.started, source.stopAtSignal, source.signalToStopAt)
    case _ => Blank
  }

  /** The label of the aspect the train last passed; `null` or an unknown code has none. */
  function AspectToString(t: Train): (caption: Option<string>)
    ensures caption == Some("clear") <==> t.lastSignalPassedAspect == Val(ASPECT_CLEAR)
    ensures caption == Some("preliminary-caution") <==> t.lastSignalPassedAspect == Val(ASPECT_PRELIMINARY_CAUTION)
    ensures caption == Some("caution") <==> t.lastSignalPassedAspect == Val(ASPECT_CAUTION)
    ensures caption == Some("danger") <==> t.lastSignalPassedAspect == Val(ASPECT_DANGER)
    ensures t.lastSignalPassedAspect.Null? ==> caption.None?
  {
    AspectLabel(t.lastSignalPassedAspect)
  }
}
