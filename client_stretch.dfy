/** The client's stretch record (MODELS/Stretches/Stretch.ts). */
module ClientStretch {
  import opened JsData

  datatype Stretch = Stretch(id: Js<int>, name: Js<string>, stretchType: Js<int>)

  /** The code of OneWaySingleTrack, as the server numbers its stretch types. */
  const ONE_WAY_SINGLE_TRACK: int := 1

  const Blank: Stretch := Stretch(Undefined, Undefined, Undefined)

  /** `new Stretch(stretch)`: `undefined` and `null` leave all three fields unset. */
  function FromJson(stretch: Js<Stretch>): (s: Stretch)
    ensures !stretch.Val? ==> s == Blank
    ensures stretch.Val? ==>
              s.id == stretch.v.id && s.name == stretch.v.name && s.stretchType == stretch.v.stretchType
  {
    match stretch
    case Val(source) => Stretch(source.id, source.name, source.stretchType)
    case _ => Blank
  }

  function TypeToString(s: Stretch): (caption: string)
    ensures caption == "one-way-single-track" <==> s.stretchType == Val(ONE_WAY_SINGLE_TRACK)
    ensures caption != "one-way-single-track" ==> caption == ""
  {
    if s.stretchType == Val(ONE_WAY_SINGLE_TRACK) then "one-way-single-track" else ""
  }
}
