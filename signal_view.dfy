/** The client's table row for a signal (MODELS/Signals/SignalView.ts). */
module SignalView {
  import opened Wrappers
  import opened Text
  import opened JsData

  datatype SignalView = SignalView(
    stretchId: Js<int>,
    id: Js<string>,
    onlyId: Js<int>,
    name: Js<string>,
    speedLimit: Js<int>,
    isSwitch: Js<bool>,
    splitter: Js<bool>,
    stretchDetourId: Js<int>,
    signalDetourId: Js<int>,
    loopsBack: Js<bool>,
    stretchLoopBackId: Js<int>,
    signalLoopBackId: Js<int>,
    passthrough: Js<bool>,
    queuedForSwitching: Js<bool>,
    currentlySwitching: Js<bool>,
    switchFailure: Js<bool>,
    aspect: Js<int>,
    forceRed: Js<bool>)

  /** The client's SignalId object: a stretch id and a signal id. */
  datatype SignalIdRef = SignalIdRef(stretchId: Js<int>, signalId: Js<int>)

  /** A view that was never filled in: every field is `undefined`. */
  const Blank: SignalView := SignalView(Undefined, Undefined, Undefined, Undefined, Undefined, Undefined,
    Undefined, Undefined, Undefined, Undefined, Undefined, Undefined, Undefined, Undefined, Undefined,
    Undefined, Undefined, Undefined)

  /** The row key `stretchId + ";" + id`. */
  function CompoundId(stretchId: Js<int>, id: Js<int>): string
  {
    NumberText(stretchId) + ";" + NumberText(id)
  }

  /**
   * `new SignalView(signal)`. Only `undefined` is checked for, so `null`
   * reaches the property reads and throws a TypeError (`None`).
   */
  function FromRecord(signal: Js<SignalRecord>): (view: Option<SignalView>)
    ensures signal.Undefined? ==> view == Some(Blank)
    ensures signal.Null? <==> view.None?
    ensures signal.Val? ==>
              && view.Some?
              && view.value.id == Val(CompoundId(signal.v.stretchId, signal.v.id))
              && view.value.onlyId == signal.v.id
              && view.value.stretchId == signal.v.stretchId
  {
    match signal
    case Undefined => Some(Blank)
    case Null => None
    case Val(s) =>
      Some(SignalView(s.stretchId, Val(CompoundId(s.stretchId, s.id)), s.id, s.name, s.speedLimit,
        s.isSwitch, s.splitter, s.stretchDetourId, s.signalDetourId, s.loopsBack,
        s.stretchLoopBackId, s.signalLoopBackId, s.passthrough, s.queuedForSwitching,
        s.currentlySwitching, s.switchFailure, s.aspect, s.forceRed))
  }

  /** Every field other than `id` and `onlyId` is the record's own, unchanged. */
  lemma FromRecordCopiesFields(s: SignalRecord)
    ensures var v := FromRecord(Val(s)).value;
      v.stretchId == s.stretchId && v.name == s.name && v.speedLimit == s.speedLimit
      && v.isSwitch == s.isSwitch && v.splitter == s.splitter
      && v.stretchDetourId == s.stretchDetourId && v.signalDetourId == s.signalDetourId
      && v.loopsBack == s.loopsBack && v.stretchLoopBackId == s.stretchLoopBackId
      && v.signalLoopBackId == s.signalLoopBackId && v.passthrough == s.passthrough
      && v.queuedForSwitching == s.queuedForSwitching && v.currentlySwitching == s.currentlySwitching
      && v.switchFailure == s.switchFailure && v.aspect == s.aspect && v.forceRed == s.forceRed
  {
  }

  function AspectToString(view: SignalView): (caption: Option<string>)
    ensures caption == Some("clear") <==> view.aspect == Val(ASPECT_CLEAR)
    ensures caption == Some("preliminary-caution") <==> view.aspect == Val(ASPECT_PRELIMINARY_CAUTION)
    ensures caption == Some("caution") <==> view.aspect == Val(ASPECT_CAUTION)
    ensures caption == Some("danger") <==> view.aspect == Val(ASPECT_DANGER)
    ensures caption.None? <==> !(view.aspect.Val? && 0 <= view.aspect.v <= 3)
  {
    AspectLabel(view.aspect)
  }

  function GetSignalId(view: SignalView): (sid: SignalIdRef)
    ensures sid.stretchId == view.stretchId && sid.signalId == view.onlyId
  {
    SignalIdRef(view.stretchId, view.onlyId)
  }

  /** The id a view hands back is the one of the signal it was built from. */
  lemma GetSignalIdOfRecord(s: SignalRecord)
    ensures GetSignalId(FromRecord(Val(s)).value) == SignalIdRef(s.stretchId, s.id)
  {
  }

  /** For natural-number ids the row key determines the (stretch, signal) pair. */
  lemma CompoundIdInjective(a: nat, b: nat, c: nat, d: nat)
    requires CompoundId(Val(a), Val(b)) == CompoundId(Val(c), Val(d))
    ensures a == c && b == d
  {
    var sa, sb, sc, sd := NatToString(a), NatToString(b), NatToString(c), NatToString(d);
    assert ';' !in sa;
    assert ';' !in sc;
    var s := sa + ";" + sb;
    assert s == sc + ";" + sd;
    IndexOfAfterPrefix(sa, ';', sb);
    IndexOfAfterPrefix(sc, ';', sd);
    assert sa == s[..|sa|];
    assert sc == s[..|sc|];
    NatToStringInjective(a, c);
    assert sb == s[|sa| + 1..];
    assert sd == s[|sc| + 1..];
    NatToStringInjective(b, d);
  }
}
