/**
 * JavaScript values as the browser client sees them after `JSON.parse`:
 * a field is either missing (`undefined`), `null`, or holds a value. The
 * client's record classes copy fields without checking them, so every field
 * of a client record carries this three-way shape.
 */
module JsData {
  import opened Wrappers
  import opened Text

  datatype Js<T> = Undefined | Null | Val(v: T)

  /** `if (x)` on a boolean field: only a present `true` is truthy. */
  predicate Truthy(b: Js<bool>)
  {
    b == Val(true)
  }

  /** The text `x + ";"` starts with when `x` is a number field. */
  function NumberText(n: Js<int>): string
  {
    match n
    case Undefined => "undefined"
    case Null => "null"
    case Val(x) => IntToString(x)
  }

  /**
   * A string's `length` in JavaScript: the number of UTF-16 code units, so
   * a character beyond U+FFFF counts twice.
   */
  function Utf16Length(s: string): (n: nat)
    ensures |s| <= n <= 2 * |s|
    ensures n == 0 <==> s == []
  {
    if s == [] then 0
    else Utf16Length(s[..|s| - 1]) + (if s[|s| - 1] as int >= 0x1_0000 then 2 else 1)
  }

  /** Text made only of characters up to U+FFFF has as many code units as characters. */
  lemma {:induction false} Utf16LengthOfBasic(s: string)
    requires forall k :: 0 <= k < |s| ==> s[k] as int < 0x1_0000
    ensures Utf16Length(s) == |s|
  {
    if s != [] {
      Utf16LengthOfBasic(s[..|s| - 1]);
    }
  }

  /** Text made only of characters beyond U+FFFF has two code units per character. */
  lemma {:induction false} Utf16LengthOfAstral(s: string)
    requires forall k :: 0 <= k < |s| ==> s[k] as int >= 0x1_0000
    ensures Utf16Length(s) == 2 * |s|
  {
    if s != [] {
      Utf16LengthOfAstral(s[..|s| - 1]);
    }
  }

  // The numeric codes of the signal aspects (the server's SignalAspect, in declaration order).
  const ASPECT_CLEAR: int := 0
  const ASPECT_PRELIMINARY_CAUTION: int := 1
  const ASPECT_CAUTION: int := 2
  const ASPECT_DANGER: int := 3

  /** The caption key shown for an aspect code; `None` is the `undefined` a switch without a matching case returns. */
  function AspectLabel(aspect: Js<int>): (caption: Option<string>)
    ensures aspect == Val(ASPECT_CLEAR) <==> caption == Some("clear")
    ensures aspect == Val(ASPECT_PRELIMINARY_CAUTION) <==> caption == Some("preliminary-caution")
    ensures aspect == Val(ASPECT_CAUTION) <==> caption == Some("caution")
    ensures aspect == Val(ASPECT_DANGER) <==> caption == Some("danger")
    ensures caption.None? <==> !(aspect.Val? && 0 <= aspect.v <= 3)
  {
    match aspect
    case Val(a) =>
      if a == ASPECT_CLEAR then Some("clear")
      else if a == ASPECT_PRELIMINARY_CAUTION then Some("preliminary-caution")
      else if a == ASPECT_CAUTION then Some("caution")
      else if a == ASPECT_DANGER then Some("danger")
      else None
    case _ => None
  }

  /** A signal as the server serialises it (the fields a SignalView is built from). */
  datatype SignalRecord = SignalRecord(
    stretchId: Js<int>,
    id: Js<int>,
    name: Js<string>,
    speedLimit: Js<int>,
    isSwitch: Js<bool>,
    splitter: Js<bool>,
    stretchDetourId: Js<int>,
    signalDetourId: Js<int>,
    loopsBack: Js<bool>,
    stretchLoopBackId: Js<int>,
    signalLoopBackId: Js<int>,
    passthrough: Js<bool>,
    queuedForSwitching: Js<bool>,
    currentlySwitching: Js<bool>,
    switchFailure: Js<bool>,
    aspect: Js<int>,
    forceRed: Js<bool>)
}
