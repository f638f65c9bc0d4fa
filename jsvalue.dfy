/**
 * The JavaScript values the parser stores, and the mutable property bag
 * (a plain JavaScript object) it stores them in.
 */
module JsValue {
  import opened Wrappers
  import opened Dom

  /** A JavaScript number: an IEEE-754 binary64 value, given by its bit pattern (NaN included). */
  datatype Number = Number(bits: bv64)

  /** The language's `parseFloat`, taken as an arbitrary function from text to number. */
  type FloatParser = string -> Number

  /** The two altitude modes the parser distinguishes. */
  datatype AltitudeMode = ClampToGround | RelativeToGround

  /** The values that end up as properties of the output objects. */
  datatype Value =
    | Undefined
    | Num(n: Number)
    | Mode(mode: AltitudeMode)
    | Asset(payload: Payload)
      /** A point geometry; its coordinates in order, undefined where `None`. */
    | Point(coordinates: seq<Option<Number>>)
      /** A nested plain object, held by value. */
    | Dict(entries: map<string, Value>)

  /** Property name to value; a key that is absent is distinct from one that holds `Undefined`. */
  type Props = map<string, Value>

  /** A caller-owned plain JavaScript object whose properties the parser sets in place. */
  class JsObject {
    var props: Props

    /** The empty object literal `{}`. */
    constructor ()
      ensures props == map[]
    {
      props := map[];
    }
  }
}
