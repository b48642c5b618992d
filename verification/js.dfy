/** The few pieces of JavaScript semantics the tool handlers rely on. */
module Js {

  /** The value read from a property of the argument object: a property the
      caller did not supply reads as `undefined`. Argument values are strings. */
  datatype Value = Undefined | Str(s: string)

  /** A tool-call argument object, property name to string value. */
  type Args = map<string, string>

  /** Destructuring `{ key }` out of the argument object. */
  function Get(args: Args, key: string): Value
  {
    if key in args then Str(args[key]) else Undefined
  }

  /** How a value renders inside a template literal `${v}`. */
  function Interpolate(v: Value): string
  {
    match v
    case Undefined => "undefined"
    case Str(s) => s
  }
}
