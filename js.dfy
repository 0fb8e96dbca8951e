/** JavaScript and React values that the sidebar and field components inspect:
    optional values, thrown errors, and the truthiness of what a component
    receives as `children`. */
module Js {

  /** A value that may be `undefined` (`x?: T` in TypeScript). */
  datatype Option<+T> = None | Some(value: T) {

    /** `x ?? fallback`. */
    function GetOr(fallback: T): T {
      match this
      case Some(v) => v
      case None => fallback
    }
  }

  /** The outcome of a call that either returns a value or throws an `Error`. */
  datatype Result<+T> = Ok(value: T) | Thrown(message: string)

  /** What a component can receive as `children` (a React node). Numbers are
      integers here: NaN is not modelled. */
  datatype Node =
    | Undefined
    | Null
    | Bool(b: bool)
    | Num(n: int)
    | Text(s: string)
    | Element(tag: string, children: seq<Node>)
    | Fragment(items: seq<Node>)

  /** JavaScript truthiness, as used by `if (x)`, `!!x` and `x && y`. Arrays
      and elements are objects, so they are truthy even when empty. */
  predicate Truthy(x: Node) {
    match x
    case Undefined => false
    case Null => false
    case Bool(b) => b
    case Num(n) => n != 0
    case Text(s) => s != ""
    case Element(_, _) => true
    case Fragment(_) => true
  }

  /** Whether React puts anything on screen for `x` in a child slot:
      `undefined`, `null` and booleans render nothing, every number renders
      its digits, a string renders when it is non-empty. */
  predicate Visible(x: Node) {
    match x
    case Undefined => false
    case Null => false
    case Bool(_) => false
    case Num(_) => true
    case Text(s) => s != ""
    case Element(_, _) => true
    case Fragment(items) => exists i :: 0 <= i < |items| && Visible(items[i])
  }

  /** The one way a falsy child still shows up on screen: the number 0. */
  lemma FalsyButVisible(x: Node)
    ensures !Truthy(x) && Visible(x) <==> x == Num(0)
  {
  }
}
