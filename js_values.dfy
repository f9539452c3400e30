/** JavaScript values as the dashboard's code observes them: primitive values,
    truthiness, and optional object properties. Numbers are modelled as
    integers, since the dashboard only compares them. */
module JsValues {

  datatype Option<T> = None | Some(value: T)

  /** A primitive JavaScript value. */
  datatype JsValue = JsUndefined | JsNull | JsNumber(n: int) | JsString(s: string)

  /** JavaScript truthiness on the values above: `undefined`, `null`, `0` and
      `""` are falsy, everything else is truthy. */
  predicate Truthy(v: JsValue)
  {
    match v
    case JsUndefined => false
    case JsNull => false
    case JsNumber(n) => n != 0
    case JsString(s) => s != ""
  }

  /** An optional property of an object whose declared type is `T`: the key is
      absent, or present holding `undefined`, `null` or a value of type `T`. */
  datatype Prop<T> = Absent | Undefined | Null | Value(value: T)

  /** Object spread `{ ...o, ...p }` on one key: the right-hand object wins
      whenever it owns the key, even when it holds `undefined`. */
  function Spread<T>(left: Prop<T>, right: Prop<T>): Prop<T>
  {
    if right.Absent? then left else right
  }

  /** The own property as a JavaScript value, `None` when the key is absent. */
  function NumberEntry(p: Prop<int>): Option<JsValue>
  {
    match p
    case Absent => None
    case Undefined => Some(JsUndefined)
    case Null => Some(JsNull)
    case Value(n) => Some(JsNumber(n))
  }

  function StringEntry(p: Prop<string>): Option<JsValue>
  {
    match p
    case Absent => None
    case Undefined => Some(JsUndefined)
    case Null => Some(JsNull)
    case Value(s) => Some(JsString(s))
  }

  /** Reading `o.k`: an absent key reads as `undefined`. */
  function Read(e: Option<JsValue>): JsValue
  {
    match e
    case None => JsUndefined
    case Some(v) => v
  }
}
