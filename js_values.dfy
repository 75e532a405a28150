/** JavaScript values as they arrive in a socket.io handshake or event
    payload. Only the two shapes the handlers distinguish are modelled: a
    field is either missing (`undefined`) or a string. */
module JsValues {

  datatype Option<T> = None | Some(value: T)

  /** A payload field: `undefined` or a string. */
  datatype Value = Undefined | Str(s: string)

  /** The property key JavaScript uses when a value indexes a plain object:
      a string stands for itself and `undefined` becomes the string
      "undefined" (so `map[undefined]` and `delete map[undefined]` touch the
      key "undefined"). */
  function Key(v: Value): string {
    match v
    case Undefined => "undefined"
    case Str(s) => s
  }

  /** JavaScript truthiness of a payload field: `undefined` and the empty
      string are falsy, every other string is truthy. */
  predicate Truthy(v: Value) {
    v.Str? && v.s != []
  }
}
