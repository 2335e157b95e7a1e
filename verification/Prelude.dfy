/** Value types shared by the models. */
module Prelude {

  datatype Option<+T> = None | Some(value: T)

  /** A call that may throw: `Threw` carries no detail, only that the caller sees an exception. */
  datatype Result<+T> = Ok(value: T) | Threw

  /** A JavaScript number; only comparisons and integrality matter to these models. */
  datatype JsNumber = NaN | Infinity(negative: bool) | Finite(value: real) {
    predicate Positive() {
      match this
      case NaN => false
      case Infinity(negative) => !negative
      case Finite(value) => value > 0.0
    }

    predicate Integer() {
      Finite? && value == value.Floor as real
    }
  }

  /** The bytes of a string in UTF-8. */
  function Utf8Length(text: string): nat {
    if text == "" then 0
    else
      var c := text[0] as int;
      (if c < 0x80 then 1 else if c < 0x800 then 2 else if c < 0x1_0000 then 3 else 4) + Utf8Length(text[1..])
  }
}
