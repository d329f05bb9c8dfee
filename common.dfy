/** Small shared vocabulary: optional values (JavaScript's `undefined`/`null`
    against a present value) and the timestamp type. */
module Common {

  datatype Option<+T> = None | Some(value: T) {
    function GetOr(default: T): T {
      match this
      case Some(v) => v
      case None => default
    }
  }

  /** Document ids (Mongo ObjectIds); only equality matters. */
  type Id = nat

  /** Instants are abstract integers (milliseconds); only their order matters. */
  type Time = int

  function Max(a: int, b: int): int {
    if a < b then b else a
  }
}
