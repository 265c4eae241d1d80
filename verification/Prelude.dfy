/** Bytes, options and the small sequence facts shared by the other modules. */
module Prelude {
  datatype Option<+T> = None | Some(value: T)

  newtype Byte = b: int | 0 <= b < 256

  function Min(a: nat, b: nat): nat {
    if a < b then a else b
  }

  function Max(a: nat, b: nat): nat {
    if a < b then b else a
  }

  /** The concatenation of a sequence of messages. */
  function Flatten(messages: seq<seq<Byte>>): seq<Byte> {
    if messages == [] then [] else Flatten(messages[..|messages| - 1]) + messages[|messages| - 1]
  }
}
