/** What every part of the platform shares: an optional value, and the keys that make requests idempotent. */
module Wrappers {
  datatype Option<+T> = None | Some(value: T)

  /** An idempotency key: only its identity matters, so a number stands for the text. */
  type Key = nat
}
