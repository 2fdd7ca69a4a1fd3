/** Which flag the latest request of some kind asked for. */
module Recency {

  /** The flag asked for by the latest request of some kind, or none when no
      such request was made. */
  datatype Latest = NoRequest | Requested(flag: bool)

  /** The flag asked for, falling back to `current` when there was no request. */
  function FlagOr(l: Latest, current: bool): bool
  {
    match l
    case Requested(b) => b
    case NoRequest => current
  }
}
