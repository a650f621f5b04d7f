/** Value wrappers shared by every module: an optional value (a TypeScript
    `T | undefined` / `T | null`) and one key of a partial update object
    (`Partial<T>`: the key is absent, or present with a new value). */
module Basics {

  datatype Option<+T> = None | Some(value: T) {
    function GetOr(default: T): T {
      match this
      case Some(v) => v
      case None => default
    }
  }

  /** One key of a spread update `{ ...old, ...updates }`: `Keep` when the
      update object lacks the key, `Put(v)` when it carries it. */
  datatype Patch<+T> = Keep | Put(value: T) {
    function Over(prior: T): T {
      match this
      case Keep => prior
      case Put(v) => v
    }

    /** The key's effect, stated on its own: a carried value replaces the
        prior one, an absent key keeps it. */
    ghost predicate Sets(prior: T, after: T) {
      (Put? ==> after == value) && (Keep? ==> after == prior)
    }
  }
}
