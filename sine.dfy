// std::sin is not modelled; the engine receives it as a function value, and
// the only fact about it that any property here relies on is its range.

module Sine {

  /** The sine function lies in [-1, 1] everywhere. */
  ghost predicate SineBounded(sin: real -> real)
  {
    forall t :: -1.0 <= sin(t) <= 1.0
  }
}
