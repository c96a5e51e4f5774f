/** Sequence operations shared by the step relations. */
module Sequences {
  /** xs with the element at i taken out. */
  function Without<T>(xs: seq<T>, i: nat): seq<T>
    requires i < |xs|
  {
    xs[..i] + xs[i + 1..]
  }
}
