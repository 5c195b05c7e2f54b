/** Facts about sequences. */
module Sequences {

  lemma Associate<T>(x: seq<T>, y: seq<T>, z: seq<T>)
    ensures x + (y + z) == (x + y) + z
  {
  }
}
