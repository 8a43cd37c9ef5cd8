/** Types shared by the models of the collector's modules. */
module Common {

  datatype Option<+T> = None | Some(value: T)

  /** A 32-bit unsigned word, the payload of both stacks and the identifier of an object. */
  type U32 = x: int | 0 <= x < 0x1_0000_0000

  ghost predicate NoDups<T>(xs: seq<T>) {
    forall i, j :: 0 <= i < j < |xs| ==> xs[i] != xs[j]
  }
}
