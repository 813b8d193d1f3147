/** Shared value types: bytes, options, flattening, and the C/Java narrowing casts. */
module Prelude {

  type byte = x: int | 0 <= x < 256

  const TWO_TO_31: int := 0x8000_0000
  const TWO_TO_32: int := 0x1_0000_0000
  const TWO_TO_63: int := 0x8000_0000_0000_0000
  const TWO_TO_64: int := 0x1_0000_0000_0000_0000

  datatype Option<+T> = None | Some(value: T)

  function Min(a: int, b: int): int {
    if a <= b then a else b
  }

  /** `(int)x` on a two's-complement machine. */
  function WrapInt32(x: int): (r: int)
    ensures -TWO_TO_31 <= r < TWO_TO_31
    ensures -TWO_TO_31 <= x < TWO_TO_31 ==> r == x
  {
    var m := x % TWO_TO_32;
    if m < TWO_TO_31 then m else m - TWO_TO_32
  }

  /** The concatenation of a list of sequences. */
  function Flatten<T>(xs: seq<seq<T>>): seq<T> {
    if xs == [] then [] else xs[0] + Flatten(xs[1..])
  }

  lemma {:induction false} FlattenSnoc<T>(xs: seq<seq<T>>, x: seq<T>)
    ensures Flatten(xs + [x]) == Flatten(xs) + x
  {
    if xs == [] {
      assert xs + [x] == [x];
      assert [x][1..] == [];
    } else {
      FlattenSnoc(xs[1..], x);
      assert (xs + [x])[1..] == xs[1..] + [x];
    }
  }

}
