// Shared result types and the Go values the model is written over.
module Basics {
  datatype Option<+T> = None | Some(value: T) {
    predicate IsFailure() {
      None?
    }

    function PropagateFailure<U>(): Option<U>
      requires None?
    {
      None
    }

    function Extract(): T
      requires Some?
    {
      value
    }
  }

  datatype Result<+T, +E> = Ok(value: T) | Err(error: E)

  /** A Go slice: `nil` and the empty slice are different JSON values, so they are kept apart. */
  datatype Slice<+T> = Nil | Of(elems: seq<T>) {
    function Items(): seq<T> {
      if Nil? then [] else elems
    }
  }

  type byte = b: int | 0 <= b < 256

  type Bytes = seq<byte>

  type Bytes20 = b: Bytes | |b| == 20 witness seq(20, _ => 0)

  type Bytes32 = b: Bytes | |b| == 32 witness seq(32, _ => 0)

  const NANOS_PER_SECOND: int := 1_000_000_000

  /** Unix() of an instant given in nanoseconds: the whole seconds, rounded towards the past. */
  function Unix(nanos: int): int {
    nanos / NANOS_PER_SECOND
  }

  method Contains(xs: seq<string>, x: string) returns (found: bool)
    ensures found <==> x in xs
  {
    for i := 0 to |xs|
      invariant x !in xs[..i]
    {
      if xs[i] == x {
        return true;
      }
    }
    assert xs[..|xs|] == xs;
    return false;
  }
}
