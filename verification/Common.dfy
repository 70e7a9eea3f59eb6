/** Option, Result and the byte values that several components exchange. */
module Wrappers {
  datatype Option<+T> = None | Some(value: T)

  datatype Result<+T, +E> = Ok(value: T) | Err(error: E)

  newtype byte = x: int | 0 <= x < 256

  type Bytes = seq<byte>

  /** SHA-256 is idealised: a digest determines the bytes it was taken of. */
  datatype Digest = Sha256(of: Bytes)
}

/** The smaller and the larger of two. */
module Numbers {
  function Min(a: int, b: int): int { if a <= b then a else b }

  function Larger(a: nat, b: nat): nat { if a >= b then a else b }
}

/** Upper-casing of ASCII letters, the only ones the components look at. */
module Letters {
  function UpperChar(c: char): char {
    if 'a' <= c <= 'z' then (c as int - 32) as char else c
  }
}

/** Cardinality facts the solver does not find on its own. */
module Finite {
  lemma SubsetSize<T>(a: set<T>, b: set<T>)
    requires a <= b
    ensures |a| <= |b|
  {
    if a != {} {
      var x :| x in a;
      SubsetSize(a - {x}, b - {x});
    }
  }

  /** Every set of at most one key is settled by two of its members being equal. */
  lemma AtMostOne<T>(a: set<T>)
    requires forall x, y :: x in a && y in a ==> x == y
    ensures |a| <= 1
  {
    if a != {} {
      var x :| x in a;
      assert a == {x};
    }
  }
}
