/** Small types and functions that several models share. */
module Prelude {

  datatype Option<T> = None | Some(value: T)

  type Byte = x: int | 0 <= x < 256

  function One(b: bool): nat { if b then 1 else 0 }

  /** A C string without its final NUL. */
  predicate NoNul(s: string) { forall i :: 0 <= i < |s| ==> s[i] != '\0' }

  lemma Digit(x: nat, q: nat, base: nat, r: nat)
    requires base == 2 || base == 8 || base == 16 || base == 1024
    requires x == base * q + r && r < base
    ensures x / base == q && x % base == r
  {
  }
}
