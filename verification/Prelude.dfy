/** Machine integers, outcomes and the few sequence helpers the other modules share. */
module Prelude {

  // The source's integer widths.  Arithmetic that can leave a width is written out where it happens.
  type u8 = x: int | 0 <= x < 0x100
  type u64 = x: int | 0 <= x < 0x1_0000_0000_0000_0000
  type i64 = x: int | -0x8000_0000_0000_0000 <= x < 0x8000_0000_0000_0000

  const U64_SIZE: int := 0x1_0000_0000_0000_0000
  const I64_MAX: int := 0x7FFF_FFFF_FFFF_FFFF
  const I64_MIN: int := -0x8000_0000_0000_0000

  /** A Rust `String`: its UTF-8 bytes. */
  type Text = seq<u8>

  datatype Option<+T> = None | Some(value: T)

  datatype Result<+T, +E> = Ok(value: T) | Err(error: E) {
    predicate IsFailure() {
      Err?
    }

    function PropagateFailure<U>(): Result<U, E>
      requires Err?
    {
      Err(error)
    }

    function Extract(): T
      requires Ok?
    {
      value
    }
  }

  /** `v as u64` for an `i64`: two's complement. */
  function AsU64(v: i64): u64 {
    if v < 0 then v + U64_SIZE else v
  }

  /** `v as i64` for a `u64`. */
  function AsI64(v: u64): i64 {
    if v <= I64_MAX then v else v - U64_SIZE
  }

  predicate InI64(v: int) {
    I64_MIN <= v <= I64_MAX
  }

  /** The bytes of an ASCII literal. */
  function Ascii(s: string): (t: Text)
    requires forall i :: 0 <= i < |s| ==> s[i] < 128 as char
    ensures |t| == |s| && forall i :: 0 <= i < |t| ==> t[i] == s[i] as int && t[i] < 128
  {
    seq(|s|, i requires 0 <= i < |s| => s[i] as int)
  }

  /** The elements that `f` keeps, in order: Rust's `filter_map`. */
  function Keep<T, U>(items: seq<T>, f: T -> Option<U>): seq<U> {
    if items == [] then []
    else
      var rest := Keep(items[1..], f);
      match f(items[0])
      case None => rest
      case Some(u) => [u] + rest
  }

  /** One part after the other. */
  function Flatten<T>(parts: seq<seq<T>>): seq<T> {
    if parts == [] then [] else parts[0] + Flatten(parts[1..])
  }

  function Max(a: int, b: int): int {
    if a < b then b else a
  }

  function Min(a: int, b: int): int {
    if a < b then a else b
  }

  lemma SliceOfSlice<T>(s: seq<T>, lo: nat, hi: nat, a: nat, b: nat)
    requires lo <= a <= b <= hi <= |s|
    ensures s[lo..hi][a - lo..b - lo] == s[a..b]
  {
    forall i | 0 <= i < b - a ensures s[lo..hi][a - lo..b - lo][i] == s[a..b][i] {
      assert s[lo..hi][a - lo + i] == s[a + i];
    }
  }
}
