/** Types shared by every module: optional values, results, bytes, row identifiers and the clock. */
module Basics {

  datatype Option<+T> = None | Some(value: T)

  datatype Result<+T, +E> = Ok(value: T) | Err(error: E)

  /** One octet. Go strings and byte slices are both sequences of octets here. */
  type byte = b: int | 0 <= b < 256

  type Bytes = seq<byte>

  /** A UUID, read as the big-endian number its 16 octets spell. */
  type Id = n: int | 0 <= n < 0x1_0000_0000_0000_0000_0000_0000_0000_0000

  /** Instants of a clock that never runs backwards. */
  type Time = int

  ghost predicate NoDuplicates<T>(s: seq<T>) {
    forall i, j :: 0 <= i < j < |s| ==> s[i] != s[j]
  }

  function ToSet<T>(s: seq<T>): set<T> {
    set x | x in s
  }

  /** A list without repetitions has as many elements as its set. */
  lemma {:induction false} DistinctCardinality<T>(s: seq<T>)
    requires NoDuplicates(s)
    ensures |ToSet(s)| == |s|
  {
    if s != [] {
      DistinctCardinality(s[1..]);
      assert ToSet(s) == {s[0]} + ToSet(s[1..]);
    }
  }
}
