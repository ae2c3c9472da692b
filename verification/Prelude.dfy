/** Small shared datatypes. */
module Prelude {
  datatype Option<+T> = None | Some(value: T)

  datatype Result<+T, +E> = Ok(value: T) | Err(error: E)

  const TWO_64: nat := 0x1_0000_0000_0000_0000
  const TWO_63: nat := 0x8000_0000_0000_0000

  /** What a Go uint64 keeps of an integer: addition, subtraction and multiplication wrap around. */
  function Wrap(x: int): (r: nat)
    ensures r < TWO_64
    ensures 0 <= x < TWO_64 ==> r == x
  {
    x % TWO_64
  }

  /** A uint64 read as an int64. */
  function ToInt64(x: nat): int
  {
    if x < TWO_63 then x else x - TWO_64
  }

  lemma UnionThenUpdate<K, V>(m: map<K, V>, n: map<K, V>, k: K, v: V)
    ensures m + n[k := v] == (m + n)[k := v]
  {
  }

  lemma InsertedMembers<T>(s: seq<T>, i: nat, e: T)
    requires i <= |s|
    ensures forall x :: x in s[..i] + [e] + s[i..] <==> x in s || x == e
  {
  }
}
