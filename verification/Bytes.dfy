// Bytes and little-endian 16 bit fields.
module Bytes {
  datatype Option<T> = None | Some(value: T)

  type Byte = b: int | 0 <= b < 256

  function Word(lo: int, hi: int): int {
    lo + 256 * hi
  }

  function Get16(s: seq<Byte>, i: nat): nat
    requires i + 1 < |s|
  {
    Word(s[i], s[i + 1])
  }

  function Set16(s: seq<Byte>, i: nat, v: nat): seq<Byte>
    requires i + 1 < |s|
  {
    s[i := v % 256][i + 1 := (v / 256) % 256]
  }

  lemma Digits(v: nat)
    ensures Word(v % 256, v / 256 % 256) == v % 65536
  {
    assert v == 256 * (v / 256) + v % 256;
    assert v / 256 == 256 * (v / 65536) + v / 256 % 256;
  }

  // What is written is read back, truncated to 16 bits; the rest stays.
  lemma SetGet(s: seq<Byte>, i: nat, v: nat)
    requires i + 1 < |s|
    ensures Get16(Set16(s, i, v), i) == v % 65536
    ensures |Set16(s, i, v)| == |s| && forall k :: 0 <= k < |s| && k != i && k != i + 1 ==> Set16(s, i, v)[k] == s[k]
  {
    Digits(v);
  }
}
