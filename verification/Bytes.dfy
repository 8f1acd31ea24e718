/** Octets, little-endian words and flattening: the vocabulary of every wire layer. */
module Bytes {
  type Byte = b: int | 0 <= b < 0x100
  type Word16 = n: int | 0 <= n < 0x1_0000
  type Word32 = n: int | 0 <= n < 0x1_0000_0000

  function Le16(n: Word16): (r: seq<Byte>)
    ensures |r| == 2
  {
    [n % 0x100, n / 0x100]
  }

  function Le32(n: Word32): (r: seq<Byte>)
    ensures |r| == 4
  {
    [n % 0x100, n / 0x100 % 0x100, n / 0x1_0000 % 0x100, n / 0x100_0000]
  }

  function FromLe16(s: seq<Byte>, at: nat): Word16
    requires at + 2 <= |s|
  {
    s[at] as int + 0x100 * s[at + 1] as int
  }

  function FromLe32(s: seq<Byte>, at: nat): Word32
    requires at + 4 <= |s|
  {
    s[at] as int + 0x100 * s[at + 1] as int + 0x1_0000 * s[at + 2] as int + 0x100_0000 * s[at + 3] as int
  }

  lemma Le16RoundTrip(n: Word16)
    ensures FromLe16(Le16(n), 0) == n
  {
  }

  lemma Le32RoundTrip(n: Word32)
    ensures FromLe32(Le32(n), 0) == n
  {
    assert n == 0x100 * (n / 0x100) + n % 0x100;
    var m := n / 0x100;
    assert m == 0x100 * (m / 0x100) + m % 0x100;
    var k := m / 0x100;
    assert k == n / 0x1_0000;
    assert k == 0x100 * (k / 0x100) + k % 0x100;
    assert k / 0x100 == n / 0x100_0000;
  }

  /** Reading a word looks only at its own bytes. */
  lemma FromLe16At(s: seq<Byte>, at: nat, n: Word16)
    requires at + 2 <= |s| && s[at..at + 2] == Le16(n)
    ensures FromLe16(s, at) == n
  {
    assert s[at] == s[at..at + 2][0] && s[at + 1] == s[at..at + 2][1];
    Le16RoundTrip(n);
  }

  lemma FromLe32At(s: seq<Byte>, at: nat, n: Word32)
    requires at + 4 <= |s| && s[at..at + 4] == Le32(n)
    ensures FromLe32(s, at) == n
  {
    var w := s[at..at + 4];
    assert s[at] == w[0] && s[at + 1] == w[1] && s[at + 2] == w[2] && s[at + 3] == w[3];
    Le32RoundTrip(n);
  }

  lemma SliceOfSlice(b: seq<Byte>, at: nat, w: seq<Byte>, lo: nat, hi: nat)
    requires at + |w| <= |b| && b[at..at + |w|] == w && lo <= hi <= |w|
    ensures b[at + lo..at + hi] == w[lo..hi]
  {
    forall k | 0 <= k < hi - lo
      ensures b[at + lo..at + hi][k] == w[lo..hi][k]
    {
      assert w[lo + k] == b[at..at + |w|][lo + k];
    }
  }

  function Zeros(n: nat): (r: seq<Byte>)
    ensures |r| == n
  {
    seq(n, _ => 0)
  }

  /** Concatenation of a list of lists, built the way an append loop builds it. */
  function Flatten<T>(xss: seq<seq<T>>): seq<T> {
    if xss == [] then [] else Flatten(xss[..|xss| - 1]) + xss[|xss| - 1]
  }

  lemma FlattenSnoc<T>(xss: seq<seq<T>>, xs: seq<T>)
    ensures Flatten(xss + [xs]) == Flatten(xss) + xs
  {
    assert (xss + [xs])[..|xss|] == xss;
  }

  lemma {:induction false} FlattenConcat<T>(xss: seq<seq<T>>, yss: seq<seq<T>>)
    ensures Flatten(xss + yss) == Flatten(xss) + Flatten(yss)
    decreases |yss|
  {
    if yss == [] {
      assert xss + yss == xss;
    } else {
      var front, last := yss[..|yss| - 1], yss[|yss| - 1];
      assert xss + yss == (xss + front) + [last];
      FlattenSnoc(xss + front, last);
      FlattenConcat(xss, front);
    }
  }

  lemma FlattenCons<T>(xs: seq<T>, yss: seq<seq<T>>)
    ensures Flatten([xs] + yss) == xs + Flatten(yss)
  {
    assert Flatten([xs]) == xs by { assert [xs][..0] == []; }
    FlattenConcat([xs], yss);
  }
}
