/** Bytes, 32-bit words in network order, and the small types every module shares. */
module Bytes {

  type byte = b: int | 0 <= b < 0x100
  type uint16 = n: int | 0 <= n < 0x1_0000
  type uint32 = n: int | 0 <= n < 0x1_0000_0000

  const TWO_32 := 0x1_0000_0000
  const TWO_31 := 0x8000_0000

  datatype Option<+T> = None | Some(value: T)

  /** htonl(n), byte by byte. */
  function Be32(n: uint32): (b: seq<byte>)
    ensures |b| == 4
  {
    [n / 0x100_0000, n / 0x1_0000 % 0x100, n / 0x100 % 0x100, n % 0x100]
  }

  /** ntohl over four bytes. */
  function FromBe32(b: seq<byte>): uint32
    requires |b| == 4
  {
    b[0] as int * 0x100_0000 + b[1] as int * 0x1_0000 + b[2] as int * 0x100 + b[3] as int
  }

  /** Network order: the most significant byte comes first. */
  lemma {:induction false} BigEndian(n: uint32, a: byte, b: byte, c: byte, d: byte)
    ensures FromBe32([a, b, c, d]) == ((a * 256 + b) * 256 + c) * 256 + d
    ensures FromBe32(Be32(n)) == n
  {}

  /** A row of 32-bit fields, as a packed C struct of `uint32_t` lays them out. */
  function Words(ws: seq<uint32>): (b: seq<byte>)
    ensures |b| == 4 * |ws|
  {
    if ws == [] then [] else Be32(ws[0]) + Words(ws[1..])
  }

  /** The i-th 32-bit field of a packed struct. */
  function Word(b: seq<byte>, i: nat): uint32
    requires 4 * i + 4 <= |b|
  {
    FromBe32(b[4 * i..4 * i + 4])
  }

  lemma {:induction false} WordsRoundTrip(ws: seq<uint32>, tail: seq<byte>, i: nat)
    requires i < |ws|
    ensures Word(Words(ws) + tail, i) == ws[i]
  {
    var b := Words(ws) + tail;
    assert b == Be32(ws[0]) + (Words(ws[1..]) + tail);
    if i == 0 {
      assert b[..4] == Be32(ws[0]);
    } else {
      WordsRoundTrip(ws[1..], tail, i - 1);
      assert b[4 * i..4 * i + 4] == (Words(ws[1..]) + tail)[4 * (i - 1)..4 * (i - 1) + 4];
    }
  }

  function Zeros(n: nat): (b: seq<byte>)
    ensures |b| == n
  {
    seq(n, _ => 0)
  }

  /** Concatenation of a list of packets. */
  function Flatten(ps: seq<seq<byte>>): seq<byte> {
    if ps == [] then [] else Flatten(ps[..|ps| - 1]) + ps[|ps| - 1]
  }

  lemma FlattenSnoc(ps: seq<seq<byte>>, p: seq<byte>)
    ensures Flatten(ps + [p]) == Flatten(ps) + p
  {
    assert (ps + [p])[..|ps|] == ps;
  }

  lemma {:induction false} FlattenAppend(ps: seq<seq<byte>>, qs: seq<seq<byte>>)
    ensures Flatten(ps + qs) == Flatten(ps) + Flatten(qs)
  {
    if qs == [] {
      assert ps + qs == ps && Flatten(ps) + [] == Flatten(ps);
    } else {
      hide Flatten;
      var n := |qs| - 1;
      FlattenAppend(ps, qs[..n]);
      assert qs == qs[..n] + [qs[n]];
      FlattenSnoc(qs[..n], qs[n]);
      assert ps + qs == (ps + qs[..n]) + [qs[n]];
      FlattenSnoc(ps + qs[..n], qs[n]);
    }
  }

  // Division by a variable, where the solver needs a hint.

  lemma {:induction false} SmallMultiple(m: int, k: int, d: int)
    requires m > 0 && m * k == d && -m < d < m
    ensures k == 0
  {}

  lemma {:induction false} ModStep(n: nat, m: nat)
    requires 0 < m <= n
    ensures (n - m) % m == n % m
  {
    var a, b := n / m, (n - m) / m;
    assert n == m * a + n % m && n - m == m * b + (n - m) % m;
    assert m * (a - b - 1) == m * a - m * b - m;
    SmallMultiple(m, a - b - 1, (n - m) % m - n % m);
  }
}
