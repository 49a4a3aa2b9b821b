/** Bytes, little-endian lengths and the sequence vocabulary shared by every layer. */
module Bytes {

  type byte = x: int | 0 <= x < 256

  type bytes = seq<byte>

  const U32_RANGE: nat := 0x1_0000_0000

  datatype Option<+T> = None | Some(value: T)

  datatype Result<+T, +E> = Ok(value: T) | Err(error: E)

  /** Rust's `n as u32` for a length: the value is kept modulo 2^32. */
  function AsU32(n: nat): nat {
    n % U32_RANGE
  }

  function LE32(n: nat): (b: bytes)
    requires n < U32_RANGE
    ensures |b| == 4
  {
    [n % 256, n / 0x100 % 256, n / 0x1_0000 % 256, n / 0x100_0000]
  }

  function FromLE32(b: bytes): nat
    requires |b| == 4
  {
    b[0] as nat + b[1] as nat * 0x100 + b[2] as nat * 0x1_0000 + b[3] as nat * 0x100_0000
  }

  lemma LittleEndianInverse(n: nat)
    requires n < U32_RANGE
    ensures FromLE32(LE32(n)) == n
  {
    var (q0, q1, q2) := (n / 0x100, n / 0x1_0000, n / 0x100_0000);
    assert n == n % 256 + 0x100 * q0;
    assert q0 == q0 % 256 + 0x100 * q1;
    assert q1 == q1 % 256 + 0x100 * q2;
  }

  /** The order of the bytes: a small number is its own first byte, and shifting up by one byte moves all of them one
      place back, behind the new lowest byte. */
  lemma LowestByteFirst(n: nat, low: byte)
    requires 0x100 * n + low < U32_RANGE
    ensures LE32(low) == [low, 0, 0, 0]
    ensures LE32(0x100 * n + low) == [low] + LE32(n)[..3]
  {
    var m := 0x100 * n + low;
    DigitsShift(n, low);
    assert LE32(m)[0] == low && LE32(m)[1] == LE32(n)[0] && LE32(m)[2] == LE32(n)[1] && LE32(m)[3] == LE32(n)[2];
  }

  lemma DigitsShift(n: nat, low: byte)
    requires 0x100 * n + low < U32_RANGE
    ensures var m := 0x100 * n + low;
            && m % 256 == low && m / 0x100 % 256 == n % 256 && m / 0x1_0000 % 256 == n / 0x100 % 256
            && m / 0x100_0000 == n / 0x1_0000 % 256
  {
    var m := 0x100 * n + low;
    assert m / 0x100 == n;
    assert m / 0x1_0000 == n / 0x100;
    assert m / 0x100_0000 == n / 0x1_0000 < 256;
  }

  function Min(a: nat, b: nat): nat {
    if a <= b then a else b
  }

  function Flatten(chunks: seq<bytes>): bytes {
    if chunks == [] then [] else Flatten(chunks[..|chunks| - 1]) + chunks[|chunks| - 1]
  }

  lemma FlattenSnoc(chunks: seq<bytes>, chunk: bytes)
    ensures Flatten(chunks + [chunk]) == Flatten(chunks) + chunk
  {
    assert (chunks + [chunk])[..|chunks|] == chunks;
  }

  lemma {:induction false} FlattenConcat(a: seq<bytes>, b: seq<bytes>)
    ensures Flatten(a + b) == Flatten(a) + Flatten(b)
  {
    if b == [] {
      assert a + b == a;
    } else {
      var init, last := b[..|b| - 1], b[|b| - 1];
      assert b == init + [last];
      assert a + b == (a + init) + [last];
      FlattenSnoc(a + init, last);
      FlattenSnoc(init, last);
      FlattenConcat(a, init);
    }
  }

  lemma FlattenCons(chunk: bytes, chunks: seq<bytes>)
    ensures Flatten([chunk] + chunks) == chunk + Flatten(chunks)
  {
    FlattenConcat([chunk], chunks);
    assert [chunk] == [] + [chunk];
    FlattenSnoc([], chunk);
  }
}
