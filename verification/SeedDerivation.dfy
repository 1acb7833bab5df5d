/**
 How the scenario sampler turns a request for randomness into a generator seed: an FNV-1a hash, in
 wrapping 64-bit arithmetic, of the purpose tag, the bucket, the worker and the sequence number.
 */
module SeedDerivation {

  type Seed = bv64
  type Byte = b: int | 0 <= b < 256

  const FNV_OFFSET: Seed := 0xcbf2_9ce4_8422_2325
  const FNV_PRIME: Seed := 0x0000_0100_0000_01b3

  function HashByte(hash: Seed, b: Byte): Seed
  {
    (hash ^ (b as Seed)) * FNV_PRIME
  }

  function Hashed(hash: Seed, bytes: seq<Byte>): Seed
  {
    if bytes == [] then hash else HashByte(Hashed(hash, bytes[..|bytes| - 1]), bytes[|bytes| - 1])
  }

  /** hash_bytes, the loop over a local. */
  method HashBytes(hash: Seed, bytes: seq<Byte>) returns (h: Seed)
    ensures h == Hashed(hash, bytes)
  {
    h := hash;
    for i := 0 to |bytes|
      invariant h == Hashed(hash, bytes[..i])
    {
      assert bytes[..i + 1][..i] == bytes[..i];
      h := HashByte(h, bytes[i]);
    }
    assert bytes[..|bytes|] == bytes;
  }

  lemma {:induction false} HashedConcat(hash: Seed, a: seq<Byte>, b: seq<Byte>)
    ensures Hashed(Hashed(hash, a), b) == Hashed(hash, a + b)
    decreases |b|
  {
    if b == [] {
      assert a + b == a;
    } else {
      HashedConcat(hash, a, b[..|b| - 1]);
      assert (a + b)[..|a + b| - 1] == a + b[..|b| - 1];
    }
  }

  /** to_le_bytes, for `width` bytes. */
  function LittleEndian(n: nat, width: nat): (bytes: seq<Byte>)
    ensures |bytes| == width
  {
    if width == 0 then [] else [n % 256] + LittleEndian(n / 256, width - 1)
  }

  function Pow256(width: nat): nat
  {
    if width == 0 then 1 else 256 * Pow256(width - 1)
  }

  lemma {:induction false} LittleEndianInjective(n: nat, m: nat, width: nat)
    requires n < Pow256(width) && m < Pow256(width)
    requires LittleEndian(n, width) == LittleEndian(m, width)
    ensures n == m
    decreases width
  {
    if width > 0 {
      assert LittleEndian(n, width)[1..] == LittleEndian(n / 256, width - 1);
      assert LittleEndian(m, width)[1..] == LittleEndian(m / 256, width - 1);
      assert LittleEndian(n, width)[0] == LittleEndian(m, width)[0];
      LittleEndianInjective(n / 256, m / 256, width - 1);
    }
  }

  const U32_MAX := 4294967295
  const U64_MAX := 18446744073709551615

  /** What a draw is for. */
  datatype Tag = Emission | SourceLag | CollectorLag | LatentPressure | BurstLoss

  /** The tag texts, byte by byte. */
  function TagBytes(tag: Tag): seq<Byte>
  {
    match tag
    case Emission => [101, 109, 105, 115, 115, 105, 111, 110]
    case SourceLag => [115, 111, 117, 114, 99, 101, 45, 108, 97, 103]
    case CollectorLag => [99, 111, 108, 108, 101, 99, 116, 111, 114, 45, 108, 97, 103]
    case LatentPressure => [108, 97, 116, 101, 110, 116, 45, 112, 114, 101, 115, 115, 117, 114, 101]
    case BurstLoss => [98, 117, 114, 115, 116, 45, 108, 111, 115, 115]
  }

  function DeriveSeed(seed: Seed, tag: Tag, bucket: nat, workerId: seq<Byte>, sequence: nat): Seed
  {
    var tagged := Hashed(FNV_OFFSET ^ seed, TagBytes(tag));
    var bucketed := Hashed(tagged, LittleEndian(bucket, 4));
    Hashed(Hashed(bucketed, workerId), LittleEndian(sequence, 8))
  }

  /** The bytes a derived seed is the hash of. */
  function SeedKey(tag: seq<Byte>, bucket: nat, workerId: seq<Byte>, sequence: nat): seq<Byte>
  {
    tag + LittleEndian(bucket, 4) + workerId + LittleEndian(sequence, 8)
  }

  /** The four hashing steps hash one byte string, ... */
  lemma SeedIsHashOfKey(seed: Seed, tag: Tag, bucket: nat, workerId: seq<Byte>, sequence: nat)
    ensures DeriveSeed(seed, tag, bucket, workerId, sequence)
         == Hashed(FNV_OFFSET ^ seed, SeedKey(TagBytes(tag), bucket, workerId, sequence))
  {
    HashesChain(FNV_OFFSET ^ seed, TagBytes(tag), LittleEndian(bucket, 4), workerId, LittleEndian(sequence, 8));
  }

  lemma HashesChain(hash: Seed, a: seq<Byte>, b: seq<Byte>, c: seq<Byte>, d: seq<Byte>)
    ensures Hashed(Hashed(Hashed(Hashed(hash, a), b), c), d) == Hashed(hash, a + b + c + d)
  {
    HashedConcat(hash, a, b);
    HashedConcat(hash, a + b, c);
    HashedConcat(hash, a + b + c, d);
  }

  /** ... which no two different requests for randomness share. */
  lemma SeedKeyInjective(t0: Tag, b0: nat, w0: seq<Byte>, s0: nat, t1: Tag, b1: nat, w1: seq<Byte>, s1: nat)
    requires b0 <= U32_MAX && b1 <= U32_MAX && s0 <= U64_MAX && s1 <= U64_MAX
    requires SeedKey(TagBytes(t0), b0, w0, s0) == SeedKey(TagBytes(t1), b1, w1, s1)
    ensures t0 == t1 && b0 == b1 && w0 == w1 && s0 == s1
  {
    assert TagBytes(t0)[0] == SeedKey(TagBytes(t0), b0, w0, s0)[0] == TagBytes(t1)[0];
    assert t0 == t1;
    FieldsOfKey(TagBytes(t0), b0, w0, s0, b1, w1, s1);
  }

  lemma FieldsOfKey(tag: seq<Byte>, b0: nat, w0: seq<Byte>, s0: nat, b1: nat, w1: seq<Byte>, s1: nat)
    requires b0 <= U32_MAX && b1 <= U32_MAX && s0 <= U64_MAX && s1 <= U64_MAX
    requires SeedKey(tag, b0, w0, s0) == SeedKey(tag, b1, w1, s1)
    ensures b0 == b1 && w0 == w1 && s0 == s1
  {
    var k := SeedKey(tag, b0, w0, s0);
    var n, t := |k|, |tag|;
    assert LittleEndian(b0, 4) == k[t..t + 4] == LittleEndian(b1, 4);
    assert LittleEndian(s0, 8) == k[n - 8..] == LittleEndian(s1, 8);
    assert w0 == k[t + 4..n - 8] == w1;
    assert Pow256(4) == 4294967296 && Pow256(8) == 18446744073709551616 by {
      assert Pow256(0) == 1 && Pow256(1) == 256 && Pow256(2) == 65536 && Pow256(3) == 16777216;
      assert Pow256(5) == 256 * Pow256(4) && Pow256(6) == 256 * Pow256(5) && Pow256(7) == 256 * Pow256(6);
    }
    LittleEndianInjective(b0, b1, 4);
    LittleEndianInjective(s0, s1, 8);
  }
}
