/** bitsetToBytes and bytesToBitset: eight bits to the byte, lowest first. */
module BloomPacking {

  function Mask(k: nat): bv8
    requires k < 8
  {
    1 << k
  }

  predicate BitAt(bytes: seq<bv8>, i: nat)
    requires i / 8 < |bytes|
  {
    bytes[i / 8] & Mask(i % 8) != 0
  }

  /** The bytes say what the bits say, and the padding is zero. */
  ghost predicate Packs(bytes: seq<bv8>, bits: seq<bool>) {
    && |bytes| == (|bits| + 7) / 8
    && forall i: nat :: i / 8 < |bytes| ==> (BitAt(bytes, i) <==> i < |bits| && bits[i])
  }

  function Unpacked(bytes: seq<bv8>, size: nat): (bits: seq<bool>)
    ensures |bits| == size
  {
    seq(size, i requires 0 <= i < size => i / 8 < |bytes| && BitAt(bytes, i))
  }

  lemma OrSets(b: bv8, k: nat, j: nat)
    requires k < 8 && j < 8
    ensures (b | Mask(k)) & Mask(j) != 0 <==> j == k || b & Mask(j) != 0
  {
  }

  lemma SameBits(a: bv8, b: bv8)
    requires forall k: nat :: k < 8 ==> (a & Mask(k) != 0 <==> b & Mask(k) != 0)
    ensures a == b
  {
    assert a & Mask(0) != 0 <==> b & Mask(0) != 0;
    assert a & Mask(1) != 0 <==> b & Mask(1) != 0;
    assert a & Mask(2) != 0 <==> b & Mask(2) != 0;
    assert a & Mask(3) != 0 <==> b & Mask(3) != 0;
    assert a & Mask(4) != 0 <==> b & Mask(4) != 0;
    assert a & Mask(5) != 0 <==> b & Mask(5) != 0;
    assert a & Mask(6) != 0 <==> b & Mask(6) != 0;
    assert a & Mask(7) != 0 <==> b & Mask(7) != 0;
  }

  /** Unpacking undoes packing, for every bit sequence of every length. */
  lemma UnpackUndoesPack(bytes: seq<bv8>, bits: seq<bool>)
    requires Packs(bytes, bits)
    ensures Unpacked(bytes, |bits|) == bits
  {
    forall i | 0 <= i < |bits| ensures Unpacked(bytes, |bits|)[i] == bits[i] {
      assert i / 8 < |bytes|;
    }
  }

  lemma BitOfByte(bytes: seq<bv8>, n: nat, k: nat)
    requires n < |bytes| && k < 8
    ensures (8 * n + k) / 8 == n && (BitAt(bytes, 8 * n + k) <==> bytes[n] & Mask(k) != 0)
  {
    assert (8 * n + k) / 8 == n && (8 * n + k) % 8 == k;
  }

  /** There is only one way to pack a bit sequence. */
  lemma PackingUnique(bytes: seq<bv8>, bytes': seq<bv8>, bits: seq<bool>)
    requires Packs(bytes, bits) && Packs(bytes', bits)
    ensures bytes == bytes'
  {
    forall n | 0 <= n < |bytes| ensures bytes[n] == bytes'[n] {
      forall k: nat | k < 8 ensures bytes[n] & Mask(k) != 0 <==> bytes'[n] & Mask(k) != 0 {
        BitOfByte(bytes, n, k);
        BitOfByte(bytes', n, k);
      }
      SameBits(bytes[n], bytes'[n]);
    }
  }

  method BitsetToBytes(bitset: array<bool>) returns (bytes: array<bv8>)
    ensures fresh(bytes) && Packs(bytes[..], bitset[..])
  {
    var byteCount := (bitset.Length + 7) / 8;
    bytes := new bv8[byteCount](_ => 0);
    for i := 0 to bitset.Length
      invariant fresh(bytes) && bytes.Length == byteCount
      invariant forall j: nat :: j / 8 < byteCount ==> (BitAt(bytes[..], j) <==> j < i && bitset[j])
    {
      if bitset[i] {
        ghost var before := bytes[..];
        bytes[i / 8] := bytes[i / 8] | Mask(i % 8);
        forall j: nat | j / 8 < byteCount ensures BitAt(bytes[..], j) <==> j < i + 1 && bitset[j] {
          OrSets(before[i / 8], i % 8, j % 8);
          assert BitAt(before, j) <==> j < i && bitset[j];
          assert i / 8 == j / 8 && i % 8 == j % 8 ==> i == j;
        }
      }
    }
  }

  method BytesToBitset(bytes: seq<bv8>, size: nat) returns (bitset: array<bool>)
    ensures fresh(bitset) && bitset[..] == Unpacked(bytes, size)
  {
    bitset := new bool[size](_ => false);
    for i := 0 to size
      invariant fresh(bitset) && bitset.Length == size
      invariant forall j :: 0 <= j < i ==> bitset[j] == (j / 8 < |bytes| && BitAt(bytes, j))
      invariant forall j :: i <= j < size ==> !bitset[j]
    {
      if i / 8 < |bytes| {
        bitset[i] := bytes[i / 8] & Mask(i % 8) != 0;
      }
    }
  }
}
