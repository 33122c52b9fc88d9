/** The two byte-level steps of sendTransaction: assembling the preimage that
    is hashed into the Safe transaction digest, and normalising the recovery
    id of the 65-byte signature in place. */
module Digest {
  import opened Common

  /** The prefix the code puts in front of the two struct hashes: bytes 1 and
      19 (0x01 0x13). EIP-712 prescribes 0x19 0x01; the model keeps the bytes
      as the code writes them. */
  const Prefix: seq<Byte> := [1, 19]

  /** The "\x19\x01" prefix of EIP-712, for comparison only. */
  const Eip712Prefix: seq<Byte> := [0x19, 0x01]

  /** The bytes hashed into the digest: prefix, domain hash, message hash. */
  function Preimage(domainHash: seq<Byte>, messageHash: seq<Byte>): seq<Byte> {
    Prefix + domainHash + messageHash
  }

  /** The Safe transaction digest: Keccak-256 of the preimage. Keccak-256 is
      a parameter, so equal inputs give equal digests for any hash function. */
  function TxDigest(keccak256: seq<Byte> -> Hash, domainHash: Hash, messageHash: Hash): Hash {
    keccak256(Preimage(domainHash, messageHash))
  }

  /** sendTransaction's construction of encodedTx: start from the two prefix
      bytes and append the domain hash, then the message hash. */
  method BuildPreimage(domainHash: Hash, messageHash: Hash) returns (encoded: seq<Byte>)
    ensures encoded == Preimage(domainHash, messageHash)
    ensures |encoded| == 66
    ensures encoded[..2] == [1, 19]
    ensures encoded[2..34] == domainHash && encoded[34..] == messageHash
  {
    encoded := [1, 19];
    encoded := encoded + domainHash;
    encoded := encoded + messageHash;
  }

  /** Reads a 66-byte preimage back into its two hashes. */
  function SplitPreimage(p: seq<Byte>): Option<(Hash, Hash)> {
    if |p| == 66 && p[..2] == Prefix then Some((p[2..34], p[34..])) else None
  }

  /** The layout is unambiguous: the two hashes can be read back, and every
      preimage that reads back is the one built from its two hashes. */
  lemma PreimageRoundTrip(domainHash: Hash, messageHash: Hash, p: seq<Byte>)
    ensures SplitPreimage(Preimage(domainHash, messageHash)) == Some((domainHash, messageHash))
    ensures SplitPreimage(p).Some? ==> Preimage(SplitPreimage(p).value.0, SplitPreimage(p).value.1) == p
  {
    var q := Preimage(domainHash, messageHash);
    assert q[..2] == Prefix && q[2..34] == domainHash && q[34..] == messageHash;
    if SplitPreimage(p).Some? {
      assert p == p[..2] + p[2..34] + p[34..];
    }
  }

  /** Distinct (domain, message) pairs never share a preimage. */
  lemma PreimageInjective(d1: Hash, m1: Hash, d2: Hash, m2: Hash)
    requires Preimage(d1, m1) == Preimage(d2, m2)
    ensures d1 == d2 && m1 == m2
  {
    PreimageRoundTrip(d1, m1, []);
    PreimageRoundTrip(d2, m2, []);
  }

  /** The prefix differs from EIP-712's in both bytes and in order. */
  lemma PrefixIsNotEip712()
    ensures Prefix != Eip712Prefix
    ensures Prefix[0] == Eip712Prefix[1] && Prefix[1] != Eip712Prefix[0]
  {
  }

  /** The recovery byte after normalisation: 0 and 1 move up by 27, anything
      else is left as it is. */
  function NormalizedV(v: Byte): (r: Byte) {
    if v == 0 || v == 1 then v + 27 else v
  }

  /** A normalised byte lies in {27, 28} exactly when the raw byte was a
      recovery id 0 or 1 or already in the conventional range; the raw id can
      be read back from it; normalising twice changes nothing. */
  lemma NormalizedVProperties(v: Byte)
    ensures NormalizedV(v) in {27, 28} <==> v in {0, 1, 27, 28}
    ensures v in {0, 1} ==> NormalizedV(v) - 27 == v
    ensures v !in {0, 1} ==> NormalizedV(v) == v
    ensures NormalizedV(NormalizedV(v)) == NormalizedV(v)
  {
  }

  /** The signature with byte 64 normalised and bytes 0..63 untouched. */
  function NormalizedSignature(sig: seq<Byte>): (r: seq<Byte>)
    requires |sig| > 64
    ensures |r| == |sig|
    ensures r[64] in {27, 28} <==> sig[64] in {0, 1, 27, 28}
    ensures forall i :: 0 <= i < |sig| && i != 64 ==> r[i] == sig[i]
  {
    sig[64 := NormalizedV(sig[64])]
  }

  /** sendTransaction's in-place fix of the recovery byte: a 0 or 1 in byte
      64 is raised by 27, every other byte of the array is left alone. */
  method NormalizeRecoveryId(signature: array<Byte>)
    requires signature.Length > 64
    modifies signature
    ensures signature[..] == NormalizedSignature(old(signature[..]))
    ensures signature[..64] == old(signature[..64])
    ensures old(signature[64]) == 0 ==> signature[64] == 27
    ensures old(signature[64]) == 1 ==> signature[64] == 28
    ensures old(signature[64]) !in {0, 1} ==> signature[64] == old(signature[64])
  {
    if signature[64] == 0 || signature[64] == 1 {
      signature[64] := signature[64] + 27;
    }
  }
}
