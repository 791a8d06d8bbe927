/** Address derivation of src/mappings/utils.ts: the byte layouts behind a
    parachain's sovereign account and a staking pool's derivative
    sub-accounts, and the network selection that picks the pool's ledgers.

    The SS58 address codec (`encodeAddress` / `decodeAddress`) and the
    BLAKE2b-256 hash of RFC 7693 are foreign primitives: they are fields of a
    `Crypto` value passed in, so every fact proved here holds whatever they
    compute; facts about decoded addresses assume only `CodecRoundTrips`. */
module Address {
  import opened Wrappers
  import opened Bytes

  /** A parachain id: the chain's `u32`. */
  type ParaId = x: nat | x < 0x1_0000_0000

  /** Para id of the pool's parachain on the Kusama network. */
  const HeikoParaId: ParaId := 2085
  /** Para id of the pool's parachain on the Polkadot network. */
  const ParallelParaId: ParaId := 2012
  /** Derivative indices the pool stakes through. */
  const DerivativeIndexList: seq<nat> := [0]

  /** Why a derivation call throws. */
  datatype DerivationError =
    | MalformedAddress   // `decodeAddress` rejected the signer
    | IndexOutOfRange    // the index does not fit the 16 bits `bnToU8a(index, 16)` allots

  /** The foreign primitives, given as functions. */
  datatype Crypto = Crypto(
    encodeAddress: seq<Byte> -> string,
    decodeAddress: string -> Option<seq<Byte>>,
    blake2b256: seq<Byte> -> seq<Byte>)

  /** Decoding an encoded 32-byte account id gives it back. */
  ghost predicate CodecRoundTrips(c: Crypto) {
    forall b: seq<Byte> {:trigger c.encodeAddress(b)} ::
      |b| == 32 ==> c.decodeAddress(c.encodeAddress(b)) == Some(b)
  }

  /** `stringToU8a("para")`. */
  const ParaTag: seq<Byte> := [0x70, 0x61, 0x72, 0x61]
  /** `stringToU8a("modlpy/utilisuba")`. */
  const SubAccountSeed: seq<Byte> :=
    [0x6d, 0x6f, 0x64, 0x6c, 0x70, 0x79, 0x2f, 0x75, 0x74, 0x69, 0x6c, 0x69, 0x73, 0x75, 0x62, 0x61]

  /** `ParaTag` is the UTF-8 encoding of the ASCII string "para". */
  lemma ParaTagIsAscii()
    ensures IsAscii("para") && ParaTag == AsciiBytes("para")
  {
    var tag := "para";
    forall i | 0 <= i < 4 ensures tag[i] as int < 128 {
      assert tag[i] in "para";
    }
    var bytes := AsciiBytes(tag);
    forall i | 0 <= i < 4 ensures ParaTag[i] == bytes[i] {
      assert bytes[i] == tag[i] as int;
    }
  }

  /** `SubAccountSeed` is the UTF-8 encoding of the ASCII string "modlpy/utilisuba". */
  lemma SubAccountSeedIsAscii()
    ensures IsAscii("modlpy/utilisuba") && SubAccountSeed == AsciiBytes("modlpy/utilisuba")
  {
    var seed := "modlpy/utilisuba";
    forall i | 0 <= i < 16 ensures seed[i] as int < 128 {
      assert seed[i] in "modlpy/utilisuba";
    }
    var bytes := AsciiBytes(seed);
    forall i | 0 <= i < 16 ensures SubAccountSeed[i] == bytes[i] {
      assert bytes[i] == seed[i] as int;
    }
  }

  // ---------------------------------------------------------------------
  // Sovereign account of a parachain

  /** The 32 bytes `u8aConcat("para", bnToU8a(paraId, 32, true), zeros(32)).subarray(0, 32)`. */
  function SovereignPreimage(paraId: ParaId): (r: seq<Byte>)
    ensures |r| == 32
    ensures r[..4] == [0x70, 0x61, 0x72, 0x61]
    ensures FromLittleEndian(r[4..8]) == paraId
    ensures forall i | 8 <= i < 32 :: r[i] == 0
  {
    var r := (ParaTag + LittleEndian(paraId, 4) + Zeros(32))[..32];
    assert r[4..8] == LittleEndian(paraId, 4) by {
      forall k | 0 <= k < 4 ensures r[4..8][k] == LittleEndian(paraId, 4)[k] { }
    }
    LittleEndianRoundTrip(paraId, 4);
    r
  }

  /** `sovereignAccountOf(paraId)`: the encoded preimage, which a codec that
      round-trips decodes back to the preimage. */
  function SovereignAccountOf(c: Crypto, paraId: ParaId): (r: string)
    ensures CodecRoundTrips(c) ==> c.decodeAddress(r) == Some(SovereignPreimage(paraId))
  {
    c.encodeAddress(SovereignPreimage(paraId))
  }

  /** Distinct para ids have distinct sovereign preimages. */
  lemma SovereignPreimageInjective(a: ParaId, b: ParaId)
    requires a != b
    ensures SovereignPreimage(a) != SovereignPreimage(b)
  {
    var pa, pb := SovereignPreimage(a), SovereignPreimage(b);
    if pa == pb {
      assert false;
    }
  }

  /** With a codec that round-trips, distinct para ids have distinct sovereign accounts. */
  lemma SovereignAccountsDistinct(c: Crypto, a: ParaId, b: ParaId)
    requires CodecRoundTrips(c)
    requires a != b
    ensures SovereignAccountOf(c, a) != SovereignAccountOf(c, b)
  {
    SovereignPreimageInjective(a, b);
  }

  /** `getSovereignAccounts(paraIds)`: one account per id, in order. */
  function GetSovereignAccounts(c: Crypto, paraIds: seq<ParaId>): (r: seq<string>)
    ensures |r| == |paraIds|
    ensures forall i | 0 <= i < |paraIds| :: r[i] == SovereignAccountOf(c, paraIds[i])
  {
    if paraIds == [] then [] else [SovereignAccountOf(c, paraIds[0])] + GetSovereignAccounts(c, paraIds[1..])
  }

  // ---------------------------------------------------------------------
  // Derivative sub-account of the staking pool

  /** `bnToU8a(index, 16).reverse()`: the 16-bit little-endian encoding, reversed. */
  function IndexBytes(index: nat): (r: seq<Byte>)
    requires index < 0x10000
    ensures |r| == 2 && r[0] as int * 256 + r[1] as int == index
  {
    var le := LittleEndian(index, 2);
    LittleEndianRoundTrip(index, 2);
    assert FromLittleEndian(le) == le[0] as int + 256 * le[1] as int by {
      assert le[1..][1..] == [];
    }
    Reverse(le)
  }

  /** Reading `bnToU8a(index, 16)` high byte first or low byte first gives
      the same two bytes exactly when both bytes are equal, that is when the
      index is a multiple of 257; index 0 is one. */
  lemma IndexBytesOrderFree(index: nat)
    requires index < 0x10000
    ensures IndexBytes(index) == Reverse(IndexBytes(index)) <==> index % 257 == 0
  {
    var r := IndexBytes(index);
    var hi, lo := r[0] as int, r[1] as int;
    assert index == hi * 256 + lo;
    if index % 257 == 0 {
      var k := index / 257;
      assert index == k * 256 + k;
      assert hi == k && lo == k;
      assert Reverse(r) == [r[1], r[0]];
    }
    if r == Reverse(r) {
      assert Reverse(r)[0] == r[1];
      assert index == hi * 257;
    }
  }

  /** The bytes `subAccountId` hashes: seed, decoded signer, index high byte first. */
  function SubAccountPreimage(who: seq<Byte>, index: nat): (r: seq<Byte>)
    requires index < 0x10000
    ensures |r| == 16 + |who| + 2
    ensures r[..16] == SubAccountSeed
    ensures r[16..16 + |who|] == who
    ensures r[|r| - 2] as int * 256 + r[|r| - 1] as int == index
  {
    var r := SubAccountSeed + who + IndexBytes(index);
    assert r[|r| - 2..] == IndexBytes(index);
    r
  }

  /** For one signer, distinct 16-bit indices give distinct preimages. */
  lemma SubAccountPreimageInjective(who: seq<Byte>, a: nat, b: nat)
    requires a < 0x10000 && b < 0x10000
    requires a != b
    ensures SubAccountPreimage(who, a) != SubAccountPreimage(who, b)
  {
  }

  /** What `subAccountId(signer, index)` returns or throws. */
  function SubAccountIdOf(c: Crypto, signer: string, index: nat): (r: Result<string, DerivationError>)
    ensures c.decodeAddress(signer).None? <==> r == Failure(MalformedAddress)
    ensures r == Failure(IndexOutOfRange) <==> c.decodeAddress(signer).Some? && index >= 0x10000
    ensures r.Success? ==>
      r.value == c.encodeAddress(c.blake2b256(SubAccountPreimage(c.decodeAddress(signer).value, index)))
  {
    match c.decodeAddress(signer)
    case None => Failure(MalformedAddress)
    case Some(who) =>
      if index >= 0x10000 then Failure(IndexOutOfRange)
      else Success(c.encodeAddress(c.blake2b256(SubAccountPreimage(who, index))))
  }

  /** `combinedBytes.set(src, offset)`. */
  method SetAt(buf: array<Byte>, src: seq<Byte>, offset: nat)
    requires offset + |src| <= buf.Length
    modifies buf
    ensures buf[..] == old(buf[..offset]) + src + old(buf[offset + |src|..])
  {
    forall k | 0 <= k < |src| {
      buf[offset + k] := src[k];
    }
    assert buf[..] == old(buf[..offset]) + src + old(buf[offset + |src|..]) by {
      forall k | 0 <= k < buf.Length
        ensures buf[..][k] == (old(buf[..offset]) + src + old(buf[offset + |src|..]))[k]
      {
      }
    }
  }

  /** Writing `a`, `b` and `c` one after another over a buffer of exactly
      their total length leaves their concatenation. */
  lemma {:induction false} SpliceThree(z: seq<Byte>, a: seq<Byte>, b: seq<Byte>, c: seq<Byte>)
    requires |z| == |a| + |b| + |c|
    ensures var s1 := z[..0] + a + z[|a|..];
            var s2 := s1[..|a|] + b + s1[|a| + |b|..];
            s2[..|a| + |b|] + c + s2[|a| + |b| + |c|..] == a + b + c
  {
    var s1 := z[..0] + a + z[|a|..];
    var s2 := s1[..|a|] + b + s1[|a| + |b|..];
    assert s2[..|a| + |b|] == a + b by {
      assert s1[..|a|] == a;
    }
  }

  /** `subAccountId(signer, index)`: fills a fresh buffer with the preimage at
      the computed offsets, hashes it and encodes the digest. */
  method SubAccountId(c: Crypto, signer: string, index: nat) returns (r: Result<string, DerivationError>)
    ensures r == SubAccountIdOf(c, signer, index)
  {
    var decoded := c.decodeAddress(signer);
    if decoded.None? {
      return Failure(MalformedAddress);
    }
    if index >= 0x10000 {
      return Failure(IndexOutOfRange);
    }
    var seedBytes := SubAccountSeed;
    var whoBytes := decoded.value;
    var indexBytes := IndexBytes(index);
    var combinedBytes := new Byte[|seedBytes| + |whoBytes| + |indexBytes|](_ => 0);
    SpliceThree(combinedBytes[..], seedBytes, whoBytes, indexBytes);
    SetAt(combinedBytes, seedBytes, 0);
    SetAt(combinedBytes, whoBytes, |seedBytes|);
    SetAt(combinedBytes, indexBytes, |seedBytes| + |whoBytes|);
    var entropy := c.blake2b256(combinedBytes[..]);
    r := Success(c.encodeAddress(entropy));
  }

  // ---------------------------------------------------------------------
  // Staking ledgers of the pool

  /** `s.startsWith(prefix)`: the first |prefix| characters of s are those of prefix. */
  predicate StartsWith(s: string, prefix: string): (b: bool)
    ensures b <==> |prefix| <= |s| && forall i | 0 <= i < |prefix| :: s[i] == prefix[i]
  {
    |prefix| <= |s| && s[..|prefix|] == prefix
  }

  /** The para id `getStakingLedgers` derives from for a chain name, if the
      network is known. */
  function NetworkParaId(chain: string): (r: Option<ParaId>)
    ensures StartsWith(chain, "Kusama") ==> r == Some(HeikoParaId)
    ensures !StartsWith(chain, "Kusama") && StartsWith(chain, "Polkadot") ==> r == Some(ParallelParaId)
    ensures r.None? <==> !StartsWith(chain, "Kusama") && !StartsWith(chain, "Polkadot")
  {
    if StartsWith(chain, "Kusama") then Some(HeikoParaId)
    else if StartsWith(chain, "Polkadot") then Some(ParallelParaId)
    else None
  }

  /** `indices.map(idx => subAccountId(signer, idx))`, throwing at the first failure. */
  function SubAccounts(c: Crypto, signer: string, indices: seq<nat>): (r: Result<seq<string>, DerivationError>)
    ensures r.Success? ==> |r.value| == |indices|
    ensures r.Success? ==>
      forall k | 0 <= k < |indices| :: SubAccountIdOf(c, signer, indices[k]) == Success(r.value[k])
    ensures r.Failure? ==> exists k | 0 <= k < |indices| :: SubAccountIdOf(c, signer, indices[k]) == Failure(r.error)
  {
    if indices == [] then Success([])
    else
      match SubAccountIdOf(c, signer, indices[0])
      case Failure(e) => Failure(e)
      case Success(a) =>
        match SubAccounts(c, signer, indices[1..])
        case Failure(e) => Failure(e)
        case Success(rest) => Success([a] + rest)
  }

  /** `getStakingLedgers()` for the chain name `chain`: an unknown network
      has no ledgers and throws nothing; a known one has one ledger per
      derivative index when it throws nothing. */
  function StakingLedgers(c: Crypto, chain: string): (r: Result<seq<string>, DerivationError>)
    ensures !StartsWith(chain, "Kusama") && !StartsWith(chain, "Polkadot") ==> r == Success([])
    ensures r.Success? && NetworkParaId(chain).Some? ==> |r.value| == |DerivativeIndexList|
  {
    match NetworkParaId(chain)
    case None => Success([])
    case Some(paraId) => SubAccounts(c, SovereignAccountOf(c, paraId), DerivativeIndexList)
  }

  /** On a known network every derivative index yields one ledger: the
      encoded hash of the sub-account preimage of the network's sovereign
      account, in the order of the index list. */
  lemma KnownNetworkLedgers(c: Crypto, chain: string)
    requires CodecRoundTrips(c)
    requires NetworkParaId(chain).Some?
    ensures var r := StakingLedgers(c, chain);
      && r.Success?
      && |r.value| == |DerivativeIndexList|
      && forall k | 0 <= k < |DerivativeIndexList| ::
           r.value[k] == c.encodeAddress(c.blake2b256(
             SubAccountPreimage(SovereignPreimage(NetworkParaId(chain).value), DerivativeIndexList[k])))
  {
    var paraId := NetworkParaId(chain).value;
    assert c.decodeAddress(SovereignAccountOf(c, paraId)) == Some(SovereignPreimage(paraId));
  }
}
