/** Well-formedness of the checksum-type table: what every record of
    krb5int_cksumtypes_list satisfies, in both builds (with and without
    AES_CCM). */
module CksumTypeInvariants {
  import opened CksumTypes

  /** The HMAC-SHA1-96 identifiers of the AES and Camellia key families. */
  predicate IsHmacSha196(id: CksumTypeId)
  {
    id == HmacSha196Aes128 || id == HmacSha196Aes256 || id == HmacSha196Camellia128
  }

  /** Indices of the records whose output is shorter than what they compute. */
  function TruncatingIndices(t: seq<CksumTypeEntry>): (r: set<nat>)
  {
    set i: nat | i < |t| && t[i].outputSize < t[i].computeSize
  }

  /** No record sends out more bytes than it computes; exactly the
      HMAC-SHA1-96 records truncate, from a 20-byte HMAC to 96 bits. */
  lemma TruncationBound(aesCcm: bool)
    ensures var t := CksumTypesList(aesCcm);
      forall i :: 0 <= i < |t| ==>
        && t[i].outputSize <= t[i].computeSize
        && (t[i].outputSize < t[i].computeSize <==> IsHmacSha196(t[i].ctype))
        && (IsHmacSha196(t[i].ctype) ==> t[i].computeSize == 20 && t[i].outputSize * 8 == 96)
  {
  }

  /** The four truncating records are aes128, aes256 and the two Camellia
      HMAC rows; where the last two sit depends on the AES_CCM block. */
  lemma TruncatingRows(aesCcm: bool)
    ensures TruncatingIndices(CksumTypesList(aesCcm))
         == if aesCcm then {9, 10, 14, 15} else {9, 10, 12, 13}
  {
  }

  /** CKSUM_UNKEYED marks exactly the records computed by the unkeyed
      checksum function; those use a hash alone and have no verify
      function. */
  lemma UnkeyedConsistency(aesCcm: bool)
    ensures var t := CksumTypesList(aesCcm);
      forall i :: 0 <= i < |t| ==>
        && (Unkeyed in t[i].flags <==> t[i].checksum == UnkeyedChecksum)
        && (Unkeyed in t[i].flags ==>
              t[i].enc.None? && t[i].hash.Some? && t[i].verify.None?)
  {
  }

  /** CRC-32 is the only record flagged CKSUM_NOT_COLL_PROOF; it is unkeyed
      and four bytes long. */
  lemma CollisionProofness(aesCcm: bool)
    ensures var t := CksumTypesList(aesCcm);
      forall i :: 0 <= i < |t| ==>
        && (NotCollProof in t[i].flags <==> t[i].ctype == Crc32)
        && (NotCollProof in t[i].flags <==> i == 0)
        && (t[i].ctype == Crc32 ==>
              Unkeyed in t[i].flags && t[i].computeSize == 4 && t[i].outputSize == 4)
  {
  }

  /** A record has a verify function exactly when it uses the confounder
      checksum: md4-des and md5-des, DES-keyed, 24 bytes. */
  lemma VerifyPairing(aesCcm: bool)
    ensures var t := CksumTypesList(aesCcm);
      forall i :: 0 <= i < |t| ==>
        && (t[i].verify.Some? <==> t[i].checksum == ConfounderChecksum)
        && (t[i].verify.Some? ==> t[i].verify == Some(ConfounderVerify))
        && (t[i].checksum == ConfounderChecksum ==>
              && t[i].enc == Some(EncDes) && t[i].hash.Some?
              && t[i].computeSize == 24 && t[i].outputSize == 24)
  {
  }

  /** Every record has a provider; the CBC records are exactly those without
      a hash provider, and they have an encryption provider. */
  lemma ProviderPresence(aesCcm: bool)
    ensures var t := CksumTypesList(aesCcm);
      forall i :: 0 <= i < |t| ==>
        && (t[i].enc.Some? || t[i].hash.Some?)
        && (t[i].checksum == CbcChecksum <==> t[i].hash.None?)
        && (t[i].checksum == CbcChecksum ==> t[i].enc.Some?)
  {
  }

  /** The keyed hash functions are tied to their hashes: key derivation
      runs over SHA-1 with no encryption provider, and the RC4 HMAC over MD5
      with the RC4 provider. */
  lemma KeyedHashProviders(aesCcm: bool)
    ensures var t := CksumTypesList(aesCcm);
      forall i :: 0 <= i < |t| ==>
        && (t[i].checksum == DkChecksum ==>
              t[i].enc.None? && t[i].hash == Some(HashSha1) && t[i].computeSize == 20)
        && (t[i].checksum == HmacMd5Checksum ==>
              && t[i].enc == Some(EncArcfour) && t[i].hash == Some(HashMd5)
              && t[i].computeSize == 16 && t[i].outputSize == 16)
  {
  }

  /** No record fills more alias slots than the record has; only
      hmac-sha1-des3 and hmac-md5-rc4 have aliases at all. */
  lemma AliasBound(aesCcm: bool)
    ensures var t := CksumTypesList(aesCcm);
      forall i :: 0 <= i < |t| ==>
        && |t[i].aliases| <= MaxAliases
        && (|t[i].aliases| > 0 <==> t[i].ctype in {HmacSha1Des3, HmacMd5Arcfour})
  {
  }

  /** Defining AES_CCM inserts its two CBC records after the eleventh record
      and changes nothing else. */
  lemma CcmBlockPlacement()
    ensures CksumTypesList(true)
         == CksumTypesList(false)[..11] + CcmEntries + CksumTypesList(false)[11..]
  {
  }

  /** The index of the camellia256 HMAC record in each build. */
  function Camellia256Index(aesCcm: bool): (k: nat)
    ensures k < |CksumTypesList(aesCcm)|
    ensures CksumTypesList(aesCcm)[k] == HmacSha196Camellia256Entry
  {
    if aesCcm then 15 else 13
  }

  /** No two records of `t` share an identifier. */
  predicate IdsDistinct(t: seq<CksumTypeEntry>)
  {
    forall j, i :: 0 <= j < i < |t| ==> t[j].ctype != t[i].ctype
  }

  /** No record of `a` shares an identifier with a record of `b`. */
  predicate IdsDisjoint(a: seq<CksumTypeEntry>, b: seq<CksumTypeEntry>)
  {
    forall j, i :: 0 <= j < |a| && 0 <= i < |b| ==> a[j].ctype != b[i].ctype
  }

  /** The only two records of `t` that share an identifier are those at
      indices `k` and `c`. */
  predicate IdsSharedOnlyAt(t: seq<CksumTypeEntry>, k: int, c: int)
  {
    forall j, i :: 0 <= j < i < |t| && t[j].ctype == t[i].ctype ==> j == k && i == c
  }

  /** The only record of `a` sharing an identifier with a record of `b` is
      the one at index `k`, and that record of `b` is at index `c`. */
  predicate IdsSharedAcrossOnlyAt(a: seq<CksumTypeEntry>, b: seq<CksumTypeEntry>, k: int, c: int)
  {
    forall j, i :: 0 <= j < |a| && 0 <= i < |b| && a[j].ctype == b[i].ctype ==> j == k && i == c
  }

  /** Joining two lists with distinct identifiers that share none keeps
      identifiers distinct. */
  lemma IdsDistinctConcat(a: seq<CksumTypeEntry>, b: seq<CksumTypeEntry>)
    requires IdsDistinct(a) && IdsDistinct(b) && IdsDisjoint(a, b)
    ensures IdsDistinct(a + b)
  {
  }

  /** Appending to `a` a list that shares no identifier with `c` adds no
      pair across to `c`. */
  lemma IdsSharedAcrossConcat(a: seq<CksumTypeEntry>, b: seq<CksumTypeEntry>, c: seq<CksumTypeEntry>, k: int, m: int)
    requires IdsSharedAcrossOnlyAt(a, c, k, m) && IdsDisjoint(b, c)
    ensures IdsSharedAcrossOnlyAt(a + b, c, k, m)
  {
  }

  /** Joining two lists with distinct identifiers, sharing one only across
      the indices `k` and `m`, gives a list whose one shared pair is `k` and
      `m` shifted past `a`. */
  lemma IdsSharedConcat(a: seq<CksumTypeEntry>, b: seq<CksumTypeEntry>, k: int, m: int)
    requires IdsDistinct(a) && IdsDistinct(b) && IdsSharedAcrossOnlyAt(a, b, k, m)
    ensures IdsSharedOnlyAt(a + b, k, |a| + m)
  {
  }

  // The identifier facts about the three parts of the initialiser. The
  // leading part is taken in two halves, each small enough to be settled by
  // case analysis over its records.

  const LeadingFront: seq<CksumTypeEntry> := [
    Crc32Entry, RsaMd4Entry, RsaMd4DesEntry, DesCbcEntry, RsaMd5Entry, RsaMd5DesEntry]

  const LeadingBack: seq<CksumTypeEntry> := [
    NistShaEntry, HmacSha1Des3Entry, HmacMd5Rc4Entry, HmacSha196Aes128Entry, HmacSha196Aes256Entry]

  lemma LeadingIds()
    ensures IdsDistinct(LeadingEntries)
  {
    LeadingFrontIds();
    LeadingBackIds();
    LeadingHalvesIds();
    IdsDistinctConcat(LeadingFront, LeadingBack);
    assert LeadingEntries == LeadingFront + LeadingBack;
  }

  lemma LeadingFrontIds()
    ensures IdsDistinct(LeadingFront)
  {
  }

  lemma LeadingBackIds()
    ensures IdsDistinct(LeadingBack)
  {
  }

  lemma LeadingHalvesIds()
    ensures IdsDisjoint(LeadingFront, LeadingBack)
  {
  }

  lemma CcmAndTrailingIds()
    ensures IdsDistinct(CcmEntries) && IdsDistinct(TrailingEntries)
  {
  }

  lemma LeadingCcmIds()
    ensures IdsDisjoint(LeadingEntries, CcmEntries)
  {
  }

  lemma CcmTrailingIds()
    ensures IdsDisjoint(CcmEntries, TrailingEntries)
  {
  }

  lemma LeadingTrailingIds()
    ensures IdsSharedAcrossOnlyAt(LeadingEntries, TrailingEntries, 10, 2)
  {
  }

  /** Identifiers are unique except for one pair: the camellia256 HMAC record
      repeats the identifier of the aes256 HMAC record at index 10, which
      comes first. */
  lemma IdsUniqueExceptCamellia256(aesCcm: bool)
    ensures IdsSharedOnlyAt(CksumTypesList(aesCcm), 10, Camellia256Index(aesCcm))
    ensures var t := CksumTypesList(aesCcm);
      && t[10] == HmacSha196Aes256Entry
      && t[Camellia256Index(aesCcm)] == HmacSha196Camellia256Entry
      && 10 < Camellia256Index(aesCcm)
    ensures HmacSha196Camellia256Entry.ctype == HmacSha196Aes256Entry.ctype == HmacSha196Aes256
  {
    LeadingIds();
    CcmAndTrailingIds();
    LeadingTrailingIds();
    if aesCcm {
      LeadingCcmIds();
      CcmTrailingIds();
      IdsDistinctConcat(LeadingEntries, CcmEntries);
      IdsSharedAcrossConcat(LeadingEntries, CcmEntries, TrailingEntries, 10, 2);
      IdsSharedConcat(LeadingEntries + CcmEntries, TrailingEntries, 10, 2);
    } else {
      IdsSharedConcat(LeadingEntries, TrailingEntries, 10, 2);
    }
  }
}
