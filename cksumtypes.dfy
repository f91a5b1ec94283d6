/** The static checksum-type registry of the Kerberos crypto library: the
    constant array krb5int_cksumtypes_list and its derived length
    krb5int_cksumtypes_length.

    The providers and checksum functions the table points at are defined
    elsewhere and are cryptographic; here each is an opaque tag, and a NULL
    pointer is None. The CKSUMTYPE_* identifiers are kept by name: their
    numeric values come from krb5.h, which is not part of this model. */
module CksumTypes {

  datatype Option<+T> = None | Some(value: T)

  /** The CKSUMTYPE_* constants that the table uses, one constructor each. */
  datatype CksumTypeId =
    | Crc32
    | RsaMd4
    | RsaMd4Des
    | DesCbc
    | RsaMd5
    | RsaMd5Des
    | NistSha
    | HmacSha1Des3
    | HmacMd5Arcfour
    | HmacSha196Aes128
    | HmacSha196Aes256
    | Aes128Cbc
    | Aes256Cbc
    | Md5HmacArcfour
    | HmacSha196Camellia128
    | Camellia128Cbc
    | Camellia256Cbc

  /** The encryption providers referenced by the table (krb5int_enc_*). */
  datatype EncProvider =
    | EncDes
    | EncArcfour
    | EncAes128Ctr
    | EncAes256Ctr
    | EncCamellia256Ctr

  /** The hash providers referenced by the table (krb5int_hash_*). */
  datatype HashProvider = HashCrc32 | HashMd4 | HashMd5 | HashSha1

  /** The checksum functions referenced by the table (krb5int_*_checksum). */
  datatype ChecksumFn =
    | UnkeyedChecksum
    | ConfounderChecksum
    | CbcChecksum
    | DkChecksum
    | HmacMd5Checksum

  /** The verify functions referenced by the table (krb5int_*_verify). */
  datatype VerifyFn = ConfounderVerify

  /** The bits of the flags word: CKSUM_UNKEYED and CKSUM_NOT_COLL_PROOF. */
  datatype CksumFlag = Unkeyed | NotCollProof

  /** The alias array of a record has this many slots; a NULL slot is absent. */
  const MaxAliases: nat := 2

  /** One record of struct krb5_cksumtypes. `aliases` holds the non-NULL
      alias slots in order; `flags` is the set of bits that are set. */
  datatype CksumTypeEntry = CksumTypeEntry(
    ctype: CksumTypeId,
    name: string,
    aliases: seq<string>,
    outString: string,
    enc: Option<EncProvider>,
    hash: Option<HashProvider>,
    checksum: ChecksumFn,
    verify: Option<VerifyFn>,
    computeSize: nat,
    outputSize: nat,
    flags: set<CksumFlag>)

  // The records, in the order of the initialiser.

  const Crc32Entry := CksumTypeEntry(
    Crc32, "crc32", [], "CRC-32",
    None, Some(HashCrc32),
    UnkeyedChecksum, None,
    4, 4, {Unkeyed, NotCollProof})

  const RsaMd4Entry := CksumTypeEntry(
    RsaMd4, "md4", [], "RSA-MD4",
    None, Some(HashMd4),
    UnkeyedChecksum, None,
    16, 16, {Unkeyed})

  const RsaMd4DesEntry := CksumTypeEntry(
    RsaMd4Des, "md4-des", [], "RSA-MD4 with DES cbc mode",
    Some(EncDes), Some(HashMd4),
    ConfounderChecksum, Some(ConfounderVerify),
    24, 24, {})

  const DesCbcEntry := CksumTypeEntry(
    DesCbc, "des-cbc", [], "DES cbc mode",
    Some(EncDes), None,
    CbcChecksum, None,
    8, 8, {})

  const RsaMd5Entry := CksumTypeEntry(
    RsaMd5, "md5", [], "RSA-MD5",
    None, Some(HashMd5),
    UnkeyedChecksum, None,
    16, 16, {Unkeyed})

  const RsaMd5DesEntry := CksumTypeEntry(
    RsaMd5Des, "md5-des", [], "RSA-MD5 with DES cbc mode",
    Some(EncDes), Some(HashMd5),
    ConfounderChecksum, Some(ConfounderVerify),
    24, 24, {})

  const NistShaEntry := CksumTypeEntry(
    NistSha, "sha", [], "NIST-SHA",
    None, Some(HashSha1),
    UnkeyedChecksum, None,
    20, 20, {Unkeyed})

  const HmacSha1Des3Entry := CksumTypeEntry(
    HmacSha1Des3, "hmac-sha1-des3", ["hmac-sha1-des3-kd"], "HMAC-SHA1 DES3 key",
    None, Some(HashSha1),
    DkChecksum, None,
    20, 20, {})

  const HmacMd5Rc4Entry := CksumTypeEntry(
    HmacMd5Arcfour, "hmac-md5-rc4", ["hmac-md5-enc", "hmac-md5-earcfour"],
    "Microsoft HMAC MD5 (RC4 key)",
    Some(EncArcfour), Some(HashMd5),
    HmacMd5Checksum, None,
    16, 16, {})

  const HmacSha196Aes128Entry := CksumTypeEntry(
    HmacSha196Aes128, "hmac-sha1-96-aes128", [], "HMAC-SHA1 AES128 key",
    None, Some(HashSha1),
    DkChecksum, None,
    20, 12, {})

  const HmacSha196Aes256Entry := CksumTypeEntry(
    HmacSha196Aes256, "hmac-sha1-96-aes256", [], "HMAC-SHA1 AES256 key",
    None, Some(HashSha1),
    DkChecksum, None,
    20, 12, {})

  // The two records compiled in only when AES_CCM is defined.

  const Aes128CbcEntry := CksumTypeEntry(
    Aes128Cbc, "aes128-cbc", [], "CBC AES128 key",
    Some(EncAes128Ctr), None,
    CbcChecksum, None,
    16, 16, {})

  const Aes256CbcEntry := CksumTypeEntry(
    Aes256Cbc, "aes256-cbc", [], "CBC AES256 key",
    Some(EncAes256Ctr), None,
    CbcChecksum, None,
    16, 16, {})

  const Md5HmacRc4Entry := CksumTypeEntry(
    Md5HmacArcfour, "md5-hmac-rc4", [], "Microsoft MD5 HMAC (RC4 key)",
    Some(EncArcfour), Some(HashMd5),
    HmacMd5Checksum, None,
    16, 16, {})

  const HmacSha196Camellia128Entry := CksumTypeEntry(
    HmacSha196Camellia128, "hmac-sha1-96-camellia128", [], "HMAC-SHA1 Camellia128 key",
    None, Some(HashSha1),
    DkChecksum, None,
    20, 12, {})

  /** As written, this record carries the AES256 identifier, not a Camellia256 one. */
  const HmacSha196Camellia256Entry := CksumTypeEntry(
    HmacSha196Aes256, "hmac-sha1-96-camellia256", [], "HMAC-SHA1 Camellia256 key",
    None, Some(HashSha1),
    DkChecksum, None,
    20, 12, {})

  /** As written, this record uses the AES128 counter-mode provider. */
  const Camellia128CbcEntry := CksumTypeEntry(
    Camellia128Cbc, "camellia128-cbc", [], "CBC Camellia128 key",
    Some(EncAes128Ctr), None,
    CbcChecksum, None,
    16, 16, {})

  const Camellia256CbcEntry := CksumTypeEntry(
    Camellia256Cbc, "camellia256-cbc", [], "CBC Camellia256 key",
    Some(EncCamellia256Ctr), None,
    CbcChecksum, None,
    16, 16, {})

  /** The records before the AES_CCM block. */
  const LeadingEntries: seq<CksumTypeEntry> := [
    Crc32Entry, RsaMd4Entry, RsaMd4DesEntry, DesCbcEntry, RsaMd5Entry,
    RsaMd5DesEntry, NistShaEntry, HmacSha1Des3Entry, HmacMd5Rc4Entry,
    HmacSha196Aes128Entry, HmacSha196Aes256Entry]

  /** The records of the AES_CCM block. */
  const CcmEntries: seq<CksumTypeEntry> := [Aes128CbcEntry, Aes256CbcEntry]

  /** The records after the AES_CCM block. */
  const TrailingEntries: seq<CksumTypeEntry> := [
    Md5HmacRc4Entry, HmacSha196Camellia128Entry, HmacSha196Camellia256Entry,
    Camellia128CbcEntry, Camellia256CbcEntry]

  /** krb5int_cksumtypes_list, as compiled with or without AES_CCM defined. */
  function CksumTypesList(aesCcm: bool): (t: seq<CksumTypeEntry>)
    ensures |t| == |LeadingEntries| + (if aesCcm then |CcmEntries| else 0) + |TrailingEntries|
    ensures aesCcm ==> t[11] == Aes128CbcEntry && t[12] == Aes256CbcEntry
    ensures !aesCcm ==> t[11] == Md5HmacRc4Entry
  {
    LeadingEntries + (if aesCcm then CcmEntries else []) + TrailingEntries
  }

  /** krb5int_cksumtypes_length: the size of the array divided by the size
      of one record, that is, the number of records compiled in. */
  function CksumTypesLength(aesCcm: bool): (n: nat)
    ensures n == if aesCcm then 18 else 16
  {
    |CksumTypesList(aesCcm)|
  }

  /** The records of each build, in the order of the initialiser, and the
      primary name each one carries. */
  lemma RecordsInSourceOrder()
    ensures CksumTypesList(false) == [
      Crc32Entry, RsaMd4Entry, RsaMd4DesEntry, DesCbcEntry, RsaMd5Entry,
      RsaMd5DesEntry, NistShaEntry, HmacSha1Des3Entry, HmacMd5Rc4Entry,
      HmacSha196Aes128Entry, HmacSha196Aes256Entry,
      Md5HmacRc4Entry, HmacSha196Camellia128Entry, HmacSha196Camellia256Entry,
      Camellia128CbcEntry, Camellia256CbcEntry]
    ensures CksumTypesList(true) == [
      Crc32Entry, RsaMd4Entry, RsaMd4DesEntry, DesCbcEntry, RsaMd5Entry,
      RsaMd5DesEntry, NistShaEntry, HmacSha1Des3Entry, HmacMd5Rc4Entry,
      HmacSha196Aes128Entry, HmacSha196Aes256Entry,
      Aes128CbcEntry, Aes256CbcEntry,
      Md5HmacRc4Entry, HmacSha196Camellia128Entry, HmacSha196Camellia256Entry,
      Camellia128CbcEntry, Camellia256CbcEntry]
  {
  }
}
