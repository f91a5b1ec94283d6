# Kerberos checksum-type registry

This project models the static checksum-type registry of the Kerberos crypto
library. That registry is the constant array `krb5int_cksumtypes_list` and its
derived count `krb5int_cksumtypes_length`. Each record names a checksum type
(CRC-32, RSA-MD4, RSA-MD4 with DES, DES-CBC, RSA-MD5, RSA-MD5 with DES,
NIST-SHA, the DES3 key-derivation HMAC-SHA1 type of RFC 3961, the two
RC4-HMAC checksums of RFC 4757, the HMAC-SHA1-96 AES types of RFC 3962, the
AES CBC types compiled in only with `AES_CCM`, and the Camellia HMAC and CBC
types). It also gives the type's names, its encryption and hash
providers, its checksum and verify functions, its computed and transmitted
sizes, and its flags.

Files:

- `cksumtypes.dfy` (module `CksumTypes`): the record datatype, the opaque
  tags that stand for the provider and function pointers, every record as a
  named constant, and the table as a function of the `AES_CCM` build flag.
- `cksumtype_invariants.dfy` (module `CksumTypeInvariants`): the
  well-formedness of every record, for both builds.
- `cksumtype_lookup.dfy` (module `CksumTypeLookup`): first-match lookups by
  identifier and by name, and what the table's contents make them return.
  This includes the shadowing of the camellia256 HMAC record by the aes256
  HMAC record.

Modelling choices:

- `CKSUMTYPE_*` identifiers are constructors of `CksumTypeId`, one per
  constant the table uses. Two constants are equal exactly when they have the
  same name.
- A NULL provider or verify pointer is `None`.
- The two-slot alias array is the sequence of its non-NULL slots, so `{ 0 }`
  is `[]`.
- The flags word is the set of its bits that are set.
- The sizes are `nat`. No size in the table is near any machine-width limit.
- The rows are kept exactly as written, including two oddities. The
  camellia256 HMAC record (line 128) carries `CKSUMTYPE_HMAC_SHA1_96_AES256`.
  The `camellia128-cbc` record (line 135) uses `krb5int_enc_aes128_ctr`.

## Model

| member | source | states |
|---|---|---|
| `CksumTypes.CksumTypesList` | src/lib/crypto/krb/cksumtypes.c:34-146 | The initialiser's records in source order: 16 of them without `AES_CCM` and 18 with it. The two AES CBC records sit at indices 11 and 12 only when `AES_CCM` is defined; otherwise md5-hmac-rc4 is at index 11. |
| `CksumTypes.RecordsInSourceOrder` | src/lib/crypto/krb/cksumtypes.c:35-145 | Each build's table is exactly the record constants, one per initialiser entry, listed in the initialiser's order. |
| `CksumTypes.CksumTypesLength` | src/lib/crypto/krb/cksumtypes.c:148-149 | The length is the number of records compiled in: 16 without `AES_CCM`, 18 with it. |
| `CksumTypeInvariants.TruncationBound` | src/lib/crypto/krb/cksumtypes.c:34-144 | No record's output size exceeds its compute size. A record truncates exactly when it is an HMAC-SHA1-96 type. Such a record computes 20 bytes and sends 96 bits. |
| `CksumTypeInvariants.TruncatingRows` | src/lib/crypto/krb/cksumtypes.c:90-132 | The truncating records sit at indices 9, 10, 12, 13 without `AES_CCM`, and at 9, 10, 14, 15 with it. |
| `CksumTypeInvariants.UnkeyedConsistency` | src/lib/crypto/krb/cksumtypes.c:35-75 | `CKSUM_UNKEYED` is set exactly on the records that use the unkeyed checksum function. Such records have no encryption provider, have a hash provider and have no verify function. |
| `CksumTypeInvariants.CollisionProofness` | src/lib/crypto/krb/cksumtypes.c:35-39 | `CKSUM_NOT_COLL_PROOF` is set exactly on the CRC-32 record, which is the first record. CRC-32 is unkeyed, with compute and output sizes of 4. |
| `CksumTypeInvariants.VerifyPairing` | src/lib/crypto/krb/cksumtypes.c:47-69 | A record has a verify function exactly when it uses the confounder checksum, and that function is the confounder verify. Confounder records are DES-keyed, have a hash and are 24/24 bytes. |
| `CksumTypeInvariants.ProviderPresence` | src/lib/crypto/krb/cksumtypes.c:53-144 | Every record has an encryption provider or a hash provider. The CBC-checksum records are exactly those without a hash provider, and each has an encryption provider. |
| `CksumTypeInvariants.KeyedHashProviders` | src/lib/crypto/krb/cksumtypes.c:77-132 | Key-derivation records use SHA-1, have no encryption provider and compute 20 bytes. RC4-HMAC records use MD5 with the RC4 provider and are 16/16 bytes. |
| `CksumTypeInvariants.AliasBound` | src/lib/crypto/krb/cksumtypes.c:78-84 | No record has more aliases than the two slots. Only hmac-sha1-des3 and hmac-md5-rc4 have any aliases. |
| `CksumTypeInvariants.CcmBlockPlacement` | src/lib/crypto/krb/cksumtypes.c:102-114 | The `AES_CCM` build is the plain build with the two AES CBC records inserted after the eleventh record. |
| `CksumTypeInvariants.Camellia256Index` | src/lib/crypto/krb/cksumtypes.c:128-132 | Gives the index of the camellia256 HMAC record: 13 without `AES_CCM`, 15 with it. |
| `CksumTypeInvariants.IdsUniqueExceptCamellia256` | src/lib/crypto/krb/cksumtypes.c:96-132 | Exactly one pair of records shares an identifier: the aes256 HMAC record at index 10 and, later, the camellia256 HMAC record. Both carry `CKSUMTYPE_HMAC_SHA1_96_AES256`. Every other two records have different identifiers. |
| `CksumTypeLookup.FindById` | src/lib/crypto/krb/cksumtypes.c:34-149 | A first-match search by identifier returns the smallest index with that identifier, or None exactly when no record has it. |
| `CksumTypeLookup.FindByName` | src/lib/crypto/krb/cksumtypes.c:34-149 | A first-match search by name or alias returns the smallest index answering to the string, or None exactly when no record does. |
| `CksumTypeLookup.TableNamesDistinct` | src/lib/crypto/krb/cksumtypes.c:34-144 | No two records of either build share a primary name or an alias. |
| `CksumTypeLookup.RecordNamesDistinct` | src/lib/crypto/krb/cksumtypes.c:78-84 | Within each record, the primary name and the aliases are pairwise distinct. |
| `CksumTypeLookup.TableNameLookup` | src/lib/crypto/krb/cksumtypes.c:34-144 | Looking up any name or alias of a record finds exactly that record. |
| `CksumTypeLookup.IdLookupShadowing` | src/lib/crypto/krb/cksumtypes.c:96-132 | A lookup by `CKSUMTYPE_HMAC_SHA1_96_AES256` yields the aes256 record at index 10. No lookup by identifier ever yields the camellia256 record. Every other record is found by its own identifier. |

## Left out

- The hash providers, encryption providers, checksum functions and
  `krb5int_confounder_verify` are defined outside this file and are
  cryptographic. They appear only as opaque tags.
- The numeric values of the `CKSUMTYPE_*` constants and the `CKSUM_*` flag
  bits come from headers that are not part of this model. The model keeps the
  constants by name and the flags as a set.
- The description strings (`out_string`) are kept as literal fields. No
  property depends on them.
- `FindById`, `FindByName`: first-match searches standing in for the
  routines that search the table, which live in other files that are not part
  of this model. Names are compared by exact equality; any case folding those
  routines may do is not modelled.
- `krb5int_cksumtypes_length` is `sizeof` of the array divided by `sizeof`
  of one record. The model takes it as the number of records, without byte
  sizes.
- `src/tests/t_authpkinit.py`, a PKINIT test script that only runs `kinit`,
  `klist` and `kvno`, copies files, probes a shared library and writes an rc
  file, is not modelled.
