/** First-match lookups over the checksum-type table, by identifier and by
    name, and what the table's contents make them return. */
module CksumTypeLookup {
  import opened CksumTypes
  import CksumTypeInvariants

  /** The names a record answers to: its primary name, then its aliases. */
  function Names(e: CksumTypeEntry): (s: seq<string>)
  {
    [e.name] + e.aliases
  }

  /** The index of the first record with identifier `id`, scanning from the
      front of `t`; None when no record has it. */
  function FindById(t: seq<CksumTypeEntry>, id: CksumTypeId): (r: Option<nat>)
    ensures r.Some? ==> r.value < |t| && t[r.value].ctype == id
    ensures r.Some? ==> forall j :: 0 <= j < r.value ==> t[j].ctype != id
    ensures r.None? <==> forall j :: 0 <= j < |t| ==> t[j].ctype != id
    decreases |t|
  {
    if |t| == 0 then None
    else if t[0].ctype == id then Some(0)
    else
      match FindById(t[1..], id)
      case None => None
      case Some(k) => Some(k + 1)
  }

  /** The index of the first record whose primary name or one of whose
      aliases is `n`; None when no record answers to it. */
  function FindByName(t: seq<CksumTypeEntry>, n: string): (r: Option<nat>)
    ensures r.Some? ==> r.value < |t| && n in Names(t[r.value])
    ensures r.Some? ==> forall j :: 0 <= j < r.value ==> n !in Names(t[j])
    ensures r.None? <==> forall j :: 0 <= j < |t| ==> n !in Names(t[j])
    decreases |t|
  {
    if |t| == 0 then None
    else if n in Names(t[0]) then Some(0)
    else
      match FindByName(t[1..], n)
      case None => None
      case Some(k) => Some(k + 1)
  }

  /** No name is shared by two different records. */
  predicate NamesDistinct(t: seq<CksumTypeEntry>)
  {
    forall i, j, n :: 0 <= i < |t| && 0 <= j < |t| && n in Names(t[i]) && n in Names(t[j]) ==> i == j
  }

  /** No record of `a` shares a name with a record of `b`. */
  predicate NamesDisjoint(a: seq<CksumTypeEntry>, b: seq<CksumTypeEntry>)
  {
    forall i, j, n :: 0 <= i < |a| && 0 <= j < |b| && n in Names(a[i]) ==> n !in Names(b[j])
  }

  /** No string occurs twice in `s`. */
  predicate NoDuplicates(s: seq<string>)
  {
    forall a, b :: 0 <= a < b < |s| ==> s[a] != s[b]
  }

  /** Joining two lists of records keeps names distinct when each list has
      distinct names and the two lists share none. */
  lemma NamesDistinctConcat(a: seq<CksumTypeEntry>, b: seq<CksumTypeEntry>)
    requires NamesDistinct(a) && NamesDistinct(b) && NamesDisjoint(a, b)
    ensures NamesDistinct(a + b)
  {
  }

  /** A list of records that shares no name with `c` still shares none
      after another such list is appended to it. */
  lemma NamesDisjointConcat(a: seq<CksumTypeEntry>, b: seq<CksumTypeEntry>, c: seq<CksumTypeEntry>)
    requires NamesDisjoint(a, c) && NamesDisjoint(b, c)
    ensures NamesDisjoint(a + b, c)
  {
  }

  // The name facts about the three parts of the initialiser, each small
  // enough to be settled by case analysis over its records. The leading part
  // is taken in the two halves of CksumTypeInvariants.

  lemma LeadingNames()
    ensures NamesDistinct(LeadingEntries)
  {
    LeadingFrontNames();
    LeadingBackNames();
    LeadingHalvesNames();
    NamesDistinctConcat(CksumTypeInvariants.LeadingFront, CksumTypeInvariants.LeadingBack);
    assert LeadingEntries == CksumTypeInvariants.LeadingFront + CksumTypeInvariants.LeadingBack;
  }

  lemma LeadingFrontNames()
    ensures NamesDistinct(CksumTypeInvariants.LeadingFront)
  {
  }

  lemma LeadingBackNames()
    ensures NamesDistinct(CksumTypeInvariants.LeadingBack)
  {
  }

  lemma LeadingHalvesNames()
    ensures NamesDisjoint(CksumTypeInvariants.LeadingFront, CksumTypeInvariants.LeadingBack)
  {
  }

  lemma TrailingNames()
    ensures NamesDistinct(TrailingEntries)
  {
  }

  lemma LeadingTrailingNames()
    ensures NamesDisjoint(LeadingEntries, TrailingEntries)
  {
  }

  lemma CcmNames()
    ensures NamesDistinct(CcmEntries) && NamesDisjoint(CcmEntries, TrailingEntries)
  {
  }

  lemma LeadingCcmNames()
    ensures NamesDisjoint(LeadingEntries, CcmEntries)
  {
  }

  /** No two records of the table share a primary name or an alias, in
      either build. */
  lemma TableNamesDistinct(aesCcm: bool)
    ensures NamesDistinct(CksumTypesList(aesCcm))
  {
    LeadingNames();
    TrailingNames();
    LeadingTrailingNames();
    if aesCcm {
      CcmNames();
      LeadingCcmNames();
      NamesDistinctConcat(LeadingEntries, CcmEntries);
      NamesDisjointConcat(LeadingEntries, CcmEntries, TrailingEntries);
      NamesDistinctConcat(LeadingEntries + CcmEntries, TrailingEntries);
      assert CksumTypesList(aesCcm) == LeadingEntries + CcmEntries + TrailingEntries;
    } else {
      NamesDistinctConcat(LeadingEntries, TrailingEntries);
      assert CksumTypesList(aesCcm) == LeadingEntries + TrailingEntries;
    }
  }

  /** Within each record, the primary name and the aliases are distinct. */
  lemma RecordNamesDistinct(aesCcm: bool)
    ensures var t := CksumTypesList(aesCcm);
      forall i :: 0 <= i < |t| ==> NoDuplicates(Names(t[i]))
  {
  }

  /** With distinct names, looking up any name of a record finds that
      record. */
  lemma FindByNameExact(t: seq<CksumTypeEntry>, i: nat, n: string)
    requires NamesDistinct(t)
    requires i < |t| && n in Names(t[i])
    ensures FindByName(t, n) == Some(i)
  {
  }

  /** In the table, a lookup by the name or by an alias of any record finds
      exactly that record. */
  lemma TableNameLookup(aesCcm: bool)
    ensures var t := CksumTypesList(aesCcm);
      forall i, n :: 0 <= i < |t| && n in Names(t[i]) ==> FindByName(t, n) == Some(i)
  {
    var t := CksumTypesList(aesCcm);
    TableNamesDistinct(aesCcm);
    forall i, n | 0 <= i < |t| && n in Names(t[i]) ensures FindByName(t, n) == Some(i) {
      FindByNameExact(t, i, n);
    }
  }

  /** A lookup by a record's own identifier finds that record exactly when
      no earlier record has the same identifier. */
  lemma FindByIdOwnRow(t: seq<CksumTypeEntry>, i: nat)
    requires i < |t|
    ensures FindById(t, t[i].ctype) == Some(i)
        <==> forall j :: 0 <= j < i ==> t[j].ctype != t[i].ctype
  {
  }

  /** When the only records sharing an identifier are those at `k` and `c`,
      every record other than the one at `c` is found by its own identifier. */
  lemma FoundUnlessShadowed(t: seq<CksumTypeEntry>, k: nat, c: nat, i: nat)
    requires CksumTypeInvariants.IdsSharedOnlyAt(t, k, c)
    requires i < |t| && i != c
    ensures FindById(t, t[i].ctype) == Some(i)
  {
    FindByIdOwnRow(t, i);
  }

  /** A record preceded by one with the same identifier is never the result
      of a lookup by identifier. */
  lemma NeverFoundWhenShadowed(t: seq<CksumTypeEntry>, k: nat, c: nat, id: CksumTypeId)
    requires k < c < |t| && t[k].ctype == t[c].ctype
    ensures FindById(t, id) != Some(c)
  {
  }

  /** Because the camellia256 HMAC record reuses the aes256 identifier, a
      first-match lookup by that identifier yields the aes256 record, no
      lookup by identifier ever yields the camellia256 record, and every
      other record is found by its own identifier. */
  lemma IdLookupShadowing(aesCcm: bool)
    ensures var t := CksumTypesList(aesCcm);
      FindById(t, HmacSha196Aes256) == Some(10) && t[10] == HmacSha196Aes256Entry
    ensures forall id :: FindById(CksumTypesList(aesCcm), id) != Some(CksumTypeInvariants.Camellia256Index(aesCcm))
    ensures var t := CksumTypesList(aesCcm);
      forall i :: 0 <= i < |t| && i != CksumTypeInvariants.Camellia256Index(aesCcm) ==> FindById(t, t[i].ctype) == Some(i)
  {
    var t := CksumTypesList(aesCcm);
    var c := CksumTypeInvariants.Camellia256Index(aesCcm);
    CksumTypeInvariants.IdsUniqueExceptCamellia256(aesCcm);
    FoundUnlessShadowed(t, 10, c, 10);
    forall id ensures FindById(t, id) != Some(c) {
      NeverFoundWhenShadowed(t, 10, c, id);
    }
    forall i | 0 <= i < |t| && i != c ensures FindById(t, t[i].ctype) == Some(i) {
      FoundUnlessShadowed(t, 10, c, i);
    }
  }
}
