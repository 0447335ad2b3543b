/**
 * The license adapter (`toolchains/cargo_deny`). `check` indexes the
 * license information cargo-deny gathered: per crate, its deduplicated
 * license requirements; per license, the crates that name it (a vector
 * kept sorted by binary-search insertion); and the unlicensed crates.
 * `parse` classifies every license occurrence deny-first into deny, allow
 * or default and builds one record per crate; `count` scores the deny and
 * default counts and `result` stores the score in the license slot.
 */
module CargoDeny {
  import opened Wrappers
  import opened StrUtil
  import opened Config
  import opened ResultTypes
  import opened SortedAssoc
  import Scoring

  /** A crate id (`Kid`), ordered by its text. */
  type Kid = string

  /** What cargo-deny found for one crate: an SPDX expression's requirements, or nothing. */
  datatype LicenseInfo = SpdxExpression(requirements: seq<string>) | Unlicensed

  datatype KrateLicenseNfo = KrateLicenseNfo(krate: Kid, licInfo: LicenseInfo)

  /** One line of the license report. */
  datatype CrateLicenseInfo = CrateLicenseInfo(
    name: string,
    license: seq<string>,
    ifHasAllowLicense: bool,
    ifHasDenyLicense: bool,
    ifHasDefaultLicense: bool,
    ifUnlicense: bool)

  predicate NoDup(s: seq<string>) {
    forall i, j :: 0 <= i < j < |s| ==> s[i] != s[j]
  }

  /** Deduplication keeping the first occurrence of every element. */
  function Dedup(s: seq<string>): (r: seq<string>)
    ensures NoDup(r)
    ensures forall x :: x in r <==> x in s
    ensures NoDup(s) ==> r == s
  {
    if s == [] then []
    else
      var n := |s| - 1;
      var p := Dedup(s[..n]);
      assert s == s[..n] + [s[n]];
      if s[n] in p then p else p + [s[n]]
  }

  /** The position of the first occurrence of `x` in `s`. */
  function FirstIndex(s: seq<string>, x: string): (r: nat)
    requires x in s
    ensures r < |s| && s[r] == x
    ensures forall j :: 0 <= j < r ==> s[j] != x
  {
    if s[0] == x then 0 else 1 + FirstIndex(s[1..], x)
  }

  /** Appending elements does not move the first occurrence of an element already present. */
  lemma FirstIndexPrefix(s: seq<string>, t: seq<string>, x: string)
    requires x in s
    ensures x in s + t && FirstIndex(s + t, x) == FirstIndex(s, x)
  {
    var k := FirstIndex(s, x);
    assert (s + t)[k] == x;
  }

  /**
   * `Dedup` keeps the elements in the order in which they are first seen:
   * together with its own contract, this fixes its result.
   */
  lemma {:induction false} DedupFirstSeen(s: seq<string>)
    ensures forall i, j :: 0 <= i < j < |Dedup(s)| ==> FirstIndex(s, Dedup(s)[i]) < FirstIndex(s, Dedup(s)[j])
  {
    if s != [] {
      var n := |s| - 1;
      var p := Dedup(s[..n]);
      DedupFirstSeen(s[..n]);
      assert s == s[..n] + [s[n]];
      forall x | x in s[..n]
        ensures FirstIndex(s, x) == FirstIndex(s[..n], x) < n
      {
        FirstIndexPrefix(s[..n], [s[n]], x);
      }
      if s[n] !in p {
        assert s[n] !in s[..n];
        assert FirstIndex(s, s[n]) == n;
        assert Dedup(s) == p + [s[n]];
      }
    }
  }

  /** The license index after crate `id` is added to license `l`. */
  function AddCrate(lc: seq<(string, seq<Kid>)>, l: string, id: Kid): (r: seq<(string, seq<Kid>)>)
    requires Sorted(lc)
    ensures Sorted(r)
  {
    Put(lc, l, LookupOr(lc, l, []) + [id])
  }

  /** A license already in the index gets the crate appended in place. */
  lemma AddCrateFound(lc: seq<(string, seq<Kid>)>, l: string, id: Kid, i: nat)
    requires Sorted(lc) && i < |lc| && lc[i].0 == l
    ensures AddCrate(lc, l, id) == lc[i := (lc[i].0, lc[i].1 + [id])]
  {
    LookupAt(lc, i);
    PutFound(lc, l, lc[i].1 + [id], i);
  }

  /** A new license is inserted at its place with the crate as its only entry. */
  lemma AddCrateInsert(lc: seq<(string, seq<Kid>)>, l: string, id: Kid, i: nat)
    requires Sorted(lc) && i <= |lc|
    requires forall j :: 0 <= j < i ==> Less(lc[j].0, l)
    requires forall j :: i <= j < |lc| ==> Less(l, lc[j].0)
    ensures AddCrate(lc, l, id) == lc[..i] + [(l, [id])] + lc[i..]
  {
    assert LookupOr(lc, l, []) + [id] == [id] by {
      AbsentByBounds(lc, l, i);
    }
    PutInsert(lc, l, [id], i);
  }

  /**
   * The inner loop of `check` over one crate's requirements: the license
   * index with the crate added once to every license it names, and the
   * crate's own list `cur`.
   */
  function AddReqs(lc: seq<(string, seq<Kid>)>, reqs: seq<string>, id: Kid): (r: (seq<(string, seq<Kid>)>, seq<string>))
    requires Sorted(lc)
    ensures Sorted(r.0)
  {
    if reqs == [] then (lc, [])
    else
      var n := |reqs| - 1;
      var p := AddReqs(lc, reqs[..n], id);
      if reqs[n] in p.1 then p else (AddCrate(p.0, reqs[n], id), p.1 + [reqs[n]])
  }

  /**
   * A crate's list is its requirements without repeats, and every license it
   * names gets the crate appended exactly once.
   */
  lemma AddReqsMeaning(lc: seq<(string, seq<Kid>)>, reqs: seq<string>, id: Kid)
    requires Sorted(lc)
    ensures AddReqs(lc, reqs, id).1 == Dedup(reqs)
    ensures forall l :: LookupOr(AddReqs(lc, reqs, id).0, l, []) == LookupOr(lc, l, []) + (if l in reqs then [id] else [])
  {
    AddReqsDedup(lc, reqs, id);
    AddReqsLookup(lc, reqs, id);
  }

  /** The crate's list part of `AddReqsMeaning`. */
  lemma {:induction false} AddReqsDedup(lc: seq<(string, seq<Kid>)>, reqs: seq<string>, id: Kid)
    requires Sorted(lc)
    ensures AddReqs(lc, reqs, id).1 == Dedup(reqs)
  {
    if reqs != [] {
      AddReqsDedup(lc, reqs[..|reqs| - 1], id);
    }
  }

  /** Adding a crate to one license changes that license's list only, by appending the crate. */
  lemma AddCrateLookup(lc: seq<(string, seq<Kid>)>, l: string, id: Kid)
    requires Sorted(lc)
    ensures forall l' :: LookupOr(AddCrate(lc, l, id), l', []) == LookupOr(lc, l', []) + (if l' == l then [id] else [])
  {
    PutLookup(lc, l, LookupOr(lc, l, []) + [id]);
  }

  /** The license index part of `AddReqsMeaning`. */
  lemma {:induction false} AddReqsLookup(lc: seq<(string, seq<Kid>)>, reqs: seq<string>, id: Kid)
    requires Sorted(lc)
    ensures forall l :: LookupOr(AddReqs(lc, reqs, id).0, l, []) == LookupOr(lc, l, []) + (if l in reqs then [id] else [])
  {
    if reqs != [] {
      var n := |reqs| - 1;
      AddReqsLookup(lc, reqs[..n], id);
      AddReqsDedup(lc, reqs[..n], id);
      assert reqs == reqs[..n] + [reqs[n]];
      var p := AddReqs(lc, reqs[..n], id);
      if reqs[n] in p.1 {
        assert reqs[n] in reqs[..n];
        assert forall l :: l in reqs <==> l in reqs[..n];
      } else {
        assert reqs[n] !in reqs[..n];
        AddCrateLookup(p.0, reqs[n], id);
      }
    }
  }

  /** The three collections `check` fills. */
  datatype Index = Index(
    crateLicenses: seq<(Kid, seq<string>)>,
    licenseCrates: seq<(string, seq<Kid>)>,
    unlicenseCrates: seq<Kid>)

  predicate IndexSorted(ix: Index) {
    Sorted(ix.crateLicenses) && Sorted(ix.licenseCrates)
  }

  const EmptyIndex := Index([], [], [])

  /** One pass of the outer loop of `check`. */
  function IndexOne(ix: Index, nfo: KrateLicenseNfo): (r: Index)
    requires IndexSorted(ix)
    ensures IndexSorted(r)
  {
    match nfo.licInfo
    case SpdxExpression(reqs) =>
      var p := AddReqs(ix.licenseCrates, reqs, nfo.krate);
      Index(Put(ix.crateLicenses, nfo.krate, p.1), p.0, ix.unlicenseCrates)
    case Unlicensed =>
      Index(Put(ix.crateLicenses, nfo.krate, []), ix.licenseCrates, ix.unlicenseCrates + [nfo.krate])
  }

  /** The whole loop of `check` over the gathered crates. */
  function IndexCrates(ix: Index, nfos: seq<KrateLicenseNfo>): (r: Index)
    requires IndexSorted(ix)
    ensures IndexSorted(r)
  {
    if nfos == [] then ix else IndexOne(IndexCrates(ix, nfos[..|nfos| - 1]), nfos[|nfos| - 1])
  }

  // Reference definitions of what the index holds, read off the gathered list.

  /** The crates naming license `l`, in gathering order. */
  function CratesWith(nfos: seq<KrateLicenseNfo>, l: string): seq<Kid> {
    if nfos == [] then []
    else
      var last := nfos[|nfos| - 1];
      CratesWith(nfos[..|nfos| - 1], l)
      + (if last.licInfo.SpdxExpression? && l in last.licInfo.requirements then [last.krate] else [])
  }

  /** The unlicensed crates, in gathering order. */
  function UnlicensedIds(nfos: seq<KrateLicenseNfo>): seq<Kid> {
    if nfos == [] then []
    else
      var last := nfos[|nfos| - 1];
      UnlicensedIds(nfos[..|nfos| - 1]) + (if last.licInfo.Unlicensed? then [last.krate] else [])
  }

  /** A crate's license list: its requirements without repeats, or none. */
  function Licenses(li: LicenseInfo): seq<string> {
    match li
    case SpdxExpression(reqs) => Dedup(reqs)
    case Unlicensed => []
  }

  /** The license list of the last gathered entry for crate `k`. */
  function LastLicenses(nfos: seq<KrateLicenseNfo>, k: Kid): Option<seq<string>> {
    if nfos == [] then None
    else if nfos[|nfos| - 1].krate == k then Some(Licenses(nfos[|nfos| - 1].licInfo))
    else LastLicenses(nfos[..|nfos| - 1], k)
  }

  /**
   * What `check` leaves behind: every license lists the crates that name it,
   * each once, in gathering order; the unlicensed crates in order; and per
   * crate its deduplicated requirements (an unlicensed crate an empty list).
   */
  lemma IndexCratesMeaning(ix: Index, nfos: seq<KrateLicenseNfo>)
    requires IndexSorted(ix)
    ensures forall l :: LookupOr(IndexCrates(ix, nfos).licenseCrates, l, [])
                     == LookupOr(ix.licenseCrates, l, []) + CratesWith(nfos, l)
    ensures IndexCrates(ix, nfos).unlicenseCrates == ix.unlicenseCrates + UnlicensedIds(nfos)
    ensures forall k :: Lookup(IndexCrates(ix, nfos).crateLicenses, k)
                     == if LastLicenses(nfos, k).Some? then LastLicenses(nfos, k) else Lookup(ix.crateLicenses, k)
  {
    IndexLicenseCrates(ix, nfos);
    IndexUnlicensed(ix, nfos);
    IndexCrateLicenses(ix, nfos);
  }

  /** The license index part of `IndexCratesMeaning`. */
  lemma {:induction false} IndexLicenseCrates(ix: Index, nfos: seq<KrateLicenseNfo>)
    requires IndexSorted(ix)
    ensures forall l :: LookupOr(IndexCrates(ix, nfos).licenseCrates, l, [])
                     == LookupOr(ix.licenseCrates, l, []) + CratesWith(nfos, l)
  {
    if nfos != [] {
      var n := |nfos| - 1;
      var prev := IndexCrates(ix, nfos[..n]);
      IndexLicenseCrates(ix, nfos[..n]);
      match nfos[n].licInfo {
        case SpdxExpression(reqs) =>
          AddReqsMeaning(prev.licenseCrates, reqs, nfos[n].krate);
        case Unlicensed =>
      }
    }
  }

  /** The unlicensed part of `IndexCratesMeaning`. */
  lemma {:induction false} IndexUnlicensed(ix: Index, nfos: seq<KrateLicenseNfo>)
    requires IndexSorted(ix)
    ensures IndexCrates(ix, nfos).unlicenseCrates == ix.unlicenseCrates + UnlicensedIds(nfos)
  {
    if nfos != [] {
      IndexUnlicensed(ix, nfos[..|nfos| - 1]);
    }
  }

  /** The per-crate part of `IndexCratesMeaning`. */
  lemma {:induction false} IndexCrateLicenses(ix: Index, nfos: seq<KrateLicenseNfo>)
    requires IndexSorted(ix)
    ensures forall k :: Lookup(IndexCrates(ix, nfos).crateLicenses, k)
                     == if LastLicenses(nfos, k).Some? then LastLicenses(nfos, k) else Lookup(ix.crateLicenses, k)
  {
    if nfos != [] {
      var n := |nfos| - 1;
      var prev := IndexCrates(ix, nfos[..n]);
      IndexCrateLicenses(ix, nfos[..n]);
      match nfos[n].licInfo {
        case SpdxExpression(reqs) =>
          AddReqsMeaning(prev.licenseCrates, reqs, nfos[n].krate);
          PutLookup(prev.crateLicenses, nfos[n].krate, AddReqs(prev.licenseCrates, reqs, nfos[n].krate).1);
        case Unlicensed =>
          PutLookup(prev.crateLicenses, nfos[n].krate, []);
      }
    }
  }

  /** The gathered crate ids, in order. */
  function Krates(nfos: seq<KrateLicenseNfo>): (r: seq<Kid>)
    ensures |r| == |nfos|
  {
    if nfos == [] then [] else Krates(nfos[..|nfos| - 1]) + [nfos[|nfos| - 1].krate]
  }

  /** A crate is listed under a license at most once per time it is gathered. */
  lemma {:induction false} CratesWithBound(nfos: seq<KrateLicenseNfo>, l: string, k: Kid)
    ensures multiset(CratesWith(nfos, l))[k] <= multiset(Krates(nfos))[k]
  {
    if nfos != [] {
      CratesWithBound(nfos[..|nfos| - 1], l, k);
    }
  }

  // Classification of `parse`.

  datatype LicenseClass = DenyClass | AllowClass | DefaultClass

  /** Deny is tested first, then allow; anything else is a default license. */
  function Classify(l: string, allow: seq<string>, deny: seq<string>): LicenseClass {
    if l in deny then DenyClass else if l in allow then AllowClass else DefaultClass
  }

  /** How many license occurrences of `lics` fall in class `c`. */
  function CountClass(lics: seq<string>, allow: seq<string>, deny: seq<string>, c: LicenseClass): nat {
    if lics == [] then 0
    else CountClass(lics[..|lics| - 1], allow, deny, c) + (if Classify(lics[|lics| - 1], allow, deny) == c then 1 else 0)
  }

  /** A class is counted for a list exactly when some license of the list falls in it. */
  lemma {:induction false} CountClassPositive(lics: seq<string>, allow: seq<string>, deny: seq<string>, c: LicenseClass)
    ensures CountClass(lics, allow, deny, c) > 0 <==> exists l :: l in lics && Classify(l, allow, deny) == c
  {
    if lics != [] {
      var n := |lics| - 1;
      CountClassPositive(lics[..n], allow, deny, c);
      assert lics == lics[..n] + [lics[n]];
    }
  }

  /** Every occurrence falls in exactly one class. */
  lemma {:induction false} CountClassPartition(lics: seq<string>, allow: seq<string>, deny: seq<string>)
    ensures CountClass(lics, allow, deny, DenyClass) + CountClass(lics, allow, deny, AllowClass)
          + CountClass(lics, allow, deny, DefaultClass) == |lics|
  {
    if lics != [] {
      CountClassPartition(lics[..|lics| - 1], allow, deny);
    }
  }

  /** A denied license is a deny occurrence even when it is also allowed. */
  lemma DenyBeforeAllow(l: string, allow: seq<string>, deny: seq<string>)
    requires l in deny
    ensures CountClass([l], allow, deny, DenyClass) == 1
    ensures CountClass([l], allow, deny, AllowClass) == 0 && CountClass([l], allow, deny, DefaultClass) == 0
  {
    assert [l][..0] == [];
  }

  /** The record of a crate with licenses `lics`. */
  function CrateRecord(k: Kid, lics: seq<string>, allow: seq<string>, deny: seq<string>): (r: CrateLicenseInfo)
    ensures r.name == k && r.license == lics && !r.ifUnlicense
    ensures r.ifHasDenyLicense <==> exists l :: l in lics && l in deny
    ensures r.ifHasAllowLicense <==> exists l :: l in lics && l !in deny && l in allow
    ensures r.ifHasDefaultLicense <==> exists l :: l in lics && l !in deny && l !in allow
  {
    CountClassPositive(lics, allow, deny, DenyClass);
    CountClassPositive(lics, allow, deny, AllowClass);
    CountClassPositive(lics, allow, deny, DefaultClass);
    CrateLicenseInfo(k, lics,
      CountClass(lics, allow, deny, AllowClass) > 0,
      CountClass(lics, allow, deny, DenyClass) > 0,
      CountClass(lics, allow, deny, DefaultClass) > 0,
      false)
  }

  /** The record of an unlicensed crate. */
  function UnlicensedRecord(k: Kid): CrateLicenseInfo {
    CrateLicenseInfo(k, [], false, false, true, true)
  }

  /** One record per crate of the index, in key order. */
  function Records(cl: seq<(Kid, seq<string>)>, allow: seq<string>, deny: seq<string>): (r: seq<CrateLicenseInfo>)
    ensures |r| == |cl|
    ensures forall i :: 0 <= i < |cl| ==> r[i] == CrateRecord(cl[i].0, cl[i].1, allow, deny)
  {
    if cl == [] then []
    else Records(cl[..|cl| - 1], allow, deny) + [CrateRecord(cl[|cl| - 1].0, cl[|cl| - 1].1, allow, deny)]
  }

  /** One record per unlicensed crate, in order. */
  function UnlicensedRecords(unl: seq<Kid>): (r: seq<CrateLicenseInfo>)
    ensures |r| == |unl|
    ensures forall i :: 0 <= i < |unl| ==> r[i] == UnlicensedRecord(unl[i])
  {
    if unl == [] then [] else UnlicensedRecords(unl[..|unl| - 1]) + [UnlicensedRecord(unl[|unl| - 1])]
  }

  /** The occurrences of class `c` over all crates: counts are per license, not per crate. */
  function TotalClass(cl: seq<(Kid, seq<string>)>, allow: seq<string>, deny: seq<string>, c: LicenseClass): nat {
    if cl == [] then 0
    else TotalClass(cl[..|cl| - 1], allow, deny, c) + CountClass(cl[|cl| - 1].1, allow, deny, c)
  }

  /** One crate with two denied licenses adds two to the deny count. */
  lemma PerLicenseCount(k: Kid, a: string, b: string, allow: seq<string>, deny: seq<string>)
    requires a in deny && b in deny
    ensures TotalClass([(k, [a, b])], allow, deny, DenyClass) == 2
  {
    assert [(k, [a, b])][..0] == [];
    assert [a, b][..1] == [a];
    assert [a][..0] == [];
    assert CountClass([a], allow, deny, DenyClass) == 1;
    assert CountClass([a, b], allow, deny, DenyClass) == 2;
  }

  /**
   * A crate gathered as unlicensed is reported twice: once from the
   * per-crate index (no license, no flag set) and once as unlicensed.
   */
  lemma {:induction false} UnlicensedListedTwice(nfos: seq<KrateLicenseNfo>, allow: seq<string>, deny: seq<string>)
    returns (p: nat, q: nat)
    requires nfos != [] && nfos[|nfos| - 1].licInfo.Unlicensed?
    ensures var ix := IndexCrates(EmptyIndex, nfos);
      var k := nfos[|nfos| - 1].krate;
      var all := Records(ix.crateLicenses, allow, deny) + UnlicensedRecords(ix.unlicenseCrates);
      p < q < |all| && all[p] == CrateLicenseInfo(k, [], false, false, false, false) && all[q] == UnlicensedRecord(k)
  {
    var ix := IndexCrates(EmptyIndex, nfos);
    var i := UnlicensedIndexed(nfos);
    UnlicensedLast(nfos);
    p, q := ListedTwiceIn(ix.crateLicenses, ix.unlicenseCrates, allow, deny, nfos[|nfos| - 1].krate, i);
  }

  /** A crate with an empty index entry that also ends the unlicensed list yields two records. */
  lemma ListedTwiceIn(cl: seq<(Kid, seq<string>)>, unl: seq<Kid>, allow: seq<string>, deny: seq<string>, k: Kid, i: nat)
    returns (p: nat, q: nat)
    requires i < |cl| && cl[i] == (k, []) && unl != [] && unl[|unl| - 1] == k
    ensures var all := Records(cl, allow, deny) + UnlicensedRecords(unl);
      p == i && p < q < |all| && all[p] == CrateLicenseInfo(k, [], false, false, false, false) && all[q] == UnlicensedRecord(k)
  {
    var recs := Records(cl, allow, deny);
    var urs := UnlicensedRecords(unl);
    var all := recs + urs;
    var j := |recs| + |urs| - 1;
    assert all[i] == CrateLicenseInfo(k, [], false, false, false, false) by {
      assert recs[i] == CrateRecord(k, [], allow, deny);
    }
    assert all[j] == UnlicensedRecord(k) by {
      assert urs[|urs| - 1] == UnlicensedRecord(unl[|unl| - 1]);
    }
    p, q := i, j;
  }

  /** The unlicensed crate gathered last has an empty entry in the per-crate index. */
  lemma UnlicensedIndexed(nfos: seq<KrateLicenseNfo>) returns (i: nat)
    requires nfos != [] && nfos[|nfos| - 1].licInfo.Unlicensed?
    ensures var cl := IndexCrates(EmptyIndex, nfos).crateLicenses;
      i < |cl| && cl[i] == (nfos[|nfos| - 1].krate, [])
  {
    var cl := IndexCrates(EmptyIndex, nfos).crateLicenses;
    var k := nfos[|nfos| - 1].krate;
    IndexCratesMeaning(EmptyIndex, nfos);
    assert Lookup(cl, k) == Some([]);
    i :| 0 <= i < |cl| && cl[i].0 == k;
    LookupAt(cl, i);
  }

  /** The unlicensed crate gathered last ends the unlicensed list. */
  lemma UnlicensedLast(nfos: seq<KrateLicenseNfo>)
    requires nfos != [] && nfos[|nfos| - 1].licInfo.Unlicensed?
    ensures var unl := IndexCrates(EmptyIndex, nfos).unlicenseCrates;
      unl != [] && unl[|unl| - 1] == nfos[|nfos| - 1].krate
  {
    IndexCratesMeaning(EmptyIndex, nfos);
  }

  /** The license score of `count`, when the configuration and both counts are present. */
  function LicenseScore(cfg: Config, pr: Option<ParseResultDetail>): (r: Option<CountResultDetail>)
    requires LicenseCfgComplete(cfg) && LicenseCounted(pr) ==> LicenseCfg(cfg).value.licenseEvalScore.value > 0
    ensures r.Some? <==> LicenseCfgComplete(cfg) && LicenseCounted(pr)
    ensures r.Some? ==>
      var c := LicenseCfg(cfg).value;
      var penalty := pr.value.denyLicense.value * c.denyLicenseScore.value
                   + pr.value.defaultLicense.value * c.defaultLicenseScore.value;
      r.value.CargoLicenseCount? && r.value.score.Some? && r.value.normalizedScore.Some?
      && r.value.score.value <= 100
      && (penalty >= c.licenseEvalScore.value ==> r.value.score.value == 0)
      && (penalty == 0 ==> r.value.score.value == 100)
      && r.value.normalizedScore.value == Scoring.Normalize(r.value.score.value, c.licenseEvalWeight.value)
      && r.value.normalizedScore.value <= c.licenseEvalWeight.value
  {
    if LicenseCfgComplete(cfg) && LicenseCounted(pr) then
      var c := LicenseCfg(cfg).value;
      var penalties := [pr.value.denyLicense.value * c.denyLicenseScore.value,
                        pr.value.defaultLicense.value * c.defaultLicenseScore.value];
      Scoring.ChainSubPair(c.licenseEvalScore.value, penalties[0], penalties[1]);
      var score := Scoring.RawScore(c.licenseEvalScore.value, penalties);
      Some(CargoLicenseCount(Some(score), Some(Scoring.Normalize(score, c.licenseEvalWeight.value))))
    else None
  }

  /** Both counts the score needs are present. */
  predicate LicenseCounted(pr: Option<ParseResultDetail>) {
    pr.Some? && pr.value.CargoLicenseParsed? && pr.value.denyLicense.Some? && pr.value.defaultLicense.Some?
  }

  /** The unlicensed count plays no part in the score. */
  lemma UnlicenseIgnored(cfg: Config, deny: nat, default: nat, u1: Option<nat>, u2: Option<nat>)
    requires LicenseCfgComplete(cfg) ==> LicenseCfg(cfg).value.licenseEvalScore.value > 0
    ensures LicenseScore(cfg, Some(CargoLicenseParsed(Some(deny), u1, Some(default))))
         == LicenseScore(cfg, Some(CargoLicenseParsed(Some(deny), u2, Some(default))))
  {
  }

  /** More denied licenses never raise the license score. */
  lemma {:induction false} LicenseScoreMonotone(cfg: Config, deny1: nat, deny2: nat, default: nat, u: Option<nat>)
    requires LicenseCfgComplete(cfg) && LicenseCfg(cfg).value.licenseEvalScore.value > 0 && deny1 <= deny2
    ensures LicenseScore(cfg, Some(CargoLicenseParsed(Some(deny2), u, Some(default)))).value.score.value
         <= LicenseScore(cfg, Some(CargoLicenseParsed(Some(deny1), u, Some(default)))).value.score.value
  {
    var c := LicenseCfg(cfg).value;
    Scoring.MulMonotone(deny1, deny2, c.denyLicenseScore.value);
    Scoring.RawScoreMonotone(c.licenseEvalScore.value,
      [deny1 * c.denyLicenseScore.value, default * c.defaultLicenseScore.value],
      [deny2 * c.denyLicenseScore.value, default * c.defaultLicenseScore.value]);
  }

  /** `result`: the license slot is filled when both numbers are present; nothing else changes. */
  function MergeLicense(cr: Option<CountResultDetail>, report: Report): (r: Report)
    ensures r.(licenseCheck := report.licenseCheck) == report
    ensures cr.Some? && cr.value.CargoLicenseCount? && cr.value.score.Some? && cr.value.normalizedScore.Some?
      ==> r.licenseCheck == Some(ScoreEntry(cr.value.score, cr.value.normalizedScore))
    ensures !(cr.Some? && cr.value.CargoLicenseCount? && cr.value.score.Some? && cr.value.normalizedScore.Some?)
      ==> r == report
  {
    if cr.Some? && cr.value.CargoLicenseCount? && cr.value.score.Some? && cr.value.normalizedScore.Some? then
      report.(licenseCheck := Some(ScoreEntry(cr.value.score, cr.value.normalizedScore)))
    else report
  }

  class LicenseCheck {
    const projectCfg: ProjectInfoConfig
    const config: Config
    var crateLicenses: seq<(Kid, seq<string>)>
    var licenseCrates: seq<(string, seq<Kid>)>
    var unlicenseCrates: seq<Kid>
    var result: seq<CrateLicenseInfo>
    var checkResult: Option<CheckResultDetail>
    var parseResult: Option<ParseResultDetail>
    var countResult: Option<CountResultDetail>

    /** The per-crate map and the license index are in key order. */
    predicate Valid()
      reads this
    {
      Sorted(crateLicenses) && Sorted(licenseCrates)
    }

    constructor (projectCfg: ProjectInfoConfig, config: Config)
      ensures this.projectCfg == projectCfg && this.config == config
      ensures crateLicenses == [] && licenseCrates == [] && unlicenseCrates == [] && result == []
      ensures checkResult.None? && parseResult.None? && countResult.None?
      ensures Valid()
    {
      this.projectCfg := projectCfg;
      this.config := config;
      crateLicenses := [];
      licenseCrates := [];
      unlicenseCrates := [];
      result := [];
      checkResult := None;
      parseResult := None;
      countResult := None;
    }

    /**
     * `check`: `gathered` is what cargo-deny's gatherer returned, or the
     * error of gathering the crates or loading the license store. On
     * success every gathered crate is indexed; `check_result` is not set.
     */
    method Check(gathered: Outcome<seq<KrateLicenseNfo>>) returns (st: Status)
      requires Valid()
      modifies this`crateLicenses, this`licenseCrates, this`unlicenseCrates
      ensures Valid()
      ensures gathered.Err? ==> st.Err? && unchanged(this)
      ensures gathered.Ok? ==>
        st == Done
        && Index(crateLicenses, licenseCrates, unlicenseCrates)
           == IndexCrates(Index(old(crateLicenses), old(licenseCrates), old(unlicenseCrates)), gathered.value)
    {
      if gathered.Err? {
        return Err(gathered.cause);
      }
      var nfos := gathered.value;
      ghost var start := Index(crateLicenses, licenseCrates, unlicenseCrates);
      for n := 0 to |nfos|
        invariant Valid()
        invariant Index(crateLicenses, licenseCrates, unlicenseCrates) == IndexCrates(start, nfos[..n])
      {
        assert nfos[..n + 1][..n] == nfos[..n];
        var nfo := nfos[n];
        var cur: seq<string> := [];
        match nfo.licInfo {
          case SpdxExpression(reqs) =>
            cur := AddLicenses(nfo.krate, reqs);
          case Unlicensed =>
            unlicenseCrates := unlicenseCrates + [nfo.krate];
        }
        crateLicenses := Put(crateLicenses, nfo.krate, cur);
      }
      assert nfos[..|nfos|] == nfos;
      st := Done;
    }

    /**
     * The inner loop of `check`: each requirement not yet in `cur` is added
     * to the license index, by binary search and then either an append to
     * the license's crates or an insertion of a new license.
     */
    method AddLicenses(id: Kid, reqs: seq<string>) returns (cur: seq<string>)
      requires Sorted(licenseCrates)
      modifies this`licenseCrates
      ensures (licenseCrates, cur) == AddReqs(old(licenseCrates), reqs, id)
    {
      ghost var start := licenseCrates;
      cur := [];
      for j := 0 to |reqs|
        invariant Sorted(licenseCrates)
        invariant (licenseCrates, cur) == AddReqs(start, reqs[..j], id)
      {
        assert reqs[..j + 1][..j] == reqs[..j];
        var s := reqs[j];
        if s !in cur {
          var found, i := BinarySearch(licenseCrates, s);
          if found {
            AddCrateFound(licenseCrates, s, id, i);
            licenseCrates := licenseCrates[i := (licenseCrates[i].0, licenseCrates[i].1 + [id])];
          } else {
            AddCrateInsert(licenseCrates, s, id, i);
            licenseCrates := licenseCrates[..i] + [(s, [id])] + licenseCrates[i..];
          }
          cur := cur + [s];
        }
      }
      assert reqs[..|reqs|] == reqs;
    }

    /**
     * `parse`: with both license lists configured, one record per indexed
     * crate and one per unlicensed crate is appended to `result`, and the
     * deny, unlicensed and default counts are stored; without them nothing
     * changes.
     */
    method Parse() returns (st: Status)
      modifies this`result, this`parseResult
      ensures st == Done
      ensures LicenseListsPresent(config) ==>
        var allow := LicenseCfg(config).value.allowLicenses.value;
        var deny := LicenseCfg(config).value.denyLicenses.value;
        result == old(result) + Records(crateLicenses, allow, deny) + UnlicensedRecords(unlicenseCrates)
        && parseResult == Some(CargoLicenseParsed(
             Some(TotalClass(crateLicenses, allow, deny, DenyClass)),
             Some(|unlicenseCrates|),
             Some(TotalClass(crateLicenses, allow, deny, DefaultClass))))
      ensures !LicenseListsPresent(config) ==> result == old(result) && parseResult == old(parseResult)
    {
      if config.qualityEvaluationCfg.Some? && config.qualityEvaluationCfg.value.licenseCfg.Some?
         && config.qualityEvaluationCfg.value.licenseCfg.value.allowLicenses.Some?
         && config.qualityEvaluationCfg.value.licenseCfg.value.denyLicenses.Some? {
        var allow := config.qualityEvaluationCfg.value.licenseCfg.value.allowLicenses.value;
        var deny := config.qualityEvaluationCfg.value.licenseCfg.value.denyLicenses.value;
        var denyCount, defaultCount := AppendCrateRecords(allow, deny);
        AppendUnlicensed();
        parseResult := Some(CargoLicenseParsed(Some(denyCount), Some(|unlicenseCrates|), Some(defaultCount)));
      }
      st := Done;
    }

    /**
     * The first loop of `parse`: one record per indexed crate, in key
     * order, and the deny and default occurrences over all crates.
     */
    method AppendCrateRecords(allow: seq<string>, deny: seq<string>) returns (denyCount: nat, defaultCount: nat)
      modifies this`result
      ensures result == old(result) + Records(crateLicenses, allow, deny)
      ensures denyCount == TotalClass(crateLicenses, allow, deny, DenyClass)
      ensures defaultCount == TotalClass(crateLicenses, allow, deny, DefaultClass)
    {
      denyCount, defaultCount := 0, 0;
      ghost var before := result;
      for n := 0 to |crateLicenses|
        invariant result == before + Records(crateLicenses[..n], allow, deny)
        invariant denyCount == TotalClass(crateLicenses[..n], allow, deny, DenyClass)
        invariant defaultCount == TotalClass(crateLicenses[..n], allow, deny, DefaultClass)
      {
        assert crateLicenses[..n + 1][..n] == crateLicenses[..n];
        var k := crateLicenses[n].0;
        var v := crateLicenses[n].1;
        var d, f, hasAllow, hasDeny, hasDefault := ClassifyLicenses(v, allow, deny);
        assert CrateLicenseInfo(k, v, hasAllow, hasDeny, hasDefault, false) == CrateRecord(k, v, allow, deny);
        denyCount := denyCount + d;
        defaultCount := defaultCount + f;
        result := result + [CrateLicenseInfo(k, v, hasAllow, hasDeny, hasDefault, false)];
      }
      assert crateLicenses[..|crateLicenses|] == crateLicenses;
    }

    /**
     * The inner loop of `parse` over one crate's licenses: the deny and
     * default occurrences and the three flags of its record.
     */
    method ClassifyLicenses(v: seq<string>, allow: seq<string>, deny: seq<string>)
      returns (denyCount: nat, defaultCount: nat, hasAllow: bool, hasDeny: bool, hasDefault: bool)
      ensures denyCount == CountClass(v, allow, deny, DenyClass)
      ensures defaultCount == CountClass(v, allow, deny, DefaultClass)
      ensures hasDeny == (denyCount > 0) && hasDefault == (defaultCount > 0)
      ensures hasAllow == (CountClass(v, allow, deny, AllowClass) > 0)
      ensures hasDeny <==> exists l :: l in v && l in deny
      ensures hasAllow <==> exists l :: l in v && l !in deny && l in allow
      ensures hasDefault <==> exists l :: l in v && l !in deny && l !in allow
    {
      denyCount, defaultCount := 0, 0;
      hasAllow, hasDeny, hasDefault := false, false, false;
      for j := 0 to |v|
        invariant denyCount == CountClass(v[..j], allow, deny, DenyClass)
        invariant defaultCount == CountClass(v[..j], allow, deny, DefaultClass)
        invariant hasDeny == (CountClass(v[..j], allow, deny, DenyClass) > 0)
        invariant hasAllow == (CountClass(v[..j], allow, deny, AllowClass) > 0)
        invariant hasDefault == (CountClass(v[..j], allow, deny, DefaultClass) > 0)
      {
        assert v[..j + 1][..j] == v[..j];
        var l := v[j];
        if l in deny {
          denyCount := denyCount + 1;
          hasDeny := true;
        } else if l in allow {
          hasAllow := true;
        } else {
          defaultCount := defaultCount + 1;
          hasDefault := true;
        }
      }
      assert v[..|v|] == v;
      CountClassPositive(v, allow, deny, DenyClass);
      CountClassPositive(v, allow, deny, AllowClass);
      CountClassPositive(v, allow, deny, DefaultClass);
    }

    /** The second loop of `parse`: one record per unlicensed crate. */
    method AppendUnlicensed()
      modifies this`result
      ensures result == old(result) + UnlicensedRecords(unlicenseCrates)
    {
      ghost var before := result;
      for n := 0 to |unlicenseCrates|
        invariant result == before + UnlicensedRecords(unlicenseCrates[..n])
      {
        assert unlicenseCrates[..n + 1][..n] == unlicenseCrates[..n];
        result := result + [CrateLicenseInfo(unlicenseCrates[n], [], false, false, true, true)];
      }
      assert unlicenseCrates[..|unlicenseCrates|] == unlicenseCrates;
    }

    /** `count`: the score is stored only when the four fields and both counts are present. */
    method Count() returns (st: Status)
      requires LicenseCfgComplete(config) && LicenseCounted(parseResult) ==> LicenseCfg(config).value.licenseEvalScore.value > 0
      modifies this`countResult
      ensures st == Done
      ensures countResult == (if LicenseScore(config, parseResult).Some? then LicenseScore(config, parseResult) else old(countResult))
    {
      if config.qualityEvaluationCfg.Some? && config.qualityEvaluationCfg.value.licenseCfg.Some? {
        var c := config.qualityEvaluationCfg.value.licenseCfg.value;
        if c.denyLicenseScore.Some? && c.defaultLicenseScore.Some? && c.licenseEvalScore.Some? && c.licenseEvalWeight.Some? {
          if parseResult.Some? && parseResult.value.CargoLicenseParsed?
             && parseResult.value.denyLicense.Some? && parseResult.value.defaultLicense.Some? {
            var denyLicense := parseResult.value.denyLicense.value;
            var defaultLicense := parseResult.value.defaultLicense.value;
            var base := c.licenseEvalScore.value;
            Scoring.ChainSubPair(base, denyLicense * c.denyLicenseScore.value, defaultLicense * c.defaultLicenseScore.value);
            var score := Scoring.SaturatingSub(Scoring.SaturatingSub(base, denyLicense * c.denyLicenseScore.value),
                                               defaultLicense * c.defaultLicenseScore.value) * 100 / base;
            assert score == Scoring.RawScore(base, [denyLicense * c.denyLicenseScore.value,
                                                    defaultLicense * c.defaultLicenseScore.value]);
            countResult := Some(CargoLicenseCount(Some(score), Some(score * c.licenseEvalWeight.value / 100)));
          }
        }
      }
      st := Done;
    }

    /** `result`: copies the score into the report's license slot. */
    method Result(report: Report) returns (st: Status, report': Report)
      ensures st == Done && report' == MergeLicense(countResult, report)
    {
      report' := report;
      if countResult.Some? && countResult.value.CargoLicenseCount?
         && countResult.value.score.Some? && countResult.value.normalizedScore.Some? {
        report' := report.(licenseCheck := Some(ScoreEntry(countResult.value.score, countResult.value.normalizedScore)));
      }
      st := Done;
    }
  }
}
