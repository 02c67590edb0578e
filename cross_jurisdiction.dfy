/**
 * The cross-jurisdiction analyzer: country codes mapped to regulatory
 * regions, the regulations that apply to a set of countries, data
 * localization rules, EU adequacy, the known conflicts between regimes, data
 * flow requirements, guidance and the analysis of a cross-border transaction.
 *
 * The class holds only constant tables, so the model is a module of
 * functions over them, with methods where the source builds its lists and
 * dicts in loops. The region strings form a closed set and are a datatype
 * here; a dict is the sequence of its (key, value) pairs in insertion order.
 */
module CrossJurisdiction {
  import opened Common

  // ---------------------------------------------------------------------
  // Regions and the constant tables

  /** The keys of JURISDICTION_REGS, and "OTHER" for a country outside the region table. */
  datatype Region = EU | US | IN | SG | UK | JP | BR | CN | RU | AU | Global | Other {
    function Name(): string {
      match this
      case EU => "EU"
      case US => "US"
      case IN => "IN"
      case SG => "SG"
      case UK => "UK"
      case JP => "JP"
      case BR => "BR"
      case CN => "CN"
      case RU => "RU"
      case AU => "AU"
      case Global => "GLOBAL"
      case Other => "OTHER"
    }
  }

  /** `JURISDICTION_REGS.get(region)` */
  function RegionRegs(region: Region): Option<seq<string>> {
    match region
    case EU => Some(["GDPR", "PSD2", "DORA"])
    case US => Some(["CCPA", "GLBA", "SOX"])
    case IN => Some(["RBI-DL", "PDPB", "IT-ACT"])
    case SG => Some(["PDPA", "MAS-TRM"])
    case UK => Some(["UK-GDPR", "FCA"])
    case JP => Some(["APPI"])
    case BR => Some(["LGPD"])
    case CN => Some(["PIPL", "CSL"])
    case RU => Some(["FZ-242"])
    case AU => Some(["Privacy Act"])
    case Global => Some(["PCI-DSS", "ISO-27001"])
    case Other => None
  }

  /** `region in JURISDICTION_REGS`: every region but "OTHER" is a key. */
  predicate HasRegulations(region: Region) {
    region != Other
  }

  /** The keys of JURISDICTION_REGS are exactly the regions that have regulations. */
  lemma RegionRegsKeys(region: Region)
    ensures RegionRegs(region).Some? <==> HasRegulations(region)
  {
  }

  /** `JURISDICTION_REGS.get(region, [])` */
  function Regs(region: Region): seq<string> {
    match RegionRegs(region)
    case None => []
    case Some(rs) => rs
  }

  /** The key of JURISDICTION_REGS spelled `s`, if there is one. */
  function KeyNamed(s: string): (r: Option<Region>)
    ensures r.Some? ==> r.value.Name() == s && HasRegulations(r.value)
    ensures r.None? ==> forall q: Region :: HasRegulations(q) ==> q.Name() != s
  {
    if s == "EU" then Some(EU)
    else if s == "US" then Some(US)
    else if s == "IN" then Some(IN)
    else if s == "SG" then Some(SG)
    else if s == "UK" then Some(UK)
    else if s == "JP" then Some(JP)
    else if s == "BR" then Some(BR)
    else if s == "CN" then Some(CN)
    else if s == "RU" then Some(RU)
    else if s == "AU" then Some(AU)
    else if s == "GLOBAL" then Some(Global)
    else None
  }

  /** A key's name looks the key up again. */
  lemma KeyNamedName(r: Region)
    requires HasRegulations(r)
    ensures KeyNamed(r.Name()) == Some(r)
  {
  }

  /** `COUNTRY_TO_REGION.get(code)` */
  function CountryRegion(code: string): Option<Region> {
    if code in ["DE", "FR", "IT", "ES", "NL", "BE", "AT", "PT", "IE", "GR", "PL", "SE", "FI", "DK", "CZ"] then Some(EU)
    else if code == "US" then Some(US)
    else if code == "GB" || code == "UK" then Some(UK)
    else if code == "IN" then Some(IN)
    else if code == "SG" then Some(SG)
    else if code == "JP" then Some(JP)
    else if code == "BR" then Some(BR)
    else if code == "CN" then Some(CN)
    else if code == "RU" then Some(RU)
    else if code == "AU" then Some(AU)
    else None
  }

  datatype Localization = Localization(regulation: string, strict: bool, sectors: seq<string>)

  /** `DATA_LOCALIZATION.get(code)` */
  function DataLocalization(code: string): Option<Localization> {
    if code == "IN" then Some(Localization("RBI Data Localization", true, ["payments"]))
    else if code == "RU" then Some(Localization("Federal Law 242-FZ", true, ["all"]))
    else if code == "CN" then Some(Localization("PIPL/CSL", true, ["all"]))
    else if code == "ID" then Some(Localization("GR 71/2019", false, ["government"]))
    else None
  }

  /** EU_ADEQUACY */
  const EuAdequacy: seq<string> := ["UK", "JP", "KR", "AR", "NZ", "CH", "IL", "CA", "UY"]

  datatype Conflict = Conflict(
    id: string, conflictType: string, regulations: seq<string>,
    description: string, resolution: string, riskLevel: string)

  /** KNOWN_CONFLICTS */
  const KnownConflicts: seq<Conflict> := [
    Conflict("CONFLICT-001", "data_localization", ["GDPR", "RBI Data Localization"],
             "EU data subject's card used in India - conflicting storage requirements",
             "Store copy in India for local transaction processing, primary in EU", "medium"),
    Conflict("CONFLICT-002", "retention_duration", ["GDPR Art 5(1)(e)", "Tax Law"],
             "GDPR requires data minimization, tax laws require 7-year retention",
             "Separate tax-required data from general personal data. Apply targeted retention.", "low"),
    Conflict("CONFLICT-003", "cross_border_transfer", ["GDPR Art 44", "CCPA"],
             "EU-to-US data transfers post Schrems II require additional safeguards",
             "Implement Standard Contractual Clauses (SCCs) and transfer impact assessments", "high"),
    Conflict("CONFLICT-004", "consent_standard", ["GDPR", "LGPD"],
             "GDPR requires explicit consent, LGPD allows implied consent in some cases",
             "Apply stricter GDPR standard when both jurisdictions apply", "low")]

  // ---------------------------------------------------------------------
  // get_region

  /**
   * `get_region`: the region of the upper-cased code, "OTHER" for a code
   * not in the table. A mapped region is never the global key, and by
   * `RegionRegsKeys` it always has regulations of its own.
   */
  function GetRegion(code: string): (r: Region)
    ensures r == Other <==> CountryRegion(Upper(code)).None?
    ensures r != Global
  {
    match CountryRegion(Upper(code))
    case None => Other
    case Some(region) => region
  }

  /** The region ignores the case of the code. */
  lemma GetRegionIgnoresCase(a: string, b: string)
    requires Upper(a) == Upper(b)
    ensures GetRegion(a) == GetRegion(b)
  {
  }

  // ---------------------------------------------------------------------
  // get_applicable_regulations

  /** The regions of `countries` that have regulations, repeats included, in input order. */
  function ApplicableRegions(countries: seq<string>): seq<Region> {
    Filter(MapSeq(countries, GetRegion), HasRegulations)
  }

  lemma ApplicableRegionsMembers(countries: seq<string>)
    ensures forall x :: x in ApplicableRegions(countries) <==>
      exists i :: 0 <= i < |countries| && GetRegion(countries[i]) == x && x != Other
  {
    var m := MapSeq(countries, GetRegion);
    forall x ensures x in ApplicableRegions(countries) <==>
      exists i :: 0 <= i < |countries| && GetRegion(countries[i]) == x && x != Other
    {
      if x in ApplicableRegions(countries) {
        assert x in m;
        var i :| 0 <= i < |m| && m[i] == x;
        assert GetRegion(countries[i]) == x;
      }
      if exists i :: 0 <= i < |countries| && GetRegion(countries[i]) == x && x != Other {
        var i :| 0 <= i < |countries| && GetRegion(countries[i]) == x && x != Other;
        assert m[i] == x;
        FilterMember(m, HasRegulations, x);
      }
    }
  }

  lemma ApplicableRegionsSnoc(countries: seq<string>, i: nat)
    requires i < |countries|
    ensures ApplicableRegions(countries[..i + 1]) ==
      ApplicableRegions(countries[..i]) + (if HasRegulations(GetRegion(countries[i])) then [GetRegion(countries[i])] else [])
  {
    var y := GetRegion(countries[i]);
    MapSeqSnoc(countries, i, GetRegion);
    FilterAppend(MapSeq(countries[..i], GetRegion), [y], HasRegulations);
    assert [y][1..] == [];
  }

  lemma ApplicableRegionsLocal(countries: seq<string>)
    ensures forall x :: x in ApplicableRegions(countries) ==> x != Global && x != Other
  {
    ApplicableRegionsMembers(countries);
  }

  /** One pass of the loop of `get_applicable_regulations`: the region of the i-th country. */
  method AddCountryRegion(countries: seq<string>, i: nat, regulations: seq<(Region, seq<string>)>)
    returns (r: seq<(Region, seq<string>)>)
    requires i < |countries|
    requires Keys(regulations) == Dedup(ApplicableRegions(countries[..i]))
    requires ValuesFrom(regulations, Regs)
    ensures Keys(r) == Dedup(ApplicableRegions(countries[..i + 1]))
    ensures ValuesFrom(r, Regs)
  {
    var region := GetRegion(countries[i]);
    ApplicableRegionsSnoc(countries, i);
    RegionRegsKeys(region);
    var regs := RegionRegs(region);
    if regs.Some? {
      DedupSnoc(ApplicableRegions(countries[..i]), region);
      AssignKeepsValues(regulations, region, Regs);
      assert regs.value == Regs(region);
      r := Assign(regulations, region, regs.value);
    } else {
      assert ApplicableRegions(countries[..i + 1]) == ApplicableRegions(countries[..i]);
      r := regulations;
    }
  }

  /**
   * `get_applicable_regulations`: the regions of the countries in first
   * occurrence order, then the global key, each with its regulations.
   */
  method GetApplicableRegulations(countries: seq<string>) returns (r: seq<(Region, seq<string>)>)
    ensures Keys(r) == Dedup(ApplicableRegions(countries)) + [Global]
    ensures forall i :: 0 <= i < |r| ==> r[i].1 == Regs(r[i].0)
    ensures |r| >= 1 && r[|r| - 1] == (Global, Regs(Global))
  {
    var regulations: seq<(Region, seq<string>)> := [];
    for i := 0 to |countries|
      invariant Keys(regulations) == Dedup(ApplicableRegions(countries[..i]))
      invariant ValuesFrom(regulations, Regs)
    {
      regulations := AddCountryRegion(countries, i, regulations);
    }
    assert countries[..|countries|] == countries;
    ApplicableRegionsLocal(countries);
    AssignKeepsValues(regulations, Global, Regs);
    r := Assign(regulations, Global, RegionRegs(Global).value);
  }

  lemma KeysShape(a: seq<Region>)
    requires forall x :: x in a ==> x != Global
    ensures var keys := Dedup(a) + [Global];
      && keys[|keys| - 1] == Global
      && (forall i, j :: 0 <= i < j < |keys| ==> keys[i] != keys[j])
      && (forall k :: k in keys <==> k == Global || k in a)
  {
    var d := Dedup(a);
    var keys := d + [Global];
    forall i, j | 0 <= i < j < |keys| ensures keys[i] != keys[j] {
      assert keys[i] == d[i];
      if j < |d| {
        assert keys[j] == d[j];
      } else {
        assert keys[i] in d;
      }
    }
  }

  /**
   * The applicable regulations always hold the global key, last, with no key
   * twice; any other key is the region of some given country.
   */
  lemma ApplicableKeys(countries: seq<string>, keys: seq<Region>)
    requires keys == Dedup(ApplicableRegions(countries)) + [Global]
    ensures |keys| >= 1 && keys[|keys| - 1] == Global
    ensures forall i, j :: 0 <= i < j < |keys| ==> keys[i] != keys[j]
    ensures forall k :: k in keys <==>
      k == Global || exists i :: 0 <= i < |countries| && GetRegion(countries[i]) == k && k != Other
  {
    ApplicableRegionsLocal(countries);
    KeysShape(ApplicableRegions(countries));
    ApplicableRegionsMembers(countries);
  }

  // ---------------------------------------------------------------------
  // Data localization (check_data_localization)

  predicate HasLocalization(country: string) {
    DataLocalization(Upper(country)).Some?
  }

  datatype LocalizationRequirement = LocalizationRequirement(
    country: string, regulation: string, strict: bool, sectors: seq<string>, requirement: string)

  function StoredLocally(country: string): string {
    "Data must be stored locally in " + country
  }

  function RequirementFor(country: string): LocalizationRequirement
    requires HasLocalization(country)
  {
    var loc := DataLocalization(Upper(country)).value;
    LocalizationRequirement(country, loc.regulation, loc.strict, loc.sectors, StoredLocally(country))
  }

  /** The requirements `check_data_localization` reports, one per country with a rule, in input order. */
  function Localized(countries: seq<string>): (r: seq<LocalizationRequirement>)
    ensures |r| == |Filter(countries, HasLocalization)|
    ensures forall i :: 0 <= i < |r| ==> r[i] == RequirementFor(Filter(countries, HasLocalization)[i])
  {
    if countries == [] then []
    else
      var init := countries[..|countries| - 1];
      var last := countries[|countries| - 1];
      assert countries == init + [last];
      FilterAppend(init, [last], HasLocalization);
      assert [last][1..] == [];
      Localized(init) + (if HasLocalization(last) then [RequirementFor(last)] else [])
  }

  /** `check_data_localization` */
  method CheckDataLocalization(countries: seq<string>) returns (r: seq<LocalizationRequirement>)
    ensures r == Localized(countries)
  {
    var requirements: seq<LocalizationRequirement> := [];
    for i := 0 to |countries|
      invariant requirements == Localized(countries[..i])
    {
      var country := countries[i];
      assert countries[..i + 1][..i] == countries[..i];
      if DataLocalization(Upper(country)).Some? {
        var loc := DataLocalization(Upper(country)).value;
        requirements := requirements + [LocalizationRequirement(country, loc.regulation, loc.strict, loc.sectors,
                                                                StoredLocally(country))];
      }
    }
    assert countries[..|countries|] == countries;
    r := requirements;
  }

  /** A country is reported exactly when its upper-cased code has a rule, as given and with that rule. */
  lemma LocalizedMembers(countries: seq<string>, c: string)
    ensures (exists l :: l in Localized(countries) && l.country == c) <==> c in countries && HasLocalization(c)
    ensures forall l :: l in Localized(countries) && l.country == c ==> l == RequirementFor(c)
  {
    var fs := Filter(countries, HasLocalization);
    if c in countries && HasLocalization(c) {
      FilterMember(countries, HasLocalization, c);
      var k :| 0 <= k < |fs| && fs[k] == c;
      assert Localized(countries)[k].country == c;
    }
  }

  // ---------------------------------------------------------------------
  // EU adequacy (check_eu_adequacy)

  datatype Adequacy = Adequacy(destination: string, hasAdequacy: bool, mechanismRequired: string, notes: string)

  /**
   * `check_eu_adequacy`: adequate when the upper-cased destination has an
   * adequacy decision or is one of five EU members; no mechanism is needed
   * exactly then.
   */
  function CheckEuAdequacy(destination: string): (r: Adequacy)
    ensures r.destination == destination
    ensures r.hasAdequacy <==> Upper(destination) in EuAdequacy || Upper(destination) in ["DE", "FR", "IT", "ES", "NL"]
    ensures r.mechanismRequired == "None" <==> r.hasAdequacy
  {
    var adequate := Upper(destination) in EuAdequacy || Upper(destination) in ["DE", "FR", "IT", "ES", "NL"];
    Adequacy(destination, adequate,
             if adequate then "None" else "SCCs or BCRs required",
             if adequate then "EU adequacy decision in place" else "Standard Contractual Clauses recommended")
  }

  // ---------------------------------------------------------------------
  // get_jurisdiction_conflicts

  /** `s.split()[0]` for a string that does not start with whitespace: the text up to the first whitespace. */
  function FirstWord(s: string): (r: string)
    ensures StartsWith(s, r)
  {
    if s == [] || IsSpace(s[0]) then [] else [s[0]] + FirstWord(s[1..])
  }

  /** `any(reg.startswith(r) or r.startswith(reg.split()[0]) for r in rs)` */
  predicate RelatedToAny(reg: string, rs: seq<string>) {
    exists i :: 0 <= i < |rs| && (StartsWith(reg, rs[i]) || StartsWith(rs[i], FirstWord(reg)))
  }

  /** A jurisdiction that is a key of JURISDICTION_REGS and holds a regulation related to `reg`. */
  predicate Matches(reg: string, jur: string) {
    KeyNamed(jur).Some? && RelatedToAny(reg, Regs(KeyNamed(jur).value))
  }

  predicate MatchesSome(reg: string, jurisdictions: seq<string>) {
    exists k :: 0 <= k < |jurisdictions| && Matches(reg, jurisdictions[k])
  }

  function Matcher(jurisdictions: seq<string>): string -> bool {
    (reg: string) => MatchesSome(reg, jurisdictions)
  }

  /** A conflict applies when the matcher accepts one of its regulations. */
  predicate Applies(c: Conflict, matches: string -> bool) {
    exists j :: 0 <= j < |c.regulations| && matches(c.regulations[j])
  }

  function AppliesUnder(matches: string -> bool): Conflict -> bool {
    (c: Conflict) => Applies(c, matches)
  }

  /** What the first loop appends for one conflict: the conflict once per regulation that matches. */
  function Copies(c: Conflict, regs: seq<string>, matches: string -> bool): seq<Conflict> {
    if regs == [] then []
    else Copies(c, regs[..|regs| - 1], matches) + (if matches(regs[|regs| - 1]) then [c] else [])
  }

  /** What the first loop appends over the conflicts, before repeats are removed. */
  function Gathered(cs: seq<Conflict>, matches: string -> bool): seq<Conflict> {
    if cs == [] then []
    else
      var c := cs[|cs| - 1];
      Gathered(cs[..|cs| - 1], matches) + Copies(c, c.regulations, matches)
  }

  function Ids(cs: seq<Conflict>): (r: seq<string>)
    ensures |r| == |cs| && forall i :: 0 <= i < |cs| ==> r[i] == cs[i].id
  {
    if cs == [] then [] else Ids(cs[..|cs| - 1]) + [cs[|cs| - 1].id]
  }

  /** The second loop: the first conflict with each ID, in order. */
  function UniqueById(cs: seq<Conflict>): seq<Conflict> {
    if cs == [] then []
    else
      var u := UniqueById(cs[..|cs| - 1]);
      if cs[|cs| - 1].id in Ids(u) then u else u + [cs[|cs| - 1]]
  }

  lemma {:induction false} CopiesShape(c: Conflict, regs: seq<string>, matches: string -> bool)
    ensures forall x :: x in Copies(c, regs, matches) ==> x == c
    ensures Copies(c, regs, matches) != [] <==> exists j :: 0 <= j < |regs| && matches(regs[j])
  {
    if regs != [] {
      var init := regs[..|regs| - 1];
      CopiesShape(c, init, matches);
      if exists j :: 0 <= j < |regs| && matches(regs[j]) {
        var j :| 0 <= j < |regs| && matches(regs[j]);
        if j < |init| {
          assert init[j] == regs[j];
        }
      }
      if exists j :: 0 <= j < |init| && matches(init[j]) {
        var j :| 0 <= j < |init| && matches(init[j]);
        assert regs[j] == init[j];
      }
    }
  }

  lemma {:induction false} GatheredFrom(cs: seq<Conflict>, matches: string -> bool)
    ensures forall x :: x in Gathered(cs, matches) ==> x in cs
  {
    if cs != [] {
      var init := cs[..|cs| - 1];
      GatheredFrom(init, matches);
      CopiesShape(cs[|cs| - 1], cs[|cs| - 1].regulations, matches);
      assert forall x :: x in init ==> x in cs;
    }
  }

  lemma {:induction false} UniqueFrom(cs: seq<Conflict>)
    ensures forall x :: x in UniqueById(cs) ==> x in cs
  {
    if cs != [] {
      var init := cs[..|cs| - 1];
      UniqueFrom(init);
      assert forall x :: x in init ==> x in cs;
    }
  }

  /** Removing repeats from `a` followed by copies of one conflict with a new ID keeps one copy. */
  lemma {:induction false} UniqueAppendCopies(a: seq<Conflict>, b: seq<Conflict>, c: Conflict)
    requires forall x :: x in b ==> x == c
    requires c.id !in Ids(UniqueById(a))
    ensures UniqueById(a + b) == UniqueById(a) + (if b == [] then [] else [c])
    decreases |b|
  {
    if b == [] {
      assert a + b == a;
    } else {
      var init := b[..|b| - 1];
      assert b[|b| - 1] in b;
      assert forall x :: x in init ==> x in b;
      UniqueAppendCopies(a, init, c);
      var u := UniqueById(a + init);
      assert (a + b)[..|a + b| - 1] == a + init;
      assert (a + b)[|a + b| - 1] == c;
      if init != [] {
        assert Ids(u)[|u| - 1] == c.id;
      }
    }
  }

  predicate DistinctIds(cs: seq<Conflict>) {
    forall i, j :: 0 <= i < j < |cs| ==> cs[i].id != cs[j].id
  }

  /** With distinct IDs, the last conflict's ID is not among those gathered before it. */
  lemma FreshId(cs: seq<Conflict>, matches: string -> bool)
    requires DistinctIds(cs) && cs != []
    ensures cs[|cs| - 1].id !in Ids(UniqueById(Gathered(cs[..|cs| - 1], matches)))
  {
    var init := cs[..|cs| - 1];
    var u := UniqueById(Gathered(init, matches));
    GatheredFrom(init, matches);
    UniqueFrom(Gathered(init, matches));
    forall k | 0 <= k < |u| ensures Ids(u)[k] != cs[|cs| - 1].id {
      assert u[k] in u;
      assert u[k] in init;
      var m :| 0 <= m < |init| && init[m] == u[k];
      assert cs[m] == init[m];
    }
  }

  lemma FilterLast(cs: seq<Conflict>, matches: string -> bool)
    requires cs != []
    ensures Filter(cs, AppliesUnder(matches)) ==
      Filter(cs[..|cs| - 1], AppliesUnder(matches)) + (if Applies(cs[|cs| - 1], matches) then [cs[|cs| - 1]] else [])
  {
    var c := cs[|cs| - 1];
    FilterAppend(cs[..|cs| - 1], [c], AppliesUnder(matches));
    assert cs == cs[..|cs| - 1] + [c];
    assert [c][1..] == [];
  }

  /** Gathering with repeats and then removing them selects exactly the applicable conflicts, in order. */
  lemma {:induction false} UniqueGatheredIsFilter(cs: seq<Conflict>, matches: string -> bool)
    requires DistinctIds(cs)
    ensures UniqueById(Gathered(cs, matches)) == Filter(cs, AppliesUnder(matches))
  {
    if cs != [] {
      var init := cs[..|cs| - 1];
      var c := cs[|cs| - 1];
      assert DistinctIds(init);
      UniqueGatheredIsFilter(init, matches);
      CopiesShape(c, c.regulations, matches);
      FreshId(cs, matches);
      UniqueAppendCopies(Gathered(init, matches), Copies(c, c.regulations, matches), c);
      FilterLast(cs, matches);
    }
  }

  lemma KnownConflictIdsDistinct()
    ensures DistinctIds(KnownConflicts)
  {
  }

  lemma {:induction false} FilterDistinctIds(cs: seq<Conflict>, p: Conflict -> bool)
    requires DistinctIds(cs)
    ensures DistinctIds(Filter(cs, p))
  {
    if cs != [] {
      var rest := cs[1..];
      assert DistinctIds(rest);
      FilterDistinctIds(rest, p);
      var fr := Filter(rest, p);
      forall x | x in fr ensures x.id != cs[0].id {
        var m :| 0 <= m < |rest| && rest[m] == x;
        assert cs[m + 1] == x;
      }
    }
  }

  /** The conflicts found never repeat an ID and all come from the known table. */
  lemma ConflictsUnique(jurisdictions: seq<string>)
    ensures DistinctIds(Filter(KnownConflicts, AppliesUnder(Matcher(jurisdictions))))
    ensures forall c :: c in Filter(KnownConflicts, AppliesUnder(Matcher(jurisdictions))) ==> c in KnownConflicts
  {
    KnownConflictIdsDistinct();
    FilterDistinctIds(KnownConflicts, AppliesUnder(Matcher(jurisdictions)));
  }

  /** The innermost loop: whether some jurisdiction matches `reg`, stopping at the first that does. */
  method AnyJurisdictionMatches(reg: string, jurisdictions: seq<string>) returns (matched: bool)
    ensures matched == MatchesSome(reg, jurisdictions)
  {
    matched := false;
    var k := 0;
    while k < |jurisdictions|
      invariant k <= |jurisdictions|
      invariant forall m :: 0 <= m < k ==> !Matches(reg, jurisdictions[m])
    {
      var key := KeyNamed(jurisdictions[k]);
      if key.Some? && RelatedToAny(reg, Regs(key.value)) {
        assert Matches(reg, jurisdictions[k]);
        matched := true;
        return;
      }
      k := k + 1;
    }
  }

  lemma GatheredSnoc(cs: seq<Conflict>, i: nat, matches: string -> bool)
    requires i < |cs|
    ensures Gathered(cs[..i + 1], matches) == Gathered(cs[..i], matches) + Copies(cs[i], cs[i].regulations, matches)
  {
    assert cs[..i + 1][..i] == cs[..i];
  }

  lemma CopiesSnoc(c: Conflict, regs: seq<string>, j: nat, matches: string -> bool)
    requires j < |regs|
    ensures Copies(c, regs[..j + 1], matches) == Copies(c, regs[..j], matches) + (if matches(regs[j]) then [c] else [])
  {
    assert regs[..j + 1][..j] == regs[..j];
  }

  lemma UniqueSnoc(cs: seq<Conflict>, i: nat)
    requires i < |cs|
    ensures UniqueById(cs[..i + 1]) ==
      if cs[i].id in Ids(UniqueById(cs[..i])) then UniqueById(cs[..i]) else UniqueById(cs[..i]) + [cs[i]]
  {
    assert cs[..i + 1][..i] == cs[..i];
  }

  /** The first loop: each conflict once for every one of its regulations some jurisdiction matches. */
  method GatherApplicable(cs: seq<Conflict>, jurisdictions: seq<string>) returns (applicable: seq<Conflict>)
    ensures applicable == Gathered(cs, Matcher(jurisdictions))
  {
    var matches := Matcher(jurisdictions);
    applicable := [];
    for i := 0 to |cs|
      invariant applicable == Gathered(cs[..i], matches)
    {
      var conflict := cs[i];
      var regs := conflict.regulations;
      var before := applicable;
      for j := 0 to |regs|
        invariant applicable == before + Copies(conflict, regs[..j], matches)
      {
        var matched := AnyJurisdictionMatches(regs[j], jurisdictions);
        CopiesSnoc(conflict, regs, j, matches);
        if matched {
          applicable := applicable + [conflict];
        }
      }
      assert regs[..|regs|] == regs;
      GatheredSnoc(cs, i, matches);
    }
    assert cs[..|cs|] == cs;
  }

  /** The second loop: the first conflict with each ID, tracked through a set of seen IDs. */
  method RemoveRepeatedIds(applicable: seq<Conflict>) returns (unique: seq<Conflict>)
    ensures unique == UniqueById(applicable)
  {
    var seen: set<string> := {};
    unique := [];
    for i := 0 to |applicable|
      invariant unique == UniqueById(applicable[..i])
      invariant forall id :: id in seen <==> id in Ids(unique)
    {
      var c := applicable[i];
      UniqueSnoc(applicable, i);
      if c.id !in seen {
        var old_unique := unique;
        seen := seen + {c.id};
        unique := unique + [c];
        assert Ids(unique) == Ids(old_unique) + [c.id];
      }
    }
    assert applicable[..|applicable|] == applicable;
  }

  /**
   * `get_jurisdiction_conflicts`: each known conflict at most once, in table
   * order, exactly when one of its regulations matches a given jurisdiction.
   */
  method GetJurisdictionConflicts(jurisdictions: seq<string>) returns (r: seq<Conflict>)
    ensures r == Filter(KnownConflicts, AppliesUnder(Matcher(jurisdictions)))
  {
    var applicable := GatherApplicable(KnownConflicts, jurisdictions);
    r := RemoveRepeatedIds(applicable);
    KnownConflictIdsDistinct();
    UniqueGatheredIsFilter(KnownConflicts, Matcher(jurisdictions));
  }

  // ---------------------------------------------------------------------
  // check_data_flow_compliance

  // The fixed texts below are split after their first words so that the
  // verifier reads their leading characters without unfolding the whole literal.
  const SccRequirement := "Standard " + "Contractual Clauses (SCCs) must be in place"
  const TiaRequirement := "Transfer " + "Impact Assessment recommended"
  const SchremsWarning := "Post-Schrems II, additional safeguards may be needed for US transfers"
  const RbiRequirement := "RBI: " + "Payment data must be stored on servers in India"

  /** The first characters that tell the fixed requirement texts apart. */
  lemma FlowTextInitials()
    ensures SccRequirement[0] == 'S' && TiaRequirement[0] == 'T'
    ensures RbiRequirement[0] == 'R' && RbiRequirement[3] == ':'
  {
  }

  /** Data leaving the EU for a region outside it without an adequacy decision. */
  predicate NeedsScc(origin: string, destination: string) {
    GetRegion(origin) == EU && GetRegion(destination) != EU && !CheckEuAdequacy(destination).hasAdequacy
  }

  predicate IsStrict(l: LocalizationRequirement) {
    l.strict
  }

  function StrictLine(l: LocalizationRequirement): string {
    l.regulation + ": " + l.requirement
  }

  predicate StrictFromOrigin(origin: string, l: LocalizationRequirement) {
    l.strict && l.country == origin
  }

  function StrictFrom(origin: string): LocalizationRequirement -> bool {
    (l: LocalizationRequirement) => StrictFromOrigin(origin, l)
  }

  function LocalCopyWarning(origin: string): string {
    "Data originating from " + origin + " may need local copy"
  }

  function LocalCopyWarningFor(origin: string): LocalizationRequirement -> string {
    (l: LocalizationRequirement) => LocalCopyWarning(origin)
  }

  function RbiApplies(origin: string, destination: string): bool {
    origin == "IN" || destination == "IN"
  }

  /** The requirements of a data flow: SCCs, then strict localization rules, then the RBI rule. */
  function FlowRequirements(origin: string, destination: string): seq<string> {
    (if NeedsScc(origin, destination) then [SccRequirement, TiaRequirement] else [])
    + MapSeq(Filter(Localized([origin, destination]), IsStrict), StrictLine)
    + (if RbiApplies(origin, destination) then [RbiRequirement] else [])
  }

  function FlowWarnings(origin: string, destination: string): seq<string> {
    (if NeedsScc(origin, destination) then [SchremsWarning] else [])
    + MapSeq(Filter(Localized([origin, destination]), StrictFrom(origin)), LocalCopyWarningFor(origin))
  }

  datatype DataFlow = DataFlow(
    origin: string, destination: string, originRegion: Region, destinationRegion: Region,
    allowed: bool, requirements: seq<string>, warnings: seq<string>,
    originRegulations: seq<string>, destinationRegulations: seq<string>)

  /** The loop of `check_data_flow_compliance` over the localization requirements. */
  method StrictLocalizationLines(localization: seq<LocalizationRequirement>, origin: string)
    returns (requirements: seq<string>, warnings: seq<string>)
    ensures requirements == MapSeq(Filter(localization, IsStrict), StrictLine)
    ensures warnings == MapSeq(Filter(localization, StrictFrom(origin)), LocalCopyWarningFor(origin))
  {
    requirements := [];
    warnings := [];
    for i := 0 to |localization|
      invariant requirements == MapSeq(Filter(localization[..i], IsStrict), StrictLine)
      invariant warnings == MapSeq(Filter(localization[..i], StrictFrom(origin)), LocalCopyWarningFor(origin))
    {
      var loc := localization[i];
      MapFilterSnoc(localization, i, IsStrict, StrictLine);
      MapFilterSnoc(localization, i, StrictFrom(origin), LocalCopyWarningFor(origin));
      if loc.strict {
        requirements := requirements + [loc.regulation + ": " + loc.requirement];
        if loc.country == origin {
          warnings := warnings + [LocalCopyWarning(origin)];
        }
      }
    }
    assert localization[..|localization|] == localization;
  }

  /**
   * `check_data_flow_compliance`: the flow is always allowed; what it needs
   * is listed as requirements and warnings.
   */
  method CheckDataFlowCompliance(origin: string, destination: string) returns (r: DataFlow)
    ensures r.allowed
    ensures r.origin == origin && r.destination == destination
    ensures r.originRegion == GetRegion(origin) && r.destinationRegion == GetRegion(destination)
    ensures r.requirements == FlowRequirements(origin, destination)
    ensures r.warnings == FlowWarnings(origin, destination)
    ensures r.originRegulations == Regs(GetRegion(origin)) && r.destinationRegulations == Regs(GetRegion(destination))
  {
    var originRegion := GetRegion(origin);
    var destRegion := GetRegion(destination);
    var requirements: seq<string> := [];
    var warnings: seq<string> := [];
    var allowed := true;

    if originRegion == EU && destRegion != EU {
      var adequacy := CheckEuAdequacy(destination);
      if !adequacy.hasAdequacy {
        requirements := requirements + [SccRequirement];
        requirements := requirements + [TiaRequirement];
        warnings := warnings + [SchremsWarning];
      }
    }
    assert requirements == if NeedsScc(origin, destination) then [SccRequirement, TiaRequirement] else [];
    assert warnings == if NeedsScc(origin, destination) then [SchremsWarning] else [];

    var localization := CheckDataLocalization([origin, destination]);
    var strictLines, copyWarnings := StrictLocalizationLines(localization, origin);
    requirements := requirements + strictLines;
    warnings := warnings + copyWarnings;

    if origin == "IN" || destination == "IN" {
      requirements := requirements + [RbiRequirement];
    }

    r := DataFlow(origin, destination, originRegion, destRegion, allowed, requirements, warnings,
                  Regs(originRegion), Regs(destRegion));
  }

  /** No strict localization line spells the RBI or the SCC requirement. */
  lemma StrictLineDistinct(c: string)
    requires HasLocalization(c)
    ensures StrictLine(RequirementFor(c)) != RbiRequirement
    ensures StrictLine(RequirementFor(c)) != SccRequirement
  {
    var line := StrictLine(RequirementFor(c));
    var reg := RequirementFor(c).regulation;
    assert line[..|reg|] == reg;
    if reg == "RBI Data Localization" {
      assert line[3] == reg[3] == ' ';
      FlowTextInitials();
    } else {
      assert reg[0] != 'R' && reg[0] != 'S';
      assert line[0] == reg[0];
    }
  }

  lemma StrictLinesDistinct(origin: string, destination: string)
    ensures forall x :: x in MapSeq(Filter(Localized([origin, destination]), IsStrict), StrictLine) ==>
      x != RbiRequirement && x != SccRequirement
  {
    var locs := Localized([origin, destination]);
    var strict := Filter(locs, IsStrict);
    forall x | x in MapSeq(strict, StrictLine) ensures x != RbiRequirement && x != SccRequirement {
      var i :| 0 <= i < |strict| && MapSeq(strict, StrictLine)[i] == x;
      var l := strict[i];
      assert l in locs;
      var k :| 0 <= k < |locs| && locs[k] == l;
      var fs := Filter([origin, destination], HasLocalization);
      assert HasLocalization(fs[k]);
      StrictLineDistinct(fs[k]);
    }
  }

  /** The RBI requirement is listed exactly when India is the origin or the destination, as spelled. */
  lemma RbiRequirementIff(origin: string, destination: string)
    ensures RbiRequirement in FlowRequirements(origin, destination) <==> origin == "IN" || destination == "IN"
  {
    var scc: seq<string> := if NeedsScc(origin, destination) then [SccRequirement, TiaRequirement] else [];
    var strict := MapSeq(Filter(Localized([origin, destination]), IsStrict), StrictLine);
    var rbi: seq<string> := if RbiApplies(origin, destination) then [RbiRequirement] else [];
    assert FlowRequirements(origin, destination) == scc + strict + rbi;
    StrictLinesDistinct(origin, destination);
    FlowTextInitials();
    assert RbiRequirement !in scc;
    assert RbiRequirement in scc + strict + rbi <==> RbiRequirement in rbi;
  }

  /** SCCs are required exactly for EU data sent outside the EU to a country without adequacy. */
  lemma SccRequirementIff(origin: string, destination: string)
    ensures SccRequirement in FlowRequirements(origin, destination) <==> NeedsScc(origin, destination)
  {
    var scc: seq<string> := if NeedsScc(origin, destination) then [SccRequirement, TiaRequirement] else [];
    var strict := MapSeq(Filter(Localized([origin, destination]), IsStrict), StrictLine);
    var rbi: seq<string> := if RbiApplies(origin, destination) then [RbiRequirement] else [];
    assert FlowRequirements(origin, destination) == scc + strict + rbi;
    StrictLinesDistinct(origin, destination);
    FlowTextInitials();
    assert SccRequirement !in rbi;
    assert SccRequirement in scc + strict + rbi <==> SccRequirement in scc;
  }

  /** Each strict rule of the origin or the destination appears as a requirement. */
  lemma StrictRuleRequired(origin: string, destination: string, c: string)
    requires c == origin || c == destination
    requires HasLocalization(c) && RequirementFor(c).strict
    ensures StrictLine(RequirementFor(c)) in FlowRequirements(origin, destination)
  {
    var locs := Localized([origin, destination]);
    LocalizedMembers([origin, destination], c);
    var l :| l in locs && l.country == c;
    var k :| 0 <= k < |locs| && locs[k] == l;
    var strict := Filter(locs, IsStrict);
    assert l in strict;
    var i :| 0 <= i < |strict| && strict[i] == l;
    assert MapSeq(strict, StrictLine)[i] == StrictLine(l);
  }

  // ---------------------------------------------------------------------
  // _generate_guidance

  // Split after the first words, as the texts above are.
  const GdprTransfers := "GDPR Art 44-49: " + "Ensure legal basis for cross-border transfers"
  const Ropa := "Maintain " + "Records of Processing Activities (ROPA)"
  const CcpaOptOut := "CCPA: " + "Provide opt-out rights for California residents"
  const GlbaSafeguards := "GLBA: " + "Implement safeguards for financial information"
  const RbiStorage := "RBI: " + "Store payment data on servers in India"
  const PdpaOfficer := "PDPA: " + "Appoint Data Protection Officer for Singapore operations"
  const PciStandards := "PCI-DSS: " + "Maintain cardholder data security standards"
  const RetainRecords := "Retain " + "transaction records per applicable retention periods"
  const VerifyDpas := "Verify Data Processing Agreements" + " with all processors"
  const ConfirmResidency := "Confirm data residency compliance" + " with Indian operations"
  const DocumentationNeeded: seq<string> := [
    "Data Processing Agreements", "Transfer Impact Assessment (if EU data)", "Consent records",
    "Evidence of encryption in transit and at rest"]

  /** The first characters that tell the key requirement lines apart. */
  lemma GuidanceTextInitials()
    ensures PciStandards[0] == 'P' && PciStandards[1] == 'C' && PdpaOfficer[1] == 'D'
    ensures GdprTransfers[0] == 'G' && Ropa[0] == 'M' && CcpaOptOut[0] == 'C'
    ensures GlbaSafeguards[0] == 'G' && RbiStorage[0] == 'R' && RetainRecords[0] == 'R'
  {
  }

  /** `xs[:5]` */
  function TopFive<T>(xs: seq<T>): (r: seq<T>)
    ensures |r| <= 5 && |r| <= |xs| && r == xs[..|r|]
    ensures |xs| <= 5 ==> r == xs
    ensures |xs| > 5 ==> |r| == 5
  {
    if |xs| <= 5 then xs else xs[..5]
  }

  /** Every key requirement in the order the guidance lists them, before the cut to five. */
  function KeyRequirementLines(keys: seq<Region>): seq<string> {
    (if EU in keys then [GdprTransfers, Ropa] else [])
    + (if US in keys then [CcpaOptOut, GlbaSafeguards] else [])
    + (if IN in keys then [RbiStorage] else [])
    + (if SG in keys then [PdpaOfficer] else [])
    + [PciStandards, RetainRecords]
  }

  function ReviewItem(c: Conflict): string {
    "Review: " + c.resolution
  }

  /** Every action item in the order the guidance lists them, before the cut to five. */
  function ActionLines(keys: seq<Region>, conflicts: seq<Conflict>): seq<string> {
    (if EU in keys then [VerifyDpas] else [])
    + (if IN in keys then [ConfirmResidency] else [])
    + MapSeq(conflicts, ReviewItem)
  }

  function GuidanceSummary(jurisdictions: nat, frameworks: nat): string {
    "Transaction involves " + NatToString(jurisdictions) + " jurisdictions with "
    + NatToString(frameworks) + " regulatory frameworks"
  }

  datatype Guidance = Guidance(
    summary: string, keyRequirements: seq<string>, actionItems: seq<string>, documentationNeeded: seq<string>)

  /** The key requirements of `_generate_guidance` before the cut to five. */
  method BuildKeyRequirements(keys: seq<Region>) returns (keyRequirements: seq<string>)
    ensures keyRequirements == KeyRequirementLines(keys)
  {
    keyRequirements := [];
    if EU in keys {
      keyRequirements := keyRequirements + [GdprTransfers, Ropa];
    }
    if US in keys {
      keyRequirements := keyRequirements + [CcpaOptOut, GlbaSafeguards];
    }
    if IN in keys {
      keyRequirements := keyRequirements + [RbiStorage];
    }
    if SG in keys {
      keyRequirements := keyRequirements + [PdpaOfficer];
    }
    keyRequirements := keyRequirements + [PciStandards, RetainRecords];
  }

  /** The action items of `_generate_guidance` before the cut to five. */
  method BuildActionItems(keys: seq<Region>, conflicts: seq<Conflict>) returns (actionItems: seq<string>)
    ensures actionItems == ActionLines(keys, conflicts)
  {
    actionItems := [];
    if EU in keys {
      actionItems := actionItems + [VerifyDpas];
    }
    if IN in keys {
      actionItems := actionItems + [ConfirmResidency];
    }
    var reviews := ReviewItems(conflicts);
    actionItems := actionItems + reviews;
  }

  /** The loop over the conflicts: one review item each, in order. */
  method ReviewItems(conflicts: seq<Conflict>) returns (items: seq<string>)
    ensures items == MapSeq(conflicts, ReviewItem)
  {
    items := [];
    for i := 0 to |conflicts|
      invariant items == MapSeq(conflicts[..i], ReviewItem)
    {
      MapSeqSnoc(conflicts, i, ReviewItem);
      items := items + [ReviewItem(conflicts[i])];
    }
    assert conflicts[..|conflicts|] == conflicts;
  }

  /** `_generate_guidance`: requirements by region, the always-present PCI-DSS lines, conflict reviews; five of each at most. */
  method GenerateGuidance(countries: seq<string>, regulations: seq<(Region, seq<string>)>, conflicts: seq<Conflict>)
    returns (g: Guidance)
    ensures g.summary == GuidanceSummary(|countries|, |regulations|)
    ensures g.keyRequirements == TopFive(KeyRequirementLines(Keys(regulations)))
    ensures g.actionItems == TopFive(ActionLines(Keys(regulations), conflicts))
    ensures g.documentationNeeded == DocumentationNeeded
    ensures |g.keyRequirements| <= 5 && |g.actionItems| <= 5
  {
    var keys := Keys(regulations);
    var keyRequirements := BuildKeyRequirements(keys);
    var actionItems := BuildActionItems(keys, conflicts);
    g := Guidance(GuidanceSummary(|countries|, |regulations|), TopFive(keyRequirements), TopFive(actionItems),
                  DocumentationNeeded);
  }

  /**
   * The PCI-DSS line is always listed unless the EU, the US and India or
   * Singapore all apply: their six region lines then fill the five places.
   */
  lemma PciGuidanceKept(keys: seq<Region>)
    ensures PciStandards in TopFive(KeyRequirementLines(keys)) <==> !(EU in keys && US in keys && (IN in keys || SG in keys))
  {
    var pre := (if EU in keys then [GdprTransfers, Ropa] else [])
      + (if US in keys then [CcpaOptOut, GlbaSafeguards] else [])
      + (if IN in keys then [RbiStorage] else [])
      + (if SG in keys then [PdpaOfficer] else []);
    var lines := KeyRequirementLines(keys);
    assert lines == pre + [PciStandards, RetainRecords];
    GuidanceTextInitials();
    assert PciStandards !in pre;
    if |pre| < 5 {
      assert TopFive(lines)[|pre|] == PciStandards;
    } else {
      assert TopFive(lines) == pre[..5];
      assert forall x :: x in pre[..5] ==> x in pre;
    }
  }

  /** At most two fixed action items come first, so the first three conflicts are always reviewed. */
  lemma FirstConflictsReviewed(keys: seq<Region>, conflicts: seq<Conflict>)
    ensures forall k :: 0 <= k < |conflicts| && k < 3 ==> ReviewItem(conflicts[k]) in TopFive(ActionLines(keys, conflicts))
  {
    var fixed := (if EU in keys then [VerifyDpas] else []) + (if IN in keys then [ConfirmResidency] else []);
    var lines := ActionLines(keys, conflicts);
    assert lines == fixed + MapSeq(conflicts, ReviewItem);
    forall k | 0 <= k < |conflicts| && k < 3
      ensures ReviewItem(conflicts[k]) in TopFive(lines)
    {
      assert lines[|fixed| + k] == ReviewItem(conflicts[k]);
      assert TopFive(lines)[|fixed| + k] == lines[|fixed| + k];
    }
  }

  // ---------------------------------------------------------------------
  // analyze_transaction

  /** The fields of a transaction the analysis reads; `None` is a missing key. */
  datatype Transaction = Transaction(
    id: Option<string>, originCountry: Option<string>, processorCountry: Option<string>,
    settlementCountry: Option<string>, cardIssuingCountry: Option<string>, merchantCountry: Option<string>)

  /** `transaction.get(key, "US")` */
  function OrUs(field: Option<string>): string {
    match field
    case None => "US"
    case Some(c) => c
  }

  /** An optional country is added only when present and not empty. */
  function IfGiven(field: Option<string>): set<string> {
    if field.Some? && field.value != "" then {field.value} else {}
  }

  /** The set of countries `analyze_transaction` collects. */
  function TransactionCountries(t: Transaction): set<string> {
    {OrUs(t.originCountry), OrUs(t.processorCountry), OrUs(t.settlementCountry)}
    + IfGiven(t.cardIssuingCountry) + IfGiven(t.merchantCountry)
  }

  function RegionName(region: Region): string {
    region.Name()
  }

  /** Some country of the transaction lies in the EU. */
  predicate EuInvolved(countries: seq<string>) {
    exists i :: 0 <= i < |countries| && GetRegion(countries[i]) == EU
  }

  /** A country outside the EU and the UK that has no EU adequacy decision. */
  predicate NeedsTransferSafeguard(country: string) {
    GetRegion(country) != EU && GetRegion(country) != UK && !CheckEuAdequacy(country).hasAdequacy
  }

  function TransferCondition(country: string): string {
    "SCCs required for EU \U{2192} " + country + " data transfer"
  }

  function AdequacyRisk(country: string): string {
    "GDPR adequacy may change - monitor " + country
  }

  function RequirementText(l: LocalizationRequirement): string {
    l.requirement
  }

  function StrictRisk(l: LocalizationRequirement): string {
    l.country + " has strict localization - data copies required"
  }

  predicate IsSevere(c: Conflict) {
    c.riskLevel in ["high", "medium"]
  }

  function Description(c: Conflict): string {
    c.description
  }

  /** The conditions of an analysis: EU transfer safeguards, then every localization requirement. */
  function TransactionConditions(countries: seq<string>): seq<string> {
    (if EuInvolved(countries) then MapSeq(Filter(countries, NeedsTransferSafeguard), TransferCondition) else [])
    + MapSeq(Localized(countries), RequirementText)
  }

  /** The risks of an analysis: EU adequacy, strict localization, then high and medium conflicts. */
  function TransactionRisks(countries: seq<string>, conflicts: seq<Conflict>): seq<string> {
    (if EuInvolved(countries) then MapSeq(Filter(countries, NeedsTransferSafeguard), AdequacyRisk) else [])
    + MapSeq(Filter(Localized(countries), IsStrict), StrictRisk)
    + MapSeq(Filter(conflicts, IsSevere), Description)
  }

  /** The loop over the countries when the EU is involved. */
  method EuTransferFindings(countries: seq<string>) returns (conditions: seq<string>, risks: seq<string>)
    ensures conditions == MapSeq(Filter(countries, NeedsTransferSafeguard), TransferCondition)
    ensures risks == MapSeq(Filter(countries, NeedsTransferSafeguard), AdequacyRisk)
  {
    conditions := [];
    risks := [];
    for i := 0 to |countries|
      invariant conditions == MapSeq(Filter(countries[..i], NeedsTransferSafeguard), TransferCondition)
      invariant risks == MapSeq(Filter(countries[..i], NeedsTransferSafeguard), AdequacyRisk)
    {
      var country := countries[i];
      MapFilterSnoc(countries, i, NeedsTransferSafeguard, TransferCondition);
      MapFilterSnoc(countries, i, NeedsTransferSafeguard, AdequacyRisk);
      var region := GetRegion(country);
      if region != EU && region != UK {
        var adequacy := CheckEuAdequacy(country);
        if !adequacy.hasAdequacy {
          conditions := conditions + [TransferCondition(country)];
          risks := risks + [AdequacyRisk(country)];
        }
      }
    }
    assert countries[..|countries|] == countries;
  }

  /** The loop over the localization requirements. */
  method LocalizationFindings(localization: seq<LocalizationRequirement>)
    returns (conditions: seq<string>, risks: seq<string>)
    ensures conditions == MapSeq(localization, RequirementText)
    ensures risks == MapSeq(Filter(localization, IsStrict), StrictRisk)
  {
    conditions := [];
    risks := [];
    for i := 0 to |localization|
      invariant conditions == MapSeq(localization[..i], RequirementText)
      invariant risks == MapSeq(Filter(localization[..i], IsStrict), StrictRisk)
    {
      var loc := localization[i];
      MapSeqSnoc(localization, i, RequirementText);
      MapFilterSnoc(localization, i, IsStrict, StrictRisk);
      conditions := conditions + [loc.requirement];
      if loc.strict {
        risks := risks + [StrictRisk(loc)];
      }
    }
    assert localization[..|localization|] == localization;
  }

  /** The loop over the conflicts: the descriptions of the high and medium ones. */
  method ConflictRisks(conflicts: seq<Conflict>) returns (risks: seq<string>)
    ensures risks == MapSeq(Filter(conflicts, IsSevere), Description)
  {
    risks := [];
    for i := 0 to |conflicts|
      invariant risks == MapSeq(Filter(conflicts[..i], IsSevere), Description)
    {
      MapFilterSnoc(conflicts, i, IsSevere, Description);
      if conflicts[i].riskLevel in ["high", "medium"] {
        risks := risks + [conflicts[i].description];
      }
    }
    assert conflicts[..|conflicts|] == conflicts;
  }

  datatype Analysis = Analysis(
    transactionId: string, jurisdictions: seq<string>, regions: seq<Region>,
    applicableRegulations: seq<(Region, seq<string>)>, complianceStatus: string,
    localization: seq<LocalizationRequirement>, conflicts: seq<Conflict>,
    conditions: seq<string>, risks: seq<string>, guidance: Guidance)

  /**
   * `analyze_transaction`. `countries` is the listing of the transaction's
   * country set, in whatever order the set yields; `stamp` stands for the
   * clock-derived suffix of a generated transaction ID.
   */
  method AnalyzeTransaction(t: Transaction, countries: seq<string>, stamp: string) returns (r: Analysis)
    requires forall c :: c in countries <==> c in TransactionCountries(t)
    requires forall i, j :: 0 <= i < j < |countries| ==> countries[i] != countries[j]
    ensures r.transactionId == if t.id.Some? then t.id.value else "TXN-" + stamp
    ensures r.jurisdictions == countries
    ensures r.complianceStatus == "COMPLIANT"
    ensures r.regions == Dedup(ApplicableRegions(countries)) + [Global]
    ensures Keys(r.applicableRegulations) == r.regions
    ensures forall i :: 0 <= i < |r.applicableRegulations| ==>
      r.applicableRegulations[i].1 == Regs(r.applicableRegulations[i].0)
    ensures r.localization == Localized(countries)
    ensures r.conflicts == Filter(KnownConflicts, AppliesUnder(Matcher(MapSeq(r.regions, RegionName))))
    ensures r.conditions == TransactionConditions(countries)
    ensures r.risks == TransactionRisks(countries, r.conflicts)
    ensures r.guidance.summary == GuidanceSummary(|countries|, |r.regions|)
    ensures r.guidance.keyRequirements == TopFive(KeyRequirementLines(r.regions))
    ensures r.guidance.actionItems == TopFive(ActionLines(r.regions, r.conflicts))
  {
    var regulations := GetApplicableRegulations(countries);
    var regions := Keys(regulations);
    var localization := CheckDataLocalization(countries);
    var conflicts := GetJurisdictionConflicts(MapSeq(regions, RegionName));

    var conditions, risks := ConditionsAndRisks(countries, regions, localization, conflicts);
    var guidance := GenerateGuidance(countries, regulations, conflicts);
    var transactionId := if t.id.Some? then t.id.value else "TXN-" + stamp;
    r := Analysis(transactionId, countries, regions, regulations, "COMPLIANT", localization, conflicts,
                  conditions, risks, guidance);
  }

  /**
   * The conditions and risks of `analyze_transaction`: EU transfer findings
   * when the EU is among the regions, then those of localization and of the
   * conflicts.
   */
  method ConditionsAndRisks(countries: seq<string>, regions: seq<Region>,
                            localization: seq<LocalizationRequirement>, conflicts: seq<Conflict>)
    returns (conditions: seq<string>, risks: seq<string>)
    requires regions == Dedup(ApplicableRegions(countries)) + [Global]
    requires localization == Localized(countries)
    ensures conditions == TransactionConditions(countries)
    ensures risks == TransactionRisks(countries, conflicts)
  {
    conditions, risks := [], [];
    EuInvolvedIff(countries);
    if EU in regions {
      conditions, risks := EuTransferFindings(countries);
    }
    var locConditions, locRisks := LocalizationFindings(localization);
    conditions := conditions + locConditions;
    risks := risks + locRisks;
    var conflictRisks := ConflictRisks(conflicts);
    risks := risks + conflictRisks;
  }

  /** The analysis involves the EU exactly when the EU is among its regions. */
  lemma EuInvolvedIff(countries: seq<string>)
    ensures EuInvolved(countries) <==> EU in Dedup(ApplicableRegions(countries)) + [Global]
  {
    ApplicableKeys(countries, Dedup(ApplicableRegions(countries)) + [Global]);
  }

  /** Every strict localization rule of a country in the transaction yields both a condition and a risk. */
  lemma StrictLocalizationFlagged(countries: seq<string>, conflicts: seq<Conflict>, c: string)
    requires c in countries && HasLocalization(c) && RequirementFor(c).strict
    ensures StoredLocally(c) in TransactionConditions(countries)
    ensures StrictRisk(RequirementFor(c)) in TransactionRisks(countries, conflicts)
  {
    var locs := Localized(countries);
    LocalizedMembers(countries, c);
    var l :| l in locs && l.country == c;
    MapSeqMember(locs, RequirementText, l);
    FilterMember(locs, IsStrict, l);
    MapSeqMember(Filter(locs, IsStrict), StrictRisk, l);
  }

  /** With the EU involved, every country outside the EU and the UK without adequacy needs safeguards. */
  lemma TransferSafeguardsListed(countries: seq<string>, conflicts: seq<Conflict>, c: string)
    requires EuInvolved(countries) && c in countries && NeedsTransferSafeguard(c)
    ensures TransferCondition(c) in TransactionConditions(countries)
    ensures AdequacyRisk(c) in TransactionRisks(countries, conflicts)
  {
    FilterMember(countries, NeedsTransferSafeguard, c);
    MapSeqMember(Filter(countries, NeedsTransferSafeguard), TransferCondition, c);
    MapSeqMember(Filter(countries, NeedsTransferSafeguard), AdequacyRisk, c);
  }

  /** A country of the EU. */
  predicate InEu(country: string) {
    GetRegion(country) == EU
  }

  /** A transaction purely inside the EU needs no transfer safeguards. */
  lemma {:induction false} NoSafeguardsInsideEu(countries: seq<string>)
    requires forall i :: 0 <= i < |countries| ==> InEu(countries[i])
    ensures Filter(countries, NeedsTransferSafeguard) == []
  {
    if countries != [] {
      assert InEu(countries[0]);
      EuNeedsNoSafeguard(countries[0]);
      assert forall i :: 0 <= i < |countries[1..]| ==> countries[1..][i] == countries[i + 1];
      NoSafeguardsInsideEu(countries[1..]);
    }
  }

  lemma EuNeedsNoSafeguard(c: string)
    requires InEu(c)
    ensures !NeedsTransferSafeguard(c)
  {
  }
}
