/**
 * The ecosystem compliance tracker: certificates of member banks, merchants
 * and vendors, bucketed by the days left before they expire, a five-factor
 * risk score per entity, reminder urgency and its notification channels,
 * status updates and the daily check.
 *
 * The certification table (a dict from entity ID to its record, in insertion
 * order) is a parameter, a sequence of (ID, record) pairs. Dates are day
 * numbers and `today` is a parameter, so days remaining is a difference.
 */
module EcosystemTracker {
  import opened Common
  import opened Sorting

  datatype Cert = Cert(certType: string, level: Option<string>, expiry: int, status: Option<string>)

  datatype Entity = Entity(
    certifications: seq<Cert>,
    contactEmail: Option<string>,
    relationshipManager: Option<string>,
    sponsoringBank: Option<string>)

  type Table = seq<(string, Entity)>

  function DaysRemaining(c: Cert, today: int): int {
    c.expiry - today
  }

  // ---------------------------------------------------------------------
  // Certificate status (get_entity_certifications)

  datatype CertStatus = Expired | Expiring | Valid {
    function Name(): string {
      match this
      case Expired => "expired"
      case Expiring => "expiring"
      case Valid => "valid"
    }
  }

  /** Past expiry is expired, thirty days or fewer is expiring, else valid. */
  function StatusFor(days: int): (s: CertStatus)
    ensures s == Expired <==> days < 0
    ensures s == Expiring <==> 0 <= days <= 30
    ensures s == Valid <==> days > 30
  {
    if days < 0 then Expired else if days <= 30 then Expiring else Valid
  }

  /** A certificate as listed: its stored status replaced by the computed one. */
  datatype CertView = CertView(
    certType: string, level: Option<string>, expiry: int, daysRemaining: int, status: CertStatus)

  function View(c: Cert, today: int): CertView {
    CertView(c.certType, c.level, c.expiry, DaysRemaining(c, today), StatusFor(DaysRemaining(c, today)))
  }

  datatype EntityView = EntityView(
    entityId: string,
    certifications: seq<CertView>,
    contactEmail: Option<string>,
    relationshipManager: Option<string>,
    sponsoringBank: Option<string>)

  /** `get_entity_certifications`: nothing for an unknown entity, else every certificate with its days and status. */
  method GetEntityCertifications(table: Table, entityId: string, today: int) returns (r: Option<EntityView>)
    ensures r.None? <==> Get(table, entityId).None?
    ensures r.Some? ==>
      var e := Get(table, entityId).value;
      && r.value.entityId == entityId
      && |r.value.certifications| == |e.certifications|
      && (forall i :: 0 <= i < |e.certifications| ==> r.value.certifications[i] == View(e.certifications[i], today))
      && r.value.contactEmail == e.contactEmail
      && r.value.relationshipManager == e.relationshipManager
      && r.value.sponsoringBank == e.sponsoringBank
  {
    var found := Get(table, entityId);
    if found.None? {
      return None;
    }
    var e := found.value;
    var views: seq<CertView> := [];
    for i := 0 to |e.certifications|
      invariant |views| == i
      invariant forall k :: 0 <= k < i ==> views[k] == View(e.certifications[k], today)
    {
      var c := e.certifications[i];
      var days := c.expiry - today;
      var status := if days < 0 then Expired else if days <= 30 then Expiring else Valid;
      views := views + [CertView(c.certType, c.level, c.expiry, days, status)];
    }
    r := Some(EntityView(entityId, views, e.contactEmail, e.relationshipManager, e.sponsoringBank));
  }

  // ---------------------------------------------------------------------
  // Entity type and the first PCI-DSS certificate

  /** `_get_entity_type`: the ID prefixes are exclusive, so each type names exactly one prefix. */
  function EntityType(id: string): (r: string)
    ensures r == "member_bank" <==> StartsWith(id, "BNK")
    ensures r == "merchant" <==> StartsWith(id, "MID")
    ensures r == "vendor" <==> StartsWith(id, "VND")
    ensures r == "unknown" <==> !StartsWith(id, "BNK") && !StartsWith(id, "MID") && !StartsWith(id, "VND")
  {
    if StartsWith(id, "BNK") then "member_bank"
    else if StartsWith(id, "MID") then "merchant"
    else if StartsWith(id, "VND") then "vendor"
    else "unknown"
  }

  predicate IsPci(c: Cert) {
    c.certType == "PCI-DSS"
  }

  /** The first PCI-DSS certificate, where the loops of the source `break`. */
  function FirstPci(cs: seq<Cert>): (r: Option<Cert>)
    ensures r.None? <==> forall i :: 0 <= i < |cs| ==> !IsPci(cs[i])
    ensures r.Some? ==> exists i :: 0 <= i < |cs| && cs[i] == r.value && IsPci(cs[i])
                          && forall k :: 0 <= k < i ==> !IsPci(cs[k])
  {
    if cs == [] then None
    else if IsPci(cs[0]) then Some(cs[0])
    else
      var r := FirstPci(cs[1..]);
      assert r.Some? ==> exists i :: 0 < i < |cs| && cs[i] == r.value && IsPci(cs[i])
                          && forall k :: 0 <= k < i ==> !IsPci(cs[k]) by {
        if r.Some? {
          var j :| 0 <= j < |cs[1..]| && cs[1..][j] == r.value && IsPci(cs[1..][j])
                   && forall k :: 0 <= k < j ==> !IsPci(cs[1..][k]);
          assert forall k :: 0 <= k < j + 1 ==> !IsPci(cs[k]) by {
            forall k | 0 <= k < j + 1 ensures !IsPci(cs[k]) {
              if k > 0 { assert cs[k] == cs[1..][k - 1]; }
            }
          }
        }
      }
      r
  }

  /** The scan for the first PCI-DSS certificate. */
  method FindPci(cs: seq<Cert>) returns (r: Option<Cert>)
    ensures r == FirstPci(cs)
  {
    r := None;
    var i := 0;
    while i < |cs|
      invariant i <= |cs|
      invariant FirstPci(cs) == FirstPci(cs[i..])
    {
      if cs[i].certType == "PCI-DSS" {
        r := Some(cs[i]);
        return;
      }
      assert cs[i..][1..] == cs[i + 1..];
      i := i + 1;
    }
  }

  // ---------------------------------------------------------------------
  // Expiring certificates (check_expiring_certifications)

  datatype Level = Critical | High | Medium | Low {
    function Name(): string {
      match this
      case Critical => "critical"
      case High => "high"
      case Medium => "medium"
      case Low => "low"
    }

    function Rank(): nat {
      match this
      case Low => 0
      case Medium => 1
      case High => 2
      case Critical => 3
    }
  }

  /** Risk of an expiring certificate: critical within 7 days, high 14, medium 30. */
  function ExpiryRisk(days: int): Level {
    if days <= 7 then Critical else if days <= 14 then High else if days <= 30 then Medium else Low
  }

  /** Fewer days left never means a lower risk. */
  lemma ExpiryRiskMonotone(d1: int, d2: int)
    requires d1 <= d2
    ensures ExpiryRisk(d1).Rank() >= ExpiryRisk(d2).Rank()
  {
  }

  datatype ExpiringEntry = ExpiringEntry(
    entityId: string,
    entityType: string,
    certType: string,
    certLevel: Option<string>,
    expiryDate: int,
    daysRemaining: int,
    riskLevel: Level,
    contactEmail: Option<string>,
    relationshipManager: Option<string>)

  predicate Qualifies(c: Cert, today: int, days: int) {
    0 <= DaysRemaining(c, today) <= days
  }

  function EntryOf(id: string, e: Entity, c: Cert, today: int): ExpiringEntry {
    var d := DaysRemaining(c, today);
    ExpiringEntry(id, EntityType(id), c.certType, c.level, c.expiry, d, ExpiryRisk(d),
                  e.contactEmail, e.relationshipManager)
  }

  /** The entries one entity contributes, in the order of its certificates. */
  function CertEntries(id: string, e: Entity, cs: seq<Cert>, today: int, days: int): seq<ExpiringEntry> {
    if cs == [] then []
    else
      var c := cs[|cs| - 1];
      CertEntries(id, e, cs[..|cs| - 1], today, days) + (if Qualifies(c, today, days) then [EntryOf(id, e, c, today)] else [])
  }

  /** The entries before sorting: entity by entity, certificate by certificate. */
  function Candidates(table: Table, today: int, days: int): seq<ExpiringEntry> {
    if table == [] then []
    else
      var last := table[|table| - 1];
      Candidates(table[..|table| - 1], today, days) + CertEntries(last.0, last.1, last.1.certifications, today, days)
  }

  function DaysKey(x: ExpiringEntry): int {
    x.daysRemaining
  }

  lemma {:induction false} CertEntriesMembers(id: string, e: Entity, cs: seq<Cert>, today: int, days: int)
    ensures forall x :: x in CertEntries(id, e, cs, today, days) <==>
      exists j :: 0 <= j < |cs| && Qualifies(cs[j], today, days) && x == EntryOf(id, e, cs[j], today)
  {
    if cs != [] {
      var init := cs[..|cs| - 1];
      CertEntriesMembers(id, e, init, today, days);
      forall x ensures x in CertEntries(id, e, cs, today, days) <==>
        exists j :: 0 <= j < |cs| && Qualifies(cs[j], today, days) && x == EntryOf(id, e, cs[j], today)
      {
        if x in CertEntries(id, e, init, today, days) {
          var j :| 0 <= j < |init| && Qualifies(init[j], today, days) && x == EntryOf(id, e, init[j], today);
          assert cs[j] == init[j];
        }
        if exists j :: 0 <= j < |cs| && Qualifies(cs[j], today, days) && x == EntryOf(id, e, cs[j], today) {
          var j :| 0 <= j < |cs| && Qualifies(cs[j], today, days) && x == EntryOf(id, e, cs[j], today);
          if j < |init| {
            assert init[j] == cs[j];
          }
        }
      }
    }
  }

  /** The entries of one table row. */
  function RowEntries(row: (string, Entity), today: int, days: int): seq<ExpiringEntry> {
    CertEntries(row.0, row.1, row.1.certifications, today, days)
  }

  /** Some row of the table lists the entry. */
  ghost predicate SomeRowLists(table: Table, today: int, days: int, x: ExpiringEntry) {
    exists k :: 0 <= k < |table| && x in RowEntries(table[k], today, days)
  }

  /** A row appended to the table: an entry is listed by the longer table when by the shorter or the new row. */
  lemma SomeRowListsSnoc(table: Table, today: int, days: int, x: ExpiringEntry)
    requires table != []
    ensures SomeRowLists(table, today, days, x) <==>
      SomeRowLists(table[..|table| - 1], today, days, x) || x in RowEntries(table[|table| - 1], today, days)
  {
    var init := table[..|table| - 1];
    if SomeRowLists(init, today, days, x) {
      var k :| 0 <= k < |init| && x in RowEntries(init[k], today, days);
      assert table[k] == init[k];
    }
    if SomeRowLists(table, today, days, x) {
      var k :| 0 <= k < |table| && x in RowEntries(table[k], today, days);
      if k < |init| {
        assert init[k] == table[k];
      }
    }
  }

  /**
   * An entry is listed exactly for each certificate of a known entity whose
   * days remaining lie between 0 and the horizon.
   */
  lemma {:induction false} CandidatesMembers(table: Table, today: int, days: int)
    ensures forall x :: x in Candidates(table, today, days) <==> SomeRowLists(table, today, days, x)
  {
    if table != [] {
      CandidatesMembers(table[..|table| - 1], today, days);
      forall x ensures x in Candidates(table, today, days) <==> SomeRowLists(table, today, days, x) {
        SomeRowListsSnoc(table, today, days, x);
      }
    }
  }

  /** Every entry lies within the horizon and carries the risk of its days remaining. */
  lemma {:induction false} CandidatesWithinHorizon(table: Table, today: int, days: int)
    ensures forall x :: x in Candidates(table, today, days) ==>
      0 <= x.daysRemaining <= days && x.riskLevel == ExpiryRisk(x.daysRemaining)
  {
    CandidatesMembers(table, today, days);
    forall x | x in Candidates(table, today, days)
      ensures 0 <= x.daysRemaining <= days && x.riskLevel == ExpiryRisk(x.daysRemaining)
    {
      var k :| 0 <= k < |table| && x in RowEntries(table[k], today, days);
      CertEntriesMembers(table[k].0, table[k].1, table[k].1.certifications, today, days);
    }
  }

  /**
   * `check_expiring_certifications`: the qualifying certificates, most urgent
   * first, and in table order among those with the same days remaining.
   */
  method CheckExpiring(table: Table, today: int, days: int) returns (r: seq<ExpiringEntry>)
    ensures multiset(r) == multiset(Candidates(table, today, days))
    ensures forall i, j :: 0 <= i < j < |r| ==> r[i].daysRemaining <= r[j].daysRemaining
    ensures forall d :: WithKey(r, DaysKey, d) == WithKey(Candidates(table, today, days), DaysKey, d)
    ensures forall x :: x in r ==> 0 <= x.daysRemaining <= days && x.riskLevel == ExpiryRisk(x.daysRemaining)
  {
    var expiring: seq<ExpiringEntry> := [];
    for i := 0 to |table|
      invariant expiring == Candidates(table[..i], today, days)
    {
      var (id, e) := table[i];
      var cs := e.certifications;
      for j := 0 to |cs|
        invariant expiring == Candidates(table[..i], today, days) + CertEntries(id, e, cs[..j], today, days)
      {
        var c := cs[j];
        var d := c.expiry - today;
        if 0 <= d <= days {
          var risk := if d <= 7 then Critical else if d <= 14 then High else if d <= 30 then Medium else Low;
          expiring := expiring + [ExpiringEntry(id, EntityType(id), c.certType, c.level, c.expiry, d, risk,
                                                e.contactEmail, e.relationshipManager)];
        }
        assert cs[..j + 1][..j] == cs[..j];
      }
      assert cs[..|cs|] == cs;
      assert table[..i + 1][..i] == table[..i];
    }
    assert table[..|table|] == table;
    SortBySortedPermutation(expiring, DaysKey);
    forall d ensures WithKey(SortBy(expiring, DaysKey), DaysKey, d) == WithKey(expiring, DaysKey, d) {
      SortByStable(expiring, DaysKey, d);
    }
    CandidatesWithinHorizon(table, today, days);
    r := SortBy(expiring, DaysKey);
    assert forall x :: x in r ==> x in multiset(expiring);
  }

  /** Within the default thirty-day horizon no expiring certificate is rated low. */
  lemma ThirtyDayHorizonNeverLow(table: Table, today: int, x: ExpiringEntry)
    requires x in Candidates(table, today, 30)
    ensures x.riskLevel != Low
  {
    CandidatesWithinHorizon(table, today, 30);
  }

  // ---------------------------------------------------------------------
  // Entity risk (calculate_entity_risk)

  /** The earliest days remaining over the certificates; None stands for the source's infinity. */
  function MinDays(cs: seq<Cert>, today: int): (m: Option<int>)
    ensures m.None? <==> cs == []
    ensures m.Some? ==> forall i :: 0 <= i < |cs| ==> m.value <= DaysRemaining(cs[i], today)
    ensures m.Some? ==> exists i :: 0 <= i < |cs| && m.value == DaysRemaining(cs[i], today)
  {
    if cs == [] then None
    else
      var init := cs[..|cs| - 1];
      var d := DaysRemaining(cs[|cs| - 1], today);
      match MinDays(init, today)
      case None => Some(d)
      case Some(m) =>
        assert forall i :: 0 <= i < |init| ==> init[i] == cs[i];
        Some(if m <= d then m else d)
  }

  const RiskWeights: seq<(string, nat)> :=
    [("certification", 30), ("violations", 30), ("anomalies", 20), ("jurisdiction", 10), ("relationship", 10)]

  function Weight(name: string): nat {
    if name == "certification" then 30
    else if name == "violations" then 30
    else if name == "anomalies" then 20
    else if name == "jurisdiction" then 10
    else if name == "relationship" then 10
    else 0
  }

  function CertificationFactor(m: Option<int>): nat {
    match m
    case None => 0
    case Some(d) => if d < 0 then 30 else if d <= 30 then 25 else if d <= 60 then 15 else if d <= 90 then 5 else 0
  }

  function ViolationFactor(v: int): nat {
    if v == 0 then 0 else if v <= 2 then 5 else if v <= 4 then 15 else 30
  }

  function AnomalyFactor(b: bool): nat {
    if b then 20 else 0
  }

  /**
   * The relationship factor of a sponsored entity, from the first PCI-DSS
   * certificate of its sponsoring bank. None when the bank is on file but
   * holds no PCI-DSS certificate: the source then never sets the factor.
   */
  function RelationshipFactor(table: Table, e: Entity, today: int): Option<nat> {
    if !Truthy(e.sponsoringBank) then Some(0)
    else
      match Get(table, e.sponsoringBank.value)
      case None => Some(0)
      case Some(bank) =>
        match FirstPci(bank.certifications)
        case None => None
        case Some(c) =>
          var d := DaysRemaining(c, today);
          Some(if d < 0 then 10 else if d <= 30 then 5 else 0)
  }

  /** The factors dict, keys in the order the source sets them. */
  function Factors(table: Table, e: Entity, violationCount: int, hasAnomalies: bool, today: int): seq<(string, nat)> {
    [("certification", CertificationFactor(MinDays(e.certifications, today))),
     ("violations", ViolationFactor(violationCount)),
     ("anomalies", AnomalyFactor(hasAnomalies)),
     ("jurisdiction", 0)]
    + match RelationshipFactor(table, e, today)
      case None => []
      case Some(f) => [("relationship", f)]
  }

  function FactorSum(fs: seq<(string, nat)>): nat {
    if fs == [] then 0 else fs[0].1 + FactorSum(fs[1..])
  }

  /** The number of concerns the source reports for these factors. */
  function ConcernsRaised(table: Table, e: Entity, violationCount: int, hasAnomalies: bool, today: int): nat {
    (if CertificationFactor(MinDays(e.certifications, today)) >= 15 then 1 else 0)
    + (if violationCount > 2 then 1 else 0)
    + (if hasAnomalies then 1 else 0)
    + (if RelationshipFactor(table, e, today) == Some(10) then 1 else 0)
  }

  /** Critical from 76, high from 51, medium from 26, else low. */
  function ScoreLevel(score: int): Level {
    if score >= 76 then Critical else if score >= 51 then High else if score >= 26 then Medium else Low
  }

  /** A higher score never means a lower level. */
  lemma ScoreLevelMonotone(s1: int, s2: int)
    requires s1 <= s2
    ensures ScoreLevel(s1).Rank() <= ScoreLevel(s2).Rank()
  {
  }

  function ExpiredConcern(days: int): string {
    "Certification expired " + IntToString(days) + " days ago"
  }

  function ExpiresConcern(days: int): string {
    "Certification expires in " + IntToString(days) + " days"
  }

  function UnresolvedConcern(count: int): string {
    IntToString(count) + " unresolved violations"
  }

  function CriticalCountConcern(count: int): string {
    IntToString(count) + " critical violation count"
  }

  function BankConcern(bank: string): string {
    "Sponsoring bank " + bank + " non-compliant"
  }

  /** The concern the certification factor raises: an expiry past, or within sixty days. */
  function CertificationConcern(m: Option<int>): (r: seq<string>)
    ensures |r| == if CertificationFactor(m) >= 15 then 1 else 0
  {
    match m
    case None => []
    case Some(d) =>
      if d < 0 then [ExpiredConcern(-d)]
      else if d <= 60 then [ExpiresConcern(d)]
      else []
  }

  /** The concern a violation count raises: from three violations on. */
  function ViolationConcern(v: int): (r: seq<string>)
    ensures |r| == if v > 2 then 1 else 0
  {
    if v <= 2 then []
    else if v <= 4 then [UnresolvedConcern(v)]
    else [CriticalCountConcern(v)]
  }

  /**
   * The concerns of `calculate_entity_risk` in the order the steps raise
   * them: certification, violations, anomalies, sponsoring bank.
   */
  function Concerns(table: Table, e: Entity, violationCount: int, hasAnomalies: bool, today: int): (r: seq<string>)
    ensures |r| == ConcernsRaised(table, e, violationCount, hasAnomalies, today)
    ensures hasAnomalies ==> "Transaction anomalies detected" in r
  {
    var bank := if RelationshipFactor(table, e, today) == Some(10) then [BankConcern(e.sponsoringBank.value)] else [];
    var r := CertificationConcern(MinDays(e.certifications, today)) + ViolationConcern(violationCount)
      + (if hasAnomalies then ["Transaction anomalies detected"] else []) + bank;
    assert hasAnomalies ==> r[|r| - |bank| - 1] == "Transaction anomalies detected";
    r
  }

  /** Each factor stays within its weight; jurisdiction is always 0, so the sum is at most 90. */
  lemma FactorsBounded(table: Table, e: Entity, violationCount: int, hasAnomalies: bool, today: int)
    ensures var fs := Factors(table, e, violationCount, hasAnomalies, today);
      && (forall k :: 0 <= k < |fs| ==> fs[k].1 <= Weight(fs[k].0))
      && FactorSum(fs) <= 90
  {
    var fs := Factors(table, e, violationCount, hasAnomalies, today);
    assert FactorSum(fs) == fs[0].1 + FactorSum(fs[1..]);
    assert FactorSum(fs[1..]) == fs[1].1 + FactorSum(fs[2..]);
    assert FactorSum(fs[2..]) == fs[2].1 + FactorSum(fs[3..]);
    assert FactorSum(fs[3..]) == fs[3].1 + FactorSum(fs[4..]);
    if |fs| == 5 {
      assert FactorSum(fs[4..]) == fs[4].1 + FactorSum(fs[5..]);
    }
  }

  /**
   * Step five of `calculate_entity_risk`: the sponsoring bank's first PCI-DSS
   * certificate decides the relationship factor, and an expired one raises a concern.
   */
  method SponsorFactor(table: Table, e: Entity, today: int) returns (f: Option<nat>, concern: seq<string>)
    ensures f == RelationshipFactor(table, e, today)
    ensures concern == if f == Some(10) then [BankConcern(e.sponsoringBank.value)] else []
  {
    f := Some(0);
    concern := [];
    if Truthy(e.sponsoringBank) {
      var bank := Get(table, e.sponsoringBank.value);
      if bank.Some? {
        f := None;
        var pci := FindPci(bank.value.certifications);
        if pci.Some? {
          var bankDays := pci.value.expiry - today;
          if bankDays < 0 {
            f := Some(10);
            concern := [BankConcern(e.sponsoringBank.value)];
          } else if bankDays <= 30 {
            f := Some(5);
          } else {
            f := Some(0);
          }
        }
      }
    }
  }

  /** Step one of `calculate_entity_risk`: the earliest days remaining over the certificates. */
  method EarliestExpiry(cs: seq<Cert>, today: int) returns (minDays: Option<int>)
    ensures minDays == MinDays(cs, today)
  {
    minDays := None;
    for i := 0 to |cs|
      invariant minDays == MinDays(cs[..i], today)
    {
      var d := cs[i].expiry - today;
      minDays := if minDays.None? || d < minDays.value then Some(d) else minDays;
      assert cs[..i + 1][..i] == cs[..i];
    }
    assert cs[..|cs|] == cs;
  }

  datatype RiskAssessment = RiskAssessment(
    entityId: Option<string>,
    riskScore: nat,
    riskLevel: string,
    factors: seq<(string, nat)>,
    topConcerns: seq<string>)

  /**
   * `calculate_entity_risk`: an unknown entity scores 0 at level "unknown";
   * otherwise the score is the sum of the factors, each within its weight,
   * and there is always at least one concern listed.
   */
  method CalculateEntityRisk(table: Table, entityId: string, violationCount: int, hasAnomalies: bool, today: int)
    returns (r: RiskAssessment)
    ensures Get(table, entityId).None? ==>
      r == RiskAssessment(None, 0, "unknown", [], ["Entity not found in system"])
    ensures Get(table, entityId).Some? ==>
      var e := Get(table, entityId).value;
      var raised := ConcernsRaised(table, e, violationCount, hasAnomalies, today);
      && r.entityId == Some(entityId)
      && r.factors == Factors(table, e, violationCount, hasAnomalies, today)
      && r.riskScore == FactorSum(r.factors)
      && r.riskLevel == ScoreLevel(r.riskScore).Name()
      && |r.topConcerns| == (if raised == 0 then 1 else raised)
      && (raised == 0 ==> r.topConcerns == ["No immediate concerns"])
      && (raised > 0 ==> r.topConcerns == Concerns(table, e, violationCount, hasAnomalies, today))
    ensures forall k :: 0 <= k < |r.factors| ==> r.factors[k].1 <= Weight(r.factors[k].0)
    ensures r.riskScore <= 90
  {
    var found := Get(table, entityId);
    if found.None? {
      return RiskAssessment(None, 0, "unknown", [], ["Entity not found in system"]);
    }
    var e := found.value;
    var minDays := EarliestExpiry(e.certifications, today);
    var certification := CertificationFactor(minDays);
    var concerns := CertificationConcern(minDays);
    var violations := ViolationFactor(violationCount);
    concerns := concerns + ViolationConcern(violationCount);

    var anomalies: nat := 0;
    if hasAnomalies {
      anomalies := 20;
      concerns := concerns + ["Transaction anomalies detected"];
    }

    var relationship, bankConcern := SponsorFactor(table, e, today);
    concerns := concerns + bankConcern;

    assert concerns == Concerns(table, e, violationCount, hasAnomalies, today);
    FactorsBounded(table, e, violationCount, hasAnomalies, today);

    var factors := [("certification", certification), ("violations", violations),
                    ("anomalies", anomalies), ("jurisdiction", 0)]
                   + (if relationship.Some? then [("relationship", relationship.value)] else []);
    var total := FactorSum(factors);
    r := RiskAssessment(Some(entityId), total, ScoreLevel(total).Name(), factors,
                        if concerns != [] then concerns else ["No immediate concerns"]);
  }

  // ---------------------------------------------------------------------
  // Reminders (generate_reminder, _get_notification_channels)

  /** Standard beyond 60 days, elevated beyond 30, urgent beyond 14, else critical. */
  function ReminderUrgency(days: int): string {
    if days > 60 then "standard" else if days > 30 then "elevated" else if days > 14 then "urgent" else "critical"
  }

  /** `_get_notification_channels`: email and in-app always, sms when urgent or critical, phone when critical. */
  function Channels(urgency: string): (r: seq<string>)
    ensures |r| >= 2 && r[0] == "email" && r[1] == "in_app"
    ensures "sms" in r <==> urgency == "urgent" || urgency == "critical"
    ensures "phone" in r <==> urgency == "critical"
    ensures |r| == 2 + (if urgency == "urgent" || urgency == "critical" then 1 else 0)
                     + (if urgency == "critical" then 1 else 0)
  {
    var channels := ["email", "in_app"];
    var withSms := if urgency == "urgent" || urgency == "critical" then channels + ["sms"] else channels;
    if urgency == "critical" then withSms + ["phone"] else withSms
  }

  /** The closer the expiry, the more channels a reminder goes out on. */
  lemma ReminderChannelsMonotone(d1: int, d2: int)
    requires d1 <= d2
    ensures |Channels(ReminderUrgency(d2))| <= |Channels(ReminderUrgency(d1))|
  {
  }

  /** Fourteen days or fewer reach the phone; fifteen to thirty reach sms but not the phone. */
  lemma ReminderChannelsByDays(days: int)
    ensures days <= 14 ==> "phone" in Channels(ReminderUrgency(days))
    ensures 14 < days <= 30 ==> "sms" in Channels(ReminderUrgency(days)) && "phone" !in Channels(ReminderUrgency(days))
    ensures days > 30 ==> Channels(ReminderUrgency(days)) == ["email", "in_app"]
  {
  }

  datatype Reminder = Reminder(
    entityId: string, recipient: string, subject: string, urgency: string, channels: seq<string>)

  /** `generate_reminder`, with its subject line but without its body text and clock-derived fields. */
  function GenerateReminder(table: Table, entityId: string, days: int): (r: Result<Reminder>)
    ensures r.Err? <==> Get(table, entityId).None?
    ensures r.Err? ==> r.error == "Entity not found"
    ensures r.Ok? ==>
      var e := Get(table, entityId).value;
      && r.value.entityId == entityId
      && r.value.urgency == ReminderUrgency(days)
      && r.value.channels == Channels(ReminderUrgency(days))
      && r.value.recipient == (if e.contactEmail.Some? then e.contactEmail.value else "unknown@example.com")
      && r.value.subject == "[" + Upper(ReminderUrgency(days)) + "] PCI Certification Expiring - Action Required"
  {
    match Get(table, entityId)
    case None => Err("Entity not found")
    case Some(e) =>
      var urgency := ReminderUrgency(days);
      var recipient := if e.contactEmail.Some? then e.contactEmail.value else "unknown@example.com";
      Ok(Reminder(entityId, recipient, "[" + Upper(urgency) + "] PCI Certification Expiring - Action Required",
                  urgency, Channels(urgency)))
  }

  // ---------------------------------------------------------------------
  // Status updates (update_compliance_status)

  const ValidStatuses := ["compliant", "at_risk", "non_compliant", "valid", "expiring", "expired"]

  const InvalidStatusMessage :=
    "Invalid status. Must be one of: ['compliant', 'at_risk', 'non_compliant', 'valid', 'expiring', 'expired']"

  datatype StatusChange = StatusChange(entityId: string, previousStatus: string, newStatus: string)

  /** The stored status of the first PCI-DSS certificate, "unknown" when there is none. */
  function PreviousStatus(e: Entity): string {
    match FirstPci(e.certifications)
    case None => "unknown"
    case Some(c) => if c.status.Some? then c.status.value else "unknown"
  }

  /**
   * `update_compliance_status`: an unknown entity and a status outside the
   * list are refused; otherwise the change is reported, nothing persisted.
   */
  method UpdateComplianceStatus(table: Table, entityId: string, newStatus: string) returns (r: Result<StatusChange>)
    ensures Get(table, entityId).None? ==> r == Err("Entity not found")
    ensures Get(table, entityId).Some? && newStatus !in ValidStatuses ==> r == Err(InvalidStatusMessage)
    ensures Get(table, entityId).Some? && newStatus in ValidStatuses ==>
      r == Ok(StatusChange(entityId, PreviousStatus(Get(table, entityId).value), newStatus))
  {
    var found := Get(table, entityId);
    if found.None? {
      return Err("Entity not found");
    }
    var previous := "unknown";
    var pci := FindPci(found.value.certifications);
    if pci.Some? {
      previous := if pci.value.status.Some? then pci.value.status.value else "unknown";
    }
    if newStatus !in ValidStatuses {
      return Err(InvalidStatusMessage);
    }
    r := Ok(StatusChange(entityId, previous, newStatus));
  }

  /** Every status the tracker computes for a certificate is accepted as an update. */
  lemma ComputedStatusesAccepted(s: CertStatus)
    ensures s.Name() in ValidStatuses
  {
  }

  // ---------------------------------------------------------------------
  // The daily check (execute_daily_check)

  const NotificationThresholds: seq<int> := [90, 60, 30, 14, 7]

  /** Days remaining on an entity's first PCI-DSS certificate, the only one the check inspects. */
  function PciDays(e: Entity, today: int): Option<int> {
    match FirstPci(e.certifications)
    case None => None
    case Some(c) => Some(DaysRemaining(c, today))
  }

  function NonCompliant(today: int): ((string, Entity)) -> bool {
    (entry: (string, Entity)) => PciDays(entry.1, today).Some? && PciDays(entry.1, today).value < 0
  }

  function AtRisk(today: int): ((string, Entity)) -> bool {
    (entry: (string, Entity)) => PciDays(entry.1, today).Some? && 0 <= PciDays(entry.1, today).value <= 30
  }

  function NeedsNotification(today: int): ((string, Entity)) -> bool {
    (entry: (string, Entity)) => PciDays(entry.1, today).Some? && PciDays(entry.1, today).value in NotificationThresholds
  }

  datatype DailyCheck = DailyCheck(
    entitiesChecked: nat, atRiskFound: nat, nonCompliantFound: nat, notificationsNeeded: nat, status: string)

  /**
   * `execute_daily_check`: every entity is checked once; it is non-compliant
   * or at risk (never both) by its first PCI-DSS certificate, and needs a
   * notification when that certificate is a threshold number of days away.
   */
  method ExecuteDailyCheck(table: Table, today: int) returns (r: DailyCheck)
    ensures r.entitiesChecked == |table| && r.status == "completed"
    ensures r.nonCompliantFound == Count(table, NonCompliant(today))
    ensures r.atRiskFound == Count(table, AtRisk(today))
    ensures r.notificationsNeeded == Count(table, NeedsNotification(today))
    ensures r.nonCompliantFound + r.atRiskFound <= r.entitiesChecked
  {
    var checked := 0;
    var atRisk := 0;
    var nonCompliant := 0;
    var notifications := 0;
    for i := 0 to |table|
      invariant checked == i
      invariant nonCompliant == Count(table[..i], NonCompliant(today))
      invariant atRisk == Count(table[..i], AtRisk(today))
      invariant notifications == Count(table[..i], NeedsNotification(today))
      invariant nonCompliant + atRisk <= checked
    {
      checked := checked + 1;
      var pci := FindPci(table[i].1.certifications);
      if pci.Some? {
        var days := pci.value.expiry - today;
        if days < 0 {
          nonCompliant := nonCompliant + 1;
        } else if days <= 30 {
          atRisk := atRisk + 1;
        }
        if days in NotificationThresholds {
          notifications := notifications + 1;
        }
      }
      CountStep(table, i, NonCompliant(today));
      CountStep(table, i, AtRisk(today));
      CountStep(table, i, NeedsNotification(today));
    }
    assert table[..|table|] == table;
    r := DailyCheck(checked, atRisk, nonCompliant, notifications, "completed");
  }

  /**
   * The daily check agrees with the listed certificate status: an entity is
   * non-compliant exactly when its first PCI-DSS certificate shows as
   * expired, and at risk exactly when it shows as expiring.
   */
  lemma DailyCheckAgreesWithStatus(entry: (string, Entity), today: int)
    ensures NonCompliant(today)(entry) <==>
      FirstPci(entry.1.certifications).Some? && View(FirstPci(entry.1.certifications).value, today).status == Expired
    ensures AtRisk(today)(entry) <==>
      FirstPci(entry.1.certifications).Some? && View(FirstPci(entry.1.certifications).value, today).status == Expiring
  {
  }
}
