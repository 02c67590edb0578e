/**
 * The regulatory intelligence monitor: a table of monitored sources and of
 * tracked regulations, a cache of content hashes that detects new and changed
 * regulations, filtered listings, the urgency of a regulation's effective
 * date and a scan that counts new, updated and unchanged regulations.
 *
 * The monitor is an object whose hash dictionary the source mutates, so it is
 * a class; its tables and the md5 digest are fixed when it is built. The
 * clock is a parameter in seconds, and an effective date is given both as its
 * ISO text (the part of the hashed content) and as its day number.
 */
module RegulatoryMonitor {
  import opened Common

  datatype Source = Source(id: string, name: string, url: string, region: string, access: string)

  datatype Regulation = Regulation(
    id: string, title: string, sourceId: string, region: string, summary: string,
    effectiveDate: string, effectiveDay: int, status: string, impact: string)

  // ---------------------------------------------------------------------
  // The hash cache

  /** The text `_initialize_hashes` digests: title, summary and effective date, concatenated. */
  function Content(reg: Regulation): string {
    reg.title + reg.summary + reg.effectiveDate
  }

  /** The cache after `_initialize_hashes`: each ID mapped to the digest of its last regulation. */
  function InitialHashes(md5: string -> string, regs: seq<Regulation>): (h: map<string, string>)
    ensures forall id :: id in h <==> exists i :: 0 <= i < |regs| && regs[i].id == id
  {
    if regs == [] then map[]
    else
      var last := regs[|regs| - 1];
      var rest := InitialHashes(md5, regs[..|regs| - 1]);
      assert forall i :: 0 <= i < |regs| - 1 ==> regs[..|regs| - 1][i] == regs[i];
      rest[last.id := md5(Content(last))]
  }

  /** With distinct IDs, each regulation's ID holds the digest of its own content. */
  lemma {:induction false} InitialHashesOfDistinct(md5: string -> string, regs: seq<Regulation>)
    requires forall i, j :: 0 <= i < j < |regs| ==> regs[i].id != regs[j].id
    ensures forall i :: 0 <= i < |regs| ==> InitialHashes(md5, regs)[regs[i].id] == md5(Content(regs[i]))
  {
    if regs != [] {
      var init, last := regs[..|regs| - 1], regs[|regs| - 1];
      InitialHashesOfDistinct(md5, init);
      var h := InitialHashes(md5, init);
      assert InitialHashes(md5, regs) == h[last.id := md5(Content(last))];
      forall i | 0 <= i < |init| ensures init[i] == regs[i] && regs[i].id != last.id && h[init[i].id] == md5(Content(init[i])) {
      }
    }
  }

  /**
   * One `detect_changes` call on a cache `h`: whether `newHash` is a change,
   * and the cache afterwards. An unknown ID is stored and reported as new;
   * a known one is compared and the cache left alone.
   */
  function Detect(h: map<string, string>, id: string, newHash: string): (r: (bool, map<string, string>))
    ensures id !in h ==> r.0 && r.1 == h[id := newHash]
    ensures id in h ==> (r.0 <==> h[id] != newHash) && r.1 == h
    ensures id in r.1 && r.1[id] == (if id in h then h[id] else newHash)
  {
    if id !in h then (true, h[id := newHash]) else (h[id] != newHash, h)
  }

  /** A second call with the same hash reports no change. */
  lemma DetectTwice(h: map<string, string>, id: string, newHash: string)
    requires id !in h
    ensures Detect(h, id, newHash).0
    ensures !Detect(Detect(h, id, newHash).1, id, newHash).0
  {
  }

  // ---------------------------------------------------------------------
  // Filters and lookups

  /** An optional filter is applied only when given and not empty. */
  predicate Given(filter: Option<string>) {
    filter.Some? && filter.value != ""
  }

  predicate RegionMatches(filter: Option<string>, reg: Regulation) {
    !Given(filter) || Lower(reg.region) == Lower(filter.value)
  }

  predicate StatusMatches(filter: Option<string>, reg: Regulation) {
    !Given(filter) || Lower(reg.status) == Lower(filter.value)
  }

  function RegionFilter(filter: Option<string>): Regulation -> bool {
    (reg: Regulation) => RegionMatches(filter, reg)
  }

  function StatusFilter(filter: Option<string>): Regulation -> bool {
    (reg: Regulation) => StatusMatches(filter, reg)
  }

  function Matching(region: Option<string>, status: Option<string>): Regulation -> bool {
    (reg: Regulation) => RegionMatches(region, reg) && StatusMatches(status, reg)
  }

  /** Filtering by region and then by status is filtering by both at once. */
  lemma {:induction false} FilterBoth(s: seq<Regulation>, region: Option<string>, status: Option<string>)
    ensures Filter(Filter(s, RegionFilter(region)), StatusFilter(status)) == Filter(s, Matching(region, status))
  {
    if s != [] {
      FilterBoth(s[1..], region, status);
      var head := if RegionMatches(region, s[0]) then [s[0]] else [];
      FilterAppend(head, Filter(s[1..], RegionFilter(region)), StatusFilter(status));
      assert head == [] || head[1..] == [];
    }
  }

  predicate FromSource(sourceId: string, reg: Regulation) {
    reg.sourceId == sourceId
  }

  function OfSource(sourceId: string): Regulation -> bool {
    (reg: Regulation) => FromSource(sourceId, reg)
  }

  /** The index of the first regulation with the ID, or the length when there is none. */
  function FirstIndexWithId(regs: seq<Regulation>, id: string): (i: nat)
    ensures i <= |regs|
    ensures forall k :: 0 <= k < i ==> regs[k].id != id
    ensures i < |regs| ==> regs[i].id == id
  {
    if regs == [] then 0
    else if regs[0].id == id then 0
    else
      var j := FirstIndexWithId(regs[1..], id);
      assert forall k :: 1 <= k < j + 1 ==> regs[k] == regs[1..][k - 1];
      j + 1
  }

  /** `next((x for x in regs if x.id == id), None)` */
  function FirstWithId(regs: seq<Regulation>, id: string): (r: Option<Regulation>)
    ensures r.None? <==> forall i :: 0 <= i < |regs| ==> regs[i].id != id
    ensures r.Some? ==> exists i :: (0 <= i < |regs| && regs[i] == r.value && r.value.id == id
      && forall k :: 0 <= k < i ==> regs[k].id != id)
  {
    var i := FirstIndexWithId(regs, id);
    if i < |regs| then Some(regs[i]) else None
  }

  function FirstSource(sources: seq<Source>, id: string): (r: Option<Source>)
    ensures r.None? <==> forall i :: 0 <= i < |sources| ==> sources[i].id != id
    ensures r.Some? ==> r.value in sources && r.value.id == id
  {
    if sources == [] then None
    else if sources[0].id == id then Some(sources[0])
    else
      var r := FirstSource(sources[1..], id);
      assert forall i :: 1 <= i < |sources| ==> sources[i] == sources[1..][i - 1];
      r
  }

  // ---------------------------------------------------------------------
  // Urgency (calculate_impact)

  datatype Urgency = Critical | High | Medium | Low {
    function Name(): string {
      match this
      case Critical => "critical"
      case High => "high"
      case Medium => "medium"
      case Low => "low"
    }
    function Rank(): nat {
      match this
      case Critical => 3
      case High => 2
      case Medium => 1
      case Low => 0
    }
  }

  /** Critical under 30 days, high under 90, medium under 180, low otherwise. */
  function UrgencyFor(days: int): (u: Urgency)
    ensures u == Critical <==> days < 30
    ensures u == High <==> 30 <= days < 90
    ensures u == Medium <==> 90 <= days < 180
    ensures u == Low <==> days >= 180
  {
    if days < 30 then Critical else if days < 90 then High else if days < 180 then Medium else Low
  }

  /** A nearer effective date is never less urgent. */
  lemma UrgencyMonotone(d1: int, d2: int)
    requires d1 <= d2
    ensures UrgencyFor(d1).Rank() >= UrgencyFor(d2).Rank()
  {
  }

  /**
   * `(effective - now).days`: whole days from the clock reading `now`
   * (seconds) to midnight of the effective day, rounded down as
   * `timedelta.days` rounds.
   */
  function DaysUntil(effectiveDay: int, now: int): int {
    (effectiveDay * 86400 - now) / 86400
  }

  datatype Impact =
    | ImpactNotFound(error: string, affectedCount: nat, entityIds: seq<string>)
    | ImpactFound(regulationId: string, regulationTitle: string, affectedCount: nat, entityIds: seq<string>,
                  urgency: string, daysUntilEffective: int, impactLevel: string)

  datatype Fetch =
    | SourceNotFound(error: string)
    | Fetched(sourceId: string, sourceName: string, access: string, regulationsFound: nat)

  // ---------------------------------------------------------------------
  // check_for_updates

  datatype Alert = Alert(kind: string, regulationId: string, title: string, impact: string)

  predicate IsNew(reg: Regulation) {
    reg.status == "new"
  }

  predicate IsUpdated(reg: Regulation) {
    reg.status == "updated"
  }

  predicate IsUnchanged(reg: Regulation) {
    reg.status != "new" && reg.status != "updated"
  }

  predicate Alerted(reg: Regulation) {
    reg.status == "new" || reg.status == "updated"
  }

  function AlertFor(reg: Regulation): Alert {
    Alert(if reg.status == "new" then "new_regulation" else "regulation_updated", reg.id, reg.title, reg.impact)
  }

  /** The regulations the scan visits: those of each source, source by source. */
  function Scanned(sources: seq<Source>, regs: seq<Regulation>): seq<Regulation> {
    if sources == [] then []
    else Scanned(sources[..|sources| - 1], regs) + Filter(regs, OfSource(sources[|sources| - 1].id))
  }

  lemma ScannedSnoc(sources: seq<Source>, i: nat, regs: seq<Regulation>)
    requires i < |sources|
    ensures Scanned(sources[..i + 1], regs) == Scanned(sources[..i], regs) + Filter(regs, OfSource(sources[i].id))
  {
    assert sources[..i + 1][..i] == sources[..i];
  }

  /** Every visited regulation is new, updated or unchanged, exactly one of them. */
  lemma {:induction false} StatusPartition(s: seq<Regulation>)
    ensures Count(s, IsNew) + Count(s, IsUpdated) + Count(s, IsUnchanged) == |s|
    ensures Count(s, IsNew) + Count(s, IsUpdated) == Count(s, Alerted)
  {
    if s != [] {
      StatusPartition(s[1..]);
    }
  }

  datatype ScanResults = ScanResults(
    sourcesChecked: nat, newRegulations: nat, updatedRegulations: nat, unchangedRegulations: nat, alertsGenerated: seq<Alert>)

  /** The counts of a scan agree: every visited regulation is counted once, and each new or updated one alerts. */
  lemma ScanCountsAgree(sources: seq<Source>, regs: seq<Regulation>)
    ensures var s := Scanned(sources, regs);
      && Count(s, IsNew) + Count(s, IsUpdated) + Count(s, IsUnchanged) == |s|
      && |MapSeq(Filter(s, Alerted), AlertFor)| == Count(s, IsNew) + Count(s, IsUpdated)
  {
    var s := Scanned(sources, regs);
    StatusPartition(s);
    CountIsFilterLength(s, Alerted);
  }

  class Monitor {
    const md5: string -> string
    const sources: seq<Source>
    const regulations: seq<Regulation>
    /** ENTITY_AFFECTED_BY_REGULATION, as (regulation ID, entity IDs) pairs. */
    const affected: seq<(string, seq<string>)>
    var regulationHashes: map<string, string>

    /** `__init__` with `_initialize_hashes`: one cache entry per regulation ID. */
    constructor (md5: string -> string, sources: seq<Source>, regulations: seq<Regulation>,
                 affected: seq<(string, seq<string>)>)
      ensures this.md5 == md5 && this.sources == sources && this.regulations == regulations
      ensures this.affected == affected
      ensures regulationHashes == InitialHashes(md5, regulations)
    {
      this.md5 := md5;
      this.sources := sources;
      this.regulations := regulations;
      this.affected := affected;
      var hashes: map<string, string> := map[];
      for i := 0 to |regulations|
        invariant hashes == InitialHashes(md5, regulations[..i])
      {
        var reg := regulations[i];
        assert regulations[..i + 1][..i] == regulations[..i];
        hashes := hashes[reg.id := md5(Content(reg))];
      }
      assert regulations[..|regulations|] == regulations;
      regulationHashes := hashes;
    }

    /** `detect_changes` */
    method DetectChanges(regulationId: string, newHash: string) returns (changed: bool)
      modifies this
      ensures (changed, regulationHashes) == Detect(old(regulationHashes), regulationId, newHash)
    {
      if regulationId !in regulationHashes {
        regulationHashes := regulationHashes[regulationId := newHash];
        return true;
      }
      return regulationHashes[regulationId] != newHash;
    }

    /** `get_all_regulations`: the tracked regulations whose region and status match the given filters, ignoring case. */
    function GetAllRegulations(region: Option<string>, status: Option<string>): (r: seq<Regulation>)
      ensures forall x :: x in r <==> x in regulations && RegionMatches(region, x) && StatusMatches(status, x)
      ensures r == Filter(regulations, Matching(region, status))
    {
      var byRegion := Filter(regulations, RegionFilter(region));
      FilterBoth(regulations, region, status);
      assert forall x :: x in byRegion <==> x in regulations && RegionMatches(region, x) by {
        forall x | x in regulations && RegionMatches(region, x) ensures x in byRegion {
          FilterMember(regulations, RegionFilter(region), x);
        }
      }
      var r := Filter(byRegion, StatusFilter(status));
      assert forall x :: x in byRegion && StatusMatches(status, x) ==> x in r by {
        forall x | x in byRegion && StatusMatches(status, x) ensures x in r {
          FilterMember(byRegion, StatusFilter(status), x);
        }
      }
      r
    }

    /** `get_regulation`: the first tracked regulation with the ID, if any. */
    function GetRegulation(regulationId: string): (r: Option<Regulation>)
      ensures r.None? <==> forall i :: 0 <= i < |regulations| ==> regulations[i].id != regulationId
      ensures r.Some? ==> r.value in regulations && r.value.id == regulationId
    {
      FirstWithId(regulations, regulationId)
    }

    /** `fetch_source` apart from its clock and content digest: an unknown source is an error. */
    function FetchSource(sourceId: string, access: string): (r: Fetch)
      ensures r.SourceNotFound? <==> forall i :: 0 <= i < |sources| ==> sources[i].id != sourceId
      ensures r.SourceNotFound? ==> r.error == "Source " + sourceId + " not found"
      ensures r.Fetched? ==> (r.sourceId == sourceId && r.access == access
        && r.regulationsFound == |Filter(regulations, OfSource(sourceId))|)
      ensures r.Fetched? ==> FirstSource(sources, sourceId).Some? && r.sourceName == FirstSource(sources, sourceId).value.name
    {
      match FirstSource(sources, sourceId)
      case None => SourceNotFound("Source " + sourceId + " not found")
      case Some(source) => Fetched(sourceId, source.name, access, |Filter(regulations, OfSource(sourceId))|)
    }

    /**
     * `calculate_impact`: an unknown regulation is an error affecting nothing;
     * otherwise the affected entities and the urgency of its effective date.
     */
    function CalculateImpact(regulationId: string, now: int): (r: Impact)
      ensures r.ImpactNotFound? <==> GetRegulation(regulationId).None?
      ensures r.ImpactNotFound? ==> r.error == "Regulation not found" && r.affectedCount == 0 && r.entityIds == []
      ensures r.ImpactFound? ==>
        var reg := GetRegulation(regulationId).value;
        && r.regulationId == regulationId && r.regulationTitle == reg.title
        && r.entityIds == (if Get(affected, regulationId).Some? then Get(affected, regulationId).value else [])
        && r.affectedCount == |r.entityIds|
        && r.daysUntilEffective == DaysUntil(reg.effectiveDay, now)
        && r.urgency == UrgencyFor(r.daysUntilEffective).Name()
        && r.impactLevel == reg.impact
    {
      match GetRegulation(regulationId)
      case None => ImpactNotFound("Regulation not found", 0, [])
      case Some(reg) =>
        var ids := match Get(affected, regulationId) case None => [] case Some(e) => e;
        var days := DaysUntil(reg.effectiveDay, now);
        ImpactFound(regulationId, reg.title, |ids|, ids, UrgencyFor(days).Name(), days, reg.impact)
    }

    /** The inner loop of `check_for_updates` over one source's regulations. */
    method ScanSource(sourceRegs: seq<Regulation>) returns (newCount: nat, updatedCount: nat, unchangedCount: nat, alerts: seq<Alert>)
      ensures newCount == Count(sourceRegs, IsNew)
      ensures updatedCount == Count(sourceRegs, IsUpdated)
      ensures unchangedCount == Count(sourceRegs, IsUnchanged)
      ensures alerts == MapSeq(Filter(sourceRegs, Alerted), AlertFor)
    {
      newCount, updatedCount, unchangedCount, alerts := 0, 0, 0, [];
      for j := 0 to |sourceRegs|
        invariant newCount == Count(sourceRegs[..j], IsNew)
        invariant updatedCount == Count(sourceRegs[..j], IsUpdated)
        invariant unchangedCount == Count(sourceRegs[..j], IsUnchanged)
        invariant alerts == MapSeq(Filter(sourceRegs[..j], Alerted), AlertFor)
      {
        var reg := sourceRegs[j];
        CountStep(sourceRegs, j, IsNew);
        CountStep(sourceRegs, j, IsUpdated);
        CountStep(sourceRegs, j, IsUnchanged);
        MapFilterSnoc(sourceRegs, j, Alerted, AlertFor);
        if reg.status == "new" {
          newCount := newCount + 1;
          alerts := alerts + [Alert("new_regulation", reg.id, reg.title, reg.impact)];
        } else if reg.status == "updated" {
          updatedCount := updatedCount + 1;
          alerts := alerts + [Alert("regulation_updated", reg.id, reg.title, reg.impact)];
        } else {
          unchangedCount := unchangedCount + 1;
        }
      }
      assert sourceRegs[..|sourceRegs|] == sourceRegs;
    }

    /**
     * `check_for_updates`: visits each source's regulations in turn and
     * counts them by status; new and updated ones raise an alert each.
     */
    method CheckForUpdates() returns (r: ScanResults)
      ensures r.sourcesChecked == |sources|
      ensures r.newRegulations == Count(Scanned(sources, regulations), IsNew)
      ensures r.updatedRegulations == Count(Scanned(sources, regulations), IsUpdated)
      ensures r.unchangedRegulations == Count(Scanned(sources, regulations), IsUnchanged)
      ensures r.alertsGenerated == MapSeq(Filter(Scanned(sources, regulations), Alerted), AlertFor)
      ensures r.newRegulations + r.updatedRegulations + r.unchangedRegulations == |Scanned(sources, regulations)|
      ensures |r.alertsGenerated| == r.newRegulations + r.updatedRegulations
    {
      var newCount, updatedCount, unchangedCount: nat := 0, 0, 0;
      var alerts: seq<Alert> := [];
      for i := 0 to |sources|
        invariant newCount == Count(Scanned(sources[..i], regulations), IsNew)
        invariant updatedCount == Count(Scanned(sources[..i], regulations), IsUpdated)
        invariant unchangedCount == Count(Scanned(sources[..i], regulations), IsUnchanged)
        invariant alerts == MapSeq(Filter(Scanned(sources[..i], regulations), Alerted), AlertFor)
      {
        var sourceRegs := Filter(regulations, OfSource(sources[i].id));
        var n, u, c, a := ScanSource(sourceRegs);
        var before := Scanned(sources[..i], regulations);
        ScannedSnoc(sources, i, regulations);
        CountAppend(before, sourceRegs, IsNew);
        CountAppend(before, sourceRegs, IsUpdated);
        CountAppend(before, sourceRegs, IsUnchanged);
        FilterAppend(before, sourceRegs, Alerted);
        MapSeqAppend(Filter(before, Alerted), Filter(sourceRegs, Alerted), AlertFor);
        newCount, updatedCount, unchangedCount := newCount + n, updatedCount + u, unchangedCount + c;
        alerts := alerts + a;
      }
      assert sources[..|sources|] == sources;
      ScanCountsAgree(sources, regulations);
      r := ScanResults(|sources|, newCount, updatedCount, unchangedCount, alerts);
    }
  }
}
