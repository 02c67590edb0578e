/**
 * The evidence and reporting engine: governance-risk-compliance (GRC)
 * remediation cases with a six-state workflow and an append-only history,
 * regulatory reports and evidence packages kept by ID, and the listings and
 * summary built over them.
 *
 * The engine is an object whose dictionaries the source mutates, so it is a
 * class. A Python dict keeps keys in first-insertion order; each dictionary is
 * modelled as a map together with the sequence of its keys in that order.
 * Clock readings are parameters in seconds.
 */
module EvidenceEngine {
  import opened Common
  import opened Sorting

  // ---------------------------------------------------------------------
  // The remediation workflow

  datatype Status = Open | Investigating | InProgress | PendingReview | Completed | Reopened {
    function Name(): string {
      match this
      case Open => "open"
      case Investigating => "investigating"
      case InProgress => "in_progress"
      case PendingReview => "pending_review"
      case Completed => "completed"
      case Reopened => "reopened"
    }
  }

  /** valid_transitions: the statuses each status may move to, in table order. */
  function Allowed(s: Status): seq<Status> {
    match s
    case Open => [Investigating]
    case Investigating => [InProgress, Open]
    case InProgress => [PendingReview, Investigating]
    case PendingReview => [Completed, InProgress]
    case Completed => [Reopened]
    case Reopened => [Investigating]
  }

  function Names(ss: seq<Status>): (r: seq<string>)
    ensures |r| == |ss|
    ensures forall i :: 0 <= i < |ss| ==> r[i] == ss[i].Name()
  {
    if ss == [] then [] else [ss[0].Name()] + Names(ss[1..])
  }

  /**
   * The status of `ss` whose name is `name`: found exactly when the name is
   * listed, which is the membership test the source makes.
   */
  function Lookup(ss: seq<Status>, name: string): (r: Option<Status>)
    ensures r.Some? ==> r.value in ss && r.value.Name() == name
    ensures r.None? <==> name !in Names(ss)
  {
    if ss == [] then None
    else if ss[0].Name() == name then Some(ss[0])
    else
      assert Names(ss) == [ss[0].Name()] + Names(ss[1..]);
      Lookup(ss[1..], name)
  }

  /** No status may stay where it is, and a case is only completed after review. */
  lemma TransitionTableShape(s: Status, t: Status)
    requires t in Allowed(s)
    ensures t != s
    ensures t == Completed ==> s == PendingReview
    ensures t == Reopened ==> s == Completed
    ensures s == Open ==> t == Investigating
  {
  }

  /** A path of allowed steps from `from`, as the list of the statuses entered. */
  predicate IsPath(from: Status, steps: seq<Status>)
    decreases |steps|
  {
    steps == [] || (steps[0] in Allowed(from) && IsPath(steps[0], steps[1..]))
  }

  /** From every status the workflow can still reach "completed". */
  function PathToCompletion(s: Status): (p: seq<Status>)
    ensures IsPath(s, p)
    ensures s != Completed ==> |p| > 0 && p[|p| - 1] == Completed
    ensures s == Completed ==> p == []
  {
    match s
    case Open => [Investigating, InProgress, PendingReview, Completed]
    case Investigating => [InProgress, PendingReview, Completed]
    case InProgress => [PendingReview, Completed]
    case PendingReview => [Completed]
    case Completed => []
    case Reopened => [Investigating, InProgress, PendingReview, Completed]
  }

  // ---------------------------------------------------------------------
  // Priorities and service levels

  datatype Priority = Critical | High | Medium | Low {
    function Name(): string {
      match this
      case Critical => "critical"
      case High => "high"
      case Medium => "medium"
      case Low => "low"
    }

    /** sla_hours */
    function SlaHours(): nat {
      match this
      case Critical => 4
      case High => 24
      case Medium => 72
      case Low => 168
    }
  }

  /** `priority.lower()`, with anything outside the SLA table read as "medium". */
  function NormalizePriority(p: string): (r: Priority)
    ensures forall q: Priority :: Lower(p) == q.Name() ==> r == q
    ensures Lower(p) !in ["critical", "high", "medium", "low"] ==> r == Medium
  {
    var l := Lower(p);
    if l == "critical" then Critical
    else if l == "high" then High
    else if l == "low" then Low
    else Medium
  }

  /** Normalizing ignores case. */
  lemma NormalizeIgnoresCase(p: string)
    ensures NormalizePriority(Lower(p)) == NormalizePriority(p)
  {
    LowerIdempotent(p);
  }

  /** A priority's own name normalizes to itself. */
  lemma NormalizeName(q: Priority)
    ensures NormalizePriority(q.Name()) == q
  {
    match q
    case Critical => LowerOfLowercase("critical");
    case High => LowerOfLowercase("high");
    case Medium => LowerOfLowercase("medium");
    case Low => LowerOfLowercase("low");
  }

  /** A more urgent priority always has a strictly shorter service level. */
  lemma SlaOrdered()
    ensures Critical.SlaHours() < High.SlaHours() < Medium.SlaHours() < Low.SlaHours()
  {
  }

  const Analysts: seq<string> := ["sarah.compliance@visa.com", "james.analyst@visa.com", "maria.auditor@visa.com"]

  /** The round-robin analyst for the case created when the counter reaches `counter`. */
  function AutoAssignee(counter: nat): (a: string)
    ensures a in Analysts
  {
    Analysts[counter % |Analysts|]
  }

  /** Any three consecutive automatically assigned cases go to three different analysts. */
  lemma RoundRobinCoversAnalysts(n: nat)
    ensures AutoAssignee(n) == AutoAssignee(n + 3)
    ensures AutoAssignee(n) != AutoAssignee(n + 1)
    ensures AutoAssignee(n + 1) != AutoAssignee(n + 2)
    ensures AutoAssignee(n) != AutoAssignee(n + 2)
  {
    assert Analysts[0] != Analysts[1] && Analysts[1] != Analysts[2] && Analysts[0] != Analysts[2];
  }

  // ---------------------------------------------------------------------
  // Cases

  datatype ActionItem = ActionItem(step: nat, action: string, status: string)

  const InitialActionItems: seq<ActionItem> := [
    ActionItem(1, "Investigate issue", "pending"),
    ActionItem(2, "Determine root cause", "pending"),
    ActionItem(3, "Implement fix", "pending"),
    ActionItem(4, "Verify resolution", "pending")
  ]

  datatype HistoryEntry =
    | Created(timestamp: nat, actor: string, summary: string)
    | StatusChange(timestamp: nat, previousStatus: Status, newStatus: Status, actor: string,
                   notes: Option<string>, evidence: Option<string>)

  datatype Case = Case(
    caseId: string,
    title: string,
    description: string,
    status: Status,
    priority: Priority,
    assignedTo: string,
    createdAt: nat,
    dueDate: nat,
    slaHours: nat,
    linkedViolationId: Option<string>,
    linkedEntityId: Option<string>,
    actionItems: seq<ActionItem>,
    history: seq<HistoryEntry>,
    updatedAt: Option<nat>,
    resolutionTime: Option<int>,
    slaMet: Option<bool>)

  /**
   * The status a history leads to, replayed from "open": the history must
   * start with its creation entry and every later entry must be an allowed
   * step from the status before it.
   */
  function Replay(h: seq<HistoryEntry>): Option<Status> {
    if h == [] then None
    else if |h| == 1 then (if h[0].Created? then Some(Open) else None)
    else match Replay(h[..|h| - 1])
      case None => None
      case Some(s) =>
        var e := h[|h| - 1];
        if e.StatusChange? && e.previousStatus == s && e.newStatus in Allowed(s) then Some(e.newStatus) else None
  }

  lemma ReplayStep(h: seq<HistoryEntry>, e: HistoryEntry, s: Status)
    requires Replay(h) == Some(s)
    requires e.StatusChange? && e.previousStatus == s && e.newStatus in Allowed(s)
    ensures Replay(h + [e]) == Some(e.newStatus)
  {
    assert (h + [e])[..|h|] == h;
  }

  /** A history that replays starts with its creation and holds status changes after it. */
  lemma {:induction false} ReplayShape(h: seq<HistoryEntry>)
    requires Replay(h).Some?
    ensures h[0].Created?
    ensures forall i :: 1 <= i < |h| ==> h[i].StatusChange?
  {
    if |h| > 1 {
      var init := h[..|h| - 1];
      ReplayShape(init);
      forall i | 1 <= i < |h| ensures h[i].StatusChange? {
        if i < |h| - 1 { assert h[i] == init[i]; }
      }
    }
  }

  const CasePrefix := "GRC-2026-"

  /** f"GRC-2026-{n:05d}" */
  function CaseId(n: nat): string {
    CasePrefix + ZeroPadded(n, 5)
  }

  /** The number in a formatted ID can be read back. */
  lemma IdNumber(prefix: string, n: nat, width: nat)
    ensures var id := prefix + ZeroPadded(n, width);
      StartsWith(id, prefix) && id[|prefix|..] == ZeroPadded(n, width)
      && ParseDecimal(id[|prefix|..]) == n
  {
    var id := prefix + ZeroPadded(n, width);
    assert id[..|prefix|] == prefix;
    assert id[|prefix|..] == ZeroPadded(n, width);
    ParseZeroPadded(n, width);
  }

  /** Case IDs of different counter values differ. */
  lemma CaseIdsDistinct(n: nat, m: nat)
    requires n != m
    ensures CaseId(n) != CaseId(m)
  {
    IdNumber(CasePrefix, n, 5);
    IdNumber(CasePrefix, m, 5);
  }

  /** The history note of a new case. */
  function CreationNote(p: Priority): string {
    "Case created with " + p.Name() + " priority"
  }

  /** The fields `create_grc_case` stores for the case numbered n. */
  function NewCase(n: nat, title: string, description: string, priority: string,
                   assignedTo: Option<string>, linkedViolationId: Option<string>,
                   linkedEntityId: Option<string>, now: nat): (c: Case)
    ensures c.caseId == CaseId(n) && c.status == Open && Replay(c.history) == Some(Open)
  {
    var p := NormalizePriority(priority);
    Case(CaseId(n), title, description, Open, p,
         if Truthy(assignedTo) then assignedTo.value else AutoAssignee(n + 1),
         now, now + 3600 * p.SlaHours(), p.SlaHours(), linkedViolationId, linkedEntityId,
         InitialActionItems, [Created(now, "system", CreationNote(p))],
         None, None, None)
  }

  /**
   * A new case is open at the normalised priority, due its SLA hours from
   * now, assigned to the analyst given or else round-robin, with the four
   * pending action items and a history of its creation alone.
   */
  lemma NewCaseFields(n: nat, title: string, description: string, priority: string,
                      assignedTo: Option<string>, linkedViolationId: Option<string>,
                      linkedEntityId: Option<string>, now: nat)
    ensures var c := NewCase(n, title, description, priority, assignedTo, linkedViolationId, linkedEntityId, now);
      && c.priority == NormalizePriority(priority) && c.slaHours == c.priority.SlaHours()
      && c.dueDate == now + 3600 * c.slaHours
      && c.assignedTo == (if Truthy(assignedTo) then assignedTo.value else AutoAssignee(n + 1))
      && |c.actionItems| == 4 && (forall i :: 0 <= i < 4 ==> c.actionItems[i].status == "pending")
      && |c.history| == 1 && c.history[0].Created?
  {
  }

  /** Notes and evidence are recorded in the history only when non-empty. */
  function Recorded(o: Option<string>): (r: Option<string>)
    ensures r.Some? <==> Truthy(o)
    ensures r.Some? ==> r == o
  {
    if Truthy(o) then o else None
  }

  /** The case after an allowed move to `t`: one history entry more, and nothing else lost. */
  function Advance(c: Case, t: Status, notes: Option<string>, evidence: Option<string>,
                   actor: string, now: nat): (r: Case)
    requires Replay(c.history) == Some(c.status) && t in Allowed(c.status)
    ensures r.status == t && Replay(r.history) == Some(t)
    ensures r.history == c.history + [StatusChange(now, c.status, t, actor, Recorded(notes), Recorded(evidence))]
    ensures r.caseId == c.caseId && r.priority == c.priority && r.createdAt == c.createdAt
    ensures r.assignedTo == c.assignedTo && r.slaHours == c.slaHours && r.dueDate == c.dueDate
    ensures r.title == c.title && r.description == c.description && r.actionItems == c.actionItems
    ensures r.linkedViolationId == c.linkedViolationId && r.linkedEntityId == c.linkedEntityId
    ensures r.updatedAt == Some(now)
    ensures t == Completed ==>
      r.resolutionTime == Some(now - c.createdAt) && r.slaMet == Some(now - c.createdAt <= c.slaHours * 3600)
    ensures t != Completed ==> r.resolutionTime == c.resolutionTime && r.slaMet == c.slaMet
  {
    var e := StatusChange(now, c.status, t, actor, Recorded(notes), Recorded(evidence));
    ReplayStep(c.history, e, c.status);
    var elapsed := now - c.createdAt;
    c.(status := t, updatedAt := Some(now), history := c.history + [e],
       resolutionTime := if t == Completed then Some(elapsed) else c.resolutionTime,
       slaMet := if t == Completed then Some(elapsed <= c.slaHours * 3600) else c.slaMet)
  }

  datatype UpdateOutcome =
    | NotFound(error: string)
    | InvalidTransition(error: string, validTransitions: seq<string>)
    | Updated(caseId: string, previousStatus: string, newStatus: string, updatedAt: nat,
              notesAdded: bool, evidenceAdded: bool, resolutionTime: Option<int>, slaMet: Option<bool>)

  predicate StatusFilter(c: Case, status: Option<string>) {
    !Truthy(status) || c.status.Name() == status.value
  }

  predicate PriorityFilter(c: Case, priority: Option<string>) {
    !Truthy(priority) || c.priority.Name() == priority.value
  }

  predicate AssigneeFilter(c: Case, assignedTo: Option<string>) {
    !Truthy(assignedTo) || c.assignedTo == assignedTo.value
  }

  function HasStatus(status: Option<string>): Case -> bool {
    (c: Case) => StatusFilter(c, status)
  }

  function HasPriority(priority: Option<string>): Case -> bool {
    (c: Case) => PriorityFilter(c, priority)
  }

  function HasAssignee(assignedTo: Option<string>): Case -> bool {
    (c: Case) => AssigneeFilter(c, assignedTo)
  }

  /** A case is overdue when still being worked on and its due time has passed. */
  predicate IsOverdue(c: Case, now: nat) {
    c.status != Completed && c.status != Reopened && now > c.dueDate
  }

  function Overdue(now: nat): Case -> bool {
    (c: Case) => IsOverdue(c, now)
  }

  function StatusNames(cs: seq<Case>): (r: seq<string>)
    ensures |r| == |cs| && forall i :: 0 <= i < |cs| ==> r[i] == cs[i].status.Name()
  {
    if cs == [] then [] else StatusNames(cs[..|cs| - 1]) + [cs[|cs| - 1].status.Name()]
  }

  function PriorityNames(cs: seq<Case>): (r: seq<string>)
    ensures |r| == |cs| && forall i :: 0 <= i < |cs| ==> r[i] == cs[i].priority.Name()
  {
    if cs == [] then [] else PriorityNames(cs[..|cs| - 1]) + [cs[|cs| - 1].priority.Name()]
  }

  datatype RemediationSummary = RemediationSummary(
    totalCases: nat,
    byStatus: seq<(string, nat)>,
    byPriority: seq<(string, nat)>,
    overdue: nat)

  // ---------------------------------------------------------------------
  // Reports and evidence packages

  datatype ReportTemplate = ReportTemplate(title: string, sections: seq<string>, requirementsCount: nat)

  const SupportedFrameworks := "['PCI-DSS', 'GDPR', 'SOC2', 'RBI']"

  function Template(framework: string): Option<ReportTemplate> {
    if framework == "PCI-DSS" then
      Some(ReportTemplate("PCI-DSS Compliance Report",
        ["executive_summary", "requirements_mapping", "controls", "exceptions", "remediation"], 250))
    else if framework == "GDPR" then
      Some(ReportTemplate("GDPR Compliance Report",
        ["executive_summary", "processing_records", "subject_requests", "cross_border", "breaches"], 99))
    else if framework == "SOC2" then
      Some(ReportTemplate("SOC2 Type II Report",
        ["executive_summary", "control_objectives", "test_results", "exceptions"], 64))
    else if framework == "RBI" then
      Some(ReportTemplate("RBI Compliance Report",
        ["executive_summary", "data_localization", "reporting_requirements", "exceptions"], 45))
    else None
  }

  /** An alert of the monitoring data, with the fields the engine reads. */
  datatype Alert = Alert(entityId: Option<string>, regulation: string, severity: string, status: string)

  /** An ecosystem entity, with the fields the engine reads. */
  datatype EntityRef = EntityRef(id: string, country: Option<string>)

  predicate IsCriticalAlert(a: Alert) {
    a.severity == "critical"
  }

  predicate IsResolvedAlert(a: Alert) {
    a.status == "resolved"
  }

  /** `framework in a.get("regulation", "")` */
  function Cites(framework: string): Alert -> bool {
    (a: Alert) => IsSubstring(framework, a.regulation)
  }

  datatype ViolationCounts = ViolationCounts(total: nat, critical: nat, resolved: nat)

  function CountViolations(alerts: seq<Alert>): (v: ViolationCounts)
    ensures v.total == |alerts| && v.critical <= v.total && v.resolved <= v.total
    ensures v.critical == |Filter(alerts, IsCriticalAlert)|
    ensures v.resolved == |Filter(alerts, IsResolvedAlert)|
  {
    CountIsFilterLength(alerts, IsCriticalAlert);
    CountIsFilterLength(alerts, IsResolvedAlert);
    ViolationCounts(|alerts|, Count(alerts, IsCriticalAlert),
                    Count(alerts, IsResolvedAlert))
  }

  datatype Report = Report(
    reportId: string,
    title: string,
    framework: string,
    region: string,
    generatedAt: nat,
    totalRequirements: nat,
    compliant: nat,
    exceptions: nat,
    notApplicable: nat,
    violations: ViolationCounts,
    openViolations: nat,
    sections: seq<string>,
    pages: nat)

  /** "Q1" to "Q4" for a month 1 to 12. */
  function Quarter(month: nat): (q: string)
    requires 1 <= month <= 12
    ensures |q| == 2 && q[0] == 'Q' && '1' <= q[1] <= '4'
    ensures month <= 3 <==> q[1] == '1'
    ensures 10 <= month <==> q[1] == '4'
    ensures 3 * (DigitValue(q[1]) - 1) < month <= 3 * DigitValue(q[1])
  {
    var k := (month - 1) / 3 + 1;
    "Q" + [DigitChar(k)]
  }

  /** f"RPT-2026-{quarter}-{framework.replace('-', '')}" */
  function ReportId(framework: string, month: nat): string
    requires 1 <= month <= 12
  {
    "RPT-2026-" + Quarter(month) + "-" + Filter(framework, (c: char) => c != '-')
  }

  function MakeReport(framework: string, t: ReportTemplate, region: Option<string>, month: nat,
                      alerts: seq<Alert>, now: nat): (r: Report)
    requires 1 <= month <= 12
    ensures r.reportId == ReportId(framework, month) && r.framework == framework
    ensures r.compliant + r.exceptions + r.notApplicable == r.totalRequirements == t.requirementsCount
    ensures r.compliant == t.requirementsCount * 92 / 100 && r.exceptions == t.requirementsCount * 5 / 100
    ensures r.title == t.title + " " + Quarter(month) + " 2025"
    ensures r.violations == CountViolations(Filter(alerts, Cites(framework)))
    ensures r.violations.total == Count(alerts, Cites(framework))
    ensures r.pages == 24 + 2 * r.violations.total
    ensures r.openViolations + r.violations.resolved == r.violations.total
    ensures r.region == if Truthy(region) then region.value else "Global"
  {
    var matching := Filter(alerts, Cites(framework));
    CountIsFilterLength(alerts, Cites(framework));
    var v := CountViolations(matching);
    var total := t.requirementsCount;
    var compliant := total * 92 / 100;
    var exceptions := total * 5 / 100;
    var q := Quarter(month);
    Report(ReportId(framework, month), t.title + " " + q + " 2025", framework,
           if Truthy(region) then region.value else "Global", now,
           total, compliant, exceptions, total - compliant - exceptions,
           v, v.total - v.resolved, t.sections, 24 + v.total * 2)
  }

  datatype Package = Package(
    packageId: string,
    createdAt: nat,
    scope: string,
    scopeLabel: string,
    violations: ViolationCounts,
    entitiesCovered: nat,
    contents: seq<string>,
    sizeBytes: nat)

  const PackagePrefix := "EVD-2026-"

  /** f"EVD-2026-{n:03d}" */
  function PackageId(n: nat): string {
    PackagePrefix + ZeroPadded(n, 3)
  }

  /** Package IDs of different counter values differ. */
  lemma PackageIdsDistinct(n: nat, m: nat)
    requires n != m
    ensures PackageId(n) != PackageId(m)
  {
    IdNumber(PackagePrefix, n, 3);
    IdNumber(PackagePrefix, m, 3);
  }

  const PackageContents: seq<string> := ["executive_summary.pdf", "violation_details.pdf",
    "entity_compliance_status.pdf", "audit_trail.csv", "raw_data.json"]

  const GdprCountries: seq<string> := ["EU", "UK", "DE", "FR"]

  function InGdprCountry(e: EntityRef): bool {
    e.country.Some? && e.country.value in GdprCountries
  }

  function ForEntity(entityId: Option<string>): Alert -> bool {
    (a: Alert) => a.entityId == entityId
  }

  function IsEntity(id: string): EntityRef -> bool {
    (e: EntityRef) => e.id == id
  }

  /** The alerts, the entities and the label a package scope selects. */
  function ScopeSelection(scope: string, entityId: Option<string>, alerts: seq<Alert>,
                          entities: seq<EntityRef>): (r: (seq<Alert>, seq<EntityRef>, string))
    ensures |r.0| <= |alerts| && |r.1| <= |entities|
    ensures scope == "pci" ==>
      r == (Filter(alerts, Cites("PCI")), entities, "PCI-DSS")
      && forall a :: a in r.0 <==> a in alerts && IsSubstring("PCI", a.regulation)
    ensures scope == "gdpr" ==>
      r == (Filter(alerts, Cites("GDPR")), Filter(entities, InGdprCountry), "GDPR")
      && (forall a :: a in r.0 <==> a in alerts && IsSubstring("GDPR", a.regulation))
      && (forall e :: e in r.1 <==> e in entities && e.country.Some? && e.country.value in GdprCountries)
    ensures scope == "entity" && Truthy(entityId) ==>
      r == (Filter(alerts, ForEntity(entityId)), Filter(entities, IsEntity(entityId.value)), "Entity " + entityId.value)
      && (forall a :: a in r.0 <==> a in alerts && a.entityId == entityId)
      && (forall e :: e in r.1 <==> e in entities && e.id == entityId.value)
    ensures scope !in ["pci", "gdpr"] && !(scope == "entity" && Truthy(entityId)) ==>
      r == (alerts, entities, "Full Audit")
  {
    if scope == "pci" then
      FilterMembers(alerts, Cites("PCI"));
      (Filter(alerts, Cites("PCI")), entities, "PCI-DSS")
    else if scope == "gdpr" then
      FilterMembers(alerts, Cites("GDPR"));
      FilterMembers(entities, InGdprCountry);
      (Filter(alerts, Cites("GDPR")), Filter(entities, InGdprCountry), "GDPR")
    else if scope == "entity" && Truthy(entityId) then
      FilterMembers(alerts, ForEntity(entityId));
      FilterMembers(entities, IsEntity(entityId.value));
      (Filter(alerts, ForEntity(entityId)), Filter(entities, IsEntity(entityId.value)), "Entity " + entityId.value)
    else (alerts, entities, "Full Audit")
  }

  /** An entry of the combined listing of reports and packages. */
  datatype Item = ReportItem(report: Report) | PackageItem(package: Package)

  /**
   * The sort key of `list_reports`: `x.get("created_at", "")`. Reports have
   * no "created_at", so their key is the empty string, below every timestamp.
   */
  function ItemKey(it: Item): nat {
    match it
    case ReportItem(_) => 0
    case PackageItem(p) => p.createdAt + 1
  }

  /** Descending order of `sorted(..., reverse=True)` as an ascending sort on the negated key. */
  function Descending(it: Item): int {
    -(ItemKey(it) as int)
  }

  function CaseDescending(c: Case): int {
    -(c.createdAt as int)
  }

  // ---------------------------------------------------------------------
  // Dictionaries in insertion order

  /** `order` lists the keys of `m`, each once. */
  ghost predicate KeyOrder<V>(m: map<string, V>, order: seq<string>) {
    && (forall k :: k in m <==> k in order)
    && NoRepeats(order)
  }

  /** No key occurs twice: each is new when it is appended. */
  ghost predicate NoRepeats(order: seq<string>) {
    order == [] || (order[|order| - 1] !in order[..|order| - 1] && NoRepeats(order[..|order| - 1]))
  }

  /** `list(d.values())` */
  function Values<V>(m: map<string, V>, order: seq<string>): (r: seq<V>)
    requires forall i :: 0 <= i < |order| ==> order[i] in m
    ensures |r| == |order| && forall i :: 0 <= i < |order| ==> r[i] == m[order[i]]
  {
    if order == [] then [] else Values(m, order[..|order| - 1]) + [m[order[|order| - 1]]]
  }

  /** `d[k] = v` keeps the position of a key already present and appends a new one. */
  lemma KeyOrderInsert<V>(m: map<string, V>, order: seq<string>, k: string, v: V)
    requires KeyOrder(m, order)
    ensures KeyOrder(m[k := v], if k in m then order else order + [k])
  {
    if k !in m {
      assert (order + [k])[..|order|] == order;
    }
  }

  /**
   * The case table: every case is filed under its own ID and its status is
   * where its history leads; no ID the counter has still to hand out is taken.
   */
  ghost predicate CaseTable(cases: map<string, Case>, order: seq<string>, counter: nat) {
    && KeyOrder(cases, order)
    && (forall id :: id in cases ==>
         && cases[id].caseId == id
         && Replay(cases[id].history) == Some(cases[id].status))
    && (forall k: nat :: counter <= k ==> CaseId(k) !in cases)
  }

  /** Filing the case of the current counter keeps the table valid: its ID is fresh. */
  lemma CaseTableInsert(cases: map<string, Case>, order: seq<string>, n: nat, c: Case)
    requires CaseTable(cases, order, n)
    requires c.caseId == CaseId(n) && Replay(c.history) == Some(c.status)
    ensures CaseId(n) !in cases
    ensures CaseTable(cases[CaseId(n) := c], order + [CaseId(n)], n + 1)
  {
    KeyOrderInsert(cases, order, CaseId(n), c);
    forall k: nat | n + 1 <= k
      ensures CaseId(k) !in cases[CaseId(n) := c]
    {
      CaseIdsDistinct(k, n);
    }
  }

  lemma CaseTableUpdate(cases: map<string, Case>, order: seq<string>, counter: nat, id: string, c: Case)
    requires CaseTable(cases, order, counter) && id in cases
    requires c.caseId == id && Replay(c.history) == Some(c.status)
    ensures CaseTable(cases[id := c], order, counter)
  {
    KeyOrderInsert(cases, order, id, c);
  }

  /** The package table: every package is filed under its own ID; no ID still to be handed out is taken. */
  ghost predicate PackageTable(packages: map<string, Package>, order: seq<string>, counter: nat) {
    && KeyOrder(packages, order)
    && (forall id :: id in packages ==> packages[id].packageId == id)
    && (forall k: nat :: counter <= k ==> PackageId(k) !in packages)
  }

  lemma PackageTableInsert(packages: map<string, Package>, order: seq<string>, n: nat, p: Package)
    requires PackageTable(packages, order, n) && p.packageId == PackageId(n)
    ensures PackageId(n) !in packages
    ensures PackageTable(packages[PackageId(n) := p], order + [PackageId(n)], n + 1)
  {
    KeyOrderInsert(packages, order, PackageId(n), p);
    forall k: nat | n + 1 <= k
      ensures PackageId(k) !in packages[PackageId(n) := p]
    {
      PackageIdsDistinct(k, n);
    }
  }

  ghost predicate ReportTable(reports: map<string, Report>, order: seq<string>) {
    KeyOrder(reports, order) && forall id :: id in reports ==> reports[id].reportId == id
  }

  lemma ReportTableInsert(reports: map<string, Report>, order: seq<string>, r: Report)
    requires ReportTable(reports, order)
    ensures ReportTable(reports[r.reportId := r], if r.reportId in reports then order else order + [r.reportId])
  {
    KeyOrderInsert(reports, order, r.reportId, r);
  }

  /** The engine's three tables, each consistent with its order and counter. */
  ghost predicate Tables(caseCounter: nat, evidenceCounter: nat,
                         cases: map<string, Case>, caseOrder: seq<string>,
                         reports: map<string, Report>, reportOrder: seq<string>,
                         packages: map<string, Package>, packageOrder: seq<string>)
  {
    && caseCounter >= 1 && evidenceCounter >= 1
    && CaseTable(cases, caseOrder, caseCounter)
    && ReportTable(reports, reportOrder)
    && PackageTable(packages, packageOrder, evidenceCounter)
  }

  /** Filing a new case under the case counter keeps the tables consistent. */
  lemma TablesFileCase(caseCounter: nat, evidenceCounter: nat,
                       cases: map<string, Case>, caseOrder: seq<string>,
                       reports: map<string, Report>, reportOrder: seq<string>,
                       packages: map<string, Package>, packageOrder: seq<string>, c: Case)
    requires Tables(caseCounter, evidenceCounter, cases, caseOrder, reports, reportOrder, packages, packageOrder)
    requires c.caseId == CaseId(caseCounter) && Replay(c.history) == Some(c.status)
    ensures c.caseId !in cases
    ensures Tables(caseCounter + 1, evidenceCounter, cases[c.caseId := c], caseOrder + [c.caseId],
                   reports, reportOrder, packages, packageOrder)
  {
    CaseTableInsert(cases, caseOrder, caseCounter, c);
  }

  // ---------------------------------------------------------------------
  // Listings and summary over the stored values

  /** The three filters of `list_grc_cases`, each applied only when given. */
  function Selected(cs: seq<Case>, status: Option<string>, priority: Option<string>,
                    assignedTo: Option<string>): (r: seq<Case>)
    ensures forall c :: c in r <==>
      c in cs && StatusFilter(c, status) && PriorityFilter(c, priority) && AssigneeFilter(c, assignedTo)
  {
    var byStatus := Filter(cs, HasStatus(status));
    var byPriority := Filter(byStatus, HasPriority(priority));
    var byAssignee := Filter(byPriority, HasAssignee(assignedTo));
    assert forall c :: c in byAssignee ==> c in byPriority && AssigneeFilter(c, assignedTo) by {
      forall c | c in byAssignee ensures c in byPriority && AssigneeFilter(c, assignedTo) {
        var i :| 0 <= i < |byAssignee| && byAssignee[i] == c;
      }
    }
    assert forall c :: c in byPriority ==> c in byStatus && PriorityFilter(c, priority) by {
      forall c | c in byPriority ensures c in byStatus && PriorityFilter(c, priority) {
        var i :| 0 <= i < |byPriority| && byPriority[i] == c;
      }
    }
    assert forall c :: c in byStatus ==> c in cs && StatusFilter(c, status) by {
      forall c | c in byStatus ensures c in cs && StatusFilter(c, status) {
        var i :| 0 <= i < |byStatus| && byStatus[i] == c;
      }
    }
    assert forall c :: (c in cs && StatusFilter(c, status) && PriorityFilter(c, priority)
                        && AssigneeFilter(c, assignedTo)) ==> c in byAssignee by {
      forall c | c in cs && StatusFilter(c, status) && PriorityFilter(c, priority) && AssigneeFilter(c, assignedTo)
        ensures c in byAssignee
      {
        FilterMember(cs, HasStatus(status), c);
        FilterMember(byStatus, HasPriority(priority), c);
        FilterMember(byPriority, HasAssignee(assignedTo), c);
      }
    }
    byAssignee
  }

  /**
   * `list_grc_cases` over the stored cases: exactly the cases that pass
   * every given filter, newest first, and cases created at the same moment
   * in the order they were stored.
   */
  function SelectCases(cs: seq<Case>, status: Option<string>, priority: Option<string>,
                       assignedTo: Option<string>): (r: seq<Case>)
    ensures forall c :: c in r <==>
      c in cs && StatusFilter(c, status) && PriorityFilter(c, priority) && AssigneeFilter(c, assignedTo)
    ensures multiset(r) == multiset(Selected(cs, status, priority, assignedTo))
    ensures forall i, j :: 0 <= i < j < |r| ==> r[i].createdAt >= r[j].createdAt
    ensures forall t: int :: WithKey(r, CaseDescending, t) == WithKey(Selected(cs, status, priority, assignedTo), CaseDescending, t)
  {
    var sel := Selected(cs, status, priority, assignedTo);
    SortByMembers(sel, CaseDescending);
    SortBySortedPermutation(sel, CaseDescending);
    forall t: int ensures WithKey(SortBy(sel, CaseDescending), CaseDescending, t) == WithKey(sel, CaseDescending, t) {
      SortByStable(sel, CaseDescending, t);
    }
    var r := SortBy(sel, CaseDescending);
    assert forall i, j :: 0 <= i < j < |r| ==> CaseDescending(r[i]) <= CaseDescending(r[j]);
    r
  }

  /**
   * The sort of `list_reports`, by the "created_at" key descending. Reports
   * carry "generated_at" instead, so every package comes before every report.
   */
  function SortItems(all: seq<Item>): (r: seq<Item>)
    ensures multiset(r) == multiset(all)
    ensures forall i, j :: 0 <= i < j < |r| ==> ItemKey(r[i]) >= ItemKey(r[j])
    ensures forall i, j :: 0 <= i < j < |r| && r[i].ReportItem? ==> r[j].ReportItem?
    ensures forall t: int :: WithKey(r, Descending, t) == WithKey(all, Descending, t)
  {
    forall t: int ensures WithKey(SortBy(all, Descending), Descending, t) == WithKey(all, Descending, t) {
      SortByStable(all, Descending, t);
    }
    SortBySortedPermutation(all, Descending);
    var r := SortBy(all, Descending);
    assert forall i, j :: 0 <= i < j < |r| ==> Descending(r[i]) <= Descending(r[j]);
    r
  }

  lemma NamesSnoc(cs: seq<Case>, i: nat)
    requires i < |cs|
    ensures StatusNames(cs[..i + 1]) == StatusNames(cs[..i]) + [cs[i].status.Name()]
    ensures PriorityNames(cs[..i + 1]) == PriorityNames(cs[..i]) + [cs[i].priority.Name()]
  {
    assert cs[..i + 1][..i] == cs[..i];
  }

  /**
   * The counting loops of `get_remediation_summary`: the overdue cases, and
   * the count of each status and each priority in first-occurrence order.
   */
  method Summarize(cs: seq<Case>, now: nat) returns (s: RemediationSummary)
    ensures s.totalCases == |cs|
    ensures s.byStatus == Tally(StatusNames(cs)) && s.byPriority == Tally(PriorityNames(cs))
    ensures s.overdue == Count(cs, Overdue(now))
  {
    var overdue := 0;
    for i := 0 to |cs|
      invariant overdue == Count(cs[..i], Overdue(now))
    {
      CountStep(cs, i, Overdue(now));
      if IsOverdue(cs[i], now) {
        overdue := overdue + 1;
      }
    }
    assert cs[..|cs|] == cs;
    var byStatus: seq<(string, nat)> := [];
    var byPriority: seq<(string, nat)> := [];
    for i := 0 to |cs|
      invariant byStatus == Tally(StatusNames(cs[..i]))
      invariant byPriority == Tally(PriorityNames(cs[..i]))
    {
      NamesSnoc(cs, i);
      byStatus := Bump(byStatus, cs[i].status.Name());
      byPriority := Bump(byPriority, cs[i].priority.Name());
    }
    s := RemediationSummary(|cs|, byStatus, byPriority, overdue);
  }

  /** The summary accounts for every case exactly once, per status and per priority. */
  lemma SummaryConsistent(cs: seq<Case>)
    ensures TallyTotal(Tally(StatusNames(cs))) == |cs|
    ensures TallyTotal(Tally(PriorityNames(cs))) == |cs|
  {
    var statuses := StatusNames(cs);
    var priorities := PriorityNames(cs);
    TallyCorrect(statuses);
    TallyCorrect(priorities);
  }

  class Engine {
    var caseCounter: nat
    var reportCounter: nat
    var evidenceCounter: nat
    var deliveryCounter: nat
    var cases: map<string, Case>
    var caseOrder: seq<string>
    var reports: map<string, Report>
    var reportOrder: seq<string>
    var packages: map<string, Package>
    var packageOrder: seq<string>

    ghost predicate Valid()
      reads this
    {
      Tables(caseCounter, evidenceCounter, cases, caseOrder, reports, reportOrder, packages, packageOrder)
    }

    constructor ()
      ensures Valid()
      ensures caseCounter == 1 && reportCounter == 1 && evidenceCounter == 1 && deliveryCounter == 1
      ensures cases == map[] && reports == map[] && packages == map[]
      ensures caseOrder == [] && reportOrder == [] && packageOrder == []
    {
      caseCounter, reportCounter, evidenceCounter, deliveryCounter := 1, 1, 1, 1;
      cases, reports, packages := map[], map[], map[];
      caseOrder, reportOrder, packageOrder := [], [], [];
    }

    /** The stored cases in dict order. */
    function CaseList(): (r: seq<Case>)
      reads this
      requires Valid()
      ensures |r| == |caseOrder|
      ensures forall i :: 0 <= i < |r| ==> r[i] == cases[caseOrder[i]]
    {
      Values(cases, caseOrder)
    }

    function ReportList(): (r: seq<Report>)
      reads this
      requires Valid()
      ensures |r| == |reportOrder|
    {
      Values(reports, reportOrder)
    }

    function PackageList(): (r: seq<Package>)
      reads this
      requires Valid()
      ensures |r| == |packageOrder|
    {
      Values(packages, packageOrder)
    }

    /**
     * `create_grc_case`: the case is filed under the ID of the current
     * counter, which is fresh, and the counter moves on by one.
     */
    method CreateGrcCase(title: string, description: string, priority: string,
                         assignedTo: Option<string>, linkedViolationId: Option<string>,
                         linkedEntityId: Option<string>, now: nat) returns (c: Case)
      requires Valid()
      modifies this
      ensures Valid()
      ensures c == NewCase(old(caseCounter), title, description, priority, assignedTo,
                           linkedViolationId, linkedEntityId, now)
      ensures c.caseId !in old(cases)
      ensures caseCounter == old(caseCounter) + 1
      ensures cases == old(cases)[c.caseId := c] && caseOrder == old(caseOrder) + [c.caseId]
      ensures unchanged(this`reportCounter, this`evidenceCounter, this`deliveryCounter)
      ensures unchanged(this`reports, this`reportOrder, this`packages, this`packageOrder)
    {
      var n := caseCounter;
      c := NewCase(n, title, description, priority, assignedTo, linkedViolationId, linkedEntityId, now);
      TablesFileCase(caseCounter, evidenceCounter, cases, caseOrder, reports, reportOrder, packages, packageOrder, c);
      cases, caseOrder, caseCounter := cases[c.caseId := c], caseOrder + [c.caseId], n + 1;
    }

    /**
     * `update_remediation_status`: an unknown case and a move the table
     * does not allow are refused with nothing changed; an allowed move
     * advances that case alone.
     */
    method UpdateRemediationStatus(caseId: string, status: string, notes: Option<string>,
                                   evidence: Option<string>, actor: string, now: nat)
      returns (r: UpdateOutcome)
      requires Valid()
      modifies this
      ensures Valid()
      ensures caseId !in old(cases) ==> r == NotFound("Case " + caseId + " not found") && unchanged(this`cases)
      ensures caseId in old(cases) ==>
        var c := old(cases)[caseId];
        match Lookup(Allowed(c.status), status)
        case None =>
          && r == InvalidTransition("Invalid transition from '" + c.status.Name() + "' to '" + status + "'",
                                    Names(Allowed(c.status)))
          && unchanged(this`cases)
        case Some(t) =>
          && cases == old(cases)[caseId := Advance(c, t, notes, evidence, actor, now)]
          && r.Updated? && r.caseId == caseId && r.previousStatus == c.status.Name()
          && r.newStatus == status && r.updatedAt == now
          && r.notesAdded == notes.Some? && r.evidenceAdded == evidence.Some?
          && (t == Completed ==>
                r.resolutionTime == Some(now - c.createdAt)
                && r.slaMet == Some(now - c.createdAt <= c.slaHours * 3600))
          && (t != Completed ==> r.resolutionTime.None? && r.slaMet.None?)
      ensures unchanged(this`caseOrder, this`caseCounter)
      ensures unchanged(this`reportCounter, this`evidenceCounter, this`deliveryCounter)
      ensures unchanged(this`reports, this`reportOrder, this`packages, this`packageOrder)
    {
      if caseId !in cases {
        return NotFound("Case " + caseId + " not found");
      }
      var c := cases[caseId];
      var previous := c.status;
      var target := Lookup(Allowed(previous), status);
      if target.None? {
        return InvalidTransition("Invalid transition from '" + previous.Name() + "' to '" + status + "'",
                                 Names(Allowed(previous)));
      }
      var updated := Advance(c, target.value, notes, evidence, actor, now);
      CaseTableUpdate(cases, caseOrder, caseCounter, caseId, updated);
      cases := cases[caseId := updated];
      var completed := target.value == Completed;
      r := Updated(caseId, previous.Name(), status, now, notes.Some?, evidence.Some?,
                   if completed then updated.resolutionTime else None,
                   if completed then updated.slaMet else None);
    }

    /** `get_grc_case` */
    function GetGrcCase(caseId: string): (r: Option<Case>)
      reads this
      ensures r.Some? <==> caseId in cases
      ensures r.Some? ==> r.value == cases[caseId]
    {
      if caseId in cases then Some(cases[caseId]) else None
    }

    /** `list_grc_cases` */
    function ListGrcCases(status: Option<string>, priority: Option<string>, assignedTo: Option<string>)
      : (r: seq<Case>)
      reads this
      requires Valid()
      ensures forall c :: c in r <==>
        c in CaseList() && StatusFilter(c, status) && PriorityFilter(c, priority) && AssigneeFilter(c, assignedTo)
      ensures multiset(r) == multiset(Selected(CaseList(), status, priority, assignedTo))
      ensures forall i, j :: 0 <= i < j < |r| ==> r[i].createdAt >= r[j].createdAt
      ensures forall t: int :: WithKey(r, CaseDescending, t) == WithKey(Selected(CaseList(), status, priority, assignedTo), CaseDescending, t)
    {
      SelectCases(CaseList(), status, priority, assignedTo)
    }

    /** `get_remediation_summary` */
    method GetRemediationSummary(now: nat) returns (s: RemediationSummary)
      requires Valid()
      ensures s.totalCases == |CaseList()|
      ensures s.byStatus == Tally(StatusNames(CaseList()))
      ensures s.byPriority == Tally(PriorityNames(CaseList()))
      ensures s.overdue == Count(CaseList(), Overdue(now))
    {
      s := Summarize(CaseList(), now);
    }

    /**
     * `get_report`: a report first, then an evidence package, under the ID.
     * A stored report is a non-empty dict, so the `or` never skips one.
     */
    function GetReport(reportId: string): (r: Option<Item>)
      reads this
      ensures reportId in reports ==> r == Some(ReportItem(reports[reportId]))
      ensures reportId !in reports && reportId in packages ==> r == Some(PackageItem(packages[reportId]))
      ensures r.None? <==> reportId !in reports && reportId !in packages
    {
      if reportId in reports then Some(ReportItem(reports[reportId]))
      else if reportId in packages then Some(PackageItem(packages[reportId]))
      else None
    }

    /** The reports `list_reports` selects, in dict order. */
    function ReportCandidates(framework: Option<string>, reportType: string): seq<Item>
      reads this
      requires Valid()
    {
      if reportType in ["reports", "all"] then
        var rs := if Truthy(framework) then Filter(ReportList(), (x: Report) => x.framework == framework.value)
                  else ReportList();
        ReportItems(rs)
      else []
    }

    /** The packages `list_reports` selects, in dict order. */
    function PackageCandidates(framework: Option<string>, reportType: string): seq<Item>
      reads this
      requires Valid()
    {
      if reportType in ["evidence", "all"] then
        var ps := if Truthy(framework) then Filter(PackageList(), (p: Package) => IsSubstring(Lower(framework.value), p.scope))
                  else PackageList();
        PackageItems(ps)
      else []
    }

    /** `list_reports` */
    function ListReports(framework: Option<string>, reportType: string): (r: seq<Item>)
      reads this
      requires Valid()
      ensures multiset(r) == multiset(ReportCandidates(framework, reportType) + PackageCandidates(framework, reportType))
      ensures forall i, j :: 0 <= i < j < |r| ==> ItemKey(r[i]) >= ItemKey(r[j])
      ensures forall i, j :: 0 <= i < j < |r| && r[i].ReportItem? ==> r[j].ReportItem?
      ensures var all := ReportCandidates(framework, reportType) + PackageCandidates(framework, reportType);
        forall t: int :: WithKey(r, Descending, t) == WithKey(all, Descending, t)
      ensures reportType !in ["reports", "evidence", "all"] ==> r == []
    {
      SortItems(ReportCandidates(framework, reportType) + PackageCandidates(framework, reportType))
    }

    /**
     * `generate_regulatory_report`: an unknown framework is refused;
     * otherwise the report is stored under its quarter-and-framework ID,
     * replacing in place a report generated earlier under the same ID.
     */
    method GenerateRegulatoryReport(framework: string, region: Option<string>, month: nat,
                                    alerts: seq<Alert>, now: nat) returns (r: Result<Report>)
      requires Valid()
      requires 1 <= month <= 12
      modifies this
      ensures Valid()
      ensures Template(framework).None? ==>
        r == Err("Unknown framework: " + framework + ". Supported: " + SupportedFrameworks)
        && unchanged(this`reports, this`reportOrder)
      ensures Template(framework).Some? ==>
        var rep := MakeReport(framework, Template(framework).value, region, month, alerts, now);
        && r == Ok(rep)
        && reports == old(reports)[rep.reportId := rep]
        && reportOrder == (if rep.reportId in old(reports) then old(reportOrder) else old(reportOrder) + [rep.reportId])
      ensures unchanged(this`cases, this`caseOrder, this`caseCounter)
      ensures unchanged(this`reportCounter, this`evidenceCounter, this`deliveryCounter)
      ensures unchanged(this`packages, this`packageOrder)
    {
      var t := Template(framework);
      if t.None? {
        return Err("Unknown framework: " + framework + ". Supported: " + SupportedFrameworks);
      }
      var rep := MakeReport(framework, t.value, region, month, alerts, now);
      ReportTableInsert(reports, reportOrder, rep);
      if rep.reportId !in reports {
        reportOrder := reportOrder + [rep.reportId];
      }
      reports := reports[rep.reportId := rep];
      r := Ok(rep);
    }

    /**
     * `compile_evidence_package`: the package is filed under the ID of the
     * current evidence counter, which is fresh, and the counter moves on.
     */
    method CompileEvidencePackage(scope: string, entityId: Option<string>, alerts: seq<Alert>,
                                  entities: seq<EntityRef>, now: nat) returns (p: Package)
      requires Valid()
      modifies this
      ensures Valid()
      ensures p == MakePackage(old(evidenceCounter), scope, entityId, alerts, entities, now)
      ensures p.packageId !in old(packages)
      ensures evidenceCounter == old(evidenceCounter) + 1
      ensures packages == old(packages)[p.packageId := p] && packageOrder == old(packageOrder) + [p.packageId]
      ensures unchanged(this`cases, this`caseOrder, this`caseCounter)
      ensures unchanged(this`reportCounter, this`deliveryCounter)
      ensures unchanged(this`reports, this`reportOrder)
    {
      var n := evidenceCounter;
      p := MakePackage(n, scope, entityId, alerts, entities, now);
      PackageTableInsert(packages, packageOrder, n, p);
      evidenceCounter := evidenceCounter + 1;
      packages := packages[p.packageId := p];
      packageOrder := packageOrder + [p.packageId];
    }
  }

  /** The package `compile_evidence_package` stores as number n. */
  function MakePackage(n: nat, scope: string, entityId: Option<string>, alerts: seq<Alert>,
                       entities: seq<EntityRef>, now: nat): (p: Package)
    ensures p.packageId == PackageId(n) && p.scope == scope && p.createdAt == now
    ensures var sel := ScopeSelection(scope, entityId, alerts, entities);
      && p.violations == CountViolations(sel.0) && p.entitiesCovered == |sel.1| && p.scopeLabel == sel.2
    ensures p.sizeBytes == 2456789 + p.violations.total * 1000 && p.contents == PackageContents
  {
    var sel := ScopeSelection(scope, entityId, alerts, entities);
    var v := CountViolations(sel.0);
    Package(PackageId(n), now, scope, sel.2, v, |sel.1|, PackageContents, 2456789 + v.total * 1000)
  }

  function ReportItems(rs: seq<Report>): (r: seq<Item>)
    ensures |r| == |rs| && forall i :: 0 <= i < |rs| ==> r[i] == ReportItem(rs[i])
  {
    if rs == [] then [] else [ReportItem(rs[0])] + ReportItems(rs[1..])
  }

  function PackageItems(ps: seq<Package>): (r: seq<Item>)
    ensures |r| == |ps| && forall i :: 0 <= i < |ps| ==> r[i] == PackageItem(ps[i])
  {
    if ps == [] then [] else [PackageItem(ps[0])] + PackageItems(ps[1..])
  }
}
