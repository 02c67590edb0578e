/**
 * The priority matrix: issues bucketed into a grid of criticality by due
 * window, with summary counts that agree with the grid.
 *
 * The source builds the nested dictionary `matrix[severity][due]` and appends
 * each issue to its cell in a loop; the model does the same on a map of maps.
 * The grid is built for any list of issues, and the built-in sample list is a
 * constant.
 */
module PriorityMatrix {
  import opened Common

  datatype Severity = Critical | High | Medium | Low {
    function Name(): string {
      match this
      case Critical => "critical"
      case High => "high"
      case Medium => "medium"
      case Low => "low"
    }
  }

  datatype Due = Overdue | ThisWeek | ThisMonth | Later {
    function Name(): string {
      match this
      case Overdue => "overdue"
      case ThisWeek => "this_week"
      case ThisMonth => "this_month"
      case Later => "later"
    }
  }

  datatype Issue = Issue(id: string, title: string, entity: Option<string>, severity: Severity, due: Due, dueDate: string)

  type Matrix = map<Severity, map<Due, seq<Issue>>>

  /** Every criticality row holds every due-window cell. */
  predicate Complete(m: Matrix) {
    forall s: Severity :: s in m && forall d: Due :: d in m[s]
  }

  function EmptyRow(): map<Due, seq<Issue>> {
    map[Overdue := [], ThisWeek := [], ThisMonth := [], Later := []]
  }

  function EmptyMatrix(): Matrix {
    map[Critical := EmptyRow(), High := EmptyRow(), Medium := EmptyRow(), Low := EmptyRow()]
  }

  lemma EmptyMatrixComplete()
    ensures Complete(EmptyMatrix())
    ensures forall s: Severity, d: Due :: EmptyMatrix()[s][d] == []
  {
    forall s: Severity ensures s in EmptyMatrix() && EmptyMatrix()[s] == EmptyRow() {
      match s
      case Critical =>
      case High =>
      case Medium =>
      case Low =>
    }
    forall d: Due ensures d in EmptyRow() && EmptyRow()[d] == [] {
      match d
      case Overdue =>
      case ThisWeek =>
      case ThisMonth =>
      case Later =>
    }
  }

  predicate InCellOf(s: Severity, d: Due, issue: Issue) {
    issue.severity == s && issue.due == d
  }

  function InCell(s: Severity, d: Due): Issue -> bool {
    (issue: Issue) => InCellOf(s, d, issue)
  }

  /** The issues of one cell, in input order. */
  function Cell(issues: seq<Issue>, s: Severity, d: Due): seq<Issue> {
    Filter(issues, InCell(s, d))
  }

  /**
   * The loop that populates the matrix: each issue appended to the cell of
   * its criticality and due window.
   */
  method Populate(issues: seq<Issue>) returns (m: Matrix)
    ensures Complete(m)
    ensures forall s: Severity, d: Due :: m[s][d] == Cell(issues, s, d)
  {
    m := EmptyMatrix();
    EmptyMatrixComplete();
    for i := 0 to |issues|
      invariant Complete(m)
      invariant forall s: Severity, d: Due :: m[s][d] == Cell(issues[..i], s, d)
    {
      var issue := issues[i];
      var severity := issue.severity;
      var due := issue.due;
      forall s: Severity, d: Due
        ensures Cell(issues[..i + 1], s, d) == Cell(issues[..i], s, d) + (if InCellOf(s, d, issue) then [issue] else [])
      {
        assert issues[..i + 1] == issues[..i] + [issue];
        FilterAppend(issues[..i], [issue], InCell(s, d));
        assert [issue][1..] == [];
      }
      m := m[severity := m[severity][due := m[severity][due] + [issue]]];
    }
    assert issues[..|issues|] == issues;
  }

  /** Each issue lands in exactly one cell: that of its own criticality and due window. */
  lemma OneCellEach(issues: seq<Issue>, issue: Issue, s: Severity, d: Due)
    requires issue in issues
    ensures issue in Cell(issues, s, d) <==> s == issue.severity && d == issue.due
  {
    if s == issue.severity && d == issue.due {
      FilterMember(issues, InCell(s, d), issue);
    }
  }

  function RowSize(issues: seq<Issue>, s: Severity): nat {
    |Cell(issues, s, Overdue)| + |Cell(issues, s, ThisWeek)| + |Cell(issues, s, ThisMonth)| + |Cell(issues, s, Later)|
  }

  function GridSize(issues: seq<Issue>): nat {
    RowSize(issues, Critical) + RowSize(issues, High) + RowSize(issues, Medium) + RowSize(issues, Low)
  }

  lemma CellCons(issues: seq<Issue>, s: Severity, d: Due)
    requires issues != []
    ensures |Cell(issues, s, d)| == (if InCellOf(s, d, issues[0]) then 1 else 0) + |Cell(issues[1..], s, d)|
  {
  }

  lemma RowCons(issues: seq<Issue>, s: Severity)
    requires issues != []
    ensures RowSize(issues, s) == (if issues[0].severity == s then 1 else 0) + RowSize(issues[1..], s)
  {
    CellCons(issues, s, Overdue);
    CellCons(issues, s, ThisWeek);
    CellCons(issues, s, ThisMonth);
    CellCons(issues, s, Later);
  }

  /** The sixteen cells together hold every issue once. */
  lemma {:induction false} GridSizeIsTotal(issues: seq<Issue>)
    ensures GridSize(issues) == |issues|
  {
    if issues != [] {
      GridSizeIsTotal(issues[1..]);
      RowCons(issues, Critical);
      RowCons(issues, High);
      RowCons(issues, Medium);
      RowCons(issues, Low);
    }
  }

  /** The summary's predicates over single issues. */
  predicate IsOverdue(issue: Issue) {
    issue.due == Overdue
  }

  predicate NeedsAttention(issue: Issue) {
    (issue.due == Overdue || issue.due == ThisWeek) && (issue.severity == Critical || issue.severity == High)
  }

  /** The overdue count is the size of the overdue column. */
  lemma {:induction false} OverdueIsColumn(issues: seq<Issue>)
    ensures Count(issues, IsOverdue) ==
      |Cell(issues, Critical, Overdue)| + |Cell(issues, High, Overdue)|
      + |Cell(issues, Medium, Overdue)| + |Cell(issues, Low, Overdue)|
  {
    if issues != [] {
      OverdueIsColumn(issues[1..]);
    }
  }

  /** The issues needing attention are those of the four critical and high, overdue and this-week cells. */
  lemma {:induction false} AttentionIsCorner(issues: seq<Issue>)
    ensures Count(issues, NeedsAttention) ==
      |Cell(issues, Critical, Overdue)| + |Cell(issues, Critical, ThisWeek)|
      + |Cell(issues, High, Overdue)| + |Cell(issues, High, ThisWeek)|
  {
    if issues != [] {
      AttentionIsCorner(issues[1..]);
    }
  }

  datatype Summary = Summary(totalIssues: nat, overdue: nat, criticalOverdue: nat, needsAttention: nat)

  /**
   * `get_priority_matrix` over a list of issues: the grid and its summary.
   * The summary agrees with the grid: the cells hold every issue once, the
   * overdue count is its column, and those needing attention are its corner.
   */
  method BuildPriorityMatrix(issues: seq<Issue>) returns (m: Matrix, summary: Summary)
    ensures Complete(m)
    ensures forall s: Severity, d: Due :: m[s][d] == Cell(issues, s, d)
    ensures summary.totalIssues == |issues| == GridSize(issues)
    ensures summary.overdue == Count(issues, IsOverdue)
      == |m[Critical][Overdue]| + |m[High][Overdue]| + |m[Medium][Overdue]| + |m[Low][Overdue]|
    ensures summary.criticalOverdue == |m[Critical][Overdue]|
    ensures summary.needsAttention == Count(issues, NeedsAttention)
      == |m[Critical][Overdue]| + |m[Critical][ThisWeek]| + |m[High][Overdue]| + |m[High][ThisWeek]|
    ensures summary.needsAttention <= summary.totalIssues
  {
    m := Populate(issues);
    GridSizeIsTotal(issues);
    OverdueIsColumn(issues);
    AttentionIsCorner(issues);
    summary := Summary(|issues|, Count(issues, IsOverdue), |m[Critical][Overdue]|, Count(issues, NeedsAttention));
  }

  /** The built-in sample issues. */
  const SampleIssues: seq<Issue> := [
    Issue("ALT-001", "Transaction anomaly", Some("MID-4521"), Critical, Overdue, "2026-01-03"),
    Issue("ALT-002", "PAN in settlement log", Some("MID-4521"), Critical, ThisWeek, "2026-01-08"),
    Issue("ALT-003", "Bank cert expiring", Some("BNK-1234"), High, ThisWeek, "2026-01-10"),
    Issue("ISS-001", "GDPR consent update", Some("BNK-5678"), High, ThisMonth, "2026-01-25"),
    Issue("ISS-002", "Vendor reassessment", Some("VND-456"), Medium, ThisMonth, "2026-01-20"),
    Issue("ISS-003", "Policy document update", None, Medium, Later, "2026-02-15"),
    Issue("ALT-004", "GDPR amendment review", None, Medium, ThisWeek, "2026-01-09"),
    Issue("ISS-004", "Training renewal", Some("BNK-9012"), Low, Later, "2026-03-01"),
    Issue("ISS-005", "Annual audit prep", None, Low, ThisMonth, "2026-01-28")]

  /** `get_priority_matrix()`: nine issues, one overdue (and critical), three needing attention. */
  method GetPriorityMatrix() returns (m: Matrix, summary: Summary)
    ensures Complete(m)
    ensures forall s: Severity, d: Due :: m[s][d] == Cell(SampleIssues, s, d)
    ensures summary == Summary(9, 1, 1, 3)
  {
    m, summary := BuildPriorityMatrix(SampleIssues);
    SampleSummary(summary);
  }

  /** The summary counts of the sample issues. */
  lemma SampleSummary(summary: Summary)
    requires summary.totalIssues == |SampleIssues|
    requires summary.overdue == Count(SampleIssues, IsOverdue)
    requires summary.criticalOverdue == |Cell(SampleIssues, Critical, Overdue)|
    requires summary.needsAttention == Count(SampleIssues, NeedsAttention)
    ensures summary == Summary(9, 1, 1, 3)
  {
    SampleOverdue();
    SampleAttention();
    SampleCriticalOverdue();
  }

  lemma SampleOverdue()
    ensures Count(SampleIssues, IsOverdue) == 1
  {
    SampleCount(IsOverdue, [0, 1, 1, 1, 1, 1, 1, 1, 1, 1]);
  }

  lemma SampleAttention()
    ensures Count(SampleIssues, NeedsAttention) == 3
  {
    SampleCount(NeedsAttention, [0, 1, 2, 3, 3, 3, 3, 3, 3, 3]);
  }

  lemma SampleCriticalOverdue()
    ensures |Cell(SampleIssues, Critical, Overdue)| == 1
  {
    SampleCount(InCell(Critical, Overdue), [0, 1, 1, 1, 1, 1, 1, 1, 1, 1]);
    CountIsFilterLength(SampleIssues, InCell(Critical, Overdue));
  }

  /** Counting over the sample issues, given the running count after each one. */
  lemma SampleCount(p: Issue -> bool, running: seq<nat>)
    requires |running| == 10 && running[0] == 0
    requires forall i :: 0 <= i < 9 ==> running[i + 1] == running[i] + (if p(SampleIssues[i]) then 1 else 0)
    ensures Count(SampleIssues, p) == running[9]
  {
    var s := SampleIssues;
    for i := 0 to 9
      invariant Count(s[..i], p) == running[i]
    {
      CountStep(s, i, p);
    }
    assert s[..9] == s;
  }
}
