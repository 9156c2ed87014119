/**
 * The estimate arithmetic of `src/lib/estimation-rules.ts`: complexity
 * multipliers, the fixed overhead rates and the breakdown pipeline.
 * The calculator works from the constants below, not from the settings record.
 */
module EstimationRules {
  import opened Rounding
  import opened Types

  /** Multiplier applied to a task's base hours. */
  function Multiplier(c: Complexity): (m: real)
    ensures 1.0 <= m <= 3.0
  {
    match c
    case Simple => 1.0
    case Medium => 1.5
    case Complex => 2.0
    case VeryComplex => 3.0
  }

  /** The order simple < medium < complex < very-complex. */
  function Rank(c: Complexity): nat {
    match c
    case Simple => 0
    case Medium => 1
    case Complex => 2
    case VeryComplex => 3
  }

  const CodeReviewRate: real := 0.15
  const TestingRate: real := 0.20
  const ProjectManagementRate: real := 0.10
  /** Hours in a working day, fixed in the calculator. */
  const HoursPerDay: real := 7.5
  /** The contingency percentage used when a caller supplies none. */
  const DefaultContingencyPercent: real := 15.0

  /** The [min, max] base-hour range the classifier is told to pick from, per category. */
  function BaseHoursRange(c: Category): (range: (real, real))
    ensures 0.0 < range.0 < range.1 <= 24.0
  {
    match c
    case Table => (2.0, 4.0)
    case TableExtension => (1.0, 3.0)
    case PageCard => (3.0, 6.0)
    case PageList => (3.0, 6.0)
    case PageExtension => (2.0, 4.0)
    case CodeunitSimple => (4.0, 8.0)
    case CodeunitComplex => (8.0, 20.0)
    case Report => (4.0, 12.0)
    case ApiIntegration => (8.0, 24.0)
    case DataMigration => (4.0, 16.0)
    case Enum => (0.5, 1.0)
    case PermissionSet => (1.0, 2.0)
    case EventSubscriber => (2.0, 4.0)
    case Workflow => (4.0, 12.0)
    case Notification => (2.0, 4.0)
    case Xmlport => (4.0, 8.0)
    case Query => (2.0, 4.0)
    case Configuration => (2.0, 4.0)
    case Testing => (2.0, 6.0)
    case Documentation => (1.0, 4.0)
    case Deployment => (2.0, 4.0)
  }

  /**
   * Adjusted hours of one task: the tenth nearest to base hours times the
   * complexity multiplier (ties rounded up).
   */
  function AdjustedHours(baseHours: real, complexity: Complexity): (r: real)
    ensures IsTenth(r)
    ensures baseHours * Multiplier(complexity) - 0.05 < r <= baseHours * Multiplier(complexity) + 0.05
    ensures 0.0 <= baseHours ==> 0.0 <= r
  {
    var r := Round1(baseHours * Multiplier(complexity));
    if 0.0 <= baseHours then Round1NonNegative(baseHours * Multiplier(complexity)); r else r
  }

  /** More base hours never give fewer adjusted hours. */
  lemma AdjustedHoursMonotone(b1: real, b2: real, c: Complexity)
    requires b1 <= b2
    ensures AdjustedHours(b1, c) <= AdjustedHours(b2, c)
  {
    Round1Monotone(b1 * Multiplier(c), b2 * Multiplier(c));
  }

  /** For non-negative base hours, a higher complexity never gives fewer adjusted hours. */
  lemma AdjustedHoursMonotoneInComplexity(b: real, c1: Complexity, c2: Complexity)
    requires 0.0 <= b
    requires Rank(c1) <= Rank(c2)
    ensures AdjustedHours(b, c1) <= AdjustedHours(b, c2)
  {
    assert Multiplier(c1) <= Multiplier(c2);
    assert b * Multiplier(c1) <= b * Multiplier(c2);
    Round1Monotone(b * Multiplier(c1), b * Multiplier(c2));
  }

  /** Four base hours at medium complexity are six adjusted hours. */
  lemma AdjustedHoursExample()
    ensures AdjustedHours(4.0, Medium) == 6.0
    ensures AdjustedHours(2.5, VeryComplex) == 7.5
    ensures AdjustedHours(0.33, Medium) == 0.5
  {
    Round1OfTenth(6.0);
    Round1OfTenth(7.5);
    Round1Unique(0.495, 0.5);
  }

  /** What the calculator reads from each task. */
  datatype TaskInput = TaskInput(baseHours: real, complexity: Complexity)

  /** All base hours are non-negative. */
  predicate NonNegativeBase(tasks: seq<TaskInput>) {
    forall i :: 0 <= i < |tasks| ==> 0.0 <= tasks[i].baseHours
  }

  /** The unrounded sum of per-task adjusted hours. */
  function RawSubtotal(tasks: seq<TaskInput>): (r: real)
    ensures IsTenth(r)
    ensures NonNegativeBase(tasks) ==> 0.0 <= r
  {
    if |tasks| == 0 then 0.0
    else
      var rest := RawSubtotal(tasks[..|tasks| - 1]);
      var last := AdjustedHours(tasks[|tasks| - 1].baseHours, tasks[|tasks| - 1].complexity);
      TenthSum(rest, last);
      assert NonNegativeBase(tasks) ==> NonNegativeBase(tasks[..|tasks| - 1]);
      rest + last
  }

  /** The seven hour figures of an estimate. */
  datatype Breakdown = Breakdown(
    subtotalHours: real,
    codeReviewHours: real,
    testingHours: real,
    projectManagementHours: real,
    contingencyHours: real,
    totalHours: real,
    totalDays: real)

  /** The sum of the parts that precede contingency. */
  function BeforeContingency(b: Breakdown): real {
    b.subtotalHours + b.codeReviewHours + b.testingHours + b.projectManagementHours
  }

  /** Every hour figure is a whole number of tenths. */
  predicate AllTenths(b: Breakdown) {
    && IsTenth(b.subtotalHours) && IsTenth(b.codeReviewHours) && IsTenth(b.testingHours)
    && IsTenth(b.projectManagementHours) && IsTenth(b.contingencyHours)
    && IsTenth(b.totalHours) && IsTenth(b.totalDays)
  }

  /**
   * The breakdown pipeline. Overheads are computed from the raw subtotal;
   * contingency from the raw subtotal plus the rounded overheads; days from
   * the rounded total at 7.5 hours a day.
   */
  function CalculateBreakdown(tasks: seq<TaskInput>, contingencyPercent: real): (b: Breakdown)
    ensures AllTenths(b)
    // Rounding the subtotal loses nothing: it is exactly the sum of the adjusted hours.
    ensures b.subtotalHours == RawSubtotal(tasks)
    // The total is exactly the sum of the five displayed parts.
    ensures b.totalHours == BeforeContingency(b) + b.contingencyHours
  {
    FromSubtotal(RawSubtotal(tasks), contingencyPercent)
  }

  /** The pipeline after the per-task sum, from the raw subtotal `raw`. */
  function FromSubtotal(raw: real, contingencyPercent: real): (b: Breakdown)
    requires IsTenth(raw)
    ensures AllTenths(b)
    ensures b.subtotalHours == raw
    ensures b.totalHours == BeforeContingency(b) + b.contingencyHours
  {
    var codeReview := Round1(raw * CodeReviewRate);
    var testing := Round1(raw * TestingRate);
    var pm := Round1(raw * ProjectManagementRate);
    var before := raw + codeReview + testing + pm;
    var contingency := ContingencyHours(before, contingencyPercent);
    TenthSum(raw, codeReview);
    TenthSum(raw + codeReview, testing);
    TenthSum(raw + codeReview + testing, pm);
    TenthSum(before, contingency);
    Round1OfTenth(before + contingency);
    var total := Round1(before + contingency);
    var days := Round1(total / HoursPerDay);
    Round1OfTenth(raw);
    Breakdown(Round1(raw), codeReview, testing, pm, contingency, total, days)
  }

  /** Contingency hours: the tenth nearest to `contingencyPercent` per cent of `before`. */
  function ContingencyHours(before: real, contingencyPercent: real): (r: real)
    ensures IsTenth(r)
    ensures before * contingencyPercent / 100.0 - 0.05 < r <= before * contingencyPercent / 100.0 + 0.05
    ensures 0.0 <= before && 0.0 <= contingencyPercent ==> 0.0 <= r
  {
    var x := before * (contingencyPercent / 100.0);
    if 0.0 <= before && 0.0 <= contingencyPercent then
      MulNonNegative(before, contingencyPercent / 100.0);
      Round1NonNegative(x);
      Round1(x)
    else
      Round1(x)
  }

  /** With no tasks, every figure is zero, whatever the contingency. */
  lemma EmptyBreakdownIsZero(contingencyPercent: real)
    ensures CalculateBreakdown([], contingencyPercent) == Breakdown(0.0, 0.0, 0.0, 0.0, 0.0, 0.0, 0.0)
  {
    assert RawSubtotal([]) == 0.0;
    ZeroSubtotalIsZero(contingencyPercent);
  }

  lemma ZeroSubtotalIsZero(contingencyPercent: real)
    ensures FromSubtotal(0.0, contingencyPercent) == Breakdown(0.0, 0.0, 0.0, 0.0, 0.0, 0.0, 0.0)
  {
    Round1OfTenth(0.0);
    assert ContingencyHours(0.0, contingencyPercent) == 0.0 by {
      Round1Unique(0.0 * (contingencyPercent / 100.0), 0.0);
    }
  }

  /** The three overheads are 15 %, 20 % and 10 % of the subtotal, each rounded to a tenth. */
  lemma OverheadsFromSubtotal(tasks: seq<TaskInput>, contingencyPercent: real)
    ensures var b := CalculateBreakdown(tasks, contingencyPercent);
      && b.codeReviewHours == Round1(b.subtotalHours * 0.15)
      && b.testingHours == Round1(b.subtotalHours * 0.20)
      && b.projectManagementHours == Round1(b.subtotalHours * 0.10)
  {
  }

  /** Contingency is the contingency percentage of subtotal plus the three overheads. */
  lemma ContingencyFromParts(tasks: seq<TaskInput>, contingencyPercent: real)
    ensures var b := CalculateBreakdown(tasks, contingencyPercent);
      b.contingencyHours == ContingencyHours(BeforeContingency(b), contingencyPercent)
  {
    ContingencyFromPartsOfSubtotal(RawSubtotal(tasks), contingencyPercent);
  }

  lemma ContingencyFromPartsOfSubtotal(raw: real, contingencyPercent: real)
    requires IsTenth(raw)
    ensures var b := FromSubtotal(raw, contingencyPercent);
      b.contingencyHours == ContingencyHours(BeforeContingency(b), contingencyPercent)
  {
  }

  /** Days are total hours over a 7.5-hour day, rounded to a tenth. */
  lemma DaysFromTotal(tasks: seq<TaskInput>, contingencyPercent: real)
    ensures var b := CalculateBreakdown(tasks, contingencyPercent);
      b.totalDays == Round1(b.totalHours / 7.5)
  {
  }

  /**
   * With non-negative base hours and contingency, every figure is non-negative
   * and the total is at least the subtotal.
   */
  lemma TotalAtLeastSubtotal(tasks: seq<TaskInput>, contingencyPercent: real)
    requires NonNegativeBase(tasks)
    requires 0.0 <= contingencyPercent
    ensures var b := CalculateBreakdown(tasks, contingencyPercent);
      && 0.0 <= b.codeReviewHours && 0.0 <= b.testingHours && 0.0 <= b.projectManagementHours
      && 0.0 <= b.contingencyHours && 0.0 <= b.totalDays
      && b.subtotalHours <= b.totalHours
  {
    NonNegativeFromSubtotal(RawSubtotal(tasks), contingencyPercent);
  }

  lemma NonNegativeFromSubtotal(raw: real, contingencyPercent: real)
    requires IsTenth(raw) && 0.0 <= raw
    requires 0.0 <= contingencyPercent
    ensures var b := FromSubtotal(raw, contingencyPercent);
      && 0.0 <= b.codeReviewHours && 0.0 <= b.testingHours && 0.0 <= b.projectManagementHours
      && 0.0 <= b.contingencyHours && 0.0 <= b.totalDays
      && b.subtotalHours <= b.totalHours
  {
    Round1NonNegative(raw * CodeReviewRate);
    Round1NonNegative(raw * TestingRate);
    Round1NonNegative(raw * ProjectManagementRate);
    var b := FromSubtotal(raw, contingencyPercent);
    assert 0.0 <= b.contingencyHours;
    Round1NonNegative(b.totalHours / HoursPerDay);
  }

  lemma MulNonNegative(a: real, b: real)
    requires 0.0 <= a && 0.0 <= b
    ensures 0.0 <= a * b
  {
  }

  /** One medium task of four base hours at the default 15 % contingency. */
  lemma BreakdownExample()
    ensures CalculateBreakdown([TaskInput(4.0, Medium)], DefaultContingencyPercent)
         == Breakdown(6.0, 0.9, 1.2, 0.6, 1.3, 10.0, 1.3)
  {
    AdjustedHoursExample();
    assert RawSubtotal([TaskInput(4.0, Medium)]) == 6.0;
    Round1OfTenth(0.9);
    Round1OfTenth(1.2);
    Round1OfTenth(0.6);
    Round1Unique(1.305, 1.3);
    Round1Unique(10.0 / 7.5, 1.3);
  }
}
