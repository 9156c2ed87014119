/**
 * The records shared by the estimator, the history store and the review screen
 * (`src/lib/types.ts`). Numbers are exact reals; timestamps are milliseconds.
 */
module Types {

  /** Milliseconds in a day: the unit of both record ages and the relative-time display. */
  const MsPerDay: int := 86400000

  /** The four complexity levels a task can be classified at. */
  datatype Complexity = Simple | Medium | Complex | VeryComplex

  /** The complexity string spelling used on the wire. */
  function ComplexityName(c: Complexity): string {
    match c
    case Simple => "simple"
    case Medium => "medium"
    case Complex => "complex"
    case VeryComplex => "very-complex"
  }

  /** The closed set of Business Central task categories. */
  datatype Category =
    | Table | TableExtension | PageCard | PageList | PageExtension
    | CodeunitSimple | CodeunitComplex | Report | ApiIntegration | DataMigration
    | Enum | PermissionSet | EventSubscriber | Workflow | Notification
    | Xmlport | Query | Configuration | Testing | Documentation | Deployment

  datatype Provider = Anthropic | Google

  /** The user-tunable settings record, stored alongside each saved quote. */
  datatype Settings = Settings(
    estimationStyle: real,
    developerExperience: real,
    taskGranularity: real,
    customPromptContext: string,
    codeReviewPercent: real,
    testingPercent: real,
    projectManagementPercent: real,
    contingencyPercent: real,
    hoursPerDay: real,
    hourlyRate: real,
    complexitySimple: real,
    complexityMedium: real,
    complexityComplex: real,
    complexityVeryComplex: real,
    globalMultiplier: real)

  const DefaultSettings := Settings(
    estimationStyle := 2.0,
    developerExperience := 2.0,
    taskGranularity := 2.0,
    customPromptContext := "",
    codeReviewPercent := 10.0,
    testingPercent := 10.0,
    projectManagementPercent := 5.0,
    contingencyPercent := 10.0,
    hoursPerDay := 7.5,
    hourlyRate := 0.0,
    complexitySimple := 1.0,
    complexityMedium := 1.3,
    complexityComplex := 1.6,
    complexityVeryComplex := 2.5,
    globalMultiplier := 1.0)

  /** One estimated task. `category` stays a string: the route casts it without checking. */
  datatype EstimationTask = EstimationTask(
    id: string,
    title: string,
    description: string,
    category: string,
    complexity: Complexity,
    baseHours: real,
    adjustedHours: real,
    dependencies: seq<string>,
    notes: string)

  /** A full estimate: the tasks, the seven hour figures and the classifier's commentary. */
  datatype EstimationBreakdown = EstimationBreakdown(
    tasks: seq<EstimationTask>,
    subtotalHours: real,
    codeReviewHours: real,
    testingHours: real,
    projectManagementHours: real,
    contingencyHours: real,
    totalHours: real,
    totalDays: real,
    confidence: string,
    assumptions: seq<string>,
    risks: seq<string>)

  datatype QuoteResponse = QuoteResponse(
    breakdown: EstimationBreakdown,
    rawAnalysis: string,
    provider: Provider,
    createdAt: int)

  /**
   * A finding's severity. The review route checks only that the findings form
   * an array, so a reply may carry any other string: `OtherSeverity` stands
   * for such a string, one that is none of the three known spellings.
   */
  datatype Severity = Critical | Warning | Info | OtherSeverity(name: string)

  /** A finding's category; `OtherCategory` stands for any unknown string, as above. */
  datatype FindingCategory = Issue | Missing | BcSpecific | Suggestion | OtherCategory(name: string)

  datatype Finding = Finding(
    severity: Severity,
    category: FindingCategory,
    title: string,
    description: string)

  /** The result of a specification review. */
  datatype SpecReviewResult = SpecReviewResult(
    qualityScore: real,
    summary: string,
    findings: seq<Finding>,
    provider: Provider,
    createdAt: int)
}
