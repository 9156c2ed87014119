/**
 * `buildEstimation` of `src/app/api/estimate/route.ts`: maps the classifier's
 * task list onto the estimate arithmetic and fills in defaults for the
 * optional parts of the classifier's answer.
 */
module EstimateRoute {
  import opened Options
  import opened Rounding
  import opened Types
  import opened EstimationRules

  /** One task as the classifier returns it; optional fields may be absent. */
  datatype ClassifiedTask = ClassifiedTask(
    id: string,
    title: string,
    description: string,
    category: string,
    complexity: string,
    baseHours: real,
    dependencies: Option<seq<string>>,
    notes: Option<string>)

  /** The classifier's whole answer. */
  datatype ClassifierResponse = ClassifierResponse(
    tasks: seq<ClassifiedTask>,
    confidence: Option<string>,
    assumptions: Option<seq<string>>,
    risks: Option<seq<string>>)

  /** Reads a complexity string; only the four wire spellings are known. */
  function ParseComplexity(s: string): (r: Option<Complexity>)
    ensures r.Some? ==> ComplexityName(r.value) == s
    ensures r.None? ==> forall c: Complexity :: ComplexityName(c) != s
  {
    if s == "simple" then Some(Simple)
    else if s == "medium" then Some(Medium)
    else if s == "complex" then Some(Complex)
    else if s == "very-complex" then Some(VeryComplex)
    else None
  }

  /** Every task carries one of the four known complexity strings. */
  predicate KnownComplexities(tasks: seq<ClassifiedTask>) {
    forall i :: 0 <= i < |tasks| ==> ParseComplexity(tasks[i].complexity).Some?
  }

  /** The route's contingency: the request's value, or 15 when the request has none. */
  function RequestContingency(requested: Option<real>): (p: real)
    ensures requested.None? ==> p == 15.0
    ensures requested.Some? ==> p == requested.value
  {
    requested.GetOr(DefaultContingencyPercent)
  }

  /** JavaScript's `confidence || "medium"`: absent and empty both fall back. */
  function ConfidenceOrDefault(confidence: Option<string>): (r: string)
    ensures r == "medium" <==> confidence.None? || confidence.value == "" || confidence.value == "medium"
    ensures confidence.Some? && confidence.value != "" ==> r == confidence.value
  {
    if confidence.Some? && confidence.value != "" then confidence.value else "medium"
  }

  /** One classifier task as an estimated task. */
  function ToEstimationTask(t: ClassifiedTask): (e: EstimationTask)
    requires ParseComplexity(t.complexity).Some?
  {
    var c := ParseComplexity(t.complexity).value;
    EstimationTask(
      id := t.id,
      title := t.title,
      description := t.description,
      category := t.category,
      complexity := c,
      baseHours := t.baseHours,
      adjustedHours := AdjustedHours(t.baseHours, c),
      dependencies := t.dependencies.GetOr([]),
      notes := t.notes.GetOr(""))
  }

  /** What the calculator is given for each estimated task. */
  function Inputs(tasks: seq<EstimationTask>): (r: seq<TaskInput>)
    ensures |r| == |tasks|
    ensures forall i :: 0 <= i < |tasks| ==>
      r[i].baseHours == tasks[i].baseHours && r[i].complexity == tasks[i].complexity
  {
    seq(|tasks|, i requires 0 <= i < |tasks| => TaskInput(tasks[i].baseHours, tasks[i].complexity))
  }

  /** The sum of the adjusted hours shown next to each task. */
  function SumAdjusted(tasks: seq<EstimationTask>): real {
    if |tasks| == 0 then 0.0
    else SumAdjusted(tasks[..|tasks| - 1]) + tasks[|tasks| - 1].adjustedHours
  }

  /** Each task's adjusted hours are the ones its base hours and complexity give. */
  predicate AdjustedConsistently(tasks: seq<EstimationTask>) {
    forall i :: 0 <= i < |tasks| ==>
      tasks[i].adjustedHours == AdjustedHours(tasks[i].baseHours, tasks[i].complexity)
  }

  /** The calculator's subtotal is the sum of the adjusted hours the tasks display. */
  lemma {:induction false} SubtotalIsSumOfTasks(tasks: seq<EstimationTask>)
    requires AdjustedConsistently(tasks)
    ensures RawSubtotal(Inputs(tasks)) == SumAdjusted(tasks)
    decreases |tasks|
  {
    if |tasks| > 0 {
      var front := tasks[..|tasks| - 1];
      assert Inputs(tasks)[..|tasks| - 1] == Inputs(front);
      SubtotalIsSumOfTasks(front);
    }
  }

  /** The estimate for a classifier answer with the given contingency percentage. */
  function BuildEstimation(ai: ClassifierResponse, contingencyPercent: real): (r: EstimationBreakdown)
    requires KnownComplexities(ai.tasks)
    // Same tasks, same order, each carried over field by field.
    ensures |r.tasks| == |ai.tasks|
    ensures forall i :: 0 <= i < |ai.tasks| ==>
      var t, e := ai.tasks[i], r.tasks[i];
      && e.id == t.id && e.title == t.title && e.description == t.description
      && e.category == t.category && e.baseHours == t.baseHours
      && ComplexityName(e.complexity) == t.complexity
      && e.dependencies == (if t.dependencies.Some? then t.dependencies.value else [])
      && e.notes == (if t.notes.Some? then t.notes.value else "")
    ensures AdjustedConsistently(r.tasks)
    // The hour figures are the calculator's over the same tasks.
    ensures var b := CalculateBreakdown(Inputs(r.tasks), contingencyPercent);
      && r.subtotalHours == b.subtotalHours && r.codeReviewHours == b.codeReviewHours
      && r.testingHours == b.testingHours && r.projectManagementHours == b.projectManagementHours
      && r.contingencyHours == b.contingencyHours && r.totalHours == b.totalHours
      && r.totalDays == b.totalDays
    ensures r.subtotalHours == SumAdjusted(r.tasks)
    ensures r.confidence == ConfidenceOrDefault(ai.confidence)
    ensures r.assumptions == (if ai.assumptions.Some? then ai.assumptions.value else [])
    ensures r.risks == (if ai.risks.Some? then ai.risks.value else [])
  {
    var tasks := seq(|ai.tasks|, i requires 0 <= i < |ai.tasks| => ToEstimationTask(ai.tasks[i]));
    var b := CalculateBreakdown(Inputs(tasks), contingencyPercent);
    SubtotalIsSumOfTasks(tasks);
    EstimationBreakdown(
      tasks := tasks,
      subtotalHours := b.subtotalHours,
      codeReviewHours := b.codeReviewHours,
      testingHours := b.testingHours,
      projectManagementHours := b.projectManagementHours,
      contingencyHours := b.contingencyHours,
      totalHours := b.totalHours,
      totalDays := b.totalDays,
      confidence := ConfidenceOrDefault(ai.confidence),
      assumptions := ai.assumptions.GetOr([]),
      risks := ai.risks.GetOr([]))
  }

  /** With non-negative base hours and contingency, the estimate's total is at least its subtotal. */
  lemma EstimateTotalAtLeastSubtotal(ai: ClassifierResponse, contingencyPercent: real)
    requires KnownComplexities(ai.tasks)
    requires forall i :: 0 <= i < |ai.tasks| ==> 0.0 <= ai.tasks[i].baseHours
    requires 0.0 <= contingencyPercent
    ensures var r := BuildEstimation(ai, contingencyPercent);
      r.subtotalHours <= r.totalHours
  {
    var r := BuildEstimation(ai, contingencyPercent);
    assert NonNegativeBase(Inputs(r.tasks));
    TotalAtLeastSubtotal(Inputs(r.tasks), contingencyPercent);
  }
}
