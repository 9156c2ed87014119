/**
 * The pure helpers of the review screen (`src/components/review-results.tsx`):
 * the score's colour, background and label, the per-severity counts, and the
 * findings grouped by category in a fixed order, most severe first.
 */
module ReviewResults {
  import opened Types
  import opened Filters
  import opened StableSort

  // ---------------------------------------------------------------- score

  /** The three tones a score can be shown in. */
  datatype Tone = Success | Caution | Danger

  /** The tone thresholds shared by the colour and the background: 8 and 5. */
  function ScoreTone(score: real): Tone {
    if score >= 8.0 then Success else if score >= 5.0 then Caution else Danger
  }

  function ToneText(t: Tone): string {
    match t
    case Success => "text-success"
    case Caution => "text-warning"
    case Danger => "text-danger"
  }

  function ToneBackground(t: Tone): string {
    match t
    case Success => "bg-success/10 border-success/20"
    case Caution => "bg-warning/10 border-warning/20"
    case Danger => "bg-danger/10 border-danger/20"
  }

  /** The text colour class for a quality score. */
  function ScoreColor(score: real): (c: string)
    ensures c == "text-success" <==> score >= 8.0
    ensures c == "text-warning" <==> 5.0 <= score < 8.0
    ensures c == "text-danger" <==> score < 5.0
  {
    if score >= 8.0 then "text-success"
    else if score >= 5.0 then "text-warning"
    else "text-danger"
  }

  /** The background class for a quality score. */
  function ScoreBackground(score: real): (c: string)
    ensures c == "bg-success/10 border-success/20" <==> score >= 8.0
    ensures c == "bg-warning/10 border-warning/20" <==> 5.0 <= score < 8.0
    ensures c == "bg-danger/10 border-danger/20" <==> score < 5.0
  {
    if score >= 8.0 then "bg-success/10 border-success/20"
    else if score >= 5.0 then "bg-warning/10 border-warning/20"
    else "bg-danger/10 border-danger/20"
  }

  /** The colour and the background always show the same tone. */
  lemma ColorMatchesBackground(score: real)
    ensures ScoreColor(score) == ToneText(ScoreTone(score))
    ensures ScoreBackground(score) == ToneBackground(ScoreTone(score))
  {
  }

  /** The verdict for a quality score. */
  function ScoreLabel(score: real): (l: string)
    ensures l == "Exceptional" <==> score >= 9.0
    ensures l == "Good" <==> 7.0 <= score < 9.0
    ensures l == "Needs Work" <==> 5.0 <= score < 7.0
    ensures l == "Significant Gaps" <==> 3.0 <= score < 5.0
    ensures l == "Too Vague" <==> score < 3.0
  {
    if score >= 9.0 then "Exceptional"
    else if score >= 7.0 then "Good"
    else if score >= 5.0 then "Needs Work"
    else if score >= 3.0 then "Significant Gaps"
    else "Too Vague"
  }

  /** The position of a label from worst to best. */
  function LabelRank(l: string): int {
    if l == "Too Vague" then 0
    else if l == "Significant Gaps" then 1
    else if l == "Needs Work" then 2
    else if l == "Good" then 3
    else 4
  }

  /** A higher score never earns a worse label, nor a worse tone. */
  lemma LabelMonotone(lower: real, higher: real)
    requires lower <= higher
    ensures LabelRank(ScoreLabel(lower)) <= LabelRank(ScoreLabel(higher))
    ensures ScoreTone(higher) == Danger ==> ScoreTone(lower) == Danger
    ensures ScoreTone(lower) == Success ==> ScoreTone(higher) == Success
  {
  }

  // ---------------------------------------------------------------- severity counts

  function HasSeverity(s: Severity): Finding -> bool {
    (f: Finding) => f.severity == s
  }

  datatype SeverityCounts = SeverityCounts(critical: nat, warning: nat, info: nat)

  /** How many findings there are of each severity. */
  function CountSeverities(findings: seq<Finding>): (r: SeverityCounts)
    ensures r.critical == Count(findings, HasSeverity(Critical))
    ensures r.warning == Count(findings, HasSeverity(Warning))
    ensures r.info == Count(findings, HasSeverity(Info))
  {
    FilterLength(findings, HasSeverity(Critical));
    FilterLength(findings, HasSeverity(Warning));
    FilterLength(findings, HasSeverity(Info));
    SeverityCounts(
      |Filter(findings, HasSeverity(Critical))|,
      |Filter(findings, HasSeverity(Warning))|,
      |Filter(findings, HasSeverity(Info))|)
  }

  function HasUnknownSeverity(): Finding -> bool {
    (f: Finding) => f.severity.OtherSeverity?
  }

  /**
   * Every finding with a known severity is counted exactly once, and one with
   * an unknown severity in no count; so when every severity is known the
   * counts add up to the number of findings.
   */
  lemma {:induction false} CountsCoverAll(findings: seq<Finding>)
    ensures var c := CountSeverities(findings);
      c.critical + c.warning + c.info + Count(findings, HasUnknownSeverity()) == |findings|
    ensures (forall f :: f in findings ==> !f.severity.OtherSeverity?) ==>
      var c := CountSeverities(findings);
      c.critical + c.warning + c.info == |findings|
    decreases |findings|
  {
    if |findings| > 0 {
      CountsCoverAll(findings[1..]);
    }
    var unknown := Filter(findings, HasUnknownSeverity());
    FilterLength(findings, HasUnknownSeverity());
    if |unknown| > 0 {
      assert unknown[0] in unknown;
    }
  }

  // ---------------------------------------------------------------- grouping

  /** The order of severities within a group. */
  const SeverityOrder: seq<Severity> := [Critical, Warning, Info]

  /**
   * The position of a severity in `SeverityOrder`: the comparator's `indexOf`,
   * which is -1 for an unknown severity, so that one sorts before critical.
   */
  function SeverityRank(s: Severity): (r: int)
    ensures s in SeverityOrder ==> 0 <= r < |SeverityOrder| && SeverityOrder[r] == s
    ensures s !in SeverityOrder ==> r == -1
  {
    match s
    case Critical => 0
    case Warning => 1
    case Info => 2
    case OtherSeverity(_) => -1
  }

  function FindingRank(f: Finding): int {
    SeverityRank(f.severity)
  }

  /** The order the groups are shown in. */
  const CategoryOrder: seq<FindingCategory> := [Issue, Missing, BcSpecific, Suggestion]

  /** The position of a category in `CategoryOrder`; -1 for an unknown one, which gets no group. */
  function CategoryRank(c: FindingCategory): (r: int)
    ensures c in CategoryOrder ==> 0 <= r < |CategoryOrder| && CategoryOrder[r] == c
    ensures c !in CategoryOrder ==> r == -1
  {
    match c
    case Issue => 0
    case Missing => 1
    case BcSpecific => 2
    case Suggestion => 3
    case OtherCategory(_) => -1
  }

  function InCategory(c: FindingCategory): Finding -> bool {
    (f: Finding) => f.category == c
  }

  datatype Group = Group(category: FindingCategory, findings: seq<Finding>)

  /** One category's findings, most severe first, ties in input order. */
  function GroupOf(findings: seq<Finding>, c: FindingCategory): Group {
    Group(c, SortByKey(Filter(findings, InCategory(c)), FindingRank))
  }

  function NonEmpty(g: Group): bool {
    |g.findings| > 0
  }

  /** Categories strictly follow `CategoryOrder`, so each appears at most once. */
  predicate InCategoryOrder(groups: seq<Group>) {
    forall i, j :: 0 <= i < j < |groups| ==> CategoryRank(groups[i].category) < CategoryRank(groups[j].category)
  }

  /** The groups in category order, empty ones dropped. */
  function CategorizedFindings(findings: seq<Finding>): (r: seq<Group>)
    ensures InCategoryOrder(r)
    ensures forall g :: g in r ==>
      && g.category in CategoryOrder
      && |g.findings| > 0
      && g == GroupOf(findings, g.category)
  {
    var all := seq(|CategoryOrder|, i requires 0 <= i < |CategoryOrder| => GroupOf(findings, CategoryOrder[i]));
    assert forall i :: 0 <= i < |all| ==> CategoryRank(all[i].category) == i;
    var r := Filter(all, NonEmpty);
    FilterOrdered(all, NonEmpty);
    r
  }

  /** Filtering a list whose categories strictly increase keeps them strictly increasing. */
  lemma {:induction false} FilterOrdered(groups: seq<Group>, keep: Group -> bool)
    requires InCategoryOrder(groups)
    ensures InCategoryOrder(Filter(groups, keep))
    decreases |groups|
  {
    if |groups| > 0 {
      var front := groups[..|groups| - 1];
      var g := groups[|groups| - 1];
      assert InCategoryOrder(front);
      FilterOrdered(front, keep);
      var f := Filter(front, keep);
      if keep(g) {
        var r := f + [g];
        assert Filter(groups, keep) == r;
        forall i, j | 0 <= i < j < |r|
          ensures CategoryRank(r[i].category) < CategoryRank(r[j].category)
        {
          if j < |f| {
            assert r[i] == f[i] && r[j] == f[j];
          } else {
            assert r[i] == f[i] && r[j] == g;
            assert f[i] in front;
            var k :| 0 <= k < |front| && front[k] == f[i];
            assert groups[k] == f[i] && groups[|groups| - 1] == g;
          }
        }
      } else {
        assert Filter(groups, keep) == f;
      }
    }
  }

  /**
   * A group holds exactly its category's findings, as a permutation, in
   * severity order, with findings of equal severity in their input order.
   */
  lemma GroupCorrect(findings: seq<Finding>, c: FindingCategory)
    ensures var g := GroupOf(findings, c).findings;
      && multiset(g) == multiset(Filter(findings, InCategory(c)))
      && (forall f :: f in g <==> f in findings && f.category == c)
      && (forall i, j :: 0 <= i < j < |g| ==> SeverityRank(g[i].severity) <= SeverityRank(g[j].severity))
      && (forall s :: WithKey(g, FindingRank, SeverityRank(s)) == WithKey(Filter(findings, InCategory(c)), FindingRank, SeverityRank(s)))
  {
    SortByKeyCorrect(Filter(findings, InCategory(c)), FindingRank);
    GroupMembers(findings, c);
  }

  /** `indexOf` gives an unknown severity -1, so within a group such findings come before all others. */
  lemma UnknownSeverityFirst(findings: seq<Finding>, c: FindingCategory)
    ensures var g := GroupOf(findings, c).findings;
      forall i, j :: 0 <= i < j < |g| && g[j].severity.OtherSeverity? ==> g[i].severity.OtherSeverity?
  {
    GroupCorrect(findings, c);
  }

  /** A group's members are exactly the findings of its category. */
  lemma GroupMembers(findings: seq<Finding>, c: FindingCategory)
    ensures forall f :: f in GroupOf(findings, c).findings <==> f in findings && f.category == c
  {
    var kept := Filter(findings, InCategory(c));
    SortByKeyCorrect(kept, FindingRank);
    var g := GroupOf(findings, c).findings;
    forall f
      ensures f in g <==> f in kept
    {
      assert f in g <==> f in multiset(g);
      assert f in kept <==> f in multiset(kept);
    }
  }

  /** A category gets a group exactly when it is one of the four known ones and some finding has it. */
  lemma GroupExactlyWhenFound(findings: seq<Finding>, c: FindingCategory)
    ensures (exists g :: g in CategorizedFindings(findings) && g.category == c)
        <==> c in CategoryOrder && (exists f :: f in findings && f.category == c)
  {
    var r := CategorizedFindings(findings);
    var g := GroupOf(findings, c);
    GroupMembers(findings, c);
    if h :| h in r && h.category == c {
      assert h == g && g.findings[0] in g.findings;
    }
    if c in CategoryOrder {
      if f :| f in findings && f.category == c {
        var all := seq(|CategoryOrder|, i requires 0 <= i < |CategoryOrder| => GroupOf(findings, CategoryOrder[i]));
        assert r == Filter(all, NonEmpty);
        assert all[CategoryRank(c)] == g;
        assert f in g.findings;
      }
    }
  }

  function HasUnknownCategory(): Finding -> bool {
    (f: Finding) => f.category.OtherCategory?
  }

  /**
   * Every finding with a known category lands in exactly one group, and one
   * with an unknown category in none: the group sizes add up to the number
   * of findings less the unknown-category ones.
   */
  lemma GroupsCoverAll(findings: seq<Finding>)
    ensures var r := CategorizedFindings(findings);
      SizeSum(r) + Count(findings, HasUnknownCategory()) == |findings|
  {
    var all := seq(|CategoryOrder|, i requires 0 <= i < |CategoryOrder| => GroupOf(findings, CategoryOrder[i]));
    DroppingEmptyKeepsSize(all);
    SizeSumOfFour(all);
    assert all[0] == GroupOf(findings, Issue) && all[1] == GroupOf(findings, Missing);
    assert all[2] == GroupOf(findings, BcSpecific) && all[3] == GroupOf(findings, Suggestion);
    GroupSize(findings, Issue);
    GroupSize(findings, Missing);
    GroupSize(findings, BcSpecific);
    GroupSize(findings, Suggestion);
    CategoryCountsCoverAll(findings);
  }

  /** A group holds as many findings as have its category. */
  lemma GroupSize(findings: seq<Finding>, c: FindingCategory)
    ensures |GroupOf(findings, c).findings| == Count(findings, InCategory(c))
  {
    SortByKeyCorrect(Filter(findings, InCategory(c)), FindingRank);
    FilterLength(findings, InCategory(c));
  }

  lemma SizeSumOfFour(groups: seq<Group>)
    requires |groups| == 4
    ensures SizeSum(groups) == |groups[0].findings| + |groups[1].findings| + |groups[2].findings| + |groups[3].findings|
  {
    assert SizeSum(groups[3..]) == |groups[3].findings| by {
      assert groups[3..][1..] == [];
    }
    assert SizeSum(groups[2..]) == |groups[2].findings| + SizeSum(groups[3..]) by {
      assert groups[2..][1..] == groups[3..];
    }
    assert SizeSum(groups[1..]) == |groups[1].findings| + SizeSum(groups[2..]) by {
      assert groups[1..][1..] == groups[2..];
    }
  }

  /** The total number of findings in `groups`. */
  function SizeSum(groups: seq<Group>): nat {
    if |groups| == 0 then 0 else |groups[0].findings| + SizeSum(groups[1..])
  }

  /** Dropping empty groups does not change the total size. */
  lemma {:induction false} DroppingEmptyKeepsSize(groups: seq<Group>)
    ensures SizeSum(Filter(groups, NonEmpty)) == SizeSum(groups)
    decreases |groups|
  {
    if |groups| > 0 {
      assert groups == [groups[0]] + groups[1..];
      FilterConcat([groups[0]], groups[1..], NonEmpty);
      FilterSingle(groups[0], NonEmpty);
      DroppingEmptyKeepsSize(groups[1..]);
      var rest := Filter(groups[1..], NonEmpty);
      if NonEmpty(groups[0]) {
        assert ([groups[0]] + rest)[1..] == rest;
      } else {
        assert Filter(groups, NonEmpty) == rest;
      }
    }
  }

  /** Each finding has exactly one of the four known categories, or an unknown one. */
  lemma {:induction false} CategoryCountsCoverAll(findings: seq<Finding>)
    ensures Count(findings, InCategory(Issue)) + Count(findings, InCategory(Missing))
      + Count(findings, InCategory(BcSpecific)) + Count(findings, InCategory(Suggestion))
      + Count(findings, HasUnknownCategory()) == |findings|
    decreases |findings|
  {
    if |findings| > 0 {
      CategoryCountsCoverAll(findings[1..]);
    }
  }
}
