/** The results dashboard of the front end (`ResultsDashboardComponent`): the
    number of findings per status and which sections are shown. */
module ResultsDashboard {
  import opened Wrappers
  import opened Domain
  import FindingCard

  const Normal: string := "NORMAL"
  const Borderline: string := "BORDERLINE"
  const Abnormal: string := "ABNORMAL"

  /** `filter(f => f.status === status)`: the findings with exactly that
      status, in their order; a missing status equals no text. */
  function Matching(findings: seq<Finding>, status: string): (r: seq<Finding>)
    ensures |r| <= |findings|
    ensures forall i :: 0 <= i < |r| ==> r[i].status == Some(status)
    ensures (forall i :: 0 <= i < |findings| ==> findings[i].status == Some(status)) ==> r == findings
    ensures (forall i :: 0 <= i < |findings| ==> findings[i].status != Some(status)) ==> r == []
  {
    if findings == [] then []
    else
      var rest := Matching(findings[1..], status);
      if findings[0].status == Some(status) then [findings[0]] + rest else rest
  }

  /** `findings?.filter(...).length ?? 0`: absent findings count as none. */
  function CountStatus(findings: Option<seq<Finding>>, status: string): (n: nat)
    ensures findings.None? ==> n == 0
    ensures findings.Some? ==> n == |Matching(findings.value, status)| && n <= |findings.value|
  {
    match findings
    case None => 0
    case Some(fs) => |Matching(fs, status)|
  }

  /** Counting splits over a concatenation of finding lists. */
  lemma {:induction false} MatchingAppend(a: seq<Finding>, b: seq<Finding>, status: string)
    ensures Matching(a + b, status) == Matching(a, status) + Matching(b, status)
  {
    if a == [] {
      assert a + b == b;
    } else {
      assert (a + b)[1..] == a[1..] + b;
      MatchingAppend(a[1..], b, status);
    }
  }

  /** A finding is counted under at most one of the three statuses, so the
      counts together never exceed the number of findings; the rest have
      some other status. */
  lemma {:induction false} CountsBounded(findings: seq<Finding>)
    ensures |Matching(findings, Normal)| + |Matching(findings, Borderline)| + |Matching(findings, Abnormal)|
            <= |findings|
  {
    if findings != [] {
      CountsBounded(findings[1..]);
    }
  }

  /** The three counts of the dashboard, absent findings included. */
  lemma DashboardCountsBounded(analysis: ReportSummary)
    ensures CountStatus(analysis.findings, Normal) + CountStatus(analysis.findings, Borderline)
            + CountStatus(analysis.findings, Abnormal)
            <= if analysis.findings.Some? then |analysis.findings.value| else 0
  {
    if analysis.findings.Some? {
      CountsBounded(analysis.findings.value);
    }
  }

  /** The comparison is exact: a lower-case, unexpected or missing status is
      counted under none of the three. */
  lemma OtherStatusesUncounted(f: Finding)
    requires f.status == Some("normal") || f.status == Some("NOT SPECIFIED") || f.status.None?
    ensures CountStatus(Some([f]), Normal) == 0
    ensures CountStatus(Some([f]), Borderline) == 0
    ensures CountStatus(Some([f]), Abnormal) == 0
  {
    if f.status == Some("normal") {
      assert "normal"[0] != Normal[0];
    }
  }

  /** A count is shown beside the findings only when it is positive. */
  function ShowsCount(findings: Option<seq<Finding>>, status: string): (shown: bool)
    ensures shown ==> findings.Some? && findings.value != []
  {
    CountStatus(findings, status) > 0
  }

  /** The glossary section is shown only for a present, non-empty glossary:
      an empty list, although truthy, hides it. */
  function ShowsGlossary(analysis: ReportSummary): (shown: bool)
    ensures analysis.glossary.None? || analysis.glossary == Some([]) ==> !shown
    ensures shown ==> analysis.glossary.Some? && |analysis.glossary.value| >= 1
  {
    analysis.glossary.Some? && |analysis.glossary.value| > 0
  }

  /** The questions section is shown only for present, non-empty questions. */
  function ShowsQuestions(analysis: ReportSummary): (shown: bool)
    ensures analysis.discussionQuestions.None? || analysis.discussionQuestions == Some([]) ==> !shown
    ensures shown ==> analysis.discussionQuestions.Some? && |analysis.discussionQuestions.value| >= 1
  {
    analysis.discussionQuestions.Some? && |analysis.discussionQuestions.value| > 0
  }

  /** A count is shown exactly when some finding has that status. */
  lemma {:induction false} ShowsCountIffPresent(findings: seq<Finding>, status: string)
    ensures ShowsCount(Some(findings), status) <==> exists i :: 0 <= i < |findings| && findings[i].status == Some(status)
  {
    if findings != [] {
      ShowsCountIffPresent(findings[1..], status);
      if findings[0].status != Some(status) && (exists i :: 0 <= i < |findings| && findings[i].status == Some(status)) {
        var i :| 0 <= i < |findings| && findings[i].status == Some(status);
        assert findings[1..][i - 1] == findings[i];
      }
      if exists i :: 0 <= i < |findings| - 1 && findings[1..][i].status == Some(status) {
        var i :| 0 <= i < |findings| - 1 && findings[1..][i].status == Some(status);
        assert findings[i + 1].status == Some(status);
      }
    }
  }

  /** A finding whose status is missing is counted nowhere on the dashboard,
      while its card has no class to bind: the two components disagree on
      such a finding without an error from either. */
  lemma MissingStatusUncounted(f: Finding)
    requires f.status.None?
    ensures CountStatus(Some([f]), Normal) == 0
    ensures CountStatus(Some([f]), Borderline) == 0
    ensures CountStatus(Some([f]), Abnormal) == 0
    ensures FindingCard.StatusClass(FindingCard.CardPrefix, f.status).None?
    ensures FindingCard.StatusIcon(f.status) == FindingCard.OtherIcon
  {
    OtherStatusesUncounted(f);
  }
}
