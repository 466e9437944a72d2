/** Properties of the whole engine, `RunAudit`, over every combination of
    upstream answers. */
module AuditProperties {
  import opened Wrappers
  import opened AuditTypes
  import opened Checks
  import opened Engine

  /** Index of the first upstream call that throws (0 to 4), or 5 when none does.
      A non-OK users response is not an exception. */
  function FirstThrow(r: Responses): nat
  {
    if r.unassigned.Threw? then 0
    else if r.users.UsersThrew? then 1
    else if r.properties.Threw? then 2
    else if r.stagnant.Threw? then 3
    else if r.offline.Threw? then 4
    else 5
  }

  /** The checks a completed run reports on, in order: all five, or four
      without user permissions when the users response was not OK. */
  function ReportOrder(usersReported: bool): seq<Check>
  {
    if usersReported then
      [UnassignedLeads, UserPermissions, PropertyHygiene, PipelineConsistency, MarketingAttribution]
    else
      [UnassignedLeads, PropertyHygiene, PipelineConsistency, MarketingAttribution]
  }

  /** The metric the `i`-th call contributes when it does not throw: its
      classifier's verdict on the answer, or nothing for a non-OK users response. */
  function VerdictOf(r: Responses, i: nat): seq<Metric>
  {
    if i == 0 && r.unassigned.Answered? then [UnassignedLeadsCheck(r.unassigned.value).metric]
    else if i == 1 && r.users.UsersOk? then [UserPermissionsCheck(r.users.results).metric]
    else if i == 2 && r.properties.Answered? then [PropertyHygieneCheck(r.properties.value).metric]
    else if i == 3 && r.stagnant.Answered? then [PipelineConsistencyCheck(r.stagnant.value).metric]
    else if i == 4 && r.offline.Answered? then [MarketingAttributionCheck(r.offline.value).metric]
    else []
  }

  /** The deduction the `i`-th call contributes when it does not throw. */
  function VerdictDeduction(r: Responses, i: nat): nat
  {
    if i == 0 && r.unassigned.Answered? then UnassignedLeadsCheck(r.unassigned.value).deduction
    else if i == 1 && r.users.UsersOk? then UserPermissionsCheck(r.users.results).deduction
    else if i == 2 && r.properties.Answered? then PropertyHygieneCheck(r.properties.value).deduction
    else if i == 3 && r.stagnant.Answered? then PipelineConsistencyCheck(r.stagnant.value).deduction
    else if i == 4 && r.offline.Answered? then MarketingAttributionCheck(r.offline.value).deduction
    else 0
  }

  /** The verdicts of the first `k` calls, in call order. */
  function VerdictsBefore(r: Responses, k: nat): seq<Metric>
  {
    if k == 0 then [] else VerdictsBefore(r, k - 1) + VerdictOf(r, k - 1)
  }

  /** The deductions of the first `k` calls. */
  function DeductionsBefore(r: Responses, k: nat): nat
  {
    if k == 0 then 0 else DeductionsBefore(r, k - 1) + VerdictDeduction(r, k - 1)
  }

  /** The try block's view of the run: the first step to throw is the first call
      to throw. */
  lemma FailurePointIsFirstThrow(r: Responses)
    ensures FailurePoint(Steps(r)) == FirstThrow(r)
  {
    var s := Steps(r);
    assert s[1..][0] == s[1] && s[1..][1..][0] == s[2];
    assert s[1..][1..][1..][0] == s[3] && s[1..][1..][1..][1..][0] == s[4];
  }

  /** The engine's result in terms of the declarative description of its run. */
  lemma RunAuditIsSpec(r: Responses)
    ensures var s := Steps(r); var k := FirstThrow(r);
      RunAudit(r) == AuditResults(100 - Deducted(s[..k]), Emitted(s[..k]) + Fallback(k < 5))
  {
    var s := Steps(r);
    var k := FailurePoint(s);
    FailurePointIsFirstThrow(r);
    ExecSpec(s, Acc([], 0));
    DeductedPrefix(s, k);
    DeductedAtMost75(s);
    assert [] + Emitted(s[..k]) == Emitted(s[..k]);
  }

  /** Score bounds: the score is 100 minus the deductions made before any
      exception, and lies in [25, 100]. */
  lemma ScoreBounds(r: Responses)
    ensures var k := FirstThrow(r);
      RunAudit(r).overallScore == 100 - Deducted(Steps(r)[..k])
    ensures 25 <= RunAudit(r).overallScore <= 100
  {
    RunAuditIsSpec(r);
  }

  /** A step before the first exception pushes its call's verdict. */
  lemma StepIsVerdict(r: Responses, i: nat)
    requires i < FirstThrow(r)
    ensures StepMetrics(Steps(r)[i]) == VerdictOf(r, i)
    ensures StepDeduction(Steps(r)[i]) == VerdictDeduction(r, i)
  {
    StepsAreVerdicts(r);
  }

  /** The steps before the first exception are the verdicts of the calls before it. */
  lemma {:induction false} StepsBeforeAreVerdicts(r: Responses, k: nat)
    requires k <= FirstThrow(r)
    ensures Emitted(Steps(r)[..k]) == VerdictsBefore(r, k)
    ensures Deducted(Steps(r)[..k]) == DeductionsBefore(r, k)
  {
    var s := Steps(r);
    if k > 0 {
      StepsBeforeAreVerdicts(r, k - 1);
      EmittedSnoc(s, k - 1);
      StepIsVerdict(r, k - 1);
    }
  }

  /** The report is the classifiers' verdicts on the answers of the calls made
      before the first exception, in call order, followed by the fallback metric
      if a call threw; the score is 100 minus those verdicts' deductions. */
  lemma ReportIsVerdicts(r: Responses)
    ensures var k := FirstThrow(r);
      && RunAudit(r).metrics == VerdictsBefore(r, k) + (if k < 5 then [ApiAccessMetric] else [])
      && RunAudit(r).overallScore == 100 - DeductionsBefore(r, k)
  {
    RunAuditIsSpec(r);
    StepsBeforeAreVerdicts(r, FirstThrow(r));
  }

  /** Unfolds the verdicts of all five calls. */
  lemma FiveVerdicts(r: Responses)
    ensures VerdictsBefore(r, 5) == VerdictOf(r, 0) + VerdictOf(r, 1) + VerdictOf(r, 2) + VerdictOf(r, 3) + VerdictOf(r, 4)
    ensures DeductionsBefore(r, 5) ==
      VerdictDeduction(r, 0) + VerdictDeduction(r, 1) + VerdictDeduction(r, 2) + VerdictDeduction(r, 3) + VerdictDeduction(r, 4)
  {
    assert VerdictsBefore(r, 1) == VerdictOf(r, 0);
    assert VerdictsBefore(r, 2) == VerdictOf(r, 0) + VerdictOf(r, 1);
    assert VerdictsBefore(r, 3) == VerdictOf(r, 0) + VerdictOf(r, 1) + VerdictOf(r, 2);
    assert VerdictsBefore(r, 4) == VerdictOf(r, 0) + VerdictOf(r, 1) + VerdictOf(r, 2) + VerdictOf(r, 3);
    assert DeductionsBefore(r, 1) == VerdictDeduction(r, 0);
    assert DeductionsBefore(r, 2) == VerdictDeduction(r, 0) + VerdictDeduction(r, 1);
    assert DeductionsBefore(r, 3) == VerdictDeduction(r, 0) + VerdictDeduction(r, 1) + VerdictDeduction(r, 2);
    assert DeductionsBefore(r, 4) == VerdictDeduction(r, 0) + VerdictDeduction(r, 1) + VerdictDeduction(r, 2) + VerdictDeduction(r, 3);
  }

  /** When every call answers and the users response is OK, the report is the
      five verdicts in order and the score is 100 minus their deductions. */
  lemma AllAnsweredVerdicts(a: int, u: Option<seq<bool>>, p: seq<bool>, d: int, o: int)
    ensures var r := Responses(Answered(a), UsersOk(u), Answered(p), Answered(d), Answered(o));
      && RunAudit(r).metrics ==
           [ UnassignedLeadsCheck(a).metric, UserPermissionsCheck(u).metric, PropertyHygieneCheck(p).metric,
             PipelineConsistencyCheck(d).metric, MarketingAttributionCheck(o).metric ]
      && RunAudit(r).overallScore == 100 -
           ( UnassignedLeadsCheck(a).deduction + UserPermissionsCheck(u).deduction + PropertyHygieneCheck(p).deduction
           + PipelineConsistencyCheck(d).deduction + MarketingAttributionCheck(o).deduction )
  {
    var r := Responses(Answered(a), UsersOk(u), Answered(p), Answered(d), Answered(o));
    ReportIsVerdicts(r);
    FiveVerdicts(r);
  }

  /** Without an exception the report lists the checks in their fixed order:
      five metrics, or four when the users response was not OK, and no fallback. */
  lemma CompletedRunOrder(r: Responses)
    requires FirstThrow(r) == 5
    ensures var ms := RunAudit(r).metrics; var order := ReportOrder(!r.users.UsersNotOk?);
      && |ms| == |order|
      && forall i :: 0 <= i < |ms| ==> ms[i].check == order[i]
  {
    ReportIsVerdicts(r);
    FiveVerdicts(r);
    VerdictChecks(r);
    ConcatenatedOrder(VerdictOf(r, 0), VerdictOf(r, 1), VerdictOf(r, 2), VerdictOf(r, 3), VerdictOf(r, 4), !r.users.UsersNotOk?);
  }

  /** Five single-check contributions, the second possibly empty, list the
      checks in report order. */
  lemma ConcatenatedOrder(v0: seq<Metric>, v1: seq<Metric>, v2: seq<Metric>, v3: seq<Metric>, v4: seq<Metric>, usersReported: bool)
    requires |v0| == 1 && v0[0].check == UnassignedLeads
    requires !usersReported ==> v1 == []
    requires usersReported ==> |v1| == 1 && v1[0].check == UserPermissions
    requires |v2| == 1 && v2[0].check == PropertyHygiene
    requires |v3| == 1 && v3[0].check == PipelineConsistency
    requires |v4| == 1 && v4[0].check == MarketingAttribution
    ensures var ms := v0 + v1 + v2 + v3 + v4; var order := ReportOrder(usersReported);
      && |ms| == |order|
      && forall i :: 0 <= i < |ms| ==> ms[i].check == order[i]
  {
    var ms := v0 + v1 + v2 + v3 + v4;
    if usersReported {
      assert ms == [v0[0], v1[0], v2[0], v3[0], v4[0]];
    } else {
      assert ms == [v0[0], v2[0], v3[0], v4[0]];
    }
  }

  /** Each answered call contributes one metric of its own check. */
  lemma VerdictChecks(r: Responses)
    requires FirstThrow(r) == 5
    ensures |VerdictOf(r, 0)| == 1 && VerdictOf(r, 0)[0].check == UnassignedLeads
    ensures r.users.UsersNotOk? ==> VerdictOf(r, 1) == []
    ensures r.users.UsersOk? ==> |VerdictOf(r, 1)| == 1 && VerdictOf(r, 1)[0].check == UserPermissions
    ensures |VerdictOf(r, 2)| == 1 && VerdictOf(r, 2)[0].check == PropertyHygiene
    ensures |VerdictOf(r, 3)| == 1 && VerdictOf(r, 3)[0].check == PipelineConsistency
    ensures |VerdictOf(r, 4)| == 1 && VerdictOf(r, 4)[0].check == MarketingAttribution
  {
  }

  /** The titles a completed run shows, in order. */
  function ReportTitles(usersReported: bool): seq<string>
  {
    if usersReported then
      ["Unassigned Leads", "User Permissions", "Property Hygiene", "Pipeline Consistency", "Marketing Attribution"]
    else
      ["Unassigned Leads", "Property Hygiene", "Pipeline Consistency", "Marketing Attribution"]
  }

  /** Without an exception the report shows the checks' titles in their fixed order. */
  lemma CompletedRunTitles(r: Responses)
    requires FirstThrow(r) == 5
    ensures var ms := RunAudit(r).metrics; var titles := ReportTitles(!r.users.UsersNotOk?);
      && |ms| == |titles|
      && forall i :: 0 <= i < |ms| ==> Title(ms[i].check) == titles[i]
  {
    CompletedRunOrder(r);
    ReportTitlesMatchOrder(!r.users.UsersNotOk?);
  }

  /** The fixed titles are the titles of the checks in report order. */
  lemma ReportTitlesMatchOrder(usersReported: bool)
    ensures |ReportTitles(usersReported)| == |ReportOrder(usersReported)|
    ensures forall i :: 0 <= i < |ReportOrder(usersReported)| ==>
      Title(ReportOrder(usersReported)[i]) == ReportTitles(usersReported)[i]
  {
  }

  /** Without an exception, a perfect score means every check passed, and back. */
  lemma CompletedRunPerfectScore(r: Responses)
    requires FirstThrow(r) == 5
    ensures RunAudit(r).overallScore == 100 <==> forall m :: m in RunAudit(r).metrics ==> m.status == Success
  {
    RunAuditIsSpec(r);
    var s := Steps(r);
    assert s[..5] == s;
    DeductedZeroIffSuccess(s, 0);
  }

  /** Failure path: when the call at step `k` throws, the report is the metrics of
      the steps before `k` followed by one `API Access` error metric; no metric
      of step `k` or later appears, and the score counts only the earlier deductions. */
  lemma FailurePath(r: Responses)
    requires FirstThrow(r) < 5
    ensures var k := FirstThrow(r); var ms := RunAudit(r).metrics;
      && |ms| >= 1
      && ms == Emitted(Steps(r)[..k]) + [ApiAccessMetric]
      && ms[|ms| - 1].check == ApiAccess && ms[|ms| - 1].status == Error
      && Title(ms[|ms| - 1].check) == "API Access"
      && (forall i :: 0 <= i < |ms| - 1 ==> Rank(ms[i].check) < k)
      && RunAudit(r).overallScore == 100 - Deducted(Steps(r)[..k])
  {
    RunAuditIsSpec(r);
    var s := Steps(r);
    var prefix := s[..FirstThrow(r)];
    assert forall i :: 0 <= i < |prefix| ==> StepOf(prefix[i], 0 + i);
    PrefixRanks(prefix, Emitted(prefix) + [ApiAccessMetric]);
  }

  /** Metrics pushed before the fallback all come from checks earlier than the
      step that threw. */
  lemma PrefixRanks(prefix: seq<Step>, ms: seq<Metric>)
    requires forall i :: 0 <= i < |prefix| ==> StepOf(prefix[i], 0 + i)
    requires ms == Emitted(prefix) + [ApiAccessMetric]
    ensures forall i :: 0 <= i < |ms| - 1 ==> Rank(ms[i].check) < |prefix|
  {
    EmittedAdvised(prefix, 0);
    assert forall i :: 0 <= i < |ms| - 1 ==> ms[i] in Emitted(prefix);
  }

  /** On the failure path a perfect score does not mean every metric passed:
      whenever the first call throws, the score is 100 and the report holds only
      the fallback error metric. */
  lemma PerfectScoreDespiteFailure(r: Responses)
    requires r.unassigned.Threw?
    ensures RunAudit(r).overallScore == 100
    ensures RunAudit(r).metrics == [ApiAccessMetric]
    ensures RunAudit(r).metrics[0].status == Error
  {
  }

  /** Example: 60 unassigned contacts, three users who are all super admins, 120
      custom properties, no stagnant deals and 150 offline contacts deduct
      20 + 15 + 15 + 0 + 10 and score 40. */
  lemma ExampleScore40()
    ensures var r := Responses(
        Answered(60), UsersOk(Some([true, true, true])),
        Answered(seq(120, i => false)), Answered(0), Answered(150));
      && RunAudit(r).overallScore == 40
      && RunAudit(r).metrics == [
           Metric(UnassignedLeads, Error, Some(60), Some(BulkAssignOwners)),
           Metric(UserPermissions, Error, Some(3), Some(DemoteSuperAdmins)),
           Metric(PropertyHygiene, Warning, Some(120), Some(ArchiveUnusedProperties)),
           Metric(PipelineConsistency, Success, None, None),
           Metric(MarketingAttribution, Warning, Some(150), Some(NativeFormTracking))]
  {
    var users := Some([true, true, true]);
    var props := seq(120, i => false);
    assert Occurrences(props, false) == 120;
    assert UnassignedLeadsCheck(60) == Scored(Metric(UnassignedLeads, Error, Some(60), Some(BulkAssignOwners)), 20);
    assert UserPermissionsCheck(users) == Scored(Metric(UserPermissions, Error, Some(3), Some(DemoteSuperAdmins)), 15);
    assert PropertyHygieneCheck(props) == Scored(Metric(PropertyHygiene, Warning, Some(120), Some(ArchiveUnusedProperties)), 15);
    assert PipelineConsistencyCheck(0) == Scored(Metric(PipelineConsistency, Success, None, None), 0);
    assert MarketingAttributionCheck(150) == Scored(Metric(MarketingAttribution, Warning, Some(150), Some(NativeFormTracking)), 10);
    AllAnsweredVerdicts(60, users, props, 0, 150);
  }

  /** Example: no unassigned contacts, one super admin among three users, 5 custom
      properties, 25 stagnant deals and 3 offline contacts: only the pipeline
      check fails, and the score is 85. */
  lemma ExampleScore85()
    ensures var r := Responses(
        Answered(0), UsersOk(Some([true, false, false])),
        Answered([true, false, false, false, false, false]), Answered(25), Answered(3));
      && RunAudit(r).overallScore == 85
      && RunAudit(r).metrics == [
           Metric(UnassignedLeads, Success, None, None),
           Metric(UserPermissions, Success, None, None),
           Metric(PropertyHygiene, Success, Some(5), None),
           Metric(PipelineConsistency, Error, Some(25), Some(StagnationAlertWorkflow)),
           Metric(MarketingAttribution, Success, None, None)]
  {
    var users := Some([true, false, false]);
    var props := [true, false, false, false, false, false];
    assert !users.value[1];
    UserPermissionsOneNonAdmin(users.value, 1);
    assert Occurrences(props, false) == 5 by {
      OccurrencesAppend([true], props[1..], false);
    }
    assert UnassignedLeadsCheck(0) == Scored(Metric(UnassignedLeads, Success, None, None), 0);
    assert UserPermissionsCheck(users) == Scored(Metric(UserPermissions, Success, None, None), 0);
    assert PropertyHygieneCheck(props) == Scored(Metric(PropertyHygiene, Success, Some(5), None), 0);
    assert PipelineConsistencyCheck(25) == Scored(Metric(PipelineConsistency, Error, Some(25), Some(StagnationAlertWorkflow)), 15);
    assert MarketingAttributionCheck(3) == Scored(Metric(MarketingAttribution, Success, None, None), 0);
    AllAnsweredVerdicts(0, users, props, 25, 3);
  }
}
