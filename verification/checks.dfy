/** The five threshold classifiers of the audit engine
    (src/app/utils/audit-engine.ts). Each maps the value an upstream call
    answered with to one metric and the deduction it adds to the running total. */
module Checks {
  import opened Wrappers
  import opened AuditTypes

  /** A classified check: the metric pushed onto the report and the deduction added. */
  datatype Scored = Scored(metric: Metric, deduction: nat)

  /** Facts every classifier guarantees: the metric is about check `c`, its
      deduction is the documented one for its status tier, and it carries a
      recommendation exactly when it is not a success. */
  predicate Tiered(r: Scored, c: Check)
  {
    && r.metric.check == c
    && HasTier(c, r.metric.status)
    && r.deduction == Penalty(c, r.metric.status)
    && Advised(r.metric)
  }

  /** Number of entries of `flags` equal to `b` (the length of a `filter`). */
  function Occurrences(flags: seq<bool>, b: bool): (n: nat)
    ensures n <= |flags|
    ensures n == |flags| <==> forall i :: 0 <= i < |flags| ==> flags[i] == b
    ensures n == 0 <==> forall i :: 0 <= i < |flags| ==> flags[i] != b
  {
    if |flags| == 0 then 0
    else
      var rest := Occurrences(flags[1..], b);
      assert forall i :: 1 <= i < |flags| ==> flags[i] == flags[1..][i - 1];
      (if flags[0] == b then 1 else 0) + rest
  }

  /** Check 1: contacts without an owner. More than 50 is an error (-20), 1 to 50
      a warning (-10), anything else a success. */
  function UnassignedLeadsCheck(count: int): (r: Scored)
    ensures Tiered(r, UnassignedLeads)
    ensures r.metric.status == Error <==> count > 50
    ensures r.metric.status == Warning <==> 0 < count <= 50
    ensures r.metric.shown.Some? <==> r.metric.status != Success
    ensures r.metric.shown.Some? ==> r.metric.shown.value == count
  {
    if count > 50 then
      Scored(Metric(UnassignedLeads, Error, Some(count), Some(BulkAssignOwners)), 20)
    else if count > 0 then
      Scored(Metric(UnassignedLeads, Warning, Some(count), Some(RotationWorkflow)), 10)
    else
      Scored(Metric(UnassignedLeads, Success, None, None), 0)
  }

  /** Check 2, on an OK users response: `results` is the list of the users'
      super-admin flags, or None when the response has no `results` (counted as
      no users). It is an error (-15) exactly when there is more than one user
      and all of them are super admins; there is no warning tier. */
  function UserPermissionsCheck(results: Option<seq<bool>>): (r: Scored)
    ensures Tiered(r, UserPermissions)
    ensures r.metric.status != Warning
    ensures r.metric.status == Error <==>
              && results.Some?
              && |results.value| > 1
              && forall i :: 0 <= i < |results.value| ==> results.value[i]
    ensures r.metric.status == Error ==> r.metric.shown == Some(|results.value|)
    ensures r.metric.status == Success ==> r.metric.shown == None
  {
    var flags := if results.Some? then results.value else [];
    var totalUsers := |flags|;
    var superAdmins := Occurrences(flags, true);
    if superAdmins == totalUsers && totalUsers > 1 then
      Scored(Metric(UserPermissions, Error, Some(totalUsers), Some(DemoteSuperAdmins)), 15)
    else
      Scored(Metric(UserPermissions, Success, None, None), 0)
  }

  /** Check 3: `hubspotDefined` holds the flag of every contact property; only the
      properties not defined by the CRM are custom. More than 100 custom
      properties is a warning (-15), otherwise a success. Both descriptions show
      the custom count. */
  function PropertyHygieneCheck(hubspotDefined: seq<bool>): (r: Scored)
    ensures Tiered(r, PropertyHygiene)
    ensures r.metric.status != Error
    ensures r.metric.status == Warning <==> Occurrences(hubspotDefined, false) > 100
    ensures r.metric.shown == Some(Occurrences(hubspotDefined, false))
    ensures r.metric.shown.value <= |hubspotDefined|
    ensures r.metric.shown.value + Occurrences(hubspotDefined, true) == |hubspotDefined|
  {
    OccurrencesSplit(hubspotDefined);
    var customCount := Occurrences(hubspotDefined, false);
    if customCount > 100 then
      Scored(Metric(PropertyHygiene, Warning, Some(customCount), Some(ArchiveUnusedProperties)), 15)
    else
      Scored(Metric(PropertyHygiene, Success, Some(customCount), None), 0)
  }

  /** Check 4: deals open 90 days or more. More than 20 is an error (-15), 1 to 20
      a warning (-5), anything else a success. */
  function PipelineConsistencyCheck(count: int): (r: Scored)
    ensures Tiered(r, PipelineConsistency)
    ensures r.metric.status == Error <==> count > 20
    ensures r.metric.status == Warning <==> 0 < count <= 20
    ensures r.metric.shown.Some? <==> r.metric.status != Success
    ensures r.metric.shown.Some? ==> r.metric.shown.value == count
  {
    if count > 20 then
      Scored(Metric(PipelineConsistency, Error, Some(count), Some(StagnationAlertWorkflow)), 15)
    else if count > 0 then
      Scored(Metric(PipelineConsistency, Warning, Some(count), Some(ClosedLostStagnantReason)), 5)
    else
      Scored(Metric(PipelineConsistency, Success, None, None), 0)
  }

  /** Check 5: contacts whose analytics source is OFFLINE. More than 100 is a
      warning (-10), otherwise a success. */
  function MarketingAttributionCheck(count: int): (r: Scored)
    ensures Tiered(r, MarketingAttribution)
    ensures r.metric.status != Error
    ensures r.metric.status == Warning <==> count > 100
    ensures r.metric.shown.Some? <==> r.metric.status == Warning
    ensures r.metric.shown.Some? ==> r.metric.shown.value == count
  {
    if count > 100 then
      Scored(Metric(MarketingAttribution, Warning, Some(count), Some(NativeFormTracking)), 10)
    else
      Scored(Metric(MarketingAttribution, Success, None, None), 0)
  }

  /** Every property is either CRM-defined or custom. */
  lemma {:induction false} OccurrencesSplit(flags: seq<bool>)
    ensures Occurrences(flags, true) + Occurrences(flags, false) == |flags|
    decreases |flags|
  {
    if |flags| > 0 {
      OccurrencesSplit(flags[1..]);
    }
  }

  /** Filtering a concatenation counts each part. */
  lemma {:induction false} OccurrencesAppend(xs: seq<bool>, ys: seq<bool>, b: bool)
    ensures Occurrences(xs + ys, b) == Occurrences(xs, b) + Occurrences(ys, b)
    decreases |xs|
  {
    if |xs| == 0 {
      assert xs + ys == ys;
    } else {
      assert (xs + ys)[1..] == xs[1..] + ys;
      OccurrencesAppend(xs[1..], ys, b);
    }
  }

  /** A larger unassigned count is never rated better. */
  lemma UnassignedLeadsMonotone(a: int, b: int)
    requires a <= b
    ensures Severity(UnassignedLeadsCheck(a).metric.status) <= Severity(UnassignedLeadsCheck(b).metric.status)
    ensures UnassignedLeadsCheck(a).deduction <= UnassignedLeadsCheck(b).deduction
  {
  }

  /** A larger stagnant-deal count is never rated better. */
  lemma PipelineConsistencyMonotone(a: int, b: int)
    requires a <= b
    ensures Severity(PipelineConsistencyCheck(a).metric.status) <= Severity(PipelineConsistencyCheck(b).metric.status)
    ensures PipelineConsistencyCheck(a).deduction <= PipelineConsistencyCheck(b).deduction
  {
  }

  /** A larger offline-source count is never rated better. */
  lemma MarketingAttributionMonotone(a: int, b: int)
    requires a <= b
    ensures Severity(MarketingAttributionCheck(a).metric.status) <= Severity(MarketingAttributionCheck(b).metric.status)
    ensures MarketingAttributionCheck(a).deduction <= MarketingAttributionCheck(b).deduction
  {
  }

  /** Adding a property never improves the property-hygiene rating. */
  lemma {:induction false} PropertyHygieneMonotone(props: seq<bool>, more: seq<bool>)
    ensures Severity(PropertyHygieneCheck(props).metric.status) <= Severity(PropertyHygieneCheck(props + more).metric.status)
    ensures PropertyHygieneCheck(props).deduction <= PropertyHygieneCheck(props + more).deduction
  {
    OccurrencesAppend(props, more, false);
  }

  /** A user list that contains any user who is not a super admin passes the
      user-permissions check with no deduction. */
  lemma UserPermissionsOneNonAdmin(flags: seq<bool>, i: nat)
    requires i < |flags| && !flags[i]
    ensures UserPermissionsCheck(Some(flags)).metric.status == Success
    ensures UserPermissionsCheck(Some(flags)).deduction == 0
  {
  }

  /** A portal with a single user, or none, is never flagged. */
  lemma UserPermissionsSmallPortal(results: Option<seq<bool>>)
    requires results.None? || |results.value| <= 1
    ensures UserPermissionsCheck(results).metric.status == Success
    ensures UserPermissionsCheck(results).deduction == 0
  {
  }
}
