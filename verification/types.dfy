/** Option type used for the optional parts of a metric and of an upstream reply. */
module Wrappers {

  datatype Option<+T> = None | Some(value: T)
}

/** The report produced by the audit engine: one metric per health check, plus
    the overall score. */
module AuditTypes {
  import opened Wrappers

  /** Status of one health check, as the report page colours it. */
  datatype Status = Success | Warning | Error

  /** Which check a metric reports on; the title shown is `Title(check)`. */
  datatype Check =
    | UnassignedLeads
    | UserPermissions
    | PropertyHygiene
    | PipelineConsistency
    | MarketingAttribution
    | ApiAccess

  /** The fixed remediation advice attached to a metric. Every non-success tier of
      every check has its own advice; the wording is presentation only. */
  datatype Advice =
    | BulkAssignOwners
    | RotationWorkflow
    | DemoteSuperAdmins
    | ArchiveUnusedProperties
    | StagnationAlertWorkflow
    | ClosedLostStagnantReason
    | NativeFormTracking
    | GrantReadAccess

  /** One entry of the report. `shown` is the count the description interpolates,
      if it interpolates one; `advice` is the optional recommendation. */
  datatype Metric = Metric(check: Check, status: Status, shown: Option<int>, advice: Option<Advice>)

  /** The engine's result. */
  datatype AuditResults = AuditResults(overallScore: int, metrics: seq<Metric>)

  function Title(c: Check): string
  {
    match c
    case UnassignedLeads => "Unassigned Leads"
    case UserPermissions => "User Permissions"
    case PropertyHygiene => "Property Hygiene"
    case PipelineConsistency => "Pipeline Consistency"
    case MarketingAttribution => "Marketing Attribution"
    case ApiAccess => "API Access"
  }

  /** Position of a check in the engine's execution order; the fallback metric comes last. */
  function Rank(c: Check): nat
  {
    match c
    case UnassignedLeads => 0
    case UserPermissions => 1
    case PropertyHygiene => 2
    case PipelineConsistency => 3
    case MarketingAttribution => 4
    case ApiAccess => 5
  }

  /** The documented deduction of each (check, status) tier; every other tier
      deducts nothing. No tier deducts more than its check's largest deduction,
      and on the tiers a real check reports the deduction is zero exactly for a
      success. */
  function Penalty(c: Check, s: Status): (p: nat)
    ensures p <= MaxPenalty(c)
    ensures c != ApiAccess && HasTier(c, s) ==> (p == 0 <==> s == Success)
  {
    match (c, s)
    case (UnassignedLeads, Error) => 20
    case (UnassignedLeads, Warning) => 10
    case (UserPermissions, Error) => 15
    case (PropertyHygiene, Warning) => 15
    case (PipelineConsistency, Error) => 15
    case (PipelineConsistency, Warning) => 5
    case (MarketingAttribution, Warning) => 10
    case _ => 0
  }

  /** The largest deduction a check can contribute. */
  function MaxPenalty(c: Check): nat
  {
    match c
    case UnassignedLeads => 20
    case UserPermissions => 15
    case PropertyHygiene => 15
    case PipelineConsistency => 15
    case MarketingAttribution => 10
    case ApiAccess => 0
  }

  /** The status tiers each check can report: user permissions has no warning
      tier, property hygiene and marketing attribution have no error tier, and the
      fallback metric is always an error. */
  predicate HasTier(c: Check, s: Status)
  {
    match c
    case UserPermissions => s != Warning
    case PropertyHygiene => s != Error
    case MarketingAttribution => s != Error
    case ApiAccess => s == Error
    case _ => true
  }

  /** A metric carries a recommendation exactly when its status is not a success. */
  predicate Advised(m: Metric)
  {
    m.advice.Some? <==> m.status != Success
  }

  /** Severity order of statuses, used to state that a larger count is never rated better. */
  function Severity(s: Status): nat
  {
    match s
    case Success => 0
    case Warning => 1
    case Error => 2
  }

  /** Sum of the documented deductions of the metrics in a report. */
  function PenaltyTotal(ms: seq<Metric>): nat
  {
    if |ms| == 0 then 0 else Penalty(ms[0].check, ms[0].status) + PenaltyTotal(ms[1..])
  }

  /** `Math.max(0, x)`. */
  function ClampScore(x: int): (r: int)
    ensures r >= 0
    ensures r == x || r == 0
    ensures r >= x
  {
    if x > 0 then x else 0
  }
}
