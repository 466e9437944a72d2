# Portal audit engine: a Dafny model

This project models the scoring engine of a CRM portal health audit,
`runAuditEngine` in `src/app/utils/audit-engine.ts`. The engine runs five
read-only checks against a HubSpot portal in a fixed order:

1. unassigned leads,
2. user permissions,
3. property hygiene,
4. pipeline consistency,
5. marketing attribution.

Each check compares a count, or a list of flags, with fixed thresholds. It pushes
a metric onto the report (title, status `success` / `warning` / `error`,
description, optional recommendation) and adds a fixed deduction to a running
total. The score is `max(0, 100 - deductions)`.

The five upstream calls become inputs (`Engine.Responses`). Each one is either a
value or an exception. The users call can also give a non-OK response. Its value
is an optional list of `superAdmin` flags, and an OK body may lack `results`.

Files:

- `types.dfy`: modules `Wrappers` (Option) and `AuditTypes`. These hold the
  report datatypes, the documented deduction of each status tier (`Penalty`),
  the tiers each check can report (`HasTier`) and the execution order (`Rank`).
- `checks.dfy`: module `Checks`, with the five threshold classifiers and the
  flag count that stands for `filter(...).length`.
- `engine.dfy`: module `Engine`. It holds the five steps, the left fold `Exec`
  and `RunAudit`. The fold matches the single `try` block: the first exception
  appends one `API Access` error metric and skips every later check. The module
  also gives a declarative reference for the fold: the first failure point, the
  metrics pushed, and the deductions added.
- `properties.dfy`: module `AuditProperties`, with lemmas about `RunAudit` over
  all inputs.

Behaviour of the code worth knowing, all of it modelled as written:

- One `try` wraps all five checks. An exception keeps the metrics and
  deductions already accumulated, appends one `API Access` error metric that
  deducts nothing, and skips every later check. No check is isolated from the
  others, so a run that throws has fewer than five checks' metrics.
- A non-OK users response pushes no metric and deducts nothing.
- When nothing throws, the score is 100 exactly when every metric is a success
  (`CompletedRunPerfectScore`). On the failure path, a score of 100 can come
  with an error metric: whenever the first call throws, the report holds only
  the `API Access` error and the score is 100 (`PerfectScoreDespiteFailure`).
- Statuses are `success`, `warning` and `error`, as in the code.

## Model

| member | source | states |
|---|---|---|
| `Checks.UnassignedLeadsCheck` | src/app/utils/audit-engine.ts:36-45 | more than 50 unassigned contacts is an error and 1 to 50 a warning, with deductions 20 / 10 / 0 as documented per tier; a recommendation exactly when not a success; the description shows the count exactly when not a success |
| `Checks.UserPermissionsCheck` | src/app/utils/audit-engine.ts:53-62 | an error (deduct 15) exactly when there is more than one user and every user is a super admin; never a warning; missing `results` counts as no users; the error description shows the number of users |
| `Checks.PropertyHygieneCheck` | src/app/utils/audit-engine.ts:66-74 | only properties not defined by the CRM are counted; more than 100 of them is a warning (deduct 15), never an error; the description always shows the custom count, which together with the CRM-defined count makes up all properties |
| `Checks.PipelineConsistencyCheck` | src/app/utils/audit-engine.ts:92-101 | more than 20 stagnant deals is an error and 1 to 20 a warning, with deductions 15 / 5 / 0 as documented per tier; a recommendation exactly when not a success |
| `Checks.MarketingAttributionCheck` | src/app/utils/audit-engine.ts:119-125 | more than 100 offline-source contacts is a warning (deduct 10), never an error; a recommendation and a shown count exactly for the warning |
| `Checks.Occurrences` | src/app/utils/audit-engine.ts:55 | the filtered count is at most the list length; it equals the length exactly when every flag matches, and is 0 exactly when none does |
| `Checks.OccurrencesSplit` | src/app/utils/audit-engine.ts:67 | every property is either CRM-defined or custom, so the two filtered counts add up to the number of properties |
| `Checks.OccurrencesAppend` | src/app/utils/audit-engine.ts:67 | filtering a concatenation counts each part |
| `Checks.UnassignedLeadsMonotone` | src/app/utils/audit-engine.ts:37-45 | a larger unassigned count never gets a less severe status or a smaller deduction |
| `Checks.PipelineConsistencyMonotone` | src/app/utils/audit-engine.ts:93-101 | a larger stagnant-deal count never gets a less severe status or a smaller deduction |
| `Checks.MarketingAttributionMonotone` | src/app/utils/audit-engine.ts:120-125 | a larger offline-source count never gets a less severe status or a smaller deduction |
| `Checks.PropertyHygieneMonotone` | src/app/utils/audit-engine.ts:67-74 | adding properties never improves the property-hygiene status or lowers its deduction |
| `Checks.UserPermissionsOneNonAdmin` | src/app/utils/audit-engine.ts:55-61 | a user list that contains any user who is not a super admin passes the permissions check with no deduction |
| `Checks.UserPermissionsSmallPortal` | src/app/utils/audit-engine.ts:54-61 | a single-user portal, an empty user list, or a missing `results` passes the permissions check with no deduction |
| `AuditTypes.Penalty` | src/app/utils/audit-engine.ts:38-121 | the deduction table: no tier deducts more than its check's largest deduction, and on the tiers a real check reports the deduction is zero exactly for a success |
| `AuditTypes.ClampScore` | src/app/utils/audit-engine.ts:132 | `Math.max(0, x)`: the result is never negative, never below `x`, and is either `x` or 0 |
| `Engine.UnassignedStep` | src/app/utils/audit-engine.ts:22-45 | the unassigned-contacts step throws exactly when its search threw, and otherwise pushes an Unassigned Leads metric with its tier deduction |
| `Engine.UsersStep` | src/app/utils/audit-engine.ts:48-63 | the users step throws exactly when the request threw, pushes nothing exactly on a non-OK response, and otherwise pushes a User Permissions metric with its tier deduction |
| `Engine.PropertiesStep` | src/app/utils/audit-engine.ts:66-74 | the properties step throws exactly when the request threw, and otherwise pushes a Property Hygiene metric with its tier deduction |
| `Engine.StagnantStep` | src/app/utils/audit-engine.ts:77-101 | the stagnant-deals step throws exactly when its search threw, and otherwise pushes a Pipeline Consistency metric with its tier deduction |
| `Engine.OfflineStep` | src/app/utils/audit-engine.ts:104-125 | the offline-source step throws exactly when its search threw, and otherwise pushes a Marketing Attribution metric with its tier deduction |
| `Engine.Steps` | src/app/utils/audit-engine.ts:20-125 | five steps in the fixed check order, each carrying its documented tier deduction; a step throws exactly when its call threw; only the users step can push nothing, and it does so exactly on a non-OK response |
| `Engine.Exec` | src/app/utils/audit-engine.ts:17-130 | running the try block keeps the metrics already pushed, never lowers the deductions, and pushes at most one metric per step |
| `Engine.RunAudit` | src/app/utils/audit-engine.ts:15-138 | the report has at most five metrics, each with a recommendation exactly when it is not a success (the `API Access` fallback included); the score is 100 minus the documented deductions of the reported metrics and lies in [25, 100], so the clamp never applies |
| `Engine.FailurePoint` | src/app/utils/audit-engine.ts:20-127 | the first step that throws, or the end of the run; no step before it throws |
| `Engine.ExecSpec` | src/app/utils/audit-engine.ts:17-130 | running the try block adds exactly the metrics and deductions of the steps before the first exception, then one fallback metric if there was one |
| `Engine.EmittedAdvised` | src/app/utils/audit-engine.ts:39-124 | every metric the steps push has a recommendation exactly when it is not a success, and it comes from a check at or after the given position |
| `Engine.DeductedIsPenaltyTotal` | src/app/utils/audit-engine.ts:38-121 | the running deduction equals the documented deductions of the metrics pushed |
| `Engine.DeductedPrefix` | src/app/utils/audit-engine.ts:18-121 | deductions only accumulate, so an aborted run never deducts more than a complete one would |
| `Engine.DeductedZeroIffSuccess` | src/app/utils/audit-engine.ts:38-124 | nothing is deducted exactly when every pushed metric is a success |
| `Engine.DeductedAtMost75` | src/app/utils/audit-engine.ts:38-121 | the five checks deduct at most 20 + 15 + 15 + 15 + 10 = 75 |
| `AuditProperties.FailurePointIsFirstThrow` | src/app/utils/audit-engine.ts:20-127 | the try block is left at the first upstream call that throws; a non-OK users response is not an exception |
| `AuditProperties.RunAuditIsSpec` | src/app/utils/audit-engine.ts:15-138 | the result is 100 minus the deductions of the steps before the first exception, with those steps' metrics followed by the fallback metric when a call threw |
| `AuditProperties.ScoreBounds` | src/app/utils/audit-engine.ts:132 | the score is 100 minus the deductions made before any exception and lies in [25, 100], so the clamp at 0 never applies |
| `AuditProperties.StepsBeforeAreVerdicts` | src/app/utils/audit-engine.ts:20-125 | the steps before the first exception push exactly the classifiers' verdicts on the answers of those calls |
| `AuditProperties.ReportIsVerdicts` | src/app/utils/audit-engine.ts:15-138 | for every combination of answers, the report is the classifiers' verdicts on the calls made before the first exception, in call order, then the fallback metric if a call threw; the score is 100 minus those verdicts' deductions |
| `AuditProperties.AllAnsweredVerdicts` | src/app/utils/audit-engine.ts:15-138 | when every call answers and the users response is OK, the report is the five classifiers' metrics in order and the score is 100 minus the sum of their deductions |
| `AuditProperties.CompletedRunOrder` | src/app/utils/audit-engine.ts:20-125 | without an exception, the metrics appear in the order Unassigned Leads, User Permissions, Property Hygiene, Pipeline Consistency, Marketing Attribution: five of them, or four without User Permissions on a non-OK users response |
| `AuditProperties.CompletedRunTitles` | src/app/utils/audit-engine.ts:39-124 | without an exception, the report shows the titles of the checks in that fixed order |
| `AuditProperties.CompletedRunPerfectScore` | src/app/utils/audit-engine.ts:18-132 | without an exception, the score is 100 exactly when every metric is a success |
| `AuditProperties.FailurePath` | src/app/utils/audit-engine.ts:20-132 | when the call at step k throws, the report is the metrics of the steps before k followed by one `API Access` error metric; nothing from step k or later appears; the score counts only the earlier deductions |
| `AuditProperties.PerfectScoreDespiteFailure` | src/app/utils/audit-engine.ts:127-132 | whenever the first call throws, the score is 100 and the report holds only the `API Access` error metric |
| `AuditProperties.ExampleScore40` | src/app/utils/audit-engine.ts:36-132 | 60 unassigned, 3 of 3 super admins, 120 custom properties, 0 stagnant deals and 150 offline contacts give the five listed metrics and a score of 40 |
| `AuditProperties.ExampleScore85` | src/app/utils/audit-engine.ts:36-132 | 0 unassigned, 1 of 3 super admins, 5 custom properties, 25 stagnant deals and 3 offline contacts give a score of 85; only Pipeline Consistency is an error |

## Left out

- Building the HubSpot client (`new Client`, line 16). It sits outside the `try`, so a failure there would reject the call instead of reaching the fallback metric. The model starts after the client exists.
- The HubSpot SDK client, `fetch`, the search request payloads and `console.error`. These are network calls and logging. Each call is an input: a value, or an exception (`Engine.Reply`, `Engine.UsersReply`).
- Which layer throws. The model does not tell apart an exception from `fetch`, from `usersResponse.json()`, or from reading `results` on the properties response. Each one is the same abstract exception of that step.
- The shape of JSON bodies beyond the values used. A user's `superAdmin` and a property's `hubspotDefined` are booleans here. JavaScript truthiness of other values is not modelled.
- Search totals are integers here. A JavaScript `number` could also be fractional or `NaN`, which the API does not return. As in the code, zero and negative totals take the success branch.
- Description and recommendation wording. A description is modelled only by the count it interpolates (`Metric.shown`). A recommendation is modelled by which fixed advice it is (`AuditTypes.Advice`).
- The OAuth routes (`src/app/api/auth/hubspot/route.ts` and `callback/route.ts`). They are environment lookups, redirect assembly and an HTTP token exchange.
- The React pages and the logo component. They are presentation, URL-parameter parsing and date formatting.
- Asynchrony. The engine awaits each call in turn, and the model runs the steps as a sequential fold.
