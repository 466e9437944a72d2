/** `runAuditEngine` (src/app/utils/audit-engine.ts:15-138) with the upstream
    calls turned into inputs: the engine is a left fold over five steps that
    stops at the first call that threw. */
module Engine {
  import opened Wrappers
  import opened AuditTypes
  import opened Checks

  /** What one upstream call produced: a value, or an exception. */
  datatype Reply<+T> = Answered(value: T) | Threw

  /** The users endpoint is read with `fetch`, so besides throwing it can answer
      with a non-OK status. An OK body may lack `results`. */
  datatype UsersReply = UsersOk(results: Option<seq<bool>>) | UsersNotOk | UsersThrew

  /** The five upstream answers, in call order: the unassigned-contacts total,
      the users' super-admin flags, the contact properties' `hubspotDefined`
      flags, the stagnant-deals total, and the offline-source contacts total. */
  datatype Responses = Responses(
    unassigned: Reply<int>,
    users: UsersReply,
    properties: Reply<seq<bool>>,
    stagnant: Reply<int>,
    offline: Reply<int>)

  /** One step of the try block: push a metric and add a deduction, push nothing,
      or throw into the catch. */
  datatype Step = Emit(metric: Metric, deduction: nat) | Silent | Abort

  /** The mutable state of `runAuditEngine`: `metrics` and `scoreDeductions`. */
  datatype Acc = Acc(metrics: seq<Metric>, deductions: nat)

  /** The metric the catch block pushes; it deducts nothing. */
  const ApiAccessMetric := Metric(ApiAccess, Error, None, Some(GrantReadAccess))

  function EmitScored(s: Scored): Step
  {
    Emit(s.metric, s.deduction)
  }

  /** A step as the `k`-th check may produce it: a metric of that check, with
      the facts every classifier guarantees about its tier. */
  predicate StepOf(st: Step, k: nat)
  {
    st.Emit? ==>
      && Rank(st.metric.check) == k
      && Tiered(Scored(st.metric, st.deduction), st.metric.check)
  }

  function StepDeduction(st: Step): nat
  {
    if st.Emit? then st.deduction else 0
  }

  /** Step 1: the unassigned-contacts search. */
  function UnassignedStep(reply: Reply<int>): (st: Step)
    ensures StepOf(st, 0) && !st.Silent?
    ensures st.Abort? <==> reply.Threw?
  {
    match reply
    case Answered(n) => EmitScored(UnassignedLeadsCheck(n))
    case Threw => Abort
  }

  /** Step 2: the users request; a non-OK response pushes nothing. */
  function UsersStep(reply: UsersReply): (st: Step)
    ensures StepOf(st, 1)
    ensures st.Abort? <==> reply.UsersThrew?
    ensures st.Silent? <==> reply.UsersNotOk?
  {
    match reply
    case UsersOk(results) => EmitScored(UserPermissionsCheck(results))
    case UsersNotOk => Silent
    case UsersThrew => Abort
  }

  /** Step 3: the contact properties request. */
  function PropertiesStep(reply: Reply<seq<bool>>): (st: Step)
    ensures StepOf(st, 2) && !st.Silent?
    ensures st.Abort? <==> reply.Threw?
  {
    match reply
    case Answered(flags) => EmitScored(PropertyHygieneCheck(flags))
    case Threw => Abort
  }

  /** Step 4: the stagnant-deals search. */
  function StagnantStep(reply: Reply<int>): (st: Step)
    ensures StepOf(st, 3) && !st.Silent?
    ensures st.Abort? <==> reply.Threw?
  {
    match reply
    case Answered(n) => EmitScored(PipelineConsistencyCheck(n))
    case Threw => Abort
  }

  /** Step 5: the offline-source contacts search. */
  function OfflineStep(reply: Reply<int>): (st: Step)
    ensures StepOf(st, 4) && !st.Silent?
    ensures st.Abort? <==> reply.Threw?
  {
    match reply
    case Answered(n) => EmitScored(MarketingAttributionCheck(n))
    case Threw => Abort
  }

  /** The five checks in execution order. A step throws exactly when its call
      threw, and the users step pushes nothing exactly on a non-OK response;
      `StepsAreVerdicts` states what the other steps push. */
  function Steps(r: Responses): (s: seq<Step>)
    ensures |s| == 5
    ensures forall k :: 0 <= k < 5 ==> StepOf(s[k], k)
    ensures s[0].Abort? <==> r.unassigned.Threw?
    ensures s[1].Abort? <==> r.users.UsersThrew?
    ensures s[1].Silent? <==> r.users.UsersNotOk?
    ensures s[2].Abort? <==> r.properties.Threw?
    ensures s[3].Abort? <==> r.stagnant.Threw?
    ensures s[4].Abort? <==> r.offline.Threw?
    ensures forall k :: 0 <= k < 5 && k != 1 ==> !s[k].Silent?
  {
    [UnassignedStep(r.unassigned), UsersStep(r.users), PropertiesStep(r.properties),
     StagnantStep(r.stagnant), OfflineStep(r.offline)]
  }

  /** Unfolds `Steps` at each answered position: the classifier's verdict on the answer. */
  lemma StepsAreVerdicts(r: Responses)
    ensures r.unassigned.Answered? ==> Steps(r)[0] == EmitScored(UnassignedLeadsCheck(r.unassigned.value))
    ensures r.users.UsersOk? ==> Steps(r)[1] == EmitScored(UserPermissionsCheck(r.users.results))
    ensures r.properties.Answered? ==> Steps(r)[2] == EmitScored(PropertyHygieneCheck(r.properties.value))
    ensures r.stagnant.Answered? ==> Steps(r)[3] == EmitScored(PipelineConsistencyCheck(r.stagnant.value))
    ensures r.offline.Answered? ==> Steps(r)[4] == EmitScored(MarketingAttributionCheck(r.offline.value))
  {
  }

  /** Runs the steps in order against the accumulated state; the first `Abort`
      pushes the fallback metric and ends the run. Metrics already pushed are
      kept, deductions only grow, and each step pushes at most one metric. */
  function Exec(steps: seq<Step>, acc: Acc): (res: Acc)
    ensures |acc.metrics| <= |res.metrics| <= |acc.metrics| + |steps|
    ensures res.metrics[..|acc.metrics|] == acc.metrics
    ensures res.deductions >= acc.deductions
    decreases |steps|
  {
    if |steps| == 0 then acc
    else
      match steps[0]
      case Abort => Acc(acc.metrics + [ApiAccessMetric], acc.deductions)
      case Silent => Exec(steps[1..], acc)
      case Emit(m, d) =>
        var next := Acc(acc.metrics + [m], acc.deductions + d);
        var res := Exec(steps[1..], next);
        assert res.metrics[..|acc.metrics|] == res.metrics[..|next.metrics|][..|acc.metrics|];
        res
  }

  /** The engine: run the five checks from an empty report, then clamp the
      score. The report has at most five metrics, each advised exactly when it
      is not a success, and the score is 100 minus the documented deductions of
      the reported metrics; it lies in [25, 100], so the clamp never applies. */
  function RunAudit(r: Responses): (res: AuditResults)
    ensures |res.metrics| <= 5
    ensures forall m :: m in res.metrics ==> Advised(m)
    ensures res.overallScore == 100 - PenaltyTotal(res.metrics)
    ensures 25 <= res.overallScore <= 100
  {
    var s := Steps(r);
    var acc := Exec(s, Acc([], 0));
    RunAuditFacts(s, acc);
    AuditResults(ClampScore(100 - acc.deductions), acc.metrics)
  }

  /** What `RunAudit` needs about its fold: the pushed metrics are advised and
      their documented deductions are the running total, which is at most 75. */
  lemma RunAuditFacts(s: seq<Step>, acc: Acc)
    requires |s| == 5 && forall k :: 0 <= k < 5 ==> StepOf(s[k], k)
    requires acc == Exec(s, Acc([], 0))
    ensures forall m :: m in acc.metrics ==> Advised(m)
    ensures acc.deductions == PenaltyTotal(acc.metrics) <= 75
  {
    var k := FailurePoint(s);
    ExecSpec(s, Acc([], 0));
    var prefix := s[..k];
    assert forall i :: 0 <= i < |prefix| ==> StepOf(prefix[i], 0 + i);
    EmittedAdvised(prefix, 0);
    DeductedIsPenaltyTotal(prefix, 0);
    assert [] + Emitted(prefix) == Emitted(prefix);
    PenaltyTotalAppend(Emitted(prefix), Fallback(k < |s|));
    DeductedPrefix(s, k);
    DeductedAtMost75(s);
  }

  /** Unfolds the running deduction and the pushed metrics over a five-step run. */
  lemma UnfoldFive(s: seq<Step>)
    requires |s| == 5
    ensures Deducted(s) ==
      StepDeduction(s[0]) + StepDeduction(s[1]) + StepDeduction(s[2]) + StepDeduction(s[3]) + StepDeduction(s[4])
    ensures Emitted(s) ==
      StepMetrics(s[0]) + StepMetrics(s[1]) + StepMetrics(s[2]) + StepMetrics(s[3]) + StepMetrics(s[4])
  {
    assert s[..0] == [];
    EmittedSnoc(s, 0);
    assert s[..1] == [s[0]];
    EmittedSnoc(s, 1);
    EmittedSnoc(s, 2);
    EmittedSnoc(s, 3);
    EmittedSnoc(s, 4);
    assert s[..5] == s;
  }

  /** The five checks deduct at most their largest deductions: 20, 15, 15, 15
      and 10, which sum to 75. */
  lemma DeductedAtMost75(s: seq<Step>)
    requires |s| == 5 && forall k :: 0 <= k < 5 ==> StepOf(s[k], k)
    ensures Deducted(s) <= 75
  {
    assert forall k :: 0 <= k < 5 && s[k].Emit? ==>
      StepDeduction(s[k]) == Penalty(s[k].metric.check, s[k].metric.status) <= MaxPenalty(s[k].metric.check);
    assert StepDeduction(s[0]) <= 20;
    assert StepDeduction(s[1]) <= 15;
    assert StepDeduction(s[2]) <= 15;
    assert StepDeduction(s[3]) <= 15;
    assert StepDeduction(s[4]) <= 10;
    UnfoldFive(s);
  }

  // A declarative description of the same run, used as the engine's reference.

  /** Index of the first step that throws, or the number of steps if none does. */
  function FailurePoint(steps: seq<Step>): (k: nat)
    ensures k <= |steps|
    ensures forall i :: 0 <= i < k ==> !steps[i].Abort?
    ensures k < |steps| ==> steps[k].Abort?
  {
    if |steps| == 0 || steps[0].Abort? then 0
    else 1 + FailurePoint(steps[1..])
  }

  /** The metric a step pushes, if any. */
  function StepMetrics(st: Step): seq<Metric>
  {
    if st.Emit? then [st.metric] else []
  }

  /** The metrics the steps push, in order, ignoring exceptions. */
  function Emitted(steps: seq<Step>): seq<Metric>
  {
    if |steps| == 0 then [] else StepMetrics(steps[0]) + Emitted(steps[1..])
  }

  /** The deductions the steps add, ignoring exceptions. */
  function Deducted(steps: seq<Step>): nat
  {
    if |steps| == 0 then 0 else StepDeduction(steps[0]) + Deducted(steps[1..])
  }

  /** The fallback metric, when the run was cut short. */
  function Fallback(aborted: bool): seq<Metric>
  {
    if aborted then [ApiAccessMetric] else []
  }

  /** The fold agrees with its declarative description: the state gains exactly
      the metrics and deductions of the steps before the first exception, then
      the fallback metric if there was one. */
  lemma {:induction false} ExecSpec(steps: seq<Step>, acc: Acc)
    ensures var k := FailurePoint(steps);
      Exec(steps, acc) ==
      Acc(acc.metrics + Emitted(steps[..k]) + Fallback(k < |steps|), acc.deductions + Deducted(steps[..k]))
    decreases |steps|
  {
    var k := FailurePoint(steps);
    if |steps| == 0 || steps[0].Abort? {
      assert steps[..k] == [];
    } else {
      var tail := steps[1..];
      assert k == 1 + FailurePoint(tail);
      var pre := tail[..k - 1];
      assert steps[..k][0] == steps[0];
      assert steps[..k][1..] == pre;
      assert Emitted(steps[..k]) == StepMetrics(steps[0]) + Emitted(pre);
      assert Deducted(steps[..k]) == StepDeduction(steps[0]) + Deducted(pre);
      var fb := Fallback(k < |steps|);
      assert fb == Fallback(k - 1 < |tail|);
      match steps[0]
      case Silent =>
        ExecSpec(tail, acc);
        assert Emitted(steps[..k]) == Emitted(pre);
      case Emit(m, d) =>
        var next := Acc(acc.metrics + [m], acc.deductions + d);
        ExecSpec(tail, next);
        assert next.metrics + Emitted(pre) == acc.metrics + ([m] + Emitted(pre));
    }
  }

  /** Metrics pushed by well-formed steps are advised exactly when not a success. */
  lemma {:induction false} EmittedAdvised(steps: seq<Step>, base: nat)
    requires forall i :: 0 <= i < |steps| ==> StepOf(steps[i], base + i)
    ensures forall m :: m in Emitted(steps) ==> Advised(m)
    ensures forall m :: m in Emitted(steps) ==> base <= Rank(m.check) < base + |steps|
    decreases |steps|
  {
    if |steps| > 0 {
      assert forall i :: 0 <= i < |steps| - 1 ==> steps[1..][i] == steps[i + 1];
      EmittedAdvised(steps[1..], base + 1);
    }
  }

  /** For well-formed steps, the running deduction is the documented deduction of
      the metrics pushed. */
  lemma {:induction false} DeductedIsPenaltyTotal(steps: seq<Step>, base: nat)
    requires forall i :: 0 <= i < |steps| ==> StepOf(steps[i], base + i)
    ensures Deducted(steps) == PenaltyTotal(Emitted(steps))
    decreases |steps|
  {
    if |steps| > 0 {
      assert forall i :: 0 <= i < |steps| - 1 ==> steps[1..][i] == steps[i + 1];
      DeductedIsPenaltyTotal(steps[1..], base + 1);
      PenaltyTotalAppend(StepMetrics(steps[0]), Emitted(steps[1..]));
    }
  }

  lemma {:induction false} PenaltyTotalAppend(xs: seq<Metric>, ys: seq<Metric>)
    ensures PenaltyTotal(xs + ys) == PenaltyTotal(xs) + PenaltyTotal(ys)
    decreases |xs|
  {
    if |xs| == 0 {
      assert xs + ys == ys;
    } else {
      assert (xs + ys)[1..] == xs[1..] + ys;
      PenaltyTotalAppend(xs[1..], ys);
    }
  }

  /** Deductions only accumulate: a prefix of the steps deducts no more than all of them. */
  lemma {:induction false} DeductedPrefix(steps: seq<Step>, k: nat)
    requires k <= |steps|
    ensures Deducted(steps[..k]) <= Deducted(steps)
    decreases |steps|
  {
    if k > 0 {
      assert steps[..k][1..] == steps[1..][..k - 1];
      DeductedPrefix(steps[1..], k - 1);
    }
  }

  /** For well-formed steps, nothing is deducted exactly when every metric pushed is a success. */
  lemma {:induction false} DeductedZeroIffSuccess(steps: seq<Step>, base: nat)
    requires forall i :: 0 <= i < |steps| ==> StepOf(steps[i], base + i)
    requires base + |steps| <= 5
    ensures Deducted(steps) == 0 <==> forall m :: m in Emitted(steps) ==> m.status == Success
    decreases |steps|
  {
    if |steps| > 0 {
      assert forall i :: 0 <= i < |steps| - 1 ==> steps[1..][i] == steps[i + 1];
      DeductedZeroIffSuccess(steps[1..], base + 1);
      assert Emitted(steps) == StepMetrics(steps[0]) + Emitted(steps[1..]);
      if steps[0].Emit? {
        var m := steps[0].metric;
        assert Penalty(m.check, m.status) == 0 <==> m.status == Success;
      }
    }
  }

  /** The metrics and deductions of consecutive runs of steps add up. */
  lemma {:induction false} EmittedAppend(xs: seq<Step>, ys: seq<Step>)
    ensures Emitted(xs + ys) == Emitted(xs) + Emitted(ys)
    ensures Deducted(xs + ys) == Deducted(xs) + Deducted(ys)
    decreases |xs|
  {
    if |xs| == 0 {
      assert xs + ys == ys;
    } else {
      assert (xs + ys)[1..] == xs[1..] + ys;
      EmittedAppend(xs[1..], ys);
    }
  }

  /** Extending a prefix by one step adds that step's metric and deduction. */
  lemma EmittedSnoc(steps: seq<Step>, k: nat)
    requires k < |steps|
    ensures Emitted(steps[..k + 1]) == Emitted(steps[..k]) + StepMetrics(steps[k])
    ensures Deducted(steps[..k + 1]) == Deducted(steps[..k]) + StepDeduction(steps[k])
  {
    assert steps[..k + 1] == steps[..k] + [steps[k]];
    EmittedAppend(steps[..k], [steps[k]]);
    assert [steps[k]][1..] == [];
  }
}
