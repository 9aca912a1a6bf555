/** The planner builds a chain, also after an expert's step was spliced in, so the queue runs a planned
    mission front to back and stops at the first step that fails for good. */
module Planner {
  import opened Optional
  import opened MissionModel
  import opened MissionRun
  import opened MissionSafety
  import opened MissionVerdict
  import opened MissionRefinement
  import opened MissionBlame
  import opened MissionContext

  datatype LegalDomain = General | Civil | Commercial | Social | Fiscal | DataProtection | Penal

  datatype Kind = Kind(taskType: TaskType, role: Role)

  function TemplateFor(caseType: string): seq<Kind> {
    if caseType == "quick_review" then
      [Kind(Verification, Verifier), Kind(QualityControl, QualityController)]
    else if caseType == "drafting_only" then
      [Kind(Drafting, Drafter), Kind(Verification, Verifier)]
    else if caseType == "standard_analysis" then
      [Kind(DocumentAnalysis, DocumentAnalyst), Kind(LegalResearch, LegalResearcher),
       Kind(Verification, Verifier), Kind(QualityControl, QualityController)]
    else
      [Kind(DocumentAnalysis, DocumentAnalyst), Kind(LegalResearch, LegalResearcher),
       Kind(JurisprudenceResearch, JurisprudenceExpert), Kind(Reasoning, Drafter), Kind(Drafting, Drafter),
       Kind(Verification, Verifier), Kind(QualityControl, QualityController)]
  }

  function ExpertFor(domain: LegalDomain): Option<Role> {
    match domain
    case DataProtection => Some(GdprExpert)
    case Fiscal => Some(TaxExpert)
    case Social => Some(SocialLawExpert)
    case _ => None
  }

  predicate IsResearch(t: TaskType) {
    t.JurisprudenceResearch? || t.LegalResearch?
  }

  // ---------- what a plan should be ----------

  ghost predicate IsChain(plan: Plan) {
    && DistinctIds(plan)
    && (plan != [] ==> plan[0].dependsOn == [])
    && forall k :: 0 < k < |plan| ==> plan[k].dependsOn == [plan[k - 1].id]
  }

  ghost predicate HasKinds(plan: Plan, kinds: seq<Kind>) {
    |plan| == |kinds| && forall k :: 0 <= k < |plan| ==> Kind(plan[k].taskType, plan[k].role) == kinds[k]
  }

  function LastResearch(kinds: seq<Kind>): (r: Option<nat>)
    ensures r.Some? ==> r.value < |kinds|
  {
    if kinds == [] then None
    else if IsResearch(kinds[|kinds| - 1].taskType) then Some(|kinds| - 1)
    else LastResearch(kinds[..|kinds| - 1])
  }

  /** The steps of a mission: the template, with the risk analysis of the domain's expert right after
      the last research step, if there is an expert and a research step. */
  function MissionKinds(kinds: seq<Kind>, expert: Option<Role>): seq<Kind> {
    var last := LastResearch(kinds);
    if expert.Some? && last.Some? then
      kinds[..last.value + 1] + [Kind(RiskAnalysis, expert.value)] + kinds[last.value + 1..]
    else kinds
  }

  // ---------- splicing ----------

  /** The sub-task with its dependency on `after` replaced. */
  function Rewired(st: SubTask, after: Id, added: SubTask): SubTask {
    if after in st.dependsOn && st.id != added.id then
      st.(dependsOn := seq(|st.dependsOn|, i requires 0 <= i < |st.dependsOn| =>
                         if st.dependsOn[i] == after then added.id else st.dependsOn[i]))
    else st
  }

  function Splice(plan: Plan, after: Id, added: SubTask): Plan {
    if plan == [] then []
    else
      var st := plan[|plan| - 1];
      Splice(plan[..|plan| - 1], after, added) + [Rewired(st, after, added)] + if st.id == after then [added] else []
  }

  method SpliceAfter(plan: Plan, after: Id, added: SubTask) returns (result: Plan)
    ensures result == Splice(plan, after, added)
  {
    result := [];
    for i := 0 to |plan|
      invariant result == Splice(plan[..i], after, added)
    {
      assert plan[..i + 1][..i] == plan[..i];
      result := result + [Rewired(plan[i], after, added)];
      if plan[i].id == after {
        result := result + [added];
      }
    }
    assert plan[..|plan|] == plan;
  }

  /** In a chain only the successor of the spliced-after step is rewired. */
  lemma {:induction false} RewiredInChain(plan: Plan, a: nat, added: SubTask, j: nat)
    requires IsChain(plan) && a < |plan| && j < |plan| && plan[j].id != added.id
    ensures Rewired(plan[j], plan[a].id, added) == if j == a + 1 then plan[j].(dependsOn := [added.id]) else plan[j]
  {
    if j == a + 1 {
      assert Rewired(plan[j], plan[a].id, added).dependsOn == [added.id];
    } else if j > 0 {
      assert plan[j].dependsOn == [plan[j - 1].id] && plan[j - 1].id != plan[a].id;
    }
  }

  lemma {:induction false} SpliceSnoc(plan: Plan, a: nat, added: SubTask, k: nat)
    requires IsChain(plan) && a < |plan| && k < |plan| && plan[k].id != added.id
    ensures Splice(plan[..k + 1], plan[a].id, added) ==
            Splice(plan[..k], plan[a].id, added)
            + [if k == a + 1 then plan[k].(dependsOn := [added.id]) else plan[k]] + (if k == a then [added] else [])
  {
    assert plan[..k + 1][..k] == plan[..k];
    RewiredInChain(plan, a, added, k);
    hide Rewired;
  }

  /** `r` is the first `k` steps of the chain with `added` threaded in behind step `a`. */
  ghost predicate Threaded(r: Plan, plan: Plan, a: nat, added: SubTask, k: nat) {
    && k <= |plan| && |r| == (if k <= a then k else k + 1)
    && (forall j :: 0 <= j < k && j <= a ==> r[j] == plan[j])
    && (k > a ==> r[a + 1] == added)
    && (k > a + 1 ==> r[a + 2] == plan[a + 1].(dependsOn := [added.id]))
    && (forall j :: a + 2 < j < |r| ==> r[j] == plan[j - 1])
  }

  lemma {:induction false} ThreadedSnoc(before: Plan, plan: Plan, a: nat, added: SubTask, k: nat, r: Plan)
    requires Threaded(before, plan, a, added, k) && k < |plan|
    requires r == before + [if k == a + 1 then plan[k].(dependsOn := [added.id]) else plan[k]]
                  + (if k == a then [added] else [])
    ensures Threaded(r, plan, a, added, k + 1)
  {
    if k == a {
      assert r == before + [plan[k], added];
    } else if k == a + 1 {
      assert r == before + [plan[k].(dependsOn := [added.id])];
    } else {
      assert r == before + [plan[k]];
    }
  }

  lemma {:induction false} SpliceThreads(plan: Plan, a: nat, added: SubTask, k: nat)
    requires IsChain(plan) && a < |plan| && k <= |plan|
    requires forall j :: 0 <= j < |plan| ==> plan[j].id != added.id
    ensures Threaded(Splice(plan[..k], plan[a].id, added), plan, a, added, k)
  {
    hide IsChain, Splice, Threaded;
    if k == 0 {
      NothingThreaded(plan, a, added);
    } else {
      SpliceThreads(plan, a, added, k - 1);
      SpliceSnoc(plan, a, added, k - 1);
      ThreadedSnoc(Splice(plan[..k - 1], plan[a].id, added), plan, a, added, k - 1,
                   Splice(plan[..k], plan[a].id, added));
    }
  }

  lemma {:induction false} NothingThreaded(plan: Plan, a: nat, added: SubTask)
    requires a < |plan|
    ensures Threaded(Splice(plan[..0], plan[a].id, added), plan, a, added, 0)
  {
  }

  lemma {:induction false} SpliceElements(plan: Plan, a: nat, added: SubTask)
    requires IsChain(plan) && a < |plan|
    requires forall j :: 0 <= j < |plan| ==> plan[j].id != added.id
    ensures Threaded(Splice(plan, plan[a].id, added), plan, a, added, |plan|)
  {
    SpliceThreads(plan, a, added, |plan|);
    assert plan[..|plan|] == plan;
  }

  /** Splicing threads the new step into the chain. */
  lemma {:induction false} SpliceIsChain(plan: Plan, a: nat, added: SubTask)
    requires IsChain(plan) && a < |plan| && added.dependsOn == [plan[a].id]
    requires forall j :: 0 <= j < |plan| ==> plan[j].id != added.id
    ensures IsChain(Splice(plan, plan[a].id, added))
  {
    SpliceElements(plan, a, added);
    var r := Splice(plan, plan[a].id, added);
    hide Splice;
    forall i, j | 0 <= i < j < |r| ensures r[i].id != r[j].id {
      assert r[i].id == if i <= a then plan[i].id else if i == a + 1 then added.id else plan[i - 1].id;
      assert r[j].id == if j <= a then plan[j].id else if j == a + 1 then added.id else plan[j - 1].id;
    }
    forall k | 0 < k < |r| ensures r[k].dependsOn == [r[k - 1].id] {
      if k <= a {
        assert r[k] == plan[k] && r[k - 1] == plan[k - 1];
      } else if k == a + 1 {
        assert r[k] == added && r[a] == plan[a];
      } else {
        assert r[k].dependsOn == if k == a + 2 then [added.id] else plan[k - 1].dependsOn;
        assert k > a + 2 ==> r[k - 1].id == plan[k - 2].id;
      }
    }
  }

  lemma {:induction false} SpliceKinds(plan: Plan, kinds: seq<Kind>, a: nat, added: SubTask)
    requires IsChain(plan) && HasKinds(plan, kinds) && a < |plan|
    requires forall j :: 0 <= j < |plan| ==> plan[j].id != added.id
    ensures HasKinds(Splice(plan, plan[a].id, added),
                     kinds[..a + 1] + [Kind(added.taskType, added.role)] + kinds[a + 1..])
  {
    SpliceElements(plan, a, added);
    var r, all := Splice(plan, plan[a].id, added), kinds[..a + 1] + [Kind(added.taskType, added.role)] + kinds[a + 1..];
    hide Splice, IsChain;
    forall k | 0 <= k < |r| ensures Kind(r[k].taskType, r[k].role) == all[k] {
      if k <= a {
        assert r[k] == plan[k];
      } else if k > a + 1 {
        assert r[k].taskType == plan[k - 1].taskType && r[k].role == plan[k - 1].role;
      }
    }
  }

  // ---------- the steps of each kind of mission ----------

  lemma {:induction false} LastStep(kinds: seq<Kind>, last: Kind)
    ensures LastResearch(kinds + [last]) == if IsResearch(last.taskType) then Some(|kinds|) else LastResearch(kinds)
  {
    assert (kinds + [last])[..|kinds|] == kinds;
  }

  lemma {:induction false} LastSteps(kinds: seq<Kind>, more: seq<Kind>)
    requires forall k :: 0 <= k < |more| ==> !IsResearch(more[k].taskType)
    ensures LastResearch(kinds + more) == LastResearch(kinds)
  {
    if more == [] {
      assert kinds + more == kinds;
    } else {
      var n := |more| - 1;
      LastSteps(kinds, more[..n]);
      LastStep(kinds + more[..n], more[n]);
      assert kinds + more == kinds + more[..n] + [more[n]];
    }
  }

  /** With a research step last before `more`, the expert's step goes between the two. */
  lemma {:induction false} StepsWith(kinds: seq<Kind>, research: Kind, more: seq<Kind>, expert: Option<Role>)
    requires IsResearch(research.taskType) && forall k :: 0 <= k < |more| ==> !IsResearch(more[k].taskType)
    ensures MissionKinds(kinds + [research] + more, expert) ==
            kinds + [research] + (if expert.Some? then [Kind(RiskAnalysis, expert.value)] else []) + more
  {
    var all := kinds + [research];
    LastStep(kinds, research);
    LastSteps(all, more);
    assert (all + more)[..|all|] == all && (all + more)[|all|..] == more;
  }

  /** What is planned for each case type and domain. */
  lemma {:induction false} PlannedSteps(caseType: string, domain: LegalDomain)
    ensures var steps := MissionKinds(TemplateFor(caseType), ExpertFor(domain));
            var risk := if domain == DataProtection then [Kind(RiskAnalysis, GdprExpert)]
                        else if domain == Fiscal then [Kind(RiskAnalysis, TaxExpert)]
                        else if domain == Social then [Kind(RiskAnalysis, SocialLawExpert)] else [];
            && (caseType == "quick_review" ==>
                  steps == [Kind(Verification, Verifier), Kind(QualityControl, QualityController)])
            && (caseType == "drafting_only" ==> steps == [Kind(Drafting, Drafter), Kind(Verification, Verifier)])
            && (caseType == "standard_analysis" ==>
                  steps == [Kind(DocumentAnalysis, DocumentAnalyst), Kind(LegalResearch, LegalResearcher)] + risk
                           + [Kind(Verification, Verifier), Kind(QualityControl, QualityController)])
            && (caseType !in {"quick_review", "drafting_only", "standard_analysis"} ==>
                  steps == [Kind(DocumentAnalysis, DocumentAnalyst), Kind(LegalResearch, LegalResearcher),
                            Kind(JurisprudenceResearch, JurisprudenceExpert)] + risk
                           + [Kind(Reasoning, Drafter), Kind(Drafting, Drafter),
                              Kind(Verification, Verifier), Kind(QualityControl, QualityController)])
  {
    hide LastResearch, MissionKinds;
    var check := [Kind(Verification, Verifier), Kind(QualityControl, QualityController)];
    var write := [Kind(Reasoning, Drafter), Kind(Drafting, Drafter)] + check;
    var first, second, third := Kind(DocumentAnalysis, DocumentAnalyst), Kind(LegalResearch, LegalResearcher),
        Kind(JurisprudenceResearch, JurisprudenceExpert);
    if caseType == "quick_review" {
      NoStepsWith(check, ExpertFor(domain));
    } else if caseType == "drafting_only" {
      NoStepsWith([Kind(Drafting, Drafter), Kind(Verification, Verifier)], ExpertFor(domain));
    } else if caseType == "standard_analysis" {
      StepsWith([first], second, check, ExpertFor(domain));
      assert TemplateFor(caseType) == [first] + [second] + check;
    } else {
      StepsWith([first, second], third, write, ExpertFor(domain));
      assert TemplateFor(caseType) == [first, second] + [third] + write;
    }
  }

  lemma {:induction false} NoStepsWith(kinds: seq<Kind>, expert: Option<Role>)
    requires forall k :: 0 <= k < |kinds| ==> !IsResearch(kinds[k].taskType)
    ensures MissionKinds(kinds, expert) == kinds
  {
    LastSteps([], kinds);
    assert [] + kinds == kinds;
  }

  /** No task type is planned twice. */
  lemma {:induction false} DistinctSteps(caseType: string, domain: LegalDomain)
    ensures var steps := MissionKinds(TemplateFor(caseType), ExpertFor(domain));
            forall i, j :: 0 <= i < j < |steps| ==> steps[i].taskType != steps[j].taskType
  {
    PlannedSteps(caseType, domain);
    hide MissionKinds, TemplateFor, ExpertFor;
  }

  // ---------- decomposing ----------

  /** `newId` hands out the identifiers of new sub-tasks. */
  method Decompose(domain: LegalDomain, caseType: string, newId: nat -> Id) returns (plan: Plan)
    requires forall i, j :: i != j ==> newId(i) != newId(j)
    ensures IsChain(plan) && HasKinds(plan, MissionKinds(TemplateFor(caseType), ExpertFor(domain)))
  {
    hide TemplateFor, IsChain, HasKinds, LastResearch, IsResearch, MissionKinds;
    var steps := TemplateFor(caseType);
    plan := [];
    var previous: Option<Id>, lastResearch: Option<Id> := None, None;
    EmptyPlan();
    assert steps[..0] == [];
    for i := 0 to |steps|
      invariant |plan| == i && IsChain(plan) && HasKinds(plan, steps[..i])
      invariant forall k :: 0 <= k < i ==> plan[k].id == newId(k)
      invariant previous == if i == 0 then None else Some(plan[i - 1].id)
      invariant var last := LastResearch(steps[..i]);
                lastResearch == if last.Some? then Some(plan[last.value].id) else None
    {
      var st := SubTask(newId(i), steps[i].taskType, steps[i].role, if previous.Some? then [previous.value] else []);
      PlanSnoc(plan, steps, st);
      plan := plan + [st];
      previous := Some(st.id);
      if IsResearch(steps[i].taskType) {
        lastResearch := Some(st.id);
      }
    }
    assert steps[..|steps|] == steps;
    var expert := ExpertFor(domain);
    KindsOfMission(steps, expert);
    if expert.Some? && lastResearch.Some? {
      var a := LastResearch(steps).value;
      var risk := SubTask(newId(|steps|), RiskAnalysis, expert.value, [lastResearch.value]);
      SpliceIsChain(plan, a, risk);
      SpliceKinds(plan, steps, a, risk);
      plan := SpliceAfter(plan, lastResearch.value, risk);
    }
  }

  lemma {:induction false} EmptyPlan()
    ensures IsChain([]) && HasKinds([], []) && LastResearch([]) == None
  {
  }

  /** One more step at the end of a chain. */
  lemma {:induction false} PlanSnoc(plan: Plan, steps: seq<Kind>, st: SubTask)
    requires IsChain(plan) && |plan| < |steps| && HasKinds(plan, steps[..|plan|])
    requires forall k :: 0 <= k < |plan| ==> plan[k].id != st.id
    requires st.dependsOn == if plan == [] then [] else [plan[|plan| - 1].id]
    requires Kind(st.taskType, st.role) == steps[|plan|]
    ensures IsChain(plan + [st]) && HasKinds(plan + [st], steps[..|plan| + 1])
    ensures LastResearch(steps[..|plan| + 1]) ==
            if IsResearch(st.taskType) then Some(|plan|) else LastResearch(steps[..|plan|])
  {
    assert steps[..|plan| + 1][..|plan|] == steps[..|plan|];
  }

  lemma {:induction false} KindsOfMission(steps: seq<Kind>, expert: Option<Role>)
    ensures var last := LastResearch(steps);
            MissionKinds(steps, expert) ==
            if expert.Some? && last.Some?
            then steps[..last.value + 1] + [Kind(RiskAnalysis, expert.value)] + steps[last.value + 1..]
            else steps
  {
  }

  // ---------- running a chain ----------

  lemma {:induction false} ChainIsOrdered(plan: Plan)
    requires IsChain(plan)
    ensures Ordered(plan)
  {
    forall k, d | 0 <= k < |plan| && d in plan[k].dependsOn ensures exists j :: 0 <= j < k && plan[j].id == d {
      assert plan[k - 1].id == d;
    }
  }

  /** Once a step of the chain has no result, no later step gets one. */
  lemma {:induction false} ChainStops(launch: Env, env: Env, plan: Plan, k: nat, done: nat, l: Loop)
    requires IsChain(plan) && done < k <= |plan| && l.results.Keys == PlanIds(plan[..done])
    ensures ForLoop(launch, env, plan, k, l) == l
    decreases |plan| - k
  {
    if k < |plan| {
      assert plan[k - 1].id in plan[k].dependsOn;
      ChainStops(launch, env, plan, k + 1, done, l);
    }
  }

  lemma {:induction false} ChainLoop(launch: Env, env: Env, plan: Plan, k: nat, l: Loop) returns (done: nat)
    requires IsChain(plan) && k <= |plan| && l.results.Keys == PlanIds(plan[..k])
    ensures k <= done <= |plan| && ForLoop(launch, env, plan, k, l).results.Keys == PlanIds(plan[..done])
    decreases |plan| - k
  {
    if k == |plan| {
      done := k;
    } else {
      var t := Try(env, plan[k], AgentFor(launch, env, plan[k]), 0, l);
      TryResults(env, plan[k], AgentFor(launch, env, plan[k]), 0, l);
      if k > 0 { assert plan[..k][k - 1].id == plan[k - 1].id; }
      assert DepsMet(plan[k], l.results);
      hide Try, AgentFor, PlanIds;
      if t.results.Keys == PlanIds(plan[..k + 1]) {
        done := ChainLoop(launch, env, plan, k + 1, t);
      } else {
        ChainStops(launch, env, plan, k + 1, k, t);
        done := k;
      }
    }
  }

  /** The first run of a planned mission gives results to the steps before some point and to no other,
      and completes the mission exactly when that point is the end of the plan. */
  lemma {:induction false} PlannedMissionRunsFrontToBack(launch: Env, env: Env, job: Job) returns (done: nat)
    requires Launchable(job) && IsChain(job.plan)
    ensures done <= |job.plan| && Wf(Begin(Launch(launch, job)))
    ensures var m := Run(env, Begin(Launch(launch, job))).mission;
            && m.results.Keys == PlanIds(job.plan[..done])
            && m.status == if done == |job.plan| then MissionCompleted else MissionFailed
  {
    ChainIsOrdered(job.plan);
    QueueRunIsForLoop(launch, env, job);
    var l := Loop(map[], map[CaseSummary := job.summary], []);
    assert PlanIds(job.plan[..0]) == {};
    hide Run, Launch, ForLoop, Wf, PlanIds, Ordered;
    done := ChainLoop(launch, env, job.plan, 0, l);
    PlanIdsCount(job.plan[..done]);
    var results := ForLoop(launch, env, job.plan, 0, l).results;
    assert |results.Keys| == |results|;
  }

  /** A planned mission never fails without a culprit: a step whose predecessor has a result and whose own
      item has used up its attempts. */
  lemma {:induction false} PlannedFailureHasCulprit(launch: Env, env: Env, job: Job, n: nat)
    requires Launchable(job) && IsChain(job.plan) && Reached(launch, env, job, n).pc.Finished?
    ensures Reached(launch, env, job, n).mission.status == MissionFailed
            <==> exists c :: Culprit(Reached(launch, env, job, n), c)
  {
    hide IsChain, Ordered, Culprit, Reached;
    ChainIsOrdered(job.plan);
    var rank := OrderedIsAcyclic(job.plan);
    Blame(launch, env, job, n, rank);
  }

  // ---------- what the agents of a planned mission are shown ----------

  lemma {:induction false} ChainPrefix(plan: Plan, results: map<Id, Output>, j: nat, k: nat)
    requires IsChain(plan) && j <= k < |plan| && plan[k].id in results
    requires forall i, d :: 0 <= i < |plan| && plan[i].id in results && d in plan[i].dependsOn ==> d in results
    ensures plan[j].id in results
    decreases k
  {
    if j < k {
      assert plan[k - 1].id in plan[k].dependsOn;
      ChainPrefix(plan, results, j, k - 1);
    }
  }

  /** When a step of a chain is called, the steps with results are those before it. */
  lemma {:induction false} CalledInOrder(launch: Env, env: Env, job: Job, n: nat, k: nat)
    requires Launchable(job) && IsChain(job.plan) && k < |job.plan|
    requires Reached(launch, env, job, n).pc.Awaiting?
    requires Reached(launch, env, job, n).pc.call.subTask == job.plan[k].id
    ensures forall j :: 0 <= j < |job.plan| ==>
              (job.plan[j].id in Reached(launch, env, job, n).mission.results <==> j < k)
  {
    hide Reached;
    ResultsAreClosed(launch, env, job, n);
    CallsFollowDependencies(launch, env, job, n);
    var results := Reached(launch, env, job, n).mission.results;
    forall j | 0 <= j < |job.plan| ensures job.plan[j].id in results <==> j < k {
      if j < k {
        assert job.plan[k - 1].id in job.plan[k].dependsOn;
        ChainPrefix(job.plan, results, j, k - 1);
      } else if job.plan[j].id in results {
        ChainPrefix(job.plan, results, k, j);
      }
    }
  }

  /** In a planned mission, whoever drafts has before them the case and the texts of all analyses and all
      research done before, and no other result. */
  lemma {:induction false} DrafterSeesResearch(launch: Env, env: Env, job: Job, n: nat, k: nat, caseType: string,
                                               domain: LegalDomain)
    requires Launchable(job) && IsChain(job.plan) && k < |job.plan| && job.plan[k].role == Drafter
    requires HasKinds(job.plan, MissionKinds(TemplateFor(caseType), ExpertFor(domain)))
    requires Reached(launch, env, job, n).pc.Awaiting?
    requires Reached(launch, env, job, n).pc.call.subTask == job.plan[k].id
    ensures var slice, results := Reached(launch, env, job, n).pc.call.slice,
                                  Reached(launch, env, job, n).mission.results;
            && CaseSummary in slice && slice[CaseSummary] == job.summary
            && (forall j :: 0 <= j < k ==>
                  job.plan[j].taskType in {DocumentAnalysis, LegalResearch, JurisprudenceResearch, RiskAnalysis} ==>
                  && job.plan[j].id in results && ResultOf(job.plan[j].taskType) in slice
                  && slice[ResultOf(job.plan[j].taskType)] == results[job.plan[j].id].text)
            && (forall t :: ResultOf(t) in slice ==>
                  && t in {DocumentAnalysis, LegalResearch, JurisprudenceResearch, RiskAnalysis}
                  && exists j :: 0 <= j < k && job.plan[j].taskType == t)
  {
    hide Reached, IsChain, MissionKinds, TemplateFor, ExpertFor;
    DistinctSteps(caseType, domain);
    CalledInOrder(launch, env, job, n, k);
    AgentsAreShown(launch, env, job, n, k);
    forall t ensures
        var s := Reached(launch, env, job, n);
        && (ResultOf(t) in s.context <==>
            exists k :: 0 <= k < |job.plan| && job.plan[k].taskType == t && job.plan[k].id in s.mission.results)
        && (ResultOf(t) in s.context ==>
            exists k :: 0 <= k < |job.plan| && job.plan[k].taskType == t && job.plan[k].id in s.mission.results
                        && s.context[ResultOf(t)] == s.mission.results[job.plan[k].id].text)
    {
      ContextIsResults(launch, env, job, n, t);
    }
    assert forall i, j :: 0 <= i < j < |job.plan| ==> job.plan[i].taskType != job.plan[j].taskType;
  }
}
