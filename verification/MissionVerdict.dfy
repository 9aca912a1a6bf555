/** What the invariant means to someone who launches a mission and runs it once: which sub-tasks have
    work items, when agents are called, how often, and why the mission ends as it does. */
module MissionVerdict {
  import opened Optional
  import opened MissionModel
  import opened MissionRun
  import opened MissionSafety
  import opened MissionLifecycle

  // ---------- at every moment of the run ----------

  /** The work items of sub-task `id`, as positions in the mission's list. */
  ghost function ItemsOf(s: State, id: Id): set<int>
    requires Held(s)
  {
    set p | 0 <= p < |Items(s)| && Items(s)[p].subTaskId == id
  }

  ghost function RecordsOf(s: State, id: Id): set<int> {
    var recs := RecordsFor(s.records, s.mission.id);
    set p | 0 <= p < |recs| && recs[p].subTaskId == id
  }

  /** The positions of a sub-task among items with one each, and among the records that go with them. */
  lemma {:induction false} SamePositions(plan: Plan, results: map<Id, Output>, view: seq<WorkItem>, recs: seq<Record>,
                                         id: Id)
    requires ViewOk(plan, results, view, recs)
    ensures (set p | 0 <= p < |recs| && recs[p].subTaskId == id) == (set p | 0 <= p < |view| && view[p].subTaskId == id)
    ensures |set p | 0 <= p < |view| && view[p].subTaskId == id| ==
            if exists p :: 0 <= p < |view| && view[p].subTaskId == id then 1 else 0
  {
    hide ItemOk;
    var ps := set p | 0 <= p < |view| && view[p].subTaskId == id;
    if p :| 0 <= p < |view| && view[p].subTaskId == id {
      assert (set q | 0 <= q < |view| && view[q].subTaskId == id) == {p};
    } else {
      assert ps == {};
    }
  }

  lemma {:induction false} OneItemIn(s: State, k: nat)
    requires Inv(s) && k < |s.mission.plan|
    ensures var id, count := s.mission.plan[k].id, if DepsMet(s.mission.plan[k], s.mission.results) then 1 else 0;
            |ItemsOf(s, id)| == count && |RecordsOf(s, id)| == count
  {
    WfHeld(s);
    EnqueuedIsView(s);
    hide Wf, Held, ViewOk, PcOk, DepsMet, RecordsFor, Enqueued;
    SamePositions(s.mission.plan, s.mission.results, Items(s), RecordsFor(s.records, s.mission.id),
                  s.mission.plan[k].id);
  }

  /** Ready sub-tasks have exactly one work item and one delegation record, the others none. */
  lemma {:induction false} OneItemPerReadySubTask(launch: Env, env: Env, job: Job, n: nat, k: nat)
    requires Launchable(job) && k < |job.plan|
    ensures var s := Reached(launch, env, job, n);
            var count := if forall d :: d in job.plan[k].dependsOn ==> d in s.mission.results then 1 else 0;
            |ItemsOf(s, job.plan[k].id)| == count && |RecordsOf(s, job.plan[k].id)| == count
  {
    ReachedOk(launch, env, job, n);
    hide ItemsOk, PcOk, ReadyIffEnqueued, Wf, Reached, DepsMet, ItemsOf, RecordsOf;
    OneItemIn(Reached(launch, env, job, n), k);
  }

  /** Whenever an agent is called, the sub-task's dependencies all have results and it has none yet. */
  lemma {:induction false} CallsFollowDependencies(launch: Env, env: Env, job: Job, n: nat)
    requires Launchable(job)
    ensures var s := Reached(launch, env, job, n);
            s.pc.Awaiting? ==>
              exists k :: 0 <= k < |job.plan| && job.plan[k].id == s.pc.call.subTask
                          && (forall d :: d in job.plan[k].dependsOn ==> d in s.mission.results)
                          && job.plan[k].id !in s.mission.results
  {
    ReachedOk(launch, env, job, n);
    var s := Reached(launch, env, job, n);
    if s.pc.Awaiting? {
      hide Reached, DepsMet, RecordsFor;
      var p := Pos(s, s.pc.item);
      assert ItemOk(s.mission.plan, s.mission.results, Items(s)[p]);
      var k := IndexOf(s.mission.plan, s.pc.call.subTask);
      assert s.items[s.mission.itemIds[p]].subTaskId == job.plan[k].id;
    }
  }

  /** From one state to the next, items keep their place, sub-task and agent, and never lose an attempt. */
  ghost predicate Evolves(view: seq<WorkItem>, later: seq<WorkItem>) {
    && |view| <= |later|
    && forall p :: 0 <= p < |view| ==>
         && later[p].subTaskId == view[p].subTaskId
         && later[p].agentId == view[p].agentId
         && view[p].attempts <= later[p].attempts
  }

  ghost predicate IsTry(call: Call, view: seq<WorkItem>) {
    exists p :: 0 <= p < |view| && view[p].subTaskId == call.subTask && view[p].agentId == call.agentId
                && 1 <= call.attempt <= view[p].attempts
  }

  /** Every call was a numbered try of a work item, and the tries of a sub-task are numbered upwards. */
  ghost predicate CallsOk(calls: seq<Call>, view: seq<WorkItem>) {
    && (forall i :: 0 <= i < |calls| ==> IsTry(calls[i], view))
    && (forall i, j :: 0 <= i < j < |calls| && calls[i].subTask == calls[j].subTask ==>
          calls[i].attempt < calls[j].attempt)
  }

  lemma {:induction false} CallsEvolve(calls: seq<Call>, view: seq<WorkItem>, later: seq<WorkItem>)
    requires CallsOk(calls, view) && Evolves(view, later)
    ensures CallsOk(calls, later)
  {
    forall i | 0 <= i < |calls| ensures IsTry(calls[i], later) {
      assert IsTry(calls[i], view);
      var p :| 0 <= p < |view| && view[p].subTaskId == calls[i].subTask && view[p].agentId == calls[i].agentId
               && 1 <= calls[i].attempt <= view[p].attempts;
      assert later[p].subTaskId == calls[i].subTask;
    }
  }

  lemma {:induction false} CallAdded(calls: seq<Call>, view: seq<WorkItem>, later: seq<WorkItem>, p: nat, call: Call)
    requires CallsOk(calls, view) && OneEach(view) && Evolves(view, later) && p < |view|
    requires later[p].attempts == view[p].attempts + 1
    requires call.subTask == later[p].subTaskId && call.agentId == later[p].agentId && call.attempt == later[p].attempts
    ensures CallsOk(calls + [call], later)
  {
    var more := calls + [call];
    CallsEvolve(calls, view, later);
    forall i | 0 <= i < |calls| && calls[i].subTask == call.subTask ensures calls[i].attempt < call.attempt {
      assert IsTry(calls[i], view);
    }
    forall i | 0 <= i < |more| ensures IsTry(more[i], later) {
      if i < |calls| { assert IsTry(calls[i], later); }
    }
  }

  lemma {:induction false} MovesEvolve(view: seq<WorkItem>, later: seq<WorkItem>)
    requires MovesOn(view, later)
    ensures Evolves(view, later)
  {
  }

  /** A step makes no call, or it takes up one item and makes its next numbered call. */
  lemma {:induction false} NewCall(env: Env, s: State) returns (p: nat)
    requires Wf(s)
    ensures Wf(Step(env, s))
    ensures var t := Step(env, s);
            t.calls == s.calls
            || (t.pc.Awaiting? && t.calls == s.calls + [t.pc.call] && p < |Items(s)| && p < |Items(t)|
                && t.pc.call.subTask == Items(t)[p].subTaskId && t.pc.call.agentId == Items(t)[p].agentId
                && t.pc.call.attempt == Items(t)[p].attempts == Items(s)[p].attempts + 1)
  {
    hide Wf, OwnIds, RunItem, Measure, IndexOf, BuildSynthesis, EnqueueReady;
    StepFacts(env, s);
    WfHeld(s);
    WfHeld(Step(env, s));
    p := 0;
    match s.pc
    case Finished =>
    case Top =>
      var next := Best(s.mission.itemIds, s.items);
      if next.Some? {
        RunItemShape(env, s, next.value);
        p := Pos(s, next.value);
      }
    case Awaiting(_, call) =>
      match env.answer(call)
      case Raised(_) =>
      case Returned(output) =>
        StoredShape(s, output);
        StoredFacts(s, output);
        EnqueueReadyFacts(env, Stored(s, output));
  }

  lemma {:induction false} StepCallsOk(env: Env, s: State)
    requires Inv(s) && CallsOk(s.calls, Items(s))
    ensures Wf(Step(env, s)) && CallsOk(Step(env, s).calls, Items(Step(env, s)))
  {
    hide Wf, Held, View, ItemOk, PcOk, ReadyIffEnqueued, Step, CallsOk, Evolves, MovesOn, RecordsFor;
    WfHeld(s);
    StepMoves(env, s);
    var t := Step(env, s);
    WfHeld(t);
    var p := NewCall(env, s);
    MovesEvolve(Items(s), Items(t));
    if t.calls == s.calls {
      CallsEvolve(s.calls, Items(s), Items(t));
    } else {
      CallAdded(s.calls, Items(s), Items(t), p, t.pc.call);
    }
  }

  lemma {:induction false} StepsCallsOk(env: Env, s: State, n: nat)
    requires Inv(s) && CallsOk(s.calls, Items(s))
    ensures CallsOk(Steps(env, s, n).calls, Items(Steps(env, s, n)))
    decreases n
  {
    hide Wf, Held, Step, Steps, View, CallsOk, ItemsOk, PcOk, ReadyIffEnqueued;
    if n == 0 {
      NoSteps(env, s);
    } else {
      StepOk(env, s);
      StepCallsOk(env, s);
      StepsOn(env, s, n);
      WfHeld(Step(env, s));
      StepsCallsOk(env, Step(env, s), n - 1);
    }
  }

  /** No try of a sub-task is made twice, none comes after a later one, and there are at most three.
      (So letting an agent's answer depend on the number of the try covers every behaviour.) */
  lemma {:induction false} TriesAreNumbered(launch: Env, env: Env, job: Job, n: nat)
    requires Launchable(job)
    ensures var calls := Reached(launch, env, job, n).calls;
            && (forall i :: 0 <= i < |calls| ==> HasId(job.plan, calls[i].subTask) && 1 <= calls[i].attempt <= 3)
            && (forall i, j :: 0 <= i < j < |calls| && calls[i].subTask == calls[j].subTask ==>
                  calls[i].attempt < calls[j].attempt)
  {
    LaunchOk(launch, job);
    LaunchWf(launch, job);
    StepsCallsOk(env, Begin(Launch(launch, job)), n);
    ReachedOk(launch, env, job, n);
    var s := Reached(launch, env, job, n);
    hide Steps, Launch, RecordsFor, ReadyIffEnqueued, PcOk;
    forall i | 0 <= i < |s.calls| ensures HasId(job.plan, s.calls[i].subTask) && 1 <= s.calls[i].attempt <= 3 {
      assert IsTry(s.calls[i], Items(s));
      var p :| 0 <= p < |Items(s)| && Items(s)[p].subTaskId == s.calls[i].subTask
          && 1 <= s.calls[i].attempt <= Items(s)[p].attempts;
      assert ItemOk(s.mission.plan, s.mission.results, Items(s)[p]);
    }
  }

  // ---------- at the end ----------

  lemma {:induction false} ResultsCount(s: State)
    requires Inv(s)
    ensures |s.mission.results| == |s.mission.plan|
            <==> (forall k :: 0 <= k < |s.mission.plan| ==> s.mission.plan[k].id in s.mission.results)
  {
    var ids, done := PlanIds(s.mission.plan), s.mission.results.Keys;
    hide ViewOk, ReadyIffEnqueued, PcOk, RecordsFor;
    EnqueuedIsView(s);
    forall id | id in done ensures id in ids {
      var p :| 0 <= p < |Items(s)| && Items(s)[p].subTaskId == id;
      var k := IndexOf(s.mission.plan, s.items[s.mission.itemIds[p]].subTaskId);
      assert s.mission.plan[k].id == id;
    }
    PlanIdsCount(s.mission.plan);
    SubsetCount(done, ids);
    if forall k :: 0 <= k < |s.mission.plan| ==> s.mission.plan[k].id in s.mission.results {
      assert ids <= done;
      assert ids == done;
    }
  }

  lemma {:induction false} SubsetCount(a: set<Id>, b: set<Id>)
    requires a <= b
    ensures |a| == |b| <==> a == b
  {
    assert |b| == |a| + |b - a| by { assert b == a + (b - a); }
  }

  lemma {:induction false} FinishedReachedIsRun(launch: Env, env: Env, job: Job, n: nat)
    requires Launchable(job) && Reached(launch, env, job, n).pc.Finished?
    ensures Wf(Begin(Launch(launch, job))) && Reached(launch, env, job, n) == Run(env, Begin(Launch(launch, job)))
  {
    LaunchWf(launch, job);
    FinishedIsRun(env, Begin(Launch(launch, job)), n);
  }

  /** One section per sub-task, in plan order. */
  ghost predicate InPlanOrder(sections: seq<Section>, plan: Plan, results: map<Id, Output>)
    requires forall k :: 0 <= k < |plan| ==> plan[k].id in results
  {
    |sections| == |plan| && forall k :: 0 <= k < |plan| ==>
                              sections[k] == Section(plan[k].taskType, results[plan[k].id].text)
  }

  lemma {:induction false} SynthesisSections(plan: Plan, results: map<Id, Output>)
    requires forall k :: 0 <= k < |plan| ==> plan[k].id in results
    ensures InPlanOrder(Sections(plan, results), plan, results)
  {
    if plan != [] {
      assert forall k :: 0 <= k < |plan[1..]| ==> plan[1..][k] == plan[k + 1];
      SynthesisSections(plan[1..], results);
    }
  }

  /** A section is rendered under the name of its task type. */
  lemma {:induction false} RenderedOne(t: TaskType, text: string)
    ensures Rendered([Section(t, text)]) == "## " + TaskName(t) + "\n" + text
  {
    hide TaskName;
  }

  lemma {:induction false} TaskNames()
    ensures TaskName(DocumentAnalysis) == "document_analysis" && TaskName(LegalResearch) == "legal_research"
    ensures TaskName(JurisprudenceResearch) == "jurisprudence_research" && TaskName(RiskAnalysis) == "risk_analysis"
    ensures TaskName(Reasoning) == "reasoning" && TaskName(Drafting) == "drafting"
    ensures TaskName(Verification) == "verification" && TaskName(QualityControl) == "quality_control"
    ensures TaskName(Coordination) == "coordination" && TaskName(Critique) == "critique"
  {
  }

  lemma {:induction false} RenderedMore(a: seq<Section>, last: Section)
    requires a != []
    ensures Rendered(a + [last]) == Rendered(a) + "\n\n" + Rendered([last])
  {
    hide Headed;
    assert (a + [last])[..|a|] == a;
    assert Rendered([last]) == Headed(last);
  }

  /** Between two sections there is an empty line. */
  lemma {:induction false} RenderedParts(a: seq<Section>, b: seq<Section>)
    requires a != [] && b != []
    ensures Rendered(a + b) == Rendered(a) + "\n\n" + Rendered(b)
  {
    hide Rendered;
    var n := |b| - 1;
    if n == 0 {
      assert b == [b[0]];
      RenderedMore(a, b[0]);
    } else {
      RenderedParts(a, b[..n]);
      RenderedMore(b[..n], b[n]);
      RenderedMore(a + b[..n], b[n]);
      assert b == b[..n] + [b[n]] && a + b == a + b[..n] + [b[n]];
    }
  }

  lemma {:induction false} Verdict(s: State)
    requires Inv(s) && s.pc.Finished?
    ensures var m := s.mission;
            && (m.status == MissionCompleted <==> forall k :: 0 <= k < |m.plan| ==> m.plan[k].id in m.results)
            && (m.status != MissionCompleted ==> m.status == MissionFailed && m.synthesis == None)
            && (m.status == MissionCompleted ==> m.synthesis == Some(Rendered(Sections(m.plan, m.results))))
  {
    hide ItemsOk, ReadyIffEnqueued, Rendered, Sections;
    ResultsCount(s);
  }

  /** A finished mission is completed exactly when every sub-task has a result; its synthesis is then the
      rendering of one section per sub-task, in plan order, and otherwise there is none. */
  lemma {:induction false} CompletedIffAllResults(launch: Env, env: Env, job: Job, n: nat)
    requires Launchable(job) && Reached(launch, env, job, n).pc.Finished?
    ensures var m := Reached(launch, env, job, n).mission;
            && (m.status == MissionCompleted <==> forall k :: 0 <= k < |job.plan| ==> job.plan[k].id in m.results)
            && (m.status != MissionCompleted ==> m.status == MissionFailed && m.synthesis == None)
            && (m.status == MissionCompleted ==>
                  exists sections ::
                      InPlanOrder(sections, job.plan, m.results) && m.synthesis == Some(Rendered(sections)))
  {
    hide Reached, ItemsOk, PcOk, ReadyIffEnqueued, Wf, Rendered, Sections, InPlanOrder;
    ReachedOk(launch, env, job, n);
    var s := Reached(launch, env, job, n);
    Verdict(s);
    if s.mission.status == MissionCompleted {
      SynthesisSections(job.plan, s.mission.results);
    }
  }

  // ---------- blame ----------

  /** Dependencies name sub-tasks of the plan and lower the rank: the plan has no cycle. */
  ghost predicate Acyclic(plan: Plan, rank: map<Id, nat>) {
    && (forall k :: 0 <= k < |plan| ==> plan[k].id in rank)
    && (forall k, d :: 0 <= k < |plan| && d in plan[k].dependsOn ==>
          HasId(plan, d) && d in rank && rank[d] < rank[plan[k].id])
  }

  /** The sub-task was ready, was tried to the last attempt, and has no result. */
  ghost predicate Culprit(s: State, k: int)
    requires Held(s)
  {
    && 0 <= k < |s.mission.plan|
    && DepsMet(s.mission.plan[k], s.mission.results)
    && s.mission.plan[k].id !in s.mission.results
    && exists p :: 0 <= p < |Items(s)| && Items(s)[p].subTaskId == s.mission.plan[k].id
                   && Items(s)[p].status.Failed? && Items(s)[p].attempts == Items(s)[p].maxAttempts
  }

  /** In a finished run a ready sub-task without a result has failed for good. */
  lemma {:induction false} ReadyWithoutResultFailed(s: State, k: nat)
    requires Inv(s) && s.pc.Finished? && k < |s.mission.plan|
    requires DepsMet(s.mission.plan[k], s.mission.results) && s.mission.plan[k].id !in s.mission.results
    ensures Culprit(s, k)
  {
    EnqueuedIsView(s);
    hide DepsMet, RecordsFor, HasId, IndexOf, DistinctIds, OwnIds;
    var p :| 0 <= p < |Items(s)| && Items(s)[p].subTaskId == s.mission.plan[k].id;
    assert ItemOk(s.mission.plan, s.mission.results, Items(s)[p]);
    assert Items(s)[p].status.Failed?;
  }

  lemma {:induction false} FindCulprit(s: State, k: nat, rank: map<Id, nat>) returns (c: nat)
    requires Inv(s) && s.pc.Finished? && Acyclic(s.mission.plan, rank)
    requires k < |s.mission.plan| && s.mission.plan[k].id !in s.mission.results
    ensures Culprit(s, c)
    decreases rank[s.mission.plan[k].id]
  {
    if DepsMet(s.mission.plan[k], s.mission.results) {
      ReadyWithoutResultFailed(s, k);
      c := k;
    } else {
      hide Inv, Culprit;
      var d :| d in s.mission.plan[k].dependsOn && d !in s.mission.results;
      c := FindCulprit(s, IndexOf(s.mission.plan, d), rank);
    }
  }

  /** A failed mission over an acyclic plan names a culprit: a sub-task whose dependencies all have
      results and whose own work item has used up its attempts. */
  lemma {:induction false} Blame(launch: Env, env: Env, job: Job, n: nat, rank: map<Id, nat>)
    requires Launchable(job) && Acyclic(job.plan, rank)
    requires Reached(launch, env, job, n).pc.Finished?
    ensures var s := Reached(launch, env, job, n);
            s.mission.status == MissionFailed <==> exists c :: Culprit(s, c)
  {
    ReachedOk(launch, env, job, n);
    CompletedIffAllResults(launch, env, job, n);
    var s := Reached(launch, env, job, n);
    hide Reached, Wf, ItemsOk, ReadyIffEnqueued;
    if s.mission.status == MissionFailed {
      var k :| 0 <= k < |job.plan| && job.plan[k].id !in s.mission.results;
      var c := FindCulprit(s, k, rank);
    }
  }

}
