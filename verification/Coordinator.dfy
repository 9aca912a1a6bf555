/** The classes of the coordinator, each method proved to compute the corresponding function of
    `MissionModel`.  Here an agent call returns before anything else happens; what other missions may do
    during a call is the subject of `MissionInterleaving`. */
module Coordinator {
  import opened Optional
  import opened MissionModel
  import opened MissionRun
  import opened MissionSafety
  import opened MissionInterleaving
  import opened MissionRefinement
  import opened MissionRerun
  import Planner

  class WorkQueue {
    var items: map<ItemId, WorkItem>

    constructor ()
      ensures items == map[]
    {
      items := map[];
    }

    method Enqueue(item: WorkItem)
      modifies this
      ensures items == old(items)[item.id := item]
    {
      items := items[item.id := item];
    }

    method Get(i: ItemId) returns (r: Option<WorkItem>)
      ensures r == if i in items then Some(items[i]) else None
    {
      r := if i in items then Some(items[i]) else None;
    }

    method SetRunning(i: ItemId)
      requires i in items
      modifies this
      ensures items == MarkRunning(old(items), i)
    {
      var item := items[i];
      item := item.(status := Running);
      item := item.(attempts := item.attempts + 1);
      items := items[i := item];
    }

    method SetDone(i: ItemId, output: Output)
      requires i in items
      modifies this
      ensures items == MarkDone(old(items), i, output)
    {
      var item := items[i];
      item := item.(status := Done);
      item := item.(result := Some(output));
      items := items[i := item];
    }

    method SetFailed(i: ItemId)
      requires i in items
      modifies this
      ensures items == MarkFailed(old(items), i)
    {
      var item := items[i];
      if item.attempts < item.maxAttempts {
        item := item.(status := Retrying);
      } else {
        item := item.(status := Failed);
      }
      items := items[i := item];
    }
  }

  class DelegationEngine {
    const registry: map<string, Role>
    var records: seq<Record>

    constructor (registry: map<string, Role>)
      ensures this.registry == registry && records == []
    {
      this.registry := registry;
      records := [];
    }

    /** The first suitable member of the team, if any; the decision is recorded either way. */
    method AssignAgent(missionId: Id, st: SubTask, team: seq<string>) returns (agent: Option<string>)
      modifies this
      ensures records == old(records) + [Record(missionId, st.id, agent)]
      ensures agent == Assign(registry, team, st.role)
      ensures agent.Some? ==> exists k :: 0 <= k < |team| && team[k] == agent.value
                                          && team[k] in registry && registry[team[k]] == st.role
                                          && forall j :: 0 <= j < k ==>
                                               team[j] !in registry || registry[team[j]] != st.role
      ensures agent.None? ==>
                forall j :: 0 <= j < |team| ==> team[j] !in registry || registry[team[j]] != st.role
    {
      agent := None;
      for k := 0 to |team|
        invariant agent.None? && records == old(records)
        invariant Assign(registry, team, st.role) == Assign(registry, team[k..], st.role)
        invariant forall j :: 0 <= j < k ==> !Fits(team[j], st.role)
      {
        if Fits(team[k], st.role) {
          agent := Some(team[k]);
          records := records + [Record(missionId, st.id, agent)];
          return;
        }
      }
      records := records + [Record(missionId, st.id, None)];
    }

    predicate Fits(agentId: string, role: Role) {
      agentId in registry && registry[agentId] == role
    }

    method RecordsForMission(missionId: Id) returns (found: seq<Record>)
      ensures found == RecordsFor(records, missionId)
    {
      found := [];
      for i := 0 to |records|
        invariant found == RecordsFor(records[..i], missionId)
      {
        assert records[..i + 1][..i] == records[..i];
        if records[i].missionId == missionId {
          found := found + [records[i]];
        }
      }
      assert records[..|records|] == records;
    }
  }

  class MissionRecord {
    const id: Id
    const plan: Plan
    const summary: string
    var status: MissionStatus
    var itemIds: seq<ItemId>
    var results: map<Id, Output>
    var synthesis: Option<string>

    constructor (id: Id, plan: Plan, summary: string)
      ensures Value() == Mission(id, plan, summary, MissionCreated, [], map[], None)
    {
      this.id, this.plan, this.summary := id, plan, summary;
      status, itemIds, results, synthesis := MissionCreated, [], map[], None;
    }

    ghost function Value(): Mission
      reads this
    {
      Mission(id, plan, summary, status, itemIds, results, synthesis)
    }
  }

  /** What people decide about a mission or its team. */
  datatype HumanDecision =
    | ApproveWork | ModifyPlan | ExcludeAgent(agentId: string) | AddAgent(agentId: string)
    | RequestNewAnalysis(subTaskId: Id) | RerunSteps(subTaskIds: seq<Id>)

  function Without(team: seq<string>, agentId: string): seq<string> {
    if team == [] then []
    else Without(team[..|team| - 1], agentId) + if team[|team| - 1] == agentId then [] else [team[|team| - 1]]
  }

  lemma {:induction false} WithoutMembers(team: seq<string>, agentId: string)
    ensures forall a :: a in Without(team, agentId) <==> a in team && a != agentId
    ensures agentId !in team ==> Without(team, agentId) == team
  {
    if team != [] {
      WithoutMembers(team[..|team| - 1], agentId);
      assert team == team[..|team| - 1] + [team[|team| - 1]];
    }
  }

  /** Taking an agent out of a team takes it out of the part before it and the part after it, and leaves their
      order alone. */
  lemma {:induction false} WithoutParts(before: seq<string>, agentId: string, after: seq<string>)
    ensures Without(before + [agentId] + after, agentId) == Without(before, agentId) + Without(after, agentId)
  {
    var team := before + [agentId] + after;
    if after == [] {
      assert team == before + [agentId] && team[..|team| - 1] == before;
    } else {
      var n := |after| - 1;
      WithoutParts(before, agentId, after[..n]);
      assert team[..|team| - 1] == before + [agentId] + after[..n];
    }
  }

  class CoordinatorEngine {
    const queue: WorkQueue
    const delegation: DelegationEngine
    const agents: set<string>
    const answer: Call -> Outcome
    const stamp: ItemId -> int
    var missions: map<Id, MissionRecord>

    constructor (queue: WorkQueue, delegation: DelegationEngine, agents: set<string>, answer: Call -> Outcome,
                 stamp: ItemId -> int)
      requires queue.items == map[] && delegation.records == []
      ensures Valid() && missions == map[] && this.queue == queue && this.delegation == delegation
    {
      this.queue, this.delegation, this.agents, this.answer, this.stamp := queue, delegation, agents, answer, stamp;
      missions := map[];
    }

    ghost function EnvOf(team: seq<string>): Env {
      Env(delegation.registry, team, agents, answer, stamp)
    }

    ghost function Snapshot(m: MissionRecord, context: Context, calls: seq<Call>, pc: Pc): State
      reads m, queue, delegation
    {
      State(m.Value(), queue.items, delegation.records, context, calls, pc)
    }

    ghost function Abs(): System
      reads this, queue, delegation, missions.Values
    {
      System(map k | k in missions :: Local(missions[k].Value(), map[], [], Top, 0), queue.items, delegation.records)
    }

    /** The store, the queue and the log describe well-formed missions and nothing else. */
    ghost predicate Valid()
      reads this, queue, delegation, missions.Values
    {
      SystemOk(Abs())
    }

    // ---------- the helpers of the loop ----------

    method EnqueuedSubTasks(m: MissionRecord) returns (ids: set<Id>)
      ensures ids == Enqueued(m.itemIds, queue.items)
    {
      ids := {};
      for p := 0 to |m.itemIds|
        invariant ids == Enqueued(m.itemIds[..p], queue.items)
      {
        var item := queue.Get(m.itemIds[p]);
        EnqueuedSnoc(m.itemIds, queue.items, p);
        if item.Some? {
          ids := ids + {item.value.subTaskId};
        }
      }
      assert m.itemIds[..|m.itemIds|] == m.itemIds;
    }

    static lemma {:induction false} EnqueuedSnoc(ids: seq<ItemId>, items: map<ItemId, WorkItem>, p: nat)
      requires p < |ids|
      ensures Enqueued(ids[..p + 1], items) ==
              Enqueued(ids[..p], items) + if ids[p] in items then {items[ids[p]].subTaskId} else {}
    {
      var a, b := Enqueued(ids[..p + 1], items), Enqueued(ids[..p], items);
      forall x | x in b ensures x in a {
        var q :| 0 <= q < p && ids[..p][q] in items && items[ids[..p][q]].subTaskId == x;
        assert ids[..p + 1][q] == ids[q];
      }
      forall x | x in a ensures x in b + if ids[p] in items then {items[ids[p]].subTaskId} else {} {
        var q :| 0 <= q < p + 1 && ids[..p + 1][q] in items && items[ids[..p + 1][q]].subTaskId == x;
        if q < p { assert ids[..p][q] == ids[q]; }
      }
      if ids[p] in items { assert ids[..p + 1][p] in items; }
    }

    method EnqueueReadySubTasks(m: MissionRecord, team: seq<string>, ghost context: Context, ghost calls: seq<Call>,
                                ghost pc: Pc)
      modifies queue, delegation, m`itemIds
      ensures Snapshot(m, context, calls, pc) == EnqueueReady(EnvOf(team), old(Snapshot(m, context, calls, pc)))
    {
      hide Enqueued, Assign, DepsMet, EnqueueFrom;
      ghost var before := Snapshot(m, context, calls, pc);
      var enqueued := EnqueuedSubTasks(m);
      for k := 0 to |m.plan|
        invariant m.results == old(m.results) && m.status == old(m.status) && m.synthesis == old(m.synthesis)
        invariant EnqueueFrom(EnvOf(team), Snapshot(m, context, calls, pc), enqueued, k)
                  == EnqueueReady(EnvOf(team), before)
      {
        var st := m.plan[k];
        ghost var now := Snapshot(m, context, calls, pc);
        EnqueueNext(EnvOf(team), now, enqueued, k);
        if st.id in enqueued || !DepsMet(st, m.results) {
          continue;
        }
        var agent := delegation.AssignAgent(m.id, st, team);
        var id := ItemId(m.id, |m.itemIds|);
        queue.Enqueue(WorkItem(id, st.id, AgentOr(agent), |m.plan| - k, Pending, 0, 3, stamp(id), None));
        m.itemIds := m.itemIds + [id];
        assert Snapshot(m, context, calls, pc) == AddItem(EnvOf(team), now, k);
      }
      NothingToEnqueue(EnvOf(team), Snapshot(m, context, calls, pc), enqueued);
    }

    static lemma {:induction false} EnqueueNext(env: Env, s: State, enqueued: set<Id>, k: nat)
      requires k < |s.mission.plan|
      ensures EnqueueFrom(env, s, enqueued, k) ==
              if s.mission.plan[k].id in enqueued || !DepsMet(s.mission.plan[k], s.mission.results)
              then EnqueueFrom(env, s, enqueued, k + 1) else EnqueueFrom(env, AddItem(env, s, k), enqueued, k + 1)
    {
      hide DepsMet, Assign;
    }

    static lemma {:induction false} NothingToEnqueue(env: Env, s: State, enqueued: set<Id>)
      ensures EnqueueFrom(env, s, enqueued, |s.mission.plan|) == s
    {
    }

    method NextRunnableItem(m: MissionRecord) returns (next: Option<ItemId>)
      ensures next == Best(m.itemIds, queue.items)
    {
      next := None;
      for p := 0 to |m.itemIds|
        invariant next == Best(m.itemIds[..p], queue.items)
      {
        assert m.itemIds[..p + 1][..p] == m.itemIds[..p];
        var item := queue.Get(m.itemIds[p]);
        if item.Some? && Runnable(item.value) {
          if next.None? {
            next := Some(m.itemIds[p]);
          } else {
            var best := queue.Get(next.value);
            if Better(item.value, best.value) {
              next := Some(m.itemIds[p]);
            }
          }
        }
      }
      assert m.itemIds[..|m.itemIds|] == m.itemIds;
    }

    // ---------- launching ----------

    /** `id` and `newId` stand for the random identifiers of the new mission and its sub-tasks. */
    method LaunchMission(id: Id, newId: nat -> Id, summary: string, domain: Planner.LegalDomain, caseType: string,
                         team: seq<string>)
      returns (m: MissionRecord)
      requires Valid() && id !in missions
      requires forall i, j :: i != j ==> newId(i) != newId(j)
      modifies this, queue, delegation
      ensures Valid() && fresh(m) && missions == old(missions)[id := m]
      ensures m.id == id && m.summary == summary
      ensures Planner.IsChain(m.plan)
      ensures Planner.HasKinds(m.plan, Planner.MissionKinds(Planner.TemplateFor(caseType), Planner.ExpertFor(domain)))
      ensures Snapshot(m, map[], [], Top) ==
              Launch(EnvOf(team), Job(id, m.plan, summary, old(queue.items), old(delegation.records)))
    {
      hide Launch, SystemOk, Wf, DistinctIds, Put, EnqueueReady, Planner.IsChain, Planner.HasKinds, Planner.TemplateFor,
           Planner.MissionKinds, Planner.ExpertFor;
      ghost var g := Abs();
      var plan := Planner.Decompose(domain, caseType, newId);
      Planner.ChainIsOrdered(plan);
      m := new MissionRecord(id, plan, summary);
      ghost var job := Job(id, plan, summary, queue.items, delegation.records);
      EnqueueReadySubTasks(m, team, map[], [], Top);
      missions := missions[id := m];
      LaunchIsEnqueue(EnvOf(team), job);
      LaunchedSystem(EnvOf(team), g, job);
      SameSystem(g, id, Snapshot(m, map[], [], Top));
    }

    static lemma {:induction false} LaunchIsEnqueue(env: Env, job: Job)
      ensures Launch(env, job) == EnqueueReady(env, Blank(job))
    {
    }

    static lemma {:induction false} LaunchedSystem(env: Env, g: System, job: Job)
      requires SystemOk(g) && job.id !in g.missions && job.items == g.items && job.records == g.records
               && DistinctIds(job.plan)
      ensures SystemOk(Put(g, job.id, Launch(env, job), 0))
    {
      hide Wf, SystemOk, OnlyOwn, Launchable, EnqueueReady, Put;
      FreshJob(g, job.id, job.plan, job.summary);
      LaunchWf(env, job);
      EnqueueReadyOnlyOwn(env, Blank(job));
      PutOk(g, job.id, Blank(job), Launch(env, job), 0);
    }

    // ---------- running ----------

    /** One iteration of the loop for the item it picked: call the agent, if there is one, and store
        what came of it. */
    method RunNext(m: MissionRecord, team: seq<string>, i: ItemId, context: Context, ghost calls: seq<Call>)
      returns (newContext: Context, ghost newCalls: seq<Call>)
      requires Wf(Snapshot(m, context, calls, Top)) && i in m.itemIds
      modifies queue, delegation, m`itemIds, m`results
      ensures var s := RunItem(EnvOf(team), old(Snapshot(m, context, calls, Top)), i);
              && (s.pc.Awaiting? ==> Wf(s))
              && Snapshot(m, newContext, newCalls, Top) == if s.pc.Awaiting? then Resume(EnvOf(team), s) else s
    {
      hide Wf, Held, OwnIds, HasId, IndexOf, Slice, EnqueueReady;
      newContext, newCalls := context, calls;
      ghost var s0 := Snapshot(m, context, calls, Top);
      WfHeld(s0);
      var item := queue.items[i];
      var st := m.plan[IndexOf(m.plan, item.subTaskId)];
      ghost var s := RunItem(EnvOf(team), s0, i);
      MeasureUpdatedByRun(EnvOf(team), s0, i);
      queue.SetRunning(i);
      if item.agentId == "" || item.agentId !in agents {
        queue.SetFailed(i);
        return;
      }
      var call := Call(st.id, item.agentId, Slice(st.role, context), item.attempts + 1);
      newCalls := calls + [call];
      assert Snapshot(m, context, newCalls, Awaiting(i, call)) == s;
      match answer(call)
      case Raised(_) =>
        queue.SetFailed(i);
      case Returned(output) =>
        queue.SetDone(i, output);
        m.results := m.results[st.id := output];
        newContext := context[ResultOf(st.taskType) := output.text];
        assert Snapshot(m, newContext, newCalls, Top) == Stored(s, output);
        EnqueueReadySubTasks(m, team, newContext, newCalls, Top);
    }

    /** The state while an agent works is well-formed. */
    static lemma {:induction false} MeasureUpdatedByRun(env: Env, s: State, i: ItemId)
      requires Wf(s) && s.pc.Top? && i in s.mission.itemIds
      ensures RunItem(env, s, i).pc.Awaiting? ==> Wf(RunItem(env, s, i))
    {
      hide Wf, Held, OwnIds, RunItem, Measure;
      RunItemShape(env, s, i);
      var r := RunItem(env, s, i);
      if r.pc.Awaiting? { MeasureUpdated(s, i, r.items[i], r); }
    }

    static lemma {:induction false} RunOnlyOwn(env: Env, s: State)
      requires Wf(s)
      ensures OnlyOwn(s, Run(env, s), s.mission.id)
      decreases Measure(s)
    {
      hide OnlyOwn, Wf, Step;
      StepFacts(env, s);
      if s.pc.Finished? {
        assert Run(env, s) == s;
        NothingChanged(s);
      } else {
        StepOnlyOwn(env, s);
        RunOnlyOwn(env, Step(env, s));
        OnlyOwnTransitive(s, Step(env, s), Run(env, s), s.mission.id);
      }
    }

    static lemma {:induction false} NothingChanged(s: State)
      ensures OnlyOwn(s, s, s.mission.id)
    {
    }

    static lemma {:induction false} RunOfNext(env: Env, s: State, i: ItemId, t: State)
      requires Wf(s) && s.pc.Top? && Best(s.mission.itemIds, s.items) == Some(i)
      requires var r := RunItem(env, s, i);
               (r.pc.Awaiting? ==> Wf(r)) && t == if r.pc.Awaiting? then Resume(env, r) else r
      ensures Wf(t) && Measure(t) < Measure(s) && Run(env, t) == Run(env, s) && SameMission(s, t)
    {
      StepFacts(env, s);
      var r := RunItem(env, s, i);
      assert r == Step(env, s);
      hide Wf, RunItem, Resume, Measure;
      if r.pc.Awaiting? { StepFacts(env, r); }
    }

    static lemma {:induction false} RunOfNothing(env: Env, s: State)
      requires Wf(s) && s.pc.Top? && Best(s.mission.itemIds, s.items).None?
      ensures Run(env, s) == Finish(s)
    {
      StepFacts(env, s);
    }

    /** The loop, and the verdict after it. */
    method RunLoop(m: MissionRecord, team: seq<string>) returns (ghost final: State)
      requires Wf(Snapshot(m, map[], [], Top))
      modifies queue, delegation, m
      ensures var start := Begin(old(Snapshot(m, map[], [], Top)));
              && Wf(start) && final == Run(EnvOf(team), start)
              && final == Snapshot(m, final.context, final.calls, Finished)
    {
      hide DistinctIds, HasId, OwnIds, RunItem, Resume, Run, Measure, Best, EnqueueReady;
      BeginFacts(Snapshot(m, map[], [], Top));
      m.status := MissionRunning;
      var context: Context := map[CaseSummary := m.summary];
      ghost var calls: seq<Call> := [];
      ghost var start := Snapshot(m, context, calls, Top);
      while true
        invariant Wf(Snapshot(m, context, calls, Top))
        invariant Run(EnvOf(team), Snapshot(m, context, calls, Top)) == Run(EnvOf(team), start)
        decreases Measure(Snapshot(m, context, calls, Top))
      {
        ghost var before := Snapshot(m, context, calls, Top);
        var next := NextRunnableItem(m);
        if next.None? {
          break;
        }
        context, calls := RunNext(m, team, next.value, context, calls);
        RunOfNext(EnvOf(team), before, next.value, Snapshot(m, context, calls, Top));
      }
      RunOfNothing(EnvOf(team), Snapshot(m, context, calls, Top));
      if |m.results| == |m.plan| {
        m.synthesis := Some(BuildSynthesis(m.plan, m.results));
        m.status := MissionCompleted;
      } else {
        m.status := MissionFailed;
      }
      final := Snapshot(m, context, calls, Finished);
    }

    /** Missions are stored under their own identifiers, so no two entries are the same object. */
    lemma {:induction false} DistinctRecords()
      requires Valid()
      ensures forall k :: k in missions ==> missions[k].id == k
    {
      assert forall k :: k in missions ==> Abs().missions[k].mission.id == k;
    }

    lemma {:induction false} SameSystem(g: System, id: Id, f: State)
      requires missions.Keys == g.missions.Keys + {id}
      requires forall k :: k in missions && k != id ==> g.missions[k] == Local(missions[k].Value(), map[], [], Top, 0)
      requires f.mission == missions[id].Value() && f.items == queue.items && f.records == delegation.records
      ensures Abs() == Put(g, id, Idle(f), 0)
    {
    }

    /** Runs a stored mission to its end.  The final state is the model's, other missions keep their
        items and records, and the store stays well-formed. */
    method RunMission(missionId: Id, team: seq<string>) returns (r: Option<MissionRecord>, ghost final: Option<State>)
      requires Valid()
      modifies queue, delegation, if missionId in missions then {missions[missionId]} else {}
      ensures Valid() && missions == old(missions)
      ensures missionId !in missions ==>
                r == None && final == None && queue.items == old(queue.items)
                    && delegation.records == old(delegation.records)
      ensures missionId in missions ==>
                var start := Begin(old(Snapshot(missions[missionId], map[], [], Top)));
                && r == Some(missions[missionId]) && Wf(start)
                && final == Some(Run(EnvOf(team), start))
                && final.value == Snapshot(missions[missionId], final.value.context, final.value.calls, Finished)
                && OnlyOwn(start, final.value, missionId)
    {
      hide SystemOk, Wf, Held, Run, OnlyOwn, Put;
      if missionId !in missions {
        return None, None;
      }
      ghost var g := Abs();
      var m := missions[missionId];
      WfOfSystem(g, missionId);
      DistinctRecords();
      ghost var start := Begin(Snapshot(m, map[], [], Top));
      ghost var f := RunLoop(m, team);
      r, final := Some(m), Some(f);
      assert forall k :: k in missions && k != missionId ==> missions[k] != m;
      SameSystem(g, missionId, f);
      RunOnlyOwn(EnvOf(team), start);
      RanSystem(g, missionId, start, f);
    }

    // ---------- sending back ----------

    method RerunSubTasks(m: MissionRecord, team: seq<string>, ids: seq<Id>)
      modifies queue, delegation, m`itemIds, m`results, m`status
      ensures Snapshot(m, map[], [], Top) == Rerun(EnvOf(team), old(Snapshot(m, map[], [], Top)), ids)
    {
      hide Assign, HasId, IndexOf;
      ghost var before := Snapshot(m, map[], [], Top);
      assert ids[..0] == [];
      for n := 0 to |ids|
        invariant m.status == old(m.status) && m.synthesis == old(m.synthesis)
        invariant Snapshot(m, map[], [], Top) == RerunAll(EnvOf(team), before, ids[..n])
      {
        assert ids[..n + 1][..n] == ids[..n];
        if HasId(m.plan, ids[n]) {
          ghost var now := Snapshot(m, map[], [], Top);
          ghost var k := IndexOf(m.plan, ids[n]);
          var st := m.plan[IndexOf(m.plan, ids[n])];
          m.results := m.results - {ids[n]};
          var agent := delegation.AssignAgent(m.id, st, team);
          var id := ItemId(m.id, |m.itemIds|);
          queue.Enqueue(WorkItem(id, ids[n], AgentOr(agent), 0, Pending, 0, 3, stamp(id), None));
          m.itemIds := m.itemIds + [id];
          assert Snapshot(m, map[], [], Top) == RerunItem(EnvOf(team), now, k);
        }
      }
      assert ids[..|ids|] == ids;
      m.status := MissionRunning;
    }

    /** Approvals and plan changes do nothing; a change of the team leaves the mission alone; sub-tasks that
        are sent back are enqueued again, and other missions keep their items and records. */
    method ApplyHumanDecision(missionId: Id, team: seq<string>, d: HumanDecision)
      returns (found: bool, newTeam: seq<string>)
      requires Valid()
      modifies queue, delegation, if missionId in missions then {missions[missionId]} else {}
      ensures Valid() && missions == old(missions) && (found <==> missionId in missions)
      ensures !found ==> newTeam == team
      ensures !found || !(d.RequestNewAnalysis? || d.RerunSteps?) ==>
                queue.items == old(queue.items) && delegation.records == old(delegation.records)
                && (found ==> missions[missionId].Value() == old(missions[missionId].Value()))
      ensures found ==>
                match d
                case ExcludeAgent(a) => newTeam == Without(team, a)
                case AddAgent(a) => newTeam == if a in team then team else team + [a]
                case _ => newTeam == team
      ensures found && (d.RequestNewAnalysis? || d.RerunSteps?) ==>
                var s := old(Snapshot(missions[missionId], map[], [], Top));
                var t := Snapshot(missions[missionId], map[], [], Top);
                && t == Rerun(EnvOf(team), s, if d.RerunSteps? then d.subTaskIds else [d.subTaskId])
                && OnlyOwn(s, t, missionId)
    {
      hide SystemOk, Wf, Held, Rerun, OnlyOwn, Put, Without;
      found, newTeam := missionId in missions, team;
      if !found {
        return;
      }
      match d
      case ApproveWork =>
      case ModifyPlan =>
      case ExcludeAgent(a) =>
        newTeam := Without(team, a);
      case AddAgent(a) =>
        if a !in team {
          newTeam := newTeam + [a];
        }
      case RequestNewAnalysis(id) =>
        SendBack(missionId, team, [id]);
      case RerunSteps(ids) =>
        SendBack(missionId, team, ids);
    }

    method SendBack(missionId: Id, team: seq<string>, ids: seq<Id>)
      requires Valid() && missionId in missions
      modifies queue, delegation, missions[missionId]
      ensures Valid() && missions == old(missions)
      ensures var s := old(Snapshot(missions[missionId], map[], [], Top));
              var t := Snapshot(missions[missionId], map[], [], Top);
              t == Rerun(EnvOf(team), s, ids) && OnlyOwn(s, t, missionId)
    {
      hide SystemOk, Wf, Held, Rerun, RerunAll, OnlyOwn, Put;
      ghost var g := Abs();
      var m := missions[missionId];
      WfOfSystem(g, missionId);
      DistinctRecords();
      ghost var s := Snapshot(m, map[], [], Top);
      RerunSubTasks(m, team, ids);
      ghost var t := Snapshot(m, map[], [], Top);
      assert forall k :: k in missions && k != missionId ==> missions[k] != m;
      SameSystem(g, missionId, t);
      SentBackSystem(EnvOf(team), g, missionId, s, ids);
    }

    static lemma {:induction false} SentBackSystem(env: Env, g: System, id: Id, s: State, ids: seq<Id>)
      requires SystemOk(g) && s.mission.id == id && s.items == g.items && s.records == g.records
      requires Wf(s)
      ensures OnlyOwn(s, Rerun(env, s, ids), id) && SystemOk(Put(g, id, Idle(Rerun(env, s, ids)), 0))
    {
      hide SystemOk, Wf, Held, Rerun, RerunAll, OnlyOwn, Put;
      RerunFacts(env, s, ids);
      RerunOnlyOwn(env, s, ids);
      var t := Rerun(env, s, ids);
      IdleWf(t);
      IdleOnlyOwn(s, t, id);
      PutOk(g, id, s, Idle(t), 0);
    }

    static lemma {:induction false} RerunItemOnlyOwn(env: Env, s: State, k: nat)
      requires k < |s.mission.plan|
      ensures OnlyOwn(s, RerunItem(env, s, k), s.mission.id)
    {
      hide Assign;
      var r := Record(s.mission.id, s.mission.plan[k].id, Assign(env.registry, env.team, s.mission.plan[k].role));
      forall m | m != s.mission.id ensures RecordsFor(s.records + [r], m) == RecordsFor(s.records, m) {
        RecordsForAdd(s.records, r, m);
      }
    }

    static lemma {:induction false} RerunOnlyOwn(env: Env, s: State, ids: seq<Id>)
      ensures OnlyOwn(s, Rerun(env, s, ids), s.mission.id)
      ensures OnlyOwn(s, RerunAll(env, s, ids), s.mission.id) && RerunAll(env, s, ids).mission.id == s.mission.id
    {
      if ids == [] {
        NothingChanged(s);
      } else {
        var n := |ids| - 1;
        RerunOnlyOwn(env, s, ids[..n]);
        var t := RerunAll(env, s, ids[..n]);
        if HasId(t.mission.plan, ids[n]) {
          var k := IndexOf(t.mission.plan, ids[n]);
          RerunItemOnlyOwn(env, t, k);
          OnlyOwnTransitive(s, t, RerunItem(env, t, k), s.mission.id);
        }
      }
    }

    /** A mission between runs: what was local to a run is gone. */
    static ghost function Idle(s: State): State {
      s.(context := map[], calls := [], pc := Top)
    }

    static lemma {:induction false} IdleWf(s: State)
      requires Wf(s)
      ensures Wf(Idle(s))
    {
    }

    static lemma {:induction false} IdleOnlyOwn(start: State, s: State, id: Id)
      requires OnlyOwn(start, s, id)
      ensures OnlyOwn(start, Idle(s), id)
    {
    }

    static lemma {:induction false} RanSystem(g: System, id: Id, start: State, f: State)
      requires SystemOk(g) && id in g.missions && start.items == g.items && start.records == g.records
               && f.mission.id == id
      requires Wf(f) && OnlyOwn(start, f, id)
      ensures SystemOk(Put(g, id, Idle(f), 0))
    {
      hide Wf, SystemOk, OnlyOwn;
      IdleWf(f);
      IdleOnlyOwn(start, f, id);
      PutOk(g, id, start, Idle(f), 0);
    }
  }
}
