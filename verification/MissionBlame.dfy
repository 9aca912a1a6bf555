/** For which plans a failed mission always names a culprit: exactly the acyclic ones.  Over any other plan a
    mission fails although every agent does its work. */
module MissionBlame {
  import opened Optional
  import opened MissionModel
  import opened MissionRun
  import opened MissionSafety
  import opened MissionLifecycle
  import opened MissionVerdict
  import opened MissionRefinement

  /** Whatever the agents do, a mission over this plan that fails has a culprit. */
  ghost predicate AlwaysBlamed(job: Job)
    requires Launchable(job)
  {
    forall launch, env, n ::
      Reached(launch, env, job, n).pc.Finished? && Reached(launch, env, job, n).mission.status == MissionFailed ==>
        exists c :: Culprit(Reached(launch, env, job, n), c)
  }

  // ---------- results come in an order ----------

  /** A rank of the results that rises along the dependencies. */
  ghost predicate Ranks(plan: Plan, results: map<Id, Output>, rank: map<Id, nat>) {
    && rank.Keys == results.Keys
    && (forall id :: id in rank ==> rank[id] < |results|)
    && (forall k, d :: 0 <= k < |plan| && plan[k].id in results && d in plan[k].dependsOn ==>
          d in results && rank[d] < rank[plan[k].id])
  }

  lemma {:induction false} OneMore(results: map<Id, Output>, id: Id, output: Output)
    requires id !in results
    ensures |results[id := output]| == |results| + 1
  {
    assert results[id := output].Keys == results.Keys + {id};
  }

  lemma {:induction false} RanksMore(plan: Plan, results: map<Id, Output>, rank: map<Id, nat>, k: nat, output: Output)
    requires Ranks(plan, results, rank) && DistinctIds(plan) && k < |plan|
    requires DepsMet(plan[k], results) && plan[k].id !in results
    ensures Ranks(plan, results[plan[k].id := output], rank[plan[k].id := |results|])
  {
    var id := plan[k].id;
    var more, higher := results[id := output], rank[id := |results|];
    OneMore(results, id, output);
    forall j, d | 0 <= j < |plan| && plan[j].id in more && d in plan[j].dependsOn
        ensures d in more && higher[d] < higher[plan[j].id] {
      if j == k {
        assert d in results && d in rank;
      } else {
        assert plan[j].id in results;
      }
    }
  }

  /** The sub-task that is waited for is ready and has no result. */
  lemma {:induction false} AwaitedIsReady(s: State)
    requires Inv(s) && s.pc.Awaiting?
    ensures var id := s.items[s.pc.item].subTaskId;
            HasId(s.mission.plan, id) && id !in s.mission.results
            && DepsMet(s.mission.plan[IndexOf(s.mission.plan, id)], s.mission.results)
  {
    hide DepsMet, RecordsFor;
    var p := Pos(s, s.pc.item);
    assert Items(s)[p] == s.items[s.pc.item];
    assert ItemOk(s.mission.plan, s.mission.results, Items(s)[p]);
    EnqueuedIsView(s);
  }

  lemma {:induction false} ReturnedResults(env: Env, s: State, output: Output)
    requires Wf(s) && s.pc.Awaiting? && env.answer(s.pc.call) == Returned(output)
    ensures var m, k := Resume(env, s).mission, IndexOf(s.mission.plan, s.items[s.pc.item].subTaskId);
            m.plan == s.mission.plan && m.results == s.mission.results[s.mission.plan[k].id := output]
  {
    StoredFacts(s, output);
    EnqueueReadyFacts(env, Stored(s, output));
    hide Wf, EnqueueReady, Measure;
  }

  lemma {:induction false} StepRanks(env: Env, s: State, rank: map<Id, nat>) returns (later: map<Id, nat>)
    requires Inv(s) && Ranks(s.mission.plan, s.mission.results, rank)
    ensures Ranks(Step(env, s).mission.plan, Step(env, s).mission.results, later)
  {
    hide Wf, ItemsOk, ReadyIffEnqueued, PcOk, Ranks, DepsMet, EnqueueReady, RunItem, Resume;
    later := rank;
    match s.pc
    case Finished =>
    case Top => PickResults(env, s);
    case Awaiting(_, call) =>
      match env.answer(call)
      case Raised(_) => RaisedResults(env, s);
      case Returned(output) =>
        WfHeld(s);
        AwaitedIsReady(s);
        ReturnedResults(env, s, output);
        WfDistinct(s);
        var k := IndexOf(s.mission.plan, s.items[s.pc.item].subTaskId);
        RanksMore(s.mission.plan, s.mission.results, rank, k, output);
        later := rank[s.mission.plan[k].id := |s.mission.results|];
  }

  lemma {:induction false} PickResults(env: Env, s: State)
    requires Wf(s) && s.pc.Top?
    ensures Pick(env, s).mission.plan == s.mission.plan && Pick(env, s).mission.results == s.mission.results
  {
    hide Wf;
  }

  lemma {:induction false} RaisedResults(env: Env, s: State)
    requires Wf(s) && s.pc.Awaiting? && env.answer(s.pc.call).Raised?
    ensures Resume(env, s).mission == s.mission
  {
    hide Wf;
  }

  lemma {:induction false} WfDistinct(s: State)
    requires Wf(s)
    ensures DistinctIds(s.mission.plan)
  {
  }

  lemma {:induction false} StepsRank(env: Env, s: State, n: nat, rank: map<Id, nat>) returns (later: map<Id, nat>)
    requires Inv(s) && Ranks(s.mission.plan, s.mission.results, rank)
    ensures var t := Steps(env, s, n); Ranks(t.mission.plan, t.mission.results, later)
    decreases n
  {
    hide ItemsOk, ReadyIffEnqueued, PcOk, Step, Ranks;
    later := rank;
    if n > 0 {
      StepOk(env, s);
      later := StepRanks(env, s, rank);
      later := StepsRank(env, Step(env, s), n - 1, later);
    }
  }

  lemma {:induction false} ResultsInPlan(s: State)
    requires Inv(s)
    ensures forall id :: id in s.mission.results ==> HasId(s.mission.plan, id)
  {
    EnqueuedIsView(s);
    hide HasId, DistinctIds, RecordsFor, Enqueued, ReadyIffEnqueued, PcOk;
    forall id | id in s.mission.results ensures HasId(s.mission.plan, id) {
      var p :| 0 <= p < |Items(s)| && Items(s)[p].subTaskId == id;
      assert ItemOk(s.mission.plan, s.mission.results, Items(s)[p]);
    }
  }

  /** A plan that was completed once has no cycle. */
  lemma {:induction false} CompletedIsAcyclic(launch: Env, env: Env, job: Job, n: nat) returns (rank: map<Id, nat>)
    requires Launchable(job)
    requires forall k :: 0 <= k < |job.plan| ==> job.plan[k].id in Reached(launch, env, job, n).mission.results
    ensures Acyclic(job.plan, rank)
  {
    var s := Begin(Launch(launch, job));
    hide ItemsOk, ReadyIffEnqueued, PcOk, Wf, Launch, HasId, Begin, Launchable, Ranks;
    LaunchOk(launch, job);
    ReachedIs(launch, env, job, n);
    ReachedOk(launch, env, job, n);
    NoResultsYet(launch, job);
    rank := StepsRank(env, s, n, map[]);
    ResultsInPlan(Reached(launch, env, job, n));
    RanksAll(job.plan, Reached(launch, env, job, n).mission.results, rank);
  }

  lemma {:induction false} RanksAll(plan: Plan, results: map<Id, Output>, rank: map<Id, nat>)
    requires Ranks(plan, results, rank) && forall k :: 0 <= k < |plan| ==> plan[k].id in results
    requires forall id :: id in results ==> HasId(plan, id)
    ensures Acyclic(plan, rank)
  {
    hide HasId;
  }

  lemma {:induction false} ReachedIs(launch: Env, env: Env, job: Job, n: nat)
    requires Launchable(job)
    ensures Wf(Begin(Launch(launch, job))) && Reached(launch, env, job, n) == Steps(env, Begin(Launch(launch, job)), n)
    ensures Reached(launch, env, job, n).mission.plan == job.plan
  {
    LaunchWf(launch, job);
  }

  lemma {:induction false} NoResultsYet(launch: Env, job: Job)
    requires Launchable(job)
    ensures var m := Begin(Launch(launch, job)).mission;
            m.results == map[] && m.plan == job.plan && Ranks(m.plan, m.results, map[])
  {
    assert Wf(Blank(job));
    EnqueueReadyFacts(launch, Blank(job));
  }

  // ---------- agents that do their work ----------

  /** Every role is on the team, and every call is answered. */
  ghost predicate Obliging(env: Env) {
    && (forall role :: AgentOr(Assign(env.registry, env.team, role)) != ""
                       && AgentOr(Assign(env.registry, env.team, role)) in env.agents)
    && forall call :: env.answer(call).Returned?
  }

  lemma {:induction false} AssignFinds(registry: map<string, Role>, team: seq<string>, role: Role)
    requires exists a :: a in team && a in registry && registry[a] == role
    ensures Assign(registry, team, role).Some? && Assign(registry, team, role).value in team
  {
    if !(team[0] in registry && registry[team[0]] == role) {
      assert team == [team[0]] + team[1..];
      AssignFinds(registry, team[1..], role);
    }
  }

  /** Some name for the agent of each role. */
  ghost function NameAt(k: nat): string {
    seq(k + 1, _ => 'a')
  }

  ghost const ROLES: seq<Role> :=
    [RoleCoordinator, DocumentAnalyst, LegalResearcher, JurisprudenceExpert, Drafter, Verifier,
     QualityController, GdprExpert, TaxExpert, SocialLawExpert, Critic]

  lemma {:induction false} EveryRole(role: Role)
    ensures exists k :: 0 <= k < |ROLES| && ROLES[k] == role
  {
    var k := match role
      case RoleCoordinator => 0 case DocumentAnalyst => 1 case LegalResearcher => 2 case JurisprudenceExpert => 3
      case Drafter => 4 case Verifier => 5 case QualityController => 6 case GdprExpert => 7
      case TaxExpert => 8 case SocialLawExpert => 9 case Critic => 10;
    assert ROLES[k] == role;
  }

  lemma {:induction false} SomeoneObliges() returns (env: Env)
    ensures Obliging(env)
  {
    var names := seq(|ROLES|, k requires 0 <= k < |ROLES| => NameAt(k));
    var registry := map a | a in names && 0 < |a| <= |ROLES| :: ROLES[|a| - 1];
    env := Env(registry, names, (set a | a in names), c => Returned(Output("", map[])), i => 0);
    forall role
        ensures AgentOr(Assign(registry, names, role)) != "" && AgentOr(Assign(registry, names, role)) in env.agents {
      EveryRole(role);
      RoleStaffed(registry, names, role);
    }
  }

  lemma {:induction false} RoleStaffed(registry: map<string, Role>, names: seq<string>, role: Role)
    requires |names| == |ROLES| && forall k :: 0 <= k < |ROLES| ==> names[k] == NameAt(k)
    requires forall a :: a in names && 0 < |a| <= |ROLES| ==> a in registry && registry[a] == ROLES[|a| - 1]
    requires exists k :: 0 <= k < |ROLES| && ROLES[k] == role
    ensures Assign(registry, names, role).Some? && Assign(registry, names, role).value in names
    ensures Assign(registry, names, role).value != ""
  {
    var roles := ROLES;
    hide ROLES;
    var k :| 0 <= k < |roles| && roles[k] == role;
    assert |names[k]| == k + 1 && names[k] in names;
    AssignFinds(registry, names, role);
    var j :| 0 <= j < |names| && names[j] == Assign(registry, names, role).value;
    assert |names[j]| == j + 1;
  }

  /** An item that has an agent and has never failed. */
  ghost predicate Untroubled(env: Env, item: WorkItem) {
    item.agentId != "" && item.agentId in env.agents && !item.status.Failed? && !item.status.Retrying?
  }

  ghost predicate AllUntroubled(env: Env, view: seq<WorkItem>) {
    forall p :: 0 <= p < |view| ==> Untroubled(env, view[p])
  }

  lemma {:induction false} MoreUntroubled(env: Env, plan: Plan, enqueued: set<Id>, view: seq<WorkItem>,
                                          later: seq<WorkItem>)
    requires Obliging(env) && AllUntroubled(env, view) && view <= later && FreshFrom(env, plan, enqueued, later, |view|)
    ensures AllUntroubled(env, later)
  {
    forall p | 0 <= p < |later| ensures Untroubled(env, later[p]) {
      if p < |view| { assert later[p] == view[p]; } else { assert Fresh(env, plan, enqueued, later[p]); }
    }
  }

  lemma {:induction false} EnqueueUntroubled(env: Env, s: State)
    requires Wf(s) && Obliging(env) && AllUntroubled(env, Items(s))
    ensures Wf(EnqueueReady(env, s)) && AllUntroubled(env, Items(EnqueueReady(env, s)))
  {
    var enqueued, r := Enqueued(s.mission.itemIds, s.items), EnqueueReady(env, s);
    EnqueueReadyFacts(env, s);
    EnqueueFromFresh(env, s, enqueued, 0);
    hide Obliging, AllUntroubled, FreshFrom, Measure, Enqueued, DistinctIds, HasId, EnqueueFrom;
    MoreUntroubled(env, s.mission.plan, enqueued, Items(s), Items(r));
  }

  lemma {:induction false} RunItemUntroubled(env: Env, s: State, i: ItemId)
    requires Wf(s) && s.pc.Top? && i in s.mission.itemIds && AllUntroubled(env, Items(s))
    ensures Wf(RunItem(env, s, i)) && AllUntroubled(env, Items(RunItem(env, s, i)))
  {
    hide Wf, OwnIds, RunItem, Measure;
    WfHeld(s);
    var r, p := RunItem(env, s, i), Pos(s, i);
    RunItemShape(env, s, i);
    assert Items(s)[p] == s.items[i] && Untroubled(env, Items(s)[p]);
    MeasureUpdated(s, i, r.items[i], r);
  }

  lemma {:induction false} PickUntroubled(env: Env, s: State)
    requires Wf(s) && s.pc.Top? && AllUntroubled(env, Items(s))
    ensures Wf(Pick(env, s)) && AllUntroubled(env, Items(Pick(env, s)))
  {
    PickFacts(env, s);
    WfHeld(s);
    hide Wf, Held, AllUntroubled, RunItem, Finish;
    FinishItems(s);
    var next := Best(s.mission.itemIds, s.items);
    if next.Some? {
      RunItemUntroubled(env, s, next.value);
    }
  }

  lemma {:induction false} ResumeUntroubled(env: Env, s: State)
    requires Wf(s) && s.pc.Awaiting? && Obliging(env) && AllUntroubled(env, Items(s))
    ensures Wf(Resume(env, s)) && AllUntroubled(env, Items(Resume(env, s)))
  {
    assert env.answer(s.pc.call).Returned?;
    var output := env.answer(s.pc.call).output;
    StoredMove(s, output);
    var t, p := Stored(s, output), Pos(s, s.pc.item);
    assert Items(s)[p] == s.items[s.pc.item] && Untroubled(env, Items(s)[p]);
    hide Obliging, Wf, Measure, EnqueueReady;
    EnqueueUntroubled(env, t);
  }

  lemma {:induction false} StepsUntroubled(env: Env, s: State, n: nat)
    requires Wf(s) && Obliging(env) && AllUntroubled(env, Items(s))
    ensures AllUntroubled(env, Items(Steps(env, s, n)))
    decreases n
  {
    hide Wf, Held, Obliging, AllUntroubled, Pick, Resume, Steps;
    WfHeld(s);
    if n == 0 {
      NoSteps(env, s);
    } else {
      match s.pc {
        case Finished =>
        case Top => PickUntroubled(env, s);
        case Awaiting(_, _) => ResumeUntroubled(env, s);
      }
      StepsOn(env, s, n);
      WfHeld(Step(env, s));
      StepsUntroubled(env, Step(env, s), n - 1);
    }
  }

  lemma {:induction false} NobodyFails(env: Env, job: Job, n: nat)
    requires Launchable(job) && Obliging(env)
    ensures forall c :: !Culprit(Reached(env, env, job, n), c)
  {
    var b, s := Blank(job), Begin(Launch(env, job));
    assert Wf(b) && Items(b) == [];
    EnqueueUntroubled(env, b);
    LaunchWf(env, job);
    assert Items(s) == Items(Launch(env, job));
    hide Wf, Obliging, Launch, Begin, DepsMet;
    StepsUntroubled(env, s, n);
  }

  /** With every role staffed and every call answered, a mission over an acyclic plan is completed. */
  lemma {:induction false} ObligingCompletes(env: Env, job: Job, rank: map<Id, nat>)
    requires Launchable(job) && Obliging(env) && Acyclic(job.plan, rank)
    ensures var s := Reached(env, env, job, 6 * |job.plan| + 1);
            s.pc.Finished? && s.mission.status == MissionCompleted
  {
    hide Reached, Acyclic, Culprit, Obliging;
    var n := 6 * |job.plan| + 1;
    LaunchedRunEnds(env, env, job);
    NobodyFails(env, job, n);
    CompletedIffAllResults(env, env, job, n);
    Blame(env, env, job, n, rank);
  }

  // ---------- exactly the acyclic plans ----------

  /** A failed mission is always somebody's fault if and only if its plan is acyclic. */
  lemma {:induction false} BlamedIffAcyclic(job: Job)
    requires Launchable(job)
    ensures AlwaysBlamed(job) <==> exists rank :: Acyclic(job.plan, rank)
  {
    hide Reached, Acyclic, Culprit, Obliging;
    if rank :| Acyclic(job.plan, rank) {
      forall launch, env, n | Reached(launch, env, job, n).pc.Finished?
          && Reached(launch, env, job, n).mission.status == MissionFailed
        ensures exists c :: Culprit(Reached(launch, env, job, n), c)
      {
        Blame(launch, env, job, n, rank);
      }
    }
    if AlwaysBlamed(job) {
      var env := SomeoneObliges();
      var n := 6 * |job.plan| + 1;
      LaunchedRunEnds(env, env, job);
      NobodyFails(env, job, n);
      CompletedIffAllResults(env, env, job, n);
      var rank := CompletedIsAcyclic(env, env, job, n);
    }
  }

  lemma {:induction false} NothingToLaunch(launch: Env, job: Job, st: SubTask)
    requires job.plan == [st] && st.dependsOn == [st.id]
    ensures Launch(launch, job) == Blank(job)
  {
    var b := Blank(job);
    var enqueued := Enqueued(b.mission.itemIds, b.items);
    assert st.id in st.dependsOn && st.id !in b.mission.results;
    assert b.mission.plan[0] == st;
    assert EnqueueFrom(launch, b, enqueued, 1) == b;
    hide Enqueued;
    assert EnqueueFrom(launch, b, enqueued, 0) == EnqueueFrom(launch, b, enqueued, 1);
  }

  /** The smallest such mission: its only sub-task waits for itself. */
  lemma {:induction false} SelfDependentFails(launch: Env, env: Env, job: Job, st: SubTask)
    requires Launchable(job) && job.plan == [st] && st.dependsOn == [st.id]
    ensures var s := Reached(launch, env, job, 1);
            s.pc.Finished? && s.mission.status == MissionFailed && forall c :: !Culprit(s, c)
  {
    LaunchWf(launch, job);
    NothingToLaunch(launch, job, st);
    var s := Begin(Blank(job));
    hide Wf, Launch, Launchable, RunItem, Blank;
    assert Best(s.mission.itemIds, s.items).None?;
    assert Reached(launch, env, job, 1) == Steps(env, Step(env, s), 0);
    assert st.id in st.dependsOn;
  }

  lemma {:induction false} OrderedIsAcyclic(plan: Plan) returns (rank: map<Id, nat>)
    requires Ordered(plan)
    ensures Acyclic(plan, rank)
  {
    forall k | 0 <= k < |plan| ensures plan[k].id in PlanIds(plan) && IndexOf(plan, plan[k].id) == k {}
    forall id | id in PlanIds(plan) ensures HasId(plan, id) {}
    rank := map id | id in PlanIds(plan) :: IndexOf(plan, id);
  }
}
