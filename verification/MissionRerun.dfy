/** Sub-tasks that people send back.  A rerun takes the result away and enqueues the sub-task again, without
    looking at its dependencies and at the lowest priority.  What holds of missions whatever mixture of runs and
    reruns they went through: they stay well-formed, their next run ends, finished items are never touched,
    and a verdict counts the results; but a failed mission may still show the synthesis of an earlier run. */
module MissionRerun {
  import opened Optional
  import opened MissionModel
  import opened MissionRun
  import opened MissionLifecycle
  import opened MissionVerdict
  import opened MissionBlame
  import opened MissionContext

  // ---------- sending back ----------

  function RerunItem(env: Env, s: State, k: nat): State
    requires k < |s.mission.plan|
  {
    var m, st := s.mission, s.mission.plan[k];
    var agent := Assign(env.registry, env.team, st.role);
    var id := ItemId(m.id, |m.itemIds|);
    var item := WorkItem(id, st.id, AgentOr(agent), 0, Pending, 0, 3, env.stamp(id), None);
    s.(mission := m.(itemIds := m.itemIds + [id], results := m.results - {st.id}),
       items := s.items[id := item],
       records := s.records + [Record(m.id, st.id, agent)])
  }

  /** Identifiers that the plan does not have are passed over. */
  function RerunAll(env: Env, s: State, ids: seq<Id>): (r: State)
    ensures r.mission.plan == s.mission.plan
  {
    if ids == [] then s
    else
      var n := |ids| - 1;
      var t := RerunAll(env, s, ids[..n]);
      if HasId(t.mission.plan, ids[n]) then RerunItem(env, t, IndexOf(t.mission.plan, ids[n])) else t
  }

  function Rerun(env: Env, s: State, ids: seq<Id>): State {
    var t := RerunAll(env, s, ids);
    t.(mission := t.mission.(status := MissionRunning))
  }

  ghost function NewRerunItem(env: Env, s: State, k: nat): WorkItem
    requires k < |s.mission.plan|
  {
    RerunItem(env, s, k).items[ItemId(s.mission.id, |s.mission.itemIds|)]
  }

  lemma {:induction false} RerunItemView(env: Env, s: State, k: nat)
    requires OwnIds(s.mission) && Held(s) && k < |s.mission.plan|
    ensures var r := RerunItem(env, s, k);
            OwnIds(r.mission) && Held(r) && Items(r) == Items(s) + [NewRerunItem(env, s, k)]
  {
    hide Assign;
    var r := RerunItem(env, s, k);
    assert ItemId(s.mission.id, |s.mission.itemIds|) !in s.items;
    assert forall p :: 0 <= p < |s.mission.itemIds| ==>
        r.items[r.mission.itemIds[p]] == s.items[s.mission.itemIds[p]];
    assert Items(r) == Items(s) + [NewRerunItem(env, s, k)];
  }

  lemma {:induction false} RerunItemWf(env: Env, s: State, k: nat)
    requires Wf(s) && k < |s.mission.plan|
    ensures Wf(RerunItem(env, s, k)) && Items(RerunItem(env, s, k)) == Items(s) + [NewRerunItem(env, s, k)]
  {
    hide Held, OwnIds, Assign, DistinctIds;
    WfHeld(s);
    RerunItemView(env, s, k);
    var r := RerunItem(env, s, k);
    forall p | 0 <= p < |r.mission.itemIds|
      ensures HasId(r.mission.plan, r.items[r.mission.itemIds[p]].subTaskId)
    {
      if p == |s.mission.itemIds| {
        assert r.mission.plan[k].id == s.mission.plan[k].id;
      } else {
        assert s.mission.itemIds[p] == r.mission.itemIds[p] && Items(r)[p] == Items(s)[p];
      }
    }
    if s.pc.Awaiting? {
      var p :| 0 <= p < |s.mission.itemIds| && s.mission.itemIds[p] == s.pc.item;
      assert r.mission.itemIds[p] == s.pc.item && Items(r)[p] == Items(s)[p];
    }
  }

  /** Those of the identifiers that the plan has. */
  ghost function Known(plan: Plan, ids: seq<Id>): seq<Id> {
    if ids == [] then []
    else
      Known(plan, ids[..|ids| - 1])
      + if exists k :: 0 <= k < |plan| && plan[k].id == ids[|ids| - 1] then [ids[|ids| - 1]] else []
  }

  /** A new item of the sub-task for its delegate of now, behind everything the plan itself enqueued. */
  ghost predicate Anew(env: Env, plan: Plan, id: Id, x: WorkItem) {
    && x.subTaskId == id && x.priority == 0 && x.status == Pending && x.attempts == 0 && x.maxAttempts == 3
    && x.result == None
    && exists k :: 0 <= k < |plan| && plan[k].id == id && Delegated(env, plan[k].role, x.agentId)
  }

  lemma {:induction false} RerunItemAnew(env: Env, s: State, k: nat)
    requires Wf(s) && k < |s.mission.plan|
    ensures Wf(RerunItem(env, s, k)) && Items(RerunItem(env, s, k)) == Items(s) + [NewRerunItem(env, s, k)]
    ensures Anew(env, s.mission.plan, s.mission.plan[k].id, NewRerunItem(env, s, k))
  {
    RerunItemWf(env, s, k);
    AssignIsDelegated(env, s.mission.plan[k].role);
    hide Wf, Held, Assign, Delegated, View;
  }

  lemma {:induction false} RerunAdds(env: Env, s: State, ids: seq<Id>)
    requires Wf(s)
    ensures var r, known := RerunAll(env, s, ids), Known(s.mission.plan, ids);
            && Wf(r) && |Items(r)| == |Items(s)| + |known| && Items(s) <= Items(r)
            && forall j :: 0 <= j < |known| ==> Anew(env, s.mission.plan, known[j], Items(r)[|Items(s)| + j])
  {
    hide Wf, Held, View, HasId, IndexOf, RerunItem, Anew;
    WfHeld(s);
    if ids != [] {
      var n := |ids| - 1;
      RerunAdds(env, s, ids[..n]);
      var t := RerunAll(env, s, ids[..n]);
      WfHeld(t);
      HasIdIff(t.mission.plan, ids[n]);
      if HasId(t.mission.plan, ids[n]) {
        RerunItemAnew(env, t, IndexOf(t.mission.plan, ids[n]));
        WfHeld(RerunAll(env, s, ids));
      }
    }
  }

  lemma {:induction false} HasIdIff(plan: Plan, id: Id)
    ensures HasId(plan, id) <==> exists k :: 0 <= k < |plan| && plan[k].id == id
  {
  }

  // ---------- the bound ----------

  /** What a mission's items and unenqueued sub-tasks can still cost. */
  ghost function Work(s: State): nat
    requires Held(s)
  {
    6 * |Waiting(s)| + Sum(Items(s))
  }

  lemma {:induction false} WaitingAtMost(s: State, r: State)
    requires Held(s) && Held(r) && r.mission.plan == s.mission.plan && Items(s) <= Items(r)
    ensures |Waiting(r)| <= |Waiting(s)|
  {
    EnqueuedIsView(s);
    EnqueuedIsView(r);
    hide Enqueued, View;
    assert Waiting(r) <= Waiting(s);
    FewerThan(Waiting(r), Waiting(s));
  }

  lemma {:induction false} FewerThan(a: set<Id>, b: set<Id>)
    requires a <= b
    ensures |a| <= |b|
  {
    assert b == a + (b - a);
  }

  lemma {:induction false} RerunItemWork(env: Env, s: State, k: nat)
    requires Wf(s) && k < |s.mission.plan|
    ensures Wf(RerunItem(env, s, k)) && Work(RerunItem(env, s, k)) <= Work(s) + 6
  {
    RerunItemWf(env, s, k);
    var r, x := RerunItem(env, s, k), NewRerunItem(env, s, k);
    WfHeld(s);
    WfHeld(r);
    assert Phi(x) == 6;
    hide Wf, Held, View, RerunItem, Waiting, Phi;
    WaitingAtMost(s, r);
    assert (Items(s) + [x])[..|Items(s)|] == Items(s);
  }

  lemma {:induction false} RerunAllFacts(env: Env, s: State, ids: seq<Id>)
    requires Wf(s)
    ensures var r := RerunAll(env, s, ids);
            Wf(r) && Items(s) <= Items(r) && Work(r) <= Work(s) + 6 * |ids| && SameMission(s, r) && r.pc == s.pc
    ensures ids == [] ==> RerunAll(env, s, ids) == s
  {
    if ids != [] {
      hide Wf, Held, View, HasId, IndexOf, RerunItem, Work;
      var n := |ids| - 1;
      WfHeld(s);
      RerunAllFacts(env, s, ids[..n]);
      var t := RerunAll(env, s, ids[..n]);
      WfHeld(t);
      if HasId(t.mission.plan, ids[n]) {
        RerunItemFacts(env, t, IndexOf(t.mission.plan, ids[n]));
        WfHeld(RerunAll(env, s, ids));
      }
    }
  }

  lemma {:induction false} RerunItemFacts(env: Env, s: State, k: nat)
    requires Wf(s) && k < |s.mission.plan|
    ensures var r := RerunItem(env, s, k);
            Wf(r) && Held(r) && Items(s) <= Items(r) && Work(r) <= Work(s) + 6 && SameMission(s, r) && r.pc == s.pc
  {
    hide Wf, Held, View, Assign, Work;
    WfHeld(s);
    RerunItemWf(env, s, k);
    WfHeld(RerunItem(env, s, k));
    RerunItemWork(env, s, k);
  }

  lemma {:induction false} RerunFacts(env: Env, s: State, ids: seq<Id>)
    requires Wf(s)
    ensures var r := Rerun(env, s, ids);
            Wf(r) && Items(s) <= Items(r) && Work(r) <= Work(s) + 6 * |ids| && SameMission(s, r) && r.pc == s.pc
  {
    hide Wf, RerunAll, Waiting, Sum, Enqueued, DistinctIds, HasId;
    RerunAllFacts(env, s, ids);
    MarkedRunning(RerunAll(env, s, ids));
  }

  lemma {:induction false} MarkedRunning(t: State)
    requires Wf(t)
    ensures var r := t.(mission := t.mission.(status := MissionRunning));
            Wf(r) && Items(r) == Items(t) && Work(r) == Work(t)
  {
    var r := t.(mission := t.mission.(status := MissionRunning));
    assert Items(r) == Items(t);
  }

  // ---------- histories ----------

  /** What may happen to a launched mission: a stretch of its run, sub-tasks sent back (during a run or after
      it), or the start of another run when none is under way.  Team and agents may change in between. */
  datatype Act = Turn(env: Env) | SendBack(env: Env, ids: seq<Id>) | Restart

  ghost function Acted(s: State, a: Act): State
    requires Wf(s)
  {
    match a
    case Turn(env) => Step(env, s)
    case SendBack(env, ids) => Rerun(env, s, ids)
    case Restart => if s.pc.Awaiting? then s else Begin(s)
  }

  /** How many sub-tasks are sent back. */
  ghost function Sent(acts: seq<Act>): nat {
    if acts == [] then 0
    else
      var n := |acts| - 1;
      Sent(acts[..n]) + if acts[n].SendBack? then |acts[n].ids| else 0
  }

  lemma {:induction false} BeginKeeps(s: State)
    requires Wf(s) && !s.pc.Awaiting?
    ensures Wf(Begin(s)) && Items(Begin(s)) == Items(s) && Work(Begin(s)) == Work(s)
    ensures Measure(Begin(s)) == Work(s) + 1 && SameMission(s, Begin(s))
  {
    assert Items(Begin(s)) == Items(s);
  }

  lemma {:induction false} ActedFacts(s: State, a: Act)
    requires Wf(s)
    ensures var r := Acted(s, a);
            && Wf(r) && SameMission(s, r) && MovesOn(Items(s), Items(r))
            && Work(r) <= Work(s) + if a.SendBack? then 6 * |a.ids| else 0
  {
    hide Step, Rerun, Begin, Moves, Waiting, Sum;
    match a
    case Turn(env) =>
      StepFacts(env, s);
      StepMoves(env, s);
      StepWork(env, s);
    case SendBack(env, ids) =>
      RerunFacts(env, s, ids);
      PrefixStays(Items(s), Items(Rerun(env, s, ids)));
    case Restart =>
      PrefixStays(Items(s), Items(s));
      if !s.pc.Awaiting? { BeginKeeps(s); }
  }

  lemma {:induction false} PrefixStays(view: seq<WorkItem>, later: seq<WorkItem>)
    requires view <= later
    ensures MovesOn(view, later)
  {
  }

  lemma {:induction false} StepWork(env: Env, s: State)
    requires Wf(s)
    ensures Wf(Step(env, s)) && Work(Step(env, s)) <= Work(s)
  {
    hide Wf, Step, Waiting, Sum;
    StepFacts(env, s);
    WfHeld(s);
    WfHeld(Step(env, s));
    if s.pc.Finished? { FinishedStays(env, s, 1); StepsOn(env, s, 1); NoSteps(env, Step(env, s)); }
  }

  /** A mission after any mixture of runs and reruns. */
  ghost function History(s: State, acts: seq<Act>): (r: State)
    requires Wf(s)
    ensures Wf(r)
  {
    if acts == [] then s
    else
      var t := History(s, acts[..|acts| - 1]);
      ActedFacts(t, acts[|acts| - 1]);
      Acted(t, acts[|acts| - 1])
  }

  lemma {:induction false} HistoryOn(s: State, acts: seq<Act>) returns (t: State)
    requires Wf(s) && acts != []
    ensures t == History(s, acts[..|acts| - 1]) && Wf(t) && History(s, acts) == Acted(t, acts[|acts| - 1])
  {
    hide Wf, Acted;
    t := History(s, acts[..|acts| - 1]);
  }

  lemma {:induction false} HistoryFacts(s: State, acts: seq<Act>)
    requires Wf(s)
    ensures SameMission(s, History(s, acts)) && Work(History(s, acts)) <= Work(s) + 6 * Sent(acts)
  {
    hide Wf, Held, View, Acted, Work;
    if acts != [] {
      var n := |acts| - 1;
      var t := HistoryOn(s, acts);
      HistoryFacts(s, acts[..n]);
      ActedFacts(t, acts[n]);
    }
  }

  /** However often sub-tasks of a launched mission were sent back: its next run ends, within six stretches
      for each sub-task and for each that was sent back, and one. */
  lemma {:induction false} NextRunEnds(launch: Env, job: Job, acts: seq<Act>, env: Env)
    requires Launchable(job)
    ensures Wf(Launch(launch, job))
    ensures var s := History(Launch(launch, job), acts);
            !s.pc.Awaiting? ==>
              Wf(Begin(s)) && Steps(env, Begin(s), 6 * (|job.plan| + Sent(acts)) + 1).pc.Finished?
  {
    hide Wf, Held, View, Launch, Begin, Work, Measure, History;
    LaunchWf(launch, job);
    LaunchedWork(launch, job);
    var s := History(Launch(launch, job), acts);
    HistoryFacts(Launch(launch, job), acts);
    if !s.pc.Awaiting? {
      BeginKeeps(s);
      RunIsSteps(env, Begin(s), 6 * (|job.plan| + Sent(acts)) + 1);
    }
  }

  lemma {:induction false} LaunchedWork(launch: Env, job: Job)
    requires Launchable(job)
    ensures Wf(Launch(launch, job)) && Work(Launch(launch, job)) <= 6 * |job.plan|
  {
    BlankFacts(job);
    LaunchWf(launch, job);
    EnqueueReadyFacts(launch, Blank(job));
    hide Wf, Waiting, Sum, EnqueueReady;
    WfHeld(Blank(job));
    WfHeld(Launch(launch, job));
  }

  lemma {:induction false} NoHistory(s: State)
    requires Wf(s)
    ensures History(s, []) == s
  {
  }

  /** Done and failed are final in every history. */
  lemma {:induction false} SettledInHistory(s: State, acts: seq<Act>, p: nat)
    requires Wf(s) && p < |Items(s)| && Settled(Items(s)[p])
    ensures p < |Items(History(s, acts))| && Items(History(s, acts))[p] == Items(s)[p]
  {
    hide Wf, Held, View, Acted, History;
    if acts == [] {
      NoHistory(s);
    } else {
      var n := |acts| - 1;
      var t := HistoryOn(s, acts);
      SettledInHistory(s, acts[..n], p);
      ActedFacts(t, acts[n]);
    }
  }

  // ---------- verdicts ----------

  /** Results are for sub-tasks of the plan, and a verdict is out only while no run is under way: completed
      with every result there, and rendered; failed with one missing. */
  ghost predicate VerdictHolds(s: State) {
    var m := s.mission;
    && (forall id :: id in m.results ==> HasId(m.plan, id))
    && (m.status == MissionCompleted || m.status == MissionFailed ==> s.pc.Finished?)
    && (m.status == MissionCompleted
        ==> AllThere(m.plan, m.results) && m.synthesis == Some(BuildSynthesis(m.plan, m.results)))
    && (m.status == MissionFailed ==> !AllThere(m.plan, m.results))
  }

  ghost predicate AllThere(plan: Plan, results: map<Id, Output>) {
    forall k :: 0 <= k < |plan| ==> plan[k].id in results
  }

  lemma {:induction false} CountTells(plan: Plan, results: map<Id, Output>)
    requires DistinctIds(plan) && forall id :: id in results ==> HasId(plan, id)
    ensures |results| == |plan| <==> AllThere(plan, results)
  {
    var ids, done := PlanIds(plan), results.Keys;
    assert done <= ids;
    PlanIdsCount(plan);
    SubsetCount(done, ids);
    if AllThere(plan, results) { assert ids <= done; }
  }

  lemma {:induction false} FinishVerdict(s: State)
    requires Wf(s) && s.pc.Top? && VerdictHolds(s)
    ensures VerdictHolds(Finish(s))
  {
    WfDistinct(s);
    CountTells(s.mission.plan, s.mission.results);
    hide Wf, AllThere, HasId, BuildSynthesis;
  }

  lemma {:induction false} StepVerdict(env: Env, s: State)
    requires Wf(s) && VerdictHolds(s)
    ensures VerdictHolds(Step(env, s))
  {
    hide Wf, Held, RunItem, AllThere, BuildSynthesis, EnqueueReady, Stored, Measure;
    match s.pc
    case Finished =>
    case Top =>
      var next := Best(s.mission.itemIds, s.items);
      if next.None? { FinishVerdict(s); } else { RunItemShape(env, s, next.value); }
    case Awaiting(_, call) =>
      match env.answer(call)
      case Raised(_) => RaisedShape(env, s);
      case Returned(output) => ReturnedVerdict(env, s, output);
  }

  lemma {:induction false} ReturnedVerdict(env: Env, s: State, output: Output)
    requires Wf(s) && VerdictHolds(s) && s.pc.Awaiting? && env.answer(s.pc.call) == Returned(output)
    ensures VerdictHolds(Resume(env, s))
  {
    hide Wf, Held, AllThere, BuildSynthesis, Measure;
    WfHeld(s);
    StoredShape(s, output);
    StoredFacts(s, output);
    EnqueueReadyFacts(env, Stored(s, output));
    hide EnqueueReady, HasId;
  }

  lemma {:induction false} RerunVerdict(env: Env, s: State, ids: seq<Id>)
    requires VerdictHolds(s)
    ensures VerdictHolds(Rerun(env, s, ids))
  {
    hide AllThere, BuildSynthesis, HasId;
    RerunTakesAway(env, s, ids);
  }

  /** A rerun takes away the results of the named sub-tasks and no other, and no synthesis, and sets the mission
      running. */
  lemma {:induction false} RerunTakesAway(env: Env, s: State, ids: seq<Id>)
    ensures var m := RerunAll(env, s, ids).mission;
            && m.plan == s.mission.plan && m.synthesis == s.mission.synthesis && m.status == s.mission.status
            && (forall id :: id in m.results <==> id in s.mission.results && !(id in ids && HasId(s.mission.plan, id)))
            && (forall id :: id in m.results ==> m.results[id] == s.mission.results[id])
    ensures Rerun(env, s, ids).mission == RerunAll(env, s, ids).mission.(status := MissionRunning)
  {
    if ids != [] {
      hide HasId;
      var n := |ids| - 1;
      assert ids == ids[..n] + [ids[n]];
      RerunTakesAway(env, s, ids[..n]);
    }
  }

  /** Whatever mixture of runs and reruns a launched mission went through, a verdict tells whether every
      sub-task has a result. */
  lemma {:induction false} HistoryVerdict(launch: Env, job: Job, acts: seq<Act>)
    requires Launchable(job)
    ensures Wf(Launch(launch, job)) && VerdictHolds(History(Launch(launch, job), acts))
  {
    hide Wf, Held, View, Launch, Step, Rerun, VerdictHolds;
    LaunchWf(launch, job);
    if acts == [] {
      LaunchVerdict(launch, job);
      NoHistory(Launch(launch, job));
    } else {
      HistoryVerdict(launch, job, acts[..|acts| - 1]);
      var t := HistoryOn(Launch(launch, job), acts);
      match acts[|acts| - 1]
      case Turn(env) => StepVerdict(env, t);
      case SendBack(env, ids) => RerunVerdict(env, t, ids);
      case Restart => BeginVerdict(t);
    }
  }

  lemma {:induction false} BeginVerdict(s: State)
    requires VerdictHolds(s)
    ensures VerdictHolds(Begin(s))
  {
    hide AllThere, HasId, BuildSynthesis;
  }

  lemma {:induction false} LaunchVerdict(launch: Env, job: Job)
    requires Launchable(job)
    ensures VerdictHolds(Launch(launch, job))
  {
    hide Wf, EnqueueReady, AllThere, BuildSynthesis;
    BlankFacts(job);
    WfHeld(Blank(job));
    EnqueueReadyFacts(launch, Blank(job));
  }

  // ---------- the synthesis of an earlier run ----------

  lemma {:induction false} StepSynthesis(env: Env, s: State)
    requires Wf(s)
    ensures var t := Step(env, s);
            t.mission.synthesis == s.mission.synthesis || (t.pc.Finished? && t.mission.status == MissionCompleted)
  {
    hide Wf, Held, RunItem, BuildSynthesis, EnqueueReady, Stored, Measure;
    match s.pc
    case Finished =>
    case Top =>
      var next := Best(s.mission.itemIds, s.items);
      if next.Some? { RunItemShape(env, s, next.value); }
    case Awaiting(_, call) =>
      match env.answer(call)
      case Raised(_) => RaisedShape(env, s);
      case Returned(output) => ReturnedSynthesis(env, s, output);
  }

  lemma {:induction false} ReturnedSynthesis(env: Env, s: State, output: Output)
    requires Wf(s) && s.pc.Awaiting? && env.answer(s.pc.call) == Returned(output)
    ensures Resume(env, s).mission.synthesis == s.mission.synthesis
  {
    hide Wf, Held, Measure;
    WfHeld(s);
    StoredShape(s, output);
    StoredFacts(s, output);
    EnqueueReadyFacts(env, Stored(s, output));
    hide EnqueueReady, HasId;
  }

  /** A run that fails leaves the synthesis as it was: a failed mission shows one exactly if it had one before. */
  lemma {:induction false} FailureKeepsSynthesis(env: Env, s: State)
    requires Wf(s) && Run(env, s).mission.status == MissionFailed
    ensures Run(env, s).mission.synthesis == s.mission.synthesis
    decreases Measure(s)
  {
    hide Wf, Step;
    if !s.pc.Finished? {
      StepFacts(env, s);
      StepSynthesis(env, s);
      FailureKeepsSynthesis(env, Step(env, s));
    }
  }

  /** Without agents a run adds no result. */
  lemma {:induction false} NoAgentNoResult(env: Env, s: State)
    requires Wf(s) && s.pc.Top? && env.agents == {} && !AllThere(s.mission.plan, s.mission.results)
    requires forall id :: id in s.mission.results ==> HasId(s.mission.plan, id)
    ensures Run(env, s).mission.status == MissionFailed
    decreases Measure(s)
  {
    hide Wf, Held, RunItem, AllThere, HasId, BuildSynthesis, Measure;
    StepFacts(env, s);
    var next := Best(s.mission.itemIds, s.items);
    if next.None? {
      WfDistinct(s);
      CountTells(s.mission.plan, s.mission.results);
    } else {
      RunItemShape(env, s, next.value);
      NoAgentNoResult(env, Step(env, s));
    }
  }

  /** From any completed mission: a sub-task is sent back, no agent is there for the next run, and the
      mission has failed with the synthesis it was completed with. */
  lemma {:induction false} StaleSynthesis(env: Env, s: State, k: nat)
    requires Wf(s) && VerdictHolds(s) && s.mission.status == MissionCompleted
    requires k < |s.mission.plan| && env.agents == {}
    ensures var t := Rerun(env, s, [s.mission.plan[k].id]);
            && Wf(t) && !t.pc.Awaiting? && Wf(Begin(t))
            && var f := Run(env, Begin(t));
               f.mission.status == MissionFailed && f.mission.synthesis == s.mission.synthesis
                   && f.mission.synthesis.Some?
  {
    hide Wf, Held, View, BuildSynthesis, RerunAll, Run, Measure, Work;
    var ids := [s.mission.plan[k].id];
    var t := Rerun(env, s, ids);
    RerunFacts(env, s, ids);
    RerunVerdict(env, s, ids);
    RerunTakesAway(env, s, ids);
    BeginKeeps(t);
    assert ids[0] in ids && HasId(s.mission.plan, ids[0]);
    assert !AllThere(t.mission.plan, t.mission.results);
    hide HasId, AllThere;
    NoAgentNoResult(env, Begin(t));
    FailureKeepsSynthesis(env, Begin(t));
  }
}
