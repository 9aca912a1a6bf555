/** Well-formed states stay well-formed, every step lowers a bound, and so every run ends: the queue's
    `while True` loop terminates for every behaviour of the agents, absent and ever-failing ones
    included; `MissionRerun` adds that reruns lead to such states too. */
module MissionRun {
  import opened Optional
  import opened MissionModel

  // ---------- how the work items of a mission change ----------

  lemma {:induction false} ItemsUpdated(s: State, p: nat, x: WorkItem)
    requires OwnIds(s.mission) && Held(s) && p < |s.mission.itemIds|
    ensures var s' := s.(items := s.items[s.mission.itemIds[p] := x]);
            Held(s') && Items(s') == Items(s)[p := x]
  {
    var s' := s.(items := s.items[s.mission.itemIds[p] := x]);
    assert forall q :: 0 <= q < |s.mission.itemIds| && q != p ==> s.mission.itemIds[q] != s.mission.itemIds[p];
  }

  lemma {:induction false} EnqueuedIsView(s: State)
    requires Held(s)
    ensures forall id :: id in Enqueued(s.mission.itemIds, s.items) <==>
                         exists p :: 0 <= p < |Items(s)| && Items(s)[p].subTaskId == id
  {
    var e, v := Enqueued(s.mission.itemIds, s.items), Items(s);
    forall p | 0 <= p < |v| ensures v[p].subTaskId in e {
      assert s.mission.itemIds[p] in s.items;
    }
    forall id | id in e ensures exists p :: 0 <= p < |v| && v[p].subTaskId == id {
      var p :| 0 <= p < |s.mission.itemIds| && s.mission.itemIds[p] in s.items
          && s.items[s.mission.itemIds[p]].subTaskId == id;
      assert v[p].subTaskId == id;
    }
  }

  ghost function NewItem(env: Env, s: State, k: nat): WorkItem
    requires k < |s.mission.plan|
  {
    AddItem(env, s, k).items[ItemId(s.mission.id, |s.mission.itemIds|)]
  }

  /** What the proofs about single items need of a well-formed state. */
  lemma {:induction false} WfHeld(s: State)
    requires Wf(s)
    ensures OwnIds(s.mission) && Held(s)
    ensures s.pc.Awaiting? ==> s.pc.item in s.mission.itemIds && s.items[s.pc.item].status.Running?
                               && s.items[s.pc.item].subTaskId == s.pc.call.subTask
    ensures forall i :: i in s.mission.itemIds ==> i in s.items && HasId(s.mission.plan, s.items[i].subTaskId)
  {
  }

  lemma {:induction false} AddItemView(env: Env, s: State, k: nat)
    requires OwnIds(s.mission) && Held(s) && k < |s.mission.plan|
    ensures var r := AddItem(env, s, k);
            OwnIds(r.mission) && Held(r) && Items(r) == Items(s) + [NewItem(env, s, k)]
  {
    var r := AddItem(env, s, k);
    assert ItemId(s.mission.id, |s.mission.itemIds|) !in s.items;
    hide Assign;
    assert forall p :: 0 <= p < |s.mission.itemIds| ==> r.items[r.mission.itemIds[p]] == s.items[s.mission.itemIds[p]];
    assert Items(r) == Items(s) + [NewItem(env, s, k)];
  }

  lemma {:induction false} AddItemEnqueued(env: Env, s: State, k: nat)
    requires OwnIds(s.mission) && Held(s) && k < |s.mission.plan|
    ensures var r := AddItem(env, s, k);
            Enqueued(r.mission.itemIds, r.items) == Enqueued(s.mission.itemIds, s.items) + {s.mission.plan[k].id}
  {
    var r := AddItem(env, s, k);
    AddItemView(env, s, k);
    EnqueuedIsView(s);
    EnqueuedIsView(r);
    assert NewItem(env, s, k).subTaskId == s.mission.plan[k].id;
    hide Held, AddItem, Assign, Enqueued, NewItem, View;
    var e, e' := Enqueued(s.mission.itemIds, s.items), Enqueued(r.mission.itemIds, r.items);
    forall x ensures x in e' <==> x in e || x == s.mission.plan[k].id {
      if x in e {
        var q :| 0 <= q < |Items(s)| && Items(s)[q].subTaskId == x;
        assert Items(r)[q].subTaskId == x;
      }
      if x == s.mission.plan[k].id {
        assert Items(r)[|Items(s)|].subTaskId == x;
      }
    }
  }

  lemma {:induction false} AddItemFacts(env: Env, s: State, k: nat)
    requires Wf(s) && k < |s.mission.plan|
    ensures var r := AddItem(env, s, k);
            && Wf(r)
            && Items(r) == Items(s) + [NewItem(env, s, k)]
            && Enqueued(r.mission.itemIds, r.items) == Enqueued(s.mission.itemIds, s.items) + {s.mission.plan[k].id}
  {
    var r := AddItem(env, s, k);
    AddItemView(env, s, k);
    AddItemEnqueued(env, s, k);
    hide Held, OwnIds, Enqueued, Assign;
    forall p | 0 <= p < |r.mission.itemIds|
      ensures HasId(r.mission.plan, r.items[r.mission.itemIds[p]].subTaskId)
    {
      if p == |s.mission.itemIds| {
        assert r.mission.plan[k].id == s.mission.plan[k].id;
      } else {
        assert s.mission.itemIds[p] == r.mission.itemIds[p];
        assert Items(r)[p] == Items(s)[p];
      }
    }
  }

  // ---------- the bound ----------

  /** Steps an item can still take part in. */
  ghost function Phi(item: WorkItem): nat {
    if Runnable(item) then
      if item.attempts < item.maxAttempts then 2 * (item.maxAttempts - item.attempts) else 2
    else if item.status.Running? then
      if item.attempts < item.maxAttempts then 2 * (item.maxAttempts - item.attempts) + 1 else 1
    else 0
  }

  ghost function Sum(view: seq<WorkItem>): nat {
    if view == [] then 0 else Sum(view[..|view| - 1]) + Phi(view[|view| - 1])
  }

  lemma {:induction false} SumUpdated(view: seq<WorkItem>, p: nat, x: WorkItem)
    requires p < |view|
    ensures Sum(view[p := x]) + Phi(view[p]) == Sum(view) + Phi(x)
  {
    var n := |view| - 1;
    if p == n {
      assert view[p := x][..n] == view[..n];
    } else {
      SumUpdated(view[..n], p, x);
      assert view[p := x][..n] == view[..n][p := x];
    }
  }

  ghost function Waiting(s: State): set<Id> {
    PlanIds(s.mission.plan) - Enqueued(s.mission.itemIds, s.items)
  }

  /** Six for every sub-task without a work item (three tries of two steps each), what is left of the
      tries of the others, and one for the end of the run. */
  ghost function Measure(s: State): nat
    requires Held(s)
  {
    6 * |Waiting(s)| + Sum(Items(s)) + if s.pc.Finished? then 0 else 1
  }

  /** What enqueueing leaves alone: existing items and everything but the three lists, which only grow. */
  ghost predicate Grown(s: State, r: State)
    requires Held(s)
  {
    && Held(r)
    && Items(s) <= Items(r)
    && r.mission == s.mission.(itemIds := r.mission.itemIds)
    && (forall i :: i in s.items ==> i in r.items && r.items[i] == s.items[i])
    && (forall i :: i in r.items && i !in s.items ==> i.mission == s.mission.id)
    && s.records <= r.records
    && r.context == s.context && r.calls == s.calls && r.pc == s.pc
  }

  lemma {:induction false} WaitingShrinks(env: Env, s: State, k: nat)
    requires Wf(s) && k < |s.mission.plan|
    requires s.mission.plan[k].id !in Enqueued(s.mission.itemIds, s.items)
    ensures |Waiting(AddItem(env, s, k))| == |Waiting(s)| - 1
  {
    AddItemFacts(env, s, k);
    var w, id := Waiting(s), s.mission.plan[k].id;
    assert id in w;
    assert Waiting(AddItem(env, s, k)) == w - {id};
  }

  lemma {:induction false} AddItemMeasure(env: Env, s: State, k: nat)
    requires Wf(s) && k < |s.mission.plan|
    requires s.mission.plan[k].id !in Enqueued(s.mission.itemIds, s.items)
    ensures Wf(AddItem(env, s, k)) && Measure(AddItem(env, s, k)) == Measure(s)
  {
    AddItemFacts(env, s, k);
    WaitingShrinks(env, s, k);
  }

  lemma {:induction false} GrownTransitive(s: State, t: State, r: State)
    requires Held(s) && Grown(s, t) && Grown(t, r)
    ensures Grown(s, r)
  {
    forall i | i in r.items && i !in s.items ensures i.mission == s.mission.id {
      if i in t.items { assert i.mission == s.mission.id; }
    }
  }

  /** No sub-task from `k` on was enqueued since the set `enqueued` was computed. */
  ghost predicate NoneAhead(s: State, enqueued: set<Id>, k: nat) {
    forall j :: k <= j < |s.mission.plan| && s.mission.plan[j].id !in enqueued ==>
      s.mission.plan[j].id !in Enqueued(s.mission.itemIds, s.items)
  }

  lemma {:induction false} AddItemStep(env: Env, s: State, enqueued: set<Id>, k: nat)
    requires Wf(s) && k < |s.mission.plan| && s.mission.plan[k].id !in enqueued && NoneAhead(s, enqueued, k)
    ensures var t := AddItem(env, s, k);
            Wf(t) && Grown(s, t) && Measure(t) == Measure(s) && NoneAhead(t, enqueued, k + 1)
                && t.mission.plan == s.mission.plan
  {
    AddItemMeasure(env, s, k);
    AddItemFacts(env, s, k);
  }

  lemma {:induction false} EnqueueFromFacts(env: Env, s: State, enqueued: set<Id>, k: nat)
    requires Wf(s) && k <= |s.mission.plan| && NoneAhead(s, enqueued, k)
    ensures var r := EnqueueFrom(env, s, enqueued, k);
            Wf(r) && Grown(s, r) && Measure(r) == Measure(s)
    decreases |s.mission.plan| - k
  {
    if k < |s.mission.plan| {
      if s.mission.plan[k].id in enqueued || !DepsMet(s.mission.plan[k], s.mission.results) {
        EnqueueFromFacts(env, s, enqueued, k + 1);
      } else {
        AddThenRest(env, s, enqueued, k);
      }
    }
  }

  lemma {:induction false} AddThenRest(env: Env, s: State, enqueued: set<Id>, k: nat)
    requires Wf(s) && k < |s.mission.plan| && s.mission.plan[k].id !in enqueued && NoneAhead(s, enqueued, k)
    ensures var r := EnqueueFrom(env, AddItem(env, s, k), enqueued, k + 1);
            Wf(r) && Grown(s, r) && Measure(r) == Measure(s)
    decreases |s.mission.plan| - k, 0
  {
    hide DistinctIds, OwnIds, Held, HasId, Grown, NoneAhead, Measure, AddItem, EnqueueFrom;
    AddItemStep(env, s, enqueued, k);
    EnqueueFromFacts(env, AddItem(env, s, k), enqueued, k + 1);
    GrownTransitive(s, AddItem(env, s, k), EnqueueFrom(env, AddItem(env, s, k), enqueued, k + 1));
  }

  /** Enqueueing keeps the state well-formed and the bound, touches no existing item, appends to the
      lists and leaves everything else alone. */
  lemma {:induction false} EnqueueReadyFacts(env: Env, s: State)
    requires Wf(s)
    ensures var r := EnqueueReady(env, s);
            Wf(r) && Grown(s, r) && Measure(r) == Measure(s)
  {
    EnqueueFromFacts(env, s, Enqueued(s.mission.itemIds, s.items), 0);
  }

  /** Position of an item in the mission's list. */
  ghost function Pos(s: State, i: ItemId): (p: nat)
    requires OwnIds(s.mission) && i in s.mission.itemIds
    ensures p < |s.mission.itemIds| && s.mission.itemIds[p] == i && p == i.serial
  {
    i.serial
  }

  /** Replacing one item by `x`, which is about the same sub-task, changes the bound by `Phi` alone. */
  lemma {:induction false} MeasureUpdated(s: State, i: ItemId, x: WorkItem, t: State)
    requires Wf(s) && i in s.mission.itemIds && x.subTaskId == s.items[i].subTaskId
    requires t.items == s.items[i := x] && t.mission.id == s.mission.id
    requires t.mission.itemIds == s.mission.itemIds && t.mission.plan == s.mission.plan
    requires t.pc.Finished? <==> s.pc.Finished?
    requires t.pc.Awaiting? ==> t.pc.item == i && x.status.Running? && t.pc.call.subTask == x.subTaskId
    ensures Wf(t) && Items(t) == Items(s)[Pos(s, i) := x]
    ensures Measure(t) + Phi(s.items[i]) == Measure(s) + Phi(x)
    ensures Enqueued(t.mission.itemIds, t.items) == Enqueued(s.mission.itemIds, s.items)
  {
    var p := Pos(s, i);
    ItemsUpdated(s, p, x);
    assert Enqueued(s.mission.itemIds, s.items[s.mission.itemIds[p] := x]) == Enqueued(s.mission.itemIds, s.items);
    SumUpdated(Items(s), p, x);
  }

  function AfterFailure(item: WorkItem): ItemStatus {
    if item.attempts < item.maxAttempts then Retrying else Failed
  }

  /** The item that is run costs an attempt; it is waited for, or it has failed. */
  lemma {:induction false} RunItemShape(env: Env, s: State, i: ItemId)
    requires Wf(s) && s.pc.Top? && i in s.mission.itemIds
    ensures var r := RunItem(env, s, i);
            && i in s.items && i in r.items && r.items == s.items[i := r.items[i]] && r.mission == s.mission
                && r.records == s.records
            && r.items[i] == s.items[i].(status := r.items[i].status, attempts := s.items[i].attempts + 1)
            && r.context == s.context
            && (if s.items[i].agentId != "" && s.items[i].agentId in env.agents
                then r.pc.Awaiting? && r.items[i].status.Running? && r.pc.item == i
                    && r.pc.call.subTask == r.items[i].subTaskId
                     && r.calls == s.calls + [r.pc.call] && r.pc.call.agentId == s.items[i].agentId
                     && r.pc.call.attempt == r.items[i].attempts
                else r.pc.Top? && r.items[i].status == AfterFailure(r.items[i]) && r.calls == s.calls)
  {
    WfHeld(s);
    hide Wf, Held, OwnIds, Slice;
  }

  lemma {:induction false} RunItemFacts(env: Env, s: State, i: ItemId)
    requires Wf(s) && s.pc.Top? && i in s.mission.itemIds && Runnable(s.items[i])
    ensures Wf(RunItem(env, s, i)) && Measure(RunItem(env, s, i)) < Measure(s)
  {
    hide Wf, Held, OwnIds, Measure, RunItem;
    RunItemShape(env, s, i);
    MeasureUpdated(s, i, RunItem(env, s, i).items[i], RunItem(env, s, i));
  }

  lemma {:induction false} FinishItems(s: State)
    requires Held(s)
    ensures Held(Finish(s)) && Items(Finish(s)) == Items(s)
  {
  }

  lemma {:induction false} PickFacts(env: Env, s: State)
    requires Wf(s) && s.pc.Top?
    ensures Wf(Pick(env, s)) && Measure(Pick(env, s)) < Measure(s)
  {
    var next := Best(s.mission.itemIds, s.items);
    if next.None? {
      assert Items(Finish(s)) == Items(s);
    } else {
      RunItemFacts(env, s, next.value);
    }
  }

  /** The state between the return of an agent and the enqueueing that follows. */
  ghost function Stored(s: State, output: Output): State
    requires Wf(s) && s.pc.Awaiting?
  {
    var i := s.pc.item;
    var st := s.mission.plan[IndexOf(s.mission.plan, s.items[i].subTaskId)];
    s.(items := MarkDone(s.items, i, output), pc := Top,
       mission := s.mission.(results := s.mission.results[st.id := output]),
       context := s.context[ResultOf(st.taskType) := output.text])
  }

  /** The item whose agent returned is done and holds the result. */
  lemma {:induction false} StoredShape(s: State, output: Output)
    requires Wf(s) && s.pc.Awaiting?
    ensures var t, i := Stored(s, output), s.pc.item;
            && i in s.mission.itemIds && i in s.items && s.items[i].status.Running? && t.pc.Top?
            && i in t.items && t.items == s.items[i := t.items[i]]
            && t.items[i] == s.items[i].(status := Done, result := Some(output))
            && t.mission == s.mission.(results := s.mission.results[s.items[i].subTaskId := output])
            && t.records == s.records && t.calls == s.calls
  {
    WfHeld(s);
    hide Wf, Held, OwnIds;
  }

  lemma {:induction false} StoredFacts(s: State, output: Output)
    requires Wf(s) && s.pc.Awaiting?
    ensures Wf(Stored(s, output)) && Measure(Stored(s, output)) < Measure(s)
  {
    hide Wf, Held, OwnIds, Measure, Stored;
    StoredShape(s, output);
    MeasureUpdated(s, s.pc.item, Stored(s, output).items[s.pc.item], Stored(s, output));
  }

  /** The item whose agent raised has failed, for now or for good. */
  lemma {:induction false} RaisedShape(env: Env, s: State)
    requires Wf(s) && s.pc.Awaiting? && env.answer(s.pc.call).Raised?
    ensures var t, i := Resume(env, s), s.pc.item;
            && i in s.mission.itemIds && i in s.items && s.items[i].status.Running? && t.pc.Top?
            && i in t.items && t.items == s.items[i := t.items[i]] && t.mission == s.mission && t.records == s.records
            && t.items[i] == s.items[i].(status := AfterFailure(s.items[i])) && t.context == s.context
                && t.calls == s.calls
  {
    WfHeld(s);
    hide Wf, Held, OwnIds, EnqueueReady;
  }

  lemma {:induction false} RaisedFacts(env: Env, s: State)
    requires Wf(s) && s.pc.Awaiting? && env.answer(s.pc.call).Raised?
    ensures Wf(Resume(env, s)) && Measure(Resume(env, s)) < Measure(s)
  {
    hide Wf, Held, OwnIds, Measure, Resume;
    RaisedShape(env, s);
    MeasureUpdated(s, s.pc.item, Resume(env, s).items[s.pc.item], Resume(env, s));
  }

  ghost predicate SameMission(s: State, t: State) {
    t.mission.id == s.mission.id && t.mission.plan == s.mission.plan && t.mission.summary == s.mission.summary
  }

  lemma {:induction false} ResumeFacts(env: Env, s: State)
    requires Wf(s) && s.pc.Awaiting?
    ensures Wf(Resume(env, s)) && Measure(Resume(env, s)) < Measure(s) && SameMission(s, Resume(env, s))
  {
    match env.answer(s.pc.call)
    case Raised(_) =>
      RaisedShape(env, s);
      RaisedFacts(env, s);
    case Returned(output) =>
      StoredShape(s, output);
      StoredFacts(s, output);
      EnqueueReadyFacts(env, Stored(s, output));
  }

  /** Every step of an unfinished run keeps the state well-formed and lowers the bound. */
  lemma {:induction false} StepFacts(env: Env, s: State)
    requires Wf(s)
    ensures Wf(Step(env, s)) && SameMission(s, Step(env, s))
    ensures !s.pc.Finished? ==> Measure(Step(env, s)) < Measure(s)
  {
    hide Wf, Measure, Resume, Best;
    match s.pc
    case Finished =>
    case Top => PickFacts(env, s);
    case Awaiting(_, _) => ResumeFacts(env, s);
  }

  // ---------- runs ----------

  ghost function Steps(env: Env, s: State, n: nat): (r: State)
    requires Wf(s)
    ensures Wf(r) && SameMission(s, r)
    decreases n
  {
    if n == 0 then s else StepFacts(env, s); Steps(env, Step(env, s), n - 1)
  }

  /** The whole run; that this function is total is the termination of the loop. */
  ghost function Run(env: Env, s: State): (r: State)
    requires Wf(s)
    ensures Wf(r) && SameMission(s, r) && r.pc.Finished?
    decreases Measure(s)
  {
    if s.pc.Finished? then s else StepFacts(env, s); Run(env, Step(env, s))
  }

  lemma {:induction false} NoSteps(env: Env, s: State)
    requires Wf(s)
    ensures Steps(env, s, 0) == s
  {
  }

  lemma {:induction false} StepsOn(env: Env, s: State, n: nat)
    requires Wf(s) && n > 0
    ensures Wf(Step(env, s)) && Steps(env, s, n) == Steps(env, Step(env, s), n - 1)
  {
    StepFacts(env, s);
    hide Wf, Step;
  }

  lemma {:induction false} FinishedStays(env: Env, s: State, n: nat)
    requires Wf(s) && s.pc.Finished?
    ensures Steps(env, s, n) == s
  {
    if n > 0 { FinishedStays(env, s, n - 1); }
  }

  /** Any number of steps that reaches the bound reaches the end of the run. */
  lemma {:induction false} RunIsSteps(env: Env, s: State, n: nat)
    requires Wf(s) && Measure(s) <= n
    ensures Steps(env, s, n) == Run(env, s)
    decreases n
  {
    hide Wf, Step, Measure;
    StepFacts(env, s);
    if s.pc.Finished? {
      FinishedStays(env, s, n);
    } else {
      RunIsSteps(env, Step(env, s), n - 1);
    }
  }

  /** A state that has finished after some steps is the result of the run, however many they were. */
  lemma {:induction false} FinishedIsRun(env: Env, s: State, n: nat)
    requires Wf(s) && Steps(env, s, n).pc.Finished?
    ensures Steps(env, s, n) == Run(env, s)
    decreases n
  {
    hide Wf, Step, Measure;
    StepFacts(env, s);
    if s.pc.Finished? {
      FinishedStays(env, s, n);
    } else {
      FinishedIsRun(env, Step(env, s), n - 1);
    }
  }

  // ---------- a launched mission ----------

  /** A plan with distinct sub-tasks and an identifier no other mission uses. */
  ghost predicate Launchable(job: Job) {
    && DistinctIds(job.plan)
    && (forall i :: i in job.items ==> i.mission != job.id)
    && (forall r :: r in job.records ==> r.missionId != job.id)
  }

  lemma {:induction false} PlanIdsOfPrefix(plan: Plan, n: nat)
    requires DistinctIds(plan) && n + 1 == |plan|
    ensures PlanIds(plan) == PlanIds(plan[..n]) + {plan[n].id} && plan[n].id !in PlanIds(plan[..n])
  {
    forall k | 0 <= k < n ensures plan[k].id in PlanIds(plan[..n]) {
      assert plan[..n][k].id == plan[k].id;
    }
  }

  lemma {:induction false} PlanIdsCount(plan: Plan)
    requires DistinctIds(plan)
    ensures |PlanIds(plan)| == |plan|
  {
    if plan == [] {
      assert PlanIds(plan) == {};
    } else {
      PlanIdsCount(plan[..|plan| - 1]);
      PlanIdsOfPrefix(plan, |plan| - 1);
    }
  }

  lemma {:induction false} BlankFacts(job: Job)
    requires Launchable(job)
    ensures Wf(Blank(job)) && Measure(Blank(job)) == 6 * |job.plan| + 1
  {
    assert Waiting(Blank(job)) == PlanIds(job.plan);
    PlanIdsCount(job.plan);
  }

  lemma {:induction false} BeginFacts(s: State)
    requires Wf(s) && s.pc.Top?
    ensures Wf(Begin(s)) && Measure(Begin(s)) == Measure(s)
  {
    assert Items(Begin(s)) == Items(s);
  }

  lemma {:induction false} LaunchWf(env: Env, job: Job)
    requires Launchable(job)
    ensures Wf(Launch(env, job)) && SameMission(Blank(job), Launch(env, job))
    ensures Wf(Begin(Launch(env, job))) && Measure(Begin(Launch(env, job))) == 6 * |job.plan| + 1
  {
    BlankFacts(job);
    hide Wf, Measure, EnqueueReady, Begin;
    WfHeld(Blank(job));
    EnqueueReadyFacts(env, Blank(job));
    BeginFacts(Launch(env, job));
  }

  /** The state after `n` stretches of the first run of a launched mission.  Between launch and run the
      team and the agents may change. */
  ghost function Reached(launch: Env, env: Env, job: Job, n: nat): (s: State)
    requires Launchable(job)
    ensures Wf(s)
  {
    LaunchWf(launch, job);
    Steps(env, Begin(Launch(launch, job)), n)
  }

  /** Whatever the agents do, the loop of a launched mission ends within 6n + 1 stretches. */
  lemma {:induction false} LaunchedRunEnds(launch: Env, env: Env, job: Job)
    requires Launchable(job)
    ensures Reached(launch, env, job, 6 * |job.plan| + 1).pc.Finished?
  {
    LaunchWf(launch, job);
    RunIsSteps(env, Begin(Launch(launch, job)), 6 * |job.plan| + 1);
  }
}
