/** What every reachable state of a mission satisfies as long as no sub-task is re-enqueued by hand:
    a work item and a delegation record exactly for the sub-tasks whose dependencies have results,
    no call before those results exist, and, at the end, a verdict with a reason. */
module MissionSafety {
  import opened Optional
  import opened MissionModel
  import opened MissionRun

  // ---------- the invariant ----------

  function RecordsFor(records: seq<Record>, id: Id): seq<Record> {
    if records == [] then []
    else
      RecordsFor(records[..|records| - 1], id)
      + if records[|records| - 1].missionId == id then [records[|records| - 1]] else []
  }

  ghost predicate OneEach(view: seq<WorkItem>) {
    forall p, q :: 0 <= p < q < |view| ==> view[p].subTaskId != view[q].subTaskId
  }

  /** Status, tries and stored result of a single item fit together. */
  ghost predicate ItemOk(plan: Plan, results: map<Id, Output>, item: WorkItem) {
    && HasId(plan, item.subTaskId)
    && item.priority == |plan| - IndexOf(plan, item.subTaskId)
    && item.maxAttempts == 3
    && (item.status.Pending? ==> item.attempts == 0)
    && (item.status.Retrying? ==> 1 <= item.attempts < 3)
    && (item.status.Running? ==> 1 <= item.attempts <= 3)
    && (item.status.Failed? ==> item.attempts == 3)
    && (item.status.Done? <==> item.subTaskId in results)
    && (item.status.Done? ==> 1 <= item.attempts <= 3 && item.result == Some(results[item.subTaskId]))
    && !item.status.Cancelled? && !item.status.TimedOut?
  }

  /** At most one item per sub-task, each consistent, each with its delegation record. */
  ghost predicate ViewOk(plan: Plan, results: map<Id, Output>, view: seq<WorkItem>, recs: seq<Record>) {
    && OneEach(view)
    && (forall p :: 0 <= p < |view| ==> ItemOk(plan, results, view[p]))
    && |recs| == |view|
    && (forall p :: 0 <= p < |view| ==>
          recs[p].subTaskId == view[p].subTaskId && AgentOr(recs[p].agentId) == view[p].agentId)
  }

  /** Between enqueueings: a sub-task has an item exactly when its dependencies have results. */
  ghost predicate ReadyIffEnqueued(s: State) {
    forall k :: 0 <= k < |s.mission.plan| ==>
      (s.mission.plan[k].id in Enqueued(s.mission.itemIds, s.items) <==> DepsMet(s.mission.plan[k], s.mission.results))
  }

  ghost predicate ItemsOk(s: State)
    requires Held(s)
  {
    && ViewOk(s.mission.plan, s.mission.results, Items(s), RecordsFor(s.records, s.mission.id))
    && s.mission.results.Keys <= Enqueued(s.mission.itemIds, s.items)
  }

  /** Only the item that is being waited for is running; a finished mission has no runnable item and
      carries the verdict the count of its results calls for. */
  ghost predicate PcOk(s: State)
    requires Held(s)
  {
    && (forall p :: 0 <= p < |Items(s)| && Items(s)[p].status.Running? ==>
          s.pc.Awaiting? && s.pc.item == s.mission.itemIds[p])
    && (s.pc.Finished? ==>
          && (forall p :: 0 <= p < |Items(s)| ==> !Runnable(Items(s)[p]))
          && s.mission.status == (if |s.mission.results| == |s.mission.plan| then MissionCompleted else MissionFailed)
          && s.mission.synthesis == (if s.mission.status.MissionCompleted?
                                     then Some(BuildSynthesis(s.mission.plan, s.mission.results)) else None))
    && (!s.pc.Finished? ==> s.mission.synthesis == None)
  }

  ghost predicate Inv(s: State) {
    Wf(s) && ItemsOk(s) && ReadyIffEnqueued(s) && PcOk(s)
  }

  // ---------- enqueueing establishes it ----------

  lemma {:induction false} NewItemOk(env: Env, s: State, k: nat)
    requires Wf(s) && k < |s.mission.plan| && s.mission.plan[k].id !in s.mission.results
    ensures ItemOk(s.mission.plan, s.mission.results, NewItem(env, s, k))
  {
    assert IndexOf(s.mission.plan, s.mission.plan[k].id) == k;
  }

  lemma {:induction false} AddItemRecords(env: Env, s: State, k: nat)
    requires k < |s.mission.plan|
    ensures RecordsFor(AddItem(env, s, k).records, s.mission.id) ==
            RecordsFor(s.records, s.mission.id)
            + [Record(s.mission.id, s.mission.plan[k].id, Assign(env.registry, env.team, s.mission.plan[k].role))]
  {
    assert AddItem(env, s, k).records[..|s.records|] == s.records;
  }

  lemma {:induction false} ViewMore(plan: Plan, results: map<Id, Output>, view: seq<WorkItem>, recs: seq<Record>,
                                    x: WorkItem, r: Record)
    requires ViewOk(plan, results, view, recs) && ItemOk(plan, results, x)
    requires forall p :: 0 <= p < |view| ==> view[p].subTaskId != x.subTaskId
    requires r.subTaskId == x.subTaskId && AgentOr(r.agentId) == x.agentId
    ensures ViewOk(plan, results, view + [x], recs + [r])
  {
    hide ItemOk;
  }

  lemma {:induction false} AddItemItemsOk(env: Env, s: State, k: nat)
    requires Wf(s) && ItemsOk(s) && k < |s.mission.plan|
    requires s.mission.plan[k].id !in Enqueued(s.mission.itemIds, s.items)
    ensures Wf(AddItem(env, s, k)) && ItemsOk(AddItem(env, s, k))
  {
    AddItemFacts(env, s, k);
    EnqueuedIsView(s);
    NewItemOk(env, s, k);
    AddItemRecords(env, s, k);
    WfHeld(AddItem(env, s, k));
    hide Wf, Held, ViewOk, ItemOk, RecordsFor, Enqueued, Assign;
    ViewMore(s.mission.plan, s.mission.results, Items(s), RecordsFor(s.records, s.mission.id), NewItem(env, s, k),
             Record(s.mission.id, s.mission.plan[k].id, Assign(env.registry, env.team, s.mission.plan[k].role)));
  }

  lemma {:induction false} AddItemPcOk(env: Env, s: State, k: nat)
    requires Wf(s) && PcOk(s) && !s.pc.Finished? && k < |s.mission.plan|
    ensures Held(AddItem(env, s, k)) && PcOk(AddItem(env, s, k))
  {
    AddItemFacts(env, s, k);
    WfHeld(AddItem(env, s, k));
    hide Wf, Held, Enqueued, Assign, BuildSynthesis;
  }

  lemma {:induction false} AddItemOk(env: Env, s: State, k: nat)
    requires Wf(s) && ItemsOk(s) && PcOk(s) && !s.pc.Finished? && k < |s.mission.plan|
    requires s.mission.plan[k].id !in Enqueued(s.mission.itemIds, s.items)
    ensures var t := AddItem(env, s, k); Wf(t) && ItemsOk(t) && PcOk(t)
  {
    WfHeld(s);
    hide Wf, Held, ItemsOk, PcOk, AddItem;
    AddItemItemsOk(env, s, k);
    AddItemPcOk(env, s, k);
  }

  /** The loop of the enqueueing, before index `k`: enqueued are the sub-tasks that were, and those
      before `k` that are ready. */
  ghost predicate EnqueuedBefore(s: State, enqueued: set<Id>, k: nat) {
    forall j :: 0 <= j < |s.mission.plan| ==>
      (s.mission.plan[j].id in Enqueued(s.mission.itemIds, s.items) <==>
       s.mission.plan[j].id in enqueued || (j < k && DepsMet(s.mission.plan[j], s.mission.results)))
  }

  lemma {:induction false} AddItemAdvances(env: Env, s: State, enqueued: set<Id>, k: nat)
    requires Wf(s) && k < |s.mission.plan| && EnqueuedBefore(s, enqueued, k)
    requires DepsMet(s.mission.plan[k], s.mission.results)
    ensures EnqueuedBefore(AddItem(env, s, k), enqueued, k + 1)
  {
    AddItemFacts(env, s, k);
  }

  lemma {:induction false} EnqueueFromOk(env: Env, s: State, enqueued: set<Id>, k: nat)
    requires Wf(s) && ItemsOk(s) && PcOk(s) && !s.pc.Finished? && k <= |s.mission.plan|
    requires EnqueuedBefore(s, enqueued, k)
    ensures var r := EnqueueFrom(env, s, enqueued, k);
            Wf(r) && ItemsOk(r) && PcOk(r) && EnqueuedBefore(r, enqueued, |s.mission.plan|)
    decreases |s.mission.plan| - k
  {
    if k < |s.mission.plan| {
      if s.mission.plan[k].id in enqueued || !DepsMet(s.mission.plan[k], s.mission.results) {
        hide Wf, ItemsOk, PcOk, DepsMet, AddItem, Enqueued;
        EnqueueFromOk(env, s, enqueued, k + 1);
      } else {
        AddThenRestOk(env, s, enqueued, k);
      }
    }
  }

  lemma {:induction false} AddThenRestOk(env: Env, s: State, enqueued: set<Id>, k: nat)
    requires Wf(s) && ItemsOk(s) && PcOk(s) && !s.pc.Finished? && k < |s.mission.plan|
    requires EnqueuedBefore(s, enqueued, k)
    requires s.mission.plan[k].id !in enqueued && DepsMet(s.mission.plan[k], s.mission.results)
    ensures var r := EnqueueFrom(env, AddItem(env, s, k), enqueued, k + 1);
            Wf(r) && ItemsOk(r) && PcOk(r) && EnqueuedBefore(r, enqueued, |s.mission.plan|)
    decreases |s.mission.plan| - k, 0
  {
    assert s.mission.plan[k].id !in Enqueued(s.mission.itemIds, s.items);
    assert AddItem(env, s, k).mission.plan == s.mission.plan && AddItem(env, s, k).pc == s.pc;
    hide ItemsOk, PcOk, EnqueuedBefore, AddItem, EnqueueFrom, DepsMet, Enqueued, DistinctIds, HasId, OwnIds;
    AddItemOk(env, s, k);
    AddItemAdvances(env, s, enqueued, k);
    EnqueueFromOk(env, AddItem(env, s, k), enqueued, k + 1);
  }

  /** If every enqueued sub-task is ready, enqueueing makes the ready ones exactly the enqueued ones. */
  lemma {:induction false} EnqueueReadyOk(env: Env, s: State)
    requires Wf(s) && ItemsOk(s) && PcOk(s) && !s.pc.Finished?
    requires forall k :: 0 <= k < |s.mission.plan| && s.mission.plan[k].id in Enqueued(s.mission.itemIds, s.items) ==>
               DepsMet(s.mission.plan[k], s.mission.results)
    ensures Inv(EnqueueReady(env, s))
  {
    var enqueued := Enqueued(s.mission.itemIds, s.items);
    EnqueueFromOk(env, s, enqueued, 0);
    EnqueueFromFacts(env, s, enqueued, 0);
  }

  lemma {:induction false} BeginOk(s: State)
    requires Inv(s) && s.pc.Top?
    ensures Inv(Begin(s))
  {
    assert Items(Begin(s)) == Items(s);
  }

  lemma {:induction false} LaunchOk(env: Env, job: Job)
    requires Launchable(job)
    ensures Inv(Launch(env, job)) && Inv(Begin(Launch(env, job)))
  {
    NoRecords(job.records, job.id);
    EnqueueReadyOk(env, Blank(job));
    EnqueueReadyFacts(env, Blank(job));
    BeginOk(Launch(env, job));
  }

  lemma {:induction false} NoRecords(records: seq<Record>, id: Id)
    requires forall r :: r in records ==> r.missionId != id
    ensures RecordsFor(records, id) == []
  {
    if records != [] {
      assert records[|records| - 1] in records;
      NoRecords(records[..|records| - 1], id);
    }
  }

  // ---------- every step keeps it ----------

  /** `t` is `s` with the item at `i` replaced by `x`, another state of the same item. */
  ghost predicate Replaced(s: State, i: ItemId, x: WorkItem, t: State) {
    && i in s.mission.itemIds && i in s.items
    && x.subTaskId == s.items[i].subTaskId && x.agentId == s.items[i].agentId
    && t.items == s.items[i := x] && t.records == s.records
    && t.mission == s.mission.(results := t.mission.results)
    && (t.pc.Top? || (t.pc.Awaiting? && t.pc.item == i && x.status.Running? && t.pc.call.subTask == x.subTaskId))
  }

  lemma {:induction false} ViewReplaced(plan: Plan, results: map<Id, Output>, view: seq<WorkItem>, recs: seq<Record>,
                                        p: nat, x: WorkItem)
    requires ViewOk(plan, results, view, recs) && p < |view|
    requires x.subTaskId == view[p].subTaskId && x.agentId == view[p].agentId && ItemOk(plan, results, x)
    ensures ViewOk(plan, results, view[p := x], recs)
  {
    hide ItemOk;
  }

  lemma {:induction false} ReplacedItemsOk(s: State, i: ItemId, x: WorkItem, t: State)
    requires Wf(s) && ItemsOk(s) && !s.pc.Finished? && Replaced(s, i, x, t)
    requires t.mission.results == s.mission.results && ItemOk(s.mission.plan, s.mission.results, x)
    ensures Wf(t) && ItemsOk(t)
  {
    MeasureUpdated(s, i, x, t);
    hide ItemOk, ViewOk, DistinctIds, HasId, Enqueued, RecordsFor;
    ViewReplaced(s.mission.plan, s.mission.results, Items(s), RecordsFor(s.records, s.mission.id), Pos(s, i), x);
  }

  lemma {:induction false} OnlyOneWorks(s: State, i: ItemId, p: nat)
    requires OwnIds(s.mission) && Held(s) && PcOk(s) && i in s.mission.itemIds && p < |Items(s)|
    requires Items(s)[p].status.Running? && (s.pc.Awaiting? ==> s.pc.item == i)
    ensures p == Pos(s, i)
  {
    hide Held, BuildSynthesis;
  }

  lemma {:induction false} ReplacedPcOk(s: State, i: ItemId, x: WorkItem, t: State)
    requires Wf(s) && PcOk(s) && !s.pc.Finished? && Replaced(s, i, x, t)
    requires s.pc.Awaiting? ==> s.pc.item == i
    requires t.pc.Awaiting? <==> x.status.Running?
    ensures Held(t) && PcOk(t)
  {
    MeasureUpdated(s, i, x, t);
    WfHeld(s);
    WfHeld(t);
    hide Wf, Held, Measure, Enqueued, BuildSynthesis;
    forall p | 0 <= p < |Items(t)| && Items(t)[p].status.Running?
        ensures t.pc.Awaiting? && t.pc.item == s.mission.itemIds[p] {
      if Items(s)[p].status.Running? { OnlyOneWorks(s, i, p); }
    }
  }

  lemma {:induction false} ItemReplaced(s: State, i: ItemId, x: WorkItem, t: State)
    requires Inv(s) && !s.pc.Finished? && Replaced(s, i, x, t) && t.mission == s.mission
    requires s.pc.Awaiting? ==> s.pc.item == i
    requires t.pc.Awaiting? <==> x.status.Running?
    requires ItemOk(s.mission.plan, s.mission.results, x)
    ensures Inv(t)
  {
    WfHeld(s);
    hide Wf, Held, ItemOk, ItemsOk, PcOk, DepsMet, Enqueued, Measure;
    ReplacedItemsOk(s, i, x, t);
    ReplacedPcOk(s, i, x, t);
    MeasureUpdated(s, i, x, t);
  }

  lemma {:induction false} RunItemOk(env: Env, s: State, i: ItemId)
    requires Inv(s) && s.pc.Top? && i in s.mission.itemIds && Runnable(s.items[i])
    ensures Inv(RunItem(env, s, i))
  {
    hide Wf, OwnIds, RunItem, IndexOf, HasId, ReadyIffEnqueued, PcOk, RecordsFor, OneEach, Enqueued;
    WfHeld(s);
    RunItemShape(env, s, i);
    assert Items(s)[Pos(s, i)] == s.items[i];
    ItemReplaced(s, i, RunItem(env, s, i).items[i], RunItem(env, s, i));
  }

  lemma {:induction false} FinishPcOk(s: State)
    requires Wf(s) && PcOk(s) && s.pc.Top? && Best(s.mission.itemIds, s.items).None?
    ensures Held(Finish(s)) && Items(Finish(s)) == Items(s) && PcOk(Finish(s))
  {
    hide DistinctIds, HasId, OwnIds, BuildSynthesis;
    assert Items(Finish(s)) == Items(s);
    forall p | 0 <= p < |Items(s)| ensures !Runnable(Items(s)[p]) {
      assert s.mission.itemIds[p] in s.mission.itemIds;
    }
  }

  lemma {:induction false} FinishWf(s: State)
    requires Wf(s) && s.pc.Top?
    ensures Wf(Finish(s)) && (ReadyIffEnqueued(s) ==> ReadyIffEnqueued(Finish(s)))
  {
    hide DistinctIds, HasId, BuildSynthesis, DepsMet, Enqueued;
    var t := Finish(s);
    assert t.items == s.items && t.mission.results == s.mission.results;
    assert t.mission.itemIds == s.mission.itemIds && t.mission.plan == s.mission.plan && t.mission.id == s.mission.id;
  }

  lemma {:induction false} FinishOk(s: State)
    requires Inv(s) && s.pc.Top? && Best(s.mission.itemIds, s.items).None?
    ensures Inv(Finish(s))
  {
    hide PcOk, ViewOk, DistinctIds, HasId, ReadyIffEnqueued, RecordsFor, OwnIds, Enqueued, BuildSynthesis;
    FinishPcOk(s);
    FinishWf(s);
  }

  lemma {:induction false} PickOk(env: Env, s: State)
    requires Inv(s) && s.pc.Top?
    ensures Inv(Pick(env, s))
  {
    var next := Best(s.mission.itemIds, s.items);
    if next.None? {
      FinishOk(s);
    } else {
      RunItemOk(env, s, next.value);
    }
  }

  lemma {:induction false} RaisedOk(env: Env, s: State)
    requires Inv(s) && s.pc.Awaiting? && env.answer(s.pc.call).Raised?
    ensures Inv(Resume(env, s))
  {
    RaisedShape(env, s);
    WfHeld(s);
    hide Wf, OwnIds, Resume, DistinctIds, HasId, IndexOf, ReadyIffEnqueued, PcOk, RecordsFor;
    var r, p := Resume(env, s), Pos(s, s.pc.item);
    assert Items(s)[p] == s.items[s.pc.item];
    ItemReplaced(s, s.pc.item, r.items[s.pc.item], r);
  }

  /** A result for the sub-task of item `p` is consistent with every item once item `p` is done. */
  lemma {:induction false} ViewStored(plan: Plan, results: map<Id, Output>, view: seq<WorkItem>, recs: seq<Record>,
                                      p: nat, output: Output)
    requires ViewOk(plan, results, view, recs) && p < |view| && view[p].status.Running?
    ensures ViewOk(plan, results[view[p].subTaskId := output],
                   view[p := view[p].(status := Done, result := Some(output))], recs)
  {
    hide HasId, IndexOf;
  }

  lemma {:induction false} StoredItemsOk(s: State, output: Output)
    requires Inv(s) && s.pc.Awaiting?
    ensures Wf(Stored(s, output)) && ItemsOk(Stored(s, output))
    ensures Enqueued(Stored(s, output).mission.itemIds, Stored(s, output).items) == Enqueued(s.mission.itemIds, s.items)
  {
    var i, t, p := s.pc.item, Stored(s, output), Pos(s, s.pc.item);
    MeasureUpdated(s, i, t.items[i], t);
    EnqueuedIsView(s);
    ViewStored(s.mission.plan, s.mission.results, Items(s), RecordsFor(s.records, s.mission.id), p, output);
    assert Items(s)[p] == s.items[i];
    hide ViewOk, DistinctIds, RecordsFor, Enqueued;
  }

  lemma {:induction false} StoredOk(s: State, output: Output)
    requires Inv(s) && s.pc.Awaiting?
    ensures var t := Stored(s, output); Wf(t) && ItemsOk(t) && PcOk(t)
  {
    StoredShape(s, output);
    StoredItemsOk(s, output);
    WfHeld(s);
    WfHeld(Stored(s, output));
    hide Wf, Held, OwnIds, Stored, ItemsOk, PcOk, ReadyIffEnqueued;
    ReplacedPcOk(s, s.pc.item, Stored(s, output).items[s.pc.item], Stored(s, output));
  }

  lemma {:induction false} ResumeOk(env: Env, s: State)
    requires Inv(s) && s.pc.Awaiting?
    ensures Inv(Resume(env, s))
  {
    match env.answer(s.pc.call)
    case Raised(_) => RaisedOk(env, s);
    case Returned(output) => ReturnedOk(env, s, output);
  }

  lemma {:induction false} ReturnedOk(env: Env, s: State, output: Output)
    requires Inv(s) && s.pc.Awaiting? && env.answer(s.pc.call) == Returned(output)
    ensures Inv(Resume(env, s))
  {
    assert Resume(env, s) == EnqueueReady(env, Stored(s, output)) by { hide Inv, EnqueueReady; WfHeld(s); }
    StoredShape(s, output);
    StoredOk(s, output);
    StoredItemsOk(s, output);
    hide Wf, ItemsOk, PcOk, Stored, Resume, EnqueueReady, Enqueued;
    EnqueueReadyOk(env, Stored(s, output));
  }

  lemma {:induction false} StepOk(env: Env, s: State)
    requires Inv(s)
    ensures Inv(Step(env, s))
  {
    match s.pc
    case Finished =>
    case Top => PickOk(env, s);
    case Awaiting(_, _) => ResumeOk(env, s);
  }

  lemma {:induction false} StepsOk(env: Env, s: State, n: nat)
    requires Inv(s)
    ensures Inv(Steps(env, s, n))
    decreases n
  {
    hide Step, Held, ItemsOk, ReadyIffEnqueued, PcOk, DistinctIds, OwnIds;
    if n > 0 {
      StepOk(env, s);
      StepsOk(env, Step(env, s), n - 1);
    }
  }

  /** Every reachable state of a first run satisfies the invariant. */
  lemma {:induction false} ReachedOk(launch: Env, env: Env, job: Job, n: nat)
    requires Launchable(job)
    ensures Inv(Reached(launch, env, job, n)) && SameMission(Blank(job), Reached(launch, env, job, n))
  {
    hide Inv, Wf, Step, Measure;
    LaunchOk(launch, job);
    LaunchWf(launch, job);
    StepsOk(env, Begin(Launch(launch, job)), n);
  }
}
