/** Creation times never matter in the first run of a mission: distinct sub-tasks have distinct priorities,
    so the comparison of times that breaks ties is never reached. */
module MissionStamps {
  import opened Optional
  import opened MissionModel
  import opened MissionRun
  import opened MissionSafety

  /** Environments that differ in the clock at most. */
  ghost predicate SameButStamps(e: Env, f: Env) {
    && e.registry == f.registry && e.team == f.team && e.agents == f.agents
    && e.answer == f.answer
  }

  function Unstamped(item: WorkItem): WorkItem {
    item.(createdAt := 0)
  }

  ghost predicate SameItems(a: map<ItemId, WorkItem>, b: map<ItemId, WorkItem>) {
    a.Keys == b.Keys && forall i :: i in a ==> Unstamped(a[i]) == Unstamped(b[i])
  }

  /** States that differ in creation times at most. */
  ghost predicate Alike(s: State, t: State) {
    s == t.(items := s.items) && SameItems(s.items, t.items)
  }

  lemma {:induction false} EnqueuedAlike(ids: seq<ItemId>, a: map<ItemId, WorkItem>, b: map<ItemId, WorkItem>)
    requires SameItems(a, b)
    ensures Enqueued(ids, a) == Enqueued(ids, b)
  {
    forall i | i in a ensures a[i].subTaskId == b[i].subTaskId {
      assert Unstamped(a[i]).subTaskId == Unstamped(b[i]).subTaskId;
    }
    forall x ensures x in Enqueued(ids, a) <==> x in Enqueued(ids, b) {
      if x in Enqueued(ids, a) {
        var p :| 0 <= p < |ids| && ids[p] in a && a[ids[p]].subTaskId == x;
        assert b[ids[p]].subTaskId == x;
      }
      if x in Enqueued(ids, b) {
        var p :| 0 <= p < |ids| && ids[p] in b && b[ids[p]].subTaskId == x;
        assert a[ids[p]].subTaskId == x;
      }
    }
  }

  lemma {:induction false} SameItemsUpdated(a: map<ItemId, WorkItem>, b: map<ItemId, WorkItem>, i: ItemId, x: WorkItem,
                                            y: WorkItem)
    requires SameItems(a, b) && Unstamped(x) == Unstamped(y)
    ensures SameItems(a[i := x], b[i := y])
  {
  }

  lemma {:induction false} AddItemAlike(e: Env, f: Env, s: State, t: State, k: nat)
    requires SameButStamps(e, f) && Alike(s, t) && k < |s.mission.plan|
    ensures Alike(AddItem(e, s, k), AddItem(f, t, k))
  {
    var id := ItemId(s.mission.id, |s.mission.itemIds|);
    SameItemsUpdated(s.items, t.items, id, AddItem(e, s, k).items[id], AddItem(f, t, k).items[id]);
  }

  lemma {:induction false} EnqueueFromAlike(e: Env, f: Env, s: State, t: State, enqueued: set<Id>, k: nat)
    requires SameButStamps(e, f) && Alike(s, t) && k <= |s.mission.plan|
    ensures Alike(EnqueueFrom(e, s, enqueued, k), EnqueueFrom(f, t, enqueued, k))
    decreases |s.mission.plan| - k
  {
    if k < |s.mission.plan| {
      if s.mission.plan[k].id in enqueued || !DepsMet(s.mission.plan[k], s.mission.results) {
        EnqueueFromAlike(e, f, s, t, enqueued, k + 1);
      } else {
        AddItemAlike(e, f, s, t, k);
        hide SameButStamps, SameItems, DepsMet;
        EnqueueFromAlike(e, f, AddItem(e, s, k), AddItem(f, t, k), enqueued, k + 1);
      }
    }
  }

  lemma {:induction false} EnqueueReadyAlike(e: Env, f: Env, s: State, t: State)
    requires SameButStamps(e, f) && Alike(s, t)
    ensures Alike(EnqueueReady(e, s), EnqueueReady(f, t))
  {
    EnqueuedAlike(s.mission.itemIds, s.items, t.items);
    EnqueueFromAlike(e, f, s, t, Enqueued(s.mission.itemIds, s.items), 0);
  }

  // ---------- the choice ----------

  ghost predicate DistinctPriorities(ids: seq<ItemId>, items: map<ItemId, WorkItem>) {
    forall p, q :: 0 <= p < q < |ids| && ids[p] in items && ids[q] in items
        ==> items[ids[p]].priority != items[ids[q]].priority
  }

  lemma {:induction false} PrioritiesDiffer(s: State)
    requires Inv(s)
    ensures DistinctPriorities(s.mission.itemIds, s.items)
  {
    var ids, plan := s.mission.itemIds, s.mission.plan;
    forall p, q | 0 <= p < q < |ids| && ids[p] in s.items && ids[q] in s.items
      ensures s.items[ids[p]].priority != s.items[ids[q]].priority
    {
      assert Items(s)[p] == s.items[ids[p]] && Items(s)[q] == s.items[ids[q]];
      assert ItemOk(plan, s.mission.results, Items(s)[p]) && ItemOk(plan, s.mission.results, Items(s)[q]);
      var a, b := IndexOf(plan, Items(s)[p].subTaskId), IndexOf(plan, Items(s)[q].subTaskId);
      assert plan[a].id == Items(s)[p].subTaskId && plan[b].id == Items(s)[q].subTaskId;
    }
  }

  lemma {:induction false} BestAlike(ids: seq<ItemId>, a: map<ItemId, WorkItem>, b: map<ItemId, WorkItem>)
    requires SameItems(a, b) && DistinctPriorities(ids, a)
    ensures Best(ids, a) == Best(ids, b)
  {
    if ids != [] {
      var n := |ids| - 1;
      BestAlike(ids[..n], a, b);
      var r := Best(ids[..n], a);
      if ids[n] in a {
        assert Unstamped(a[ids[n]]) == Unstamped(b[ids[n]]);
        if r.Some? {
          var k :| 0 <= k < n && ids[..n][k] == r.value;
          assert ids[k] == r.value && a[ids[k]].priority != a[ids[n]].priority;
          assert Unstamped(a[r.value]) == Unstamped(b[r.value]);
        }
      }
    }
  }

  // ---------- the stretches ----------

  lemma {:induction false} RunItemAlike(e: Env, f: Env, s: State, t: State, i: ItemId)
    requires SameButStamps(e, f) && Alike(s, t) && Wf(s) && Wf(t) && s.pc.Top? && i in s.mission.itemIds
    ensures Alike(RunItem(e, s, i), RunItem(f, t, i))
  {
    assert Unstamped(s.items[i]) == Unstamped(t.items[i]);
    hide Wf, Slice, IndexOf, SameItems;
    SameItemsUpdated(s.items, t.items, i, RunItem(e, s, i).items[i], RunItem(f, t, i).items[i]);
  }

  lemma {:induction false} ResumeAlike(e: Env, f: Env, s: State, t: State)
    requires SameButStamps(e, f) && Alike(s, t) && Wf(s) && Wf(t) && s.pc.Awaiting?
    ensures Alike(Resume(e, s), Resume(f, t))
  {
    var i := s.pc.item;
    assert Unstamped(s.items[i]) == Unstamped(t.items[i]);
    match e.answer(s.pc.call)
    case Raised(_) =>
      SameItemsUpdated(s.items, t.items, i, MarkFailed(s.items, i)[i], MarkFailed(t.items, i)[i]);
    case Returned(output) =>
      SameItemsUpdated(s.items, t.items, i, MarkDone(s.items, i, output)[i], MarkDone(t.items, i, output)[i]);
      hide Wf, SameItems, EnqueueReady, IndexOf;
      EnqueueReadyAlike(e, f, Stored(s, output), Stored(t, output));
  }

  lemma {:induction false} StepAlike(e: Env, f: Env, s: State, t: State)
    requires SameButStamps(e, f) && Alike(s, t) && Inv(s) && Wf(t)
    ensures Alike(Step(e, s), Step(f, t))
  {
    match s.pc
    case Finished =>
    case Top =>
      PrioritiesDiffer(s);
      BestAlike(s.mission.itemIds, s.items, t.items);
      hide Wf, ItemsOk, ReadyIffEnqueued, PcOk, RunItem, SameItems, DistinctPriorities;
      var next := Best(s.mission.itemIds, s.items);
      if next.Some? { RunItemAlike(e, f, s, t, next.value); }
    case Awaiting(_, _) =>
      hide Wf, ItemsOk, ReadyIffEnqueued, PcOk, Resume, SameItems;
      ResumeAlike(e, f, s, t);
  }

  lemma {:induction false} StepsAlike(e: Env, f: Env, s: State, t: State, n: nat)
    requires SameButStamps(e, f) && Alike(s, t) && Inv(s) && Wf(t)
    ensures Alike(Steps(e, s, n), Steps(f, t, n))
    decreases n
  {
    hide ItemsOk, ReadyIffEnqueued, PcOk, Step, Alike;
    if n > 0 {
      StepAlike(e, f, s, t);
      StepOk(e, s);
      StepFacts(f, t);
      StepsAlike(e, f, Step(e, s), Step(f, t), n - 1);
    }
  }

  /** Two first runs of a mission that differ in creation times at most make the same calls at every moment,
      with the same results, records, status and synthesis. */
  lemma {:induction false} StampsDoNotMatter(launch: Env, launch': Env, env: Env, env': Env, job: Job, n: nat)
    requires Launchable(job) && SameButStamps(launch, launch') && SameButStamps(env, env')
    ensures Alike(Reached(launch, env, job, n), Reached(launch', env', job, n))
  {
    LaunchWf(launch, job);
    LaunchWf(launch', job);
    LaunchOk(launch, job);
    EnqueueReadyAlike(launch, launch', Blank(job), Blank(job));
    hide Inv, SameButStamps, Steps, Wf;
    StepsAlike(env, env', Begin(Launch(launch, job)), Begin(Launch(launch', job)), n);
  }
}
