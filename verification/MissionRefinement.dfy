/** The priority queue is a plain loop: take the first sub-task that is ready and was not taken yet, try it up
    to three times, and repeat.  Same agent calls in the same order, same results, same verdict, for every plan;
    and where dependencies point to earlier sub-tasks, the loop is a single pass over the plan. */
module MissionRefinement {
  import opened Optional
  import opened MissionModel
  import opened MissionRun
  import opened MissionSafety

  // ---------- the plain loop ----------

  datatype Loop = Loop(results: map<Id, Output>, context: Context, calls: seq<Call>)

  /** Up to three calls of the agent, ending with the first that returns. */
  ghost function Try(env: Env, st: SubTask, agent: string, tried: nat, l: Loop): Loop
    decreases 3 - tried
  {
    if tried >= 3 || agent == "" || agent !in env.agents then l
    else
      var call := Call(st.id, agent, Slice(st.role, l.context), tried + 1);
      match env.answer(call)
      case Returned(output) =>
        Loop(l.results[st.id := output], l.context[ResultOf(st.taskType) := output.text], l.calls + [call])
      case Raised(_) =>
        Try(env, st, agent, tried + 1, l.(calls := l.calls + [call]))
  }

  /** Sub-tasks without dependencies were delegated at launch, the others during the run. */
  ghost function AgentFor(launch: Env, env: Env, st: SubTask): string {
    var e := if st.dependsOn == [] then launch else env;
    AgentOr(Assign(e.registry, e.team, st.role))
  }

  /** The first sub-task from `from` on that is ready and not in `done`, or the length of the plan. */
  ghost function NextFrom(plan: Plan, results: map<Id, Output>, done: set<nat>, from: nat): (k: nat)
    requires from <= |plan|
    ensures from <= k <= |plan|
    ensures k < |plan| ==> k !in done && DepsMet(plan[k], results)
    ensures forall j :: from <= j < k ==> j in done || !DepsMet(plan[j], results)
    decreases |plan| - from
  {
    if from == |plan| || (from !in done && DepsMet(plan[from], results)) then from
    else NextFrom(plan, results, done, from + 1)
  }

  ghost function Next(plan: Plan, results: map<Id, Output>, done: set<nat>): (k: nat)
    ensures k <= |plan|
    ensures k < |plan| ==> k !in done && DepsMet(plan[k], results)
    ensures forall j :: 0 <= j < k ==> j in done || !DepsMet(plan[j], results)
  {
    NextFrom(plan, results, done, 0)
  }

  ghost function Open(plan: Plan, done: set<nat>): set<nat> {
    set j: nat | j < |plan| && j !in done
  }

  lemma {:induction false} OpenShrinks(plan: Plan, done: set<nat>, k: nat)
    requires k < |plan| && k !in done
    ensures |Open(plan, done + {k})| < |Open(plan, done)|
  {
    assert k in Open(plan, done) && Open(plan, done + {k}) == Open(plan, done) - {k};
  }

  /** Takes sub-tasks as they become ready, each once, the first in the plan first. */
  ghost function ReadyLoop(launch: Env, env: Env, plan: Plan, done: set<nat>, l: Loop): Loop
    decreases |Open(plan, done)|
  {
    var k := Next(plan, l.results, done);
    if k == |plan| then l
    else
      OpenShrinks(plan, done, k);
      ReadyLoop(launch, env, plan, done + {k}, Try(env, plan[k], AgentFor(launch, env, plan[k]), 0, l))
  }

  /** One pass over the plan. */
  ghost function ForLoop(launch: Env, env: Env, plan: Plan, k: nat, l: Loop): Loop
    requires k <= |plan|
    decreases |plan| - k
  {
    if k == |plan| then l
    else if DepsMet(plan[k], l.results) then
      ForLoop(launch, env, plan, k + 1, Try(env, plan[k], AgentFor(launch, env, plan[k]), 0, l))
    else ForLoop(launch, env, plan, k + 1, l)
  }

  ghost predicate Ordered(plan: Plan) {
    && DistinctIds(plan)
    && forall k, d :: 0 <= k < |plan| && d in plan[k].dependsOn ==> exists j :: 0 <= j < k && plan[j].id == d
  }

  // ---------- what enqueueing adds ----------

  ghost predicate Fresh(env: Env, plan: Plan, enqueued: set<Id>, item: WorkItem) {
    && item.status.Pending?
    && item.subTaskId !in enqueued
    && HasId(plan, item.subTaskId)
    && item.agentId == AgentOr(Assign(env.registry, env.team, plan[IndexOf(plan, item.subTaskId)].role))
  }

  ghost predicate FreshFrom(env: Env, plan: Plan, enqueued: set<Id>, view: seq<WorkItem>, from: nat) {
    from <= |view| && forall p :: from <= p < |view| ==> Fresh(env, plan, enqueued, view[p])
  }

  lemma {:induction false} FreshMore(env: Env, plan: Plan, enqueued: set<Id>, view: seq<WorkItem>, x: WorkItem,
                                     later: seq<WorkItem>)
    requires Fresh(env, plan, enqueued, x) && view + [x] <= later && FreshFrom(env, plan, enqueued, later, |view| + 1)
    ensures FreshFrom(env, plan, enqueued, later, |view|)
  {
    hide Fresh;
    assert later[|view|] == x;
  }

  lemma {:induction false} EnqueueFromFresh(env: Env, s: State, enqueued: set<Id>, k: nat)
    requires Wf(s) && k <= |s.mission.plan| && NoneAhead(s, enqueued, k)
    ensures var r := EnqueueFrom(env, s, enqueued, k);
            Wf(r) && FreshFrom(env, s.mission.plan, enqueued, Items(r), |Items(s)|)
    decreases |s.mission.plan| - k
  {
    EnqueueFromFacts(env, s, enqueued, k);
    if k < |s.mission.plan| {
      if s.mission.plan[k].id in enqueued || !DepsMet(s.mission.plan[k], s.mission.results) {
        EnqueueFromFresh(env, s, enqueued, k + 1);
      } else {
        AddThenRestFresh(env, s, enqueued, k);
      }
    }
  }

  lemma {:induction false} AddThenRestFresh(env: Env, s: State, enqueued: set<Id>, k: nat)
    requires Wf(s) && k < |s.mission.plan| && s.mission.plan[k].id !in enqueued && NoneAhead(s, enqueued, k)
    ensures var r := EnqueueFrom(env, AddItem(env, s, k), enqueued, k + 1);
            Wf(r) && FreshFrom(env, s.mission.plan, enqueued, Items(r), |Items(s)|)
    decreases |s.mission.plan| - k, 0
  {
    var t := AddItem(env, s, k);
    assert Fresh(env, s.mission.plan, enqueued, NewItem(env, s, k));
    AddItemFacts(env, s, k);
    AddItemStep(env, s, enqueued, k);
    hide FreshFrom, Fresh, NoneAhead, AddItem, EnqueueFrom, HasId, Enqueued, OwnIds, DistinctIds, Measure;
    EnqueueFromFresh(env, t, enqueued, k + 1);
    EnqueueFromFacts(env, t, enqueued, k + 1);
    FreshMore(env, s.mission.plan, enqueued, Items(s), NewItem(env, s, k), Items(EnqueueFrom(env, t, enqueued, k + 1)));
  }

  // ---------- the frontier ----------

  ghost function At(plan: Plan, item: WorkItem): nat
    requires HasId(plan, item.subTaskId)
  {
    IndexOf(plan, item.subTaskId)
  }

  /** At the top of the loop: items of `done` are settled, the item of `k` has been tried `tried` times, and the
      others are untouched. */
  ghost predicate ItemAtFrontier(launch: Env, env: Env, plan: Plan, done: set<nat>, k: nat, tried: nat,
                                 item: WorkItem) {
    && HasId(plan, item.subTaskId)
    && item.agentId == AgentFor(launch, env, plan[At(plan, item)])
    && (At(plan, item) in done ==> !Runnable(item))
    && (At(plan, item) !in done && At(plan, item) == k ==> Runnable(item) && item.attempts == tried)
    && (At(plan, item) !in done && At(plan, item) != k ==> item.status.Pending?)
  }

  ghost predicate AllEnqueued(s: State, done: set<nat>) {
    forall j :: j in done ==> j < |s.mission.plan| && s.mission.plan[j].id in Enqueued(s.mission.itemIds, s.items)
  }

  ghost predicate Frontier(launch: Env, env: Env, s: State, done: set<nat>, k: nat, tried: nat) {
    && Inv(s) && s.pc.Top? && s.mission.status.MissionRunning?
    && k == Next(s.mission.plan, s.mission.results, done) && AllEnqueued(s, done)
    && forall p :: 0 <= p < |Items(s)| ==> ItemAtFrontier(launch, env, s.mission.plan, done, k, tried, Items(s)[p])
  }

  /** Nothing is under way: the next sub-task has not been tried yet. */
  ghost predicate Settled(launch: Env, env: Env, s: State, done: set<nat>) {
    Frontier(launch, env, s, done, Next(s.mission.plan, s.mission.results, done), 0)
  }

  ghost function LoopOf(s: State): Loop {
    Loop(s.mission.results, s.context, s.calls)
  }

  // ---------- the queue picks the frontier ----------

  lemma {:induction false} FrontierIsBetter(launch: Env, env: Env, s: State, done: set<nat>, k: nat, tried: nat, p: nat,
                                            q: nat)
    requires Frontier(launch, env, s, done, k, tried) && p < |Items(s)| && At(s.mission.plan, Items(s)[p]) == k
    requires q < |Items(s)| && q != p && Runnable(Items(s)[q])
    ensures Better(Items(s)[p], Items(s)[q])
  {
    assert ItemAtFrontier(launch, env, s.mission.plan, done, k, tried, Items(s)[q]);
    assert ItemOk(s.mission.plan, s.mission.results, Items(s)[p])
           && ItemOk(s.mission.plan, s.mission.results, Items(s)[q]);
    NotAt(s, p, q);
    ItemIsReady(s, q);
    hide DepsMet, Enqueued, AgentFor, RecordsFor, PcOk;
  }

  /** Every item is for a ready sub-task. */
  lemma {:induction false} ItemIsReady(s: State, q: nat)
    requires Inv(s) && q < |Items(s)|
    ensures HasId(s.mission.plan, Items(s)[q].subTaskId)
    ensures DepsMet(s.mission.plan[At(s.mission.plan, Items(s)[q])], s.mission.results)
  {
    EnqueuedIsView(s);
    assert ItemOk(s.mission.plan, s.mission.results, Items(s)[q]);
    hide DepsMet, RecordsFor, PcOk, Enqueued;
    assert s.mission.plan[At(s.mission.plan, Items(s)[q])].id == Items(s)[q].subTaskId;
  }

  lemma {:induction false} PicksFrontier(launch: Env, env: Env, s: State, done: set<nat>, k: nat, tried: nat, p: nat)
    requires Frontier(launch, env, s, done, k, tried) && p < |Items(s)| && At(s.mission.plan, Items(s)[p]) == k
    ensures Best(s.mission.itemIds, s.items) == Some(s.mission.itemIds[p])
  {
    FrontierFacts(launch, env, s, done, k, tried, p);
    hide ItemsOk, ReadyIffEnqueued, PcOk, DistinctIds, HasId, ItemAtFrontier, Better, AllEnqueued, Next;
    forall q | 0 <= q < |Items(s)| && q != p && Runnable(Items(s)[q]) ensures Better(Items(s)[p], Items(s)[q]) {
      FrontierIsBetter(launch, env, s, done, k, tried, p, q);
    }
    assert s.mission.itemIds[p] in s.mission.itemIds && Runnable(s.items[s.mission.itemIds[p]]);
    var best := Best(s.mission.itemIds, s.items);
    assert Items(s)[Pos(s, best.value)] == s.items[best.value];
  }

  /** No runnable item is left once every ready sub-task was taken. */
  lemma {:induction false} NothingLeft(launch: Env, env: Env, s: State, done: set<nat>)
    requires Frontier(launch, env, s, done, |s.mission.plan|, 0)
    ensures Best(s.mission.itemIds, s.items).None?
  {
    forall p | 0 <= p < |s.mission.itemIds| ensures !Runnable(s.items[s.mission.itemIds[p]]) {
      assert ItemAtFrontier(launch, env, s.mission.plan, done, |s.mission.plan|, 0, Items(s)[p]);
      ItemIsReady(s, p);
    }
    hide Inv, Frontier;
  }

  /** Items that keep their places and sub-tasks keep what is enqueued. */
  lemma {:induction false} StaysEnqueued(s: State, t: State, done: set<nat>)
    requires Held(s) && Held(t) && t.mission.plan == s.mission.plan && AllEnqueued(s, done)
    requires |Items(s)| <= |Items(t)|
    requires forall q :: 0 <= q < |Items(s)| ==> Items(t)[q].subTaskId == Items(s)[q].subTaskId
    ensures AllEnqueued(t, done)
  {
    EnqueuedIsView(s);
    EnqueuedIsView(t);
    hide Held, Enqueued, View;
    forall j | j in done ensures s.mission.plan[j].id in Enqueued(t.mission.itemIds, t.items) {
      var q :| 0 <= q < |Items(s)| && Items(s)[q].subTaskId == s.mission.plan[j].id;
      assert Items(t)[q].subTaskId == s.mission.plan[j].id;
    }
  }

  /** The item of the frontier was tried once more and can be tried again. */
  lemma {:induction false} FrontierStays(launch: Env, env: Env, s: State, done: set<nat>, k: nat, tried: nat, p: nat,
                                         x: WorkItem, t: State)
    requires Frontier(launch, env, s, done, k, tried) && p < |Items(s)| && At(s.mission.plan, Items(s)[p]) == k
    requires Inv(t) && t.pc.Top? && t.mission == s.mission && Items(t) == Items(s)[p := x]
    requires x.subTaskId == Items(s)[p].subTaskId && x.agentId == Items(s)[p].agentId
    requires Runnable(x) && x.attempts == tried + 1
    ensures Frontier(launch, env, t, done, k, tried + 1)
  {
    hide ItemsOk, ReadyIffEnqueued, PcOk, AgentFor, DistinctIds, AllEnqueued, Next, Enqueued;
    forall q | 0 <= q < |Items(t)|
      ensures ItemAtFrontier(launch, env, t.mission.plan, done, k, tried + 1, Items(t)[q])
    {
      assert ItemAtFrontier(launch, env, s.mission.plan, done, k, tried, Items(s)[q]);
      if q != p { NotAt(s, p, q); }
    }
    StaysEnqueued(s, t, done);
  }

  lemma {:induction false} NotAt(s: State, p: nat, q: nat)
    requires Inv(s) && p < |Items(s)| && q < |Items(s)| && p != q
    requires HasId(s.mission.plan, Items(s)[p].subTaskId) && HasId(s.mission.plan, Items(s)[q].subTaskId)
    ensures At(s.mission.plan, Items(s)[q]) != At(s.mission.plan, Items(s)[p])
  {
  }

  /** Once the item of the frontier is settled, any sub-task that was not taken is untouched. */
  lemma {:induction false} SettledMoves(launch: Env, env: Env, s: State, done: set<nat>, k: nat, tried: nat, p: nat,
                                        x: WorkItem, q: nat, next: nat)
    requires Frontier(launch, env, s, done, k, tried) && p < |Items(s)| && At(s.mission.plan, Items(s)[p]) == k
    requires x.subTaskId == Items(s)[p].subTaskId && x.agentId == Items(s)[p].agentId && !Runnable(x)
    requires q < |Items(s)|
    ensures ItemAtFrontier(launch, env, s.mission.plan, done + {k}, next, 0, Items(s)[p := x][q])
  {
    assert ItemAtFrontier(launch, env, s.mission.plan, done, k, tried, Items(s)[q]);
    assert ItemOk(s.mission.plan, s.mission.results, Items(s)[q]);
    hide ReadyIffEnqueued, PcOk, AllEnqueued, Next, AgentFor;
    if q != p { NotAt(s, p, q); }
  }

  /** A sub-task that was taken is enqueued, as it has an item. */
  lemma {:induction false} TakenIsEnqueued(s: State, done: set<nat>, k: nat, p: nat)
    requires Inv(s) && AllEnqueued(s, done) && p < |Items(s)|
    requires HasId(s.mission.plan, Items(s)[p].subTaskId) && At(s.mission.plan, Items(s)[p]) == k
    ensures AllEnqueued(s, done + {k})
  {
    EnqueuedIsView(s);
    assert s.mission.plan[k].id == Items(s)[p].subTaskId;
    hide Inv, Enqueued;
  }

  lemma {:induction false} FrontierMoves(launch: Env, env: Env, s: State, done: set<nat>, k: nat, tried: nat, p: nat,
                                         x: WorkItem, t: State)
    requires Frontier(launch, env, s, done, k, tried) && p < |Items(s)| && At(s.mission.plan, Items(s)[p]) == k
    requires Inv(t) && t.pc.Top? && t.mission == s.mission && Items(t) == Items(s)[p := x]
    requires x.subTaskId == Items(s)[p].subTaskId && x.agentId == Items(s)[p].agentId && !Runnable(x)
    ensures Settled(launch, env, t, done + {k})
  {
    hide ItemsOk, ReadyIffEnqueued, PcOk, DistinctIds, ItemAtFrontier, AllEnqueued, Next, Enqueued, At, HasId;
    FrontierFacts(launch, env, s, done, k, tried, p);
    var next := Next(t.mission.plan, t.mission.results, done + {k});
    forall q | 0 <= q < |Items(t)|
      ensures ItemAtFrontier(launch, env, t.mission.plan, done + {k}, next, 0, Items(t)[q])
    {
      SettledMoves(launch, env, s, done, k, tried, p, x, q, next);
    }
    TakenIsEnqueued(s, done, k, p);
    StaysEnqueued(s, t, done + {k});
  }

  // ---------- one try ----------

  ghost predicate SameItem(s: State, t: State, p: nat) {
    && Held(s) && Held(t) && p < |Items(s)| && p < |Items(t)|
    && Items(t)[p].subTaskId == Items(s)[p].subTaskId && Items(t)[p].agentId == Items(s)[p].agentId
  }

  lemma {:induction false} FrontierFacts(launch: Env, env: Env, s: State, done: set<nat>, k: nat, tried: nat, p: nat)
    requires Frontier(launch, env, s, done, k, tried) && p < |Items(s)| && At(s.mission.plan, Items(s)[p]) == k
    ensures Inv(s) && Wf(s) && s.pc.Top? && k < |s.mission.plan| && k !in done && OwnIds(s.mission) && Held(s)
    ensures k == Next(s.mission.plan, s.mission.results, done) && AllEnqueued(s, done)
            && s.mission.status.MissionRunning?
    ensures Runnable(Items(s)[p]) && Items(s)[p].attempts == tried && Items(s)[p].maxAttempts == 3
    ensures HasId(s.mission.plan, Items(s)[p].subTaskId)
    ensures s.items[s.mission.itemIds[p]] == Items(s)[p] && Pos(s, s.mission.itemIds[p]) == p
  {
    assert ItemAtFrontier(launch, env, s.mission.plan, done, k, tried, Items(s)[p]);
    assert ItemOk(s.mission.plan, s.mission.results, Items(s)[p]);
    hide RecordsFor, DepsMet, Enqueued;
  }

  /** After a failed try the frontier's item can be tried again, or it is settled and the frontier moves. */
  lemma {:induction false} FrontierFailed(launch: Env, env: Env, s: State, done: set<nat>, k: nat, tried: nat, p: nat,
                                          x: WorkItem, t: State)
    requires Frontier(launch, env, s, done, k, tried) && p < |Items(s)| && At(s.mission.plan, Items(s)[p]) == k
    requires Inv(t) && t.pc.Top? && t.mission == s.mission && Items(t) == Items(s)[p := x]
    requires x == Items(s)[p].(status := AfterFailure(x), attempts := tried + 1)
    ensures if tried + 1 < 3 then Frontier(launch, env, t, done, k, tried + 1) else Settled(launch, env, t, done + {k})
    ensures SameItem(s, t, p)
  {
    hide Wf, Held, ItemsOk, ReadyIffEnqueued, PcOk, Frontier, Settled;
    FrontierFacts(launch, env, s, done, k, tried, p);
    WfHeld(t);
    if tried + 1 < 3 {
      FrontierStays(launch, env, s, done, k, tried, p, x, t);
    } else {
      FrontierMoves(launch, env, s, done, k, tried, p, x, t);
    }
  }

  lemma {:induction false} StepRuns(env: Env, s: State, i: ItemId)
    requires Wf(s) && s.pc.Top? && Best(s.mission.itemIds, s.items) == Some(i)
    ensures i in s.mission.itemIds && Step(env, s) == RunItem(env, s, i)
  {
    hide Wf, RunItem;
  }

  lemma {:induction false} UnavailableStep(launch: Env, env: Env, s: State, done: set<nat>, k: nat, tried: nat, p: nat)
    requires Frontier(launch, env, s, done, k, tried) && p < |Items(s)| && At(s.mission.plan, Items(s)[p]) == k
    requires Items(s)[p].agentId == "" || Items(s)[p].agentId !in env.agents
    ensures var t := Step(env, s);
            && LoopOf(t) == LoopOf(s) && t.mission == s.mission
            && (if tried + 1 < 3 then Frontier(launch, env, t, done, k, tried + 1)
                else Settled(launch, env, t, done + {k}))
            && SameItem(s, t, p)
  {
    hide Wf, Held, ItemsOk, ReadyIffEnqueued, PcOk, Frontier, Settled, RunItem, Step, Measure, SameItem;
    FrontierFacts(launch, env, s, done, k, tried, p);
    PicksFrontier(launch, env, s, done, k, tried, p);
    var i := s.mission.itemIds[p];
    StepRuns(env, s, i);
    StepOk(env, s);
    var t := RunItem(env, s, i);
    RunItemShape(env, s, i);
    MeasureUpdated(s, i, t.items[i], t);
    FrontierFailed(launch, env, s, done, k, tried, p, t.items[i], t);
  }

  ghost function CallAt(s: State, k: nat, agent: string, tried: nat): Call
    requires k < |s.mission.plan|
  {
    Call(s.mission.plan[k].id, agent, Slice(s.mission.plan[k].role, s.context), tried + 1)
  }

  /** The item at `p` while its agent is working. */
  ghost function Working(s: State, p: nat): WorkItem
    requires Held(s) && p < |Items(s)|
  {
    Items(s)[p].(status := Running, attempts := Items(s)[p].attempts + 1)
  }

  lemma {:induction false} RunItemCalls(env: Env, s: State, k: nat, p: nat)
    requires Wf(s) && s.pc.Top? && p < |Items(s)| && k == At(s.mission.plan, Items(s)[p])
    requires Runnable(Items(s)[p]) && Items(s)[p].agentId != "" && Items(s)[p].agentId in env.agents
    ensures var call := CallAt(s, k, Items(s)[p].agentId, Items(s)[p].attempts);
            var t := RunItem(env, s, s.mission.itemIds[p]);
            && Wf(t) && t.pc == Awaiting(s.mission.itemIds[p], call)
            && t.mission == s.mission && t.context == s.context && t.calls == s.calls + [call]
            && Items(t) == Items(s)[p := Working(s, p)]
  {
    hide DistinctIds, HasId, IndexOf, Enqueued, Measure, Slice;
    var i := s.mission.itemIds[p];
    assert s.items[i] == Items(s)[p];
    var t := RunItem(env, s, i);
    assert t.items == s.items[i := Working(s, p)];
    MeasureUpdated(s, i, Working(s, p), t);
  }

  lemma {:induction false} CallStep(launch: Env, env: Env, s: State, done: set<nat>, k: nat, tried: nat, p: nat)
    requires Frontier(launch, env, s, done, k, tried) && p < |Items(s)| && At(s.mission.plan, Items(s)[p]) == k
    requires Items(s)[p].agentId != "" && Items(s)[p].agentId in env.agents
    ensures var call, t := CallAt(s, k, Items(s)[p].agentId, tried), Step(env, s);
            && Inv(t) && t.pc == Awaiting(s.mission.itemIds[p], call)
            && t.mission == s.mission && t.context == s.context && t.calls == s.calls + [call]
            && Items(t) == Items(s)[p := Working(s, p)]
            && Items(s)[p].attempts == tried
  {
    hide ItemsOk, ReadyIffEnqueued, PcOk, DistinctIds, HasId, RunItem, Slice, OwnIds, AllEnqueued, Next;
    FrontierFacts(launch, env, s, done, k, tried, p);
    PicksFrontier(launch, env, s, done, k, tried, p);
    StepOk(env, s);
    RunItemCalls(env, s, k, p);
  }

  lemma {:induction false} RaisedItem(env: Env, u: State, p: nat)
    requires Wf(u) && u.pc.Awaiting? && p < |Items(u)| && u.pc.item == u.mission.itemIds[p]
    requires env.answer(u.pc.call).Raised?
    ensures var t := Resume(env, u);
            && Wf(t) && t.pc.Top? && t.mission == u.mission && t.context == u.context && t.calls == u.calls
            && Items(t) == Items(u)[p := Items(u)[p].(status := AfterFailure(Items(u)[p]))]
  {
    var i, t := u.pc.item, Resume(env, u);
    MeasureUpdated(u, i, t.items[i], t);
    hide DistinctIds, HasId, Enqueued, Measure;
  }

  lemma {:induction false} RaisedStep(launch: Env, env: Env, s: State, done: set<nat>, k: nat, tried: nat, p: nat)
    requires Frontier(launch, env, s, done, k, tried) && p < |Items(s)| && At(s.mission.plan, Items(s)[p]) == k
    requires Items(s)[p].agentId != "" && Items(s)[p].agentId in env.agents
    requires env.answer(CallAt(s, k, Items(s)[p].agentId, tried)).Raised?
    ensures Wf(Step(env, s)) && Step(env, s).pc.Awaiting?
    ensures var call, t := CallAt(s, k, Items(s)[p].agentId, tried), Step(env, Step(env, s));
            && LoopOf(t) == LoopOf(s).(calls := s.calls + [call]) && t.mission == s.mission
            && (if tried + 1 < 3 then Frontier(launch, env, t, done, k, tried + 1)
                else Settled(launch, env, t, done + {k}))
            && SameItem(s, t, p)
  {
    hide Wf, Held, View, ItemsOk, ReadyIffEnqueued, PcOk, Frontier, Settled, Pick, Resume, SameItem, CallAt, IndexOf,
         BuildSynthesis, Best;
    FrontierFacts(launch, env, s, done, k, tried, p);
    CallStep(launch, env, s, done, k, tried, p);
    var u := Step(env, s);
    WfHeld(u);
    ResumeOk(env, u);
    RaisedItem(env, u, p);
    var t := Resume(env, u);
    WfHeld(t);
    assert Items(t) == Items(s)[p := Items(t)[p]];
    FrontierFailed(launch, env, s, done, k, tried, p, Items(t)[p], t);
  }

  /** A sub-task that becomes ready during the run was not taken before, and is delegated in the run. */
  lemma {:induction false} NewlyReady(launch: Env, env: Env, s: State, j: nat, results: map<Id, Output>)
    requires Inv(s) && j < |s.mission.plan|
    requires s.mission.plan[j].id !in Enqueued(s.mission.itemIds, s.items) && DepsMet(s.mission.plan[j], results)
    ensures AgentFor(launch, env, s.mission.plan[j]) == AgentOr(Assign(env.registry, env.team, s.mission.plan[j].role))
  {
    hide ItemsOk, PcOk, Enqueued, Assign;
    var d :| d in s.mission.plan[j].dependsOn && d !in s.mission.results;
  }

  lemma {:induction false} FreshAtFrontier(launch: Env, env: Env, s: State, done: set<nat>, t: State, q: nat, next: nat)
    requires Inv(s) && AllEnqueued(s, done)
    requires Inv(t) && t.mission.plan == s.mission.plan
    requires q < |Items(t)| && Fresh(env, s.mission.plan, Enqueued(s.mission.itemIds, s.items), Items(t)[q])
    ensures ItemAtFrontier(launch, env, t.mission.plan, done, next, 0, Items(t)[q])
  {
    ItemIsReady(t, q);
    var j := At(t.mission.plan, Items(t)[q]);
    assert ItemOk(t.mission.plan, t.mission.results, Items(t)[q]);
    hide DepsMet, Enqueued, AgentFor, Assign, PcOk, RecordsFor;
    assert t.mission.plan[j].id == Items(t)[q].subTaskId;
    NewlyReady(launch, env, s, j, t.mission.results);
  }

  lemma {:induction false} ReturnedItem(env: Env, u: State, k: nat, p: nat, output: Output)
    requires Wf(u) && u.pc.Awaiting? && p < |Items(u)| && u.pc.item == u.mission.itemIds[p]
             && At(u.mission.plan, Items(u)[p]) == k
    requires env.answer(u.pc.call) == Returned(output)
    ensures var t := Resume(env, u);
            && Wf(t) && t.pc.Top? && SameMission(u, t) && t.mission.status == u.mission.status
            && t.mission.results == u.mission.results[u.mission.plan[k].id := output]
            && t.context == u.context[ResultOf(u.mission.plan[k].taskType) := output.text] && t.calls == u.calls
            && Items(u)[p := Items(u)[p].(status := Done, result := Some(output))] <= Items(t)
            && FreshFrom(env, u.mission.plan, Enqueued(u.mission.itemIds, u.items), Items(t), |Items(u)|)
  {
    hide DistinctIds, HasId, Measure, FreshFrom;
    var i, v := u.pc.item, Stored(u, output);
    assert u.items[i] == Items(u)[p];
    MeasureUpdated(u, i, Items(u)[p].(status := Done, result := Some(output)), v);
    EnqueueReadyFacts(env, v);
    EnqueueFromFresh(env, v, Enqueued(v.mission.itemIds, v.items), 0);
  }

  lemma {:induction false} ReturnedFrontier(launch: Env, env: Env, s: State, done: set<nat>, k: nat, tried: nat, p: nat,
                                            output: Output, x: WorkItem, t: State)
    requires Frontier(launch, env, s, done, k, tried) && p < |Items(s)| && At(s.mission.plan, Items(s)[p]) == k
    requires x.subTaskId == Items(s)[p].subTaskId && x.agentId == Items(s)[p].agentId && !Runnable(x)
    requires Inv(t) && t.pc.Top? && t.mission.plan == s.mission.plan && t.mission.status == s.mission.status
    requires t.mission.results == s.mission.results[s.mission.plan[k].id := output]
    requires Items(s)[p := x] <= Items(t)
    requires FreshFrom(env, s.mission.plan, Enqueued(s.mission.itemIds, s.items), Items(t), |Items(s)|)
    ensures Settled(launch, env, t, done + {k})
  {
    hide ItemsOk, ReadyIffEnqueued, PcOk, DistinctIds, HasId, At, ItemAtFrontier, Enqueued, Fresh, AllEnqueued, Next;
    FrontierFacts(launch, env, s, done, k, tried, p);
    var next := Next(t.mission.plan, t.mission.results, done + {k});
    TakenIsEnqueued(s, done, k, p);
    forall q | 0 <= q < |Items(t)|
      ensures ItemAtFrontier(launch, env, t.mission.plan, done + {k}, next, 0, Items(t)[q])
    {
      if q < |Items(s)| {
        SettledMoves(launch, env, s, done, k, tried, p, x, q, next);
        assert Items(t)[q] == Items(s)[p := x][q];
      } else {
        FreshAtFrontier(launch, env, s, done + {k}, t, q, next);
      }
    }
    forall q | 0 <= q < |Items(s)| ensures Items(t)[q].subTaskId == Items(s)[q].subTaskId {
      assert Items(t)[q] == Items(s)[p := x][q];
    }
    StaysEnqueued(s, t, done + {k});
  }

  lemma {:induction false} ReturnedStep(launch: Env, env: Env, s: State, done: set<nat>, k: nat, tried: nat, p: nat,
                                        output: Output)
    requires Frontier(launch, env, s, done, k, tried) && p < |Items(s)| && At(s.mission.plan, Items(s)[p]) == k
    requires Items(s)[p].agentId != "" && Items(s)[p].agentId in env.agents
    requires env.answer(CallAt(s, k, Items(s)[p].agentId, tried)) == Returned(output)
    ensures Wf(Step(env, s)) && Step(env, s).pc.Awaiting?
    ensures var st, t := s.mission.plan[k], Step(env, Step(env, s));
            && LoopOf(t) == Loop(s.mission.results[st.id := output], s.context[ResultOf(st.taskType) := output.text],
                                 s.calls + [CallAt(s, k, Items(s)[p].agentId, tried)])
            && SameMission(s, t) && Settled(launch, env, t, done + {k})
  {
    hide Wf, Held, View, ItemsOk, ReadyIffEnqueued, PcOk, Frontier, Settled, Pick, Resume, CallAt, IndexOf, FreshFrom,
         Enqueued, BuildSynthesis, Best;
    FrontierFacts(launch, env, s, done, k, tried, p);
    CallStep(launch, env, s, done, k, tried, p);
    var u := Step(env, s);
    WfHeld(u);
    EnqueuedByWorking(s, u, p);
    ResumeOk(env, u);
    ReturnedItem(env, u, k, p, output);
    var t, x := Resume(env, u), Items(u)[p].(status := Done, result := Some(output));
    WfHeld(t);
    assert Items(u)[p := x] == Items(s)[p := x];
    ReturnedFrontier(launch, env, s, done, k, tried, p, output, x, t);
  }

  lemma {:induction false} EnqueuedByWorking(s: State, u: State, p: nat)
    requires Held(s) && Held(u) && p < |Items(s)| && Items(u) == Items(s)[p := Working(s, p)]
    ensures Enqueued(u.mission.itemIds, u.items) == Enqueued(s.mission.itemIds, s.items)
  {
    EnqueuedIsView(s);
    EnqueuedIsView(u);
    assert forall q :: 0 <= q < |Items(s)| ==> Items(u)[q].subTaskId == Items(s)[q].subTaskId;
  }

  // ---------- the whole run ----------

  lemma {:induction false} RunUnfolds(env: Env, s: State)
    requires Wf(s) && !s.pc.Finished?
    ensures Wf(Step(env, s)) && Run(env, s) == Run(env, Step(env, s))
  {
    StepFacts(env, s);
  }

  lemma {:induction false} SettledWf(launch: Env, env: Env, s: State, done: set<nat>)
    requires Settled(launch, env, s, done)
    ensures Wf(s) && !s.pc.Finished? && Frontier(launch, env, s, done, Next(s.mission.plan, s.mission.results, done), 0)
  {
    hide Wf, ItemsOk, ReadyIffEnqueued, PcOk;
  }

  lemma {:induction false} TryUnfolds(env: Env, st: SubTask, agent: string, tried: nat, l: Loop)
    requires tried < 3
    ensures var call := Call(st.id, agent, Slice(st.role, l.context), tried + 1);
            Try(env, st, agent, tried, l) ==
            if agent == "" || agent !in env.agents then Try(env, st, agent, tried + 1, l)
            else match env.answer(call)
              case Returned(output) => Loop(l.results[st.id := output], l.context[ResultOf(st.taskType) := output.text],
                                            l.calls + [call])
              case Raised(_) => Try(env, st, agent, tried + 1, l.(calls := l.calls + [call]))
    ensures forall l' :: Try(env, st, agent, 3, l') == l'
  {
    hide Slice;
  }

  lemma {:induction false} SameAt(s: State, t: State, p: nat)
    requires SameItem(s, t, p) && t.mission.plan == s.mission.plan && HasId(s.mission.plan, Items(s)[p].subTaskId)
    ensures Held(t) && p < |Items(t)| && HasId(t.mission.plan, Items(t)[p].subTaskId)
    ensures At(t.mission.plan, Items(t)[p]) == At(s.mission.plan, Items(s)[p])
            && Items(t)[p].agentId == Items(s)[p].agentId
  {
    hide HasId;
  }

  /** All tries of the sub-task at the frontier. */
  lemma {:induction false} TryToEnd(launch: Env, env: Env, s: State, done: set<nat>, k: nat, tried: nat, p: nat)
    returns (t: State)
    requires Frontier(launch, env, s, done, k, tried) && tried < 3 && p < |Items(s)|
             && At(s.mission.plan, Items(s)[p]) == k
    ensures Settled(launch, env, t, done + {k}) && SameMission(s, t)
    ensures LoopOf(t) == Try(env, s.mission.plan[k], Items(s)[p].agentId, tried, LoopOf(s))
    ensures Wf(t) && Run(env, s) == Run(env, t)
    decreases 3 - tried
  {
    hide Inv, Wf, Held, View, Frontier, Settled, Step, Run, Try, At, HasId, SameItem, Slice, IndexOf, BuildSynthesis,
         Best;
    FrontierFacts(launch, env, s, done, k, tried, p);
    RunUnfolds(env, s);
    var agent := Items(s)[p].agentId;
    TryUnfolds(env, s.mission.plan[k], agent, tried, LoopOf(s));
    if agent == "" || agent !in env.agents {
      UnavailableStep(launch, env, s, done, k, tried, p);
      t := Step(env, s);
    } else {
      match env.answer(CallAt(s, k, agent, tried))
      case Returned(output) =>
        ReturnedStep(launch, env, s, done, k, tried, p, output);
        RunUnfolds(env, Step(env, s));
        t := Step(env, Step(env, s));
        return;
      case Raised(_) =>
        RaisedStep(launch, env, s, done, k, tried, p);
        RunUnfolds(env, Step(env, s));
        t := Step(env, Step(env, s));
    }
    if tried + 1 < 3 {
      SameAt(s, t, p);
      t := TryToEnd(launch, env, t, done, k, tried + 1, p);
    }
  }

  lemma {:induction false} FrontierItem(launch: Env, env: Env, s: State, done: set<nat>, k: nat) returns (p: nat)
    requires Frontier(launch, env, s, done, k, 0) && k < |s.mission.plan|
    ensures Held(s) && p < |Items(s)| && HasId(s.mission.plan, Items(s)[p].subTaskId)
            && At(s.mission.plan, Items(s)[p]) == k
    ensures Items(s)[p].agentId == AgentFor(launch, env, s.mission.plan[k])
  {
    EnqueuedIsView(s);
    hide DepsMet, AgentFor, RecordsFor, AllEnqueued;
    p :| p < |Items(s)| && Items(s)[p].subTaskId == s.mission.plan[k].id;
    assert ItemAtFrontier(launch, env, s.mission.plan, done, k, 0, Items(s)[p]);
  }

  lemma {:induction false} RunEnds(launch: Env, env: Env, s: State, done: set<nat>)
    requires Frontier(launch, env, s, done, |s.mission.plan|, 0)
    ensures Wf(s) && Run(env, s) == Finish(s)
  {
    NothingLeft(launch, env, s, done);
    assert Wf(s) && s.pc.Top?;
    hide Frontier, Wf, BuildSynthesis;
    RunUnfolds(env, s);
    assert Step(env, s) == Finish(s);
  }

  /** Once sub-tasks are settled, the run does what the rest of the loop does, and closes the mission by its
      count. */
  lemma {:induction false} RunIsReadyLoop(launch: Env, env: Env, s: State, done: set<nat>)
    requires Settled(launch, env, s, done)
    ensures Wf(s)
    ensures var f := Run(env, s);
            && LoopOf(f) == ReadyLoop(launch, env, s.mission.plan, done, LoopOf(s)) && f.mission == Finish(f).mission
    decreases |Open(s.mission.plan, done)|
  {
    hide BuildSynthesis, IndexOf, Slice, Try, AgentFor, DepsMet, RecordsFor, Enqueued, Best, Run, Step, Frontier,
         Settled, Wf, Held, View;
    SettledWf(launch, env, s, done);
    var k := Next(s.mission.plan, s.mission.results, done);
    if k == |s.mission.plan| {
      RunEnds(launch, env, s, done);
    } else {
      var p := FrontierItem(launch, env, s, done, k);
      var t := TryToEnd(launch, env, s, done, k, 0, p);
      OpenShrinks(s.mission.plan, done, k);
      RunIsReadyLoop(launch, env, t, done + {k});
    }
  }

  lemma {:induction false} LaunchedSettled(launch: Env, env: Env, job: Job)
    requires Launchable(job)
    ensures Settled(launch, env, Begin(Launch(launch, job)), {})
    ensures LoopOf(Begin(Launch(launch, job))) == Loop(map[], map[CaseSummary := job.summary], [])
  {
    LaunchOk(launch, job);
    LaunchWf(launch, job);
    EnqueueFromFresh(launch, Blank(job), Enqueued([], job.items), 0);
    EnqueueReadyFacts(launch, Blank(job));
    var s := Begin(Launch(launch, job));
    assert Items(s) == Items(Launch(launch, job));
    var next := Next(s.mission.plan, s.mission.results, {});
    forall p | 0 <= p < |Items(s)| ensures ItemAtFrontier(launch, env, s.mission.plan, {}, next, 0, Items(s)[p]) {
      LaunchedItem(launch, env, s, p, Enqueued([], job.items), next);
    }
  }

  lemma {:induction false} FirstIsMember(ids: seq<Id>)
    ensures ids == [] || exists d :: d in ids
  {
    if ids != [] { assert ids[0] in ids; }
  }

  lemma {:induction false} LaunchedItem(launch: Env, env: Env, s: State, p: nat, enqueued: set<Id>, next: nat)
    requires Inv(s) && p < |Items(s)| && s.mission.results == map[]
             && Fresh(launch, s.mission.plan, enqueued, Items(s)[p])
    ensures ItemAtFrontier(launch, env, s.mission.plan, {}, next, 0, Items(s)[p])
  {
    ItemIsReady(s, p);
    var k := At(s.mission.plan, Items(s)[p]);
    assert ItemOk(s.mission.plan, s.mission.results, Items(s)[p]);
    hide Enqueued, RecordsFor, Assign;
    assert DepsMet(s.mission.plan[k], map[]);
    FirstIsMember(s.mission.plan[k].dependsOn);
  }

  /** The queue-driven run of a launched mission, over any plan, is the plain loop that takes sub-tasks as they
      become ready: the same calls with the same slices of context in the same order, the same results, and the
      verdict they call for. */
  lemma {:induction false} QueueRunIsReadyLoop(launch: Env, env: Env, job: Job)
    requires Launchable(job)
    ensures Wf(Begin(Launch(launch, job)))
    ensures var f := Run(env, Begin(Launch(launch, job)));
            var l := ReadyLoop(launch, env, job.plan, {}, Loop(map[], map[CaseSummary := job.summary], []));
            && f.calls == l.calls && f.context == l.context && f.mission.results == l.results
            && (if |l.results| == |job.plan|
                then f.mission.status == MissionCompleted
                    && f.mission.synthesis == Some(BuildSynthesis(job.plan, l.results))
                else f.mission.status == MissionFailed)
  {
    LaunchWf(launch, job);
    LaunchedSettled(launch, env, job);
    hide Settled, Inv, Wf, Launch, ReadyLoop;
    RunIsReadyLoop(launch, env, Begin(Launch(launch, job)), {});
  }

  // ---------- ordered plans ----------

  /** Tries change at most the result of their own sub-task. */
  lemma {:induction false} TryResults(env: Env, st: SubTask, agent: string, tried: nat, l: Loop)
    ensures var r := Try(env, st, agent, tried, l).results.Keys; r == l.results.Keys || r == l.results.Keys + {st.id}
    decreases 3 - tried
  {
    if tried < 3 && agent != "" && agent in env.agents {
      var call := Call(st.id, agent, Slice(st.role, l.context), tried + 1);
      match env.answer(call)
      case Returned(_) =>
      case Raised(_) => TryResults(env, st, agent, tried + 1, l.(calls := l.calls + [call]));
    }
  }

  /** The sub-tasks before `k` are settled for good: taken, or waiting for one before them that has no result. */
  ghost predicate Passed(plan: Plan, done: set<nat>, k: nat, l: Loop) {
    && (forall j :: j in done ==> j < k)
    && forall j :: 0 <= j < k && j < |plan| && j !in done ==> !DepsMet(plan[j], l.results)
  }

  /** A result for sub-task `k` makes no earlier one ready. */
  lemma {:induction false} PassedOn(plan: Plan, done: set<nat>, k: nat, l: Loop, l': Loop)
    requires Ordered(plan) && k < |plan| && Passed(plan, done, k, l)
    requires l'.results.Keys == l.results.Keys || l'.results.Keys == l.results.Keys + {plan[k].id}
    ensures Passed(plan, done + {k}, k + 1, l')
  {
    forall j | 0 <= j < k && j !in done ensures !DepsMet(plan[j], l'.results) {
      var d :| d in plan[j].dependsOn && d !in l.results;
      var i :| 0 <= i < j && plan[i].id == d;
      assert d != plan[k].id;
    }
  }

  /** Where dependencies point to earlier sub-tasks, taking what is ready is one pass over the plan. */
  lemma {:induction false} ReadyLoopIsForLoop(launch: Env, env: Env, plan: Plan, done: set<nat>, k: nat, l: Loop)
    requires Ordered(plan) && k <= |plan| && Passed(plan, done, k, l)
    ensures ReadyLoop(launch, env, plan, done, l) == ForLoop(launch, env, plan, k, l)
    decreases |plan| - k
  {
    hide Ordered, Try, AgentFor, DepsMet;
    var next := Next(plan, l.results, done);
    if k < |plan| {
      if DepsMet(plan[k], l.results) {
        assert next == k;
        var agent := AgentFor(launch, env, plan[k]);
        TryResults(env, plan[k], agent, 0, l);
        PassedOn(plan, done, k, l, Try(env, plan[k], agent, 0, l));
        ReadyLoopIsForLoop(launch, env, plan, done + {k}, k + 1, Try(env, plan[k], agent, 0, l));
      } else {
        ReadyLoopIsForLoop(launch, env, plan, done, k + 1, l);
      }
    }
  }

  lemma {:induction false} QueueRunIsForLoop(launch: Env, env: Env, job: Job)
    requires Launchable(job) && Ordered(job.plan)
    ensures Wf(Begin(Launch(launch, job)))
    ensures var f := Run(env, Begin(Launch(launch, job)));
            var l := ForLoop(launch, env, job.plan, 0, Loop(map[], map[CaseSummary := job.summary], []));
            && f.calls == l.calls && f.context == l.context && f.mission.results == l.results
            && (if |l.results| == |job.plan|
                then f.mission.status == MissionCompleted
                    && f.mission.synthesis == Some(BuildSynthesis(job.plan, l.results))
                else f.mission.status == MissionFailed)
  {
    hide Wf, Launch, Begin, Run, ReadyLoop, ForLoop, Ordered;
    QueueRunIsReadyLoop(launch, env, job);
    ReadyLoopIsForLoop(launch, env, job.plan, {}, 0, Loop(map[], map[CaseSummary := job.summary], []));
  }
}
