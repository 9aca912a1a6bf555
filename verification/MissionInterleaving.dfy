/** Several missions over one work queue and one delegation log.  Each agent call suspends its mission,
    so the stretches of different missions interleave in any order; still every mission goes through
    exactly the states it would go through alone. */
module MissionInterleaving {
  import opened Optional
  import opened MissionModel
  import opened MissionRun
  import opened MissionSafety
  import opened MissionStamps

  /** What belongs to one mission alone: the mission, its local variables, and how often it had a turn. */
  datatype Local = Local(mission: Mission, context: Context, calls: seq<Call>, pc: Pc, turns: nat)

  datatype System = System(missions: map<Id, Local>, items: map<ItemId, WorkItem>, records: seq<Record>)

  datatype Event =
    | Create(id: Id, plan: Plan, summary: string)  // launch a mission
    | Enter(id: Id)                                // begin its run
    | Advance(id: Id)                              // one stretch of the run, up to its next agent call

  ghost function StateOf(g: System, m: Id): State
    requires m in g.missions
  {
    var l := g.missions[m];
    State(l.mission, g.items, g.records, l.context, l.calls, l.pc)
  }

  ghost function Put(g: System, m: Id, s: State, turns: nat): System {
    System(g.missions[m := Local(s.mission, s.context, s.calls, s.pc, turns)], s.items, s.records)
  }

  ghost predicate SystemOk(g: System) {
    && (forall i :: i in g.items ==> i.mission in g.missions)
    && (forall r :: r in g.records ==> r.missionId in g.missions)
    && (forall m :: m in g.missions ==> g.missions[m].mission.id == m && Wf(StateOf(g, m)))
  }

  ghost predicate Entered(m: Mission) {
    m.status != MissionCreated
  }

  /** Each mission has an environment for its launch and one for its run.  Events that cannot happen (a new
      mission under a used identifier, a turn of a mission that is not running) change nothing; a mission is
      run once. */
  ghost function Happen(launches: Id -> Env, runs: Id -> Env, g: System, e: Event): System
    requires SystemOk(g)
  {
    match e
    case Create(id, plan, summary) =>
      if id in g.missions || !DistinctIds(plan) then g
      else Put(g, id, Launch(launches(id), Job(id, plan, summary, g.items, g.records)), 0)
    case Enter(id) =>
      if id !in g.missions || Entered(g.missions[id].mission) then g
      else Put(g, id, Begin(StateOf(g, id)), 0)
    case Advance(id) =>
      if id !in g.missions || !Entered(g.missions[id].mission) then g
      else Put(g, id, Step(runs(id), StateOf(g, id)), g.missions[id].turns + 1)
  }

  // ---------- the part of the shared state that is a mission's own ----------

  function Restrict(items: map<ItemId, WorkItem>, id: Id): map<ItemId, WorkItem> {
    map i | i in items && i.mission == id :: items[i]
  }

  ghost function Own(s: State): State {
    s.(items := Restrict(s.items, s.mission.id), records := RecordsFor(s.records, s.mission.id))
  }

  lemma {:induction false} OwnHeld(s: State)
    requires OwnIds(s.mission)
    ensures Held(s) <==> Held(Own(s))
    ensures forall p :: 0 <= p < |s.mission.itemIds| && s.mission.itemIds[p] in s.items ==>
              s.mission.itemIds[p] in Own(s).items
                  && Own(s).items[s.mission.itemIds[p]] == s.items[s.mission.itemIds[p]]
  {
  }

  /** Whether a state is well-formed depends on the mission's own part alone. */
  lemma {:induction false} OwnWf(s: State)
    ensures Wf(s) <==> Wf(Own(s))
    ensures Wf(s) ==>
              Items(Own(s)) == Items(s)
              && Enqueued(s.mission.itemIds, Own(s).items) == Enqueued(s.mission.itemIds, s.items)
  {
    if OwnIds(s.mission) {
      OwnHeld(s);
      hide DistinctIds, HasId;
      if Wf(s) { assert forall p :: 0 <= p < |s.mission.itemIds| ==> s.mission.itemIds[p] in s.mission.itemIds; }
    }
  }

  lemma {:induction false} BestOfOwn(ids: seq<ItemId>, items: map<ItemId, WorkItem>, id: Id)
    requires forall i :: i in ids ==> i.mission == id
    ensures Best(ids, Restrict(items, id)) == Best(ids, items)
  {
    if ids != [] {
      assert ids[|ids| - 1] in ids;
      BestOfOwn(ids[..|ids| - 1], items, id);
    }
  }

  lemma {:induction false} RestrictUpdate(items: map<ItemId, WorkItem>, i: ItemId, x: WorkItem, id: Id)
    ensures Restrict(items[i := x], id) == if i.mission == id then Restrict(items, id)[i := x] else Restrict(items, id)
  {
  }

  lemma {:induction false} RecordsForAdd(records: seq<Record>, r: Record, id: Id)
    ensures RecordsFor(records + [r], id) == RecordsFor(records, id) + if r.missionId == id then [r] else []
  {
    assert (records + [r])[..|records|] == records;
  }

  lemma {:induction false} AddItemOfOwn(env: Env, s: State, k: nat)
    requires k < |s.mission.plan|
    ensures Own(AddItem(env, s, k)) == AddItem(env, Own(s), k)
  {
    var id := ItemId(s.mission.id, |s.mission.itemIds|);
    RestrictUpdate(s.items, id, NewItem(env, s, k), s.mission.id);
    RecordsForAdd(s.records,
                  Record(s.mission.id, s.mission.plan[k].id, Assign(env.registry, env.team, s.mission.plan[k].role)),
                  s.mission.id);
  }

  lemma {:induction false} EnqueueFromOfOwn(env: Env, s: State, enqueued: set<Id>, k: nat)
    requires k <= |s.mission.plan|
    ensures Own(EnqueueFrom(env, s, enqueued, k)) == EnqueueFrom(env, Own(s), enqueued, k)
    decreases |s.mission.plan| - k
  {
    if k < |s.mission.plan| {
      if s.mission.plan[k].id in enqueued || !DepsMet(s.mission.plan[k], s.mission.results) {
        EnqueueFromOfOwn(env, s, enqueued, k + 1);
      } else {
        hide DepsMet, Restrict, RecordsFor;
        AddItemOfOwn(env, s, k);
        EnqueueFromOfOwn(env, AddItem(env, s, k), enqueued, k + 1);
      }
    }
  }

  lemma {:induction false} EnqueueReadyOfOwn(env: Env, s: State)
    requires Wf(s)
    ensures Own(EnqueueReady(env, s)) == EnqueueReady(env, Own(s))
  {
    OwnWf(s);
    EnqueueFromOfOwn(env, s, Enqueued(s.mission.itemIds, s.items), 0);
  }

  lemma {:induction false} MarksOfOwn(s: State, i: ItemId)
    requires i in s.items && i in Own(s).items && i.mission == s.mission.id && Own(s).items[i] == s.items[i]
    ensures var own := Own(s).items;
            && Restrict(MarkRunning(s.items, i), s.mission.id) == MarkRunning(own, i)
            && Restrict(MarkFailed(MarkRunning(s.items, i), i), s.mission.id) == MarkFailed(MarkRunning(own, i), i)
            && MarkRunning(own, i)[i] == MarkRunning(s.items, i)[i]
  {
  }

  lemma {:induction false} RunItemOfOwn(env: Env, s: State, i: ItemId)
    requires Wf(s) && Wf(Own(s)) && s.pc.Top? && i in s.mission.itemIds
    ensures Own(RunItem(env, s, i)) == RunItem(env, Own(s), i)
  {
    assert s.mission.itemIds[i.serial] == i;
    OwnHeld(s);
    hide DistinctIds, HasId, IndexOf, RecordsFor, Slice, Restrict, Held, OwnIds, MarkRunning, MarkFailed;
    var r := RunItem(env, s, i);
    MarksOfOwn(s, i);
  }

  lemma {:induction false} StoredOfOwn(s: State, output: Output)
    requires Wf(s) && Wf(Own(s)) && s.pc.Awaiting?
    ensures Own(Stored(s, output)) == Stored(Own(s), output)
  {
    hide DistinctIds, HasId, IndexOf, RecordsFor;
    assert s.mission.itemIds[s.pc.item.serial] == s.pc.item;
    OwnHeld(s);
    RestrictUpdate(s.items, s.pc.item, Stored(s, output).items[s.pc.item], s.mission.id);
  }

  lemma {:induction false} ResumeOfOwn(env: Env, s: State)
    requires Wf(s) && Wf(Own(s)) && s.pc.Awaiting?
    ensures Own(Resume(env, s)) == Resume(env, Own(s))
  {
    match env.answer(s.pc.call)
    case Raised(_) =>
      hide DistinctIds, HasId, IndexOf, RecordsFor;
      assert s.mission.itemIds[s.pc.item.serial] == s.pc.item;
      OwnHeld(s);
      RestrictUpdate(s.items, s.pc.item, Resume(env, s).items[s.pc.item], s.mission.id);
    case Returned(output) =>
      hide Wf, Own, EnqueueReady;
      StoredFacts(s, output);
      StoredOfOwn(s, output);
      EnqueueReadyOfOwn(env, Stored(s, output));
  }

  /** A step of a mission in a shared queue is its step alone, seen from its own part. */
  lemma {:induction false} StepOfOwn(env: Env, s: State)
    requires Wf(s)
    ensures Wf(Own(s)) && Own(Step(env, s)) == Step(env, Own(s))
  {
    OwnWf(s);
    match s.pc
    case Finished =>
    case Top =>
      hide DistinctIds, HasId, RunItem;
      BestOfOwn(s.mission.itemIds, s.items, s.mission.id);
      var next := Best(s.mission.itemIds, s.items);
      if next.Some? { RunItemOfOwn(env, s, next.value); }
    case Awaiting(_, _) => ResumeOfOwn(env, s);
  }

  // ---------- a step of one mission is invisible to the others ----------

  /** `t` differs from `s` only in what belongs to mission `id`. */
  ghost predicate OnlyOwn(s: State, t: State, id: Id) {
    && (forall i: ItemId :: i.mission != id ==>
          (i in t.items <==> i in s.items) && (i in t.items ==> t.items[i] == s.items[i]))
    && (forall m :: m != id ==> RecordsFor(t.records, m) == RecordsFor(s.records, m))
    && (forall i :: i in t.items && i !in s.items ==> i.mission == id)
    && (forall r :: r in t.records && r !in s.records ==> r.missionId == id)
  }

  lemma {:induction false} EnqueueFromOnlyOwn(env: Env, s: State, enqueued: set<Id>, k: nat)
    requires k <= |s.mission.plan|
    ensures OnlyOwn(s, EnqueueFrom(env, s, enqueued, k), s.mission.id)
    decreases |s.mission.plan| - k
  {
    if k < |s.mission.plan| {
      if s.mission.plan[k].id in enqueued || !DepsMet(s.mission.plan[k], s.mission.results) {
        EnqueueFromOnlyOwn(env, s, enqueued, k + 1);
      } else {
        var t := AddItem(env, s, k);
        AddItemOnlyOwn(env, s, k);
        hide OnlyOwn, DepsMet;
        EnqueueFromOnlyOwn(env, t, enqueued, k + 1);
        OnlyOwnTransitive(s, t, EnqueueFrom(env, t, enqueued, k + 1), s.mission.id);
      }
    }
  }

  lemma {:induction false} AddItemOnlyOwn(env: Env, s: State, k: nat)
    requires k < |s.mission.plan|
    ensures OnlyOwn(s, AddItem(env, s, k), s.mission.id)
  {
    var r := Record(s.mission.id, s.mission.plan[k].id, Assign(env.registry, env.team, s.mission.plan[k].role));
    forall m | m != s.mission.id ensures RecordsFor(s.records + [r], m) == RecordsFor(s.records, m) {
      RecordsForAdd(s.records, r, m);
    }
  }

  lemma {:induction false} ItemOnlyOwn(s: State, i: ItemId, x: WorkItem, t: State)
    requires i in s.items && i.mission == s.mission.id && t.items == s.items[i := x] && t.records == s.records
    ensures OnlyOwn(s, t, s.mission.id)
  {
  }

  lemma {:induction false} RunItemOnlyOwn(env: Env, s: State, i: ItemId)
    requires Wf(s) && s.pc.Top? && i in s.mission.itemIds
    ensures OnlyOwn(s, RunItem(env, s, i), s.mission.id)
  {
    assert s.mission.itemIds[i.serial] == i;
    hide OnlyOwn, HasId, IndexOf, DistinctIds, Slice;
    ItemOnlyOwn(s, i, RunItem(env, s, i).items[i], RunItem(env, s, i));
  }

  lemma {:induction false} ResumeOnlyOwn(env: Env, s: State)
    requires Wf(s) && s.pc.Awaiting?
    ensures OnlyOwn(s, Resume(env, s), s.mission.id)
  {
    var i := s.pc.item;
    assert s.mission.itemIds[i.serial] == i;
    hide OnlyOwn, HasId, IndexOf, DistinctIds;
    match env.answer(s.pc.call)
    case Raised(_) => ItemOnlyOwn(s, i, Resume(env, s).items[i], Resume(env, s));
    case Returned(output) =>
      var t := Stored(s, output);
      ItemOnlyOwn(s, i, t.items[i], t);
      EnqueueFromOnlyOwn(env, t, Enqueued(t.mission.itemIds, t.items), 0);
      OnlyOwnTransitive(s, t, EnqueueReady(env, t), s.mission.id);
  }

  lemma {:induction false} OnlyOwnTransitive(s: State, t: State, r: State, id: Id)
    requires OnlyOwn(s, t, id) && OnlyOwn(t, r, id)
    ensures OnlyOwn(s, r, id)
  {
  }

  lemma {:induction false} StepOnlyOwn(env: Env, s: State)
    requires Wf(s)
    ensures OnlyOwn(s, Step(env, s), s.mission.id)
  {
    hide Wf, RunItem, Resume;
    match s.pc
    case Finished =>
    case Top =>
      var next := Best(s.mission.itemIds, s.items);
      if next.Some? { RunItemOnlyOwn(env, s, next.value); }
    case Awaiting(_, _) => ResumeOnlyOwn(env, s);
  }

  // ---------- any number of events ----------

  /** Mission `m` as if it had the queue and the log to itself. */
  ghost function AloneJob(m: Mission): Job {
    Job(m.id, m.plan, m.summary, map[], [])
  }

  ghost function AloneStart(launch: Env, m: Mission): State {
    Begin(Launch(launch, AloneJob(m)))
  }

  /** Mission `m` is where it would be on its own: launched, or as many turns into its run. */
  ghost predicate AsAlone(launches: Id -> Env, runs: Id -> Env, g: System, m: Id)
    requires SystemOk(g) && m in g.missions
  {
    var l := g.missions[m];
    && DistinctIds(l.mission.plan)
    && Wf(AloneStart(launches(m), l.mission))
    && Own(StateOf(g, m)) == if Entered(l.mission) then Steps(runs(m), AloneStart(launches(m), l.mission), l.turns)
                             else Launch(launches(m), AloneJob(l.mission))
  }

  ghost predicate AllAsAlone(launches: Id -> Env, runs: Id -> Env, g: System) {
    SystemOk(g) && forall m :: m in g.missions ==> AsAlone(launches, runs, g, m)
  }

  lemma {:induction false} StepsAdd(env: Env, s: State, n: nat)
    requires Wf(s)
    ensures Steps(env, s, n + 1) == Step(env, Steps(env, s, n))
    decreases n
  {
    hide Wf, Step, Measure;
    StepFacts(env, s);
    if n > 0 { StepsAdd(env, Step(env, s), n - 1); }
  }

  lemma {:induction false} PutOther(g: System, id: Id, s: State, t: State, turns: nat, m: Id)
    requires SystemOk(g) && s.items == g.items && s.records == g.records
    requires OnlyOwn(s, t, id) && m in g.missions && m != id
    ensures Own(StateOf(Put(g, id, t, turns), m)) == Own(StateOf(g, m)) && Wf(StateOf(Put(g, id, t, turns), m))
    ensures g.missions[m].mission.id == m
  {
    var r := Put(g, id, t, turns);
    hide Wf, RecordsFor;
    assert Restrict(t.items, m) == Restrict(s.items, m);
    OwnWf(StateOf(g, m));
    OwnWf(StateOf(r, m));
  }

  lemma {:induction false} PutOwners(g: System, id: Id, s: State, t: State, turns: nat)
    requires SystemOk(g) && s.items == g.items && s.records == g.records && OnlyOwn(s, t, id)
    ensures var r := Put(g, id, t, turns);
            && (forall i :: i in r.items ==> i.mission in r.missions)
            && (forall x :: x in r.records ==> x.missionId in r.missions)
  {
    hide Wf, RecordsFor;
  }

  /** Storing the next state of mission `id` keeps the system well-formed and the other missions' parts. */
  lemma {:induction false} PutOk(g: System, id: Id, s: State, t: State, turns: nat)
    requires SystemOk(g) && s.items == g.items && s.records == g.records
    requires t.mission.id == id && Wf(t) && OnlyOwn(s, t, id)
    ensures SystemOk(Put(g, id, t, turns)) && StateOf(Put(g, id, t, turns), id) == t
    ensures forall m :: m in g.missions && m != id ==> Own(StateOf(Put(g, id, t, turns), m)) == Own(StateOf(g, m))
  {
    var r := Put(g, id, t, turns);
    hide Wf, Own, OnlyOwn, SystemOk;
    PutOwners(g, id, s, t, turns);
    assert StateOf(r, id) == t;
    forall m | m in g.missions && m != id
      ensures Own(StateOf(r, m)) == Own(StateOf(g, m)) && r.missions[m].mission.id == m && Wf(StateOf(r, m))
    {
      PutOther(g, id, s, t, turns, m);
    }
    assert forall m :: m in r.missions ==> r.missions[m].mission.id == m && Wf(StateOf(r, m));
    IsSystem(r);
  }

  lemma {:induction false} IsSystem(g: System)
    requires forall i :: i in g.items ==> i.mission in g.missions
    requires forall r :: r in g.records ==> r.missionId in g.missions
    requires forall m :: m in g.missions ==> g.missions[m].mission.id == m && Wf(StateOf(g, m))
    ensures SystemOk(g)
  {
    hide Wf;
  }

  lemma {:induction false} LaunchesAlone(launch: Env, g: System, id: Id, plan: Plan, summary: string)
    requires SystemOk(g) && id !in g.missions && DistinctIds(plan)
    ensures var job := Job(id, plan, summary, g.items, g.records);
            var t := Launch(launch, job);
            && Wf(t) && SameMission(Blank(job), t) && OnlyOwn(Blank(job), t, id) && !Entered(t.mission)
            && Own(t) == Launch(launch, AloneJob(t.mission)) && Wf(AloneStart(launch, t.mission))
  {
    var job := Job(id, plan, summary, g.items, g.records);
    FreshJob(g, id, plan, summary);
    LaunchedNotEntered(launch, job);
    hide Wf, Measure, EnqueueReady, SystemOk, OnlyOwn, Own;
    LaunchWf(launch, job);
    LaunchWf(launch, Job(id, plan, summary, map[], []));
    BlankFacts(job);
    EnqueueReadyOfOwn(launch, Blank(job));
    EnqueueReadyOnlyOwn(launch, Blank(job));
  }

  lemma {:induction false} LaunchedNotEntered(launch: Env, job: Job)
    requires Launchable(job)
    ensures !Entered(Launch(launch, job).mission)
  {
    BlankFacts(job);
    EnqueueReadyFacts(launch, Blank(job));
  }

  lemma {:induction false} FreshJob(g: System, id: Id, plan: Plan, summary: string)
    requires SystemOk(g) && id !in g.missions && DistinctIds(plan)
    ensures var job := Job(id, plan, summary, g.items, g.records);
            Launchable(job) && Own(Blank(job)) == Blank(Job(id, plan, summary, map[], []))
  {
    NoRecords(g.records, id);
  }

  lemma {:induction false} BeginOfOwn(s: State)
    ensures Own(Begin(s)) == Begin(Own(s)) && OnlyOwn(s, Begin(s), s.mission.id)
  {
  }

  lemma {:induction false} EnqueueReadyOnlyOwn(env: Env, s: State)
    ensures OnlyOwn(s, EnqueueReady(env, s), s.mission.id)
  {
    EnqueueFromOnlyOwn(env, s, Enqueued(s.mission.itemIds, s.items), 0);
  }

  lemma {:induction false} OthersAsAlone(launches: Id -> Env, runs: Id -> Env, g: System, id: Id, s: State, t: State,
                                         turns: nat)
    requires AllAsAlone(launches, runs, g) && s.items == g.items && s.records == g.records
    requires t.mission.id == id && Wf(t) && OnlyOwn(s, t, id)
    ensures var r := Put(g, id, t, turns);
            SystemOk(r) && forall m :: m in g.missions && m != id ==> AsAlone(launches, runs, r, m)
  {
    hide Wf, OnlyOwn, Own, Steps, DistinctIds, AloneStart, Launch;
    PutOk(g, id, s, t, turns);
    forall m | m in g.missions && m != id ensures AsAlone(launches, runs, Put(g, id, t, turns), m) {
      assert AsAlone(launches, runs, g, m);
    }
  }

  lemma {:induction false} CreateAsAlone(launches: Id -> Env, runs: Id -> Env, g: System, id: Id, plan: Plan,
                                         summary: string)
    requires AllAsAlone(launches, runs, g) && id !in g.missions && DistinctIds(plan)
    ensures AllAsAlone(launches, runs, Happen(launches, runs, g, Create(id, plan, summary)))
  {
    hide Wf, OnlyOwn, Own, AloneStart, Launch, DistinctIds;
    var job := Job(id, plan, summary, g.items, g.records);
    var t := Launch(launches(id), job);
    LaunchesAlone(launches(id), g, id, plan, summary);
    OthersAsAlone(launches, runs, g, id, Blank(job), t, 0);
    PutOk(g, id, Blank(job), t, 0);
    hide SystemOk;
    assert AsAlone(launches, runs, Put(g, id, t, 0), id);
  }

  /** A launched mission is at the top of its loop. */
  lemma {:induction false} LaunchedAtTop(launch: Env, m: Mission)
    requires DistinctIds(m.plan)
    ensures Launch(launch, AloneJob(m)).pc.Top?
  {
    BlankFacts(AloneJob(m));
    EnqueueReadyFacts(launch, Blank(AloneJob(m)));
  }

  lemma {:induction false} EnteredSelf(launches: Id -> Env, runs: Id -> Env, g: System, id: Id)
    requires SystemOk(g) && id in g.missions && AsAlone(launches, runs, g, id) && !Entered(g.missions[id].mission)
    ensures var t := Begin(StateOf(g, id));
            && Wf(t) && OnlyOwn(StateOf(g, id), t, id) && t.mission.id == id && Entered(t.mission)
            && DistinctIds(t.mission.plan) && Wf(AloneStart(launches(id), t.mission))
            && Own(t) == Steps(runs(id), AloneStart(launches(id), t.mission), 0)
  {
    var s := StateOf(g, id);
    WfOfSystem(g, id);
    LaunchedAtTop(launches(id), s.mission);
    hide Wf, SystemOk, Launch, OnlyOwn, DistinctIds;
    assert s.pc == Own(s).pc;
    BeginFacts(s);
    BeginOfOwn(s);
    assert AloneJob(Begin(s).mission) == AloneJob(s.mission);
  }

  lemma {:induction false} EnterAsAlone(launches: Id -> Env, runs: Id -> Env, g: System, id: Id)
    requires AllAsAlone(launches, runs, g) && id in g.missions && !Entered(g.missions[id].mission)
    ensures AllAsAlone(launches, runs, Happen(launches, runs, g, Enter(id)))
  {
    hide Wf, OnlyOwn, Own, AloneStart, Launch, Begin, Steps, DistinctIds;
    var s, t := StateOf(g, id), Begin(StateOf(g, id));
    EnteredSelf(launches, runs, g, id);
    OthersAsAlone(launches, runs, g, id, s, t, 0);
    PutOk(g, id, s, t, 0);
    hide SystemOk;
    assert AsAlone(launches, runs, Put(g, id, t, 0), id);
  }

  lemma {:induction false} StepStaysEntered(env: Env, s: State)
    requires Wf(s) && Entered(s.mission)
    ensures Entered(Step(env, s).mission)
  {
    hide Wf;
    match s.pc
    case Finished =>
    case Top =>
    case Awaiting(_, call) =>
      match env.answer(call)
      case Raised(_) =>
      case Returned(output) =>
        StoredFacts(s, output);
        EnqueueReadyFacts(env, Stored(s, output));
  }

  lemma {:induction false} WfOfSystem(g: System, id: Id)
    requires SystemOk(g) && id in g.missions
    ensures Wf(StateOf(g, id)) && g.missions[id].mission.id == id
  {
  }

  /** The mission that had the turn is one solo step further, the others are where they were. */
  lemma {:induction false} AdvanceAsAlone(launches: Id -> Env, runs: Id -> Env, g: System, id: Id)
    requires AllAsAlone(launches, runs, g) && id in g.missions && Entered(g.missions[id].mission)
    ensures AllAsAlone(launches, runs, Happen(launches, runs, g, Advance(id)))
  {
    hide Wf, OnlyOwn, Own, AloneStart, Launch, Step, Steps, Measure, DistinctIds;
    WfOfSystem(g, id);
    assert AsAlone(launches, runs, g, id);
    hide SystemOk;
    var s, turns := StateOf(g, id), g.missions[id].turns + 1;
    var t := Step(runs(id), s);
    StepFacts(runs(id), s);
    StepOnlyOwn(runs(id), s);
    StepOfOwn(runs(id), s);
    StepStaysEntered(runs(id), s);
    StepsAdd(runs(id), AloneStart(launches(id), s.mission), g.missions[id].turns);
    SameAloneStart(launches(id), s, t);
    OthersAsAlone(launches, runs, g, id, s, t, turns);
    PutOk(g, id, s, t, turns);
    assert AsAlone(launches, runs, Put(g, id, t, turns), id);
  }

  lemma {:induction false} HappenAsAlone(launches: Id -> Env, runs: Id -> Env, g: System, e: Event)
    requires AllAsAlone(launches, runs, g)
    ensures AllAsAlone(launches, runs, Happen(launches, runs, g, e))
  {
    hide AllAsAlone, Put, Step, Launch, Begin;
    match e
    case Create(id, plan, summary) =>
      if id !in g.missions && DistinctIds(plan) { CreateAsAlone(launches, runs, g, id, plan, summary); }
    case Enter(id) =>
      if id in g.missions && !Entered(g.missions[id].mission) { EnterAsAlone(launches, runs, g, id); }
    case Advance(id) =>
      if id in g.missions && Entered(g.missions[id].mission) { AdvanceAsAlone(launches, runs, g, id); }
  }

  lemma {:induction false} SameAloneStart(env: Env, s: State, t: State)
    requires SameMission(s, t)
    ensures AloneStart(env, s.mission) == AloneStart(env, t.mission)
  {
  }

  ghost const NOTHING := System(map[], map[], [])

  /** The system after a sequence of events, starting from an empty queue. */
  ghost function After(launches: Id -> Env, runs: Id -> Env, events: seq<Event>): (g: System)
    ensures AllAsAlone(launches, runs, g)
  {
    if events == [] then NOTHING
    else
      var g := After(launches, runs, events[..|events| - 1]);
      HappenAsAlone(launches, runs, g, events[|events| - 1]);
      Happen(launches, runs, g, events[|events| - 1])
  }

  /** A mission among others against its solo run with an empty queue and log of its own: the same mission
      and calls after as many turns, an end after 6n + 1 turns, and there the verdict of the whole run. */
  ghost predicate GoesAsAlone(launch: Env, run: Env, l: Local, m: Id) {
    var alone := AloneStart(launch, l.mission);
    && Wf(alone)
    && (l.pc.Awaiting? ==> l.pc.item.mission == m && HasId(l.mission.plan, l.pc.call.subTask))
    && l.mission == Steps(run, alone, l.turns).mission
    && l.calls == Steps(run, alone, l.turns).calls
    && (l.turns >= 6 * |l.mission.plan| + 1 ==> l.pc.Finished?)
    && (l.pc.Finished? ==> l.mission == Run(run, alone).mission && l.calls == Run(run, alone).calls)
  }

  lemma {:induction false} AloneEnds(launch: Env, run: Env, l: Local, m: Id)
    requires l.mission.id == m && DistinctIds(l.mission.plan) && Wf(AloneStart(launch, l.mission))
    requires l.pc.Awaiting? ==> l.pc.item.mission == m && HasId(l.mission.plan, l.pc.call.subTask)
    requires var s := Steps(run, AloneStart(launch, l.mission), l.turns);
             l.mission == s.mission && l.calls == s.calls && l.pc == s.pc
    ensures GoesAsAlone(launch, run, l, m)
  {
    hide Wf;
    LaunchWf(launch, AloneJob(l.mission));
    var alone := AloneStart(launch, l.mission);
    hide AloneStart, Launch, Steps, Run, Measure;
    if l.turns >= 6 * |l.mission.plan| + 1 {
      RunIsSteps(run, alone, l.turns);
    }
    if l.pc.Finished? {
      FinishedIsRun(run, alone, l.turns);
    }
  }

  /** What a mission waits for is an item of its own. */
  lemma {:induction false} WaitsForOwn(g: System, m: Id)
    requires SystemOk(g) && m in g.missions
    ensures g.missions[m].mission.id == m
    ensures var l := g.missions[m];
            l.pc.Awaiting? ==> l.pc.item.mission == m && HasId(l.mission.plan, l.pc.call.subTask)
  {
    var l, s := g.missions[m], StateOf(g, m);
    if l.pc.Awaiting? {
      assert s.mission.itemIds[l.pc.item.serial] == l.pc.item;
    }
  }

  lemma {:induction false} StampsAlone(launch: Env, launch': Env, run: Env, run': Env, m: Mission, n: nat)
    requires DistinctIds(m.plan) && SameButStamps(launch, launch') && SameButStamps(run, run')
    ensures Wf(AloneStart(launch, m)) && Wf(AloneStart(launch', m))
    ensures var s, t := Steps(run, AloneStart(launch, m), n), Steps(run', AloneStart(launch', m), n);
            s.mission == t.mission && s.calls == t.calls && s.pc == t.pc
  {
    hide Wf, SameButStamps;
    LaunchWf(launch, AloneJob(m));
    LaunchWf(launch', AloneJob(m));
    StampsDoNotMatter(launch, launch', run, run', AloneJob(m), n);
  }

  /** However launches and turns of the missions interleave, and whenever the items of a mission were
      created: once it runs it waits only for items of its own, its state and calls are those of a solo run
      with as many turns, and after 6n + 1 turns it has ended with the results, verdict and synthesis of its
      solo run.  The environments of the solo run may differ in their creation times. */
  lemma {:induction false} NonInterference(launches: Id -> Env, runs: Id -> Env, events: seq<Event>, m: Id, launch: Env,
                                           run: Env)
    requires SameButStamps(launches(m), launch) && SameButStamps(runs(m), run)
    ensures var g := After(launches, runs, events);
            m in g.missions && Entered(g.missions[m].mission) ==> GoesAsAlone(launch, run, g.missions[m], m)
  {
    var g := After(launches, runs, events);
    if m in g.missions && Entered(g.missions[m].mission) {
      var l := g.missions[m];
      assert AsAlone(launches, runs, g, m);
      WaitsForOwn(g, m);
      hide After, Wf, SystemOk, AllAsAlone, Restrict, RecordsFor, SameButStamps, GoesAsAlone, AloneStart, Steps,
           DistinctIds;
      StampsAlone(launches(m), launch, runs(m), run, l.mission, l.turns);
      assert Own(StateOf(g, m)).pc == l.pc;
      AloneEnds(launch, run, l, m);
    }
  }
}
