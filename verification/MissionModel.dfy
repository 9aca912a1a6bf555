/** The mission scheduler as a step machine.

    A mission run is cut at its only suspension point, the call of an agent: `Pick` is the stretch of
    the loop from its top to that call, `Resume` the stretch from the call back to the top, `Finish` the
    code after the loop.  Everything a run touches is a value here; the classes of `Coordinator` are
    proved to compute exactly these functions. */
module MissionModel {
  import opened Optional

  type Id = string

  /** Identifiers of work items are random in the program and only ever compared; the serial number
      (how many items the mission had before) makes them distinct and fresh in the same way. */
  datatype ItemId = ItemId(mission: Id, serial: nat)

  datatype TaskType =
    | DocumentAnalysis | LegalResearch | JurisprudenceResearch | RiskAnalysis | Reasoning
    | Drafting | Verification | QualityControl | Coordination | Critique

  datatype Role =
    | RoleCoordinator | DocumentAnalyst | LegalResearcher | JurisprudenceExpert | Drafter | Verifier
    | QualityController | GdprExpert | TaxExpert | SocialLawExpert | Critic

  datatype SubTask = SubTask(id: Id, taskType: TaskType, role: Role, dependsOn: seq<Id>)

  type Plan = seq<SubTask>

  /** What an agent returns; `text` is the one entry the coordinator reads. */
  datatype Output = Output(text: string, rest: map<string, string>)

  datatype Outcome = Returned(output: Output) | Raised(error: string)

  // The mission context: "case_summary", and "<task type>_result" once that task type has a result.
  datatype ContextKey = CaseSummary | ResultOf(taskType: TaskType)
  type Context = map<ContextKey, string>

  /** One call of an agent.  `attempt` is not passed to the agent; it lets an agent behave differently
      from one try to the next. */
  datatype Call = Call(subTask: Id, agentId: string, slice: Context, attempt: nat)

  datatype ItemStatus = Pending | Running | Done | Failed | Retrying | Cancelled | TimedOut

  datatype WorkItem = WorkItem(
    id: ItemId, subTaskId: Id, agentId: string, priority: int, status: ItemStatus,
    attempts: nat, maxAttempts: nat, createdAt: int, result: Option<Output>)

  datatype Record = Record(missionId: Id, subTaskId: Id, agentId: Option<string>)

  datatype MissionStatus = MissionCreated | MissionRunning | MissionCompleted | MissionFailed

  datatype Section = Section(taskType: TaskType, text: string)

  datatype Mission = Mission(
    id: Id, plan: Plan, summary: string, status: MissionStatus, itemIds: seq<ItemId>,
    results: map<Id, Output>, synthesis: Option<string>)

  /** Everything a run depends on besides its own state: the registry of agent descriptors, the team,
      the agents that exist at run time, what they answer, and the creation times of items. */
  datatype Env = Env(
    registry: map<string, Role>, team: seq<string>, agents: set<string>,
    answer: Call -> Outcome, stamp: ItemId -> int)

  datatype Pc = Top | Awaiting(item: ItemId, call: Call) | Finished

  datatype State = State(
    mission: Mission, items: map<ItemId, WorkItem>, records: seq<Record>,
    context: Context, calls: seq<Call>, pc: Pc)

  // ---------- plans ----------

  ghost predicate DistinctIds(plan: Plan) {
    forall i, j :: 0 <= i < j < |plan| ==> plan[i].id != plan[j].id
  }

  predicate HasId(plan: Plan, id: Id) {
    exists k :: 0 <= k < |plan| && plan[k].id == id
  }

  function IndexOf(plan: Plan, id: Id): (k: nat)
    requires HasId(plan, id)
    ensures k < |plan| && plan[k].id == id
  {
    if plan[0].id == id then 0 else 1 + IndexOf(plan[1..], id)
  }

  function PlanIds(plan: Plan): set<Id> {
    set k | 0 <= k < |plan| :: plan[k].id
  }

  predicate DepsMet(st: SubTask, results: map<Id, Output>) {
    forall d :: d in st.dependsOn ==> d in results
  }

  // ---------- delegation and context ----------

  /** The first team member that is registered with the wanted role. */
  function Assign(registry: map<string, Role>, team: seq<string>, role: Role): Option<string> {
    if team == [] then None
    else if team[0] in registry && registry[team[0]] == role then Some(team[0])
    else Assign(registry, team[1..], role)
  }

  function AgentOr(a: Option<string>): string {
    if a.Some? then a.value else ""
  }

  /** The names under which context entries are kept. */
  function KeyName(key: ContextKey): string {
    match key
    case CaseSummary => "case_summary"
    case ResultOf(t) => TaskName(t) + "_result"
  }

  /** The entries a role is shown begin like this; no prefix at all stands for everything. */
  function Prefixes(role: Role): set<string> {
    match role
    case DocumentAnalyst => {"case_"}
    case LegalResearcher => {"case_", "document_analysis_"}
    case JurisprudenceExpert => {"case_", "legal_research_"}
    case GdprExpert => {"case_", "document_analysis_", "legal_research_"}
    case TaxExpert => {"case_", "document_analysis_", "legal_research_"}
    case SocialLawExpert => {"case_", "document_analysis_", "legal_research_"}
    case Drafter => {"case_", "document_analysis_", "legal_research_", "jurisprudence_research_", "risk_analysis_"}
    case Verifier => {"case_", "drafting_", "reasoning_"}
    case _ => {}
  }

  predicate Relevant(role: Role, key: ContextKey) {
    Prefixes(role) == {} || exists prefix :: prefix in Prefixes(role) && prefix <= KeyName(key)
  }

  function Slice(role: Role, context: Context): Context {
    map key | key in context && Relevant(role, key) :: context[key]
  }

  // ---------- the work queue ----------

  predicate Runnable(item: WorkItem) {
    item.status.Pending? || item.status.Retrying?
  }

  function Enqueued(ids: seq<ItemId>, items: map<ItemId, WorkItem>): set<Id> {
    set p | 0 <= p < |ids| && ids[p] in items :: items[ids[p]].subTaskId
  }

  predicate Better(a: WorkItem, b: WorkItem) {
    a.priority > b.priority || (a.priority == b.priority && a.createdAt < b.createdAt)
  }

  /** The head of the candidates sorted (stably) by descending priority, then creation time. */
  function Best(ids: seq<ItemId>, items: map<ItemId, WorkItem>): (r: Option<ItemId>)
    ensures r.Some? ==> r.value in ids && r.value in items && Runnable(items[r.value])
    ensures r.Some? ==> forall j :: j in ids && j in items && Runnable(items[j]) ==> !Better(items[j], items[r.value])
    ensures r.None? ==> forall j :: j in ids && j in items ==> !Runnable(items[j])
  {
    if ids == [] then None
    else
      var last := ids[|ids| - 1];
      var r := Best(ids[..|ids| - 1], items);
      assert ids == ids[..|ids| - 1] + [last];
      if last in items && Runnable(items[last]) && (r.None? || Better(items[last], items[r.value])) then Some(last)
      else r
  }

  /** The head is waiting, and comes before every other waiting item: by higher priority, then by earlier creation,
      then by its place in the list. */
  lemma {:induction false} BestIsFirst(ids: seq<ItemId>, items: map<ItemId, WorkItem>) returns (k: nat)
    requires Best(ids, items).Some?
    ensures k < |ids| && Best(ids, items) == Some(ids[k])
    ensures ids[k] in items && (items[ids[k]].status == Pending || items[ids[k]].status == Retrying)
    ensures var best := items[ids[k]];
            forall j :: 0 <= j < |ids| && j != k && ids[j] in items && items[ids[j]].status in {Pending, Retrying} ==>
              || best.priority > items[ids[j]].priority
              || (best.priority == items[ids[j]].priority && best.createdAt < items[ids[j]].createdAt)
              || (best.priority == items[ids[j]].priority && best.createdAt == items[ids[j]].createdAt && k < j)
              || ids[j] == ids[k]
  {
    var n := |ids| - 1;
    assert ids == ids[..n] + [ids[n]];
    var r := Best(ids[..n], items);
    if ids[n] in items && Runnable(items[ids[n]]) && (r.None? || Better(items[ids[n]], items[r.value])) {
      k := n;
      forall j | 0 <= j < n && ids[j] in items && Runnable(items[ids[j]]) ensures Better(items[ids[n]], items[ids[j]]) {
        assert ids[..n][j] in ids[..n];
      }
    } else {
      k := BestIsFirst(ids[..n], items);
      assert forall j :: 0 <= j < n ==> ids[..n][j] == ids[j];
    }
  }

  lemma {:induction false} NoBestIff(ids: seq<ItemId>, items: map<ItemId, WorkItem>)
    ensures Best(ids, items).None? <==>
            forall j :: 0 <= j < |ids| && ids[j] in items ==>
                          items[ids[j]].status != Pending && items[ids[j]].status != Retrying
  {
    forall j | 0 <= j < |ids| && ids[j] in items ensures ids[j] in ids {}
  }

  function MarkRunning(items: map<ItemId, WorkItem>, i: ItemId): map<ItemId, WorkItem>
    requires i in items
  {
    items[i := items[i].(status := Running, attempts := items[i].attempts + 1)]
  }

  function MarkDone(items: map<ItemId, WorkItem>, i: ItemId, output: Output): map<ItemId, WorkItem>
    requires i in items
  {
    items[i := items[i].(status := Done, result := Some(output))]
  }

  function MarkFailed(items: map<ItemId, WorkItem>, i: ItemId): map<ItemId, WorkItem>
    requires i in items
  {
    items[i := items[i].(status := if items[i].attempts < items[i].maxAttempts then Retrying else Failed)]
  }

  // ---------- enqueueing what has become ready ----------

  /** One delegation record and one work item for the sub-task at `k`; earlier sub-tasks have the
      higher priority. */
  function AddItem(env: Env, s: State, k: nat): State
    requires k < |s.mission.plan|
  {
    var m, st := s.mission, s.mission.plan[k];
    var agent := Assign(env.registry, env.team, st.role);
    var id := ItemId(m.id, |m.itemIds|);
    var item := WorkItem(id, st.id, AgentOr(agent), |m.plan| - k, Pending, 0, 3, env.stamp(id), None);
    s.(mission := m.(itemIds := m.itemIds + [id]),
       items := s.items[id := item],
       records := s.records + [Record(m.id, st.id, agent)])
  }

  function EnqueueFrom(env: Env, s: State, enqueued: set<Id>, k: nat): State
    requires k <= |s.mission.plan|
    decreases |s.mission.plan| - k
  {
    if k == |s.mission.plan| then s
    else if s.mission.plan[k].id in enqueued || !DepsMet(s.mission.plan[k], s.mission.results) then
      EnqueueFrom(env, s, enqueued, k + 1)
    else
      EnqueueFrom(env, AddItem(env, s, k), enqueued, k + 1)
  }

  function EnqueueReady(env: Env, s: State): State {
    EnqueueFrom(env, s, Enqueued(s.mission.itemIds, s.items), 0)
  }

  // ---------- well-formed states ----------

  function View(ids: seq<ItemId>, items: map<ItemId, WorkItem>): (v: seq<WorkItem>)
    requires forall p :: 0 <= p < |ids| ==> ids[p] in items
  {
    seq(|ids|, p requires 0 <= p < |ids| => items[ids[p]])
  }

  ghost predicate OwnIds(m: Mission) {
    forall p :: 0 <= p < |m.itemIds| ==> m.itemIds[p] == ItemId(m.id, p)
  }

  ghost predicate Held(s: State) {
    && (forall p :: 0 <= p < |s.mission.itemIds| ==> s.mission.itemIds[p] in s.items)
    && (forall i :: i in s.items && i.mission == s.mission.id ==> i.serial < |s.mission.itemIds|)
  }

  /** What every reachable state satisfies, also after sub-tasks were re-enqueued by hand. */
  ghost predicate Wf(s: State) {
    && DistinctIds(s.mission.plan)
    && OwnIds(s.mission)
    && Held(s)
    && (forall p :: 0 <= p < |s.mission.itemIds| ==> HasId(s.mission.plan, s.items[s.mission.itemIds[p]].subTaskId))
    && (s.pc.Awaiting? ==>
          && s.pc.item in s.mission.itemIds
          && s.items[s.pc.item].status.Running?
          && s.items[s.pc.item].subTaskId == s.pc.call.subTask)
  }

  function Items(s: State): seq<WorkItem>
    requires Held(s)
  {
    View(s.mission.itemIds, s.items)
  }

  // ---------- the three stretches of a run ----------

  function Sections(plan: Plan, results: map<Id, Output>): seq<Section> {
    if plan == [] then []
    else
      (if plan[0].id in results then [Section(plan[0].taskType, results[plan[0].id].text)] else [])
      + Sections(plan[1..], results)
  }

  function TaskName(t: TaskType): string {
    match t
    case DocumentAnalysis => "document_analysis"
    case LegalResearch => "legal_research"
    case JurisprudenceResearch => "jurisprudence_research"
    case RiskAnalysis => "risk_analysis"
    case Reasoning => "reasoning"
    case Drafting => "drafting"
    case Verification => "verification"
    case QualityControl => "quality_control"
    case Coordination => "coordination"
    case Critique => "critique"
  }

  function Headed(section: Section): string {
    "## " + TaskName(section.taskType) + "\n" + section.text
  }

  /** Each section under its heading, with an empty line between two. */
  function Rendered(sections: seq<Section>): string {
    if sections == [] then ""
    else
      var n := |sections| - 1;
      (if n == 0 then "" else Rendered(sections[..n]) + "\n\n") + Headed(sections[n])
  }

  function BuildSynthesis(plan: Plan, results: map<Id, Output>): string {
    Rendered(Sections(plan, results))
  }

  function Finish(s: State): State {
    var m := s.mission;
    s.(pc := Finished,
       mission := if |m.results| == |m.plan|
                  then m.(status := MissionCompleted, synthesis := Some(BuildSynthesis(m.plan, m.results)))
                  else m.(status := MissionFailed))
  }

  /** The run of item `i` up to the call of its agent; an item nobody can run fails at once. */
  function RunItem(env: Env, s: State, i: ItemId): State
    requires Wf(s) && s.pc.Top? && i in s.mission.itemIds
  {
    var st := s.mission.plan[IndexOf(s.mission.plan, s.items[i].subTaskId)];
    var items := MarkRunning(s.items, i);
    if items[i].agentId == "" || items[i].agentId !in env.agents then
      s.(items := MarkFailed(items, i))
    else
      var call := Call(st.id, items[i].agentId, Slice(st.role, s.context), items[i].attempts);
      s.(items := items, pc := Awaiting(i, call), calls := s.calls + [call])
  }

  function Pick(env: Env, s: State): State
    requires Wf(s) && s.pc.Top?
  {
    var next := Best(s.mission.itemIds, s.items);
    if next.None? then Finish(s) else RunItem(env, s, next.value)
  }

  function Resume(env: Env, s: State): State
    requires Wf(s) && s.pc.Awaiting?
  {
    var i := s.pc.item;
    match env.answer(s.pc.call)
    case Raised(_) => s.(items := MarkFailed(s.items, i), pc := Top)
    case Returned(output) =>
      var st := s.mission.plan[IndexOf(s.mission.plan, s.items[i].subTaskId)];
      EnqueueReady(env, s.(items := MarkDone(s.items, i, output), pc := Top,
                           mission := s.mission.(results := s.mission.results[st.id := output]),
                           context := s.context[ResultOf(st.taskType) := output.text]))
  }

  function Step(env: Env, s: State): State
    requires Wf(s)
  {
    match s.pc
    case Top => Pick(env, s)
    case Awaiting(_, _) => Resume(env, s)
    case Finished => s
  }

  // ---------- launching and starting ----------

  /** What `launch_mission` starts from: a new identifier, the plan, the request, and the queue and
      delegation log that other missions already use. */
  datatype Job = Job(id: Id, plan: Plan, summary: string, items: map<ItemId, WorkItem>, records: seq<Record>)

  function Blank(job: Job): State {
    State(Mission(job.id, job.plan, job.summary, MissionCreated, [], map[], None), job.items, job.records, map[], [],
          Top)
  }

  function Launch(env: Env, job: Job): State {
    EnqueueReady(env, Blank(job))
  }

  /** The top of `run_mission`: a fresh local context, the mission marked running. */
  function Begin(s: State): State {
    s.(mission := s.mission.(status := MissionRunning),
       context := map[CaseSummary := s.mission.summary], calls := [], pc := Top)
  }
}
