/** What agents are shown and what becomes of their answers. */
module MissionContext {
  import opened Optional
  import opened MissionModel
  import opened MissionRun
  import opened MissionSafety
  import opened MissionLifecycle
  import opened MissionVerdict
  import opened MissionRefinement
  import opened MissionBlame

  // ---------- names ----------

  /** Two letters tell the task types apart. */
  lemma {:induction false} Letters(t: TaskType)
    ensures |TaskName(t)| >= 2
    ensures var c := TaskName(t)[..2];
            match t
            case DocumentAnalysis => c == "do"
            case LegalResearch => c == "le"
            case JurisprudenceResearch => c == "ju"
            case RiskAnalysis => c == "ri"
            case Reasoning => c == "re"
            case Drafting => c == "dr"
            case Verification => c == "ve"
            case QualityControl => c == "qu"
            case Coordination => c == "co"
            case Critique => c == "cr"
  {
  }

  lemma {:induction false} LettersTell(t: TaskType, u: TaskType)
    requires |TaskName(t)| >= 2 && |TaskName(u)| >= 2 && TaskName(t)[..2] == TaskName(u)[..2]
    ensures t == u
  {
    Letters(t);
    Letters(u);
    hide TaskName;
    var c, d := TaskName(t)[..2], TaskName(u)[..2];
    assert c[0] == d[0] && c[1] == d[1];
  }

  lemma {:induction false} SamePrefix(prefix: string, name: string)
    requires |prefix| >= 2 && |name| >= 2
    ensures prefix <= name ==> prefix[..2] == name[..2]
  {
  }

  /** The prefix of a task type fits the result of that type and nothing else. */
  lemma {:induction false} PrefixFits(t: TaskType, key: ContextKey)
    ensures TaskName(t) + "_" <= KeyName(key) <==> key == ResultOf(t)
  {
    Letters(t);
    hide TaskName;
    var prefix, name := TaskName(t) + "_", KeyName(key);
    match key
    case CaseSummary =>
      var start, letters := name[..2], TaskName(t)[..2];
      assert prefix[..2] == letters && start == "ca";
      SamePrefix(prefix, name);
    case ResultOf(u) =>
      Letters(u);
      if prefix <= name {
        assert prefix[..2] == TaskName(t)[..2] && name[..2] == TaskName(u)[..2];
        assert name[..2] == prefix[..2];
        LettersTell(t, u);
      }
      if t == u { assert name == prefix + "result"; }
  }

  lemma {:induction false} CaseFits(key: ContextKey)
    ensures "case_" <= KeyName(key) <==> key == CaseSummary
  {
    match key
    case CaseSummary =>
    case ResultOf(t) =>
      Letters(t);
      hide TaskName;
      var prefix, name := "case_", KeyName(key);
      var start, letters := name[..2], prefix[..2];
      assert start == TaskName(t)[..2] && letters == "ca";
      SamePrefix(prefix, name);
  }

  ghost function PrefixesOf(seen: set<TaskType>): set<string> {
    {"case_"} + set t | t in seen :: TaskName(t) + "_"
  }

  lemma {:induction false} RelevantIff(role: Role, seen: set<TaskType>, key: ContextKey)
    requires Prefixes(role) == PrefixesOf(seen)
    ensures Relevant(role, key) <==> key == CaseSummary || (key.ResultOf? && key.taskType in seen)
  {
    hide Prefixes, KeyName, TaskName;
    CaseFits(key);
    forall t ensures TaskName(t) + "_" <= KeyName(key) <==> key == ResultOf(t) { PrefixFits(t, key); }
    assert "case_" in Prefixes(role);
    if key.ResultOf? && key.taskType in seen {
      assert TaskName(key.taskType) + "_" in Prefixes(role);
    }
  }

  /** The task types whose results a role is shown; None for all of them. */
  ghost function Seen(role: Role): Option<set<TaskType>> {
    match role
    case DocumentAnalyst => Some({})
    case LegalResearcher => Some({DocumentAnalysis})
    case JurisprudenceExpert => Some({LegalResearch})
    case GdprExpert => Some({DocumentAnalysis, LegalResearch})
    case TaxExpert => Some({DocumentAnalysis, LegalResearch})
    case SocialLawExpert => Some({DocumentAnalysis, LegalResearch})
    case Drafter => Some({DocumentAnalysis, LegalResearch, JurisprudenceResearch, RiskAnalysis})
    case Verifier => Some({Drafting, Reasoning})
    case _ => None
  }

  lemma {:induction false} Spelled()
    ensures TaskName(DocumentAnalysis) + "_" == "document_analysis_"
    ensures TaskName(LegalResearch) + "_" == "legal_research_"
    ensures TaskName(JurisprudenceResearch) + "_" == "jurisprudence_research_"
    ensures TaskName(RiskAnalysis) + "_" == "risk_analysis_"
    ensures TaskName(Drafting) + "_" == "drafting_"
    ensures TaskName(Reasoning) + "_" == "reasoning_"
  {
  }

  lemma {:induction false} SeenPrefixes(role: Role)
    ensures if Seen(role).Some? then Prefixes(role) == PrefixesOf(Seen(role).value) else Prefixes(role) == {}
  {
    Spelled();
    hide TaskName;
  }

  lemma {:induction false} RelevantIsSeen(role: Role, key: ContextKey)
    ensures Relevant(role, key) <==>
            Seen(role).None? || key == CaseSummary || (key.ResultOf? && key.taskType in Seen(role).value)
  {
    hide Prefixes, Relevant, Seen, PrefixesOf;
    SeenPrefixes(role);
    if Seen(role).Some? { RelevantIff(role, Seen(role).value, key); } else { EverythingRelevant(role, key); }
  }

  lemma {:induction false} EverythingRelevant(role: Role, key: ContextKey)
    requires Prefixes(role) == {}
    ensures Relevant(role, key)
  {
    hide Prefixes;
  }

  /** What an agent in a role is shown of a context: the entries it is shown are the context's; everybody sees
      the case; and of the results, each role those listed here. */
  lemma {:induction false} RolesAreShown(role: Role, context: Context)
    ensures var slice := Slice(role, context);
            && (forall key :: key in slice ==> key in context && slice[key] == context[key])
            && (CaseSummary in context ==> CaseSummary in slice)
    ensures role == DocumentAnalyst ==> forall t :: ResultOf(t) !in Slice(role, context)
    ensures role == LegalResearcher ==>
              forall t :: ResultOf(t) in Slice(role, context) <==> ResultOf(t) in context && t == DocumentAnalysis
    ensures role == JurisprudenceExpert ==>
              forall t :: ResultOf(t) in Slice(role, context) <==> ResultOf(t) in context && t == LegalResearch
    ensures role in {GdprExpert, TaxExpert, SocialLawExpert} ==>
              forall t :: ResultOf(t) in Slice(role, context) <==>
                          ResultOf(t) in context && t in {DocumentAnalysis, LegalResearch}
    ensures role == Drafter ==>
              forall t :: ResultOf(t) in Slice(role, context) <==>
                          ResultOf(t) in context
                          && t in {DocumentAnalysis, LegalResearch, JurisprudenceResearch, RiskAnalysis}
    ensures role == Verifier ==>
              forall t :: ResultOf(t) in Slice(role, context) <==> ResultOf(t) in context && t in {Drafting, Reasoning}
    ensures role in {RoleCoordinator, QualityController, Critic} ==> Slice(role, context) == context
  {
    hide Relevant;
    forall key ensures Relevant(role, key) <==>
        Seen(role).None? || key == CaseSummary || (key.ResultOf? && key.taskType in Seen(role).value)
    {
      RelevantIsSeen(role, key);
    }
  }

  // ---------- calls, answers, results ----------

  /** The calls that have been answered. */
  ghost function Made(s: State): seq<Call> {
    if s.pc.Awaiting? && s.calls != [] then s.calls[..|s.calls| - 1] else s.calls
  }

  /** The call returned `text` for a sub-task of type `t`. */
  ghost predicate Gives(env: Env, plan: Plan, call: Call, t: TaskType, text: string) {
    && HasId(plan, call.subTask) && plan[IndexOf(plan, call.subTask)].taskType == t
    && env.answer(call).Returned? && env.answer(call).output.text == text
  }

  /** The call that is waited for is the last one, and shows its agent what its role is to see of the context. */
  ghost predicate ShownNow(s: State) {
    s.pc.Awaiting? ==>
      && s.calls != [] && s.calls[|s.calls| - 1] == s.pc.call
      && HasId(s.mission.plan, s.pc.call.subTask)
      && s.pc.call.slice == Slice(s.mission.plan[IndexOf(s.mission.plan, s.pc.call.subTask)].role, s.context)
  }

  ghost predicate ContextIsAnswers(env: Env, s: State) {
    && CaseSummary in s.context && s.context[CaseSummary] == s.mission.summary
    && forall t :: ResultOf(t) in s.context ==>
         exists call :: call in Made(s) && Gives(env, s.mission.plan, call, t, s.context[ResultOf(t)])
  }

  /** Results are those the run began with, or what a call for the sub-task returned. */
  ghost predicate ResultsAreAnswers(env: Env, before: map<Id, Output>, s: State) {
    forall id :: id in s.mission.results ==>
      || (id in before && before[id] == s.mission.results[id])
      || exists call :: call in Made(s) && call.subTask == id && env.answer(call) == Returned(s.mission.results[id])
  }

  /** A call that returned left a result of its sub-task, and a context entry of its type. */
  ghost predicate AnswersAreKept(env: Env, s: State) {
    forall call :: call in Made(s) && env.answer(call).Returned? ==>
      && HasId(s.mission.plan, call.subTask) && call.subTask in s.mission.results
      && ResultOf(s.mission.plan[IndexOf(s.mission.plan, call.subTask)].taskType) in s.context
  }

  ghost predicate Faithful(env: Env, before: map<Id, Output>, s: State) {
    ShownNow(s) && ContextIsAnswers(env, s) && ResultsAreAnswers(env, before, s) && AnswersAreKept(env, s)
  }

  lemma {:induction false} RunItemCall(env: Env, s: State, i: ItemId)
    requires Wf(s) && s.pc.Top? && i in s.mission.itemIds
    ensures var r := RunItem(env, s, i);
            r.pc.Awaiting? ==> HasId(s.mission.plan, r.pc.call.subTask)
                               && r.pc.call.slice
                                   == Slice(s.mission.plan[IndexOf(s.mission.plan, r.pc.call.subTask)].role, s.context)
  {
    WfHeld(s);
    hide Wf, Held, OwnIds, Slice;
  }

  lemma {:induction false} StaysFaithful(env: Env, before: map<Id, Output>, s: State, r: State)
    requires Faithful(env, before, s) && ShownNow(r) && Made(r) == Made(s) && r.context == s.context
    requires r.mission.plan == s.mission.plan && r.mission.summary == s.mission.summary
    requires r.mission.results == s.mission.results
    ensures Faithful(env, before, r)
  {
    hide ShownNow, Made, Gives, HasId, IndexOf;
  }

  lemma {:induction false} PickFaithful(env: Env, before: map<Id, Output>, s: State)
    requires Wf(s) && s.pc.Top? && Faithful(env, before, s)
    ensures Faithful(env, before, Pick(env, s))
  {
    hide Wf, Faithful, RunItem, IndexOf, HasId, Slice, BuildSynthesis;
    var next, r := Best(s.mission.itemIds, s.items), Pick(env, s);
    if next.Some? {
      RunItemShape(env, s, next.value);
      RunItemCall(env, s, next.value);
    }
    assert Made(r) == Made(s);
    StaysFaithful(env, before, s, r);
  }

  lemma {:induction false} RaisedFaithful(env: Env, before: map<Id, Output>, s: State)
    requires Wf(s) && s.pc.Awaiting? && env.answer(s.pc.call).Raised? && Faithful(env, before, s)
    ensures Faithful(env, before, Resume(env, s))
  {
    hide Wf, Resume, HasId, IndexOf, Slice, Gives;
    RaisedShape(env, s);
    var r := Resume(env, s);
    assert Made(r) == Made(s) + [s.pc.call];
  }

  lemma {:induction false} ReturnedContext(env: Env, s: State, output: Output)
    requires Wf(s) && s.pc.Awaiting? && env.answer(s.pc.call) == Returned(output)
             && HasId(s.mission.plan, s.pc.call.subTask)
    ensures var r, st := Resume(env, s), s.mission.plan[IndexOf(s.mission.plan, s.pc.call.subTask)];
            && r.pc.Top? && r.calls == s.calls && r.context == s.context[ResultOf(st.taskType) := output.text]
            && r.mission.plan == s.mission.plan && r.mission.summary == s.mission.summary
            && r.mission.results == s.mission.results[s.pc.call.subTask := output]
  {
    WfHeld(s);
    StoredFacts(s, output);
    EnqueueReadyFacts(env, Stored(s, output));
    hide Wf, EnqueueReady, Measure;
  }

  lemma {:induction false} ContextMore(env: Env, s: State, r: State, call: Call, t: TaskType, text: string)
    requires ContextIsAnswers(env, s) && Made(r) == Made(s) + [call] && Gives(env, s.mission.plan, call, t, text)
    requires r.mission.plan == s.mission.plan && r.mission.summary == s.mission.summary
    requires r.context == s.context[ResultOf(t) := text]
    ensures ContextIsAnswers(env, r)
  {
    hide Made, Gives;
    forall u | ResultOf(u) in r.context
      ensures exists c :: c in Made(r) && Gives(env, r.mission.plan, c, u, r.context[ResultOf(u)])
    {
      if u == t {
        assert call in Made(r) && Gives(env, r.mission.plan, call, u, r.context[ResultOf(u)]);
      } else {
        var c :| c in Made(s) && Gives(env, s.mission.plan, c, u, s.context[ResultOf(u)]);
        assert c in Made(r);
      }
    }
  }

  lemma {:induction false} ResultsMore(env: Env, before: map<Id, Output>, s: State, r: State, call: Call,
                                       output: Output)
    requires ResultsAreAnswers(env, before, s) && Made(r) == Made(s) + [call] && env.answer(call) == Returned(output)
    requires r.mission.results == s.mission.results[call.subTask := output]
    ensures ResultsAreAnswers(env, before, r)
  {
    hide Made;
    forall id | id in r.mission.results
      ensures (id in before && before[id] == r.mission.results[id])
              || exists c :: c in Made(r) && c.subTask == id && env.answer(c) == Returned(r.mission.results[id])
    {
      if id == call.subTask {
        assert call in Made(r) && call.subTask == id;
      } else if !(id in before && before[id] == s.mission.results[id]) {
        var c :| c in Made(s) && c.subTask == id && env.answer(c) == Returned(s.mission.results[id]);
        assert c in Made(r);
      }
    }
  }

  lemma {:induction false} AnswersMore(env: Env, s: State, r: State, call: Call, output: Output)
    requires AnswersAreKept(env, s) && Made(r) == Made(s) + [call] && HasId(s.mission.plan, call.subTask)
    requires r.mission.plan == s.mission.plan && r.mission.results == s.mission.results[call.subTask := output]
    requires s.context.Keys <= r.context.Keys
    requires ResultOf(s.mission.plan[IndexOf(s.mission.plan, call.subTask)].taskType) in r.context
    ensures AnswersAreKept(env, r)
  {
    hide Made, HasId, IndexOf;
  }

  lemma {:induction false} ReturnedFaithful(env: Env, before: map<Id, Output>, s: State, output: Output)
    requires Wf(s) && s.pc.Awaiting? && env.answer(s.pc.call) == Returned(output) && Faithful(env, before, s)
    ensures Faithful(env, before, Resume(env, s))
  {
    hide Wf, Resume, Slice, HasId, IndexOf, ContextIsAnswers, ResultsAreAnswers, AnswersAreKept;
    ReturnedContext(env, s, output);
    var r, call := Resume(env, s), s.pc.call;
    var t := s.mission.plan[IndexOf(s.mission.plan, call.subTask)].taskType;
    assert Made(r) == Made(s) + [call];
    assert Gives(env, s.mission.plan, call, t, output.text);
    hide Gives, Made;
    ContextMore(env, s, r, call, t, output.text);
    ResultsMore(env, before, s, r, call, output);
    AnswersMore(env, s, r, call, output);
  }

  lemma {:induction false} StepFaithful(env: Env, before: map<Id, Output>, s: State)
    requires Wf(s) && Faithful(env, before, s)
    ensures Faithful(env, before, Step(env, s))
  {
    hide Wf, Faithful, Pick, Resume;
    match s.pc
    case Finished =>
    case Top => PickFaithful(env, before, s);
    case Awaiting(_, call) =>
      match env.answer(call)
      case Raised(_) => RaisedFaithful(env, before, s);
      case Returned(output) => ReturnedFaithful(env, before, s, output);
  }

  lemma {:induction false} StepsFaithful(env: Env, before: map<Id, Output>, s: State, n: nat)
    requires Wf(s) && Faithful(env, before, s)
    ensures Faithful(env, before, Steps(env, s, n))
    decreases n
  {
    hide Wf, Faithful, Step, Steps;
    if n == 0 {
      NoSteps(env, s);
    } else {
      StepFaithful(env, before, s);
      StepsOn(env, s, n);
      StepsFaithful(env, before, Step(env, s), n - 1);
    }
  }

  /** At every moment of any run, first or later: an agent is shown what its role is to see of the context; the
      context holds the case, and for the rest what agents returned in this very run; results are what agents
      returned, or were there before; and no answer is lost. */
  lemma {:induction false} RunIsFaithful(env: Env, s: State, n: nat)
    requires Wf(s) && !s.pc.Awaiting? && Wf(Begin(s))
    ensures Faithful(env, s.mission.results, Steps(env, Begin(s), n))
  {
    BeginFaithful(env, s);
    hide Wf, Faithful, Begin, Steps;
    StepsFaithful(env, s.mission.results, Begin(s), n);
  }

  lemma {:induction false} BeginFaithful(env: Env, s: State)
    ensures Faithful(env, s.mission.results, Begin(s))
  {
  }

  // ---------- the first run ----------

  /** The context mirrors the results: an entry for each task type that has one, with the text of such a one. */
  ghost predicate Mirrors(s: State) {
    && (forall k :: 0 <= k < |s.mission.plan| && s.mission.plan[k].id in s.mission.results ==>
          ResultOf(s.mission.plan[k].taskType) in s.context)
    && forall t :: ResultOf(t) in s.context ==>
         exists k :: 0 <= k < |s.mission.plan| && HasText(s, k, t, s.context[ResultOf(t)])
  }

  ghost predicate HasText(s: State, k: nat, t: TaskType, text: string) {
    && k < |s.mission.plan| && s.mission.plan[k].taskType == t
    && s.mission.plan[k].id in s.mission.results && s.mission.results[s.mission.plan[k].id].text == text
  }

  /** One more result, of a sub-task that had none, with its text put under its task type. */
  lemma {:induction false} MirrorsMore(s: State, r: State, j: nat, output: Output)
    requires Mirrors(s) && DistinctIds(s.mission.plan) && r.mission.plan == s.mission.plan && j < |s.mission.plan|
    requires s.mission.plan[j].id !in s.mission.results
    requires r.mission.results == s.mission.results[s.mission.plan[j].id := output]
    requires r.context == s.context[ResultOf(s.mission.plan[j].taskType) := output.text]
    ensures Mirrors(r)
  {
    assert HasText(r, j, s.mission.plan[j].taskType, output.text);
    forall t | ResultOf(t) in r.context
      ensures exists k :: 0 <= k < |r.mission.plan| && HasText(r, k, t, r.context[ResultOf(t)])
    {
      if t != s.mission.plan[j].taskType {
        var k :| 0 <= k < |s.mission.plan| && HasText(s, k, t, s.context[ResultOf(t)]);
        assert HasText(r, k, t, r.context[ResultOf(t)]);
      }
    }
    hide HasText;
  }

  lemma {:induction false} ReturnedMirrors(env: Env, s: State, output: Output)
    requires Inv(s) && s.pc.Awaiting? && env.answer(s.pc.call) == Returned(output) && Mirrors(s)
    ensures Mirrors(Resume(env, s))
  {
    hide ItemsOk, ReadyIffEnqueued, PcOk, Resume, DepsMet, Held, Mirrors, IndexOf, Wf;
    AwaitedIsReady(s);
    WfDistinct(s);
    AwaitedHasId(s);
    ReturnedContext(env, s, output);
    var j := IndexOf(s.mission.plan, s.pc.call.subTask);
    MirrorsMore(s, Resume(env, s), j, output);
  }

  lemma {:induction false} AwaitedHasId(s: State)
    requires Wf(s) && s.pc.Awaiting?
    ensures s.pc.item in s.items && s.items[s.pc.item].subTaskId == s.pc.call.subTask
    ensures HasId(s.mission.plan, s.pc.call.subTask)
  {
    hide HasId;
  }

  lemma {:induction false} SameMirrors(s: State, r: State)
    requires Mirrors(s) && r.context == s.context
    requires r.mission.plan == s.mission.plan && r.mission.results == s.mission.results
    ensures Mirrors(r)
  {
    forall t | ResultOf(t) in r.context
      ensures exists k :: 0 <= k < |r.mission.plan| && HasText(r, k, t, r.context[ResultOf(t)])
    {
      var k :| 0 <= k < |s.mission.plan| && HasText(s, k, t, s.context[ResultOf(t)]);
      assert HasText(r, k, t, r.context[ResultOf(t)]);
    }
  }

  lemma {:induction false} StepMirrors(env: Env, s: State)
    requires Inv(s) && Mirrors(s)
    ensures Mirrors(Step(env, s))
  {
    hide Wf, ItemsOk, ReadyIffEnqueued, PcOk, Mirrors, RunItem, Resume, BuildSynthesis;
    match s.pc
    case Finished =>
    case Top =>
      var next := Best(s.mission.itemIds, s.items);
      if next.Some? { RunItemShape(env, s, next.value); }
      SameMirrors(s, Step(env, s));
    case Awaiting(_, call) =>
      match env.answer(call)
      case Raised(_) =>
        RaisedShape(env, s);
        SameMirrors(s, Step(env, s));
      case Returned(output) => ReturnedMirrors(env, s, output);
  }

  lemma {:induction false} StepsMirror(env: Env, s: State, n: nat)
    requires Inv(s) && Mirrors(s)
    ensures Mirrors(Steps(env, s, n))
    decreases n
  {
    hide Wf, ItemsOk, ReadyIffEnqueued, PcOk, Mirrors, Step, Steps;
    if n == 0 {
      NoSteps(env, s);
    } else {
      StepMirrors(env, s);
      StepOk(env, s);
      StepsOn(env, s, n);
      StepsMirror(env, Step(env, s), n - 1);
    }
  }

  /** A run starts with a context that mirrors the results exactly if there are none.  After a rerun agents are
      therefore not shown the results that were kept. */
  lemma {:induction false} BeginMirrorsIff(s: State)
    ensures Mirrors(Begin(s)) <==>
            forall k :: 0 <= k < |s.mission.plan| ==> s.mission.plan[k].id !in s.mission.results
  {
    var t := Begin(s);
    if forall k :: 0 <= k < |s.mission.plan| ==> s.mission.plan[k].id !in s.mission.results {
      assert forall u :: ResultOf(u) !in t.context;
    }
  }

  lemma {:induction false} ReachedFacts(launch: Env, env: Env, job: Job, n: nat)
    requires Launchable(job)
    ensures var s := Reached(launch, env, job, n);
            && Inv(s) && s.mission.plan == job.plan && s.mission.summary == job.summary
            && Mirrors(s) && Faithful(env, map[], s)
  {
    LaunchOk(launch, job);
    LaunchWf(launch, job);
    NoResultsYet(launch, job);
    ReachedOk(launch, env, job, n);
    var start := Launch(launch, job);
    assert start.mission.results == map[] && !start.pc.Awaiting?;
    BeginMirrorsIff(start);
    hide Inv, Wf, Launch, Begin, Mirrors, Faithful, Steps;
    StepsMirror(env, Begin(start), n);
    RunIsFaithful(env, start, n);
  }

  /** In a first run the context has an entry for exactly the task types of which a sub-task has a result, with
      the text of such a result. */
  lemma {:induction false} ContextIsResults(launch: Env, env: Env, job: Job, n: nat, t: TaskType)
    requires Launchable(job)
    ensures var s := Reached(launch, env, job, n);
            && (ResultOf(t) in s.context <==>
                exists k :: 0 <= k < |job.plan| && job.plan[k].taskType == t && job.plan[k].id in s.mission.results)
            && (ResultOf(t) in s.context ==>
                exists k :: 0 <= k < |job.plan| && job.plan[k].taskType == t && job.plan[k].id in s.mission.results
                            && s.context[ResultOf(t)] == s.mission.results[job.plan[k].id].text)
  {
    ReachedFacts(launch, env, job, n);
    hide Reached, Inv, Faithful;
    var s := Reached(launch, env, job, n);
    if ResultOf(t) in s.context {
      var k :| 0 <= k < |s.mission.plan| && HasText(s, k, t, s.context[ResultOf(t)]);
      assert job.plan[k].taskType == t && job.plan[k].id in s.mission.results;
    }
  }

  lemma {:induction false} IndexOfId(plan: Plan, k: nat)
    requires DistinctIds(plan) && k < |plan|
    ensures HasId(plan, plan[k].id) && IndexOf(plan, plan[k].id) == k
  {
    assert HasId(plan, plan[k].id);
  }

  lemma {:induction false} NowShown(launch: Env, env: Env, job: Job, n: nat, k: nat)
    requires Launchable(job) && k < |job.plan|
    requires Reached(launch, env, job, n).pc.Awaiting?
    requires Reached(launch, env, job, n).pc.call.subTask == job.plan[k].id
    ensures var s := Reached(launch, env, job, n);
            s.pc.call.slice == Slice(job.plan[k].role, s.context)
            && CaseSummary in s.context && s.context[CaseSummary] == job.summary
  {
    hide Reached, Inv, Mirrors, Slice, ResultsAreAnswers, AnswersAreKept, IndexOf, HasId;
    ReachedFacts(launch, env, job, n);
    IndexOfId(job.plan, k);
    var s := Reached(launch, env, job, n);
    assert ContextIsAnswers(env, s) && ShownNow(s);
  }

  /** At every call of a first run: the agent is shown the mission's summary and entries of the context as they
      are, and of the results exactly those listed for its role. */
  lemma {:induction false} AgentsAreShown(launch: Env, env: Env, job: Job, n: nat, k: nat)
    requires Launchable(job) && k < |job.plan|
    requires Reached(launch, env, job, n).pc.Awaiting?
    requires Reached(launch, env, job, n).pc.call.subTask == job.plan[k].id
    ensures var s := Reached(launch, env, job, n);
            var slice, role := s.pc.call.slice, job.plan[k].role;
            && CaseSummary in slice && slice[CaseSummary] == job.summary
            && (forall key :: key in slice ==> key in s.context && slice[key] == s.context[key])
            && (role == DocumentAnalyst ==> forall t :: ResultOf(t) !in slice)
            && (role == LegalResearcher ==>
                  forall t :: ResultOf(t) in slice <==> ResultOf(t) in s.context && t == DocumentAnalysis)
            && (role == JurisprudenceExpert ==>
                  forall t :: ResultOf(t) in slice <==> ResultOf(t) in s.context && t == LegalResearch)
            && (role in {GdprExpert, TaxExpert, SocialLawExpert} ==>
                  forall t :: ResultOf(t) in slice <==>
                              ResultOf(t) in s.context && t in {DocumentAnalysis, LegalResearch})
            && (role == Drafter ==>
                  forall t :: ResultOf(t) in slice <==>
                              ResultOf(t) in s.context
                              && t in {DocumentAnalysis, LegalResearch, JurisprudenceResearch, RiskAnalysis})
            && (role == Verifier ==>
                  forall t :: ResultOf(t) in slice <==> ResultOf(t) in s.context && t in {Drafting, Reasoning})
            && (role in {RoleCoordinator, QualityController, Critic} ==> slice == s.context)
  {
    hide Reached, Slice, Launchable;
    NowShown(launch, env, job, n, k);
    RolesAreShown(job.plan[k].role, Reached(launch, env, job, n).context);
  }

  // ---------- who is called ----------

  /** The first of the team registered with the role, or nobody if there is none. */
  ghost predicate Delegated(env: Env, role: Role, agent: string) {
    || (agent == "" && forall j :: 0 <= j < |env.team| ==> !Has(env, role, j))
    || exists k :: 0 <= k < |env.team| && env.team[k] == agent && Has(env, role, k)
                   && forall j :: 0 <= j < k ==> !Has(env, role, j)
  }

  ghost predicate Has(env: Env, role: Role, k: nat)
    requires k < |env.team|
  {
    env.team[k] in env.registry && env.registry[env.team[k]] == role
  }

  lemma {:induction false} AssignIsDelegated(env: Env, role: Role)
    ensures Delegated(env, role, AgentOr(Assign(env.registry, env.team, role)))
    decreases |env.team|
  {
    if env.team != [] && !Has(env, role, 0) {
      var rest := env.(team := env.team[1..]);
      AssignIsDelegated(rest, role);
      var agent := AgentOr(Assign(env.registry, rest.team, role));
      assert forall j :: 0 <= j < |rest.team| ==> rest.team[j] == env.team[j + 1];
      forall j | 0 < j < |env.team|
        ensures env.team[j] == rest.team[j - 1] && (Has(env, role, j) <==> Has(rest, role, j - 1))
      {
      }
      if k :| 0 <= k < |rest.team| && rest.team[k] == agent && Has(rest, role, k)
              && forall j :: 0 <= j < k ==> !Has(rest, role, j) {
        assert env.team[k + 1] == agent && Has(env, role, k + 1);
      }
    }
  }

  /** Items are for the delegates of their sub-tasks, and the call that is waited for went to its item's. */
  ghost predicate Staffed(launch: Env, env: Env, s: State)
    requires Held(s)
  {
    && (forall p :: 0 <= p < |Items(s)| ==> ForDelegate(launch, env, s.mission.plan, Items(s)[p]))
    && (s.pc.Awaiting? ==>
          s.pc.item in s.items && s.pc.call.agentId == s.items[s.pc.item].agentId
          && s.pc.call.agentId != "" && s.pc.call.agentId in env.agents)
  }

  ghost predicate ForDelegate(launch: Env, env: Env, plan: Plan, item: WorkItem) {
    HasId(plan, item.subTaskId) && item.agentId == AgentFor(launch, env, plan[IndexOf(plan, item.subTaskId)])
  }

  lemma {:induction false} MovedForDelegate(launch: Env, env: Env, plan: Plan, a: WorkItem, b: WorkItem)
    requires Moves(a, b) && ForDelegate(launch, env, plan, a)
    ensures ForDelegate(launch, env, plan, b)
  {
    hide AgentFor, IndexOf, HasId;
  }

  /** A sub-task that was not enqueued and now is ready. */
  lemma {:induction false} FreshForDelegate(launch: Env, env: Env, s: State, results: map<Id, Output>, item: WorkItem)
    requires Inv(s) && Fresh(env, s.mission.plan, Enqueued(s.mission.itemIds, s.items), item)
    requires DepsMet(s.mission.plan[IndexOf(s.mission.plan, item.subTaskId)], results)
    ensures ForDelegate(launch, env, s.mission.plan, item)
  {
    hide Inv, Enqueued, AgentFor, DepsMet;
    NewlyReady(launch, env, s, IndexOf(s.mission.plan, item.subTaskId), results);
  }

  /** Items that stay, and new ones. */
  lemma {:induction false} StaysStaffed(launch: Env, env: Env, s: State, t: State)
    requires Inv(s) && Inv(t) && Staffed(launch, env, s) && t.mission.plan == s.mission.plan && !t.pc.Awaiting?
    requires MovesOn(Items(s), Items(t))
    requires FreshFrom(env, s.mission.plan, Enqueued(s.mission.itemIds, s.items), Items(t), |Items(s)|)
    ensures Staffed(launch, env, t)
  {
    WfHeld(t);
    hide Wf, Held, View, ItemsOk, PcOk, ReadyIffEnqueued, Enqueued, ForDelegate, Moves, Fresh, IndexOf, HasId, DepsMet;
    forall p | 0 <= p < |Items(t)| ensures ForDelegate(launch, env, t.mission.plan, Items(t)[p]) {
      ItemIsReady(t, p);
      if p < |Items(s)| {
        MovedForDelegate(launch, env, t.mission.plan, Items(s)[p], Items(t)[p]);
      } else {
        FreshForDelegate(launch, env, s, t.mission.results, Items(t)[p]);
      }
    }
  }

  lemma {:induction false} NothingFresh(env: Env, plan: Plan, enqueued: set<Id>, view: seq<WorkItem>)
    ensures FreshFrom(env, plan, enqueued, view, |view|)
  {
  }

  lemma {:induction false} RunItemStaffed(launch: Env, env: Env, s: State, i: ItemId)
    requires Wf(s) && s.pc.Top? && i in s.mission.itemIds && Runnable(s.items[i]) && Staffed(launch, env, s)
    ensures Wf(RunItem(env, s, i)) && Staffed(launch, env, RunItem(env, s, i))
  {
    hide Wf, RunItem, Measure, AgentFor, IndexOf, HasId, Enqueued;
    WfHeld(s);
    RunItemFacts(env, s, i);
    RunItemShape(env, s, i);
    var t := RunItem(env, s, i);
    MeasureUpdated(s, i, t.items[i], t);
    var p := Pos(s, i);
    assert Items(s)[p] == s.items[i];
  }

  lemma {:induction false} FinishStaffed(launch: Env, env: Env, s: State)
    requires Wf(s) && s.pc.Top? && Staffed(launch, env, s)
    ensures Held(Finish(s)) && Staffed(launch, env, Finish(s))
  {
    WfHeld(s);
    FinishItems(s);
    hide Wf, Held, View, AgentFor, BuildSynthesis, IndexOf, HasId;
  }

  lemma {:induction false} PickStaffed(launch: Env, env: Env, s: State)
    requires Wf(s) && s.pc.Top? && Staffed(launch, env, s)
    ensures Wf(Pick(env, s)) && Staffed(launch, env, Pick(env, s))
  {
    PickFacts(env, s);
    hide Wf, Held, RunItem, Finish, Staffed, Measure;
    var next := Best(s.mission.itemIds, s.items);
    if next.Some? { RunItemStaffed(launch, env, s, next.value); } else { FinishStaffed(launch, env, s); }
  }

  lemma {:induction false} ReturnedStaffed(launch: Env, env: Env, s: State, output: Output)
    requires Inv(s) && s.pc.Awaiting? && env.answer(s.pc.call) == Returned(output) && Staffed(launch, env, s)
    ensures Inv(Resume(env, s)) && Staffed(launch, env, Resume(env, s))
  {
    hide Wf, Held, ItemsOk, PcOk, ReadyIffEnqueued, Staffed, Resume, FreshFrom, MovesOn, Enqueued;
    WfHeld(s);
    ResumeOk(env, s);
    ReturnedMoves(env, s, output);
    var p := Pos(s, s.pc.item);
    ViewHasId(s, p);
    ReturnedItem(env, s, At(s.mission.plan, Items(s)[p]), p, output);
    StaysStaffed(launch, env, s, Resume(env, s));
  }

  lemma {:induction false} ViewHasId(s: State, p: nat)
    requires Wf(s) && p < |Items(s)|
    ensures HasId(s.mission.plan, Items(s)[p].subTaskId)
  {
  }

  lemma {:induction false} RaisedStaffed(launch: Env, env: Env, s: State)
    requires Inv(s) && s.pc.Awaiting? && env.answer(s.pc.call).Raised? && Staffed(launch, env, s)
    ensures Inv(Resume(env, s)) && Staffed(launch, env, Resume(env, s))
  {
    hide Wf, Held, ItemsOk, PcOk, ReadyIffEnqueued, Staffed, Resume, Step, FreshFrom, MovesOn, Enqueued;
    WfHeld(s);
    ResumeOk(env, s);
    WfHeld(Resume(env, s));
    StepMoves(env, s);
    RaisedShape(env, s);
    assert Step(env, s) == Resume(env, s) by { StepResumes(env, s); }
    assert |Items(Resume(env, s))| == |Items(s)|;
    NothingFresh(env, s.mission.plan, Enqueued(s.mission.itemIds, s.items), Items(Resume(env, s)));
    StaysStaffed(launch, env, s, Resume(env, s));
  }

  lemma {:induction false} StepResumes(env: Env, s: State)
    requires Wf(s) && s.pc.Awaiting?
    ensures Step(env, s) == Resume(env, s)
  {
    hide Wf, Resume;
  }

  lemma {:induction false} StepsStaffed(launch: Env, env: Env, s: State, n: nat)
    requires Inv(s) && Staffed(launch, env, s)
    ensures Staffed(launch, env, Steps(env, s, n))
    decreases n
  {
    hide Wf, Held, View, ItemsOk, PcOk, ReadyIffEnqueued, Staffed, Pick, Resume, Steps;
    WfHeld(s);
    if n == 0 {
      NoSteps(env, s);
    } else {
      StepOk(env, s);
      StepsOn(env, s, n);
      WfHeld(Step(env, s));
      match s.pc {
        case Finished =>
        case Top => PickStaffed(launch, env, s);
        case Awaiting(_, call) =>
          match env.answer(call)
          case Raised(_) => RaisedStaffed(launch, env, s);
          case Returned(output) => ReturnedStaffed(launch, env, s, output);
      }
      StepsStaffed(launch, env, Step(env, s), n - 1);
    }
  }

  lemma {:induction false} LaunchedStaffed(launch: Env, env: Env, job: Job)
    requires Launchable(job)
    ensures Inv(Begin(Launch(launch, job))) && Staffed(launch, env, Begin(Launch(launch, job)))
  {
    hide Launch, View, ItemsOk, PcOk, ReadyIffEnqueued, AgentFor;
    LaunchOk(launch, job);
    LaunchedSettled(launch, env, job);
    var s := Begin(Launch(launch, job));
    var k := Next(s.mission.plan, s.mission.results, {});
    forall p | 0 <= p < |Items(s)|
      ensures HasId(s.mission.plan, Items(s)[p].subTaskId)
      ensures Items(s)[p].agentId
              == AgentFor(launch, env, s.mission.plan[IndexOf(s.mission.plan, Items(s)[p].subTaskId)])
    {
      assert ItemAtFrontier(launch, env, s.mission.plan, {}, k, 0, Items(s)[p]);
    }
  }

  /** Every call goes to an agent that exists, and that is the first in the team registered with the sub-task's
      role: the team at launch for sub-tasks without dependencies, and the team of the run for the others. */
  lemma {:induction false} CallsGoToDelegates(launch: Env, env: Env, job: Job, n: nat, k: nat)
    requires Launchable(job) && k < |job.plan|
    requires Reached(launch, env, job, n).pc.Awaiting?
    requires Reached(launch, env, job, n).pc.call.subTask == job.plan[k].id
    ensures var agent := Reached(launch, env, job, n).pc.call.agentId;
            var e := if job.plan[k].dependsOn == [] then launch else env;
            && agent != "" && agent in env.agents
            && exists i :: 0 <= i < |e.team| && e.team[i] == agent && Has(e, job.plan[k].role, i)
                           && forall j :: 0 <= j < i ==> !Has(e, job.plan[k].role, j)
  {
    hide Reached, Inv, Wf, View, Launch, Staffed, Steps;
    LaunchedStaffed(launch, env, job);
    ReachedIs(launch, env, job, n);
    ReachedOk(launch, env, job, n);
    var s := Reached(launch, env, job, n);
    StepsStaffed(launch, env, Begin(Launch(launch, job)), n);
    DelegatedNow(launch, env, s, k);
  }

  lemma {:induction false} DelegatedNow(launch: Env, env: Env, s: State, k: nat)
    requires Wf(s) && Staffed(launch, env, s) && k < |s.mission.plan|
    requires s.pc.Awaiting? && s.pc.call.subTask == s.mission.plan[k].id
    ensures var agent, st := s.pc.call.agentId, s.mission.plan[k];
            && agent != "" && agent in env.agents
            && Delegated(if st.dependsOn == [] then launch else env, st.role, agent)
  {
    WfHeld(s);
    WfDistinct(s);
    IndexOfId(s.mission.plan, k);
    hide Wf, Assign, Delegated;
    var p := Pos(s, s.pc.item);
    assert Items(s)[p] == s.items[s.pc.item];
    var e := if s.mission.plan[k].dependsOn == [] then launch else env;
    AssignIsDelegated(e, s.mission.plan[k].role);
  }

  // ---------- results and dependencies ----------

  /** A sub-task has a result only if those it depends on have. */
  lemma {:induction false} ResultsAreClosed(launch: Env, env: Env, job: Job, n: nat)
    requires Launchable(job)
    ensures var results := Reached(launch, env, job, n).mission.results;
            forall k, d :: 0 <= k < |job.plan| && job.plan[k].id in results && d in job.plan[k].dependsOn ==>
                             d in results
  {
    hide ItemsOk, ReadyIffEnqueued, PcOk, Wf, Launch, Begin, Steps;
    LaunchOk(launch, job);
    ReachedIs(launch, env, job, n);
    NoResultsYet(launch, job);
    var rank := StepsRank(env, Begin(Launch(launch, job)), n, map[]);
  }
}
