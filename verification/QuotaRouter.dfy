/** The model router and the quota gate behind it.  The gate looks back over a sliding window at one
    reading of the clock and records the call at a later one; still no window of the quota's length ever
    holds more calls than the quota allows. */
module QuotaRouter {
  import opened Optional

  datatype Quota = Quota(maxCalls: int, periodDays: int)

  datatype Model = Model(name: string, cost: real, latency: real, available: bool, quality: real, profiles: set<string>)

  datatype Request = Request(
    firm: string, profile: Option<string>, targetCost: Option<real>, maxLatency: Option<real>, minQuality: real,
    country: Option<string>, dataType: Option<string>)

  /** What a routing decision says about how it came about: how many models each filter left, which ones the
      governance excluded, and which one was retained. */
  datatype Reason =
    | Associated(count: nat, profile: Option<string>)
    | Available(count: nat)
    | AboveQuality(count: nat, minQuality: real)
    | UnderCost(count: nat, targetCost: real)
    | UnderLatency(count: nat, maxLatency: real)
    | Excluded(name: string, why: seq<string>)
    | Retained(model: Model)

  datatype Outcome = Routed(model: Model, reasons: seq<Reason>) | NoEligibleModel(reasons: seq<Reason>) | QuotaExceeded

  datatype Verdict = Verdict(allowed: bool, reasons: seq<string>)

  /** The policy engine's verdict on a model for a request. */
  type Policy = (Request, string) -> Verdict

  // ---------- the window ----------

  function Seconds(days: int): real {
    (days * 86400) as real
  }

  function CountSince(calls: seq<real>, cutoff: real): nat {
    if calls == [] then 0
    else CountSince(calls[..|calls| - 1], cutoff) + if calls[|calls| - 1] >= cutoff then 1 else 0
  }

  /** Calls in the closed window of length `width` that starts at `from`. */
  ghost function CountWindow(calls: seq<real>, from: real, width: real): nat {
    if calls == [] then 0
    else CountWindow(calls[..|calls| - 1], from, width) + if from <= calls[|calls| - 1] <= from + width then 1 else 0
  }

  ghost function InWindow(calls: seq<real>, from: real, width: real): set<nat> {
    set i: nat | i < |calls| && from <= calls[i] <= from + width
  }

  ghost function Since(calls: seq<real>, cutoff: real): set<nat> {
    set i: nat | i < |calls| && calls[i] >= cutoff
  }

  /** No closed window of so many days of 86400 seconds holds more calls than allowed. */
  ghost predicate WithinQuota(calls: seq<real>, quota: Quota) {
    forall from: real, width: real :: width == 86400.0 * quota.periodDays as real ==>
      |InWindow(calls, from, width)| <= quota.maxCalls
  }

  function Allows(quota: Option<Quota>, calls: seq<real>, now: real): bool {
    quota.None? || CountSince(calls, now - Seconds(quota.value.periodDays)) < quota.value.maxCalls
  }

  lemma {:induction false} WindowCounted(calls: seq<real>, from: real, width: real)
    ensures CountWindow(calls, from, width) == |InWindow(calls, from, width)|
  {
    if calls != [] {
      var n := |calls| - 1;
      WindowCounted(calls[..n], from, width);
      var inside := InWindow(calls[..n], from, width);
      assert InWindow(calls, from, width) == if from <= calls[n] <= from + width then inside + {n} else inside;
    }
  }

  lemma {:induction false} SinceCounted(calls: seq<real>, cutoff: real)
    ensures CountSince(calls, cutoff) == |Since(calls, cutoff)|
  {
    if calls != [] {
      var n := |calls| - 1;
      SinceCounted(calls[..n], cutoff);
      var since := Since(calls[..n], cutoff);
      assert Since(calls, cutoff) == if calls[n] >= cutoff then since + {n} else since;
    }
  }

  lemma {:induction false} SecondsMean(days: int)
    ensures Seconds(days) == 86400.0 * days as real
  {
  }

  /** What the gate asks of the calls so far. */
  lemma {:induction false} AllowsMeans(quota: Quota, calls: seq<real>, now: real)
    ensures Allows(Some(quota), calls, now) <==>
            |Since(calls, now - 86400.0 * quota.periodDays as real)| < quota.maxCalls
  {
    SecondsMean(quota.periodDays);
    hide Seconds;
    SinceCounted(calls, now - 86400.0 * quota.periodDays as real);
  }

  lemma {:induction false} WindowWithinSince(calls: seq<real>, from: real, width: real, cutoff: real)
    requires cutoff <= from
    ensures CountWindow(calls, from, width) <= CountSince(calls, cutoff)
  {
    if calls != [] { WindowWithinSince(calls[..|calls| - 1], from, width, cutoff); }
  }

  /** A call that was allowed at `checked` may be recorded at any later time. */
  lemma {:induction false} AllowedCallKeepsQuota(quota: Quota, calls: seq<real>, checked: real, recorded: real)
    requires WithinQuota(calls, quota) && Allows(Some(quota), calls, checked) && checked <= recorded
    ensures WithinQuota(calls + [recorded], quota)
  {
    var width := 86400.0 * quota.periodDays as real;
    SecondsMean(quota.periodDays);
    hide Seconds, InWindow;
    forall from: real, w: real | w == width ensures |InWindow(calls + [recorded], from, w)| <= quota.maxCalls {
      WindowCounted(calls + [recorded], from, width);
      WindowCounted(calls, from, width);
      assert (calls + [recorded])[..|calls|] == calls;
      if from <= recorded <= from + width {
        WindowWithinSince(calls, from, width, checked - width);
      }
    }
  }

  // ---------- choosing a model ----------

  function Filter(models: seq<Model>, keep: Model -> bool): seq<Model> {
    if models == [] then []
    else Filter(models[..|models| - 1], keep) + if keep(models[|models| - 1]) then [models[|models| - 1]] else []
  }

  /** What a request asks of a model apart from the governance, up to the filter at `stage`. */
  predicate Meets(m: Model, request: Request, stage: nat) {
    && (request.profile.Some? ==> request.profile.value in m.profiles)
    && (stage >= 2 ==> m.available)
    && (stage >= 3 && request.minQuality > 0.0 ==> m.quality >= request.minQuality)
    && (stage >= 4 && request.targetCost.Some? ==> m.cost <= request.targetCost.value)
    && (stage >= 5 && request.maxLatency.Some? ==> m.latency <= request.maxLatency.value)
  }

  /** What a request asks of a model, in one condition. */
  predicate Eligible(m: Model, request: Request, policy: Policy) {
    Meets(m, request, 5) && policy(request, m.name).allowed
  }

  /** The one condition: the profile if one is asked for, availability, the three bounds if set, and the policy. */
  lemma {:induction false} EligibleMeans(models: seq<Model>, m: Model, request: Request, policy: Policy)
    ensures m in Filter(models, (x: Model) => Eligible(x, request, policy)) <==>
            && m in models && m.available && policy(request, m.name).allowed
            && (match request.profile case Some(profile) => profile in m.profiles case None => true)
            && (request.minQuality > 0.0 ==> m.quality >= request.minQuality)
            && (match request.targetCost case Some(cost) => m.cost <= cost case None => true)
            && (match request.maxLatency case Some(latency) => m.latency <= latency case None => true)
  {
    FilterMember(models, (x: Model) => Eligible(x, request, policy), m);
    hide Filter;
  }

  lemma {:induction false} FilterMember(models: seq<Model>, keep: Model -> bool, m: Model)
    ensures m in Filter(models, keep) <==> m in models && keep(m)
  {
    if models != [] {
      FilterMember(models[..|models| - 1], keep, m);
      assert models == models[..|models| - 1] + [models[|models| - 1]];
    }
  }

  function Meeting(models: seq<Model>, request: Request, stage: nat): seq<Model> {
    Filter(models, (m: Model) => Meets(m, request, stage))
  }

  function Refused(models: seq<Model>, request: Request, policy: Policy): seq<Reason> {
    if models == [] then []
    else
      var m := models[|models| - 1];
      var verdict := policy(request, m.name);
      Refused(models[..|models| - 1], request, policy)
      + if verdict.allowed then [] else [Excluded(m.name, verdict.reasons)]
  }

  /** The governance's reasons: one for each model it does not allow. */
  lemma {:induction false} RefusedMeans(models: seq<Model>, request: Request, policy: Policy, r: Reason)
    ensures r in Refused(models, request, policy) <==>
            exists m :: m in models && !policy(request, m.name).allowed
                        && r == Excluded(m.name, policy(request, m.name).reasons)
  {
    if models != [] {
      RefusedMeans(models[..|models| - 1], request, policy, r);
      assert models == models[..|models| - 1] + [models[|models| - 1]];
    }
  }

  /** What the filter at `stage` has to say, if the request uses it. */
  function StageReason(models: seq<Model>, request: Request, stage: nat): seq<Reason> {
    var count := |Meeting(models, request, stage)|;
    if stage == 1 then [Associated(count, request.profile)]
    else if stage == 2 then [Available(count)]
    else if stage == 3 && request.minQuality > 0.0 then [AboveQuality(count, request.minQuality)]
    else if stage == 4 && request.targetCost.Some? then [UnderCost(count, request.targetCost.value)]
    else if stage == 5 && request.maxLatency.Some? then [UnderLatency(count, request.maxLatency.value)]
    else []
  }

  function Stages(models: seq<Model>, request: Request, stage: nat): seq<Reason> {
    if stage == 0 then [] else Stages(models, request, stage - 1) + StageReason(models, request, stage)
  }

  /** The reasons a request is owed: the models that meet it up to each filter it uses, counted, and the
      governance's refusals among those that meet all of it. */
  function Explanation(models: seq<Model>, request: Request, policy: Policy): seq<Reason> {
    Stages(models, request, 5) + Refused(Meeting(models, request, 5), request, policy)
  }

  /** The counts among the reasons: models with the profile, those of them available, and those of them within
      the quality, cost and latency bounds, as far as the request sets these. */
  lemma {:induction false} ReasonsCount(models: seq<Model>, request: Request, policy: Policy)
    ensures Explanation(models, request, policy) ==
            [Associated(|Meeting(models, request, 1)|, request.profile), Available(|Meeting(models, request, 2)|)]
            + (if request.minQuality > 0.0
               then [AboveQuality(|Meeting(models, request, 3)|, request.minQuality)] else [])
            + (match request.targetCost
               case Some(cost) => [UnderCost(|Meeting(models, request, 4)|, cost)] case None => [])
            + (match request.maxLatency
               case Some(latency) => [UnderLatency(|Meeting(models, request, 5)|, latency)] case None => [])
            + Refused(Meeting(models, request, 5), request, policy)
  {
    hide Meeting, Stages, Refused;
    StagesOn(models, request);
    var s := Stages(models, request, 2);
    assert s == Stages(models, request, 1 + 1) && Stages(models, request, 1) == Stages(models, request, 0 + 1);
    assert s == [Associated(|Meeting(models, request, 1)|, request.profile),
                 Available(|Meeting(models, request, 2)|)];
    assert Stages(models, request, 3) == s + StageReason(models, request, 2 + 1);
    assert Stages(models, request, 4) == Stages(models, request, 3) + StageReason(models, request, 3 + 1);
    assert Stages(models, request, 5) == Stages(models, request, 4) + StageReason(models, request, 4 + 1);
  }

  lemma {:induction false} FilterTwice(models: seq<Model>, p: Model -> bool, q: Model -> bool, both: Model -> bool)
    requires forall m :: both(m) <==> p(m) && q(m)
    ensures Filter(Filter(models, p), q) == Filter(models, both)
  {
    if models != [] {
      var n := |models| - 1;
      FilterTwice(models[..n], p, q, both);
      var kept := Filter(models[..n], p);
      if p(models[n]) { assert (kept + [models[n]])[..|kept|] == kept; } else { assert kept + [] == kept; }
    }
  }

  lemma {:induction false} FilterSame(models: seq<Model>, p: Model -> bool, q: Model -> bool)
    requires forall m :: p(m) <==> q(m)
    ensures Filter(models, p) == Filter(models, q)
  {
    if models != [] { FilterSame(models[..|models| - 1], p, q); }
  }

  lemma {:induction false} FilterAll(models: seq<Model>, p: Model -> bool)
    requires forall m :: p(m)
    ensures Filter(models, p) == models
  {
    if models != [] {
      FilterAll(models[..|models| - 1], p);
      assert models == models[..|models| - 1] + [models[|models| - 1]];
    }
  }

  /** One filter after another is the filter of the joint condition. */
  lemma {:induction false} NextStage(models: seq<Model>, request: Request, stage: nat, keep: Model -> bool)
    requires forall m :: Meets(m, request, stage + 1) <==> Meets(m, request, stage) && keep(m)
    ensures Filter(Meeting(models, request, stage), keep) == Meeting(models, request, stage + 1)
  {
    hide Meets, Filter;
    FilterTwice(models, (m: Model) => Meets(m, request, stage), keep, (m: Model) => Meets(m, request, stage + 1));
  }

  lemma {:induction false} SameStage(models: seq<Model>, request: Request, stage: nat)
    requires forall m :: Meets(m, request, stage + 1) <==> Meets(m, request, stage)
    ensures Meeting(models, request, stage) == Meeting(models, request, stage + 1)
  {
    hide Meets, Filter;
    FilterSame(models, (m: Model) => Meets(m, request, stage), (m: Model) => Meets(m, request, stage + 1));
  }

  lemma {:induction false} FirstStage(models: seq<Model>, request: Request)
    ensures Meeting(models, request, 1) ==
            if request.profile.Some? then Filter(models, (m: Model) => request.profile.value in m.profiles) else models
  {
    hide Filter;
    if request.profile.Some? {
      FilterSame(models, (m: Model) => request.profile.value in m.profiles, (m: Model) => Meets(m, request, 1));
    } else {
      FilterAll(models, (m: Model) => Meets(m, request, 1));
    }
  }

  lemma {:induction false} AvailableStage(models: seq<Model>, r: Request)
    ensures Meeting(models, r, 2) == Filter(Meeting(models, r, 1), (m: Model) => m.available)
  {
    hide Meeting, Filter;
    NextStage(models, r, 1, (m: Model) => m.available);
  }

  lemma {:induction false} QualityStage(models: seq<Model>, r: Request)
    ensures Meeting(models, r, 3) ==
            if r.minQuality <= 0.0 then Meeting(models, r, 2)
            else Filter(Meeting(models, r, 2), (m: Model) => m.quality >= r.minQuality)
  {
    hide Meeting, Filter;
    if r.minQuality <= 0.0 {
      SameStage(models, r, 2);
    } else {
      NextStage(models, r, 2, (m: Model) => m.quality >= r.minQuality);
    }
  }

  lemma {:induction false} CostStage(models: seq<Model>, r: Request)
    ensures Meeting(models, r, 4) ==
            if r.targetCost.None? then Meeting(models, r, 3)
            else Filter(Meeting(models, r, 3), (m: Model) => m.cost <= r.targetCost.value)
  {
    hide Meeting, Filter;
    if r.targetCost.None? {
      SameStage(models, r, 3);
    } else {
      NextStage(models, r, 3, (m: Model) => m.cost <= r.targetCost.value);
    }
  }

  lemma {:induction false} LatencyStage(models: seq<Model>, r: Request)
    ensures Meeting(models, r, 5) ==
            if r.maxLatency.None? then Meeting(models, r, 4)
            else Filter(Meeting(models, r, 4), (m: Model) => m.latency <= r.maxLatency.value)
  {
    hide Meeting, Filter;
    if r.maxLatency.None? {
      SameStage(models, r, 4);
    } else {
      NextStage(models, r, 4, (m: Model) => m.latency <= r.maxLatency.value);
    }
  }

  lemma {:induction false} LastStage(models: seq<Model>, request: Request, policy: Policy)
    ensures Filter(Meeting(models, request, 5), (m: Model) => policy(request, m.name).allowed) ==
            Filter(models, (m: Model) => Eligible(m, request, policy))
  {
    hide Meets, Filter;
    FilterTwice(models, (m: Model) => Meets(m, request, 5), (m: Model) => policy(request, m.name).allowed,
                (m: Model) => Eligible(m, request, policy));
  }

  /** The governance's loop: models it allows, and a reason for each of the others. */
  method FilterGovernance(candidates: seq<Model>, request: Request, policy: Policy, reasons: seq<Reason>)
    returns (allowed: seq<Model>, more: seq<Reason>)
    ensures allowed == Filter(candidates, (m: Model) => policy(request, m.name).allowed)
    ensures more == reasons + Refused(candidates, request, policy)
  {
    allowed, more := [], reasons;
    for i := 0 to |candidates|
      invariant allowed == Filter(candidates[..i], (m: Model) => policy(request, m.name).allowed)
      invariant more == reasons + Refused(candidates[..i], request, policy)
    {
      assert candidates[..i + 1][..i] == candidates[..i];
      var verdict := policy(request, candidates[i].name);
      if verdict.allowed {
        allowed := allowed + [candidates[i]];
      } else {
        more := more + [Excluded(candidates[i].name, verdict.reasons)];
      }
    }
    assert candidates[..|candidates|] == candidates;
  }

  /** The cascade of filters keeps exactly the eligible models, in registry order, and explains itself. */
  method Shortlist(models: seq<Model>, request: Request, policy: Policy)
    returns (candidates: seq<Model>, reasons: seq<Reason>)
    ensures candidates == Filter(models, (m: Model) => Eligible(m, request, policy))
    ensures reasons == Explanation(models, request, policy)
  {
    hide Filter, Meeting, Meets, Eligible, Refused, Stages;
    var r := request;
    FirstStage(models, r);
    AvailableStage(models, r);
    QualityStage(models, r);
    CostStage(models, r);
    LatencyStage(models, r);
    LastStage(models, r, policy);
    StagesOn(models, r);

    candidates := if r.profile.Some? then Filter(models, (m: Model) => r.profile.value in m.profiles) else models;
    reasons := [Associated(|candidates|, r.profile)];
    assert reasons == Stages(models, r, 1);
    candidates := Filter(candidates, (m: Model) => m.available);
    reasons := reasons + [Available(|candidates|)];
    assert reasons == Stages(models, r, 2);
    if r.minQuality > 0.0 {
      candidates := Filter(candidates, (m: Model) => m.quality >= r.minQuality);
      reasons := reasons + [AboveQuality(|candidates|, r.minQuality)];
    }
    assert candidates == Meeting(models, r, 3) && reasons == Stages(models, r, 3);
    if r.targetCost.Some? {
      candidates := Filter(candidates, (m: Model) => m.cost <= r.targetCost.value);
      reasons := reasons + [UnderCost(|candidates|, r.targetCost.value)];
    }
    assert candidates == Meeting(models, r, 4) && reasons == Stages(models, r, 4);
    if r.maxLatency.Some? {
      candidates := Filter(candidates, (m: Model) => m.latency <= r.maxLatency.value);
      reasons := reasons + [UnderLatency(|candidates|, r.maxLatency.value)];
    }
    assert candidates == Meeting(models, r, 5) && reasons == Stages(models, r, 5);
    candidates, reasons := FilterGovernance(candidates, r, policy, reasons);
  }

  lemma {:induction false} StagesOn(models: seq<Model>, r: Request)
    ensures Stages(models, r, 0) == []
    ensures forall stage: nat ::
            Stages(models, r, stage + 1) == Stages(models, r, stage) + StageReason(models, r, stage + 1)
  {
    hide Meeting;
  }

  predicate Better(a: Model, b: Model) {
    a.quality > b.quality
    || (a.quality == b.quality && (a.cost < b.cost || (a.cost == b.cost && a.latency < b.latency)))
  }

  /** The first of the best candidates. */
  ghost predicate IsChoice(models: seq<Model>, m: Model) {
    exists k :: 0 <= k < |models| && models[k] == m
                && (forall j :: 0 <= j < |models| ==> !Better(models[j], m))
                && (forall j :: 0 <= j < k ==> Better(m, models[j]))
  }

  /** Highest quality, then lowest cost, then lowest latency, then first in the list. */
  lemma {:induction false} ChoiceMeans(models: seq<Model>, m: Model)
    ensures IsChoice(models, m) <==>
            exists k :: 0 <= k < |models| && models[k] == m && forall j :: 0 <= j < |models| && j != k ==>
                          || m.quality > models[j].quality
                          || (m.quality == models[j].quality && m.cost < models[j].cost)
                          || (m.quality == models[j].quality && m.cost == models[j].cost
                              && m.latency < models[j].latency)
                          || (m.quality == models[j].quality && m.cost == models[j].cost
                              && m.latency == models[j].latency && k < j)
  {
  }

  lemma {:induction false} ChoiceIsUnique(models: seq<Model>, a: Model, b: Model)
    requires IsChoice(models, a) && IsChoice(models, b)
    ensures a == b
  {
    var j :| 0 <= j < |models| && models[j] == a && forall i :: 0 <= i < j ==> Better(a, models[i]);
    var k :| 0 <= k < |models| && models[k] == b && forall i :: 0 <= i < k ==> Better(b, models[i]);
  }

  method Choose(models: seq<Model>) returns (best: Model)
    requires models != []
    ensures IsChoice(models, best)
  {
    best := models[0];
    ghost var k := 0;
    for i := 1 to |models|
      invariant 0 <= k < i && models[k] == best
      invariant forall j :: 0 <= j < i ==> !Better(models[j], best)
      invariant forall j :: 0 <= j < k ==> Better(best, models[j])
    {
      if Better(models[i], best) {
        best := models[i];
        k := i;
      }
    }
  }

  // ---------- routing ----------

  class QuotaStore {
    var quotas: map<string, Quota>
    var calls: map<string, seq<real>>
    var now: real

    constructor ()
      ensures quotas == map[] && calls == map[]
    {
      quotas, calls, now := map[], map[], 0.0;
    }

    function CallsOf(firm: string): seq<real>
      reads this
    {
      if firm in calls then calls[firm] else []
    }

    /** In the period that ends at this time, the firm's quota was used up. */
    ghost predicate Full(firm: string, at: real)
      requires firm in quotas
      reads this
    {
      |Since(CallsOf(firm), at - 86400.0 * quotas[firm].periodDays as real)| >= quotas[firm].maxCalls
    }

    method SetQuota(firm: string, quota: Quota)
      modifies this`quotas
      ensures quotas == old(quotas)[firm := quota]
    {
      quotas := quotas[firm := quota];
    }

    /** A reading of the monotonic clock. */
    method Monotonic() returns (time: real)
      modifies this`now
      ensures time == now >= old(now)
    {
      time := *;
      if time < now {
        time := now;
      }
      now := time;
    }

    method RecordCall(firm: string)
      modifies this`calls, this`now
      ensures now >= old(now) && calls == old(calls)[firm := old(CallsOf(firm)) + [now]]
    {
      var time := Monotonic();
      calls := calls[firm := CallsOf(firm) + [time]];
    }

    method CallsInPeriod(firm: string, periodDays: int) returns (count: nat)
      modifies this`now
      ensures now >= old(now) && count == |Since(CallsOf(firm), now - 86400.0 * periodDays as real)|
    {
      hide Since;
      var time := Monotonic();
      var cutoff := time - Seconds(periodDays);
      var timestamps := CallsOf(firm);
      count := 0;
      for i := 0 to |timestamps|
        invariant count == CountSince(timestamps[..i], cutoff)
      {
        assert timestamps[..i + 1][..i] == timestamps[..i];
        if timestamps[i] >= cutoff {
          count := count + 1;
        }
      }
      assert timestamps[..|timestamps|] == timestamps;
      SecondsMean(periodDays);
      SinceCounted(timestamps, cutoff);
    }

    method Check(firm: string) returns (ok: bool)
      modifies this`now
      ensures now >= old(now)
      ensures ok <==> !(firm in quotas && Full(firm, now))
    {
      if firm !in quotas {
        return true;
      }
      var count := CallsInPeriod(firm, quotas[firm].periodDays);
      ok := count < quotas[firm].maxCalls;
    }
  }

  class RouterEngine {
    const models: seq<Model>
    const policy: Policy
    const store: QuotaStore

    constructor (models: seq<Model>, policy: Policy, store: QuotaStore)
      ensures this.models == models && this.policy == policy && this.store == store
    {
      this.models, this.policy, this.store := models, policy, store;
    }

    /** `checked` is the time at which the quota was looked at; the call is recorded at the time the
        method ends with.  Only a routed request records a call, one for its firm; a firm whose calls
        kept within its quota still does. */
    method Route(request: Request) returns (outcome: Outcome, ghost checked: real)
      modifies store`calls, store`now
      ensures old(store.now) <= checked <= store.now
      ensures var eligible := Filter(models, (m: Model) => Eligible(m, request, policy));
              var why := Explanation(models, request, policy);
              match outcome
              case NoEligibleModel(reasons) => eligible == [] && reasons == why
              case QuotaExceeded =>
                eligible != [] && request.firm in store.quotas && old(store.Full(request.firm, checked))
              case Routed(m, reasons) =>
                IsChoice(eligible, m) && reasons == why + [Retained(m)]
                && (request.firm in store.quotas ==> !old(store.Full(request.firm, checked)))
      ensures store.calls ==
              if outcome.Routed? then old(store.calls)[request.firm := old(store.CallsOf(request.firm)) + [store.now]]
              else old(store.calls)
      ensures forall firm :: firm in store.quotas && WithinQuota(old(store.CallsOf(firm)), store.quotas[firm]) ==>
                WithinQuota(store.CallsOf(firm), store.quotas[firm])
    {
      checked := store.now;
      hide Explanation, Eligible, Filter, IsChoice;
      var candidates, reasons := Shortlist(models, request, policy);
      if candidates == [] {
        return NoEligibleModel(reasons), checked;
      }
      var ok := store.Check(request.firm);
      checked := store.now;
      if !ok {
        return QuotaExceeded, checked;
      }
      var best := Choose(candidates);
      store.RecordCall(request.firm);
      outcome := Routed(best, reasons + [Retained(best)]);
      if request.firm in store.quotas && WithinQuota(old(store.CallsOf(request.firm)), store.quotas[request.firm]) {
        AllowsMeans(store.quotas[request.firm], old(store.CallsOf(request.firm)), checked);
        AllowedCallKeepsQuota(store.quotas[request.firm], old(store.CallsOf(request.firm)), checked, store.now);
      }
    }
  }

  // ---------- any sequence of requests ----------

  /** A routed or refused request of a firm, with the two readings of the clock. */
  datatype Event = Event(eligible: bool, checked: real, recorded: real)

  /** The calls recorded for one firm by a sequence of its requests; requests of other firms do not
      touch them. */
  ghost function Recorded(quota: Option<Quota>, events: seq<Event>): seq<real> {
    if events == [] then []
    else
      var calls, e := Recorded(quota, events[..|events| - 1]), events[|events| - 1];
      if e.eligible && Allows(quota, calls, e.checked) then calls + [e.recorded] else calls
  }

  /** With a quota that was set before the first request, no closed window of its length ever holds more
      calls than it allows, whenever the requests came. */
  lemma {:induction false} NoWindowOverflows(quota: Quota, events: seq<Event>)
    requires quota.maxCalls >= 0
    requires forall i :: 0 <= i < |events| ==> events[i].checked <= events[i].recorded
    ensures WithinQuota(Recorded(Some(quota), events), quota)
  {
    if events != [] {
      var n := |events| - 1;
      NoWindowOverflows(quota, events[..n]);
      var calls := Recorded(Some(quota), events[..n]);
      if events[n].eligible && Allows(Some(quota), calls, events[n].checked) {
        AllowedCallKeepsQuota(quota, calls, events[n].checked, events[n].recorded);
      }
    }
  }

  /** A request is refused only while the window that ends with it is full. */
  lemma {:induction false} RefusedOnlyWhenFull(quota: Quota, calls: seq<real>, checked: real)
    requires forall i :: 0 <= i < |calls| ==> calls[i] <= checked
    ensures var width := 86400.0 * quota.periodDays as real;
            Allows(Some(quota), calls, checked) <==> |InWindow(calls, checked - width, width)| < quota.maxCalls
  {
    var width := 86400.0 * quota.periodDays as real;
    SinceIsWindow(calls, checked, width);
    AllowsMeans(quota, calls, checked);
    WindowCounted(calls, checked - width, width);
  }

  lemma {:induction false} SinceIsWindow(calls: seq<real>, now: real, width: real)
    requires forall i :: 0 <= i < |calls| ==> calls[i] <= now
    ensures CountSince(calls, now - width) == CountWindow(calls, now - width, width)
  {
    if calls != [] { SinceIsWindow(calls[..|calls| - 1], now, width); }
  }
}
