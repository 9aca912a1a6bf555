/** Human validation requests: decisions are only ever appended, and the status is recomputed from the
    whole history after each. */
module HumanValidation {

  datatype Mode = Simple | Multiple | Hierarchical

  datatype Status = Pending | Approved | RevisionRequested | Rejected

  datatype Decision = Approve | Reject | RequestRevision

  datatype Entry = Entry(approver: string, decision: Decision, tier: nat)

  type Tiers = seq<seq<string>>

  // ---------- the pure part of the engine ----------

  function Approvers(history: seq<Entry>, tier: nat): set<string> {
    set i | 0 <= i < |history| && history[i].tier == tier && history[i].decision == Approve :: history[i].approver
  }

  function Names(approvers: seq<string>): set<string> {
    set i | 0 <= i < |approvers| :: approvers[i]
  }

  predicate TierIsApproved(approvers: seq<string>, tier: nat, history: seq<Entry>, mode: Mode) {
    if mode == Multiple then Names(approvers) <= Approvers(history, tier)
    else Approvers(history, tier) != {}
  }

  /** The first tier from `t` on that is not approved, or the number of tiers. */
  function FirstOpen(tiers: Tiers, history: seq<Entry>, mode: Mode, t: nat): (r: nat)
    requires t <= |tiers|
    ensures t <= r <= |tiers|
    ensures forall k :: t <= k < r ==> TierIsApproved(tiers[k], k, history, mode)
    ensures r < |tiers| ==> !TierIsApproved(tiers[r], r, history, mode)
    decreases |tiers| - t
  {
    if t == |tiers| || !TierIsApproved(tiers[t], t, history, mode) then t
    else FirstOpen(tiers, history, mode, t + 1)
  }

  function StatusOf(tiers: Tiers, history: seq<Entry>, mode: Mode): Status {
    if exists i :: 0 <= i < |history| && history[i].decision == Reject then Rejected
    else if exists i :: 0 <= i < |history| && history[i].decision == RequestRevision then RevisionRequested
    else if FirstOpen(tiers, history, mode, 0) < |tiers| then Pending
    else Approved
  }

  function CurrentTier(tiers: Tiers, history: seq<Entry>, mode: Mode): nat {
    var open := FirstOpen(tiers, history, mode, 0);
    if open < |tiers| then open else if |tiers| == 0 then 0 else |tiers| - 1
  }

  // ---------- the request object ----------

  class ValidationRequest {
    const firm: string
    const tiers: Tiers
    const mode: Mode
    var status: Status
    var history: seq<Entry>

    constructor (firm: string, tiers: Tiers, mode: Mode)
      ensures this.firm == firm && this.tiers == tiers && this.mode == mode && status == Pending && history == []
    {
      this.firm, this.tiers, this.mode, status, history := firm, tiers, mode, Pending, [];
    }

    method TierIndex() returns (tier: nat)
      ensures tier == CurrentTier(tiers, history, mode)
    {
      for t := 0 to |tiers|
        invariant FirstOpen(tiers, history, mode, 0) == FirstOpen(tiers, history, mode, t)
      {
        if !TierIsApproved(tiers[t], t, history, mode) {
          return t;
        }
      }
      tier := if |tiers| == 0 then 0 else |tiers| - 1;
    }

    method Recompute() returns (s: Status)
      ensures s == StatusOf(tiers, history, mode)
    {
      if exists i :: 0 <= i < |history| && history[i].decision == Reject {
        return Rejected;
      }
      if exists i :: 0 <= i < |history| && history[i].decision == RequestRevision {
        return RevisionRequested;
      }
      for t := 0 to |tiers|
        invariant FirstOpen(tiers, history, mode, 0) == FirstOpen(tiers, history, mode, t)
      {
        if !TierIsApproved(tiers[t], t, history, mode) {
          return Pending;
        }
      }
      s := Approved;
    }

    /** One more decision, in the first tier that is still open. */
    method Append(approver: string, decision: Decision)
      modifies this
      ensures history == Decided(tiers, mode, old(history), approver, decision)
      ensures status == StatusOf(tiers, history, mode)
    {
      var tier := TierIndex();
      history := history + [Entry(approver, decision, tier)];
      status := Recompute();
    }
  }

  class HumanValidationEngine {
    var requests: map<string, ValidationRequest>

    /** Stored histories came about by deciding, and stored statuses are up to date once there is a decision. */
    ghost predicate Valid()
      reads this, requests.Values
    {
      forall k :: k in requests ==>
        var r := requests[k];
        IsRun(r.tiers, r.mode, r.history)
            && r.status == if r.history == [] then Pending else StatusOf(r.tiers, r.history, r.mode)
    }

    constructor ()
      ensures Valid() && requests == map[]
    {
      requests := map[];
    }

    /** `id` stands for the random identifier of the new request. */
    method Request(id: string, firm: string, tiers: Tiers, mode: Mode) returns (r: ValidationRequest)
      requires Valid() && id !in requests
      modifies this
      ensures Valid() && fresh(r) && requests == old(requests)[id := r]
      ensures r.firm == firm && r.tiers == tiers && r.mode == mode && r.status == Pending && r.history == []
    {
      r := new ValidationRequest(firm, tiers, mode);
      requests := requests[id := r];
    }

    /** Records a decision; a request that does not exist, or not for this firm, is left alone. */
    method Decide(firm: string, id: string, approver: string, decision: Decision) returns (found: bool)
      requires Valid()
      modifies if id in requests then {requests[id]} else {}
      ensures Valid() && requests == old(requests)
      ensures found <==> id in requests && requests[id].firm == firm
      ensures found ==>
                var r := requests[id];
                && |r.history| == |old(r.history)| + 1 && old(r.history) <= r.history
                && r.history[|old(r.history)|].approver == approver && r.history[|old(r.history)|].decision == decision
                && IsNextTier(r.tiers, r.mode, old(r.history), r.history[|old(r.history)|].tier)
                && Rank(old(r.status)) <= Rank(r.status)
      ensures found ==>
                var r := requests[id];
                && (r.status == Rejected <==> exists i :: 0 <= i < |r.history| && r.history[i].decision == Reject)
                && (r.status == RevisionRequested <==>
                      && (exists i :: 0 <= i < |r.history| && r.history[i].decision == RequestRevision)
                      && (forall i :: 0 <= i < |r.history| ==> r.history[i].decision != Reject))
                && ((r.mode != Hierarchical ==> |r.tiers| == 1) ==>
                      && (r.status == Approved <==> NoObjection(r.history) && Agreed(r.tiers, r.mode, r.history))
                      && (r.status == Pending <==> NoObjection(r.history) && !Agreed(r.tiers, r.mode, r.history)))
      ensures !found && id in requests
              ==> requests[id].history == old(requests[id].history) && requests[id].status == old(requests[id].status)
    {
      if id !in requests || requests[id].firm != firm {
        return false;
      }
      var r := requests[id];
      ghost var before := r.history;
      r.Append(approver, decision);
      found := true;
      DecidedIsRun(r.tiers, r.mode, before, approver, decision);
      assert r.history[..|before|] == before;
      StatusOnlyClimbs(r.tiers, r.mode, r.history, |before|);
      CurrentTierIsNext(r.tiers, r.mode, before);
      ObjectionsDecide(r.tiers, r.mode, r.history);
      if r.mode != Hierarchical ==> |r.tiers| == 1 {
        ApprovedIff(r.tiers, r.mode, r.history);
        PendingIff(r.tiers, r.mode, r.history);
      }
    }
  }

  // ---------- every run ----------

  function Decided(tiers: Tiers, mode: Mode, history: seq<Entry>, approver: string, decision: Decision): seq<Entry> {
    history + [Entry(approver, decision, CurrentTier(tiers, history, mode))]
  }

  /** Histories that come about by deciding, one decision at a time. */
  ghost predicate IsRun(tiers: Tiers, mode: Mode, history: seq<Entry>) {
    forall n :: 0 <= n < |history| ==> history[n].tier == CurrentTier(tiers, history[..n], mode)
  }

  lemma {:induction false} DecidedIsRun(tiers: Tiers, mode: Mode, history: seq<Entry>, approver: string,
                                        decision: Decision)
    requires IsRun(tiers, mode, history)
    ensures IsRun(tiers, mode, Decided(tiers, mode, history, approver, decision))
  {
    var later := Decided(tiers, mode, history, approver, decision);
    forall n | 0 <= n < |later| ensures later[n].tier == CurrentTier(tiers, later[..n], mode) {
      if n < |history| { assert later[..n] == history[..n]; } else { assert later[..n] == history; }
    }
  }

  lemma {:induction false} MoreApprovals(history: seq<Entry>, n: nat, tier: nat)
    requires n <= |history|
    ensures Approvers(history[..n], tier) <= Approvers(history, tier)
  {
    forall a | a in Approvers(history[..n], tier) ensures a in Approvers(history, tier) {
      var i :| 0 <= i < n && history[..n][i].tier == tier && history[..n][i].decision == Approve
          && history[..n][i].approver == a;
      assert history[i].approver == a;
    }
  }

  /** Approval of a tier is never lost. */
  lemma {:induction false} OpenNeverFalls(tiers: Tiers, mode: Mode, history: seq<Entry>, n: nat)
    requires n <= |history|
    ensures FirstOpen(tiers, history[..n], mode, 0) <= FirstOpen(tiers, history, mode, 0)
  {
    var open := FirstOpen(tiers, history, mode, 0);
    if open < |tiers| { MoreApprovals(history, n, open); }
    forall t | 0 <= t < |tiers| && TierIsApproved(tiers[t], t, history[..n], mode)
        ensures TierIsApproved(tiers[t], t, history, mode) {
      MoreApprovals(history, n, t);
    }
  }

  /** The tiers in the history of a request never decrease. */
  lemma {:induction false} TiersNeverDecrease(tiers: Tiers, mode: Mode, history: seq<Entry>, i: nat, j: nat)
    requires IsRun(tiers, mode, history) && i <= j < |history|
    ensures history[i].tier <= history[j].tier
  {
    assert history[..j][..i] == history[..i];
    OpenNeverFalls(tiers, mode, history[..j], i);
  }

  function Rank(s: Status): nat {
    match s
    case Pending => 0
    case Approved => 1
    case RevisionRequested => 2
    case Rejected => 3
  }

  /** Later decisions only ever raise the status: pending, approved, revision requested, rejected. */
  lemma {:induction false} StatusOnlyClimbs(tiers: Tiers, mode: Mode, history: seq<Entry>, n: nat)
    requires n <= |history|
    ensures Rank(StatusOf(tiers, history[..n], mode)) <= Rank(StatusOf(tiers, history, mode))
  {
    OpenNeverFalls(tiers, mode, history, n);
    forall i | 0 <= i < n ensures history[..n][i] == history[i] {}
  }

  ghost predicate NoObjection(history: seq<Entry>) {
    forall i :: 0 <= i < |history| ==> history[i].decision == Approve
  }

  /** Without objections the n-th approval of a tiered request goes to tier n, as long as there is one. */
  lemma {:induction false} ApprovalsClimbTiers(tiers: Tiers, mode: Mode, history: seq<Entry>)
    requires IsRun(tiers, mode, history) && NoObjection(history) && mode != Multiple
    ensures FirstOpen(tiers, history, mode, 0) == if |history| <= |tiers| then |history| else |tiers|
  {
    hide IsRun, FirstOpen, TierIsApproved, Approvers;
    if history == [] {
      NothingApproved(tiers, mode);
    } else {
      var n := |history| - 1;
      PrefixIsRun(tiers, mode, history, n);
      ApprovalsClimbTiers(tiers, mode, history[..n]);
      OpenNeverFalls(tiers, mode, history, n);
      if n < |tiers| { LastApproves(tiers, mode, history); }
    }
  }

  lemma {:induction false} NothingApproved(tiers: Tiers, mode: Mode)
    requires mode != Multiple
    ensures FirstOpen(tiers, [], mode, 0) == 0
  {
    if tiers != [] {
      assert Approvers([], 0) == {};
      assert !TierIsApproved(tiers[0], 0, [], mode);
    }
  }

  lemma {:induction false} PrefixIsRun(tiers: Tiers, mode: Mode, history: seq<Entry>, n: nat)
    requires IsRun(tiers, mode, history) && n <= |history|
    ensures IsRun(tiers, mode, history[..n])
    ensures n < |history| ==> history[n].tier == CurrentTier(tiers, history[..n], mode)
  {
    hide CurrentTier;
    forall k | 0 <= k < n ensures history[..n][k].tier == CurrentTier(tiers, history[..n][..k], mode) {
      assert history[..n][..k] == history[..k];
    }
  }

  /** The last approval is for the first open tier and opens no tier beyond the next. */
  lemma {:induction false} LastApproves(tiers: Tiers, mode: Mode, history: seq<Entry>)
    requires IsRun(tiers, mode, history) && NoObjection(history) && mode != Multiple && history != []
             && |history| <= |tiers|
    requires FirstOpen(tiers, history[..|history| - 1], mode, 0) == |history| - 1
    requires FirstOpen(tiers, history, mode, 0) >= |history| - 1
    ensures FirstOpen(tiers, history, mode, 0) == |history|
  {
    var n, open := |history| - 1, FirstOpen(tiers, history, mode, 0);
    PrefixIsRun(tiers, mode, history, n);
    assert history[n].tier == n;
    hide IsRun, FirstOpen;
    assert history[n].approver in Approvers(history, n);
    assert TierIsApproved(tiers[n], n, history, mode);
    if open > n + 1 {
      assert TierIsApproved(tiers[n + 1], n + 1, history, mode);
      var a :| a in Approvers(history, n + 1);
      var i :| 0 <= i < |history| && history[i].tier == n + 1 && history[i].approver == a;
      TiersNeverDecrease(tiers, mode, history, i, n);
      assert false;
    }
  }

  /** As many decisions as tiers, or, if all named approvers must agree, one by each of them. */
  ghost predicate Agreed(tiers: Tiers, mode: Mode, history: seq<Entry>)
    requires mode == Multiple ==> |tiers| == 1
  {
    if mode == Multiple then forall a :: a in tiers[0] ==> exists i :: 0 <= i < |history| && history[i].approver == a
    else |history| >= |tiers|
  }

  /** A single rejection rejects; otherwise a single request for a revision asks for one. */
  lemma {:induction false} ObjectionsDecide(tiers: Tiers, mode: Mode, history: seq<Entry>)
    ensures StatusOf(tiers, history, mode) == Rejected <==>
            exists i :: 0 <= i < |history| && history[i].decision == Reject
    ensures StatusOf(tiers, history, mode) == RevisionRequested <==>
            && (exists i :: 0 <= i < |history| && history[i].decision == RequestRevision)
            && (forall i :: 0 <= i < |history| ==> history[i].decision != Reject)
  {
    hide FirstOpen;
  }

  /** A decided request is pending as long as nobody objects and not enough have agreed. */
  lemma {:induction false} PendingIff(tiers: Tiers, mode: Mode, history: seq<Entry>)
    requires IsRun(tiers, mode, history) && history != [] && (mode != Hierarchical ==> |tiers| == 1)
    ensures StatusOf(tiers, history, mode) == Pending <==> NoObjection(history) && !Agreed(tiers, mode, history)
  {
    ApprovedIff(tiers, mode, history);
    ObjectionsDecide(tiers, mode, history);
    hide StatusOf, Agreed, IsRun;
    if !NoObjection(history) {
      var i :| 0 <= i < |history| && history[i].decision != Approve;
      assert history[i].decision == Reject || history[i].decision == RequestRevision;
    }
  }

  /** Somebody approved in this tier, or, if all named approvers must agree, each of the tier's did. */
  ghost predicate ApprovedIn(tiers: Tiers, mode: Mode, history: seq<Entry>, t: nat)
    requires t < |tiers|
  {
    if mode == Multiple then
      forall a :: a in tiers[t] ==> exists i :: ApprovesIn(history, i, t) && history[i].approver == a
    else exists i :: ApprovesIn(history, i, t)
  }

  ghost predicate ApprovesIn(history: seq<Entry>, i: int, t: nat) {
    0 <= i < |history| && history[i].tier == t && history[i].decision == Approve
  }

  /** The first tier not approved yet, or the last tier, or zero if there is none. */
  ghost predicate IsNextTier(tiers: Tiers, mode: Mode, history: seq<Entry>, t: nat) {
    || (t < |tiers| && !ApprovedIn(tiers, mode, history, t)
        && forall k :: 0 <= k < t ==> ApprovedIn(tiers, mode, history, k))
    || ((forall k :: 0 <= k < |tiers| ==> ApprovedIn(tiers, mode, history, k))
        && t == if tiers == [] then 0 else |tiers| - 1)
  }

  lemma {:induction false} TierMeans(tiers: Tiers, mode: Mode, history: seq<Entry>, t: nat)
    requires t < |tiers|
    ensures TierIsApproved(tiers[t], t, history, mode) <==> ApprovedIn(tiers, mode, history, t)
  {
    forall a ensures a in Names(tiers[t]) <==> a in tiers[t] {}
    forall a ensures a in Approvers(history, t) <==> exists i :: ApprovesIn(history, i, t) && history[i].approver == a {
      if i :| ApprovesIn(history, i, t) && history[i].approver == a { assert history[i].approver == a; }
    }
    if i :| ApprovesIn(history, i, t) { assert history[i].approver in Approvers(history, t); }
  }

  lemma {:induction false} CurrentTierIsNext(tiers: Tiers, mode: Mode, history: seq<Entry>)
    ensures IsNextTier(tiers, mode, history, CurrentTier(tiers, history, mode))
  {
    forall t: nat | t < |tiers|
      ensures TierIsApproved(tiers[t], t, history, mode) <==> ApprovedIn(tiers, mode, history, t)
    {
      TierMeans(tiers, mode, history, t);
    }
    hide TierIsApproved, ApprovedIn;
  }

  /** When a request with at least one decision is approved: nobody objected, and there are as many
      approvals as tiers, or, if all named approvers must agree, each of them has approved. */
  lemma {:induction false} ApprovedIff(tiers: Tiers, mode: Mode, history: seq<Entry>)
    requires IsRun(tiers, mode, history) && history != [] && (mode != Hierarchical ==> |tiers| == 1)
    ensures StatusOf(tiers, history, mode) == Approved <==>
            NoObjection(history) && Agreed(tiers, mode, history)
  {
    if NoObjection(history) {
      if mode == Multiple {
        SingleTier(tiers, history);
      } else {
        ApprovalsClimbTiers(tiers, mode, history);
      }
    } else {
      var i :| 0 <= i < |history| && history[i].decision != Approve;
      assert history[i].decision == Reject || history[i].decision == RequestRevision;
    }
  }

  /** With one tier every decision is made in it, so the approvers are those of the history. */
  lemma {:induction false} SingleTier(tiers: Tiers, history: seq<Entry>)
    requires IsRun(tiers, Multiple, history) && NoObjection(history) && |tiers| == 1
    ensures TierIsApproved(tiers[0], 0, history, Multiple) <==>
            forall a :: a in tiers[0] ==> exists i :: 0 <= i < |history| && history[i].approver == a
    ensures FirstOpen(tiers, history, Multiple, 0) == if TierIsApproved(tiers[0], 0, history, Multiple) then 1 else 0
  {
    forall i | 0 <= i < |history| ensures history[i].tier == 0 {
      assert FirstOpen(tiers, history[..i], Multiple, 0) <= 1;
    }
    var approvers := Approvers(history, 0);
    forall a ensures a in approvers <==> exists i :: 0 <= i < |history| && history[i].approver == a {
      if i :| 0 <= i < |history| && history[i].approver == a {
        assert history[i].tier == 0 && history[i].decision == Approve;
      }
    }
    forall a ensures a in Names(tiers[0]) <==> a in tiers[0] {}
  }

  /** A new request is pending without any recomputation.  The recomputation agrees exactly if there is
      somebody to wait for: a tier, and where all named approvers must agree, a named approver. */
  lemma {:induction false} NewRequestIsPendingIff(tiers: Tiers, mode: Mode)
    requires mode != Hierarchical ==> |tiers| == 1
    ensures StatusOf(tiers, [], mode) == Pending <==> tiers != [] && (mode == Multiple ==> tiers[0] != [])
  {
    if mode == Multiple && tiers[0] != [] {
      assert tiers[0][0] in Names(tiers[0]);
    }
    assert forall t :: Approvers([], t) == {};
  }
}
