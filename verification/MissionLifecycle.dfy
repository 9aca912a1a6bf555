/** The life of a work item, in every run of a well-formed state, also after reruns: which moves the queue
    makes, that finished items are never touched again, and that tries stay within their bound. */
module MissionLifecycle {
  import opened Optional
  import opened MissionModel
  import opened MissionRun

  ghost predicate Settled(item: WorkItem) {
    item.status.Done? || item.status.Failed?
  }

  /** The moves of an item: a waiting item is taken up, which costs an attempt, and may fail at once; an
      item at work is done, with a result, or fails.  A failure leaves it to be retried or failed for good. */
  ghost predicate Moves(a: WorkItem, b: WorkItem) {
    || b == a
    || (&& b == a.(status := b.status, attempts := b.attempts, result := b.result)
        && (Runnable(a) || a.status.Running?)
        && (Runnable(a) ==>
              b.attempts == a.attempts + 1 && b.result == a.result
                  && (b.status.Running? || b.status == AfterFailure(b)))
        && (a.status.Running? ==>
              b.attempts == a.attempts
              && ((b.status.Done? && b.result.Some?) || (b.status == AfterFailure(b) && b.result == a.result))))
  }

  ghost predicate MovesOn(view: seq<WorkItem>, later: seq<WorkItem>) {
    |view| <= |later| && forall p :: 0 <= p < |view| ==> Moves(view[p], later[p])
  }

  lemma {:induction false} ReplacedMoves(view: seq<WorkItem>, p: nat, x: WorkItem, later: seq<WorkItem>)
    requires p < |view| && view[p := x] <= later && Moves(view[p], x)
    ensures MovesOn(view, later)
  {
    hide Moves;
    forall q | 0 <= q < |view| ensures Moves(view[q], later[q]) {
      assert later[q] == view[p := x][q];
      if q != p { MovesNot(view[q]); }
    }
  }

  lemma {:induction false} MovesNot(a: WorkItem)
    ensures Moves(a, a)
  {
  }

  lemma {:induction false} RunItemMoves(env: Env, s: State, i: ItemId)
    requires Wf(s) && s.pc.Top? && i in s.mission.itemIds && Runnable(s.items[i])
    ensures Wf(RunItem(env, s, i)) && MovesOn(Items(s), Items(RunItem(env, s, i)))
  {
    WfHeld(s);
    hide Wf, OwnIds, Measure, RunItem, MovesOn;
    var r := RunItem(env, s, i);
    RunItemShape(env, s, i);
    MeasureUpdated(s, i, r.items[i], r);
    ReplacedMoves(Items(s), Pos(s, i), r.items[i], Items(r));
  }

  lemma {:induction false} StoredMove(s: State, output: Output)
    requires Wf(s) && s.pc.Awaiting?
    ensures var t, p := Stored(s, output), Pos(s, s.pc.item);
            Wf(t) && Items(t) == Items(s)[p := t.items[s.pc.item]] && Moves(Items(s)[p], t.items[s.pc.item])
  {
    WfHeld(s);
    hide Wf, OwnIds, Measure, Stored;
    var i, t := s.pc.item, Stored(s, output);
    StoredShape(s, output);
    MeasureUpdated(s, i, t.items[i], t);
  }

  lemma {:induction false} ReturnedMoves(env: Env, s: State, output: Output)
    requires Wf(s) && s.pc.Awaiting? && env.answer(s.pc.call) == Returned(output)
    ensures Wf(Resume(env, s)) && MovesOn(Items(s), Items(Resume(env, s)))
  {
    var t := Stored(s, output);
    WfHeld(s);
    StoredMove(s, output);
    EnqueueReadyFacts(env, t);
    assert Resume(env, s) == EnqueueReady(env, t);
    WfHeld(EnqueueReady(env, t));
    hide Wf, Held, Stored, Resume, MovesOn, Moves, Measure, EnqueueReady;
    ReplacedMoves(Items(s), Pos(s, s.pc.item), t.items[s.pc.item], Items(EnqueueReady(env, t)));
  }

  lemma {:induction false} PickMoves(env: Env, s: State)
    requires Wf(s) && s.pc.Top?
    ensures Wf(Pick(env, s)) && MovesOn(Items(s), Items(Pick(env, s)))
  {
    var next := Best(s.mission.itemIds, s.items);
    if next.None? {
      assert Wf(Finish(s)) by { PickFacts(env, s); }
      assert Items(Finish(s)) == Items(s);
      AllStay(Items(s));
    } else {
      RunItemMoves(env, s, next.value);
    }
  }

  /** Every stretch of a run moves its items like this and no other way. */
  lemma {:induction false} StepMoves(env: Env, s: State)
    requires Wf(s)
    ensures Wf(Step(env, s)) && MovesOn(Items(s), Items(Step(env, s)))
  {
    WfHeld(s);
    hide Wf, Held, MovesOn, Moves, Pick, Resume;
    match s.pc
    case Finished => AllStay(Items(s));
    case Top => PickMoves(env, s);
    case Awaiting(_, call) =>
      match env.answer(call)
      case Raised(_) =>
      case Returned(output) => ReturnedMoves(env, s, output);
  }

  lemma {:induction false} AllStay(view: seq<WorkItem>)
    ensures MovesOn(view, view)
  {
  }

  lemma {:induction false} StepMoved(env: Env, s: State, n: nat, p: nat) returns (t: State)
    requires Wf(s) && n > 0 && p < |Items(s)|
    ensures Wf(t) && Held(t) && Steps(env, s, n) == Steps(env, t, n - 1)
    ensures p < |Items(t)| && Moves(Items(s)[p], Items(t)[p])
  {
    t := Step(env, s);
    StepMoves(env, s);
    WfHeld(t);
    hide Wf, Held, Step, Moves;
  }

  /** Done and failed are final: however the run goes on, such an item keeps its status, its attempts and
      its result. */
  lemma {:induction false} SettledStays(env: Env, s: State, n: nat, p: nat)
    requires Wf(s) && p < |Items(s)| && Settled(Items(s)[p])
    ensures p < |Items(Steps(env, s, n))| && Items(Steps(env, s, n))[p] == Items(s)[p]
    decreases n
  {
    hide Wf, Held, Step, Steps, View;
    if n == 0 {
      NoSteps(env, s);
    } else {
      WfHeld(s);
      var t := StepMoved(env, s, n, p);
      SettledStays(env, t, n - 1, p);
    }
  }

  /** An item is tried no more often than allowed, waits only while a try is left, and fails for good only
      when none is. */
  ghost predicate WithinBound(item: WorkItem) {
    && item.attempts <= item.maxAttempts
    && (Runnable(item) ==> item.attempts < item.maxAttempts)
    && (item.status.Failed? ==> item.attempts == item.maxAttempts)
  }

  lemma {:induction false} BoundKept(env: Env, s: State, n: nat, p: nat)
    requires Wf(s) && p < |Items(s)| && WithinBound(Items(s)[p])
    ensures p < |Items(Steps(env, s, n))| && WithinBound(Items(Steps(env, s, n))[p])
    decreases n
  {
    hide Wf, Held, Step, Steps, View;
    if n == 0 {
      NoSteps(env, s);
    } else {
      WfHeld(s);
      var t := StepMoved(env, s, n, p);
      BoundKept(env, t, n - 1, p);
    }
  }
}
