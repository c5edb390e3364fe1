/**
 The single-key work queue of the reconciler (pkg/controllers/devicenetwork/devicenetwork.go).
 Client-go's queue is modelled by what it promises: an added key waits while it is being
 processed, and is queued again when the processing is done.
 */
module ReconcileQueue {
  import opened Wrappers

  datatype Event = Changed | Started | Succeeded | Failed

  /** The key is queued; it is dirty, added and not taken since; a worker has it, resolved or not; delayed adds. */
  datatype Queue = Queue(queued: bool, dirty: bool, work: Work, retries: nat, log: seq<Event>)

  datatype Work = Idle | Reconciling | Resolved

  /** Add: nothing for a dirty key; otherwise dirty, and queued unless it is being processed. */
  function Add(q: Queue): Queue {
    if q.dirty then q else q.(dirty := true, queued := q.work.Idle?)
  }

  datatype Step = OnEvent | Get | Succeed | Fail | RetryFires | Done

  predicate Enabled(q: Queue, step: Step) {
    match step
    case OnEvent => true
    case Get => q.queued && q.work.Idle?
    case Succeed => q.work.Reconciling?
    case Fail => q.work.Reconciling?
    case RetryFires => q.retries > 0
    case Done => q.work.Resolved?
  }

  function Take(q: Queue, step: Step): Queue
    requires Enabled(q, step)
  {
    match step
    case OnEvent => Add(q).(log := q.log + [Changed])
    case Get => q.(queued := false, dirty := false, work := Reconciling, log := q.log + [Started])
    case Succeed => q.(work := Resolved, log := q.log + [Succeeded])
    case Fail => q.(work := Resolved, retries := q.retries + 1, log := q.log + [Failed])
    case RetryFires => Add(q.(retries := q.retries - 1))
    case Done => q.(work := Idle, queued := q.dirty)
  }

  const EMPTY: Queue := Queue(false, false, Idle, 0, [])

  function After(steps: seq<Step>): Option<Queue> {
    if steps == [] then Some(EMPTY)
    else
      var n := |steps| - 1;
      match After(steps[..n])
      case None => None
      case Some(q) => if Enabled(q, steps[n]) then Some(Take(q, steps[n])) else None
  }

  // ----- unseen events

  /** Reconcile started at j, and its outcome, the next one after j, is a success. */
  ghost predicate GoodStart(log: seq<Event>, j: nat) {
    j < |log| && log[j].Started? && exists k: nat :: FirstOutcome(log, j, k) && log[k].Succeeded?
  }

  ghost predicate FirstOutcome(log: seq<Event>, j: nat, k: nat) {
    j < k < |log| && (log[k].Succeeded? || log[k].Failed?) && forall m :: j < m < k ==> log[m].Changed?
  }

  /** Some event came after the start of every successful Reconcile. */
  ghost predicate Unseen(log: seq<Event>) {
    exists i: nat :: i < |log| && log[i].Changed? && forall j: nat :: GoodStart(log, j) ==> j < i
  }

  /** The key will be, or is being, reconciled. */
  predicate Cared(q: Queue) { q.queued || q.retries > 0 || q.work.Reconciling? || (q.dirty && q.work.Resolved?) }

  // ----- the invariant

  /** The last Reconcile that was started. */
  function LastStart(log: seq<Event>): (s: Option<nat>)
    ensures s.Some? ==> s.value < |log| && log[s.value].Started? && forall i :: s.value < i < |log| ==> !log[i].Started?
    ensures s.None? ==> forall i :: 0 <= i < |log| ==> !log[i].Started?
  {
    if log == [] then None
    else if log[|log| - 1].Started? then Some(|log| - 1)
    else LastStart(log[..|log| - 1])
  }

  /** The last Reconcile is over, and a failed one is going to be retried. */
  ghost predicate Over(q: Queue, s: nat) {
    exists k: nat :: FirstOutcome(q.log, s, k) && (q.log[k].Failed? ==> q.dirty || q.retries > 0)
  }

  ghost predicate Inv(q: Queue) {
    (q.queued <==> q.dirty && q.work.Idle?) &&
    // a clean key: every event came before the last start
    (!q.dirty ==> forall i: nat :: i < |q.log| && q.log[i].Changed? ==>
        LastStart(q.log).Some? && i < LastStart(q.log).value) &&
    (q.work.Reconciling? ==>
       LastStart(q.log).Some? && forall i :: LastStart(q.log).value < i < |q.log| ==> q.log[i].Changed?) &&
    (!q.work.Reconciling? && LastStart(q.log).Some? ==> Over(q, LastStart(q.log).value))
  }

  lemma LastStartKept(log: seq<Event>, e: Event)
    requires !e.Started?
    ensures LastStart(log + [e]) == LastStart(log)
  {
    assert (log + [e])[..|log|] == log;
  }

  lemma OverKept(q: Queue, q': Queue, s: nat)
    requires Over(q, s) && q.log <= q'.log && (q.dirty || q.retries > 0 ==> q'.dirty || q'.retries > 0)
    ensures Over(q', s)
  {
    var k: nat :| FirstOutcome(q.log, s, k) && (q.log[k].Failed? ==> q.dirty || q.retries > 0);
    assert FirstOutcome(q'.log, s, k);
  }

  lemma OutcomeKeepsInv(q: Queue, step: Step)
    requires Inv(q) && Enabled(q, step) && (step.Succeed? || step.Fail?)
    ensures Inv(Take(q, step))
  {
    LastStartKept(q.log, if step.Succeed? then Succeeded else Failed);
    assert FirstOutcome(Take(q, step).log, LastStart(q.log).value, |q.log|);
  }

  lemma EventKeepsInv(q: Queue)
    requires Inv(q)
    ensures Inv(Take(q, OnEvent))
  {
    var s := LastStart(q.log);
    LastStartKept(q.log, Changed);
    if !q.work.Reconciling? && s.Some? { OverKept(q, Take(q, OnEvent), s.value); }
  }

  lemma StepKeepsInv(q: Queue, step: Step)
    requires Inv(q) && Enabled(q, step)
    ensures Inv(Take(q, step))
  {
    match step
    case Get =>
    case Succeed => OutcomeKeepsInv(q, step);
    case Fail => OutcomeKeepsInv(q, step);
    case OnEvent => EventKeepsInv(q);
    case _ =>
      var s := LastStart(q.log);
      if !q.work.Reconciling? && s.Some? { OverKept(q, Take(q, step), s.value); }
  }

  lemma {:induction false} ReachableHasInv(steps: seq<Step>)
    requires After(steps).Some?
    ensures Inv(After(steps).value)
  {
    if steps != [] {
      var n := |steps| - 1;
      ReachableHasInv(steps[..n]);
      StepKeepsInv(After(steps[..n]).value, steps[n]);
    }
  }

  /** When nothing is to come, the last Reconcile was a success and every event came before its start. */
  lemma NothingToComeMeansSeen(q: Queue, i: nat) returns (s: nat)
    requires Inv(q) && !Cared(q) && i < |q.log| && q.log[i].Changed?
    ensures GoodStart(q.log, s) && i < s
  {
    s := LastStart(q.log).value;
    var k: nat :| FirstOutcome(q.log, s, k) && (q.log[k].Failed? ==> q.dirty || q.retries > 0);
  }

  lemma UnseenIsCared(q: Queue)
    requires Inv(q) && Unseen(q.log)
    ensures Cared(q)
  {
    if !Cared(q) {
      var i: nat :| i < |q.log| && q.log[i].Changed? && forall j: nat :: GoodStart(q.log, j) ==> j < i;
      var s := NothingToComeMeansSeen(q, i);
    }
  }

  /**
   No lost reconcile: whatever events, workers, failures and retries interleave, as long as an event
   has occurred since the start of the last successful Reconcile the key is queued, awaiting a retry,
   being reconciled, or about to be queued again.
   */
  lemma NoLostReconcile(steps: seq<Step>)
    requires After(steps).Some? && Unseen(After(steps).value.log)
    ensures Cared(After(steps).value)
  {
    ReachableHasInv(steps);
    UnseenIsCared(After(steps).value);
  }

  // ----- the controller

  /** Get, an outcome and Done in a row. */
  function AfterWorkItem(q: Queue, reconciles: bool): Queue
    requires q.queued && q.work.Idle?
  {
    Take(Take(Take(q, Get), if reconciles then Succeed else Fail), Done)
  }

  lemma {:induction false} WorkItemKeepsInv(q: Queue, reconciles: bool)
    requires Inv(q) && q.queued && q.work.Idle?
    ensures Inv(AfterWorkItem(q, reconciles))
    ensures if reconciles then !Unseen(AfterWorkItem(q, reconciles).log) else Cared(AfterWorkItem(q, reconciles))
  {
    var taken := Take(q, Get);
    var resolved := Take(taken, if reconciles then Succeed else Fail);
    StepKeepsInv(q, Get);
    StepKeepsInv(taken, if reconciles then Succeed else Fail);
    StepKeepsInv(resolved, Done);
    if reconciles { SuccessSeesAll(q.log); }
  }

  /** A Reconcile without events during it leaves none unseen. */
  lemma {:induction false} SuccessSeesAll(log: seq<Event>)
    ensures !Unseen(log + [Started] + [Succeeded])
  {
    var log' := log + [Started] + [Succeeded];
    assert FirstOutcome(log', |log|, |log| + 1);
    assert GoodStart(log', |log|);
  }

  /** The handlers and the worker of the controller, each as one uninterrupted call. */
  class Controller {
    var q: Queue

    constructor ()
      ensures Valid() && q == EMPTY
    {
      q := EMPTY;
    }

    /** What every interleaving keeps. */
    ghost predicate Valid()
      reads this
    {
      Inv(q)
    }

    /** After an event the key is cared for, whatever the worker is at. */
    method OnEvent()
      requires Valid()
      modifies this
      ensures Valid() && q == Take(old(q), Step.OnEvent) && Cared(q)
    {
      EventKeepsInv(q);
      if !q.dirty {
        q := q.(dirty := true, queued := q.work.Idle?);
      }
      q := q.(log := q.log + [Changed]);
    }

    /**
     processNextWorkItem: takes the key, reconciles, forgets it or adds it for a retry, and is done with
     it. A successful call leaves no event unseen, a failing one leaves the key cared for.
     */
    method ProcessNextWorkItem(reconciles: bool)
      requires Valid() && q.queued && q.work.Idle?
      modifies this
      ensures Valid() && q == AfterWorkItem(old(q), reconciles)
      ensures if reconciles then !Unseen(q.log) else Cared(q)
      ensures q.retries == if reconciles then old(q).retries else old(q).retries + 1
      ensures reconciles && q.retries == 0 ==> !Cared(q)
    {
      WorkItemKeepsInv(q, reconciles);
      q := q.(queued := false, dirty := false, work := Reconciling, log := q.log + [Started]);
      if reconciles {
        q := q.(work := Resolved, log := q.log + [Succeeded]);
      } else {
        q := q.(work := Resolved, retries := q.retries + 1, log := q.log + [Failed]);
      }
      q := q.(work := Idle, queued := q.dirty);
    }

    /** The delayed add of a failed item. */
    method Retry()
      requires Valid() && q.retries > 0
      modifies this
      ensures Valid() && q == Take(old(q), RetryFires) && Cared(q)
    {
      StepKeepsInv(q, RetryFires);
      q := q.(retries := q.retries - 1);
      if !q.dirty {
        q := q.(dirty := true, queued := q.work.Idle?);
      }
    }

    /** Whether nothing is to come, which is so only when every event has been seen. */
    method IsSettled() returns (settled: bool)
      requires Valid()
      ensures settled <==> !Cared(q)
      ensures settled ==> !Unseen(q.log)
    {
      settled := !q.queued && q.retries == 0 && !q.work.Reconciling? && !(q.dirty && q.work.Resolved?);
      if !Cared(q) && Unseen(q.log) { UnseenIsCared(q); }
    }
  }
}
