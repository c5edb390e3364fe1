/** The process map over whole behaviors: every process built is handed out to one hook at most, and none is lost. */
module ProcessHandOut {
  import opened Wrappers
  import opened ProcessMachine
  import opened ProcessGuarantees
  import opened ProcessPods

  /** A StartContainer that passes, or a RemovePodSandbox back from terminate, takes its process out of the map. */
  predicate HandsOut(s: State, e: Event) {
    (e.Passed? && e.who < |s.threads| && s.threads[e.who].call.StartContainer?) ||
    (e.Terminated? && e.who < |s.threads| && s.threads[e.who].call.RemovePodSandbox?)
  }

  /** The process was handed out in this part of the log. */
  ghost predicate HandedOut(s: State, log: seq<Event>, p: Pid) { exists e :: e in log && HandsOut(s, e) && e.p == p }

  /** The pod was sandboxed again after p was built. */
  ghost predicate Superseded(log: seq<Event>, p: Pid, pod: string) { exists q :: p < q && BuiltFor(log, q, pod) }

  /** The process that the map holds for a call's pod is p. */
  predicate Maps(s: State, T: Thread, p: Pid) { LooksUpPod(T.call) && T.call.pod in s.pods && s.pods[T.call.pod] == p }

  ghost predicate Injective(s: State) {
    forall a, b :: a in s.pods && b in s.pods && s.pods[a] == s.pods[b] ==> a == b
  }

  /** A hook at work on a process still has it in the map, also when it has been handed out and is to be deleted. */
  ghost predicate IsMapped(s: State, T: Thread) {
    (HasFound(T) ==> Maps(s, T, T.pc.p)) &&
    (T.pc.PDelete? ==> LooksUpPod(T.call) && T.call.pod in s.pods && HandedOut(s, s.log, s.pods[T.call.pod]))
  }

  ghost predicate FoundIsMapped(s: State) {
    forall t :: 0 <= t < |s.threads| ==> IsMapped(s, s.threads[t])
  }

  /** A process that was handed out is in the map only until the hook that has it deletes it. */
  ghost predicate OutIsDeleted(s: State) {
    forall e :: e in s.log && HandsOut(s, e) ==>
      e.p < |s.procs| &&
      (e.p in s.pods.Values ==> s.threads[e.who].pc.PDelete? && Maps(s, s.threads[e.who], e.p))
  }

  ghost predicate OutOnce(s: State) {
    forall j, k :: 0 <= j < k < |s.log| && HandsOut(s, s.log[j]) && HandsOut(s, s.log[k]) ==> s.log[j].p != s.log[k].p
  }

  predicate InMap(s: State, p: Pid, pod: string) { pod in s.pods && s.pods[pod] == p }

  ghost predicate Accounted(s: State) {
    forall p, pod :: BuiltFor(s.log, p, pod) ==> InMap(s, p, pod) || HandedOut(s, s.log, p) || Superseded(s.log, p, pod)
  }

  /** The map has the newest process of a pod. */
  ghost predicate Newest(s: State) {
    forall pod, q :: pod in s.pods && BuiltFor(s.log, q, pod) ==> q <= s.pods[pod]
  }

  /** A hook of the pod finds nothing, or takes the process it has found out of the map. */
  predicate Settles(s: State, e: Event, pod: string) {
    (e.LookedUp? && e.found.None? && e.pod == pod) ||
    (HandsOut(s, e) && PodOf(s.threads[e.who].call) == {pod})
  }

  /** When it does, every process built for the pod is the one it takes, or was handed out, or superseded, before. */
  ghost predicate SettledAt(s: State, k: int)
    requires 0 <= k < |s.log|
  {
    forall p, pod :: Settles(s, s.log[k], pod) && BuiltFor(s.log[..k], p, pod) ==>
      (HandsOut(s, s.log[k]) && s.log[k].p == p) || HandedOut(s, s.log[..k], p) || Superseded(s.log[..k], p, pod)
  }

  ghost predicate Settled(s: State) { forall k :: 0 <= k < |s.log| ==> SettledAt(s, k) }

  ghost predicate MapInv(s: State) { Injective(s) && FoundIsMapped(s) && OutIsDeleted(s) && OutOnce(s) }

  ghost predicate AccountInv(s: State) { Accounted(s) && Newest(s) && Settled(s) }

  // ----- what one step does to the map

  ghost predicate ChangesMap(s: State, t: Tid, e: Effect)
    requires t < |s.threads|
  {
    var T := s.threads[t];
    (|| e.pods == s.pods
     || (T.pc.PDelete? && e.pods == s.pods - PodOf(T.call))
     || (HoldsPlugin(T) && T.call.RunPodSandbox? && e.pods == s.pods[T.call.pod := |s.procs|] &&
         e.write == Build(T.call.claims))) &&
    (e.write.Build? ==> T.call.RunPodSandbox? && e.pods == s.pods[T.call.pod := |s.procs|]) &&
    (T.pc.PDelete? ==> e.pods == s.pods - PodOf(T.call))
  }

  /** A hook finds its process in the map, hands it out when it goes on to delete it, and only then. */
  ghost predicate TakesFromMap(s: State, t: Tid, e: Effect)
    requires t < |s.threads|
  {
    var T, T' := s.threads[t], s.threads[t].(pc := e.pc);
    (HasFound(T') ==> e.pods == s.pods && ((HasFound(T) && e.pc.p == T.pc.p) || Maps(s, T, e.pc.p))) &&
    (e.pc.PDelete? ==>
       HasFound(T) && e.pods == s.pods && |e.events| == 1 && HandsOut(s, e.events[0]) && e.events[0].p == T.pc.p) &&
    (|e.events| == 1 && HandsOut(s, e.events[0]) ==>
        e.pc.PDelete? && HasFound(T) && e.events[0].p == T.pc.p && e.events[0].who == t)
  }

  lemma {:induction false} StepChangesMap(s: State, t: Tid, ok: bool)
    requires Enabled(s, t) && Shape(s, s.threads[t])
    ensures ChangesMap(s, t, StepOf(s, t, ok))
  {
  }

  lemma {:induction false} HookTakesFromMap(s: State, t: Tid)
    requires Enabled(s, t) && Shape(s, s.threads[t]) && InHook(s.threads[t].pc)
    ensures TakesFromMap(s, t, HookStep(s, t, s.threads[t]))
  {
  }

  lemma {:induction false} StepTakesFromMap(s: State, t: Tid, ok: bool)
    requires Enabled(s, t) && Shape(s, s.threads[t])
    ensures TakesFromMap(s, t, StepOf(s, t, ok))
  {
    if InHook(s.threads[t].pc) { HookTakesFromMap(s, t); }
  }

  ghost predicate Moves(s: State, t: Tid, e: Effect) {
    Looks(s, t, e) && ChangesMap(s, t, e) && TakesFromMap(s, t, e)
  }

  // ----- every step keeps the invariant

  lemma {:induction false} HandedOutLasts(s: State, t: Tid, e: Effect, log: seq<Event>, more: seq<Event>, p: Pid)
    requires Tells(s, t, e) && HandedOut(s, log, p)
    ensures HandedOut(Apply(s, t, e), log + more, p)
  {
    var f :| f in log && HandsOut(s, f) && f.p == p;
    assert f in log + more && HandsOut(Apply(s, t, e), f);
  }

  lemma {:induction false} SupersededLasts(log: seq<Event>, more: seq<Event>, p: Pid, pod: string)
    requires Superseded(log, p, pod)
    ensures Superseded(log + more, p, pod)
  {
    var q :| p < q && BuiltFor(log, q, pod);
    BuiltForLasts(log, more, q, pod);
  }

  /** Whoever holds the plugin mutex is the only one to change the map. */
  lemma {:induction false} HolderKeepsMap(s: State, t: Tid, e: Effect, u: Tid)
    requires Inv(s) && Moves(s, t, e) && u < |s.threads| && u != t && HoldsPlugin(s.threads[u])
    ensures e.pods == s.pods
  {
    assert s.pluginLock == Some(u);
    if s.threads[t].pc.PDelete? { assert Shape(s, s.threads[t]); }
  }

  lemma {:induction false} StepperIsMapped(s: State, t: Tid, e: Effect)
    requires Inv(s) && Moves(s, t, e) && IsMapped(s, s.threads[t])
    ensures IsMapped(Apply(s, t, e), Apply(s, t, e).threads[t])
  {
    assert Shape(s, s.threads[t]);
    if e.pc.PDelete? { assert e.events[0] in Apply(s, t, e).log && HandsOut(Apply(s, t, e), e.events[0]); }
  }

  lemma {:induction false} OtherIsMapped(s: State, t: Tid, e: Effect, u: Tid)
    requires Inv(s) && Moves(s, t, e) && u < |s.threads| && u != t && IsMapped(s, s.threads[u])
    ensures IsMapped(Apply(s, t, e), s.threads[u])
  {
    var T := s.threads[u];
    assert Shape(s, T);
    if HasFound(T) || T.pc.PDelete? { HolderKeepsMap(s, t, e, u); }
    if T.pc.PDelete? { HandedOutLasts(s, t, e, s.log, e.events, s.pods[T.call.pod]); }
  }

  lemma {:induction false} KeepsFoundMapped(s: State, t: Tid, e: Effect)
    requires Inv(s) && MapInv(s) && Moves(s, t, e)
    ensures FoundIsMapped(Apply(s, t, e))
  {
    var s' := Apply(s, t, e);
    forall u: Tid | u < |s'.threads| ensures IsMapped(s', s'.threads[u]) {
      if u == t {
        StepperIsMapped(s, t, e);
      } else if u < |s.threads| {
        OtherIsMapped(s, t, e, u);
      }
    }
  }

  lemma {:induction false} KeepsOutDeleted(s: State, t: Tid, e: Effect)
    requires Inv(s) && MapInv(s) && Moves(s, t, e)
    ensures OutIsDeleted(Apply(s, t, e))
  {
    var s' := Apply(s, t, e);
    forall f | f in s'.log && HandsOut(s', f)
      ensures f.p < |s'.procs|
      ensures f.p in s'.pods.Values ==> s'.threads[f.who].pc.PDelete? && Maps(s', s'.threads[f.who], f.p)
    {
      HandsOutStays(s, t, e, f);
      if f in s.log { OldIsDeleted(s, t, e, f); } else { NewIsDeleted(s, t, e); }
    }
  }

  lemma {:induction false} NewIsDeleted(s: State, t: Tid, e: Effect)
    requires Inv(s) && MapInv(s) && Moves(s, t, e) && |e.events| == 1 && HandsOut(s, e.events[0])
    ensures e.events[0].who == t && e.events[0].p < |s.procs| && e.pc.PDelete?
    ensures e.pods == s.pods && Maps(s, s.threads[t], e.events[0].p)
  {
    assert Shape(s, s.threads[t]);
  }

  lemma {:induction false} OldIsDeleted(s: State, t: Tid, e: Effect, f: Event)
    requires Inv(s) && MapInv(s) && Moves(s, t, e) && f in s.log && HandsOut(Apply(s, t, e), f)
    ensures f.p < |s.procs|
    ensures f.p in e.pods.Values ==>
        Apply(s, t, e).threads[f.who].pc.PDelete? && Maps(Apply(s, t, e), s.threads[f.who], f.p)
  {
    assert f.who < |s.threads| && HandsOut(s, f);
    if f.p in e.pods.Values {
      var pod :| pod in e.pods && e.pods[pod] == f.p;
      assert pod in s.pods && s.pods[pod] == f.p;
      assert Shape(s, s.threads[f.who]);
      if f.who != t {
        HolderKeepsMap(s, t, e, f.who);
      }
    }
  }

  /**
   A hook at work has a process that was not handed out: who got it would be about to delete it under the plugin
   mutex.
   */
  lemma {:induction false} FoundIsNotOut(s: State, t: Tid, f: Event)
    requires Inv(s) && MapInv(s) && t < |s.threads| && HasFound(s.threads[t]) && f in s.log && HandsOut(s, f)
    ensures f.p != s.threads[t].pc.p
  {
    assert Shape(s, s.threads[t]) && Shape(s, s.threads[f.who]);
    assert HoldsPlugin(s.threads[t]) && s.pods[s.threads[t].call.pod] == s.threads[t].pc.p;
    assert s.threads[f.who].pc.PDelete? && LooksUpPod(s.threads[f.who].call) ==> HoldsPlugin(s.threads[f.who]);
  }

  lemma {:induction false} KeepsOutOnce(s: State, t: Tid, e: Effect)
    requires Inv(s) && MapInv(s) && Moves(s, t, e)
    ensures OutOnce(Apply(s, t, e))
  {
    var s' := Apply(s, t, e);
    forall j, k | 0 <= j < k < |s'.log| && HandsOut(s', s'.log[j]) && HandsOut(s', s'.log[k])
      ensures s'.log[j].p != s'.log[k].p {
      HandsOutStays(s, t, e, s'.log[j]);
      HandsOutStays(s, t, e, s'.log[k]);
      if k == |s.log| { FoundIsNotOut(s, t, s.log[j]); }
    }
  }

  /** What hands out afterwards did so before, or is the event of the step. */
  lemma {:induction false} HandsOutStays(s: State, t: Tid, e: Effect, f: Event)
    requires Tells(s, t, e) && f in Apply(s, t, e).log && HandsOut(Apply(s, t, e), f)
    ensures f.who < |s.threads| && HandsOut(s, f)
    ensures f !in s.log ==> |e.events| == 1 && f == e.events[0]
  {
    assert Apply(s, t, e).log == s.log + e.events;
    CallStays(s, t, e, f.who);
  }

  lemma {:induction false} OneMoreBuilt(s: State, t: Tid, e: Effect, p: Pid, pod: string)
    requires Looks(s, t, e) && BuiltFor(s.log + e.events, p, pod)
    ensures BuiltFor(s.log, p, pod) || (p == |s.procs| && e.events == [Built(t, p, pod)])
  {
    var u :| Built(u, p, pod) in s.log + e.events;
    if Built(u, p, pod) !in s.log { assert e.events[0] == Built(u, p, pod); }
  }

  lemma {:induction false} KeepsAccounted(s: State, t: Tid, e: Effect)
    requires Inv(s) && MapInv(s) && Moves(s, t, e) && PodsBuilt(s) && BuildsTruly(s) && Accounted(s)
    ensures Accounted(Apply(s, t, e))
  {
    var s' := Apply(s, t, e);
    forall p, pod | BuiltFor(s'.log, p, pod)
      ensures InMap(s', p, pod) || HandedOut(s', s'.log, p) || Superseded(s'.log, p, pod) {
      OneMoreBuilt(s, t, e, p, pod);
      if !BuiltFor(s.log, p, pod) {
        assert e.pods == s.pods[pod := p];
      } else if HandedOut(s, s.log, p) {
        HandedOutLasts(s, t, e, s.log, e.events, p);
      } else if Superseded(s.log, p, pod) {
        SupersededLasts(s.log, e.events, p, pod);
      } else {
        LeavesMap(s, t, e, p, pod);
      }
    }
  }

  /** A process leaves the map only when it was handed out or when its pod gets another one. */
  lemma {:induction false} LeavesMap(s: State, t: Tid, e: Effect, p: Pid, pod: string)
    requires Pods(s) && FoundIsMapped(s) && Moves(s, t, e) && InMap(s, p, pod) && !HandedOut(s, s.log, p)
    ensures InMap(Apply(s, t, e), p, pod) || Superseded(s.log + e.events, p, pod)
  {
    if s.threads[t].pc.PDelete? {
      assert IsMapped(s, s.threads[t]);
    } else if e.pods != s.pods && s.threads[t].call.pod == pod {
      assert e.events[0] in s.log + e.events && e.events[0] == Built(t, |s.procs|, pod);
      assert BuiltFor(s.log + e.events, |s.procs|, pod);
    }
  }

  lemma {:induction false} KeepsNewest(s: State, t: Tid, e: Effect)
    requires Inv(s) && MapInv(s) && Moves(s, t, e) && BuildsTruly(s) && Newest(s)
    ensures Newest(Apply(s, t, e))
  {
    var s' := Apply(s, t, e);
    forall pod, q | pod in s'.pods && BuiltFor(s'.log, q, pod) ensures q <= s'.pods[pod] {
      OneMoreBuilt(s, t, e, q, pod);
      if BuiltFor(s.log, q, pod) {
        var u :| Built(u, q, pod) in s.log;
        assert IsBuild(s, Built(u, q, pod));
      }
    }
  }

  lemma {:induction false} KeepsSettled(s: State, t: Tid, e: Effect)
    requires Inv(s) && MapInv(s) && Moves(s, t, e) && AccountInv(s)
    ensures Settled(Apply(s, t, e))
  {
    var s' := Apply(s, t, e);
    forall k | 0 <= k < |s'.log| ensures SettledAt(s', k) {
      if k < |s.log| {
        assert SettledAt(s, k);
        SettledLasts(s, t, e, k);
      } else {
        NewIsSettled(s, t, e);
      }
    }
  }

  lemma {:induction false} SettledLasts(s: State, t: Tid, e: Effect, k: nat)
    requires Inv(s) && Moves(s, t, e) && k < |s.log| && SettledAt(s, k)
    ensures SettledAt(Apply(s, t, e), k)
  {
    var s' := Apply(s, t, e);
    assert s'.log[..k] == s.log[..k] && s'.log[k] == s.log[k];
    forall p, pod | Settles(s', s'.log[k], pod) && BuiltFor(s'.log[..k], p, pod)
      ensures (HandsOut(s', s'.log[k]) && s'.log[k].p == p) || HandedOut(s', s'.log[..k], p) ||
          Superseded(s'.log[..k], p, pod)
    {
      if HandsOut(s', s'.log[k]) { HandsOutStays(s, t, e, s'.log[k]); }
      assert Settles(s, s.log[k], pod);
      if HandedOut(s, s.log[..k], p) {
        HandedOutLasts(s, t, e, s.log[..k], [], p);
        assert s.log[..k] + [] == s.log[..k];
      }
    }
  }

  lemma {:induction false} NewIsSettled(s: State, t: Tid, e: Effect)
    requires Inv(s) && MapInv(s) && Moves(s, t, e) && Accounted(s) && |e.events| == 1
    ensures SettledAt(Apply(s, t, e), |s.log|)
  {
    var s', f := Apply(s, t, e), e.events[0];
    assert s'.log[..|s.log|] == s.log && s'.log[|s.log|] == f;
    forall p, pod | Settles(s', f, pod) && BuiltFor(s.log, p, pod)
      ensures (HandsOut(s', f) && f.p == p) || HandedOut(s', s.log, p) || Superseded(s.log, p, pod)
    {
      if HandsOut(s', f) {
        HandsOutStays(s, t, e, f);
        NewIsDeleted(s, t, e);
      }
      if HandedOut(s, s.log, p) {
        HandedOutLasts(s, t, e, s.log, [], p);
        assert s.log + [] == s.log;
      }
    }
  }

  // ----- whole runs

  lemma {:induction false} NextKeepsMapInv(s: State, s': State, n: nat)
    requires Inv(s) && PodInv(s, n) && MapInv(s) && AccountInv(s) && Next(s, s')
    ensures MapInv(s') && AccountInv(s')
  {
    var t: Tid, ok: bool :| Enabled(s, t) && Shape(s, s.threads[t]) && s' == Fire(s, t, ok);
    var e := StepOf(s, t, ok);
    StepMoves(s, t, ok);
    KeepsInjective(s, t, e);
    KeepsFoundMapped(s, t, e);
    KeepsOutDeleted(s, t, e);
    KeepsOutOnce(s, t, e);
    KeepsAccounted(s, t, e);
    KeepsNewest(s, t, e);
    KeepsSettled(s, t, e);
  }

  lemma {:induction false} StepMoves(s: State, t: Tid, ok: bool)
    requires Inv(s) && Enabled(s, t)
    ensures Shape(s, s.threads[t]) && Moves(s, t, StepOf(s, t, ok))
  {
    StepTells(s, t, ok);
    StepLooksUp(s, t, ok);
    StepChangesMap(s, t, ok);
    StepTakesFromMap(s, t, ok);
  }

  lemma {:induction false} KeepsInjective(s: State, t: Tid, e: Effect)
    requires Inv(s) && Injective(s) && Moves(s, t, e)
    ensures Injective(Apply(s, t, e))
  {
  }

  lemma {:induction false} InitHasMapInv(s: State)
    requires Init(s)
    ensures MapInv(s) && AccountInv(s)
  {
  }

  lemma {:induction false} BehaviorGoesOn(b: seq<State>, i: nat)
    requires Behavior(b) && i < |b| - 1 && MapInv(b[i]) && AccountInv(b[i])
    ensures MapInv(b[i + 1]) && AccountInv(b[i + 1])
  {
    BehaviorKeepsInv(b, i);
    BehaviorKeepsBuilt(b, i);
    assert NextAt(b, i);
    NextKeepsMapInv(b[i], b[i + 1], |b[0].procs|);
  }

  lemma {:induction false} BehaviorKeepsMapInv(b: seq<State>, i: nat)
    requires Behavior(b) && i < |b|
    ensures MapInv(b[i]) && AccountInv(b[i])
  {
    if i == 0 {
      InitHasMapInv(b[0]);
    } else {
      BehaviorKeepsMapInv(b, i - 1);
      BehaviorGoesOn(b, i - 1);
    }
  }

  // ----- the guarantees

  /**
   A process is handed out at most once: when a StartContainer has passed, no later StartContainer
   of the pod finds the process, and no RemovePodSandbox terminates it.
   */
  lemma HandedOutOnce(b: seq<State>, i: nat, j: nat, k: nat)
    requires Behavior(b) && i < |b| && j < k < |b[i].log|
    requires HandsOut(b[i], b[i].log[j]) && HandsOut(b[i], b[i].log[k])
    ensures b[i].log[j].p != b[i].log[k].p
  {
    BehaviorKeepsMapInv(b, i);
  }

  /**
   No process is lost: each that was not there at the start was built for one pod, and is in the map
   under it, or has been handed out, or the pod has been sandboxed again after it was built.
   */
  lemma NoProcessIsLost(b: seq<State>, i: nat, p: Pid) returns (pod: string)
    requires Behavior(b) && i < |b| && |b[0].procs| <= p < |b[i].procs|
    ensures BuiltFor(b[i].log, p, pod)
    ensures InMap(b[i], p, pod) || HandedOut(b[i], b[i].log, p) || Superseded(b[i].log, p, pod)
  {
    BehaviorKeepsMapInv(b, i);
    BehaviorKeepsBuilt(b, i);
    assert WasBuilt(b[i].log, p);
    pod :| BuiltFor(b[i].log, p, pod);
  }

  /** While no hook is at work, the map has exactly the processes that were neither handed out nor superseded. */
  lemma MapExactly(b: seq<State>, i: nat, p: Pid, pod: string)
    requires Behavior(b) && i < |b| && b[i].pluginLock.None? && BuiltFor(b[i].log, p, pod)
    ensures InMap(b[i], p, pod) <==> !HandedOut(b[i], b[i].log, p) && !Superseded(b[i].log, p, pod)
  {
    var s := b[i];
    BehaviorKeepsMapInv(b, i);
    BehaviorKeepsInv(b, i);
    if InMap(s, p, pod) && HandedOut(s, s.log, p) {
      var e :| e in s.log && HandsOut(s, e) && e.p == p;
      assert p in s.pods.Values;
      assert HoldsPlugin(s.threads[e.who]);
    }
  }

  // ----- what a removal leaves behind

  /** A RemovePodSandbox of the pod that has found nothing, or is back from terminate. */
  predicate Removes(s: State, e: Event, pod: string) {
    (e.LookedUp? || e.Terminated?) && e.who < |s.threads| && s.threads[e.who].call == RemovePodSandbox(pod) &&
    (e.LookedUp? ==> e.found.None? && e.pod == pod)
  }

  /** The process was handed out on a read that found no channel. */
  ghost predicate HandedOutEarly(s: State, log: seq<Event>, p: Pid) {
    exists e :: e in log && HandsOut(s, e) && e.p == p && e.done.None?
  }

  /**
   After a RemovePodSandbox, a process that had been built for the pod still does work only if it was
   handed out on a read before any run had installed a channel, by a StartContainer or by this very
   removal, or if the pod had been sandboxed again since.
   */
  lemma RemovalGate(b: seq<State>, i: nat, k: nat, j: nat, p: Pid, pod: string)
    requires Behavior(b) && Sole(b[0]) && i < |b| && k < j < |b[i].log|
    requires Removes(b[i], b[i].log[k], pod) && BuiltFor(b[i].log[..k], p, pod) && WorkOn(b[i].log[j], p)
    ensures HandedOutEarly(b[i], b[i].log[..k + 1], p) || Superseded(b[i].log[..k], p, pod)
  {
    var s := b[i];
    BehaviorKeepsMapInv(b, i);
    assert SettledAt(s, k) && Settles(s, s.log[k], pod);
    if !Superseded(s.log[..k], p, pod) {
      var e, m := OutBefore(s, k, p);
      if e.done.Some? { CompletionGate(b, i, m); }
      assert e in s.log[..k + 1];
    }
  }

  lemma {:induction false} OutBefore(s: State, k: nat, p: Pid) returns (e: Event, m: nat)
    requires k < |s.log|
    requires (HandsOut(s, s.log[k]) && s.log[k].p == p) || HandedOut(s, s.log[..k], p)
    ensures m <= k && s.log[m] == e && HandsOut(s, e) && e.p == p
  {
    if HandsOut(s, s.log[k]) && s.log[k].p == p {
      e, m := s.log[k], k;
    } else {
      e :| e in s.log[..k] && HandsOut(s, e) && e.p == p;
      m :| 0 <= m < k && s.log[m] == e;
    }
  }
}
