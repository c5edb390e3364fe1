/** The process map: the process a hook finds under a pod was built by a RunPodSandbox of that very pod. */
module ProcessPods {
  import opened Wrappers
  import opened ProcessMachine
  import opened ProcessGuarantees

  /** A RunPodSandbox of the pod built p. */
  ghost predicate BuiltFor(log: seq<Event>, p: Pid, pod: string) { exists u :: Built(u, p, pod) in log }

  ghost predicate WasBuilt(log: seq<Event>, p: Pid) { exists pod :: BuiltFor(log, p, pod) }

  /** The event e is the building of process e.p, with the claims of the pod that was sandboxed. */
  predicate IsBuild(s: State, e: Event) {
    e.Built? && e.who < |s.threads| && e.p < |s.procs| &&
    s.threads[e.who].call.RunPodSandbox? && s.threads[e.who].call.pod == e.pod &&
        s.threads[e.who].call.claims == s.procs[e.p].claims
  }

  ghost predicate BuildsTruly(s: State) { forall e :: e in s.log && e.Built? ==> IsBuild(s, e) }

  /** Processes are built one after the other, each once. */
  ghost predicate BuiltInOrder(s: State) {
    forall j, k :: 0 <= j < k < |s.log| && s.log[j].Built? && s.log[k].Built? ==> s.log[j].p < s.log[k].p
  }

  /** All processes but the first n, which were there at the start, were built. */
  ghost predicate AllBuilt(s: State, n: nat) {
    forall p: Pid :: n <= p < |s.procs| ==> WasBuilt(s.log, p)
  }

  /** A hook that has found a process and works on it. */
  predicate HasFound(T: Thread) { LooksUpPod(T.call) && (InTerminate(T.pc) || InIsDone(T.pc)) }

  ghost predicate PodsBuilt(s: State) {
    (forall pod :: pod in s.pods ==> BuiltFor(s.log, s.pods[pod], pod)) &&
    (forall t :: 0 <= t < |s.threads| && HasFound(s.threads[t]) ==>
       BuiltFor(s.log, s.threads[t].pc.p, s.threads[t].call.pod))
  }

  /** An answer that a hook of a pod got from the process it had found. */
  predicate AnswersHook(s: State, e: Event) {
    (e.Passed? || e.Terminated? || e.Refused?) && e.who < |s.threads| && LooksUpPod(s.threads[e.who].call)
  }

  ghost predicate AnswerBuilt(s: State, k: int)
    requires 0 <= k < |s.log|
  {
    AnswersHook(s, s.log[k]) ==> BuiltFor(s.log[..k], s.log[k].p, s.threads[s.log[k].who].call.pod)
  }

  ghost predicate AnswersBuilt(s: State) { forall k :: 0 <= k < |s.log| ==> AnswerBuilt(s, k) }

  ghost predicate PodInv(s: State, n: nat) {
    BuildsTruly(s) && BuiltInOrder(s) && AllBuilt(s, n) && PodsBuilt(s) && AnswersBuilt(s)
  }

  // ----- what one step does

  /**
   A hook looks its process up under its own pod and stays with it; only a sandboxing call writes the map, and logs
   it.
   */
  ghost predicate LooksUp(s: State, t: Tid, e: Effect)
    requires t < |s.threads|
  {
    var T := s.threads[t];
    (HasFound(T.(pc := e.pc)) ==>
       || (HasFound(T) && e.pc.p == T.pc.p)
       || (T.call.pod in s.pods && e.pc.p == s.pods[T.call.pod])) &&
    (e.write.Build? ==> T.call.RunPodSandbox? && e.events == [Built(t, |s.procs|, T.call.pod)]) &&
    (forall pod :: pod in e.pods ==>
       || (pod in s.pods && e.pods[pod] == s.pods[pod])
       || (e.events == [Built(t, |s.procs|, pod)] && e.pods[pod] == |s.procs|))
  }

  lemma {:induction false} HookLooksUp(s: State, t: Tid)
    requires Enabled(s, t) && Shape(s, s.threads[t]) && InHook(s.threads[t].pc)
    ensures LooksUp(s, t, HookStep(s, t, s.threads[t]))
  {
  }

  lemma {:induction false} StepLooksUp(s: State, t: Tid, ok: bool)
    requires Enabled(s, t) && Shape(s, s.threads[t])
    ensures LooksUp(s, t, StepOf(s, t, ok))
  {
    if InHook(s.threads[t].pc) { HookLooksUp(s, t); }
  }

  ghost predicate Looks(s: State, t: Tid, e: Effect) { Tells(s, t, e) && LooksUp(s, t, e) }

  // ----- every step keeps the invariant

  lemma {:induction false} BuiltForLasts(log: seq<Event>, more: seq<Event>, p: Pid, pod: string)
    requires BuiltFor(log, p, pod)
    ensures BuiltFor(log + more, p, pod)
  {
    var u :| Built(u, p, pod) in log;
    assert Built(u, p, pod) in log + more;
  }

  lemma {:induction false} KeepsBuilds(s: State, t: Tid, e: Effect)
    requires Looks(s, t, e) && BuildsTruly(s) && BuiltInOrder(s)
    ensures BuildsTruly(Apply(s, t, e)) && BuiltInOrder(Apply(s, t, e))
  {
    var s' := Apply(s, t, e);
    forall f | f in s'.log && f.Built? ensures IsBuild(s', f) {
      if f in s.log { assert IsBuild(s, f); } else { assert f == e.events[0]; }
    }
    forall j, k | 0 <= j < k < |s'.log| && s'.log[j].Built? && s'.log[k].Built? ensures s'.log[j].p < s'.log[k].p {
      assert s'.log[j] == s.log[j] && IsBuild(s, s.log[j]);
      if k == |s.log| { assert s'.log[k] == e.events[0]; }
    }
  }

  lemma {:induction false} KeepsAllBuilt(s: State, t: Tid, e: Effect, n: nat)
    requires Looks(s, t, e) && AllBuilt(s, n)
    ensures AllBuilt(Apply(s, t, e), n)
  {
    var s' := Apply(s, t, e);
    forall p: Pid | n <= p < |s'.procs| ensures WasBuilt(s'.log, p) {
      if p < |s.procs| {
        assert WasBuilt(s.log, p);
        var pod :| BuiltFor(s.log, p, pod);
        BuiltForLasts(s.log, e.events, p, pod);
      } else {
        assert e.events[0] in s'.log;
        assert BuiltFor(s'.log, p, s.threads[t].call.pod);
      }
    }
  }

  lemma {:induction false} KeepsPodsBuilt(s: State, t: Tid, e: Effect)
    requires Looks(s, t, e) && PodsBuilt(s)
    ensures PodsBuilt(Apply(s, t, e))
  {
    var s' := Apply(s, t, e);
    forall pod | pod in s'.pods ensures BuiltFor(s'.log, s'.pods[pod], pod) {
      if pod in s.pods && s'.pods[pod] == s.pods[pod] {
        BuiltForLasts(s.log, e.events, s.pods[pod], pod);
      } else {
        assert e.events[0] in s'.log;
      }
    }
    forall u: Tid | u < |s'.threads| && HasFound(s'.threads[u])
      ensures BuiltFor(s'.log, s'.threads[u].pc.p, s'.threads[u].call.pod)
    {
      assert u < |s.threads| && s'.threads[u].call == s.threads[u].call;
      BuiltForLasts(s.log, e.events, s'.threads[u].pc.p, s'.threads[u].call.pod);
    }
  }

  lemma {:induction false} KeepsAnswersBuilt(s: State, t: Tid, e: Effect)
    requires Looks(s, t, e) && PodsBuilt(s) && AnswersBuilt(s)
    ensures AnswersBuilt(Apply(s, t, e))
  {
    var s' := Apply(s, t, e);
    forall k | 0 <= k < |s'.log| ensures AnswerBuilt(s', k) {
      if k < |s.log| {
        assert AnswerBuilt(s, k) && s'.log[..k] == s.log[..k];
        if AnswersHook(s', s'.log[k]) { CallStays(s, t, e, s.log[k].who); }
      } else {
        assert s'.log[..k] == s.log && s'.log[k] == e.events[0];
      }
    }
  }

  lemma {:induction false} CallStays(s: State, t: Tid, e: Effect, u: Tid)
    requires Tells(s, t, e) && u < |Apply(s, t, e).threads|
    ensures var call := Apply(s, t, e).threads[u].call;
            if u < |s.threads| then call == s.threads[u].call else call.Run?
  {
  }

  lemma {:induction false} NextKeepsPodInv(s: State, s': State, n: nat)
    requires Inv(s) && PodInv(s, n) && Next(s, s')
    ensures PodInv(s', n)
  {
    var t: Tid, ok: bool :| Enabled(s, t) && Shape(s, s.threads[t]) && s' == Fire(s, t, ok);
    var e := StepOf(s, t, ok);
    StepTells(s, t, ok);
    StepLooksUp(s, t, ok);
    KeepsBuilds(s, t, e);
    KeepsAllBuilt(s, t, e, n);
    KeepsPodsBuilt(s, t, e);
    KeepsAnswersBuilt(s, t, e);
  }

  lemma {:induction false} InitHasPodInv(s: State)
    requires Init(s)
    ensures PodInv(s, |s.procs|)
  {
  }

  lemma {:induction false} BehaviorKeepsBuilt(b: seq<State>, i: nat)
    requires Behavior(b) && i < |b|
    ensures PodInv(b[i], |b[0].procs|)
  {
    if i == 0 {
      InitHasPodInv(b[0]);
    } else {
      BehaviorKeepsBuilt(b, i - 1);
      BehaviorKeepsInv(b, i - 1);
      assert NextAt(b, i - 1);
      NextKeepsPodInv(b[i - 1], b[i], |b[0].procs|);
    }
  }

  /** A process is built once, for one pod. */
  lemma {:induction false} BuiltOnce(s: State, e: Event, f: Event)
    requires BuiltInOrder(s) && e in s.log && f in s.log && e.Built? && f.Built? && e.p == f.p
    ensures e == f
  {
    var j :| 0 <= j < |s.log| && s.log[j] == e;
    var k :| 0 <= k < |s.log| && s.log[k] == f;
  }

  /**
   The gate of a pod: when a StartContainer of a pod passes, or a RemovePodSandbox of it returns from
   terminate, with a channel installed, the process was built before, once, by a RunPodSandbox u of
   this pod; every claim that u brought has been gone through, and the process does nothing afterwards.
   */
  lemma PodGate(b: seq<State>, i: nat, k: nat) returns (u: Tid)
    requires Behavior(b) && Sole(b[0]) && i < |b| && k < |b[i].log|
    requires (b[i].log[k].Passed? || b[i].log[k].Terminated?) && b[i].log[k].done.Some?
    requires AnswersHook(b[i], b[i].log[k])
    ensures var s, p := b[i], b[i].log[k].p;
            var built := Built(u, p, s.threads[s.log[k].who].call.pod);
            built in s.log[..k] && IsBuild(s, built) &&
                (forall e :: e in s.log && e.Built? && e.p == p ==> e == built) &&
            AllReturned(s.log[..k], |s.threads[u].call.claims|, s.log[k].done.value, p)
    ensures forall j :: k <= j < |b[i].log| ==> !WorkOn(b[i].log[j], b[i].log[k].p)
  {
    var s := b[i];
    var p, pod := s.log[k].p, s.threads[s.log[k].who].call.pod;
    BehaviorKeepsBuilt(b, i);
    CompletionGate(b, i, k);
    assert AnswerBuilt(s, k);
    u :| Built(u, p, pod) in s.log[..k];
    assert Built(u, p, pod) in s.log;
    forall e | e in s.log && e.Built? && e.p == p ensures e == Built(u, p, pod) {
      BuiltOnce(s, e, Built(u, p, pod));
    }
  }
}
