/** What RunPodSandbox builds, and what the other hooks find, in every reachable state. */
module ProcessHooks {
  import opened Wrappers
  import opened ProcessMachine
  import opened ProcessGuarantees
  import opened ProcessPods
  import opened ProcessHandOut

  // ----- RunPodSandbox

  /** Call t has built a process for the pod with these claims. */
  ghost predicate HasBuilt(s: State, t: Tid, pod: string, claims: seq<Claim>) {
    exists p: Pid :: Built(t, p, pod) in s.log && p < |s.procs| && s.procs[p].claims == claims
  }

  ghost predicate BuiltNothing(s: State, t: Tid) { forall e :: e in s.log && e.Built? ==> e.who != t }

  /** A RunPodSandbox builds one process, with its claims, exactly if there are claims and a network namespace. */
  ghost predicate SandboxTells(s: State, t: Tid)
    requires t < |s.threads|
  {
    match s.threads[t].call
    case RunPodSandbox(pod, claims, hasNetns) =>
      var pc := s.threads[t].pc;
      if pc.Begin? then BuiltNothing(s, t)
      else if pc.PHeld? then BuiltNothing(s, t) && claims != [] && hasNetns
      else if claims != [] && hasNetns then HasBuilt(s, t, pod, claims)
      else BuiltNothing(s, t)
    case _ => true
  }

  ghost predicate SandboxInv(s: State) { forall t :: 0 <= t < |s.threads| ==> SandboxTells(s, t) }

  /** What one step of a RunPodSandbox does. */
  ghost predicate Sandboxes(s: State, t: Tid, e: Effect)
    requires t < |s.threads|
  {
    match s.threads[t].call
    case RunPodSandbox(pod, claims, hasNetns) =>
      var pc := s.threads[t].pc;
      if pc.Begin? then e.events == [] && e.pc == if claims != [] && hasNetns then PHeld else Returned
      else if pc.PHeld? then
        e.events == [Built(t, |s.procs|, pod)] && e.write == Build(claims) && !e.pc.Begin? && !e.pc.PHeld?
      else e.events == [] && !e.pc.Begin? && !e.pc.PHeld?
    case _ => forall f :: f in e.events ==> !f.Built?
  }

  lemma {:induction false} HookSandboxes(s: State, t: Tid)
    requires Enabled(s, t) && Shape(s, s.threads[t]) && InHook(s.threads[t].pc)
    ensures Sandboxes(s, t, HookStep(s, t, s.threads[t]))
  {
  }

  lemma {:induction false} StepSandboxes(s: State, t: Tid, ok: bool)
    requires Enabled(s, t) && Shape(s, s.threads[t])
    ensures Sandboxes(s, t, StepOf(s, t, ok))
  {
    if InHook(s.threads[t].pc) { HookSandboxes(s, t); }
  }

  lemma {:induction false} HasBuiltLasts(s: State, t: Tid, e: Effect, u: Tid, pod: string, claims: seq<Claim>)
    requires Tells(s, t, e) && HasBuilt(s, u, pod, claims)
    ensures HasBuilt(Apply(s, t, e), u, pod, claims)
  {
    var p: Pid :| Built(u, p, pod) in s.log && p < |s.procs| && s.procs[p].claims == claims;
    assert Built(u, p, pod) in Apply(s, t, e).log;
  }

  lemma {:induction false} BuiltNothingLasts(s: State, t: Tid, e: Effect, u: Tid)
    requires Tells(s, t, e) && Sandboxes(s, t, e) && BuiltNothing(s, u)
    requires u != t || e.events == []
    ensures BuiltNothing(Apply(s, t, e), u)
  {
  }

  lemma {:induction false} StepKeepsSandboxTells(s: State, t: Tid, e: Effect, u: Tid)
    requires Tells(s, t, e) && Sandboxes(s, t, e) && u < |s.threads| && SandboxTells(s, u)
    ensures SandboxTells(Apply(s, t, e), u)
  {
    var T := s.threads[u];
    if T.call.RunPodSandbox? {
      if HasBuilt(s, u, T.call.pod, T.call.claims) {
        HasBuiltLasts(s, t, e, u, T.call.pod, T.call.claims);
      }
      if u == t && T.pc.PHeld? {
        assert e.events[0] in Apply(s, t, e).log;
        assert HasBuilt(Apply(s, t, e), t, T.call.pod, T.call.claims);
      } else if BuiltNothing(s, u) {
        BuiltNothingLasts(s, t, e, u);
      }
    }
  }

  // ----- what a hook finds

  /** A process is there to be found: built for the pod, and neither handed out nor superseded. */
  ghost predicate ToBeFound(s: State, log: seq<Event>, p: Pid, pod: string) {
    BuiltFor(log, p, pod) && !HandedOut(s, log, p) && !Superseded(log, p, pod)
  }

  ghost predicate FindsAt(s: State, k: int)
    requires 0 <= k < |s.log|
  {
    s.log[k].LookedUp? ==>
      forall p: Pid :: s.log[k].found == Some(p) <==> ToBeFound(s, s.log[..k], p, s.log[k].pod)
  }

  ghost predicate FindsInv(s: State) { forall k :: 0 <= k < |s.log| ==> FindsAt(s, k) }

  lemma {:induction false} FindsLasts(s: State, t: Tid, e: Effect, k: nat)
    requires Inv(s) && Tells(s, t, e) && k < |s.log| && FindsAt(s, k)
    ensures FindsAt(Apply(s, t, e), k)
  {
    var s' := Apply(s, t, e);
    assert s'.log[..k] == s.log[..k] && s'.log[k] == s.log[k];
    forall p ensures HandedOut(s', s.log[..k], p) <==> HandedOut(s, s.log[..k], p) {
      SameHandedOut(s, t, e, s.log[..k], p);
    }
  }

  lemma {:induction false} SameHandedOut(s: State, t: Tid, e: Effect, log: seq<Event>, p: Pid)
    requires Inv(s) && Tells(s, t, e) && log <= s.log
    ensures HandedOut(Apply(s, t, e), log, p) <==> HandedOut(s, log, p)
  {
    if HandedOut(s, log, p) {
      HandedOutLasts(s, t, e, log, [], p);
      assert log + [] == log;
    }
    if f :| f in log && HandsOut(Apply(s, t, e), f) && f.p == p {
      HandsOutStays(s, t, e, f);
    }
  }

  /** A hook that looks up holds the plugin mutex, so no process that was handed out is still in the map. */
  lemma {:induction false} LookUpFinds(s: State, t: Tid, p: Pid, pod: string)
    requires Inv(s) && MapInv(s) && AccountInv(s) && PodsBuilt(s) && BuiltInOrder(s)
    requires t < |s.threads| && LooksUpPod(s.threads[t].call) && s.threads[t].pc.PHeld?
    ensures LookUp(s.pods, pod) == Some(p) <==> ToBeFound(s, s.log, p, pod)
  {
    assert HoldsPlugin(s.threads[t]);
    if InMap(s, p, pod) && HandedOut(s, s.log, p) {
      var e :| e in s.log && HandsOut(s, e) && e.p == p;
      assert p in s.pods.Values;
      assert s.threads[e.who].pc.PDelete? ==> HoldsPlugin(s.threads[e.who]);
    }
  }

  lemma {:induction false} NewFinds(s: State, t: Tid, e: Effect)
    requires Inv(s) && MapInv(s) && AccountInv(s) && PodsBuilt(s) && BuiltInOrder(s) && Tells(s, t, e) &&
        |e.events| == 1
    ensures FindsAt(Apply(s, t, e), |s.log|)
  {
    var s', f := Apply(s, t, e), e.events[0];
    assert s'.log[..|s.log|] == s.log && s'.log[|s.log|] == f;
    if f.LookedUp? {
      forall p: Pid ensures f.found == Some(p) <==> ToBeFound(s', s.log, p, f.pod) {
        LookUpFinds(s, t, p, f.pod);
        SameHandedOut(s, t, e, s.log, p);
      }
    }
  }

  lemma {:induction false} StepKeepsFindsInv(s: State, t: Tid, e: Effect)
    requires Inv(s) && MapInv(s) && AccountInv(s) && PodsBuilt(s) && BuiltInOrder(s) && Tells(s, t, e) && FindsInv(s)
    ensures FindsInv(Apply(s, t, e))
  {
    forall k | 0 <= k < |Apply(s, t, e).log| ensures FindsAt(Apply(s, t, e), k) {
      if k < |s.log| { FindsLasts(s, t, e, k); } else { NewFinds(s, t, e); }
    }
  }

  // ----- whole runs

  ghost predicate HookInv(s: State) { SandboxInv(s) && FindsInv(s) }

  lemma {:induction false} StepKeepsHookInv(s: State, t: Tid, e: Effect)
    requires Inv(s) && MapInv(s) && AccountInv(s) && PodsBuilt(s) && BuiltInOrder(s) && HookInv(s)
    requires Tells(s, t, e) && Sandboxes(s, t, e)
    ensures HookInv(Apply(s, t, e))
  {
    var s' := Apply(s, t, e);
    StepKeepsFindsInv(s, t, e);
    forall u: Tid | u < |s'.threads| ensures SandboxTells(s', u) {
      if u < |s.threads| { StepKeepsSandboxTells(s, t, e, u); }
    }
  }

  lemma {:induction false} NextKeepsHookInv(s: State, s': State, n: nat)
    requires Inv(s) && MapInv(s) && AccountInv(s) && PodInv(s, n) && HookInv(s) && Next(s, s')
    ensures HookInv(s')
  {
    var t: Tid, ok: bool :| Enabled(s, t) && Shape(s, s.threads[t]) && s' == Fire(s, t, ok);
    StepTells(s, t, ok);
    StepSandboxes(s, t, ok);
    StepKeepsHookInv(s, t, StepOf(s, t, ok));
  }

  lemma {:induction false} InitHasHookInv(s: State)
    requires Init(s)
    ensures HookInv(s)
  {
  }

  lemma {:induction false} BehaviorGoesOn(b: seq<State>, i: nat)
    requires Behavior(b) && i < |b| - 1 && HookInv(b[i])
    ensures HookInv(b[i + 1])
  {
    BehaviorKeepsInv(b, i);
    BehaviorKeepsBuilt(b, i);
    BehaviorKeepsMapInv(b, i);
    assert NextAt(b, i);
    NextKeepsHookInv(b[i], b[i + 1], |b[0].procs|);
  }

  lemma {:induction false} BehaviorKeepsHookInv(b: seq<State>, i: nat)
    requires Behavior(b) && i < |b|
    ensures HookInv(b[i])
  {
    if i == 0 {
      InitHasHookInv(b[0]);
    } else {
      BehaviorKeepsHookInv(b, i - 1);
      BehaviorGoesOn(b, i - 1);
    }
  }

  // ----- the guarantees

  /**
   A RunPodSandbox that has returned, or released the plugin mutex, has built a process for its pod, with
   exactly its claims, if and only if the pod has claims and a network namespace.
   */
  lemma SandboxBuildsExactly(b: seq<State>, i: nat, t: Tid)
    requires Behavior(b) && i < |b| && t < |b[i].threads| && b[i].threads[t].call.RunPodSandbox?
    requires b[i].threads[t].pc.Returned? || b[i].pluginLock != Some(t)
    requires !b[i].threads[t].pc.Begin?
    ensures var s, c := b[i], b[i].threads[t].call;
            (exists p: Pid :: Built(t, p, c.pod) in s.log && p < |s.procs| && s.procs[p].claims == c.claims) <==>
            c.claims != [] && c.hasNetns
    ensures b[i].threads[t].call.claims == [] || !b[i].threads[t].call.hasNetns ==>
              forall e :: e in b[i].log && e.Built? ==> e.who != t
  {
    BehaviorKeepsHookInv(b, i);
    BehaviorKeepsInv(b, i);
    var s, c := b[i], b[i].threads[t].call;
    assert SandboxTells(s, t);
    assert HoldsPlugin(s.threads[t]) <==> s.pluginLock == Some(t);
    assert HasBuilt(s, t, c.pod, c.claims) ==>
      exists p: Pid :: Built(t, p, c.pod) in s.log && p < |s.procs| && s.procs[p].claims == c.claims;
  }

  /** What a lookup finds: the one process of the pod that was neither handed out nor superseded, if there is one. */
  lemma LookUpFindsExactly(b: seq<State>, i: nat, k: nat, p: Pid)
    requires Behavior(b) && i < |b| && k < |b[i].log| && b[i].log[k].LookedUp?
    ensures b[i].log[k].found == Some(p) <==>
              BuiltFor(b[i].log[..k], p, b[i].log[k].pod) && !HandedOut(b[i], b[i].log[..k], p) &&
              !Superseded(b[i].log[..k], p, b[i].log[k].pod)
  {
    BehaviorKeepsHookInv(b, i);
    assert FindsAt(b[i], k);
  }
}
