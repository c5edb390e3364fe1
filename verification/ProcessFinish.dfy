/** Every interleaving can be carried on to a finished one, and what a finished one says of a pod. */
module ProcessFinish {
  import opened Wrappers
  import opened ProcessMachine
  import opened ProcessGuarantees
  import opened ProcessPods
  import opened ProcessHandOut
  import H = ProcessHooks
  import P = ProcessProgress

  // ----- finished interleavings

  /** s' comes after s: its log goes on, and the calls of s are still there. */
  ghost predicate Extends(s: State, s': State) {
    s.log <= s'.log && |s.threads| <= |s'.threads| &&
    forall t :: 0 <= t < |s.threads| ==> s'.threads[t].call == s.threads[t].call
  }

  lemma {:induction false} StepExtends(s: State, t: Tid, ok: bool)
    requires Inv(s) && Enabled(s, t) && Shape(s, s.threads[t])
    ensures Extends(s, Fire(s, t, ok))
  {
    StepIsLocal(s, t, ok);
  }

  lemma {:induction false} ExtendsOn(a: State, b: State, c: State)
    requires Extends(a, b) && Extends(b, c)
    ensures Extends(a, c)
  {
  }

  /** The behavior b ends in s. */
  ghost predicate EndsIn(b: seq<State>, s: State) { Behavior(b) && b[|b| - 1] == s }

  lemma {:induction false} GoOn(b: seq<State>, s: State, s': State)
    requires EndsIn(b, s) && Next(s, s')
    ensures EndsIn(b + [s'], s')
  {
    var b' := b + [s'];
    forall i | 0 <= i < |b'| - 1 ensures NextAt(b', i) {
      if i < |b| - 1 { assert NextAt(b, i); }
    }
  }

  /** Some call takes a step. */
  lemma {:induction false} SomeStep(s: State) returns (s': State)
    requires Inv(s) && !P.AllReturned(s)
    ensures Next(s, s') && Inv(s') && Extends(s, s') && P.Measure(s') < P.Measure(s)
  {
    P.DeadlockFree(s);
    var t :| Enabled(s, t);
    P.MeasureFalls(s, t, true);
    StepExtends(s, t, true);
    s' := Fire(s, t, true);
  }

  lemma {:induction false} FinishWithin(b: seq<State>, s: State, n: nat) returns (b': seq<State>, s': State)
    requires EndsIn(b, s) && Inv(s) && P.Measure(s) <= n
    ensures b <= b' && EndsIn(b', s') && P.AllReturned(s') && Extends(s, s')
    decreases n
  {
    b', s' := b, s;
    if !P.AllReturned(s) {
      var next := SomeStep(s);
      GoOn(b, s, next);
      b', s' := FinishWithin(b + [next], next, n - 1);
      ExtendsOn(s, next, s');
    }
  }

  /** Every interleaving goes on to one in which every call has returned. */
  lemma Finishes(b: seq<State>) returns (b': seq<State>)
    requires Behavior(b)
    ensures b <= b' && Behavior(b') && P.AllReturned(b'[|b'| - 1]) && Extends(b[|b| - 1], b'[|b'| - 1])
  {
    BehaviorKeepsInv(b, |b| - 1);
    var s': State;
    b', s' := FinishWithin(b, b[|b| - 1], P.Measure(b[|b| - 1]));
  }

  // ----- every process that is built is run

  ghost predicate IsRun(s: State, p: Pid) { exists c :: 0 <= c < |s.threads| && s.threads[c].call == Run(p) }

  /** The call that built a process is about to start its run, or has. */
  ghost predicate Starts(s: State, u: Tid, p: Pid) {
    u < |s.threads| && (s.threads[u].pc == PSpawning(p) || s.threads[u].pc == PSpawn(p) || IsRun(s, p))
  }

  ghost predicate BuildersStart(s: State) { forall e :: e in s.log && e.Built? ==> Starts(s, e.who, e.p) }

  ghost predicate LeadsToRun(s: State, t: Tid, e: Effect)
    requires t < |s.threads|
  {
    (|e.events| == 1 && e.events[0].Built? ==> e.pc == PSpawning(e.events[0].p) && e.events[0].who == t) &&
    (s.threads[t].pc.PSpawning? ==> e.pc == PSpawn(s.threads[t].pc.p)) &&
    (s.threads[t].pc.PSpawn? ==> e.spawn == Some(s.threads[t].pc.p))
  }

  lemma {:induction false} HookLeadsToRun(s: State, t: Tid)
    requires Enabled(s, t) && Shape(s, s.threads[t]) && InHook(s.threads[t].pc)
    ensures LeadsToRun(s, t, HookStep(s, t, s.threads[t]))
  {
  }

  lemma {:induction false} StepLeadsToRun(s: State, t: Tid, ok: bool)
    requires Enabled(s, t) && Shape(s, s.threads[t])
    ensures LeadsToRun(s, t, StepOf(s, t, ok))
  {
    if InHook(s.threads[t].pc) { HookLeadsToRun(s, t); }
  }

  lemma {:induction false} StartsLasts(s: State, t: Tid, e: Effect, u: Tid, p: Pid)
    requires Tells(s, t, e) && LeadsToRun(s, t, e) && Starts(s, u, p)
    ensures Starts(Apply(s, t, e), u, p)
  {
    var s' := Apply(s, t, e);
    if IsRun(s, p) {
      var c :| 0 <= c < |s.threads| && s.threads[c].call == Run(p);
      assert s'.threads[c].call == Run(p);
    } else if u == t && s.threads[u].pc.PSpawn? {
      assert s'.threads[|s.threads|].call == Run(p);
    }
  }

  lemma {:induction false} NextKeepsBuildersStart(s: State, s': State)
    requires Inv(s) && BuildersStart(s) && Next(s, s')
    ensures BuildersStart(s')
  {
    var t: Tid, ok: bool :| Enabled(s, t) && Shape(s, s.threads[t]) && s' == Fire(s, t, ok);
    StepTells(s, t, ok);
    StepLeadsToRun(s, t, ok);
    StepKeepsBuildersStart(s, t, StepOf(s, t, ok));
  }

  lemma {:induction false} StepKeepsBuildersStart(s: State, t: Tid, e: Effect)
    requires Tells(s, t, e) && LeadsToRun(s, t, e) && BuildersStart(s)
    ensures BuildersStart(Apply(s, t, e))
  {
    var s' := Apply(s, t, e);
    forall f | f in s'.log && f.Built? ensures Starts(s', f.who, f.p) {
      if f in s.log { StartsLasts(s, t, e, f.who, f.p); } else { assert f == e.events[0]; }
    }
  }

  lemma {:induction false} BehaviorKeepsBuildersStart(b: seq<State>, i: nat)
    requires Behavior(b) && i < |b|
    ensures BuildersStart(b[i])
  {
    if i > 0 {
      BehaviorKeepsBuildersStart(b, i - 1);
      BehaviorKeepsInv(b, i - 1);
      assert NextAt(b, i - 1);
      NextKeepsBuildersStart(b[i - 1], b[i]);
    }
  }

  /** In a finished interleaving, every process that was built has been run through. */
  lemma {:induction false} BuiltIsRunThrough(b: seq<State>, i: nat, p: Pid, pod: string) returns (c: Tid)
    requires Behavior(b) && i < |b| && P.AllReturned(b[i]) && BuiltFor(b[i].log, p, pod)
    ensures c < |b[i].threads| && b[i].threads[c].call == Run(p) && p < |b[i].procs|
    ensures AllReturned(b[i].log, |b[i].procs[p].claims|, c, p)
  {
    var s := b[i];
    BehaviorKeepsInv(b, i);
    BehaviorKeepsLogInv(b, i);
    BehaviorKeepsBuildersStart(b, i);
    var u :| Built(u, p, pod) in s.log;
    assert Starts(s, u, p);
    c :| 0 <= c < |s.threads| && s.threads[c].call == Run(p);
    assert Shape(s, s.threads[c]) && CountLogged(s, c);
  }

  /**
   In a finished interleaving, a RunPodSandbox of a pod with claims and a network namespace has had a run
   that went through every one of its claims, and any other RunPodSandbox has built nothing.
   */
  lemma SandboxIsRunThrough(b: seq<State>, i: nat, t: Tid) returns (c: Tid, p: Pid)
    requires Behavior(b) && i < |b| && P.AllReturned(b[i]) && t < |b[i].threads| && b[i].threads[t].call.RunPodSandbox?
    ensures var s, call := b[i], b[i].threads[t].call;
            if call.claims != [] && call.hasNetns then
              Built(t, p, call.pod) in s.log && c < |s.threads| && s.threads[c].call == Run(p) &&
              AllReturned(s.log, |call.claims|, c, p)
            else forall e :: e in s.log && e.Built? ==> e.who != t
  {
    var s, call := b[i], b[i].threads[t].call;
    c, p := 0, 0;
    H.SandboxBuildsExactly(b, i, t);
    if call.claims != [] && call.hasNetns {
      p :| Built(t, p, call.pod) in s.log && p < |s.procs| && s.procs[p].claims == call.claims;
      assert BuiltFor(s.log, p, call.pod);
      c := BuiltIsRunThrough(b, i, p, call.pod);
    }
  }

  // ----- what follows an early hand-out

  /** All work on p, and by run c all of its claims, comes at r or later in the log. */
  ghost predicate WorkedFrom(s: State, r: nat, p: Pid, c: Tid) {
    p < |s.procs| && r <= |s.log| && Untouched(s.log[..r], p) &&
    forall claim :: 0 <= claim < |s.procs[p].claims| ==> ClaimReturned(c, p, claim) in s.log[r..]
  }

  /**
   In a finished interleaving, a process that was handed out on a read that found no channel has been
   run through all the same, and all of it after that read: the pod was not configured when it was let
   go, and it is configured in the end.
   */
  lemma EarlyHandOutIsWorkedLater(b: seq<State>, i: nat, k: nat) returns (r: nat, c: Tid)
    requires Behavior(b) && i < |b| && P.AllReturned(b[i])
    requires k < |b[i].log| && HandsOut(b[i], b[i].log[k]) && b[i].log[k].done.None?
    ensures r < k && Reads(b[i].log[r], b[i].log[k].who, b[i].log[k].p, None)
    ensures c < |b[i].threads| && b[i].threads[c].call == Run(b[i].log[k].p)
    ensures WorkedFrom(b[i], r, b[i].log[k].p, c)
  {
    var s := b[i];
    var p := s.log[k].p;
    r := StartupWindow(b, i, k);
    BehaviorKeepsBuilt(b, i);
    assert AnswerBuilt(s, k);
    var pod := s.threads[s.log[k].who].call.pod;
    BuiltForLasts(s.log[..k], s.log[k..], p, pod);
    assert s.log[..k] + s.log[k..] == s.log;
    c := BuiltIsRunThrough(b, i, p, pod);
    assert s.log == s.log[..r] + s.log[r..];
    forall claim | 0 <= claim < |s.procs[p].claims| ensures ClaimReturned(c, p, claim) in s.log[r..] {
      assert ClaimReturned(c, p, claim) in s.log;
      assert WorkOn(ClaimReturned(c, p, claim), p);
    }
  }

  /** Any interleaving with such a hand-out goes on to one that shows this. */
  lemma EarlyHandOutLeadsToWork(b: seq<State>, k: nat) returns (b': seq<State>, r: nat, c: Tid)
    requires Behavior(b) && k < |b[|b| - 1].log|
    requires HandsOut(b[|b| - 1], b[|b| - 1].log[k]) && b[|b| - 1].log[k].done.None?
    ensures b <= b' && Behavior(b') && P.AllReturned(b'[|b'| - 1])
    ensures r < k && WorkedFrom(b'[|b'| - 1], r, b[|b| - 1].log[k].p, c)
  {
    b' := Finishes(b);
    var s, s' := b[|b| - 1], b'[|b'| - 1];
    assert s'.log[k] == s.log[k] && HandsOut(s', s'.log[k]);
    r, c := EarlyHandOutIsWorkedLater(b', |b'| - 1, k);
  }
}
