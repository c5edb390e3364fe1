/**
 Several runs on one process. run waits for the previous run before it starts its own work,
 and that keeps runs apart as long as each of them enters after the one before has installed.
 */
module ProcessSerial {
  import opened Wrappers
  import opened ProcessMachine
  import opened ProcessGuarantees

  predicate RunsOn(T: Thread, p: Pid) { T.call == Run(p) }

  /** Between its first step and the installation of its channel. */
  predicate Entering(pc: Pc) { !pc.Begin? && !HasInstalled(pc) }

  /** Installed and not closed: in the claim loop, or about to enter or leave it. */
  predicate Working(pc: Pc) { HasInstalled(pc) && !HasClosed(pc) }

  /** No run on the same process is still entering. */
  ghost predicate MayEnter(s: State, t: Tid)
    requires t < |s.threads|
  {
    s.threads[t].call.Run? && s.threads[t].pc.Begin? ==>
      forall u :: 0 <= u < |s.threads| && RunsOn(s.threads[u], s.threads[t].call.p) ==> !Entering(s.threads[u].pc)
  }

  ghost predicate SerialNext(s: State, s': State) {
    exists t: Tid, ok: bool :: Enabled(s, t) && Shape(s, s.threads[t]) && MayEnter(s, t) && s' == Fire(s, t, ok)
  }

  ghost predicate SerialNextAt(b: seq<State>, i: int)
    requires 0 <= i < |b| - 1
  {
    SerialNext(b[i], b[i + 1])
  }

  ghost predicate SerialBehavior(b: seq<State>) {
    |b| > 0 && Init(b[0]) && forall i :: 0 <= i < |b| - 1 ==> SerialNextAt(b, i)
  }

  /** With one run per process, as the plugin has it, every behavior is of this kind. */
  lemma {:induction false} SoleIsSerial(b: seq<State>)
    requires Behavior(b) && Sole(b[0])
    ensures SerialBehavior(b)
  {
    forall i | 0 <= i < |b| - 1 ensures SerialNextAt(b, i) {
      assert NextAt(b, i);
      BehaviorKeepsSole(b, i);
      SoleMayEnter(b[i], b[i + 1]);
    }
  }

  lemma {:induction false} SoleMayEnter(s: State, s': State)
    requires Sole(s) && Next(s, s')
    ensures SerialNext(s, s')
  {
    var t: Tid, ok: bool :| Enabled(s, t) && Shape(s, s.threads[t]) && s' == Fire(s, t, ok);
    forall u | 0 <= u < |s.threads| && s.threads[t].call.Run? && RunsOn(s.threads[u], s.threads[t].call.p)
      ensures u == t {
      assert Owned(s.threads[u]) == Owned(s.threads[t]);
    }
  }

  // ----- the invariant

  ghost predicate OneEnters(s: State) {
    forall t, u :: 0 <= t < u < |s.threads| && s.threads[t].call.Run? && s.threads[t].call == s.threads[u].call ==>
      !(Entering(s.threads[t].pc) && Entering(s.threads[u].pc))
  }

  /** A working run is the one whose channel the process holds. */
  ghost predicate WorkerIsCurrent(s: State) {
    forall c :: 0 <= c < |s.threads| && s.threads[c].call.Run? && Working(s.threads[c].pc) ==>
      s.threads[c].call.p < |s.procs| && s.procs[s.threads[c].call.p].done == Some(c)
  }

  /** What an entering run has read is what its process holds, and past its wait that is closed. */
  ghost predicate SeesCurrent(s: State, T: Thread) {
    T.call.Run? && Entering(T.pc) ==>
      T.call.p < |s.procs| &&
      (T.pc.TUnlock? || T.pc.TCancel? || T.pc.TWait? ==> T.pc.done == s.procs[T.call.p].done) &&
      (T.pc.RMake? || T.pc.RLock? || T.pc.RInstall? ==> Finished(s, s.procs[T.call.p].done))
  }

  ghost predicate EntererSeesCurrent(s: State) {
    forall t :: 0 <= t < |s.threads| ==> SeesCurrent(s, s.threads[t])
  }

  ghost predicate Serial(s: State) { OneEnters(s) && WorkerIsCurrent(s) && EntererSeesCurrent(s) }

  /** How one step moves a run between entering, working and closed. */
  ghost predicate Advances(s: State, t: Tid, e: Effect)
    requires t < |s.threads|
  {
    var T := s.threads[t];
    var x := if T.call.Run? && T.call.p < |s.procs| then s.procs[T.call.p].done else None;
    (T.call.Run? && !T.pc.Begin? ==>
       (Entering(e.pc) ==> Entering(T.pc)) &&
       (Working(e.pc) ==> Working(T.pc) || T.pc == RInstall(T.call.p)) &&
       (e.pc.TUnlock? ==> e.pc.done == x) &&
       (e.pc.TCancel? ==> T.pc.TUnlock? && T.pc.done == e.pc.done) &&
       (e.pc.TWait? ==> T.pc.TCancel? && T.pc.done == e.pc.done) &&
       (e.pc.RMake? ==> T.pc.TWait? && Finished(s, T.pc.done)) &&
       (e.pc.RLock? ==> T.pc.RMake?) &&
       (e.pc.RInstall? ==> T.pc.RLock?)) &&
    (T.call.Run? && T.pc.Begin? ==> e.pc == TLock(T.call.p, false)) &&
    (e.write.Update? && e.write.p < |s.procs| && e.write.x.done != s.procs[e.write.p].done ==>
       T.pc == RInstall(e.write.p) && e.write.x.done == Some(t)) &&
    (T.pc.RInstall? ==> e.write.Update? && e.write.p == T.pc.p && e.write.x.done == Some(t))
  }

  lemma {:induction false} TerminateAdvances(s: State, t: Tid)
    requires Enabled(s, t) && Shape(s, s.threads[t]) && InTerminate(s.threads[t].pc)
    ensures Advances(s, t, TerminateStep(s, t, s.threads[t]))
  {
  }

  lemma {:induction false} RunAdvances(s: State, t: Tid, ok: bool)
    requires Enabled(s, t) && Shape(s, s.threads[t]) && InRun(s.threads[t].pc)
    ensures Advances(s, t, RunStep(s, t, s.threads[t], ok))
  {
  }

  lemma {:induction false} StepAdvances(s: State, t: Tid, ok: bool)
    requires Enabled(s, t) && Shape(s, s.threads[t])
    ensures Advances(s, t, StepOf(s, t, ok))
  {
    var T := s.threads[t];
    if InTerminate(T.pc) { TerminateAdvances(s, t); }
    else if InRun(T.pc) { RunAdvances(s, t, ok); }
  }

  lemma StepKeepsOneEnters(s: State, t: Tid, e: Effect)
    requires Inv(s) && t < |s.threads| && Local(s, t, e) && Advances(s, t, e) && MayEnter(s, t) && Serial(s)
    ensures OneEnters(Apply(s, t, e))
  {
    var s' := Apply(s, t, e);
    forall u: Tid, v: Tid | u < v < |s'.threads| && s'.threads[u].call.Run? && s'.threads[u].call == s'.threads[v].call
      ensures !(Entering(s'.threads[u].pc) && Entering(s'.threads[v].pc))
    {
      if v < |s.threads| {
        assert !(Entering(s.threads[u].pc) && Entering(s.threads[v].pc));
      }
    }
  }

  lemma StepKeepsWorkerIsCurrent(s: State, t: Tid, e: Effect)
    requires Inv(s) && t < |s.threads| && Local(s, t, e) && Advances(s, t, e) && Serial(s)
    ensures WorkerIsCurrent(Apply(s, t, e))
  {
    var s' := Apply(s, t, e);
    forall c: Tid | c < |s'.threads| && s'.threads[c].call.Run? && Working(s'.threads[c].pc)
      ensures s'.threads[c].call.p < |s'.procs| && s'.procs[s'.threads[c].call.p].done == Some(c)
    {
      WorkerStaysCurrent(s, t, e, c);
    }
  }

  /** An installation by another run finds the channel of a working one still open, so it does not happen. */
  lemma {:induction false} WorkerStaysCurrent(s: State, t: Tid, e: Effect, c: Tid)
    requires Inv(s) && t < |s.threads| && Local(s, t, e) && Advances(s, t, e) && Serial(s)
    requires c < |s.threads| && s.threads[c].call.Run? && Working(Apply(s, t, e).threads[c].pc)
    ensures var p := s.threads[c].call.p; p < |s.procs| && Apply(s, t, e).procs[p].done == Some(c)
  {
    assert Shape(s, s.threads[c]) && Shape(s, s.threads[t]);
    assert SeesCurrent(s, s.threads[t]);
  }

  lemma {:induction false} StepperSeesCurrent(s: State, t: Tid, e: Effect)
    requires Inv(s) && t < |s.threads| && Local(s, t, e) && Advances(s, t, e) && SeesCurrent(s, s.threads[t])
    ensures SeesCurrent(Apply(s, t, e), Apply(s, t, e).threads[t])
  {
    assert Shape(s, s.threads[t]);
  }

  /** Only an entering run installs, and another one that enters is not on the same process. */
  lemma {:induction false} OtherSeesCurrent(s: State, t: Tid, e: Effect, u: Tid)
    requires Inv(s) && t < |s.threads| && Local(s, t, e) && Advances(s, t, e) && OneEnters(s)
    requires u < |s.threads| && u != t && SeesCurrent(s, s.threads[u])
    ensures SeesCurrent(Apply(s, t, e), s.threads[u])
  {
    assert Shape(s, s.threads[u]) && Shape(s, s.threads[t]);
    assert s.threads[t].call.Run? && s.threads[t].call == s.threads[u].call ==>
      !(Entering(s.threads[u].pc) && Entering(s.threads[t].pc));
  }

  lemma StepKeepsEntererSeesCurrent(s: State, t: Tid, e: Effect)
    requires Inv(s) && t < |s.threads| && Local(s, t, e) && Advances(s, t, e) && Serial(s)
    ensures EntererSeesCurrent(Apply(s, t, e))
  {
    var s' := Apply(s, t, e);
    forall u: Tid | u < |s'.threads| ensures SeesCurrent(s', s'.threads[u]) {
      if u == t {
        StepperSeesCurrent(s, t, e);
      } else if u < |s.threads| {
        OtherSeesCurrent(s, t, e, u);
      }
    }
  }

  lemma SerialNextKeeps(s: State, s': State)
    requires Inv(s) && Serial(s) && SerialNext(s, s')
    ensures Inv(s') && Serial(s')
  {
    var t: Tid, ok: bool :| Enabled(s, t) && Shape(s, s.threads[t]) && MayEnter(s, t) && s' == Fire(s, t, ok);
    var e := StepOf(s, t, ok);
    StepIsLocal(s, t, ok);
    StepAdvances(s, t, ok);
    StepKeepsInv(s, t, ok);
    StepKeepsOneEnters(s, t, e);
    StepKeepsWorkerIsCurrent(s, t, e);
    StepKeepsEntererSeesCurrent(s, t, e);
  }

  lemma {:induction false} SerialBehaviorKeeps(b: seq<State>, i: nat)
    requires SerialBehavior(b) && i < |b|
    ensures Inv(b[i]) && Serial(b[i])
  {
    if i == 0 {
      InitHasInv(b[0]);
    } else {
      SerialBehaviorKeeps(b, i - 1);
      assert SerialNextAt(b, i - 1);
      SerialNextKeeps(b[i - 1], b[i]);
    }
  }

  /** Under that discipline no two runs on a process are ever in the claim loop together. */
  lemma RunsAreSerial(b: seq<State>, i: nat, c: Tid, d: Tid)
    requires SerialBehavior(b) && i < |b| && c < |b[i].threads| && d < |b[i].threads|
    requires b[i].threads[c].call.Run? && b[i].threads[c].call == b[i].threads[d].call
    requires Working(b[i].threads[c].pc) && Working(b[i].threads[d].pc)
    ensures c == d
  {
    SerialBehaviorKeeps(b, i);
  }
}
