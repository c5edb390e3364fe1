/**
 Every call on the plugin and its processes finishes: no deadlock, and a measure over
 program points, remaining claims and remaining devices that falls on every step.
 */
module ProcessProgress {
  import opened Wrappers
  import opened ProcessMachine

  predicate AllReturned(s: State) { forall t :: 0 <= t < |s.threads| ==> s.threads[t].pc.Returned? }

  // ----- deadlock freedom

  /** The call that stops call t, if t is stopped: the holder of a process mutex, or the run whose channel is open. */
  function Blocker(s: State, t: Tid): Tid
    requires t < |s.threads| && Shape(s, s.threads[t])
  {
    var pc := s.threads[t].pc;
    if (pc.TLock? || pc.DLock? || pc.RLock?) && s.procs[pc.p].lock.Some? then s.procs[pc.p].lock.value
    else if pc.TWait? && !Finished(s, pc.done) then pc.done.value
    else t
  }

  /** Who holds a process mutex never waits. */
  lemma MutexHolderRuns(s: State, p: Pid)
    requires Inv(s) && p < |s.procs| && s.procs[p].lock.Some?
    ensures Enabled(s, s.procs[p].lock.value)
  {
    var h := s.procs[p].lock.value;
    assert Holds(s.threads[h].pc) == Some(p);
    assert Shape(s, s.threads[h]);
  }

  /** An installed channel that is not closed belongs to a run that can step. */
  lemma ChannelOwnerRuns(s: State, p: Pid, c: Tid)
    requires Inv(s) && InstalledRun(s, p, c) && c !in s.closed
    ensures Enabled(s, c)
  {
    assert Shape(s, s.threads[c]);
  }

  /** A call past its first step is stopped by at most one other call, and that one can step. */
  lemma BlockerRuns(s: State, t: Tid)
    requires Inv(s) && t < |s.threads| && !s.threads[t].pc.Returned? && !s.threads[t].pc.Begin?
    ensures Shape(s, s.threads[t]) && Enabled(s, Blocker(s, t))
  {
    var pc := s.threads[t].pc;
    assert Shape(s, s.threads[t]);
    if (pc.TLock? || pc.DLock? || pc.RLock?) && s.procs[pc.p].lock.Some? {
      MutexHolderRuns(s, pc.p);
    } else if pc.TWait? && !Finished(s, pc.done) {
      assert Known(pc) == pc.done;
      ChannelOwnerRuns(s, pc.p, pc.done.value);
    } else if pc.RClose? {
      ChannelOwnerRuns(s, pc.p, t);
    }
  }

  /**
   Whatever call is unfinished, some call can step: itself, its blocker, or the blocker of the plugin mutex holder.
   */
  lemma DeadlockFree(s: State)
    requires Inv(s) && !AllReturned(s)
    ensures exists t :: Enabled(s, t)
  {
    var t :| 0 <= t < |s.threads| && !s.threads[t].pc.Returned?;
    if !s.threads[t].pc.Begin? {
      BlockerRuns(s, t);
    } else if !Enabled(s, t) {
      var h := s.pluginLock.value;
      assert HoldsPlugin(s.threads[h]);
      BlockerRuns(s, h);
    }
  }

  /** Call u is what call t is stopped by. */
  predicate Stops(s: State, u: Tid, t: Tid)
    requires t < |s.threads| && u < |s.threads|
  {
    var T, U := s.threads[t], s.threads[u];
    || ((T.pc.TLock? || T.pc.DLock? || T.pc.RLock?) && Holds(U.pc) == Some(T.pc.p))
    || (T.pc.TWait? && T.pc.done == Some(u) && InstalledRun(s, T.pc.p, u) && u !in s.closed)
    || (T.pc.Begin? && Plugin(T.call) && HoldsPlugin(U))
  }

  /**
   Nothing else stops a call: an unfinished one that cannot step waits for a process mutex that another call
   holds, for the channel of another run that is installed and open, or for the plugin mutex that another
   hook holds.
   */
  lemma {:induction false} StoppedByAnother(s: State, t: Tid) returns (u: Tid)
    requires Inv(s) && t < |s.threads| && !s.threads[t].pc.Returned? && !Enabled(s, t)
    ensures u < |s.threads| && u != t && Stops(s, u, t)
  {
    var T := s.threads[t];
    assert Shape(s, T);
    if T.pc.Begin? {
      u := s.pluginLock.value;
    } else if T.pc.TWait? {
      u := T.pc.done.value;
      assert Known(T.pc) == T.pc.done;
    } else if T.pc.RClose? {
      assert false; // its channel is open
    } else {
      u := s.procs[T.pc.p].lock.value;
    }
  }

  // ----- termination

  /** Iterations of the claim loop from claim i on, with its device loops. */
  function LoopSteps(claims: seq<Claim>, i: nat): nat
    decreases |claims| - i
  {
    if i >= |claims| then 0 else |claims[i]| + 2 + LoopSteps(claims, i + 1)
  }

  /** At most this many steps of terminate are left. */
  function TerminateSteps(pc: Pc): nat {
    match pc
    case TLock(_, _) => 5
    case TTake(_, _) => 4
    case TUnlock(_, _, _, _) => 3
    case TCancel(_, _, _, _) => 2
    case TWait(_, _, _) => 1
    case _ => 0
  }

  function IsDoneSteps(pc: Pc): nat {
    match pc
    case DLock(_) => 4
    case DRead(_) => 3
    case DUnlock(_, _) => 2
    case DTest(_, _) => 1
    case _ => 0
  }

  const RUN_STEPS: nat := 17 // of a run with no claims

  function RunSteps(claims: seq<Claim>, pc: Pc): nat {
    if InTerminate(pc) then TerminateSteps(pc) + (if pc.last then 0 else 11 + LoopSteps(claims, 0))
    else match pc
      case Begin => RUN_STEPS + LoopSteps(claims, 0)
      case RMake(_) => 11 + LoopSteps(claims, 0)
      case RLock(_) => 10 + LoopSteps(claims, 0)
      case RInstall(_) => 9 + LoopSteps(claims, 0)
      case RUnlock(_) => 8 + LoopSteps(claims, 0)
      case RClaims(_, i) => 7 + LoopSteps(claims, i)
      case RDevices(_, i, j) =>
        8 + LoopSteps(claims, i + 1) + (if i < |claims| && j < |claims[i]| then |claims[i]| - j else 0)
      case RClose(_) => 6
      case _ => 0
  }

  /** A bound on the steps a call still takes, counting those of a run it is going to start. */
  function Steps(procs: seq<Process>, T: Thread): nat
    requires InScope(procs, T)
  {
    var pc := T.pc;
    match T.call
    case Run(p) => RunSteps(procs[p].claims, pc)
    case Terminate(_) => if pc.Begin? then 6 else TerminateSteps(pc)
    case IsDone(_) => if pc.Begin? then 5 else IsDoneSteps(pc)
    case StartContainer(_) =>
      if pc.Begin? then 8 else if pc.PHeld? then 7 else if pc.PDelete? then 2 else if pc.PUnlock? then 1
      else if InIsDone(pc) then 2 + IsDoneSteps(pc) else 0
    case RemovePodSandbox(_) =>
      if pc.Begin? then 9 else if pc.PHeld? then 8 else if pc.PDelete? then 2 else if pc.PUnlock? then 1
      else if InTerminate(pc) then 2 + TerminateSteps(pc) else 0
    case RunPodSandbox(_, claims, _) =>
      if pc.Returned? then 0
      else RUN_STEPS + LoopSteps(claims, 0) +
           (if pc.Begin? then 4 else if pc.PHeld? then 3 else if pc.PSpawning? then 2 else 1)
  }

  function Sum(ns: seq<nat>): nat {
    if ns == [] then 0 else Sum(ns[..|ns| - 1]) + ns[|ns| - 1]
  }

  /** The bounds of all calls. */
  ghost function AllSteps(s: State): seq<nat>
    requires Shapes(s)
  {
    assert forall t :: 0 <= t < |s.threads| ==> Shape(s, s.threads[t]);
    seq(|s.threads|, t requires 0 <= t < |s.threads| => Steps(s.procs, s.threads[t]))
  }

  ghost function Measure(s: State): nat
    requires Shapes(s)
  {
    Sum(AllSteps(s))
  }

  /** What remains for the call that takes a step, with the run it may start. */
  function StepsAfter(s: State, T: Thread, e: Effect): nat
    requires LocalShape(s, T, e)
  {
    Steps(Written(s.procs, e.write), T.(pc := e.pc)) + Spawned(s, e)
  }

  lemma TerminateStepCounts(s: State, t: Tid)
    requires Enabled(s, t) && Shape(s, s.threads[t]) && InTerminate(s.threads[t].pc)
    requires LocalShape(s, s.threads[t], TerminateStep(s, t, s.threads[t]))
    ensures StepsAfter(s, s.threads[t], TerminateStep(s, t, s.threads[t])) < Steps(s.procs, s.threads[t])
  {
  }

  lemma IsDoneStepCounts(s: State, t: Tid)
    requires Enabled(s, t) && Shape(s, s.threads[t]) && InIsDone(s.threads[t].pc)
    requires LocalShape(s, s.threads[t], IsDoneStep(s, t, s.threads[t]))
    ensures StepsAfter(s, s.threads[t], IsDoneStep(s, t, s.threads[t])) < Steps(s.procs, s.threads[t])
  {
  }

  lemma {:induction false} LoopStepCounts(s: State, t: Tid, ok: bool)
    requires Enabled(s, t) && Shape(s, s.threads[t]) && InLoop(s.threads[t].pc)
    requires LocalShape(s, s.threads[t], RunStep(s, t, s.threads[t], ok))
    ensures StepsAfter(s, s.threads[t], RunStep(s, t, s.threads[t], ok)) < Steps(s.procs, s.threads[t])
  {
  }

  lemma {:induction false} RunStepCounts(s: State, t: Tid, ok: bool)
    requires Enabled(s, t) && Shape(s, s.threads[t]) && InRun(s.threads[t].pc)
    requires LocalShape(s, s.threads[t], RunStep(s, t, s.threads[t], ok))
    ensures StepsAfter(s, s.threads[t], RunStep(s, t, s.threads[t], ok)) < Steps(s.procs, s.threads[t])
  {
    if InLoop(s.threads[t].pc) { LoopStepCounts(s, t, ok); }
  }

  lemma HookStepCounts(s: State, t: Tid)
    requires Enabled(s, t) && Shape(s, s.threads[t])
    requires !InTerminate(s.threads[t].pc) && !InIsDone(s.threads[t].pc) && !InRun(s.threads[t].pc)
    requires LocalShape(s, s.threads[t], HookStep(s, t, s.threads[t]))
    ensures StepsAfter(s, s.threads[t], HookStep(s, t, s.threads[t])) < Steps(s.procs, s.threads[t])
  {
  }

  /** A step changes neither the claims of a process nor what another call still has to do. */
  lemma {:induction false} OthersKeepSteps(s: State, t: Tid, e: Effect, u: Tid)
    requires Inv(s) && t < |s.threads| && Local(s, t, e) && u < |s.threads| && u != t
    ensures var s' := Apply(s, t, e);
            s'.threads[u] == s.threads[u] && InScope(s'.procs, s.threads[u]) && InScope(s.procs, s.threads[u]) &&
            Steps(s'.procs, s.threads[u]) == Steps(s.procs, s.threads[u])
  {
    assert Shape(s, s.threads[u]);
  }

  /** The steps of the run that a step starts. */
  function Spawned(s: State, e: Effect): nat
    requires e.spawn.Some? ==> e.spawn.value < |s.procs|
  {
    if e.spawn.Some? then RUN_STEPS + LoopSteps(s.procs[e.spawn.value].claims, 0) else 0
  }

  /** A step replaces the bound of its own call and adds that of the run it starts. */
  lemma {:induction false} StepsChange(s: State, t: Tid, e: Effect)
    requires Inv(s) && t < |s.threads| && Local(s, t, e) && Shapes(Apply(s, t, e))
    ensures var own := Steps(Written(s.procs, e.write), s.threads[t].(pc := e.pc));
            AllSteps(Apply(s, t, e)) == AllSteps(s)[t := own] + (if e.spawn.Some? then [Spawned(s, e)] else [])
  {
    var s' := Apply(s, t, e);
    forall u | 0 <= u < |s.threads| && u != t ensures AllSteps(s')[u] == AllSteps(s)[u] {
      OthersKeepSteps(s, t, e, u);
    }
  }

  lemma {:induction false} SumOf(a: seq<nat>, b: seq<nat>)
    ensures Sum(a + b) == Sum(a) + Sum(b)
  {
    if b == [] {
      assert a + b == a;
    } else {
      var n := |b| - 1;
      assert (a + b)[..|a| + n] == a + b[..n];
      SumOf(a, b[..n]);
    }
  }

  lemma {:induction false} SumWith(ns: seq<nat>, t: nat, n: nat)
    requires t < |ns|
    ensures Sum(ns[t := n]) + ns[t] == Sum(ns) + n
  {
    var head, tail := ns[..t], ns[t + 1..];
    assert ns == head + [ns[t]] + tail && ns[t := n] == head + [n] + tail;
    SumOf(head, [ns[t]]);
    SumOf(head, [n]);
    SumOf(head + [ns[t]], tail);
    SumOf(head + [n], tail);
    SumOfOne(ns[t]);
    SumOfOne(n);
  }

  lemma SumOfOne(n: nat)
    ensures Sum([n]) == n
  {
    assert [n][..0] == [];
  }

  lemma {:induction false} TotalFalls(s: State, t: Tid, e: Effect)
    requires Inv(s) && t < |s.threads| && Local(s, t, e) && Shapes(Apply(s, t, e))
    requires StepsAfter(s, s.threads[t], e) < Steps(s.procs, s.threads[t])
    ensures Measure(Apply(s, t, e)) < Measure(s)
  {
    var own := Steps(Written(s.procs, e.write), s.threads[t].(pc := e.pc));
    StepsChange(s, t, e);
    SumWith(AllSteps(s), t, own);
    SumOf(AllSteps(s)[t := own], if e.spawn.Some? then [Spawned(s, e)] else []);
    SumOfOne(Spawned(s, e));
  }

  lemma MeasureFalls(s: State, t: Tid, ok: bool)
    requires Inv(s) && Enabled(s, t)
    ensures Shape(s, s.threads[t]) && Inv(Fire(s, t, ok)) && Measure(Fire(s, t, ok)) < Measure(s)
  {
    var T := s.threads[t];
    assert Shape(s, T);
    StepIsLocal(s, t, ok);
    StepKeepsInv(s, t, ok);
    if InTerminate(T.pc) { TerminateStepCounts(s, t); }
    else if InIsDone(T.pc) { IsDoneStepCounts(s, t); }
    else if InRun(T.pc) { RunStepCounts(s, t, ok); }
    else { HookStepCounts(s, t); }
    TotalFalls(s, t, StepOf(s, t, ok));
  }

  lemma NextLowersMeasure(s: State, s': State)
    requires Inv(s) && Next(s, s')
    ensures Inv(s') && Measure(s') < Measure(s)
  {
    var t: Tid, ok: bool :| Enabled(s, t) && Shape(s, s.threads[t]) && s' == Fire(s, t, ok);
    MeasureFalls(s, t, ok);
  }

  /** No interleaving is longer than the measure of its first state. */
  lemma {:induction false} BehaviorsAreBounded(b: seq<State>, i: nat)
    requires Behavior(b) && i < |b|
    ensures Inv(b[0]) && Inv(b[i]) && i + Measure(b[i]) <= Measure(b[0])
  {
    InitHasInv(b[0]);
    if i > 0 {
      BehaviorsAreBounded(b, i - 1);
      assert NextAt(b, i - 1);
      NextLowersMeasure(b[i - 1], b[i]);
    }
  }

  /** An interleaving that cannot be extended has finished every call, and closed the channel of every run. */
  lemma StoppedMeansFinished(b: seq<State>, last: State)
    requires Behavior(b) && last == b[|b| - 1]
    requires forall t: Tid :: t < |last.threads| ==> !Enabled(last, t)
    ensures AllReturned(last)
    ensures forall c :: 0 <= c < |last.threads| && last.threads[c].call.Run? ==> c in last.closed
  {
    BehaviorKeepsInv(b, |b| - 1);
    if !AllReturned(last) {
      DeadlockFree(last);
    }
  }
}
