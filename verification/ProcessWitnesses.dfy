/** Concrete interleavings that show why the guarantees start at the installation of the channel. */
module ProcessWitnesses {
  import opened Wrappers
  import opened ProcessMachine
  import ProcessGuarantees
  import ProcessHandOut

  const CLAIMS: seq<Claim> := [[Call("Macvlan")]]

  const IDLE: Process := Process(CLAIMS, None, None, None)

  /**
   A RunPodSandbox of one pod, a StartContainer and a RemovePodSandbox of it, and the run that the first one starts.
   */
  function Calls(sandbox: Pc, start: Pc, remove: Pc, run: Option<Pc>): seq<Thread> {
    [Thread(RunPodSandbox("pod", CLAIMS, true), sandbox), Thread(StartContainer("pod"), start),
        Thread(RemovePodSandbox("pod"), remove)] +
    (if run.Some? then [Thread(Run(0), run.value)] else [])
  }

  /** The pod is sandboxed: the hook at pc, before it starts the run. */
  function Sandboxing(pc: Pc, lock: Option<Tid>, procs: seq<Process>, log: seq<Event>): State {
    State(Calls(pc, Begin, Begin, None), procs, lock, if procs == [] then map[] else map["pod" := 0], {}, {}, log)
  }

  /** The run is started but never steps; StartContainer is at pc, holding a process mutex or not. */
  function Starting(pc: Pc, lock: Option<Tid>, holder: Option<Tid>, pods: map<string, Pid>, log: seq<Event>): State {
    State(Calls(Returned, pc, Begin, Some(Begin)), [IDLE.(lock := holder)], lock, pods, {}, {}, log)
  }

  /** The container is started; RemovePodSandbox is at pc. */
  function Removing(pc: Pc, lock: Option<Tid>, log: seq<Event>): State {
    State(Calls(Returned, Returned, pc, Some(Begin)), [IDLE], lock, map[], {}, {}, log)
  }

  /** All hooks have returned; the run is at pc. */
  function Running(pc: Pc, x: Process, log: seq<Event>): State {
    State(Calls(Returned, Returned, Returned, Some(pc)), [x], None, map[], {}, {}, log)
  }

  const FOUND: seq<Event> := [Built(0, 0, "pod"), LookedUp(1, "pod", Some(0))]
  const READ: seq<Event> := FOUND + [ReadDone(1, 0, None)]
  const PASSED: seq<Event> := READ + [Passed(1, 0, None)]
  const REMOVED: seq<Event> := PASSED + [LookedUp(2, "pod", None)]
  const ENTERED: seq<Event> := REMOVED + [Took(3, 0, None, None)]
  const WAITED: seq<Event> := ENTERED + [Terminated(3, 0, None)]
  const INSTALLED: seq<Event> := WAITED + [Installed(3, 0)]
  const CONFIGURED: seq<Event> := INSTALLED + [Configured(3, 0, 0, 0, true)]

  ghost predicate EndsIn(b: seq<State>, last: State) {
    Behavior(b) && b[|b| - 1] == last && ProcessGuarantees.Sole(b[0])
  }

  lemma GoesOn(b: seq<State>, s: State, t: Tid, s': State) returns (b': seq<State>)
    requires EndsIn(b, s)
    requires Enabled(s, t) && Shape(s, s.threads[t]) && s' == Fire(s, t, true)
    ensures EndsIn(b', s')
  {
    b' := b + [s'];
    forall i | 0 <= i < |b'| - 1 ensures NextAt(b', i) {
      if i < |b| - 1 { assert NextAt(b, i); } else { assert Next(s, s'); }
    }
  }

  lemma SandboxHolds() returns (b: seq<State>)
    ensures EndsIn(b, Sandboxing(PHeld, Some(0), [], []))
  {
    var s := Sandboxing(Begin, None, [], []);
    b := GoesOn([s], s, 0, Sandboxing(PHeld, Some(0), [], []));
  }

  lemma SandboxBuilds() returns (b: seq<State>)
    ensures EndsIn(b, Sandboxing(PSpawning(0), Some(0), [IDLE], [Built(0, 0, "pod")]))
  {
    b := SandboxHolds();
    b := GoesOn(b, Sandboxing(PHeld, Some(0), [], []), 0,
        Sandboxing(PSpawning(0), Some(0), [IDLE], [Built(0, 0, "pod")]));
  }

  lemma SandboxReturns() returns (b: seq<State>)
    ensures EndsIn(b, Starting(Begin, None, None, map["pod" := 0], [Built(0, 0, "pod")]))
  {
    b := SandboxBuilds();
    b := GoesOn(b, Sandboxing(PSpawning(0), Some(0), [IDLE], [Built(0, 0, "pod")]), 0,
        Sandboxing(PSpawn(0), None, [IDLE], [Built(0, 0, "pod")]));
    b := GoesOn(b, Sandboxing(PSpawn(0), None, [IDLE], [Built(0, 0, "pod")]), 0,
        Starting(Begin, None, None, map["pod" := 0], [Built(0, 0, "pod")]));
  }

  lemma StartFindsProcess() returns (b: seq<State>)
    ensures EndsIn(b, Starting(DLock(0), Some(1), None, map["pod" := 0], FOUND))
  {
    b := SandboxReturns();
    b := GoesOn(b, Starting(Begin, None, None, map["pod" := 0], [Built(0, 0, "pod")]), 1,
        Starting(PHeld, Some(1), None, map["pod" := 0], [Built(0, 0, "pod")]));
    b := GoesOn(b, Starting(PHeld, Some(1), None, map["pod" := 0], [Built(0, 0, "pod")]), 1,
        Starting(DLock(0), Some(1), None, map["pod" := 0], FOUND));
  }

  lemma StartReads() returns (b: seq<State>)
    ensures EndsIn(b, Starting(DUnlock(0, None), Some(1), Some(1), map["pod" := 0], READ))
  {
    b := StartFindsProcess();
    b := GoesOn(b, Starting(DLock(0), Some(1), None, map["pod" := 0], FOUND), 1,
        Starting(DRead(0), Some(1), Some(1), map["pod" := 0], FOUND));
    b := GoesOn(b, Starting(DRead(0), Some(1), Some(1), map["pod" := 0], FOUND), 1,
        Starting(DUnlock(0, None), Some(1), Some(1), map["pod" := 0], READ));
  }

  lemma StartPasses() returns (b: seq<State>)
    ensures EndsIn(b, Starting(PDelete, Some(1), None, map["pod" := 0], PASSED))
  {
    b := StartReads();
    b := GoesOn(b, Starting(DUnlock(0, None), Some(1), Some(1), map["pod" := 0], READ), 1,
        Starting(DTest(0, None), Some(1), None, map["pod" := 0], READ));
    b := GoesOn(b, Starting(DTest(0, None), Some(1), None, map["pod" := 0], READ), 1,
        Starting(PDelete, Some(1), None, map["pod" := 0], PASSED));
  }

  /**
   StartContainer lets the container start although the only run of the pod has not begun: a "done"
   answer alone does not imply a configured pod.
   */
  lemma StartsBeforeConfigured() returns (b: seq<State>)
    ensures Behavior(b) && ProcessGuarantees.Sole(b[0]) && b[|b| - 1].log == PASSED
    ensures b[|b| - 1].threads == Calls(Returned, PDelete, Begin, Some(Begin))
  {
    b := StartPasses();
  }

  lemma StartReturns() returns (b: seq<State>)
    ensures EndsIn(b, Removing(Begin, None, PASSED))
  {
    b := StartPasses();
    b := GoesOn(b, Starting(PDelete, Some(1), None, map["pod" := 0], PASSED), 1,
        Starting(PUnlock, Some(1), None, map[], PASSED));
    b := GoesOn(b, Starting(PUnlock, Some(1), None, map[], PASSED), 1, Removing(Begin, None, PASSED));
  }

  lemma RemoveFindsNothing() returns (b: seq<State>)
    ensures EndsIn(b, Removing(PUnlock, Some(2), REMOVED))
  {
    b := StartReturns();
    b := GoesOn(b, Removing(Begin, None, PASSED), 2, Removing(PHeld, Some(2), PASSED));
    b := GoesOn(b, Removing(PHeld, Some(2), PASSED), 2, Removing(PUnlock, Some(2), REMOVED));
  }

  lemma RemoveReturns() returns (b: seq<State>)
    ensures EndsIn(b, Running(TLock(0, false), IDLE, REMOVED))
  {
    b := RemoveFindsNothing();
    b := GoesOn(b, Removing(PUnlock, Some(2), REMOVED), 2, Running(Begin, IDLE, REMOVED));
    b := GoesOn(b, Running(Begin, IDLE, REMOVED), 3, Running(TLock(0, false), IDLE, REMOVED));
  }

  lemma RunTakes() returns (b: seq<State>)
    ensures EndsIn(b, Running(TUnlock(0, false, None, None), IDLE.(lock := Some(3)), ENTERED))
  {
    b := RemoveReturns();
    b := GoesOn(b, Running(TLock(0, false), IDLE, REMOVED), 3,
        Running(TTake(0, false), IDLE.(lock := Some(3)), REMOVED));
    b := GoesOn(b, Running(TTake(0, false), IDLE.(lock := Some(3)), REMOVED), 3,
        Running(TUnlock(0, false, None, None), IDLE.(lock := Some(3)), ENTERED));
  }

  lemma RunWaits() returns (b: seq<State>)
    ensures EndsIn(b, Running(TWait(0, false, None), IDLE, ENTERED))
  {
    b := RunTakes();
    b := GoesOn(b, Running(TUnlock(0, false, None, None), IDLE.(lock := Some(3)), ENTERED), 3,
        Running(TCancel(0, false, None, None), IDLE, ENTERED));
    b := GoesOn(b, Running(TCancel(0, false, None, None), IDLE, ENTERED), 3,
        Running(TWait(0, false, None), IDLE, ENTERED));
  }

  lemma RunMakes() returns (b: seq<State>)
    ensures EndsIn(b, Running(RLock(0), IDLE, WAITED))
  {
    b := RunWaits();
    b := GoesOn(b, Running(TWait(0, false, None), IDLE, ENTERED), 3, Running(RMake(0), IDLE, WAITED));
    b := GoesOn(b, Running(RMake(0), IDLE, WAITED), 3, Running(RLock(0), IDLE, WAITED));
  }

  lemma RunInstalls() returns (b: seq<State>)
    ensures EndsIn(b, Running(RUnlock(0), IDLE.(done := Some(3), cancel := Some(3)).(lock := Some(3)), INSTALLED))
  {
    b := RunMakes();
    b := GoesOn(b, Running(RLock(0), IDLE, WAITED), 3, Running(RInstall(0), IDLE.(lock := Some(3)), WAITED));
    b := GoesOn(b, Running(RInstall(0), IDLE.(lock := Some(3)), WAITED), 3,
        Running(RUnlock(0), IDLE.(done := Some(3), cancel := Some(3)).(lock := Some(3)), INSTALLED));
  }

  lemma RunLoops() returns (b: seq<State>)
    ensures EndsIn(b, Running(RDevices(0, 0, 0), IDLE.(done := Some(3), cancel := Some(3)), INSTALLED))
  {
    b := RunInstalls();
    b := GoesOn(b, Running(RUnlock(0), IDLE.(done := Some(3), cancel := Some(3)).(lock := Some(3)), INSTALLED), 3,
        Running(RClaims(0, 0), IDLE.(done := Some(3), cancel := Some(3)), INSTALLED));
    b := GoesOn(b, Running(RClaims(0, 0), IDLE.(done := Some(3), cancel := Some(3)), INSTALLED), 3,
        Running(RDevices(0, 0, 0), IDLE.(done := Some(3), cancel := Some(3)), INSTALLED));
  }

  /**
   And a RemovePodSandbox that comes then finds nothing and returns, while the run goes on to
   configure the pod: the exception that RemovalGate leaves open does happen.
   */
  lemma ConfiguresAfterRemoval() returns (b: seq<State>)
    ensures Behavior(b) && ProcessGuarantees.Sole(b[0]) && b[|b| - 1].log == CONFIGURED
    ensures b[|b| - 1].threads == Calls(Returned, Returned, Returned, Some(RDevices(0, 0, 1)))
    ensures ProcessHandOut.Removes(b[|b| - 1], CONFIGURED[4], "pod") && ProcessGuarantees.WorkOn(CONFIGURED[8], 0)
  {
    b := RunLoops();
    b := GoesOn(b, Running(RDevices(0, 0, 0), IDLE.(done := Some(3), cancel := Some(3)), INSTALLED), 3,
        Running(RDevices(0, 0, 1), IDLE.(done := Some(3), cancel := Some(3)), CONFIGURED));
  }
}
