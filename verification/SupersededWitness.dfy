/**
 The other exception that a removal leaves: a pod that is sandboxed twice. Its first process is no longer
 in the map when the pod is removed, and goes on.
 */
module SupersededWitness {
  import opened Wrappers
  import opened ProcessMachine
  import opened ProcessWitnesses
  import ProcessGuarantees
  import ProcessPods
  import ProcessHandOut

  /** Two RunPodSandbox of one pod, a RemovePodSandbox of it, and the runs that have been started. */
  function Threads(first: Pc, second: Pc, remove: Pc, runs: seq<Thread>): seq<Thread> {
    [Thread(RunPodSandbox("pod", CLAIMS, true), first), Thread(RunPodSandbox("pod", CLAIMS, true), second),
     Thread(RemovePodSandbox("pod"), remove)] + runs
  }

  const IDLE_RUNS: seq<Thread> := [Thread(Run(0), Begin), Thread(Run(1), Begin)]

  /** The first sandboxing at pc. */
  function First(pc: Pc, lock: Option<Tid>, procs: seq<Process>, log: seq<Event>): State {
    State(Threads(pc, Begin, Begin, []), procs, lock, if procs == [] then map[] else map["pod" := 0], {}, {}, log)
  }

  /** The second sandboxing at pc, with the first process or its own in the map. */
  function Second(pc: Pc, lock: Option<Tid>, procs: seq<Process>, log: seq<Event>): State {
    State(Threads(Returned, pc, Begin, [Thread(Run(0), Begin)]), procs, lock,
          if |procs| < 2 then map["pod" := 0] else map["pod" := 1], {}, {}, log)
  }

  /** The removal at pc. */
  function Removal(pc: Pc, lock: Option<Tid>, x: Process, pods: map<string, Pid>, log: seq<Event>): State {
    State(Threads(Returned, Returned, pc, IDLE_RUNS), [IDLE, x], lock, pods, {}, {}, log)
  }

  /** The run of the first process at pc, after everything else. */
  function Late(pc: Pc, x: Process, log: seq<Event>): State {
    State(Threads(Returned, Returned, Returned, [Thread(Run(0), pc), Thread(Run(1), Begin)]), [x, IDLE], None, map[],
        {}, {}, log)
  }

  const BUILT: seq<Event> := [Built(0, 0, "pod")]
  const TWICE: seq<Event> := BUILT + [Built(1, 1, "pod")]
  const LOOKED: seq<Event> := TWICE + [LookedUp(2, "pod", Some(1))]
  const TOOK: seq<Event> := LOOKED + [Took(2, 1, None, None)]
  const GONE: seq<Event> := TOOK + [Terminated(2, 1, None)]
  const LATE_TOOK: seq<Event> := GONE + [Took(3, 0, None, None)]
  const LATE_WAITED: seq<Event> := LATE_TOOK + [Terminated(3, 0, None)]
  const LATE_INSTALLED: seq<Event> := LATE_WAITED + [Installed(3, 0)]
  const LATE_CONFIGURED: seq<Event> := LATE_INSTALLED + [Configured(3, 0, 0, 0, true)]

  lemma FirstHolds() returns (b: seq<State>)
    ensures EndsIn(b, First(PHeld, Some(0), [], []))
  {
    var s := First(Begin, None, [], []);
    b := GoesOn([s], s, 0, First(PHeld, Some(0), [], []));
  }

  lemma FirstBuilds() returns (b: seq<State>)
    ensures EndsIn(b, First(PSpawning(0), Some(0), [IDLE], BUILT))
  {
    b := FirstHolds();
    b := GoesOn(b, First(PHeld, Some(0), [], []), 0, First(PSpawning(0), Some(0), [IDLE], BUILT));
  }

  lemma FirstReturns() returns (b: seq<State>)
    ensures EndsIn(b, Second(Begin, None, [IDLE], BUILT))
  {
    b := FirstBuilds();
    b := GoesOn(b, First(PSpawning(0), Some(0), [IDLE], BUILT), 0, First(PSpawn(0), None, [IDLE], BUILT));
    b := GoesOn(b, First(PSpawn(0), None, [IDLE], BUILT), 0, Second(Begin, None, [IDLE], BUILT));
  }

  lemma SecondHolds() returns (b: seq<State>)
    ensures EndsIn(b, Second(PHeld, Some(1), [IDLE], BUILT))
  {
    b := FirstReturns();
    b := GoesOn(b, Second(Begin, None, [IDLE], BUILT), 1, Second(PHeld, Some(1), [IDLE], BUILT));
  }

  lemma SecondBuilds() returns (b: seq<State>)
    ensures EndsIn(b, Second(PSpawning(1), Some(1), [IDLE, IDLE], TWICE))
  {
    b := SecondHolds();
    b := GoesOn(b, Second(PHeld, Some(1), [IDLE], BUILT), 1, Second(PSpawning(1), Some(1), [IDLE, IDLE], TWICE));
  }

  lemma SecondReturns() returns (b: seq<State>)
    ensures EndsIn(b, Removal(Begin, None, IDLE, map["pod" := 1], TWICE))
  {
    b := SecondBuilds();
    b := GoesOn(b, Second(PSpawning(1), Some(1), [IDLE, IDLE], TWICE), 1,
                Second(PSpawn(1), None, [IDLE, IDLE], TWICE));
    b := GoesOn(b, Second(PSpawn(1), None, [IDLE, IDLE], TWICE), 1,
                Removal(Begin, None, IDLE, map["pod" := 1], TWICE));
  }

  lemma RemovalLooks() returns (b: seq<State>)
    ensures EndsIn(b, Removal(TLock(1, false), Some(2), IDLE, map["pod" := 1], LOOKED))
  {
    b := SecondReturns();
    b := GoesOn(b, Removal(Begin, None, IDLE, map["pod" := 1], TWICE), 2,
                Removal(PHeld, Some(2), IDLE, map["pod" := 1], TWICE));
    b := GoesOn(b, Removal(PHeld, Some(2), IDLE, map["pod" := 1], TWICE), 2,
                Removal(TLock(1, false), Some(2), IDLE, map["pod" := 1], LOOKED));
  }

  lemma RemovalTakes() returns (b: seq<State>)
    ensures EndsIn(b, Removal(TUnlock(1, false, None, None), Some(2), IDLE.(lock := Some(2)), map["pod" := 1], TOOK))
  {
    b := RemovalLooks();
    b := GoesOn(b, Removal(TLock(1, false), Some(2), IDLE, map["pod" := 1], LOOKED), 2,
                Removal(TTake(1, false), Some(2), IDLE.(lock := Some(2)), map["pod" := 1], LOOKED));
    b := GoesOn(b, Removal(TTake(1, false), Some(2), IDLE.(lock := Some(2)), map["pod" := 1], LOOKED), 2,
                Removal(TUnlock(1, false, None, None), Some(2), IDLE.(lock := Some(2)), map["pod" := 1], TOOK));
  }

  lemma RemovalWaits() returns (b: seq<State>)
    ensures EndsIn(b, Removal(TWait(1, false, None), Some(2), IDLE, map["pod" := 1], TOOK))
  {
    b := RemovalTakes();
    b := GoesOn(b, Removal(TUnlock(1, false, None, None), Some(2), IDLE.(lock := Some(2)), map["pod" := 1], TOOK), 2,
                Removal(TCancel(1, false, None, None), Some(2), IDLE, map["pod" := 1], TOOK));
    b := GoesOn(b, Removal(TCancel(1, false, None, None), Some(2), IDLE, map["pod" := 1], TOOK), 2,
                Removal(TWait(1, false, None), Some(2), IDLE, map["pod" := 1], TOOK));
  }

  lemma RemovalDeletes() returns (b: seq<State>)
    ensures EndsIn(b, Removal(PUnlock, Some(2), IDLE, map[], GONE))
  {
    b := RemovalWaits();
    b := GoesOn(b, Removal(TWait(1, false, None), Some(2), IDLE, map["pod" := 1], TOOK), 2,
                Removal(PDelete, Some(2), IDLE, map["pod" := 1], GONE));
    b := GoesOn(b, Removal(PDelete, Some(2), IDLE, map["pod" := 1], GONE), 2,
                Removal(PUnlock, Some(2), IDLE, map[], GONE));
  }

  lemma RemovalReturns() returns (b: seq<State>)
    ensures EndsIn(b, Late(TLock(0, false), IDLE, GONE))
  {
    b := RemovalDeletes();
    b := GoesOn(b, Removal(PUnlock, Some(2), IDLE, map[], GONE), 2, Late(Begin, IDLE, GONE));
    b := GoesOn(b, Late(Begin, IDLE, GONE), 3, Late(TLock(0, false), IDLE, GONE));
  }

  lemma LateTakes() returns (b: seq<State>)
    ensures EndsIn(b, Late(TUnlock(0, false, None, None), IDLE.(lock := Some(3)), LATE_TOOK))
  {
    b := RemovalReturns();
    b := GoesOn(b, Late(TLock(0, false), IDLE, GONE), 3, Late(TTake(0, false), IDLE.(lock := Some(3)), GONE));
    b := GoesOn(b, Late(TTake(0, false), IDLE.(lock := Some(3)), GONE), 3,
                Late(TUnlock(0, false, None, None), IDLE.(lock := Some(3)), LATE_TOOK));
  }

  lemma LateWaits() returns (b: seq<State>)
    ensures EndsIn(b, Late(TWait(0, false, None), IDLE, LATE_TOOK))
  {
    b := LateTakes();
    b := GoesOn(b, Late(TUnlock(0, false, None, None), IDLE.(lock := Some(3)), LATE_TOOK), 3,
                Late(TCancel(0, false, None, None), IDLE, LATE_TOOK));
    b := GoesOn(b, Late(TCancel(0, false, None, None), IDLE, LATE_TOOK), 3,
                Late(TWait(0, false, None), IDLE, LATE_TOOK));
  }

  lemma LateMakes() returns (b: seq<State>)
    ensures EndsIn(b, Late(RLock(0), IDLE, LATE_WAITED))
  {
    b := LateWaits();
    b := GoesOn(b, Late(TWait(0, false, None), IDLE, LATE_TOOK), 3, Late(RMake(0), IDLE, LATE_WAITED));
    b := GoesOn(b, Late(RMake(0), IDLE, LATE_WAITED), 3, Late(RLock(0), IDLE, LATE_WAITED));
  }

  lemma LateInstalls() returns (b: seq<State>)
    ensures EndsIn(b, Late(RUnlock(0), IDLE.(done := Some(3), cancel := Some(3)).(lock := Some(3)), LATE_INSTALLED))
  {
    b := LateMakes();
    b := GoesOn(b, Late(RLock(0), IDLE, LATE_WAITED), 3, Late(RInstall(0), IDLE.(lock := Some(3)), LATE_WAITED));
    b := GoesOn(b, Late(RInstall(0), IDLE.(lock := Some(3)), LATE_WAITED), 3,
                Late(RUnlock(0), IDLE.(done := Some(3), cancel := Some(3)).(lock := Some(3)), LATE_INSTALLED));
  }

  lemma LateLoops() returns (b: seq<State>)
    ensures EndsIn(b, Late(RDevices(0, 0, 0), IDLE.(done := Some(3), cancel := Some(3)), LATE_INSTALLED))
  {
    b := LateInstalls();
    b := GoesOn(b, Late(RUnlock(0), IDLE.(done := Some(3), cancel := Some(3)).(lock := Some(3)), LATE_INSTALLED), 3,
                Late(RClaims(0, 0), IDLE.(done := Some(3), cancel := Some(3)), LATE_INSTALLED));
    b := GoesOn(b, Late(RClaims(0, 0), IDLE.(done := Some(3), cancel := Some(3)), LATE_INSTALLED), 3,
                Late(RDevices(0, 0, 0), IDLE.(done := Some(3), cancel := Some(3)), LATE_INSTALLED));
  }

  /** The run of the superseded process has made its first call, and everything else has returned. */
  const END: seq<Thread> :=
    Threads(Returned, Returned, Returned, [Thread(Run(0), RDevices(0, 0, 1)), Thread(Run(1), Begin)])

  lemma LateConfigures() returns (b: seq<State>)
    ensures EndsIn(b, Late(RDevices(0, 0, 1), IDLE.(done := Some(3), cancel := Some(3)), LATE_CONFIGURED))
  {
    b := LateLoops();
    b := GoesOn(b, Late(RDevices(0, 0, 0), IDLE.(done := Some(3), cancel := Some(3)), LATE_INSTALLED), 3,
                Late(RDevices(0, 0, 1), IDLE.(done := Some(3), cancel := Some(3)), LATE_CONFIGURED));
  }

  /** What the log says: the removal was over before the call, and the first process was superseded then. */
  lemma LogOfSuperseded(s: State)
    requires s.threads == END && s.log == LATE_CONFIGURED
    ensures ProcessHandOut.Removes(s, s.log[4], "pod") && ProcessGuarantees.WorkOn(s.log[8], 0)
    ensures ProcessHandOut.Superseded(s.log[..4], 0, "pod")
  {
    assert s.log[..4][1] == Built(1, 1, "pod");
    assert ProcessPods.BuiltFor(s.log[..4], 1, "pod");
  }

  lemma NeverHandedOut(s: State)
    requires s.threads == END
    ensures !ProcessHandOut.HandedOut(s, LATE_CONFIGURED, 0)
  {
  }

  /**
   A process whose pod was sandboxed again is configured after RemovePodSandbox has returned, although no
   hook ever had it.
   */
  lemma ConfiguresSuperseded() returns (b: seq<State>, s: State)
    ensures Behavior(b) && ProcessGuarantees.Sole(b[0]) && s == b[|b| - 1] && s.threads == END &&
        s.log == LATE_CONFIGURED
    ensures ProcessHandOut.Removes(s, s.log[4], "pod") && ProcessGuarantees.WorkOn(s.log[8], 0)
    ensures !ProcessHandOut.HandedOut(s, s.log, 0) && ProcessHandOut.Superseded(s.log[..4], 0, "pod")
  {
    b := LateConfigures();
    s := b[|b| - 1];
    LogOfSuperseded(s);
    NeverHandedOut(s);
  }
}
