/**
 The configuration process of the NRI plugin as an interleaved step system.

 A state holds every call ever made (threads), every configuration process ever built,
 the plugin's process map and both kinds of mutex. One step is one lock, one unlock, one
 critical-section body, one channel operation, or one iteration of a loop of one call.
 A run makes one channel and one cancel function, so both are named by the index of the
 call that made them.
 */
module ProcessMachine {
  import opened Wrappers

  type Tid = nat
  type Pid = nat

  /** What configureResourceClaim does with one device status. */
  datatype Slot = Skip | Abort | Call(deviceType: string)

  type Claim = seq<Slot>

  datatype Process = Process(claims: seq<Claim>, lock: Option<Tid>, cancel: Option<Tid>, done: Option<Tid>)

  datatype ApiCall =
    | RunPodSandbox(pod: string, claims: seq<Claim>, hasNetns: bool)
    | StartContainer(pod: string)
    | RemovePodSandbox(pod: string)
    | Run(p: Pid)
    | Terminate(p: Pid)
    | IsDone(p: Pid)

  datatype Pc =
    | Begin
      // terminate; last marks the one deferred by run
    | TLock(p: Pid, last: bool)
    | TTake(p: Pid, last: bool)
    | TUnlock(p: Pid, last: bool, cancel: Option<Tid>, done: Option<Tid>)
    | TCancel(p: Pid, last: bool, cancel: Option<Tid>, done: Option<Tid>)
    | TWait(p: Pid, last: bool, done: Option<Tid>)
      // isDone
    | DLock(p: Pid)
    | DRead(p: Pid)
    | DUnlock(p: Pid, done: Option<Tid>)
    | DTest(p: Pid, done: Option<Tid>)
      // run
    | RMake(p: Pid)
    | RLock(p: Pid)
    | RInstall(p: Pid)
    | RUnlock(p: Pid)
    | RClaims(p: Pid, next: nat)
    | RDevices(p: Pid, claim: nat, next: nat)
    | RClose(p: Pid)
      // plugin hooks, while the plugin mutex is held
    | PHeld
    | PDelete
    | PUnlock
    | PSpawning(p: Pid)
      // RunPodSandbox, after the plugin mutex is released
    | PSpawn(p: Pid)
    | Returned

  datatype Thread = Thread(call: ApiCall, pc: Pc)

  datatype Event =
    | Took(who: Tid, p: Pid, cancel: Option<Tid>, done: Option<Tid>)
    | ReadDone(who: Tid, p: Pid, done: Option<Tid>)
    | Installed(run: Tid, p: Pid)
    | Configured(run: Tid, p: Pid, claim: nat, device: nat, ok: bool)
    | ClaimReturned(run: Tid, p: Pid, claim: nat)
    | Closed(run: Tid)
    | Passed(who: Tid, p: Pid, done: Option<Tid>)
    | Terminated(who: Tid, p: Pid, done: Option<Tid>)
    | Refused(who: Tid, p: Pid, done: Option<Tid>)
      // the process map
    | Built(who: Tid, p: Pid, pod: string)
    | LookedUp(who: Tid, pod: string, found: Option<Pid>)

  datatype State = State(
    threads: seq<Thread>,
    procs: seq<Process>,
    pluginLock: Option<Tid>,
    pods: map<string, Pid>,
    closed: set<Tid>,
    cancelled: set<Tid>,
    log: seq<Event>)

  // ----- the step function

  /** The critical sections of the functions that touch done and cancel. */
  function TakeCancel(x: Process): Process { x.(cancel := None) }

  function Install(x: Process, run: Tid): Process { x.(cancel := Some(run), done := Some(run)) }

  predicate Finished(s: State, done: Option<Tid>) {
    done.None? || done.value in s.closed
  }

  predicate Plugin(c: ApiCall) { c.RunPodSandbox? || c.StartContainer? || c.RemovePodSandbox? }

  /** RunPodSandbox returns at once for a pod without claims or without a network namespace. */
  predicate ReturnsEarly(c: ApiCall) { c.RunPodSandbox? && (c.claims == [] || !c.hasNetns) }

  /** Whether call t can take its next step now. */
  predicate Enabled(s: State, t: Tid) {
    t < |s.threads| &&
    var T := s.threads[t];
    match T.pc
    case Begin => Plugin(T.call) && !ReturnsEarly(T.call) ==> s.pluginLock.None?
    case TLock(p, _) => p < |s.procs| && s.procs[p].lock.None?
    case DLock(p) => p < |s.procs| && s.procs[p].lock.None?
    case RLock(p) => p < |s.procs| && s.procs[p].lock.None?
    case TWait(_, _, done) => Finished(s, done)
    case RClose(_) => t !in s.closed // closing a closed channel would panic
    case Returned => false
    case _ => true
  }

  /** What a step does to the processes. */
  datatype Write = Keep | Update(p: Pid, x: Process) | Build(claims: seq<Claim>)

  /** What one step of a call changes; everything else stays. */
  datatype Effect = Effect(
    pc: Pc,
    write: Write,
    pluginLock: Option<Tid>,
    pods: map<string, Pid>,
    closes: bool,
    cancels: Option<Tid>,
    spawn: Option<Pid>,
    events: seq<Event>)

  function Goto(s: State, pc: Pc): Effect { Effect(pc, Keep, s.pluginLock, s.pods, false, None, None, []) }

  /** The pc at which a call goes on when its terminate returns. */
  function AfterTerminate(c: ApiCall, p: Pid, last: bool): Pc {
    if c.Run? then (if last then Returned else RMake(p))
    else if c.RemovePodSandbox? then PDelete
    else Returned
  }

  function AfterIsDone(c: ApiCall, answer: bool): Pc {
    if c.StartContainer? then (if answer then PDelete else PUnlock) else Returned
  }

  function TerminateStep(s: State, t: Tid, T: Thread): Effect
    requires InTerminate(T.pc) && InScope(s.procs, T)
  {
    var p, last := T.pc.p, T.pc.last;
    var x := s.procs[p];
    match T.pc
    case TLock(_, _) => Goto(s, TTake(p, last)).(write := Update(p, x.(lock := Some(t))))
    case TTake(_, _) =>
      Goto(s, TUnlock(p, last, x.cancel, x.done)).(write := Update(p, TakeCancel(x)),
          events := [Took(t, p, x.cancel, x.done)])
    case TUnlock(_, _, cancel, done) => Goto(s, TCancel(p, last, cancel, done)).(write := Update(p, x.(lock := None)))
    case TCancel(_, _, cancel, done) => Goto(s, TWait(p, last, done)).(cancels := cancel)
    case TWait(_, _, done) => Goto(s, AfterTerminate(T.call, p, last)).(events := [Terminated(t, p, done)])
  }

  function IsDoneStep(s: State, t: Tid, T: Thread): Effect
    requires InIsDone(T.pc) && InScope(s.procs, T)
  {
    var p := T.pc.p;
    var x := s.procs[p];
    match T.pc
    case DLock(_) => Goto(s, DRead(p)).(write := Update(p, x.(lock := Some(t))))
    case DRead(_) => Goto(s, DUnlock(p, x.done)).(events := [ReadDone(t, p, x.done)])
    case DUnlock(_, done) => Goto(s, DTest(p, done)).(write := Update(p, x.(lock := None)))
    case DTest(_, done) =>
      var answer := Finished(s, done);
      Goto(s, AfterIsDone(T.call, answer)).(events := [if answer then Passed(t, p, done) else Refused(t, p, done)])
  }

  /** ok is the outcome of a Configure made in the step. */
  function RunStep(s: State, t: Tid, T: Thread, ok: bool): Effect
    requires InRun(T.pc) && InScope(s.procs, T)
  {
    var p := T.pc.p;
    var x := s.procs[p];
    match T.pc
    case RMake(_) => Goto(s, RLock(p))
    case RLock(_) => Goto(s, RInstall(p)).(write := Update(p, x.(lock := Some(t))))
    case RInstall(_) => Goto(s, RUnlock(p)).(write := Update(p, Install(x, t)), events := [Installed(t, p)])
    case RUnlock(_) => Goto(s, RClaims(p, 0)).(write := Update(p, x.(lock := None)))
    case RClaims(_, i) => Goto(s, if i < |x.claims| then RDevices(p, i, 0) else RClose(p))
    case RDevices(_, i, j) =>
      var claim := x.claims[i];
      if j == |claim| || claim[j].Abort? then
        Goto(s, RClaims(p, i + 1)).(events := [ClaimReturned(t, p, i)])
      else if claim[j].Skip? then
        Goto(s, RDevices(p, i, j + 1))
      else
        // a failing Configure ends the claim
        Goto(s, RDevices(p, i, if ok then j + 1 else |claim|)).(events := [Configured(t, p, i, j, ok)])
    case RClose(_) => Goto(s, TLock(p, true)).(closes := true, events := [Closed(t)])
  }

  function LookUp(pods: map<string, Pid>, pod: string): Option<Pid> { if pod in pods then Some(pods[pod]) else None }

  /** The first step of every call, and the steps of the plugin hooks. */
  function HookStep(s: State, t: Tid, T: Thread): Effect {
    match T.pc
    case Begin =>
      (match T.call
       case Run(p) => Goto(s, TLock(p, false))
       case Terminate(p) => Goto(s, TLock(p, false))
       case IsDone(p) => Goto(s, DLock(p))
       case _ => if ReturnsEarly(T.call) then Goto(s, Returned) else Goto(s, PHeld).(pluginLock := Some(t)))
    case PHeld =>
      (match T.call
       case RunPodSandbox(pod, claims, _) =>
         Goto(s, PSpawning(|s.procs|)).(write := Build(claims), pods := s.pods[pod := |s.procs|],
             events := [Built(t, |s.procs|, pod)])
       case StartContainer(pod) =>
         var next := if pod in s.pods then DLock(s.pods[pod]) else PUnlock;
         Goto(s, next).(events := [LookedUp(t, pod, LookUp(s.pods, pod))])
       case RemovePodSandbox(pod) =>
         var next := if pod in s.pods then TLock(s.pods[pod], false) else PUnlock;
         Goto(s, next).(events := [LookedUp(t, pod, LookUp(s.pods, pod))])
       case _ => Goto(s, PHeld)) // not code of the other calls
    case PSpawning(q) => Goto(s, PSpawn(q)).(pluginLock := None)
    case PSpawn(q) => Goto(s, Returned).(spawn := Some(q))
    case PDelete => Goto(s, PUnlock).(pods := s.pods - PodOf(T.call))
    case _ => Goto(s, Returned).(pluginLock := if T.pc.PUnlock? then None else s.pluginLock)
  }

  /** The step call t takes. */
  function StepOf(s: State, t: Tid, ok: bool): Effect
    requires t < |s.threads| && Shape(s, s.threads[t])
  {
    var T := s.threads[t];
    if InTerminate(T.pc) then TerminateStep(s, t, T)
    else if InIsDone(T.pc) then IsDoneStep(s, t, T)
    else if InRun(T.pc) then RunStep(s, t, T, ok)
    else HookStep(s, t, T)
  }

  function PodOf(c: ApiCall): set<string> {
    if Plugin(c) then {c.pod} else {}
  }

  function Written(procs: seq<Process>, w: Write): seq<Process>
    requires w.Update? ==> w.p < |procs|
  {
    match w
    case Keep => procs
    case Update(p, x) => procs[p := x]
    case Build(claims) => procs + [Process(claims, None, None, None)]
  }

  function Apply(s: State, t: Tid, e: Effect): State
    requires t < |s.threads|
    requires e.write.Update? ==> e.write.p < |s.procs|
  {
    State(
      s.threads[t := s.threads[t].(pc := e.pc)] + (if e.spawn.Some? then [Thread(Run(e.spawn.value), Begin)] else []),
      Written(s.procs, e.write),
      e.pluginLock,
      e.pods,
      s.closed + (if e.closes then {t} else {}),
      s.cancelled + (if e.cancels.Some? then {e.cancels.value} else {}),
      s.log + e.events)
  }

  /** One step of call t. */
  function Fire(s: State, t: Tid, ok: bool): State
    requires t < |s.threads| && Shape(s, s.threads[t])
  {
    Apply(s, t, StepOf(s, t, ok))
  }

  // ----- the invariant, by what a call's program point lets it hold and know

  predicate InTerminate(pc: Pc) { pc.TLock? || pc.TTake? || pc.TUnlock? || pc.TCancel? || pc.TWait? }

  predicate InIsDone(pc: Pc) { pc.DLock? || pc.DRead? || pc.DUnlock? || pc.DTest? }

  predicate InRun(pc: Pc) {
    pc.RMake? || pc.RLock? || pc.RInstall? || pc.RUnlock? || pc.RClaims? || pc.RDevices? || pc.RClose?
  }

  /** Each call is only ever at program points of its own code. */
  predicate OwnCode(T: Thread) {
    var pc := T.pc;
    pc.Begin? || pc.Returned? ||
    match T.call
    case Run(p) => (InTerminate(pc) || InRun(pc)) && pc.p == p
    case Terminate(p) => InTerminate(pc) && pc.p == p && !pc.last
    case IsDone(p) => InIsDone(pc) && pc.p == p
    case StartContainer(_) => pc.PHeld? || InIsDone(pc) || pc.PDelete? || pc.PUnlock?
    case RemovePodSandbox(_) => pc.PHeld? || (InTerminate(pc) && !pc.last) || pc.PDelete? || pc.PUnlock?
    case RunPodSandbox(_, claims, _) => (pc.PHeld? || pc.PSpawning? || pc.PSpawn?) && claims != []
  }

  /** The process a call works on exists, and its loop counters are in range. */
  predicate InScope(procs: seq<Process>, T: Thread) {
    var pc := T.pc;
    (T.call.Run? || T.call.Terminate? || T.call.IsDone? ==> T.call.p < |procs|) &&
    (InTerminate(pc) || InIsDone(pc) || InRun(pc) || pc.PSpawning? || pc.PSpawn? ==> pc.p < |procs|) &&
    (pc.RDevices? ==> pc.claim < |procs[pc.p].claims| && pc.next <= |procs[pc.p].claims[pc.claim]|) &&
    (pc.RClaims? ==> pc.next <= |procs[pc.p].claims|) &&
    (T.call.RunPodSandbox? && (pc.PSpawning? || pc.PSpawn?) ==> procs[pc.p].claims == T.call.claims)
  }

  predicate Shape(s: State, T: Thread) { OwnCode(T) && InScope(s.procs, T) }

  predicate HoldsPlugin(T: Thread) {
    Plugin(T.call) && !T.pc.Begin? && !T.pc.PSpawn? && !T.pc.Returned?
  }

  /** The process whose mutex a call at pc holds. */
  function Holds(pc: Pc): Option<Pid> {
    if pc.TTake? || pc.TUnlock? || pc.DRead? || pc.DUnlock? || pc.RInstall? || pc.RUnlock? then Some(pc.p) else None
  }

  /** The channel a call has read and may go on to wait for or test. */
  function Known(pc: Pc): Option<Tid> {
    if pc.TUnlock? || pc.TCancel? || pc.TWait? || pc.DUnlock? || pc.DTest? then pc.done else None
  }

  predicate HasInstalled(pc: Pc) {
    pc.RUnlock? || pc.RClaims? || pc.RDevices? || pc.RClose? || HasClosed(pc)
  }

  predicate HasClosed(pc: Pc) { (InTerminate(pc) && pc.last) || pc.Returned? }

  /** c is a run on p that has installed its channel. */
  predicate InstalledRun(s: State, p: Pid, c: Tid) {
    c < |s.threads| && s.threads[c].call == Run(p) && HasInstalled(s.threads[c].pc)
  }

  ghost predicate Shapes(s: State) { forall t :: 0 <= t < |s.threads| ==> Shape(s, s.threads[t]) }

  ghost predicate PluginMutex(s: State) {
    (forall t :: 0 <= t < |s.threads| ==> (HoldsPlugin(s.threads[t]) <==> s.pluginLock == Some(t))) &&
    (s.pluginLock.Some? ==> s.pluginLock.value < |s.threads|)
  }

  ghost predicate ProcessMutexes(s: State) {
    (forall p, t :: 0 <= p < |s.procs| && 0 <= t < |s.threads| ==>
      (Holds(s.threads[t].pc) == Some(p) <==> s.procs[p].lock == Some(t))) &&
    (forall p :: 0 <= p < |s.procs| && s.procs[p].lock.Some? ==> s.procs[p].lock.value < |s.threads|)
  }

  /** The key to progress: a channel anyone can wait for was installed by a run on that process. */
  ghost predicate Channels(s: State) {
    (forall p :: 0 <= p < |s.procs| && s.procs[p].done.Some? ==> InstalledRun(s, p, s.procs[p].done.value)) &&
    (forall t :: 0 <= t < |s.threads| && Known(s.threads[t].pc).Some? ==>
      InstalledRun(s, s.threads[t].pc.p, Known(s.threads[t].pc).value))
  }

  ghost predicate Closes(s: State) {
    (forall c :: 0 <= c < |s.threads| ==>
      (c in s.closed <==> s.threads[c].call.Run? && HasClosed(s.threads[c].pc))) &&
    (forall c :: c in s.closed ==> c < |s.threads|)
  }

  ghost predicate Pods(s: State) { forall pod :: pod in s.pods ==> s.pods[pod] < |s.procs| }

  ghost predicate Inv(s: State) {
    Shapes(s) && PluginMutex(s) && ProcessMutexes(s) && Channels(s) && Closes(s) && Pods(s)
  }

  // ----- every step keeps the invariant

  /** What a step may do to locks, seen from the call T that takes it: keep, acquire or release. */
  ghost predicate LocalLocks(s: State, t: Tid, T: Thread, e: Effect) {
    var T' := T.(pc := e.pc);
    (|| (e.pluginLock == s.pluginLock && (HoldsPlugin(T') <==> HoldsPlugin(T)))
     || (s.pluginLock.None? && e.pluginLock == Some(t) && HoldsPlugin(T'))
     || (HoldsPlugin(T) && e.pluginLock.None? && !HoldsPlugin(T'))) &&
    match e.write
    case Update(p, x) =>
      p < |s.procs| && x.claims == s.procs[p].claims &&
      (|| (x.lock == s.procs[p].lock && Holds(e.pc) == Holds(T.pc))
       || (s.procs[p].lock.None? && x.lock == Some(t) && Holds(T.pc).None? && Holds(e.pc) == Some(p))
       || (Holds(T.pc) == Some(p) && x.lock.None? && Holds(e.pc).None?))
    case _ => Holds(e.pc) == Holds(T.pc)
  }

  /** Only a run installs or closes a channel, its own one, and a call knows what it has read. */
  ghost predicate LocalChannels(s: State, t: Tid, T: Thread, e: Effect) {
    (HasInstalled(T.pc) ==> HasInstalled(e.pc)) &&
    (e.write.Update? ==>
       e.write.p < |s.procs| &&
       (e.write.x.done == s.procs[e.write.p].done ||
        (e.write.x.done == Some(t) && T.call == Run(e.write.p) && HasInstalled(e.pc)))) &&
    (Known(e.pc).Some? ==>
       || (Known(T.pc) == Known(e.pc) && T.pc.p == e.pc.p)
       || (e.pc.p < |s.procs| && Known(e.pc) == s.procs[e.pc.p].done)) &&
    (e.closes ==> T.call.Run? && HasClosed(e.pc)) &&
    (T.call.Run? ==> (HasClosed(e.pc) <==> HasClosed(T.pc) || e.closes))
  }

  ghost predicate LocalShape(s: State, T: Thread, e: Effect) {
    (e.write.Update? ==> e.write.p < |s.procs|) &&
    OwnCode(T.(pc := e.pc)) &&
    InScope(Written(s.procs, e.write), T.(pc := e.pc)) &&
    (e.spawn.Some? ==> e.spawn.value < |s.procs|) &&
    (forall pod :: pod in e.pods && (pod !in s.pods || e.pods[pod] != s.pods[pod]) ==>
       e.write.Build? && e.pods[pod] == |s.procs|)
  }

  ghost predicate Local(s: State, t: Tid, e: Effect)
    requires t < |s.threads|
  {
    LocalLocks(s, t, s.threads[t], e) && LocalChannels(s, t, s.threads[t], e) && LocalShape(s, s.threads[t], e)
  }

  lemma TakeIsLocal(s: State, t: Tid)
    requires Enabled(s, t) && Shape(s, s.threads[t])
    requires s.threads[t].pc.TLock? || s.threads[t].pc.TTake? || s.threads[t].pc.TUnlock?
    ensures Local(s, t, TerminateStep(s, t, s.threads[t]))
  {
  }

  lemma WaitIsLocal(s: State, t: Tid)
    requires Enabled(s, t) && Shape(s, s.threads[t])
    requires s.threads[t].pc.TCancel? || s.threads[t].pc.TWait?
    ensures Local(s, t, TerminateStep(s, t, s.threads[t]))
  {
  }

  lemma TerminateIsLocal(s: State, t: Tid)
    requires Enabled(s, t) && Shape(s, s.threads[t]) && InTerminate(s.threads[t].pc)
    ensures Local(s, t, TerminateStep(s, t, s.threads[t]))
  {
    if s.threads[t].pc.TCancel? || s.threads[t].pc.TWait? { WaitIsLocal(s, t); } else { TakeIsLocal(s, t); }
  }

  lemma ReadIsLocal(s: State, t: Tid)
    requires Enabled(s, t) && Shape(s, s.threads[t]) && (s.threads[t].pc.DLock? || s.threads[t].pc.DRead?)
    ensures Local(s, t, IsDoneStep(s, t, s.threads[t]))
  {
  }

  lemma TestIsLocal(s: State, t: Tid)
    requires Enabled(s, t) && Shape(s, s.threads[t]) && (s.threads[t].pc.DUnlock? || s.threads[t].pc.DTest?)
    ensures Local(s, t, IsDoneStep(s, t, s.threads[t]))
  {
  }

  lemma IsDoneIsLocal(s: State, t: Tid)
    requires Enabled(s, t) && Shape(s, s.threads[t]) && InIsDone(s.threads[t].pc)
    ensures Local(s, t, IsDoneStep(s, t, s.threads[t]))
  {
    if s.threads[t].pc.DLock? || s.threads[t].pc.DRead? { ReadIsLocal(s, t); } else { TestIsLocal(s, t); }
  }

  /** The claim loop and the close. */
  predicate InLoop(pc: Pc) { pc.RClaims? || pc.RDevices? || pc.RClose? }

  lemma LoopIsLocal(s: State, t: Tid, ok: bool)
    requires Enabled(s, t) && Shape(s, s.threads[t]) && InLoop(s.threads[t].pc)
    ensures Local(s, t, RunStep(s, t, s.threads[t], ok))
  {
  }

  lemma InstallIsLocal(s: State, t: Tid, ok: bool)
    requires Enabled(s, t) && Shape(s, s.threads[t]) && InRun(s.threads[t].pc) && !InLoop(s.threads[t].pc)
    ensures Local(s, t, RunStep(s, t, s.threads[t], ok))
  {
  }

  lemma RunIsLocal(s: State, t: Tid, ok: bool)
    requires Enabled(s, t) && Shape(s, s.threads[t]) && InRun(s.threads[t].pc)
    ensures Local(s, t, RunStep(s, t, s.threads[t], ok))
  {
    if InLoop(s.threads[t].pc) { LoopIsLocal(s, t, ok); } else { InstallIsLocal(s, t, ok); }
  }

  predicate InHook(pc: Pc) { !InTerminate(pc) && !InIsDone(pc) && !InRun(pc) }

  lemma BeginIsLocal(s: State, t: Tid)
    requires Enabled(s, t) && Shape(s, s.threads[t]) && s.threads[t].pc.Begin?
    ensures Local(s, t, HookStep(s, t, s.threads[t]))
  {
  }

  lemma SandboxIsLocal(s: State, t: Tid)
    requires Enabled(s, t) && Shape(s, s.threads[t]) && InHook(s.threads[t].pc) && s.threads[t].call.RunPodSandbox?
    requires !s.threads[t].pc.Begin?
    ensures Local(s, t, HookStep(s, t, s.threads[t]))
  {
  }

  lemma LookUpIsLocal(s: State, t: Tid)
    requires Enabled(s, t) && Shape(s, s.threads[t]) && InHook(s.threads[t].pc) && Pods(s)
    requires s.threads[t].call.StartContainer? || s.threads[t].call.RemovePodSandbox?
    requires !s.threads[t].pc.Begin?
    ensures Local(s, t, HookStep(s, t, s.threads[t]))
  {
  }

  lemma HookIsLocal(s: State, t: Tid)
    requires Enabled(s, t) && Shape(s, s.threads[t]) && InHook(s.threads[t].pc) && Pods(s)
    ensures Local(s, t, HookStep(s, t, s.threads[t]))
  {
    if s.threads[t].pc.Begin? { BeginIsLocal(s, t); }
    else if s.threads[t].call.RunPodSandbox? { SandboxIsLocal(s, t); }
    else { LookUpIsLocal(s, t); }
  }

  lemma StepIsLocal(s: State, t: Tid, ok: bool)
    requires Inv(s) && Enabled(s, t)
    ensures Local(s, t, StepOf(s, t, ok))
  {
    var T := s.threads[t];
    assert Shape(s, T);
    if InTerminate(T.pc) { TerminateIsLocal(s, t); }
    else if InIsDone(T.pc) { IsDoneIsLocal(s, t); }
    else if InRun(T.pc) { RunIsLocal(s, t, ok); }
    else { HookIsLocal(s, t); }
  }

  lemma ApplyKeepsShapes(s: State, t: Tid, e: Effect)
    requires Inv(s) && t < |s.threads| && Local(s, t, e)
    ensures Shapes(Apply(s, t, e))
  {
    var s' := Apply(s, t, e);
    forall u | 0 <= u < |s'.threads| ensures Shape(s', s'.threads[u]) {
      if u < |s.threads| && u != t { assert Shape(s, s.threads[u]); }
    }
  }

  lemma ApplyKeepsPluginMutex(s: State, t: Tid, e: Effect)
    requires Inv(s) && t < |s.threads| && Local(s, t, e)
    ensures PluginMutex(Apply(s, t, e))
  {
  }

  lemma ApplyKeepsMutex(s: State, t: Tid, e: Effect, p: Pid, u: Tid)
    requires t < |s.threads| && LocalLocks(s, t, s.threads[t], e)
    requires p < |s.procs| && u < |s.threads|
    requires Holds(s.threads[u].pc) == Some(p) <==> s.procs[p].lock == Some(u)
    requires Holds(s.threads[t].pc) == Some(p) <==> s.procs[p].lock == Some(t)
    ensures Holds(Apply(s, t, e).threads[u].pc) == Some(p) <==> Apply(s, t, e).procs[p].lock == Some(u)
  {
  }

  /** A process that is just built, or a call that is just started, holds nothing. */
  lemma NewHoldsNothing(s: State, t: Tid, e: Effect, p: Pid, u: Tid)
    requires Inv(s) && t < |s.threads| && Local(s, t, e)
    requires p < |Apply(s, t, e).procs| && u < |Apply(s, t, e).threads| && (p >= |s.procs| || u >= |s.threads|)
    ensures Holds(Apply(s, t, e).threads[u].pc) != Some(p) && Apply(s, t, e).procs[p].lock != Some(u)
  {
    if u < |s.threads| { assert Shape(s, s.threads[u]); }
    assert Shape(s, s.threads[t]);
  }

  lemma LocksHaveHolders(s: State, t: Tid, e: Effect)
    requires Inv(s) && t < |s.threads| && Local(s, t, e)
    ensures var s' := Apply(s, t, e);
            forall p :: 0 <= p < |s'.procs| && s'.procs[p].lock.Some? ==> s'.procs[p].lock.value < |s'.threads|
  {
  }

  lemma ApplyKeepsProcessMutexes(s: State, t: Tid, e: Effect)
    requires Inv(s) && t < |s.threads| && Local(s, t, e)
    ensures ProcessMutexes(Apply(s, t, e))
  {
    var s' := Apply(s, t, e);
    LocksHaveHolders(s, t, e);
    forall p, u | 0 <= p < |s'.procs| && 0 <= u < |s'.threads|
      ensures Holds(s'.threads[u].pc) == Some(p) <==> s'.procs[p].lock == Some(u)
    {
      if u < |s.threads| && p < |s.procs| {
        ApplyKeepsMutex(s, t, e, p, u);
      } else {
        NewHoldsNothing(s, t, e, p, u);
      }
    }
  }

  lemma ApplyKeepsChannels(s: State, t: Tid, e: Effect)
    requires Inv(s) && t < |s.threads| && Local(s, t, e)
    ensures Channels(Apply(s, t, e))
  {
    var s' := Apply(s, t, e);
    forall p, c | InstalledRun(s, p, c) ensures InstalledRun(s', p, c) {}
    forall u | 0 <= u < |s'.threads| && Known(s'.threads[u].pc).Some?
      ensures InstalledRun(s', s'.threads[u].pc.p, Known(s'.threads[u].pc).value)
    {
      if u != t { assert s'.threads[u] == s.threads[u]; }
    }
  }

  lemma ApplyKeepsClosesAndPods(s: State, t: Tid, e: Effect)
    requires Inv(s) && t < |s.threads| && Local(s, t, e)
    ensures Closes(Apply(s, t, e)) && Pods(Apply(s, t, e))
  {
  }

  lemma StepKeepsInv(s: State, t: Tid, ok: bool)
    requires Inv(s) && Enabled(s, t)
    ensures Inv(Fire(s, t, ok))
  {
    var e := StepOf(s, t, ok);
    StepIsLocal(s, t, ok);
    ApplyKeepsShapes(s, t, e);
    ApplyKeepsPluginMutex(s, t, e);
    ApplyKeepsProcessMutexes(s, t, e);
    ApplyKeepsChannels(s, t, e);
    ApplyKeepsClosesAndPods(s, t, e);
  }

  // ----- whole runs

  /** Any finite collection of calls, none of them begun, on processes that have not run yet. */
  ghost predicate Init(s: State) {
    (forall t :: 0 <= t < |s.threads| ==> s.threads[t].pc.Begin? && InScope(s.procs, s.threads[t])) &&
    (forall p :: 0 <= p < |s.procs| ==> s.procs[p].lock.None? && s.procs[p].cancel.None? && s.procs[p].done.None?) &&
    s.pluginLock.None? && s.pods == map[] && s.closed == {} && s.cancelled == {} && s.log == []
  }

  ghost predicate Next(s: State, s': State) {
    exists t: Tid, ok: bool :: Enabled(s, t) && Shape(s, s.threads[t]) && s' == Fire(s, t, ok)
  }

  ghost predicate NextAt(b: seq<State>, i: int)
    requires 0 <= i < |b| - 1
  {
    Next(b[i], b[i + 1])
  }

  /** A finite prefix of an interleaving, state by state. */
  ghost predicate Behavior(b: seq<State>) {
    |b| > 0 && Init(b[0]) && forall i :: 0 <= i < |b| - 1 ==> NextAt(b, i)
  }

  lemma InitHasInv(s: State)
    requires Init(s)
    ensures Inv(s)
  {
    forall t | 0 <= t < |s.threads| ensures Shape(s, s.threads[t]) {}
  }

  lemma NextKeepsInv(s: State, s': State)
    requires Inv(s) && Next(s, s')
    ensures Inv(s')
  {
    var t: Tid, ok: bool :| Enabled(s, t) && Shape(s, s.threads[t]) && s' == Fire(s, t, ok);
    StepKeepsInv(s, t, ok);
  }

  lemma {:induction false} BehaviorKeepsInv(b: seq<State>, i: nat)
    requires Behavior(b) && i < |b|
    ensures Inv(b[i])
  {
    if i == 0 {
      InitHasInv(b[0]);
    } else {
      BehaviorKeepsInv(b, i - 1);
      assert NextAt(b, i - 1);
      NextKeepsInv(b[i - 1], b[i]);
    }
  }
}
