/** Each call goes through its own protocol to the end, in the order of the code, however it is interleaved. */
module ProcessProtocol {
  import opened Wrappers
  import opened Sequences
  import opened ProcessMachine
  import opened ProcessGuarantees

  /** The call that logged an event. */
  function By(e: Event): Tid {
    if e.Installed? || e.Configured? || e.ClaimReturned? || e.Closed? then e.run else e.who
  }

  /** An event of call t that is not about a single claim. */
  function IsOwn(t: Tid): Event -> bool { (e: Event) => By(e) == t && !e.Configured? && !e.ClaimReturned? }

  /** What call t has logged, in order. */
  function TraceOf(log: seq<Event>, t: Tid): seq<Event> { Filtered(log, IsOwn(t)) }

  // ----- the protocols

  /** A terminate of process p: it takes what is there and returns when the channel it took is closed. */
  ghost predicate IsTerminate(trace: seq<Event>, t: Tid, p: Pid) {
    |trace| == 2 && trace[0].Took? && trace[0].who == t && trace[0].p == p &&
        trace[1] == Terminated(t, p, trace[0].done)
  }

  /** An isDone of process p: it reads the channel and answers for what it has read. */
  ghost predicate IsIsDone(trace: seq<Event>, t: Tid, p: Pid) {
    |trace| == 2 && trace[0].ReadDone? && trace[0].who == t && trace[0].p == p &&
    (trace[1] == Passed(t, p, trace[0].done) || trace[1] == Refused(t, p, trace[0].done))
  }

  ghost predicate InTerminateTrace(trace: seq<Event>, t: Tid, pc: Pc)
    requires InTerminate(pc)
  {
    if pc.TLock? || pc.TTake? then trace == []
    else |trace| == 1 && trace[0].Took? && trace[0].who == t && trace[0].p == pc.p && trace[0].done == pc.done
  }

  ghost predicate InIsDoneTrace(trace: seq<Event>, t: Tid, pc: Pc)
    requires InIsDone(pc)
  {
    if pc.DLock? || pc.DRead? then trace == [] else trace == [ReadDone(t, pc.p, pc.done)]
  }

  /** A run: it terminates what is there, installs its channel, closes it, and terminates once more. */
  ghost predicate RunTrace(trace: seq<Event>, t: Tid, p: Pid, pc: Pc) {
    if pc.Begin? then trace == []
    else if InTerminate(pc) && !pc.last then InTerminateTrace(trace, t, pc)
    else
      |trace| >= 2 && IsTerminate(trace[..2], t, p) &&
      if !HasInstalled(pc) then |trace| == 2
      else
        |trace| >= 3 && trace[2] == Installed(t, p) &&
        if !HasClosed(pc) then |trace| == 3
        else
          |trace| >= 4 && trace[3] == Closed(t) &&
          if InTerminate(pc) then InTerminateTrace(trace[4..], t, pc) else IsTerminate(trace[4..], t, p)
  }

  /**
   A hook of a pod: it looks the pod up, and if it finds a process it terminates it, or asks it whether it is done.
   */
  ghost predicate HookTrace(trace: seq<Event>, t: Tid, c: ApiCall, pc: Pc)
    requires LooksUpPod(c)
  {
    if pc.Begin? || pc.PHeld? then trace == []
    else
      |trace| >= 1 && trace[0].LookedUp? && trace[0].who == t && trace[0].pod == c.pod &&
      match trace[0].found
      case None => |trace| == 1 && (pc.PUnlock? || pc.Returned?)
      case Some(p) =>
        if InTerminate(pc) then pc.p == p && c.RemovePodSandbox? && InTerminateTrace(trace[1..], t, pc)
        else if InIsDone(pc) then pc.p == p && c.StartContainer? && InIsDoneTrace(trace[1..], t, pc)
        else if c.RemovePodSandbox? then IsTerminate(trace[1..], t, p)
        else IsIsDone(trace[1..], t, p)
  }

  ghost predicate Protocol(trace: seq<Event>, t: Tid, T: Thread) {
    match T.call
    case Run(p) => RunTrace(trace, t, p, T.pc)
    case Terminate(p) =>
      if T.pc.Begin? then trace == []
      else if InTerminate(T.pc) then InTerminateTrace(trace, t, T.pc) else IsTerminate(trace, t, p)
    case IsDone(p) =>
      if T.pc.Begin? then trace == []
      else if InIsDone(T.pc) then InIsDoneTrace(trace, t, T.pc) else IsIsDone(trace, t, p)
    case RunPodSandbox(pod, _, _) => true // see ProcessHooks
    case _ => HookTrace(trace, t, T.call, T.pc)
  }

  ghost predicate ProtocolOf(s: State, t: Tid)
    requires t < |s.threads|
  {
    Protocol(TraceOf(s.log, t), t, s.threads[t])
  }

  ghost predicate ProtocolInv(s: State) {
    (forall e :: e in s.log ==> By(e) < |s.threads|) && forall t :: 0 <= t < |s.threads| ==> ProtocolOf(s, t)
  }

  // ----- every step keeps to them

  /** The events of a step are of the call that takes it, and carry its protocol on. */
  ghost predicate CarriesOn(s: State, t: Tid, e: Effect)
    requires t < |s.threads|
  {
    (forall f :: f in e.events ==> By(f) == t) &&
    forall trace :: Protocol(trace, t, s.threads[t]) ==>
      Protocol(trace + Filtered(e.events, IsOwn(t)), t, s.threads[t].(pc := e.pc))
  }

  lemma {:induction false} FilteredOne(e: Event, t: Tid)
    ensures Filtered([e], IsOwn(t)) == if IsOwn(t)(e) then [e] else []
    ensures Filtered([], IsOwn(t)) == []
  {
    assert [e][..0] == [];
  }

  /** Outside the claim loop, a call's events are all in its trace. */
  lemma {:induction false} AllOwn(events: seq<Event>, t: Tid)
    requires |events| <= 1 && forall e :: e in events ==> IsOwn(t)(e)
    ensures Filtered(events, IsOwn(t)) == events
  {
    if events != [] {
      assert events == [events[0]];
      FilteredOne(events[0], t);
    }
  }

  /** It is enough that the step carries on each trace with its own events. */
  lemma {:induction false} CarriesOnAll(s: State, t: Tid, e: Effect, own: seq<Event>)
    requires t < |s.threads| && Filtered(e.events, IsOwn(t)) == own && forall f :: f in e.events ==> By(f) == t
    requires forall trace :: Protocol(trace, t, s.threads[t]) ==> Protocol(trace + own, t, s.threads[t].(pc := e.pc))
    ensures CarriesOn(s, t, e)
  {
  }

  lemma {:induction false} TerminateCarriesOn(s: State, t: Tid)
    requires Enabled(s, t) && Shape(s, s.threads[t]) && InTerminate(s.threads[t].pc)
    ensures CarriesOn(s, t, TerminateStep(s, t, s.threads[t]))
  {
    var e := TerminateStep(s, t, s.threads[t]);
    AllOwn(e.events, t);
    forall trace | Protocol(trace, t, s.threads[t]) ensures Protocol(trace + e.events, t, s.threads[t].(pc := e.pc)) {
      TerminateAdds(s, t, trace);
    }
    CarriesOnAll(s, t, e, e.events);
  }

  /** The part of a trace that is about the terminate at pc: what a step adds to it. */
  lemma {:induction false} PartAdds(s: State, t: Tid, part: seq<Event>)
    requires Enabled(s, t) && Shape(s, s.threads[t]) && InTerminate(s.threads[t].pc)
    requires InTerminateTrace(part, t, s.threads[t].pc)
    ensures var T, e := s.threads[t], TerminateStep(s, t, s.threads[t]);
            if T.pc.TWait? then
              IsTerminate(part + e.events, t, T.pc.p) && e.pc == AfterTerminate(T.call, T.pc.p, T.pc.last)
            else
              InTerminate(e.pc) && e.pc.p == T.pc.p && e.pc.last == T.pc.last &&
              InTerminateTrace(part + e.events, t, e.pc)
  {
    var e := TerminateStep(s, t, s.threads[t]);
    if e.events == [] { assert part + e.events == part; }
  }

  lemma {:induction false} TerminateAdds(s: State, t: Tid, trace: seq<Event>)
    requires Enabled(s, t) && Shape(s, s.threads[t]) && InTerminate(s.threads[t].pc)
    requires Protocol(trace, t, s.threads[t])
    ensures Protocol(trace + TerminateStep(s, t, s.threads[t]).events, t,
                     s.threads[t].(pc := TerminateStep(s, t, s.threads[t]).pc))
  {
    var T := s.threads[t];
    if T.call.Run? {
      if T.pc.last { LastAdds(s, t, trace); } else { FirstAdds(s, t, trace); }
    } else if T.call.Terminate? {
      PartAdds(s, t, trace);
    } else {
      RemovalAdds(s, t, trace);
    }
  }

  lemma {:induction false} FirstAdds(s: State, t: Tid, trace: seq<Event>)
    requires Enabled(s, t) && Shape(s, s.threads[t]) && InTerminate(s.threads[t].pc)
    requires s.threads[t].call.Run? && !s.threads[t].pc.last && Protocol(trace, t, s.threads[t])
    ensures Protocol(trace + TerminateStep(s, t, s.threads[t]).events, t,
                     s.threads[t].(pc := TerminateStep(s, t, s.threads[t]).pc))
  {
    var trace' := trace + TerminateStep(s, t, s.threads[t]).events;
    PartAdds(s, t, trace);
    assert |trace'| == 2 ==> trace'[..2] == trace';
  }

  lemma {:induction false} LastAdds(s: State, t: Tid, trace: seq<Event>)
    requires Enabled(s, t) && Shape(s, s.threads[t]) && InTerminate(s.threads[t].pc)
    requires s.threads[t].call.Run? && s.threads[t].pc.last && Protocol(trace, t, s.threads[t])
    ensures Protocol(trace + TerminateStep(s, t, s.threads[t]).events, t,
                     s.threads[t].(pc := TerminateStep(s, t, s.threads[t]).pc))
  {
    var events := TerminateStep(s, t, s.threads[t]).events;
    PartAdds(s, t, trace[4..]);
    assert (trace + events)[..2] == trace[..2] && (trace + events)[4..] == trace[4..] + events;
  }

  lemma {:induction false} RemovalAdds(s: State, t: Tid, trace: seq<Event>)
    requires Enabled(s, t) && Shape(s, s.threads[t]) && InTerminate(s.threads[t].pc)
    requires s.threads[t].call.RemovePodSandbox? && Protocol(trace, t, s.threads[t])
    ensures Protocol(trace + TerminateStep(s, t, s.threads[t]).events, t,
                     s.threads[t].(pc := TerminateStep(s, t, s.threads[t]).pc))
  {
    var events := TerminateStep(s, t, s.threads[t]).events;
    PartAdds(s, t, trace[1..]);
    assert (trace + events)[1..] == trace[1..] + events;
  }

  lemma {:induction false} IsDoneAdds(s: State, t: Tid, trace: seq<Event>)
    requires Enabled(s, t) && Shape(s, s.threads[t]) && InIsDone(s.threads[t].pc) && Protocol(trace, t, s.threads[t])
    ensures var e := IsDoneStep(s, t, s.threads[t]);
            Protocol(trace + e.events, t, s.threads[t].(pc := e.pc))
  {
    var T := s.threads[t];
    var e := IsDoneStep(s, t, T);
    if LooksUpPod(T.call) { assert (trace + e.events)[1..] == trace[1..] + e.events; }
  }

  lemma {:induction false} IsDoneCarriesOn(s: State, t: Tid)
    requires Enabled(s, t) && Shape(s, s.threads[t]) && InIsDone(s.threads[t].pc)
    ensures CarriesOn(s, t, IsDoneStep(s, t, s.threads[t]))
  {
    var e := IsDoneStep(s, t, s.threads[t]);
    AllOwn(e.events, t);
    forall trace | Protocol(trace, t, s.threads[t]) ensures Protocol(trace + e.events, t, s.threads[t].(pc := e.pc)) {
      IsDoneAdds(s, t, trace);
    }
    CarriesOnAll(s, t, e, e.events);
  }

  lemma {:induction false} RunCarriesOn(s: State, t: Tid, ok: bool)
    requires Enabled(s, t) && Shape(s, s.threads[t]) && InRun(s.threads[t].pc)
    ensures CarriesOn(s, t, RunStep(s, t, s.threads[t], ok))
  {
    var T, e := s.threads[t], RunStep(s, t, s.threads[t], ok);
    OwnOfRun(s, t, ok);
    forall trace | Protocol(trace, t, T) ensures Protocol(trace + OwnEvents(t, T.pc), t, T.(pc := e.pc)) {
      RunAdds(s, t, ok, trace);
    }
    CarriesOnAll(s, t, e, OwnEvents(t, T.pc));
  }

  /** What a run logs of its own in a step: its installation, its close. */
  function OwnEvents(t: Tid, pc: Pc): seq<Event> {
    if pc.RInstall? then [Installed(t, pc.p)] else if pc.RClose? then [Closed(t)] else []
  }

  lemma {:induction false} EventsOfRun(s: State, t: Tid, ok: bool)
    requires Enabled(s, t) && Shape(s, s.threads[t]) && InRun(s.threads[t].pc)
    ensures var events, own := RunStep(s, t, s.threads[t], ok).events, OwnEvents(t, s.threads[t].pc);
            (forall f :: f in events ==> By(f) == t) &&
            (events == own ||
             (own == [] && |events| == 1 && (events[0].Configured? || events[0].ClaimReturned?)))
  {
  }

  lemma {:induction false} OwnOfRun(s: State, t: Tid, ok: bool)
    requires Enabled(s, t) && Shape(s, s.threads[t]) && InRun(s.threads[t].pc)
    ensures Filtered(RunStep(s, t, s.threads[t], ok).events, IsOwn(t)) == OwnEvents(t, s.threads[t].pc)
  {
    EventsOfRun(s, t, ok);
    WorkIsNotOwn(RunStep(s, t, s.threads[t], ok).events, OwnEvents(t, s.threads[t].pc), t);
  }

  lemma {:induction false} WorkIsNotOwn(events: seq<Event>, own: seq<Event>, t: Tid)
    requires |own| <= 1 && forall f :: f in own ==> IsOwn(t)(f)
    requires events == own || (own == [] && |events| == 1 && (events[0].Configured? || events[0].ClaimReturned?))
    ensures Filtered(events, IsOwn(t)) == own
  {
    if events == own {
      AllOwn(events, t);
    } else {
      assert events == [events[0]];
      FilteredOne(events[0], t);
    }
  }

  lemma {:induction false} RunAdds(s: State, t: Tid, ok: bool, trace: seq<Event>)
    requires Enabled(s, t) && Shape(s, s.threads[t]) && InRun(s.threads[t].pc) && Protocol(trace, t, s.threads[t])
    ensures var T := s.threads[t];
            Protocol(trace + OwnEvents(t, T.pc), t, T.(pc := RunStep(s, t, T, ok).pc))
  {
    var own := OwnEvents(t, s.threads[t].pc);
    if own == [] {
      assert trace + own == trace;
    } else {
      assert (trace + own)[..2] == trace[..2];
      if s.threads[t].pc.RClose? { assert (trace + own)[4..] == []; }
    }
  }

  lemma {:induction false} HookCarriesOn(s: State, t: Tid)
    requires Enabled(s, t) && Shape(s, s.threads[t]) && InHook(s.threads[t].pc)
    ensures CarriesOn(s, t, HookStep(s, t, s.threads[t]))
  {
    var e := HookStep(s, t, s.threads[t]);
    AllOwn(e.events, t);
    forall trace | Protocol(trace, t, s.threads[t]) ensures Protocol(trace + e.events, t, s.threads[t].(pc := e.pc)) {
      HookAdds(s, t, trace);
    }
    CarriesOnAll(s, t, e, e.events);
  }

  lemma {:induction false} HookAdds(s: State, t: Tid, trace: seq<Event>)
    requires Enabled(s, t) && Shape(s, s.threads[t]) && InHook(s.threads[t].pc) && Protocol(trace, t, s.threads[t])
    ensures var e := HookStep(s, t, s.threads[t]);
            Protocol(trace + e.events, t, s.threads[t].(pc := e.pc))
  {
    var T := s.threads[t];
    var e := HookStep(s, t, T);
    if e.events == [] { assert trace + e.events == trace; }
    if LooksUpPod(T.call) && T.pc.PHeld? { assert (trace + e.events)[1..] == []; }
  }

  lemma {:induction false} StepCarriesOn(s: State, t: Tid, ok: bool)
    requires Enabled(s, t) && Shape(s, s.threads[t])
    ensures CarriesOn(s, t, StepOf(s, t, ok))
  {
    var T := s.threads[t];
    if InTerminate(T.pc) { TerminateCarriesOn(s, t); }
    else if InIsDone(T.pc) { IsDoneCarriesOn(s, t); }
    else if InRun(T.pc) { RunCarriesOn(s, t, ok); }
    else { HookCarriesOn(s, t); }
  }

  /** The events of others are not in a call's trace. */
  lemma {:induction false} OthersLeave(events: seq<Event>, t: Tid)
    requires forall e :: e in events ==> By(e) != t
    ensures TraceOf(events, t) == []
  {
    if events != [] { OthersLeave(events[..|events| - 1], t); }
  }

  lemma {:induction false} StepKeepsProtocolOf(s: State, t: Tid, e: Effect, u: Tid)
    requires Tells(s, t, e) && CarriesOn(s, t, e) && u < |s.threads| && ProtocolOf(s, u)
    ensures ProtocolOf(Apply(s, t, e), u)
  {
    FilteredAppend(s.log, e.events, IsOwn(u));
    if u != t {
      OthersLeave(e.events, u);
      assert TraceOf(s.log, u) + [] == TraceOf(s.log, u);
    }
  }

  lemma {:induction false} StepKeepsProtocol(s: State, t: Tid, e: Effect)
    requires Tells(s, t, e) && CarriesOn(s, t, e) && ProtocolInv(s)
    ensures ProtocolInv(Apply(s, t, e))
  {
    var s' := Apply(s, t, e);
    forall u: Tid | u < |s'.threads| ensures ProtocolOf(s', u) {
      if u < |s.threads| { StepKeepsProtocolOf(s, t, e, u); } else { OthersLeave(s'.log, u); }
    }
  }

  lemma {:induction false} NextKeepsProtocol(s: State, s': State)
    requires Inv(s) && ProtocolInv(s) && Next(s, s')
    ensures ProtocolInv(s')
  {
    var t: Tid, ok: bool :| Enabled(s, t) && Shape(s, s.threads[t]) && s' == Fire(s, t, ok);
    StepTells(s, t, ok);
    StepCarriesOn(s, t, ok);
    StepKeepsProtocol(s, t, StepOf(s, t, ok));
  }

  lemma {:induction false} InitHasProtocol(s: State)
    requires Init(s)
    ensures ProtocolInv(s)
  {
  }

  lemma {:induction false} BehaviorKeepsProtocol(b: seq<State>, i: nat)
    requires Behavior(b) && i < |b|
    ensures ProtocolInv(b[i])
  {
    if i == 0 {
      InitHasProtocol(b[0]);
    } else {
      BehaviorKeepsProtocol(b, i - 1);
      BehaviorKeepsInv(b, i - 1);
      assert NextAt(b, i - 1);
      NextKeepsProtocol(b[i - 1], b[i]);
    }
  }

  // ----- the guarantees

  /**
   A run that has returned has, in this order and nothing else: taken what it found and waited for that
   channel, installed its own, closed it, taken what there was then and waited for that channel.
   */
  lemma RunGoesThrough(b: seq<State>, i: nat, t: Tid)
    requires Behavior(b) && i < |b| && t < |b[i].threads|
    requires b[i].threads[t].call.Run? && b[i].threads[t].pc.Returned?
    ensures var trace, p := TraceOf(b[i].log, t), b[i].threads[t].call.p;
            |trace| == 6 && IsTerminate(trace[..2], t, p) && trace[2] == Installed(t, p) && trace[3] == Closed(t) &&
            IsTerminate(trace[4..], t, p)
  {
    BehaviorKeepsProtocol(b, i);
    assert ProtocolOf(b[i], t);
  }

  /** A terminate, or an isDone, that has returned has done just that, on its process. */
  lemma CallGoesThrough(b: seq<State>, i: nat, t: Tid)
    requires Behavior(b) && i < |b| && t < |b[i].threads| && b[i].threads[t].pc.Returned?
    ensures b[i].threads[t].call.Terminate? ==> IsTerminate(TraceOf(b[i].log, t), t, b[i].threads[t].call.p)
    ensures b[i].threads[t].call.IsDone? ==> IsIsDone(TraceOf(b[i].log, t), t, b[i].threads[t].call.p)
  {
    BehaviorKeepsProtocol(b, i);
    assert ProtocolOf(b[i], t);
  }

  /**
   A StartContainer or a RemovePodSandbox that has returned has looked up its pod; if it found nothing that
   was all, and if it found a process it went through isDone, or terminate, of that process.
   */
  lemma HookGoesThrough(b: seq<State>, i: nat, t: Tid) returns (found: Option<Pid>)
    requires Behavior(b) && i < |b| && t < |b[i].threads| && b[i].threads[t].pc.Returned?
    requires b[i].threads[t].call.StartContainer? || b[i].threads[t].call.RemovePodSandbox?
    ensures var trace, c := TraceOf(b[i].log, t), b[i].threads[t].call;
            |trace| >= 1 && trace[0] == LookedUp(t, c.pod, found) &&
            match found
            case None => |trace| == 1
            case Some(p) => if c.RemovePodSandbox? then IsTerminate(trace[1..], t, p) else IsIsDone(trace[1..], t, p)
  {
    BehaviorKeepsProtocol(b, i);
    assert ProtocolOf(b[i], t);
    found := TraceOf(b[i].log, t)[0].found;
  }
}
