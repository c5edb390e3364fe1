/** The cancel functions: which terminate takes them, and that no context of a run is left uncancelled. */
module ProcessCancels {
  import opened Wrappers
  import opened ProcessMachine
  import opened ProcessGuarantees
  import opened ProcessSerial

  ghost predicate Taken(log: seq<Event>, c: Tid) {
    exists e :: e in log && e.Took? && e.cancel == Some(c)
  }

  /** The cancel function of every run is there to be taken until it is taken: none is overwritten. */
  ghost predicate NoneLost(s: State) {
    forall p: Pid, c: Tid :: InstalledRun(s, p, c) ==>
        p < |s.procs| && (s.procs[p].cancel == Some(c) || Taken(s.log, c))
  }

  predicate HasTaken(pc: Pc) { Entering(pc) && !pc.TLock? && !pc.TTake? }

  /** An entering run that has taken what it found leaves nothing for its installation to overwrite. */
  ghost predicate EntererTook(s: State) {
    forall t ::
      0 <= t < |s.threads| && s.threads[t].call.Run? && HasTaken(s.threads[t].pc) && s.threads[t].call.p < |s.procs| ==>
      s.procs[s.threads[t].call.p].cancel.None?
  }

  /** The cancel function a call has taken and not called yet. */
  function Held(pc: Pc): Option<Tid> {
    if pc.TUnlock? || pc.TCancel? then pc.cancel else None
  }

  /** A taken cancel function has been called, or is about to be by the call that took it. */
  ghost predicate TakenIsCalled(s: State) {
    forall e :: e in s.log && e.Took? && e.cancel.Some? ==>
      e.cancel.value in s.cancelled || (e.who < |s.threads| && Held(s.threads[e.who].pc) == e.cancel)
  }

  predicate PastLastTake(pc: Pc) {
    pc.Returned? || ((pc.TUnlock? || pc.TCancel? || pc.TWait?) && pc.last)
  }

  /** A run past the critical section of its deferred terminate has left no cancel function of its own. */
  ghost predicate LeavesNoCancel(s: State) {
    forall c ::
      0 <= c < |s.threads| && s.threads[c].call.Run? && s.threads[c].call.p < |s.procs| &&
      PastLastTake(s.threads[c].pc) ==>
      s.procs[s.threads[c].call.p].cancel != Some(c)
  }

  ghost predicate CancelInv(s: State) { NoneLost(s) && EntererTook(s) && TakenIsCalled(s) && LeavesNoCancel(s) }

  /** How a step moves cancel functions. */
  ghost predicate MovesCancel(s: State, t: Tid, e: Effect)
    requires t < |s.threads|
  {
    var T := s.threads[t];
    (Held(T.pc).Some? ==> Held(e.pc) == Held(T.pc) || e.cancels == Held(T.pc)) &&
    (|e.events| == 1 && e.events[0].Took? ==> Held(e.pc) == e.events[0].cancel && e.events[0].who == t) &&
    (T.call.Run? && PastLastTake(e.pc) && !PastLastTake(T.pc) ==>
       e.write.Update? && e.write.p == T.call.p && e.write.x.cancel.None?) &&
    (e.write.Update? && e.write.p < |s.procs| ==>
       var old_, new_ := s.procs[e.write.p], e.write.x;
       (|| (new_.done == old_.done && new_.cancel == old_.cancel)
        || (new_.done == old_.done && new_.cancel.None? && e.events == [Took(t, e.write.p, old_.cancel, old_.done)])
        || (new_.done == new_.cancel == Some(t) && T.pc == RInstall(e.write.p) && e.pc.RUnlock?))) &&
    (T.call.Run? && HasTaken(e.pc) && !HasTaken(T.pc) ==>
        e.write.Update? && e.write.p == T.call.p && e.write.x.cancel.None?) &&
    (T.call.Run? && HasInstalled(e.pc) && !HasInstalled(T.pc) ==>
       e.write.Update? && e.write.p == T.call.p && e.write.x.cancel == Some(t))
  }

  lemma {:induction false} RunMovesCancel(s: State, t: Tid, ok: bool)
    requires Enabled(s, t) && Shape(s, s.threads[t]) && InRun(s.threads[t].pc)
    ensures MovesCancel(s, t, RunStep(s, t, s.threads[t], ok))
  {
  }

  lemma {:induction false} TerminateMovesCancel(s: State, t: Tid)
    requires Enabled(s, t) && Shape(s, s.threads[t]) && InTerminate(s.threads[t].pc)
    ensures MovesCancel(s, t, TerminateStep(s, t, s.threads[t]))
  {
  }

  lemma {:induction false} StepMovesCancel(s: State, t: Tid, ok: bool)
    requires Enabled(s, t) && Shape(s, s.threads[t])
    ensures MovesCancel(s, t, StepOf(s, t, ok))
  {
    var T := s.threads[t];
    if InRun(T.pc) { RunMovesCancel(s, t, ok); }
    else if InTerminate(T.pc) { TerminateMovesCancel(s, t); }
  }

  ghost predicate Hands(s: State, t: Tid, e: Effect) { Tells(s, t, e) && MovesCancel(s, t, e) }

  lemma {:induction false} TakenLasts(s: State, t: Tid, e: Effect, c: Tid)
    requires Hands(s, t, e) && Taken(s.log, c)
    ensures Taken(Apply(s, t, e).log, c)
  {
    var f :| f in s.log && f.Took? && f.cancel == Some(c);
    assert f in Apply(s, t, e).log;
  }

  lemma {:induction false} StepKeepsNoneLost(s: State, t: Tid, e: Effect)
    requires Inv(s) && Hands(s, t, e) && NoneLost(s) && EntererTook(s)
    ensures NoneLost(Apply(s, t, e))
  {
    var s' := Apply(s, t, e);
    forall p: Pid, c: Tid | InstalledRun(s', p, c)
      ensures p < |s'.procs| && (s'.procs[p].cancel == Some(c) || Taken(s'.log, c))
    {
      OneIsNotLost(s, t, e, p, c);
    }
  }

  lemma {:induction false} OneIsNotLost(s: State, t: Tid, e: Effect, p: Pid, c: Tid)
    requires Inv(s) && Hands(s, t, e) && NoneLost(s) && EntererTook(s) && InstalledRun(Apply(s, t, e), p, c)
    ensures var s' := Apply(s, t, e); p < |s'.procs| && (s'.procs[p].cancel == Some(c) || Taken(s'.log, c))
  {
    assert Shape(s, s.threads[t]);
    if InstalledRun(s, p, c) {
      if Taken(s.log, c) {
        TakenLasts(s, t, e, c);
      } else if e.write.Update? && e.write.p == p && e.write.x.cancel != Some(c) && |e.events| == 1 {
        assert e.events[0] in Apply(s, t, e).log;
      }
    }
  }

  /** Only an installation puts a cancel function back, and no other run is entering then. */
  lemma {:induction false} StepKeepsEntererTook(s: State, t: Tid, e: Effect)
    requires Inv(s) && Hands(s, t, e) && OneEnters(s) && EntererTook(s)
    ensures EntererTook(Apply(s, t, e))
  {
    var s' := Apply(s, t, e);
    forall u: Tid | u < |s'.threads| && s'.threads[u].call.Run? && HasTaken(s'.threads[u].pc) &&
        s'.threads[u].call.p < |s'.procs|
      ensures s'.procs[s'.threads[u].call.p].cancel.None?
    {
      assert u < |s.threads| && Shape(s, s.threads[u]) && Shape(s, s.threads[t]);
    }
  }

  lemma StepKeepsCalled(s: State, t: Tid, e: Effect)
    requires Tells(s, t, e) && MovesCancel(s, t, e) && TakenIsCalled(s)
    ensures TakenIsCalled(Apply(s, t, e))
  {
    var s' := Apply(s, t, e);
    forall f | f in s'.log && f.Took? && f.cancel.Some?
      ensures f.cancel.value in s'.cancelled || (f.who < |s'.threads| && Held(s'.threads[f.who].pc) == f.cancel)
    {
      if f !in s.log { assert f == e.events[0]; }
    }
  }

  lemma StepKeepsLeaving(s: State, t: Tid, e: Effect)
    requires Inv(s) && t < |s.threads| && Local(s, t, e) && MovesCancel(s, t, e) && LeavesNoCancel(s)
    ensures LeavesNoCancel(Apply(s, t, e))
  {
    var s' := Apply(s, t, e);
    forall c: Tid | c < |s'.threads| && s'.threads[c].call.Run? && s'.threads[c].call.p < |s'.procs| &&
        PastLastTake(s'.threads[c].pc)
      ensures s'.procs[s'.threads[c].call.p].cancel != Some(c)
    {
      assert c < |s.threads|;
      assert Shape(s, s.threads[c]);
    }
  }

  lemma {:induction false} NextKeepsCancelInv(s: State, s': State)
    requires Inv(s) && OneEnters(s) && CancelInv(s) && Next(s, s')
    ensures CancelInv(s')
  {
    var t: Tid, ok: bool :| Enabled(s, t) && Shape(s, s.threads[t]) && s' == Fire(s, t, ok);
    var e := StepOf(s, t, ok);
    StepTells(s, t, ok);
    StepMovesCancel(s, t, ok);
    StepKeepsNoneLost(s, t, e);
    StepKeepsEntererTook(s, t, e);
    StepKeepsCalled(s, t, e);
    StepKeepsLeaving(s, t, e);
  }

  lemma {:induction false} InitHasCancelInv(s: State)
    requires Init(s)
    ensures CancelInv(s)
  {
  }

  lemma {:induction false} BehaviorKeepsCancelInv(b: seq<State>, i: nat)
    requires SerialBehavior(b) && i < |b|
    ensures CancelInv(b[i])
  {
    if i == 0 {
      InitHasCancelInv(b[0]);
    } else {
      BehaviorKeepsCancelInv(b, i - 1);
      SerialBehaviorKeeps(b, i - 1);
      assert SerialNextAt(b, i - 1);
      NextKeepsCancelInv(b[i - 1], b[i]);
    }
  }

  /**
   With any number of runs per process, each entering after the one before has installed: once every
   call has returned, the context of every run has been cancelled.
   */
  lemma NoContextLeaks(b: seq<State>, i: nat, c: Tid)
    requires SerialBehavior(b) && i < |b|
    requires forall t :: 0 <= t < |b[i].threads| ==> b[i].threads[t].pc.Returned?
    requires c < |b[i].threads| && b[i].threads[c].call.Run?
    ensures c in b[i].cancelled
  {
    var s := b[i];
    SerialBehaviorKeeps(b, i);
    BehaviorKeepsCancelInv(b, i);
    assert InstalledRun(s, s.threads[c].call.p, c);
    assert Taken(s.log, c);
    var e :| e in s.log && e.Took? && e.cancel == Some(c);
  }
}
