/**
 What an answer of the plugin implies, over whole interleavings. The log orders what the
 calls did; every statement here is about the events before or after one event in it.
 */
module ProcessGuarantees {
  import opened Wrappers
  import opened ProcessMachine

  /** A claim of p is being, or has been, configured. */
  predicate WorkOn(e: Event, p: Pid) { (e.Configured? || e.ClaimReturned?) && e.p == p }

  predicate WorkBy(e: Event, c: Tid) { (e.Configured? || e.ClaimReturned?) && e.run == c }

  /** Call t read done of process p, in terminate or in isDone. */
  predicate Reads(e: Event, t: Tid, p: Pid, done: Option<Tid>) {
    (e.ReadDone? || e.Took?) && e.who == t && e.p == p && e.done == done
  }

  predicate LooksUpPod(c: ApiCall) { c.StartContainer? || c.RemovePodSandbox? }

  predicate HasRead(pc: Pc) { pc.TUnlock? || pc.TCancel? || pc.TWait? || pc.DUnlock? || pc.DTest? }

  /** For how many claims configureResourceClaim has returned. */
  function ClaimsReturned(T: Thread, claims: seq<Claim>): nat {
    if T.pc.RClaims? then T.pc.next
    else if T.pc.RDevices? then T.pc.claim
    else if T.pc.RClose? || HasClosed(T.pc) then |claims|
    else 0
  }

  // ----- what a step logs

  ghost predicate LogsTruly(s: State, t: Tid, e: Effect)
    requires t < |s.threads|
  {
    var T := s.threads[t];
    |e.events| <= 1 &&
    (e.closes <==> e.events == [Closed(t)]) &&
    (|e.events| == 1 ==>
       match e.events[0]
       case Took(u, p, cancel, done) =>
         u == t && T.pc.TTake? && p == T.pc.p < |s.procs| && cancel == s.procs[p].cancel && done == s.procs[p].done
       case ReadDone(u, p, done) => u == t && T.pc == DRead(p) && p < |s.procs| && done == s.procs[p].done &&
           e.pc == DUnlock(p, done)
       case Installed(c, p) => c == t && T.pc == RInstall(p) && T.call == Run(p)
       case Configured(c, p, _, _, _) => c == t && T.pc.RDevices? && T.pc.p == p && T.call == Run(p)
       case ClaimReturned(c, p, i) => c == t && T.pc.RDevices? && T.pc.p == p && T.pc.claim == i && T.call == Run(p)
       case Closed(c) => c == t && T.pc.RClose?
       case Passed(u, p, done) => u == t && T.pc == DTest(p, done) && Finished(s, done)
       case Refused(u, p, done) => u == t && T.pc == DTest(p, done) && !Finished(s, done)
       case Built(u, p, pod) =>
         u == t && T.pc.PHeld? && T.call.RunPodSandbox? && pod == T.call.pod && p == |s.procs| &&
             e.write == Build(T.call.claims)
       case LookedUp(u, pod, found) => u == t && T.pc.PHeld? && LooksUpPod(T.call) && pod == T.call.pod &&
           found == LookUp(s.pods, pod)
       case Terminated(u, p, done) => u == t && T.pc.TWait? && T.pc.p == p && T.pc.done == done && Finished(s, done))
  }

  lemma TerminateLogs(s: State, t: Tid)
    requires Enabled(s, t) && Shape(s, s.threads[t]) && InTerminate(s.threads[t].pc)
    ensures LogsTruly(s, t, TerminateStep(s, t, s.threads[t]))
  {
  }

  lemma IsDoneLogs(s: State, t: Tid)
    requires Enabled(s, t) && Shape(s, s.threads[t]) && InIsDone(s.threads[t].pc)
    ensures LogsTruly(s, t, IsDoneStep(s, t, s.threads[t]))
  {
  }

  lemma RunLogs(s: State, t: Tid, ok: bool)
    requires Enabled(s, t) && Shape(s, s.threads[t]) && InRun(s.threads[t].pc)
    ensures LogsTruly(s, t, RunStep(s, t, s.threads[t], ok))
  {
  }

  lemma HookLogs(s: State, t: Tid)
    requires Enabled(s, t) && Shape(s, s.threads[t]) && InHook(s.threads[t].pc)
    ensures LogsTruly(s, t, HookStep(s, t, s.threads[t]))
  {
  }

  lemma StepLogs(s: State, t: Tid, ok: bool)
    requires Enabled(s, t) && Shape(s, s.threads[t])
    ensures LogsTruly(s, t, StepOf(s, t, ok))
  {
    var T := s.threads[t];
    if InTerminate(T.pc) { TerminateLogs(s, t); }
    else if InIsDone(T.pc) { IsDoneLogs(s, t); }
    else if InRun(T.pc) { RunLogs(s, t, ok); }
    else { HookLogs(s, t); }
  }

  /** A run counts a claim as returned only by logging it. */
  ghost predicate CountsTruly(s: State, t: Tid, e: Effect)
    requires t < |s.threads|
  {
    var T := s.threads[t];
    T.call.Run? && T.call.p < |s.procs| ==>
      var claims := s.procs[T.call.p].claims;
      var n := ClaimsReturned(T, claims);
      ClaimsReturned(T.(pc := e.pc), claims) > n ==>
        ClaimsReturned(T.(pc := e.pc), claims) == n + 1 && e.events == [ClaimReturned(t, T.call.p, n)]
  }

  lemma ClaimsReturnOneByOne(s: State, t: Tid, ok: bool)
    requires Enabled(s, t) && Shape(s, s.threads[t])
    ensures CountsTruly(s, t, StepOf(s, t, ok))
  {
  }

  /** How done and cancel change hands: a run installs both at once, only a terminate takes cancel. */
  ghost predicate HandsOver(s: State, t: Tid, e: Effect)
    requires t < |s.threads|
  {
    var T := s.threads[t];
    (T.call.Run? && HasInstalled(e.pc) && !HasInstalled(T.pc) ==>
       T.call.p < |s.procs| && e.write == Update(T.call.p, Install(s.procs[T.call.p], t))) &&
    (e.write.Update? ==>
       e.write.p < |s.procs| &&
       (|| e.write.x.cancel == s.procs[e.write.p].cancel
        || e.write.x.cancel.None?
        || (e.write.x.cancel == Some(t) && T.call == Run(e.write.p) && HasInstalled(e.pc) && !HasInstalled(T.pc)))) &&
    (T.pc.TTake? ==> e.write.Update? && e.write.p == T.pc.p && e.write.x.cancel.None?)
  }

  /** A call at work on a channel has logged its read of it, and installations are logged. */
  ghost predicate LogsReads(s: State, t: Tid, e: Effect)
    requires t < |s.threads|
  {
    var T := s.threads[t];
    (HasRead(e.pc) ==>
       || (HasRead(T.pc) && T.pc.p == e.pc.p && T.pc.done == e.pc.done)
       || (|e.events| == 1 && Reads(e.events[0], t, e.pc.p, e.pc.done))) &&
    (e.write.Update? && e.write.p < |s.procs| && e.write.x.done != s.procs[e.write.p].done ==>
       e.events == [Installed(t, e.write.p)] && e.write.x.done.Some?) &&
    (T.call.Run? && HasInstalled(e.pc) && !HasInstalled(T.pc) ==> e.events == [Installed(t, T.call.p)]) &&
    (|e.events| == 1 && e.events[0].Installed? ==>
       e.write.Update? && e.write.p == e.events[0].p && e.write.x.done.Some?)
  }

  lemma StepHandsOver(s: State, t: Tid, ok: bool)
    requires Enabled(s, t) && Shape(s, s.threads[t])
    ensures HandsOver(s, t, StepOf(s, t, ok))
  {
  }

  lemma TerminateLogsReads(s: State, t: Tid)
    requires Enabled(s, t) && Shape(s, s.threads[t]) && InTerminate(s.threads[t].pc)
    ensures LogsReads(s, t, TerminateStep(s, t, s.threads[t]))
  {
  }

  lemma RunLogsReads(s: State, t: Tid, ok: bool)
    requires Enabled(s, t) && Shape(s, s.threads[t]) && InRun(s.threads[t].pc)
    ensures LogsReads(s, t, RunStep(s, t, s.threads[t], ok))
  {
  }

  lemma StepLogsReads(s: State, t: Tid, ok: bool)
    requires Enabled(s, t) && Shape(s, s.threads[t])
    ensures LogsReads(s, t, StepOf(s, t, ok))
  {
    var T := s.threads[t];
    if InTerminate(T.pc) { TerminateLogsReads(s, t); }
    else if InRun(T.pc) { RunLogsReads(s, t, ok); }
  }

  /** Everything the log arguments need to know of one step. */
  ghost predicate Tells(s: State, t: Tid, e: Effect) {
    t < |s.threads| && Local(s, t, e) && LogsTruly(s, t, e) && CountsTruly(s, t, e) && HandsOver(s, t, e) &&
        LogsReads(s, t, e)
  }

  lemma StepTells(s: State, t: Tid, ok: bool)
    requires Inv(s) && Enabled(s, t)
    ensures Shape(s, s.threads[t]) && Tells(s, t, StepOf(s, t, ok))
  {
    assert Shape(s, s.threads[t]);
    StepIsLocal(s, t, ok);
    StepLogs(s, t, ok);
    ClaimsReturnOneByOne(s, t, ok);
    StepHandsOver(s, t, ok);
    StepLogsReads(s, t, ok);
  }

  // ----- what holds of the log in every reachable state

  /** Run c has logged every claim it counts as returned. */
  ghost predicate CountLogged(s: State, c: Tid)
    requires c < |s.threads|
  {
    var T := s.threads[c];
    T.call.Run? && T.call.p < |s.procs| ==>
      AllReturned(s.log, ClaimsReturned(T, s.procs[T.call.p].claims), c, T.call.p)
  }

  /** The first n claims of p were configured by c in this part of the log. */
  ghost predicate AllReturned(log: seq<Event>, n: nat, c: Tid, p: Pid) {
    forall i :: 0 <= i < n ==> ClaimReturned(c, p, i) in log
  }

  ghost predicate CountsLogged(s: State) {
    forall c :: 0 <= c < |s.threads| ==> CountLogged(s, c)
  }

  /** Only a run that has installed its channel works. */
  ghost predicate WorkInstalled(s: State) {
    forall e :: e in s.log && (e.Configured? || e.ClaimReturned?) ==> InstalledRun(s, e.p, e.run)
  }

  ghost predicate InstalledShows(s: State) {
    forall p, c :: 0 <= p < |s.procs| && InstalledRun(s, p, c) ==> s.procs[p].done.Some?
  }

  ghost predicate ClosesLogged(s: State) {
    forall c :: Closed(c) in s.log <==> c in s.closed
  }

  ghost predicate ReadBefore(log: seq<Event>, t: Tid, p: Pid, done: Option<Tid>) {
    exists e :: e in log && Reads(e, t, p, done)
  }

  /** A call about to wait or answer has logged what it read. */
  ghost predicate ReadsLogged(s: State) {
    forall t :: 0 <= t < |s.threads| && HasRead(s.threads[t].pc) ==>
      ReadBefore(s.log, t, s.threads[t].pc.p, s.threads[t].pc.done)
  }

  /** Some run has installed its channel on p in this part of the log. */
  ghost predicate InstalledIn(log: seq<Event>, p: Pid) {
    exists e :: e in log && e.Installed? && e.p == p
  }

  ghost predicate InstallsLogged(s: State) {
    (forall p :: 0 <= p < |s.procs| ==> (s.procs[p].done.Some? <==> InstalledIn(s.log, p))) &&
    (forall e :: e in s.log && e.Installed? ==> e.p < |s.procs|)
  }

  predicate Mentions(e: Event) { e.ReadDone? || e.Took? || e.Passed? || e.Terminated? || e.Refused? }

  /** Every run that has installed its channel has logged it. */
  ghost predicate RunsLogged(s: State) {
    forall p, c :: InstalledRun(s, p, c) ==> Installed(c, p) in s.log
  }

  /** Every channel a call ever read belongs to an installed run on that process. */
  ghost predicate ReadsInstalled(s: State) {
    forall e :: e in s.log && Mentions(e) && e.done.Some? ==> InstalledRun(s, e.p, e.done.value)
  }

  /** A cancel function that can still be taken has not been. */
  ghost predicate CancelsFresh(s: State) {
    (forall p :: 0 <= p < |s.procs| && s.procs[p].cancel.Some? ==> InstalledRun(s, p, s.procs[p].cancel.value)) &&
    (forall e :: e in s.log && e.Took? && e.cancel.Some? ==>
       e.p < |s.procs| && InstalledRun(s, e.p, e.cancel.value) && s.procs[e.p].cancel != e.cancel)
  }

  ghost predicate Untouched(log: seq<Event>, p: Pid) {
    forall e :: e in log ==> !WorkOn(e, p)
  }

  /** What the event at k says about the log before it. */
  ghost predicate Justified(procs: seq<Process>, before: seq<Event>, e: Event) {
    match e
    case Passed(t, p, done) =>
      p < |procs| && ReadBefore(before, t, p, done) &&
      (done.Some? ==> AllReturned(before, |procs[p].claims|, done.value, p) && Closed(done.value) in before)
    case Terminated(t, p, done) =>
      p < |procs| && ReadBefore(before, t, p, done) &&
      (done.Some? ==> AllReturned(before, |procs[p].claims|, done.value, p) && Closed(done.value) in before)
    case Refused(t, p, done) =>
      p < |procs| && ReadBefore(before, t, p, done) &&
      done.Some? && Installed(done.value, p) in before && Closed(done.value) !in before
    case ReadDone(_, p, done) => (done.Some? <==> InstalledIn(before, p)) && (done.None? ==> Untouched(before, p))
    case Took(_, p, cancel, done) =>
      (done.Some? <==> InstalledIn(before, p)) && (done.None? ==> Untouched(before, p)) &&
      (cancel.Some? ==> forall f :: f in before && f.Took? ==> f.cancel != cancel)
    case Configured(c, _, _, _, _) => Closed(c) !in before
    case ClaimReturned(c, _, _) => Closed(c) !in before
    case Closed(c) => Closed(c) !in before
    case _ => true
  }

  ghost predicate JustifiedAt(s: State, k: int)
    requires 0 <= k < |s.log|
  {
    Justified(s.procs, s.log[..k], s.log[k])
  }

  ghost predicate LogInv(s: State) {
    CountsLogged(s) && WorkInstalled(s) && InstalledShows(s) && ClosesLogged(s) && ReadsLogged(s) &&
    InstallsLogged(s) && RunsLogged(s) && ReadsInstalled(s) && CancelsFresh(s) &&
    forall k :: 0 <= k < |s.log| ==> JustifiedAt(s, k)
  }

  // ----- every step keeps it

  lemma InstalledRunLasts(s: State, t: Tid, e: Effect, p: Pid, c: Tid)
    requires t < |s.threads| && Local(s, t, e) && InstalledRun(s, p, c)
    ensures InstalledRun(Apply(s, t, e), p, c)
  {
  }

  lemma StepKeepsCount(s: State, t: Tid, e: Effect, c: Tid)
    requires Tells(s, t, e) && c < |s.threads| && CountLogged(s, c) && Shape(s, s.threads[c])
    ensures CountLogged(Apply(s, t, e), c)
  {
  }

  lemma StepKeepsWork(s: State, t: Tid, e: Effect)
    requires Shapes(s) && Tells(s, t, e) && CountsLogged(s) && WorkInstalled(s)
    ensures CountsLogged(Apply(s, t, e)) && WorkInstalled(Apply(s, t, e))
  {
    var s' := Apply(s, t, e);
    forall c | 0 <= c < |s'.threads| ensures CountLogged(s', c) {
      if c < |s.threads| { StepKeepsCount(s, t, e, c); }
    }
    forall f | f in s'.log && (f.Configured? || f.ClaimReturned?) ensures InstalledRun(s', f.p, f.run) {
      if f in s.log { InstalledRunLasts(s, t, e, f.p, f.run); }
    }
  }

  lemma StepKeepsInstalledShows(s: State, t: Tid, e: Effect)
    requires Inv(s) && Tells(s, t, e) && InstalledShows(s)
    ensures InstalledShows(Apply(s, t, e))
  {
    var s' := Apply(s, t, e);
    forall p: Pid, c: Tid | p < |s'.procs| && InstalledRun(s', p, c) ensures s'.procs[p].done.Some? {
      assert c < |s.threads| && s.threads[c].call == Run(p);
      assert Shape(s, s.threads[c]);
      if InstalledRun(s, p, c) { assert s.procs[p].done.Some?; }
    }
  }

  lemma StepKeepsLogged(s: State, t: Tid, e: Effect)
    requires Inv(s) && Tells(s, t, e) && ClosesLogged(s) && ReadsLogged(s)
    ensures ClosesLogged(Apply(s, t, e)) && ReadsLogged(Apply(s, t, e))
  {
    var s' := Apply(s, t, e);
    forall u: Tid | u < |s'.threads| && HasRead(s'.threads[u].pc)
      ensures ReadBefore(s'.log, u, s'.threads[u].pc.p, s'.threads[u].pc.done)
    {
      if u != t || (HasRead(s.threads[t].pc) && s.threads[t].pc.p == e.pc.p && s.threads[t].pc.done == e.pc.done) {
        assert ReadBefore(s.log, u, s.threads[u].pc.p, s.threads[u].pc.done);
      } else {
        assert e.events[0] in s'.log;
      }
    }
  }

  /** A step that logs an installation on p makes it, and the others keep whether there was one. */
  lemma {:induction false} InstalledOneMore(s: State, t: Tid, e: Effect, p: Pid)
    requires Tells(s, t, e) && p < |s.procs|
    ensures InstalledIn(s.log + e.events, p) <==> InstalledIn(s.log, p) || e.events == [Installed(t, p)]
  {
    if InstalledIn(s.log, p) {
      var f :| f in s.log && f.Installed? && f.p == p;
      assert f in s.log + e.events;
    }
    if e.events == [Installed(t, p)] { assert Installed(t, p) in s.log + e.events; }
  }

  lemma {:induction false} StepKeepsInstallsLogged(s: State, t: Tid, e: Effect)
    requires Inv(s) && Tells(s, t, e) && InstallsLogged(s)
    ensures InstallsLogged(Apply(s, t, e))
  {
    var s' := Apply(s, t, e);
    forall p: Pid | p < |s'.procs| ensures s'.procs[p].done.Some? <==> InstalledIn(s'.log, p) {
      if p < |s.procs| {
        assert s.procs[p].done.Some? <==> InstalledIn(s.log, p);
        InstalledOneMore(s, t, e, p);
      }
    }
  }

  lemma StepKeepsRunsLogged(s: State, t: Tid, e: Effect)
    requires Tells(s, t, e) && RunsLogged(s)
    ensures RunsLogged(Apply(s, t, e))
  {
    var s' := Apply(s, t, e);
    forall p, c | InstalledRun(s', p, c) ensures Installed(c, p) in s'.log {
      if !InstalledRun(s, p, c) { assert c == t && e.events == [Installed(t, p)]; }
    }
  }

  lemma StepKeepsReadsInstalled(s: State, t: Tid, e: Effect)
    requires Inv(s) && Tells(s, t, e) && ReadsInstalled(s)
    ensures ReadsInstalled(Apply(s, t, e))
  {
    var s' := Apply(s, t, e);
    forall f | f in s'.log && Mentions(f) && f.done.Some? ensures InstalledRun(s', f.p, f.done.value) {
      if f !in s.log {
        assert f == e.events[0];
        assert Known(s.threads[t].pc) == f.done || s.procs[f.p].done == f.done;
      }
      InstalledRunLasts(s, t, e, f.p, f.done.value);
    }
  }

  lemma StepKeepsCancelsFresh(s: State, t: Tid, e: Effect)
    requires Inv(s) && Tells(s, t, e) && CancelsFresh(s)
    ensures CancelsFresh(Apply(s, t, e))
  {
    var s' := Apply(s, t, e);
    forall p: Pid | p < |s'.procs| && s'.procs[p].cancel.Some? ensures InstalledRun(s', p, s'.procs[p].cancel.value) {
      if p < |s.procs| && s'.procs[p].cancel == s.procs[p].cancel {
        InstalledRunLasts(s, t, e, p, s.procs[p].cancel.value);
      }
    }
    forall f | f in s'.log && f.Took? && f.cancel.Some?
      ensures f.p < |s'.procs| && InstalledRun(s', f.p, f.cancel.value) && s'.procs[f.p].cancel != f.cancel
    {
      if f in s.log {
        InstalledRunLasts(s, t, e, f.p, f.cancel.value);
      } else {
        assert f == e.events[0];
        InstalledRunLasts(s, t, e, f.p, f.cancel.value);
      }
    }
  }

  /** A finished channel, if there is one, belongs to a run that has logged all its claims and the close. */
  lemma FinishedRunIsLogged(s: State, p: Pid, done: Option<Tid>)
    requires Inv(s) && LogInv(s) && p < |s.procs| && Finished(s, done)
    requires done.Some? ==> InstalledRun(s, p, done.value)
    ensures done.Some? ==> AllReturned(s.log, |s.procs[p].claims|, done.value, p) && Closed(done.value) in s.log
  {
    if done.Some? {
      assert CountLogged(s, done.value);
      assert Shape(s, s.threads[done.value]);
    }
  }

  /** An open channel was installed and its close is still to come. */
  lemma OpenRunIsLogged(s: State, p: Pid, c: Tid)
    requires Inv(s) && LogInv(s) && InstalledRun(s, p, c) && c !in s.closed
    ensures Installed(c, p) in s.log && Closed(c) !in s.log
  {
  }

  /** Before any run of p has installed a channel, no claim of p has been touched. */
  lemma NothingInstalledNothingDone(s: State, p: Pid)
    requires Inv(s) && LogInv(s) && p < |s.procs| && s.procs[p].done.None?
    ensures Untouched(s.log, p)
  {
    forall f | f in s.log ensures !WorkOn(f, p) {
      assert WorkOn(f, p) ==> InstalledRun(s, p, f.run);
    }
  }

  lemma NewEventIsJustified(s: State, t: Tid, e: Effect)
    requires Inv(s) && LogInv(s) && Tells(s, t, e) && |e.events| == 1
    ensures Justified(s.procs, s.log, e.events[0])
  {
    var T := s.threads[t];
    assert Shape(s, T);
    match e.events[0]
    case Passed(_, p, done) =>
      assert Known(T.pc) == done;
      FinishedRunIsLogged(s, p, done);
    case Terminated(_, p, done) =>
      assert Known(T.pc) == done;
      FinishedRunIsLogged(s, p, done);
    case Refused(_, p, done) =>
      assert Known(T.pc) == done;
      OpenRunIsLogged(s, p, done.value);
    case ReadDone(_, p, done) =>
      if done.None? { NothingInstalledNothingDone(s, p); }
    case Took(_, p, cancel, done) =>
      if done.None? { NothingInstalledNothingDone(s, p); }
      if cancel.Some? {
        forall f | f in s.log && f.Took? ensures f.cancel != cancel {
          assert f.cancel == cancel ==> InstalledRun(s, f.p, cancel.value);
        }
      }
    case _ =>
  }

  lemma StepKeepsLogInv(s: State, t: Tid, e: Effect)
    requires Inv(s) && LogInv(s) && Tells(s, t, e)
    ensures LogInv(Apply(s, t, e))
  {
    var s' := Apply(s, t, e);
    StepKeepsWork(s, t, e);
    StepKeepsInstalledShows(s, t, e);
    StepKeepsLogged(s, t, e);
    StepKeepsInstallsLogged(s, t, e);
    StepKeepsRunsLogged(s, t, e);
    StepKeepsReadsInstalled(s, t, e);
    StepKeepsCancelsFresh(s, t, e);
    forall k | 0 <= k < |s'.log| ensures JustifiedAt(s', k) {
      StepKeepsJustified(s, t, e, k);
    }
  }

  lemma StepKeepsJustified(s: State, t: Tid, e: Effect, k: nat)
    requires Inv(s) && LogInv(s) && Tells(s, t, e) && k < |Apply(s, t, e).log|
    ensures JustifiedAt(Apply(s, t, e), k)
  {
    var s' := Apply(s, t, e);
    if k < |s.log| {
      assert JustifiedAt(s, k) && s'.log[..k] == s.log[..k] && s'.log[k] == s.log[k];
      JustifiedLasts(s.procs, s'.procs, s.log[..k], s.log[k]);
    } else {
      assert s'.log[..k] == s.log;
      NewEventIsJustified(s, t, e);
      JustifiedLasts(s.procs, s'.procs, s.log, e.events[0]);
    }
  }

  lemma JustifiedLasts(procs: seq<Process>, procs': seq<Process>, before: seq<Event>, e: Event)
    requires Justified(procs, before, e)
    requires |procs| <= |procs'| && forall p :: 0 <= p < |procs| ==> procs'[p].claims == procs[p].claims
    ensures Justified(procs', before, e)
  {
  }

  lemma NextKeepsLogInv(s: State, s': State)
    requires Inv(s) && LogInv(s) && Next(s, s')
    ensures LogInv(s')
  {
    var t: Tid, ok: bool :| Enabled(s, t) && Shape(s, s.threads[t]) && s' == Fire(s, t, ok);
    StepTells(s, t, ok);
    StepKeepsLogInv(s, t, StepOf(s, t, ok));
  }

  lemma InitHasLogInv(s: State)
    requires Init(s)
    ensures LogInv(s)
  {
  }

  lemma {:induction false} BehaviorKeepsLogInv(b: seq<State>, i: nat)
    requires Behavior(b) && i < |b|
    ensures LogInv(b[i])
  {
    if i == 0 {
      InitHasLogInv(b[0]);
    } else {
      BehaviorKeepsLogInv(b, i - 1);
      BehaviorKeepsInv(b, i - 1);
      assert NextAt(b, i - 1);
      NextKeepsLogInv(b[i - 1], b[i]);
    }
  }

  // ----- one run per process

  /** The process a call runs, or has built and is going to start a run on. */
  function Owned(T: Thread): Option<Pid> {
    if T.call.Run? then Some(T.call.p)
    else if T.pc.PSpawning? || T.pc.PSpawn? then Some(T.pc.p)
    else None
  }

  /** No two calls run the same process. */
  ghost predicate Sole(s: State) {
    forall t, u :: 0 <= t < u < |s.threads| && Owned(s.threads[t]).Some? ==> Owned(s.threads[t]) != Owned(s.threads[u])
  }

  lemma StepOwns(s: State, t: Tid, ok: bool)
    requires Enabled(s, t) && Shape(s, s.threads[t])
    ensures Owns(s, t, StepOf(s, t, ok))
  {
  }

  lemma {:induction false} NextKeepsSole(s: State, s': State)
    requires Inv(s) && Sole(s) && Next(s, s')
    ensures Sole(s')
  {
    var t: Tid, ok: bool :| Enabled(s, t) && Shape(s, s.threads[t]) && s' == Fire(s, t, ok);
    StepOwns(s, t, ok);
    StepIsLocal(s, t, ok);
    OwnedExist(s);
    StepKeepsSole(s, t, StepOf(s, t, ok));
  }

  lemma OwnedExist(s: State)
    requires Shapes(s)
    ensures forall u :: 0 <= u < |s.threads| && Owned(s.threads[u]).Some? ==> Owned(s.threads[u]).value < |s.procs|
  {
    forall u | 0 <= u < |s.threads| && Owned(s.threads[u]).Some? ensures Owned(s.threads[u]).value < |s.procs| {
      assert Shape(s, s.threads[u]);
    }
  }

  /** A step passes a process on to the run it starts, or takes a new one. */
  ghost predicate Owns(s: State, t: Tid, e: Effect)
    requires t < |s.threads|
  {
    var T, T' := s.threads[t], s.threads[t].(pc := e.pc);
    (e.spawn.None? ==> Owned(T') == Owned(T) || (Owned(T) == None && Owned(T') == Some(|s.procs|))) &&
    (e.spawn.Some? ==> Owned(T) == e.spawn && Owned(T') == None)
  }

  lemma {:induction false} StepKeepsSole(s: State, t: Tid, e: Effect)
    requires Sole(s) && t < |s.threads| && Owns(s, t, e) && (e.write.Update? ==> e.write.p < |s.procs|)
    requires forall u :: 0 <= u < |s.threads| && Owned(s.threads[u]).Some? ==> Owned(s.threads[u]).value < |s.procs|
    ensures Sole(Apply(s, t, e))
  {
    var s' := Apply(s, t, e);
    forall u, v | 0 <= u < v < |s'.threads| && Owned(s'.threads[u]).Some?
      ensures Owned(s'.threads[u]) != Owned(s'.threads[v]) {
      assert u < |s.threads|;
    }
  }

  lemma {:induction false} BehaviorKeepsSole(b: seq<State>, i: nat)
    requires Behavior(b) && Sole(b[0]) && i < |b|
    ensures Sole(b[i])
  {
    if i > 0 {
      BehaviorKeepsSole(b, i - 1);
      BehaviorKeepsInv(b, i - 1);
      assert NextAt(b, i - 1);
      NextKeepsSole(b[i - 1], b[i]);
    }
  }

  // ----- the guarantees

  /** From a close on, the run that closed does no more work. */
  lemma ClosedRunRests(s: State, k: nat, j: nat, c: Tid)
    requires LogInv(s) && k <= j < |s.log| && Closed(c) in s.log[..k]
    ensures !WorkBy(s.log[j], c)
  {
    assert JustifiedAt(s, j);
    assert s.log[..k] <= s.log[..j];
  }

  lemma SoleRunWorks(s: State, e: Event, p: Pid, c: Tid)
    requires Inv(s) && LogInv(s) && Sole(s) && e in s.log && WorkOn(e, p)
    requires InstalledRun(s, p, c)
    ensures e.run == c
  {
    assert InstalledRun(s, p, e.run);
    assert Owned(s.threads[c]) == Some(p) == Owned(s.threads[e.run]);
  }

  /** What follows once a call has seen the channel c of a run on p closed: all work on p is before k. */
  ghost predicate ConfiguredBefore(s: State, k: nat, p: Pid, c: Tid)
    requires k <= |s.log|
  {
    p < |s.procs| && AllReturned(s.log[..k], |s.procs[p].claims|, c, p) &&
    forall j :: k <= j < |s.log| ==> !WorkOn(s.log[j], p)
  }

  /**
   The completion gate. A StartContainer, or any isDone, that answers "done" for p from an
   installed channel, and a RemovePodSandbox, or any terminate, that returns from one, come after
   configureResourceClaim has returned for every claim; nothing on p is configured afterwards.
   */
  lemma CompletionGate(b: seq<State>, i: nat, k: nat)
    requires Behavior(b) && Sole(b[0]) && i < |b| && k < |b[i].log|
    requires (b[i].log[k].Passed? || b[i].log[k].Terminated?) && b[i].log[k].done.Some?
    ensures ConfiguredBefore(b[i], k, b[i].log[k].p, b[i].log[k].done.value)
  {
    var s := b[i];
    var p, c := s.log[k].p, s.log[k].done.value;
    BehaviorKeepsInv(b, i);
    BehaviorKeepsLogInv(b, i);
    BehaviorKeepsSole(b, i);
    assert JustifiedAt(s, k);
    assert InstalledRun(s, p, c) by { assert s.log[k] in s.log; }
    forall j | k <= j < |s.log| ensures !WorkOn(s.log[j], p) {
      ClosedRunRests(s, k, j, c);
      if WorkOn(s.log[j], p) {
        SoleRunWorks(s, s.log[j], p, c);
      }
    }
  }

  /**
   The start-up window. What such a call read decides, and it read a channel exactly when a run had
   installed one before the read: if not, at the read no claim of the process had been touched.
   */
  lemma StartupWindow(b: seq<State>, i: nat, k: nat) returns (r: nat)
    requires Behavior(b) && i < |b| && k < |b[i].log|
    requires b[i].log[k].Passed? || b[i].log[k].Terminated?
    ensures r < k && Reads(b[i].log[r], b[i].log[k].who, b[i].log[k].p, b[i].log[k].done)
    ensures b[i].log[k].done.Some? <==> InstalledIn(b[i].log[..r], b[i].log[k].p)
    ensures b[i].log[k].done.None? ==> Untouched(b[i].log[..r], b[i].log[k].p)
  {
    var s := b[i];
    BehaviorKeepsLogInv(b, i);
    assert JustifiedAt(s, k);
    var e :| e in s.log[..k] && Reads(e, s.log[k].who, s.log[k].p, s.log[k].done);
    r :| 0 <= r < k && s.log[r] == e;
    assert JustifiedAt(s, r);
  }

  /**
   Refusal. A StartContainer, or any isDone, answers "not done" only for a channel that a run had
   installed on the process and that is still open when the answer is given.
   */
  lemma RefusesOnlyOpen(b: seq<State>, i: nat, k: nat) returns (c: Tid)
    requires Behavior(b) && i < |b| && k < |b[i].log| && b[i].log[k].Refused?
    ensures b[i].log[k].done == Some(c)
    ensures Installed(c, b[i].log[k].p) in b[i].log[..k] && Closed(c) !in b[i].log[..k]
  {
    BehaviorKeepsLogInv(b, i);
    assert JustifiedAt(b[i], k);
    c := b[i].log[k].done.value;
  }

  /** Each channel is closed at most once, and each cancel function is taken by at most one terminate. */
  lemma CloseOnceCancelOnce(b: seq<State>, i: nat, j: nat, k: nat)
    requires Behavior(b) && i < |b| && j < k < |b[i].log|
    ensures b[i].log[j].Closed? ==> b[i].log[j] != b[i].log[k]
    ensures b[i].log[j].Took? && b[i].log[j].cancel.Some? && b[i].log[k].Took? ==>
              b[i].log[j].cancel != b[i].log[k].cancel
  {
    var s := b[i];
    BehaviorKeepsLogInv(b, i);
    assert JustifiedAt(s, k);
    assert s.log[j] in s.log[..k];
  }
}
