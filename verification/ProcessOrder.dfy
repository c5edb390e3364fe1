/** Which devices a run configures, and in which order, in every interleaving. */
module ProcessOrder {
  import opened Wrappers
  import opened ProcessMachine
  import opened ProcessGuarantees

  /** A call of Configure: which claim, which device of it, and its outcome. */
  datatype Try = Try(claim: nat, device: nat, ok: bool)

  /** All calls that run c has made. */
  ghost function TriesOf(log: seq<Event>, c: Tid): set<Try> {
    set e | e in log && e.Configured? && e.run == c :: Try(e.claim, e.device, e.ok)
  }

  ghost predicate Tried(tries: set<Try>, i: nat, j: nat) { Try(i, j, true) in tries || Try(i, j, false) in tries }

  /** Device j ends claim i: its status is malformed, or its Configure has failed. */
  ghost predicate Ends(tries: set<Try>, claim: Claim, i: nat, j: nat)
    requires j < |claim|
  {
    claim[j].Abort? || Try(i, j, false) in tries
  }

  /** Nothing before device n ends the claim. */
  ghost predicate GoesTo(tries: set<Try>, claim: Claim, i: nat, n: nat) {
    n <= |claim| && forall k: nat :: k < n ==> !Ends(tries, claim, i, k)
  }

  /** Device j is to be configured: it has a configurator and nothing before it ends the claim. */
  ghost predicate Due(tries: set<Try>, claim: Claim, i: nat, j: nat) {
    j < |claim| && claim[j].Call? && GoesTo(tries, claim, i, j)
  }

  /** Of the first n devices of claim i exactly the due ones were tried, and no others. */
  ghost predicate TriedTo(tries: set<Try>, claim: Claim, i: nat, n: nat) {
    n <= |claim| && forall j: nat :: Tried(tries, i, j) <==> j < n && Due(tries, claim, i, j)
  }

  ghost predicate TriedClaims(tries: set<Try>, claims: seq<Claim>, n: nat) {
    n <= |claims| && forall i: nat :: i < n ==> TriedTo(tries, claims[i], i, |claims[i]|)
  }

  ghost predicate NothingFrom(tries: set<Try>, n: nat) { forall x :: x in tries ==> x.claim < n }

  /** What a run at pc has configured. */
  ghost predicate Progress(tries: set<Try>, claims: seq<Claim>, pc: Pc) {
    if pc.RClaims? then
      TriedClaims(tries, claims, pc.next) && NothingFrom(tries, pc.next)
    else if pc.RDevices? then
      pc.claim < |claims| && TriedClaims(tries, claims, pc.claim) && NothingFrom(tries, pc.claim + 1) &&
      TriedTo(tries, claims[pc.claim], pc.claim, pc.next) &&
      (pc.next < |claims[pc.claim]| ==> GoesTo(tries, claims[pc.claim], pc.claim, pc.next))
    else if pc.RClose? || HasClosed(pc) then
      TriedClaims(tries, claims, |claims|) && NothingFrom(tries, |claims|)
    else
      tries == {}
  }

  ghost predicate ProgressOf(s: State, c: Tid)
    requires c < |s.threads|
  {
    s.threads[c].call.Run? && s.threads[c].call.p < |s.procs| ==>
      Progress(TriesOf(s.log, c), s.procs[s.threads[c].call.p].claims, s.threads[c].pc)
  }

  ghost predicate Earlier(e: Event, f: Event)
    requires e.Configured? && f.Configured?
  {
    e.claim < f.claim || (e.claim == f.claim && e.device < f.device)
  }

  /** The calls of one run are in the order of claims and devices, so each device is tried once at most. */
  ghost predicate InOrder(log: seq<Event>) {
    forall j, k :: 0 <= j < k < |log| && log[j].Configured? && log[k].Configured? && log[j].run == log[k].run ==>
        Earlier(log[j], log[k])
  }

  ghost predicate OrderInv(s: State) {
    (forall c :: 0 <= c < |s.threads| ==> ProgressOf(s, c)) && InOrder(s.log)
  }

  // ----- what one step does

  /** The loop of a run, in terms of its program points and the event of the step. */
  ghost predicate LoopsOn(claims: seq<Claim>, t: Tid, p: Pid, pc: Pc, pc': Pc, events: seq<Event>) {
    match pc
    case RClaims(_, i) =>
      i <= |claims| && events == [] && pc' == if i < |claims| then RDevices(p, i, 0) else RClose(p)
    case RDevices(_, i, j) =>
      i < |claims| && j <= |claims[i]| &&
      (|| ((j == |claims[i]| || claims[i][j].Abort?) && events == [ClaimReturned(t, p, i)] && pc' == RClaims(p, i + 1))
       || (j < |claims[i]| && claims[i][j].Skip? && events == [] && pc' == RDevices(p, i, j + 1))
       || (j < |claims[i]| && claims[i][j].Call? && events == [Configured(t, p, i, j, true)] &&
           pc' == RDevices(p, i, j + 1))
       || (j < |claims[i]| && claims[i][j].Call? && events == [Configured(t, p, i, j, false)] &&
           pc' == RDevices(p, i, |claims[i]|)))
    case RClose(_) => events == [Closed(t)] && HasClosed(pc')
    case RUnlock(_) => events == [] && pc' == RClaims(p, 0)
    case _ =>
      !pc'.RClaims? && !pc'.RDevices? && !pc'.RClose? && (HasClosed(pc) <==> HasClosed(pc')) &&
      forall e :: e in events ==> !e.Configured?
  }

  ghost predicate StepLoops(s: State, t: Tid, e: Effect)
    requires t < |s.threads|
  {
    var T := s.threads[t];
    if T.call.Run? then
      T.call.p < |s.procs| && LoopsOn(s.procs[T.call.p].claims, t, T.call.p, T.pc, e.pc, e.events)
    else forall f :: f in e.events ==> !f.Configured?
  }

  lemma {:induction false} RunLoopsOn(s: State, t: Tid, ok: bool)
    requires Enabled(s, t) && Shape(s, s.threads[t]) && InRun(s.threads[t].pc)
    ensures StepLoops(s, t, RunStep(s, t, s.threads[t], ok))
  {
  }

  lemma {:induction false} TerminateLoopsOn(s: State, t: Tid)
    requires Enabled(s, t) && Shape(s, s.threads[t]) && InTerminate(s.threads[t].pc)
    ensures StepLoops(s, t, TerminateStep(s, t, s.threads[t]))
  {
  }

  lemma {:induction false} StepLoopsOn(s: State, t: Tid, ok: bool)
    requires Enabled(s, t) && Shape(s, s.threads[t])
    ensures StepLoops(s, t, StepOf(s, t, ok))
  {
    var T := s.threads[t];
    if InRun(T.pc) { RunLoopsOn(s, t, ok); }
    else if InTerminate(T.pc) { TerminateLoopsOn(s, t); }
  }

  // ----- progress

  /** The next claim: what is left of this one is not due. */
  lemma {:induction false} ClaimIsDone(tries: set<Try>, claims: seq<Claim>, p: Pid, i: nat, j: nat)
    requires Progress(tries, claims, RDevices(p, i, j)) && (j == |claims[i]| || claims[i][j].Abort?)
    ensures Progress(tries, claims, RClaims(p, i + 1))
  {
    if j < |claims[i]| { assert Ends(tries, claims[i], i, j); }
  }

  lemma {:induction false} DeviceIsSkipped(tries: set<Try>, claims: seq<Claim>, p: Pid, i: nat, j: nat)
    requires Progress(tries, claims, RDevices(p, i, j)) && j < |claims[i]| && claims[i][j].Skip?
    ensures Progress(tries, claims, RDevices(p, i, j + 1))
  {
    assert Try(i, j, false) in tries ==> Tried(tries, i, j);
  }

  /** One more call changes what is due behind it only. */
  lemma {:induction false} OneMoreTry(tries: set<Try>, claim: Claim, i: nat, j: nat, ok: bool, k: nat)
    requires j < |claim| && k <= j
    ensures Due(tries + {Try(i, j, ok)}, claim, i, k) <==> Due(tries, claim, i, k)
    ensures GoesTo(tries + {Try(i, j, ok)}, claim, i, k) <==> GoesTo(tries, claim, i, k)
  {
    forall m: nat | m < k ensures m < |claim| ==>
        (Ends(tries + {Try(i, j, ok)}, claim, i, m) <==> Ends(tries, claim, i, m)) {}
  }

  lemma {:induction false} OtherClaimKept(tries: set<Try>, claim: Claim, i: nat, x: Try)
    requires TriedTo(tries, claim, i, |claim|) && x.claim != i
    ensures TriedTo(tries + {x}, claim, i, |claim|)
  {
    forall j: nat ensures Due(tries + {x}, claim, i, j) <==> Due(tries, claim, i, j) {
      forall m: nat | m < |claim| ensures Ends(tries + {x}, claim, i, m) <==> Ends(tries, claim, i, m) {}
    }
  }

  lemma {:induction false} DeviceAfterTry(tries: set<Try>, claim: Claim, i: nat, j: nat, ok: bool, k: nat)
    requires TriedTo(tries, claim, i, j) && GoesTo(tries, claim, i, j) && j < |claim| && claim[j].Call?
    ensures Tried(tries + {Try(i, j, ok)}, i, k) <==>
              k < (if ok then j + 1 else |claim|) && Due(tries + {Try(i, j, ok)}, claim, i, k)
  {
    var tries' := tries + {Try(i, j, ok)};
    if k < j {
      OneMoreTry(tries, claim, i, j, ok, k);
      assert Tried(tries', i, k) <==> Tried(tries, i, k);
    } else if k == j {
      OneMoreTry(tries, claim, i, j, ok, j);
    } else {
      assert !Tried(tries, i, k);
      if !ok { assert Ends(tries', claim, i, j); }
    }
  }

  lemma {:induction false} DeviceIsTried(tries: set<Try>, claims: seq<Claim>, p: Pid, i: nat, j: nat, ok: bool)
    requires Progress(tries, claims, RDevices(p, i, j)) && j < |claims[i]| && claims[i][j].Call?
    ensures Progress(tries + {Try(i, j, ok)}, claims, RDevices(p, i, if ok then j + 1 else |claims[i]|))
  {
    var x := Try(i, j, ok);
    var tries', claim := tries + {x}, claims[i];
    forall k: nat | k < i ensures TriedTo(tries', claims[k], k, |claims[k]|) { OtherClaimKept(tries, claims[k], k, x); }
    OneMoreTry(tries, claim, i, j, ok, j);
    var n := if ok then j + 1 else |claim|;
    forall k: nat ensures Tried(tries', i, k) <==> k < n && Due(tries', claim, i, k) {
      DeviceAfterTry(tries, claim, i, j, ok, k);
    }
    if ok {
      assert !Tried(tries, i, j);
      forall k: nat | k < n ensures !Ends(tries', claim, i, k) { assert k < j ==> !Ends(tries, claim, i, k); }
    }
  }

  lemma {:induction false} LoopKeepsProgress(tries: set<Try>, tries': set<Try>, claims: seq<Claim>, t: Tid, p: Pid,
      pc: Pc, pc': Pc, events: seq<Event>)
    requires Progress(tries, claims, pc) && LoopsOn(claims, t, p, pc, pc', events)
    requires tries' == tries + TriesOf(events, t)
    ensures Progress(tries', claims, pc')
  {
    if pc.RDevices? {
      var i, j := pc.claim, pc.next;
      if |events| == 1 && events[0].Configured? {
        assert tries' == tries + {Try(i, j, events[0].ok)};
        DeviceIsTried(tries, claims, p, i, j, events[0].ok);
      } else {
        assert tries' == tries;
        if pc'.RClaims? { ClaimIsDone(tries, claims, p, i, j); } else { DeviceIsSkipped(tries, claims, p, i, j); }
      }
    } else {
      assert tries' == tries;
    }
  }

  lemma {:induction false} TriesAppend(log: seq<Event>, events: seq<Event>, c: Tid)
    ensures TriesOf(log + events, c) == TriesOf(log, c) + TriesOf(events, c)
  {
  }

  lemma {:induction false} StepperProgress(s: State, t: Tid, e: Effect)
    requires t < |s.threads| && Local(s, t, e) && StepLoops(s, t, e) && ProgressOf(s, t) && s.threads[t].call.Run?
    ensures ProgressOf(Apply(s, t, e), t)
  {
    var p := s.threads[t].call.p;
    TriesAppend(s.log, e.events, t);
    LoopKeepsProgress(TriesOf(s.log, t), TriesOf(s.log + e.events, t), s.procs[p].claims, t, p, s.threads[t].pc, e.pc,
        e.events);
  }

  lemma {:induction false} StepKeepsProgress(s: State, t: Tid, e: Effect, c: Tid)
    requires Inv(s) && Tells(s, t, e) && StepLoops(s, t, e) && c < |s.threads| && ProgressOf(s, c)
    ensures ProgressOf(Apply(s, t, e), c)
  {
    if s.threads[c].call.Run? {
      if c == t {
        StepperProgress(s, t, e);
      } else {
        TriesAppend(s.log, e.events, c);
        OthersTryNothing(s, t, e, c);
        assert TriesOf(s.log + e.events, c) == TriesOf(s.log, c);
        assert Shape(s, s.threads[c]);
      }
    }
  }

  /** A step tries devices for its own call only. */
  lemma {:induction false} OthersTryNothing(s: State, t: Tid, e: Effect, c: Tid)
    requires Tells(s, t, e) && c != t
    ensures TriesOf(e.events, c) == {}
  {
  }

  /** A run that is started has tried nothing. */
  lemma {:induction false} NewTriesNothing(s: State, t: Tid, e: Effect)
    requires Inv(s) && Tells(s, t, e) && WorkInstalled(s)
    ensures TriesOf(Apply(s, t, e).log, |s.threads|) == {}
  {
    TriesAppend(s.log, e.events, |s.threads|);
    OthersTryNothing(s, t, e, |s.threads|);
    forall f | f in s.log && f.Configured? ensures f.run != |s.threads| { assert InstalledRun(s, f.p, f.run); }
  }

  lemma {:induction false} StepKeepsOrder(s: State, t: Tid, e: Effect)
    requires Inv(s) && Tells(s, t, e) && StepLoops(s, t, e) && OrderInv(s)
    ensures InOrder(Apply(s, t, e).log)
  {
    var log' := Apply(s, t, e).log;
    forall j, k | 0 <= j < k < |log'| && log'[j].Configured? && log'[k].Configured? && log'[j].run == log'[k].run
      ensures Earlier(log'[j], log'[k])
    {
      if k == |s.log| { NewIsLast(s, t, e, log'[j]); }
    }
  }

  lemma {:induction false} NewIsLast(s: State, t: Tid, e: Effect, f: Event)
    requires Inv(s) && Tells(s, t, e) && StepLoops(s, t, e) && ProgressOf(s, t)
    requires f in s.log && f.Configured? && |e.events| == 1 && e.events[0].Configured? && f.run == e.events[0].run
    ensures Earlier(f, e.events[0])
  {
    assert Shape(s, s.threads[t]);
    var tries, i := TriesOf(s.log, t), s.threads[t].pc.claim;
    assert Try(f.claim, f.device, f.ok) in tries;
    if f.claim == i { assert Tried(tries, i, f.device); }
  }

  lemma {:induction false} StepKeepsOrderInv(s: State, t: Tid, e: Effect)
    requires Inv(s) && WorkInstalled(s) && Tells(s, t, e) && StepLoops(s, t, e) && OrderInv(s)
    ensures OrderInv(Apply(s, t, e))
  {
    var s' := Apply(s, t, e);
    StepKeepsOrder(s, t, e);
    NewTriesNothing(s, t, e);
    forall c: Tid | c < |s'.threads| ensures ProgressOf(s', c) {
      if c < |s.threads| { StepKeepsProgress(s, t, e, c); }
    }
  }

  lemma {:induction false} NextKeepsOrderInv(s: State, s': State)
    requires Inv(s) && WorkInstalled(s) && OrderInv(s) && Next(s, s')
    ensures OrderInv(s')
  {
    var t: Tid, ok: bool :| Enabled(s, t) && Shape(s, s.threads[t]) && s' == Fire(s, t, ok);
    StepTells(s, t, ok);
    StepLoopsOn(s, t, ok);
    StepKeepsOrderInv(s, t, StepOf(s, t, ok));
  }

  lemma {:induction false} BehaviorGoesOn(b: seq<State>, i: nat)
    requires Behavior(b) && i < |b| - 1 && OrderInv(b[i])
    ensures OrderInv(b[i + 1])
  {
    BehaviorKeepsInv(b, i);
    BehaviorKeepsLogInv(b, i);
    assert NextAt(b, i);
    NextKeepsOrderInv(b[i], b[i + 1]);
  }

  lemma {:induction false} InitHasOrderInv(s: State)
    requires Init(s)
    ensures OrderInv(s)
  {
  }

  lemma {:induction false} BehaviorKeepsOrderInv(b: seq<State>, i: nat)
    requires Behavior(b) && i < |b|
    ensures OrderInv(b[i])
  {
    if i == 0 {
      InitHasOrderInv(b[0]);
    } else {
      BehaviorKeepsOrderInv(b, i - 1);
      BehaviorGoesOn(b, i - 1);
    }
  }

  // ----- the guarantees

  /**
   In every interleaving, a run calls Configure for due devices only, in the order of claims and
   devices, so for none of them twice.
   */
  lemma ConfiguresInOrder(b: seq<State>, i: nat, j: nat, k: nat)
    requires Behavior(b) && i < |b| && j < k < |b[i].log|
    requires b[i].log[j].Configured? && b[i].log[k].Configured? && b[i].log[j].run == b[i].log[k].run
    ensures Earlier(b[i].log[j], b[i].log[k])
  {
    BehaviorKeepsOrderInv(b, i);
  }

  /**
   What a run that has closed its channel has configured, however it was interleaved: of every claim,
   exactly the devices with a configurator that stand behind no malformed status and no failed
   Configure; a failing claim does not keep it from the next one.
   */
  lemma ConfiguresExactly(b: seq<State>, i: nat, c: Tid, claim: nat, device: nat)
    requires Behavior(b) && i < |b| && c < |b[i].threads| && b[i].threads[c].call.Run? && c in b[i].closed
    ensures var s, p := b[i], b[i].threads[c].call.p;
            p < |s.procs| && (claim < |s.procs[p].claims| ==>
              (Tried(TriesOf(s.log, c), claim, device) <==>
                  Due(TriesOf(s.log, c), s.procs[p].claims[claim], claim, device)))
    ensures claim >= |b[i].procs[b[i].threads[c].call.p].claims| ==> !Tried(TriesOf(b[i].log, c), claim, device)
  {
    var s := b[i];
    BehaviorKeepsInv(b, i);
    BehaviorKeepsOrderInv(b, i);
    assert Shape(s, s.threads[c]) && ProgressOf(s, c);
    var claims := s.procs[s.threads[c].call.p].claims;
    assert HasClosed(s.threads[c].pc);
    if claim < |claims| { assert TriedTo(TriesOf(s.log, c), claims[claim], claim, |claims[claim]|); }
  }
}
