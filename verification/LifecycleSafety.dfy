/**
  What holds in every reachable state of the lifecycle, under every interleaving (core/control/connect.go).
 */
module LifecycleSafety {
  import opened Wrappers
  import opened Lifecycle
  import opened LifecycleInvariant

  lemma ReachableInv(states: seq<State>, steps: seq<Step>, k: nat)
    requires IsRun(states, steps) && k < |states|
    ensures Inv(states[k])
  {
    assert Inv(states[0]);
    PathKeepsInv(states, steps, k);
  }

  // ----- Teardown -----

  /**
    When teardown's wait returns, no engine runs and no goroutine of any earlier connection is left, even if a
    superseded walk started an engine after teardown's own Stop; and it stays so until the next walk is started.
   */
  lemma TeardownLeavesNothing(states: seq<State>, steps: seq<Step>, k: nat)
    requires IsRun(states, steps) && k < |states| && Emptied(states[k].locks.conn)
    ensures states[k].engine.running == 0 && Drainable(states[k].crew)
  {
    ReachableInv(states, steps, k);
  }

  /** A superseded walk whose engine may be running, while teardown waits for it. */
  predicate OwesItsStop(s: State) {
    && s.locks.conn.Op? && s.locks.conn.phase.Draining? && s.crew.walk.Some?
    && !Stopped(s.crew.walk.value.pc) && !Inner(s.crew.walk.value.pc) && !Current(s.clock, s.crew.walk.value.gen)
  }

  predicate CallsStop(pc: WalkPc) {
    pc.StopAndNext? || pc.StopAndExit? || pc.LocalFailed? || pc.Refused?
  }

  /** Step i of a path is a call of the walk to the engine's Stop. */
  predicate WalkStopsAt(states: seq<State>, steps: seq<Step>, i: nat)
    requires i < |steps| && |states| == |steps| + 1
  {
    && steps[i].WalkStep? && states[i].crew.walk.Some? && CallsStop(states[i].crew.walk.value.pc)
    && states[i + 1].engine.running == 0
  }

  lemma WalkComesToItsStop(s: State, a: Answer, s': State)
    requires Inv(s) && OwesItsStop(s) && NextWalk(s, a) == Some(s')
    ensures OwesItsStop(s') || (CallsStop(s.crew.walk.value.pc) && s'.engine.running == 0)
  {
    var pc := s.crew.walk.value.pc;
    if pc.Up? || pc.Checking? {
      assert NextAcceptance(s, a) == Some(s');
    }
  }

  lemma OthersLeaveItOwing(s: State, step: Step, s': State)
    requires Inv(s) && OwesItsStop(s) && !step.WalkStep? && Next(s, step) == Some(s')
    ensures OwesItsStop(s')
  {
  }

  /** On every run, a superseded walk is still there with its Stop before it, or has called it. */
  lemma {:induction false} OwesUntilItStops(states: seq<State>, steps: seq<Step>, j: nat, k: nat)
    requires IsRun(states, steps) && j <= k < |states| && OwesItsStop(states[j])
    ensures OwesItsStop(states[k]) || exists i :: j <= i < k && WalkStopsAt(states, steps, i)
  {
    if k == j {
    } else {
      OwesUntilItStops(states, steps, j, k - 1);
      if OwesItsStop(states[k - 1]) {
        ReachableInv(states, steps, k - 1);
        StepOnPath(states, steps, k - 1);
        if steps[k - 1].WalkStep? {
          WalkComesToItsStop(states[k - 1], steps[k - 1].answer, states[k]);
          assert OwesItsStop(states[k]) || WalkStopsAt(states, steps, k - 1);
        } else {
          OthersLeaveItOwing(states[k - 1], steps[k - 1], states[k]);
        }
      }
    }
  }

  /**
    While teardown waits, an engine can only be running under a walk that has not been accepted and is superseded;
    and however the run goes on, the walk is gone, or teardown past its wait, only after the walk has called Stop.
   */
  lemma SupersededWalkOwesItsStop(states: seq<State>, steps: seq<Step>, j: nat, k: nat)
    requires IsRun(states, steps) && j <= k < |states|
    requires states[j].locks.conn.Op? && states[j].locks.conn.phase.Draining? && states[j].engine.running > 0
    ensures OwesItsStop(states[j])
    ensures states[k].crew.walk.None? || !states[k].locks.conn.Op? || !states[k].locks.conn.phase.Draining? ==>
              exists i :: j <= i < k && WalkStopsAt(states, steps, i)
  {
    ReachableInv(states, steps, j);
    OwesUntilItStops(states, steps, j, k);
  }

  /** No interleaving ever runs two engines, and all goroutines at work belong to one generation. */
  lemma OneEngineOneGeneration(states: seq<State>, steps: seq<Step>, k: nat)
    requires IsRun(states, steps) && k < |states|
    ensures states[k].engine.running <= 1
    ensures var c := states[k].crew;
            && (c.walk.Some? && c.proc.Some? ==> c.walk.value.gen == c.proc.value.gen)
            && (c.walk.Some? && c.health.Some? ==> c.walk.value.gen == c.health.value.gen)
            && (c.proc.Some? && c.health.Some? ==> c.proc.value.gen == c.health.value.gen)
            && (forall p :: p in c.pollers ==>
                  && (c.walk.Some? ==> p.gen == c.walk.value.gen)
                  && (c.proc.Some? ==> p.gen == c.proc.value.gen)
                  && (c.health.Some? ==> p.gen == c.health.value.gen))
  {
    ReachableInv(states, steps, k);
  }

  // ----- The acceptance fence -----

  /**
    A walk publishes Connected only while its generation is current, under protectionOp, for the configuration it
    started, and, where protection is wanted or in place, after the tunnel was verified in that same section.
   */
  lemma AcceptanceIsFenced(states: seq<State>, steps: seq<Step>, k: nat)
    requires IsRun(states, steps) && k < |states|
    requires states[k].crew.walk.Some? && states[k].crew.walk.value.pc.Publishing?
    ensures var t, w := states[k], states[k].crew.walk.value;
            && !Over(t.clock, w.gen) && t.locks.fence == ByWalk
            && t.tunnel.live == Some(Live(w.gen, w.plan.tags, w.plan.baked))
            && (Needed(t.prefs) ==> w.verified)
  {
    ReachableInv(states, steps, k);
  }

  /** A failover reports the error that its own teardown came back with. */
  predicate TornFailover(s: State, step: Step) {
    step.OpStep? && s.locks.conn.Op? && s.locks.conn.phase == Refusing(true) && s.locks.conn.kind.Failover?
  }

  /**
    Every step that turns the published state to Connected is a walk's acceptance, or the holder of connMu putting
    it back over a configuration of the current generation, or a failover whose teardown failed.
   */
  lemma ConnectedComesFromAcceptance(states: seq<State>, steps: seq<Step>, k: nat)
    requires IsRun(states, steps) && k < |steps|
    requires states[k].tunnel.status != Connected && states[k + 1].tunnel.status == Connected
    ensures var t := states[k];
            || (steps[k].WalkStep? && t.crew.walk.Some? && t.crew.walk.value.pc.Publishing?)
            || ((steps[k].OpStep? || steps[k].SwitchStep?) && Steering(t.locks.conn)
                && t.tunnel.live.Some? && t.tunnel.live.value.gen == t.clock.generation)
            || TornFailover(t, steps[k])
  {
    ReachableInv(states, steps, k);
    StepOnPath(states, steps, k);
    SourceOfConnected(states[k], steps[k], states[k + 1]);
  }

  lemma SourceOfConnected(t: State, step: Step, t': State)
    requires Inv(t) && Next(t, step) == Some(t') && t.tunnel.status != Connected && t'.tunnel.status == Connected
    ensures (step.WalkStep? && t.crew.walk.Some? && t.crew.walk.value.pc.Publishing?)
            || ((step.OpStep? || step.SwitchStep?) && Steering(t.locks.conn))
            || TornFailover(t, step)
  {
    match step
    case OpStep(a) => RefuseSource(t, a);
    case SwitchStep(a) => SwitchSource(t, a);
    case WalkStep(a) => WalkSource(t, a);
    case ProcStep(a) => ProcSource(t, a);
    case HealthStep(a) => HealthSource(t, a);
    case PollerStep(p, stop) =>
    case _ => EnvSource(t, step);
  }

  lemma RefuseSource(t: State, a: Answer)
    requires Inv(t) && NextOp(t, a).Some? && t.tunnel.status != Connected
    ensures NextOp(t, a).value.tunnel.status == Connected ==> Steering(t.locks.conn) || TornFailover(t, OpStep(a))
  {
    match t.locks.conn.phase
    case Entered => assert NextEntered(t, t.locks.conn.kind, a).tunnel == t.tunnel;
    case _ =>
  }

  lemma SwitchSource(t: State, a: Answer)
    requires NextSwitch(t, a).Some? && t.tunnel.status != Connected
    ensures NextSwitch(t, a).value.tunnel.status == Connected ==> Steering(t.locks.conn)
  {
  }

  lemma WalkSource(t: State, a: Answer)
    requires NextWalk(t, a).Some? && t.tunnel.status != Connected
    ensures NextWalk(t, a).value.tunnel.status == Connected ==> t.crew.walk.value.pc.Publishing?
  {
    var pc := t.crew.walk.value.pc;
    if Accepting(pc) && !pc.Publishing? {
      assert NextAcceptance(t, a).value.tunnel.status == t.tunnel.status;
    }
  }

  lemma ProcSource(t: State, a: Answer)
    requires NextProc(t, a).Some? && t.tunnel.status != Connected
    ensures NextProc(t, a).value.tunnel.status != Connected
  {
  }

  lemma HealthSource(t: State, a: Answer)
    requires NextHealth(t, a).Some?
    ensures NextHealth(t, a).value.tunnel == t.tunnel
  {
  }

  lemma EnvSource(t: State, step: Step)
    requires EnvStep(step) && NextEnv(t, step).Some?
    ensures NextEnv(t, step).value.tunnel == t.tunnel
  {
  }

  // ----- A tunnel that is claimed over nothing -----

  lemma OpStaysWhole(s: State, a: Answer, s': State)
    requires Inv(s) && !Hollow(s.tunnel, s.locks.conn) && !TornFailover(s, OpStep(a)) && NextOp(s, a) == Some(s')
    ensures !Hollow(s'.tunnel, s'.locks.conn)
  {
    match s.locks.conn.phase
    case Entered => assert NextEntered(s, s.locks.conn.kind, a).tunnel == s.tunnel;
    case _ =>
  }

  lemma WalkStaysWhole(s: State, a: Answer, s': State)
    requires Inv(s) && !Hollow(s.tunnel, s.locks.conn) && NextWalk(s, a) == Some(s')
    ensures !Hollow(s'.tunnel, s'.locks.conn)
  {
    var pc := s.crew.walk.value.pc;
    if Accepting(pc) || pc.Up? {
      assert NextAcceptance(s, a) == Some(s');
    }
  }

  lemma NextStaysWhole(s: State, step: Step, s': State)
    requires Inv(s) && !Hollow(s.tunnel, s.locks.conn) && !TornFailover(s, step) && Next(s, step) == Some(s')
    ensures !Hollow(s'.tunnel, s'.locks.conn)
  {
    match step
    case OpStep(a) => OpStaysWhole(s, a, s');
    case WalkStep(a) => WalkStaysWhole(s, a, s');
    case HealthStep(a) => HealthSource(s, a);
    case _ =>
  }

  predicate TornFailoverAt(states: seq<State>, steps: seq<Step>, i: nat)
    requires i < |steps| && |states| == |steps| + 1
  {
    TornFailover(states[i], steps[i])
  }

  /** None of the first k steps is a failover reporting its own failed teardown. */
  ghost predicate NoTornFailover(states: seq<State>, steps: seq<Step>, k: nat)
    requires k <= |steps| && |states| == |steps| + 1
  {
    forall i :: 0 <= i < k ==> !TornFailoverAt(states, steps, i)
  }

  /**
    A tunnel that is published as connected or reconnecting, and is not being torn down, has a live configuration of
    the current generation, in every run without a torn failover.
   */
  lemma {:induction false} ConnectedMeansLive(states: seq<State>, steps: seq<Step>, k: nat)
    requires IsRun(states, steps) && k < |states| && NoTornFailover(states, steps, k)
    ensures !Hollow(states[k].tunnel, states[k].locks.conn)
  {
    if k == 0 {
    } else {
      ConnectedMeansLive(states, steps, k - 1);
      ReachableInv(states, steps, k - 1);
      StepOnPath(states, steps, k - 1);
      assert !TornFailoverAt(states, steps, k - 1);
      NextStaysWhole(states[k - 1], steps[k - 1], states[k]);
    }
  }

  /** ... and that is exact: each torn failover publishes Connected over no engine, with nobody left to notice. */
  lemma ATornFailoverIsHollow(states: seq<State>, steps: seq<Step>, k: nat)
    requires IsRun(states, steps) && k < |steps| && TornFailover(states[k], steps[k])
    ensures var t := states[k + 1];
            && Hollow(t.tunnel, t.locks.conn) && t.locks.conn == Free
            && t.tunnel.status == Connected && t.tunnel.node == states[k].locks.conn.kind.node
            && t.engine.running == 0 && Drainable(t.crew)
  {
    ReachableInv(states, steps, k);
    StepOnPath(states, steps, k);
  }

  /** It stays so until somebody takes connMu for another connect, re-apply or disconnect. */
  lemma HollowStays(s: State, step: Step, s': State)
    requires Inv(s) && Hollow(s.tunnel, s.locks.conn) && !s.locks.conn.Op? && !step.Acquire?
    requires Next(s, step) == Some(s')
    ensures s'.tunnel == s.tunnel && Hollow(s'.tunnel, s'.locks.conn) && !s'.locks.conn.Op?
    ensures s'.engine.running == 0 && Drainable(s'.crew)
  {
    NextKeepsInv(s, step, s');
    match step
    case SwitchStep(a) => assert NextSwitch(s, a) == Some(s');
    case _ =>
  }

  // ----- Off-command attempts -----

  lemma OpMovesOn(s: State, a: Answer)
    requires NextOp(s, a).Some?
    ensures NextOp(s, a).value.clock.generation >= s.clock.generation
  {
    match s.locks.conn.phase
    case Entered => assert NextEntered(s, s.locks.conn.kind, a).clock == s.clock;
    case _ =>
  }

  lemma WalkKeepsClock(s: State, a: Answer)
    requires NextWalk(s, a).Some?
    ensures NextWalk(s, a).value.clock == s.clock
  {
    var pc := s.crew.walk.value.pc;
    if Accepting(pc) || pc.Up? {
      assert NextAcceptance(s, a).value.clock == s.clock;
    }
  }

  lemma NextMovesOn(s: State, step: Step)
    requires Next(s, step).Some?
    ensures Next(s, step).value.clock.generation >= s.clock.generation
  {
    match step
    case OpStep(a) => OpMovesOn(s, a);
    case WalkStep(a) => WalkKeepsClock(s, a);
    case SwitchStep(a) => assert NextSwitch(s, a).value.clock == s.clock;
    case ProcStep(a) => assert NextProc(s, a).value.clock == s.clock;
    case HealthStep(a) => assert NextHealth(s, a).value.clock == s.clock;
    case PollerStep(p, stop) => assert NextPoller(s, p, stop).value.clock == s.clock;
    case _ => assert NextEnv(s, step).value.clock == s.clock;
  }

  lemma {:induction false} RunsMoveOn(states: seq<State>, steps: seq<Step>, j: nat, k: nat)
    requires Path(states, steps) && j <= k < |states|
    ensures states[j].clock.generation <= states[k].clock.generation
  {
    if j == k {
    } else {
      RunsMoveOn(states, steps, j, k - 1);
      StepOnPath(states, steps, k - 1);
      NextMovesOn(states[k - 1], steps[k - 1]);
    }
  }

  /**
    An attempt queued off the command loop never starts anything once its generation is over: from there on, whoever is
    past its checks under connMu was queued for a later generation.
   */
  lemma StaleAttemptsNeverStart(states: seq<State>, steps: seq<Step>, j: nat, k: nat, gen: nat)
    requires IsRun(states, steps) && j <= k < |states| && gen < states[j].clock.generation
    requires Committed(states[k].locks.conn) && OffCommand(states[k].locks.conn.kind)
    ensures states[k].locks.conn.kind.gen > gen
  {
    ReachableInv(states, steps, k);
    RunsMoveOn(states, steps, j, k);
  }
}
