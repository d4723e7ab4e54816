/**
  Teardown cannot deadlock (core/control/connect.go): whoever it waits for can move, never waits for connMu,
  and has only boundedly many steps left.
 */
module LifecycleDrain {
  import opened Wrappers
  import opened Lifecycle
  import opened LifecycleInvariant
  import opened LifecycleSafety

  predicate Waits(conn: Holder) {
    conn.Op? && conn.phase.Draining?
  }

  /** A step of a goroutine the wait group counts. */
  predicate WorkerStep(step: Step) {
    step.WalkStep? || step.ProcStep? || step.HealthStep? || step.PollerStep?
  }

  // ----- The measure: the steps left to each goroutine of a superseded generation -----

  function WalkRank(pc: WalkPc): nat {
    match pc
    case Starting => 7
    case Probing(pinned) => if pinned then 5 else 6
    case Up => 5
    case Checking => 4
    case Down => 4
    case Choosing => 3
    case StopAndNext => 3
    case StartFailed(_) => 3
    case Refused => 3
    case Top => 2
    case StrategyTop => 2
    case LocalFailed => 2
    case RefusedStopped => 2
    case _ => 1
  }

  function ProcRank(pc: ProcPc): nat {
    match pc
    case Waiting => 4
    case Exited => 3
    case Locating => 2
    case Reporting => 1
  }

  function HealthRank(pc: HealthPc): nat {
    match pc
    case Watching => 1
    case Degraded => 2
    case FailingOver => 2
    case Trying => 3
    case Moving => 3
  }

  function CrewRank(c: Crew): nat {
    (if c.walk.Some? then WalkRank(c.walk.value.pc) else 0)
    + (if c.proc.Some? then ProcRank(c.proc.value.pc) else 0)
    + (if c.health.Some? then HealthRank(c.health.value.pc) else 0)
    + |c.pollers|
  }

  /** A superseded walk, not yet accepted. */
  predicate Superseded(s: State) {
    s.crew.walk.Some? && !Inner(s.crew.walk.value.pc) && !Current(s.clock, s.crew.walk.value.gen)
  }

  lemma AcceptanceDrains(s: State, a: Answer, s': State)
    requires Superseded(s) && NextWalk(s, a) == Some(s')
    requires s.crew.walk.value.pc.Up? || s.crew.walk.value.pc.Checking?
    ensures CrewRank(s'.crew) < CrewRank(s.crew) && s'.locks.conn == s.locks.conn
  {
    assert NextAcceptance(s, a) == Some(s');
  }

  lemma StoppedWalkDrains(s: State, a: Answer, s': State)
    requires Superseded(s) && NextWalk(s, a) == Some(s') && Stopped(s.crew.walk.value.pc)
    ensures CrewRank(s'.crew) < CrewRank(s.crew) && s'.locks.conn == s.locks.conn
  {
  }

  lemma StartedWalkDrains(s: State, a: Answer, s': State)
    requires Superseded(s) && NextWalk(s, a) == Some(s') && !Stopped(s.crew.walk.value.pc)
    requires !s.crew.walk.value.pc.Up? && !s.crew.walk.value.pc.Checking?
    ensures CrewRank(s'.crew) < CrewRank(s.crew) && s'.locks.conn == s.locks.conn
  {
  }

  lemma WalkDrains(s: State, a: Answer, s': State)
    requires Inv(s) && Waits(s.locks.conn) && NextWalk(s, a) == Some(s')
    ensures CrewRank(s'.crew) < CrewRank(s.crew) && s'.locks.conn == s.locks.conn
  {
    var pc := s.crew.walk.value.pc;
    if pc.Up? || pc.Checking? {
      AcceptanceDrains(s, a, s');
    } else if Stopped(pc) {
      StoppedWalkDrains(s, a, s');
    } else {
      StartedWalkDrains(s, a, s');
    }
  }

  lemma ProcDrains(s: State, a: Answer, s': State)
    requires Inv(s) && Waits(s.locks.conn) && NextProc(s, a) == Some(s')
    ensures CrewRank(s'.crew) < CrewRank(s.crew) && s'.locks.conn == s.locks.conn
  {
  }

  lemma HealthDrains(s: State, a: Answer, s': State)
    requires Inv(s) && Waits(s.locks.conn) && NextHealth(s, a) == Some(s')
    ensures CrewRank(s'.crew) < CrewRank(s.crew) && s'.locks.conn == s.locks.conn
  {
  }

  lemma PollerDrains(s: State, p: Poller, stop: bool, s': State)
    requires Inv(s) && Waits(s.locks.conn) && NextPoller(s, p, stop) == Some(s')
    ensures CrewRank(s'.crew) < CrewRank(s.crew) && s'.locks.conn == s.locks.conn
  {
  }

  /** While teardown waits, every step of a goroutine it waits for brings its end nearer. */
  lemma WorkersDrain(s: State, step: Step, s': State)
    requires Inv(s) && Waits(s.locks.conn) && WorkerStep(step) && Next(s, step) == Some(s')
    ensures CrewRank(s'.crew) < CrewRank(s.crew) && s'.locks.conn == s.locks.conn
  {
    match step
    case WalkStep(a) => WalkDrains(s, a, s');
    case ProcStep(a) => ProcDrains(s, a, s');
    case HealthStep(a) => HealthDrains(s, a, s');
    case PollerStep(p, stop) => PollerDrains(s, p, stop, s');
  }

  lemma EnvLeavesTheCrew(s: State, step: Step, s': State)
    requires EnvStep(step) && s.locks.conn != Free && NextEnv(s, step) == Some(s')
    ensures s'.crew == s.crew && s'.locks.conn == s.locks.conn
  {
  }

  /** ... and no other step sets it back, or does anything but wait until all are gone. */
  lemma OthersDoNotHinder(s: State, step: Step, s': State)
    requires Inv(s) && Waits(s.locks.conn) && !WorkerStep(step) && Next(s, step) == Some(s')
    ensures s'.crew == s.crew
    ensures s'.locks.conn == s.locks.conn || (step.OpStep? && Drainable(s.crew))
  {
    if EnvStep(step) {
      EnvLeavesTheCrew(s, step, s');
    }
  }

  lemma NextDrains(s: State, step: Step, s': State)
    requires Inv(s) && Waits(s.locks.conn) && Next(s, step) == Some(s')
    ensures (if WorkerStep(step) then 1 else 0) + CrewRank(s'.crew) <= CrewRank(s.crew)
  {
    if WorkerStep(step) {
      WorkersDrain(s, step, s');
    } else {
      OthersDoNotHinder(s, step, s');
    }
  }

  /** How many of the first k steps are the goroutines' own. */
  function WorkerSteps(steps: seq<Step>, k: nat): nat
    requires k <= |steps|
  {
    if k == 0 then 0 else WorkerSteps(steps, k - 1) + if WorkerStep(steps[k - 1]) then 1 else 0
  }

  /** In state i of a path, teardown waits. */
  predicate WaitsAt(states: seq<State>, i: nat)
    requires i < |states|
  {
    Waits(states[i].locks.conn)
  }

  lemma StepDrains(states: seq<State>, steps: seq<Step>, i: nat)
    requires Path(states, steps) && Inv(states[0]) && i < |steps| && WaitsAt(states, i)
    ensures (if WorkerStep(steps[i]) then 1 else 0) + CrewRank(states[i + 1].crew) <= CrewRank(states[i].crew)
  {
    PathKeepsInv(states, steps, i);
    StepOnPath(states, steps, i);
    NextDrains(states[i], steps[i], states[i + 1]);
  }

  /**
    The draining law: along every path on which teardown waits, whatever else happens in between, the goroutines it
    waits for take together no more steps than the measure had at first, less what it still has.
   */
  lemma {:induction false} EveryPathDrains(states: seq<State>, steps: seq<Step>, k: nat)
    requires Path(states, steps) && Inv(states[0]) && k < |states|
    requires forall i :: 0 <= i <= k ==> WaitsAt(states, i)
    ensures WorkerSteps(steps, k) + CrewRank(states[k].crew) <= CrewRank(states[0].crew)
  {
    if k == 0 {
    } else {
      EveryPathDrains(states, steps, k - 1);
      assert WaitsAt(states, k - 1);
      StepDrains(states, steps, k - 1);
    }
  }

  // ----- Progress -----

  function Yes(): Answer { Answer(true, true, "", map[]) }
  function No(): Answer { Answer(false, false, "", map[]) }

  /**
    No deadlock: as long as a goroutine is left, some goroutine can move without connMu, or the set-command
    holding protectionOp can let go of it.
   */
  lemma SomeoneCanMove(s: State) returns (step: Step)
    requires Inv(s) && Waits(s.locks.conn) && !Drainable(s.crew)
    ensures (WorkerStep(step) || (step.KillSwitchEnd? && s.locks.fence.BySetter?)) && Next(s, step).Some?
  {
    if s.crew.walk.Some? {
      step := WalkStep(No());
      if s.crew.walk.value.pc.Up? && s.locks.fence != Open {
        step := KillSwitchEnd(true, false, false);
      } else {
        assert s.crew.walk.value.pc.Up? ==> NextAcceptance(s, No()).Some?;
        assert s.crew.walk.value.pc.Checking? ==> NextAcceptance(s, No()).Some?;
      }
    } else if s.crew.proc.Some? {
      step := ProcStep(Yes());
    } else if s.crew.health.Some? {
      step := HealthStep(No());
    } else {
      assert s.crew.pollers != multiset{};
      var p :| p in s.crew.pollers;
      step := PollerStep(p, false);
    }
  }

  /** Nothing new is asked for, and whatever the holder of connMu calls succeeds. */
  predicate NoCommands(steps: seq<Step>) {
    forall i :: 0 <= i < |steps| ==>
      WorkerStep(steps[i]) || steps[i].KillSwitchEnd? || (steps[i].OpStep? && steps[i].answer.ok)
  }

  /** Only the goroutines move, or a set-command lets go of protectionOp. */
  predicate OthersOnly(steps: seq<Step>) {
    forall i :: 0 <= i < |steps| ==> WorkerStep(steps[i]) || steps[i].KillSwitchEnd?
  }

  function FenceRank(f: Fence): nat {
    if f.BySetter? then 1 else 0
  }

  lemma DrainStep(s: State) returns (step: Step, s': State)
    requires Inv(s) && Waits(s.locks.conn) && !Drainable(s.crew)
    ensures (WorkerStep(step) || step.KillSwitchEnd?) && Next(s, step) == Some(s')
    ensures Inv(s') && s'.locks.conn == s.locks.conn
    ensures FenceRank(s'.locks.fence) <= FenceRank(s.locks.fence) && CrewRank(s'.crew) <= CrewRank(s.crew)
    ensures FenceRank(s'.locks.fence) < FenceRank(s.locks.fence) || CrewRank(s'.crew) < CrewRank(s.crew)
  {
    step := SomeoneCanMove(s);
    s' := Next(s, step).value;
    NextKeepsInv(s, step, s');
    if WorkerStep(step) {
      WorkersDrain(s, step, s');
      FenceStays(s, step, s');
    } else {
      assert NextEnv(s, step) == Some(s');
    }
  }

  /** The wait can end: a schedule of the goroutines' own steps, no longer than the measure. */
  lemma {:induction false} DrainCanEnd(s: State) returns (states: seq<State>, steps: seq<Step>)
    requires Inv(s) && Waits(s.locks.conn)
    ensures Path(states, steps) && states[0] == s && OthersOnly(steps)
    ensures |steps| <= CrewRank(s.crew) + FenceRank(s.locks.fence)
    ensures Inv(Last(states)) && Last(states).locks.conn == s.locks.conn && Drainable(Last(states).crew)
    decreases CrewRank(s.crew), FenceRank(s.locks.fence)
  {
    if Drainable(s.crew) {
      return [s], [];
    }
    var step, s' := DrainStep(s);
    var onward, further := DrainCanEnd(s');
    Prepend(s, step, onward, further);
    states, steps := [s] + onward, [step] + further;
    assert Last(states) == Last(onward);
  }

  /** A goroutine being waited for takes no lock it does not give back: it can only be refused. */
  lemma FenceStays(s: State, step: Step, s': State)
    requires Inv(s) && Waits(s.locks.conn) && WorkerStep(step) && Next(s, step) == Some(s')
    ensures FenceRank(s'.locks.fence) <= FenceRank(s.locks.fence)
  {
    match step
    case WalkStep(a) =>
      var pc := s.crew.walk.value.pc;
      if pc.Up? || pc.Checking? {
        assert NextAcceptance(s, a) == Some(s');
      }
    case ProcStep(_) =>
    case HealthStep(_) =>
    case PollerStep(_, _) =>
  }

  // ----- The fence, and the whole teardown -----

  /** The steps left to an acceptance before it releases protectionOp. */
  function AcceptanceRank(pc: WalkPc): nat {
    match pc
    case Checking => 8
    case Activating => 7
    case Arming => 6
    case Rechecking => 5
    case Installing => 4
    case Publishing => 3
    case Handing => 2
    case Reconciling => 1
    case _ => 0
  }

  function HeldRank(s: State): nat {
    match s.locks.fence
    case ByWalk => if s.crew.walk.Some? then AcceptanceRank(s.crew.walk.value.pc) else 0
    case Open => 0
    case _ => 1
  }

  lemma GatesMove(s: State, a: Answer, s': State)
    requires Inv(s) && s.locks.fence == ByWalk && NextAcceptance(s, a) == Some(s')
    requires var pc := s.crew.walk.value.pc; pc.Checking? || pc.Activating? || pc.Arming? || pc.Rechecking?
    ensures s'.locks.conn == s.locks.conn && HeldRank(s') < HeldRank(s)
    ensures s'.locks.fence == Open || s'.locks.fence == ByWalk
  {
  }

  lemma PublicationMoves(s: State, a: Answer, s': State)
    requires Inv(s) && s.locks.fence == ByWalk && NextAcceptance(s, a) == Some(s')
    requires var pc := s.crew.walk.value.pc; pc.Installing? || pc.Publishing? || Published(pc)
    ensures s'.locks.conn == s.locks.conn && HeldRank(s') < HeldRank(s)
    ensures s'.locks.fence == Open || s'.locks.fence == ByWalk
  {
  }

  /** Every step of the walk holding protectionOp is enabled and brings its release nearer. */
  lemma AcceptanceMoves(s: State, a: Answer)
    requires Inv(s) && s.locks.fence == ByWalk
    ensures NextWalk(s, a).Some?
    ensures var s' := NextWalk(s, a).value;
            s'.locks.conn == s.locks.conn && HeldRank(s') < HeldRank(s)
            && (s'.locks.fence == Open || s'.locks.fence == ByWalk)
  {
    var pc := s.crew.walk.value.pc;
    assert NextWalk(s, a) == NextAcceptance(s, a);
    if pc.Installing? || pc.Publishing? || Published(pc) {
      PublicationMoves(s, a, NextAcceptance(s, a).value);
    } else {
      GatesMove(s, a, NextAcceptance(s, a).value);
    }
  }

  /** Nobody else touches an acceptance, or protectionOp while it holds it. */
  lemma OthersLeaveTheAcceptance(s: State, step: Step, s': State)
    requires Inv(s) && s.locks.fence == ByWalk && !step.WalkStep? && Next(s, step) == Some(s')
    ensures s'.locks.fence == ByWalk && s'.crew.walk == s.crew.walk
  {
    match step
    case OpStep(a) => OpLeavesTheAcceptance(s, a, s');
    case _ =>
  }

  lemma OpLeavesTheAcceptance(s: State, a: Answer, s': State)
    requires Inv(s) && s.locks.fence == ByWalk && NextOp(s, a) == Some(s')
    ensures s'.locks.fence == ByWalk && s'.crew.walk == s.crew.walk
  {
    if s.locks.conn.phase.Entered? {
      assert s' == NextEntered(s, s.locks.conn.kind, a);
    }
  }

  /** How many of the first k steps are the walk's. */
  function WalkSteps(steps: seq<Step>, k: nat): nat
    requires k <= |steps|
  {
    if k == 0 then 0 else WalkSteps(steps, k - 1) + if steps[k - 1].WalkStep? then 1 else 0
  }

  predicate AcceptsAt(states: seq<State>, i: nat)
    requires i < |states|
  {
    states[i].locks.fence == ByWalk
  }

  lemma AcceptanceStep(states: seq<State>, steps: seq<Step>, i: nat)
    requires Path(states, steps) && Inv(states[0]) && i < |steps| && AcceptsAt(states, i) && AcceptsAt(states, i + 1)
    ensures (if steps[i].WalkStep? then 1 else 0) + HeldRank(states[i + 1]) <= HeldRank(states[i])
  {
    PathKeepsInv(states, steps, i);
    StepOnPath(states, steps, i);
    if steps[i].WalkStep? {
      AcceptanceMoves(states[i], steps[i].answer);
    } else {
      OthersLeaveTheAcceptance(states[i], steps[i], states[i + 1]);
    }
  }

  /** Along every path on which a walk holds protectionOp, it takes at most as many steps as its acceptance has left. */
  lemma {:induction false} EveryAcceptanceEnds(states: seq<State>, steps: seq<Step>, k: nat)
    requires Path(states, steps) && Inv(states[0]) && k < |states|
    requires forall i :: 0 <= i <= k ==> AcceptsAt(states, i)
    ensures WalkSteps(steps, k) + HeldRank(states[k]) <= HeldRank(states[0])
  {
    if k == 0 {
    } else {
      EveryAcceptanceEnds(states, steps, k - 1);
      assert AcceptsAt(states, k - 1) && AcceptsAt(states, k);
      AcceptanceStep(states, steps, k - 1);
    }
  }

  lemma HolderMoves(s: State) returns (step: Step)
    requires Inv(s) && s.locks.fence != ByOp && s.locks.fence != Open
    ensures (step.WalkStep? || step.KillSwitchEnd?) && Next(s, step).Some?
    ensures var s' := Next(s, step).value;
            s'.locks.conn == s.locks.conn && s'.locks.fence != ByOp && HeldRank(s') < HeldRank(s)
  {
    if s.locks.fence == ByWalk {
      step := WalkStep(No());
      AcceptanceMoves(s, No());
    } else {
      step := KillSwitchEnd(true, false, false);
      assert NextEnv(s, step).Some?;
    }
  }

  /** protectionOp becomes free: nobody holding it waits for anything. */
  lemma {:induction false} FenceOpens(s: State) returns (states: seq<State>, steps: seq<Step>)
    requires Inv(s) && s.locks.fence != ByOp
    ensures Path(states, steps) && states[0] == s && OthersOnly(steps) && |steps| <= HeldRank(s)
    ensures Inv(Last(states)) && Last(states).locks.conn == s.locks.conn && Last(states).locks.fence == Open
    decreases HeldRank(s)
  {
    if s.locks.fence == Open {
      return [s], [];
    }
    var step := HolderMoves(s);
    var s' := Next(s, step).value;
    NextKeepsInv(s, step, s');
    states, steps := FenceOpens(s');
    Prepend(s, step, states, steps);
    states, steps := [s] + states, [step] + steps;
  }

  predicate TearingDown(conn: Holder) {
    conn.Op? && (conn.phase.Ready? || conn.phase.Cancelling? || conn.phase.Stopping? || conn.phase.Draining?)
  }

  function TeardownLeft(conn: Holder): nat {
    if !conn.Op? then 0
    else if conn.phase.Ready? then 3
    else if conn.phase.Cancelling? then 2
    else if conn.phase.Stopping? then 1
    else 0
  }

  /**
    From every reachable state in which connMu's holder is in teardown, wherever everyone else is, teardown can
    return without any further command, and then leaves no engine and no goroutine.
   */
  lemma TeardownCanReturn(states: seq<State>, steps: seq<Step>) returns (onward: seq<State>, further: seq<Step>)
    requires IsRun(states, steps) && TearingDown(Last(states).locks.conn)
    ensures Path(onward, further) && onward[0] == Last(states) && NoCommands(further)
    ensures var t := Last(onward);
            t.locks.conn.Op? && t.locks.conn.phase.Drained? && Drainable(t.crew) && t.engine.running == 0
  {
    ReachableInv(states, steps, |states| - 1);
    onward, further := TeardownCanReturnFrom(Last(states));
  }

  /** What teardown's next step waits for comes true. */
  lemma TeardownIsFreed(s: State) returns (states: seq<State>, steps: seq<Step>)
    requires Inv(s) && TearingDown(s.locks.conn)
    ensures Path(states, steps) && states[0] == s && NoCommands(steps)
    ensures var t := Last(states);
            Inv(t) && t.locks.conn == s.locks.conn && NextOp(t, Yes()).Some?
  {
    if s.locks.conn.phase.Draining? {
      states, steps := DrainCanEnd(s);
    } else if s.locks.conn.phase.Ready? {
      states, steps := FenceOpens(s);
    } else {
      states, steps := [s], [];
    }
  }

  lemma TeardownSteps(s: State, s': State)
    requires TearingDown(s.locks.conn) && NextOp(s, Yes()) == Some(s')
    ensures s'.locks.conn.Op?
    ensures if s.locks.conn.phase.Draining? then s'.locks.conn.phase.Drained?
            else TearingDown(s'.locks.conn) && TeardownLeft(s'.locks.conn) < TeardownLeft(s.locks.conn)
  {
  }

  lemma {:induction false} TeardownCanReturnFrom(s: State) returns (states: seq<State>, steps: seq<Step>)
    requires Inv(s) && TearingDown(s.locks.conn)
    ensures Path(states, steps) && states[0] == s && NoCommands(steps)
    ensures Inv(Last(states)) && Last(states).locks.conn.Op? && Last(states).locks.conn.phase.Drained?
    decreases TeardownLeft(s.locks.conn)
  {
    states, steps := TeardownIsFreed(s);
    var mid := Last(states);
    var s' := NextOp(mid, Yes()).value;
    TeardownSteps(mid, s');
    OpKeepsInv(mid, Yes(), s');
    Append(states, steps, OpStep(Yes()), s');
    states, steps := states + [s'], steps + [OpStep(Yes())];
    if !s.locks.conn.phase.Draining? {
      var onward, further := TeardownCanReturnFrom(s');
      Join(states, steps, onward, further);
      states, steps := states + onward[1..], steps + further;
    }
  }
}
