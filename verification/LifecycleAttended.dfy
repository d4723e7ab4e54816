/**
  Nothing is left hanging: a published connecting or reconnecting state has somebody at work on it, a dead engine is
  reported, and a set-command's protection follows the preference it stored (core/control/connect.go, protection.go).
 */
module LifecycleAttended {
  import opened Wrappers
  import opened Lifecycle
  import opened LifecycleInvariant
  import opened LifecycleSafety

  // ----- Connecting -----

  /** A teardown under way, or the connection started after it. */
  predicate Replacing(conn: Holder) {
    && conn.Op?
    && (Fenced(conn) || conn.phase.Drained? || conn.phase.Launching? || conn.phase.Announcing? || conn.phase.Spawning?)
  }

  /** A failover from the moment it has announced itself. */
  predicate FailoverAtWork(conn: Holder) {
    && conn.Op? && conn.kind.Failover?
    && (Fenced(conn) || conn.phase.Drained? || (Committed(conn) && !conn.phase.Confirmed? && !conn.phase.Found?))
  }

  predicate Attended(s: State) {
    && (s.tunnel.status == Connecting ==>
          (s.crew.walk.Some? && !Published(s.crew.walk.value.pc)) || Replacing(s.locks.conn))
    && (s.tunnel.status == Reconnecting ==> FailoverAtWork(s.locks.conn))
    && (s.crew.walk.Some? && s.crew.walk.value.pc.StopAndExit? ==> !Current(s.clock, s.crew.walk.value.gen))
  }

  lemma EnteredStaysAttended(s: State, a: Answer, s': State)
    requires Inv(s) && Attended(s) && NextOp(s, a) == Some(s') && s.locks.conn.phase.Entered?
    ensures Attended(s')
  {
    assert s' == NextEntered(s, s.locks.conn.kind, a);
  }

  lemma CommittedStaysAttended(s: State, a: Answer, s': State)
    requires Inv(s) && Attended(s) && NextOp(s, a) == Some(s') && Committed(s.locks.conn)
    ensures Attended(s')
  {
  }

  lemma TeardownStaysAttended(s: State, a: Answer, s': State)
    requires Inv(s) && Attended(s) && NextOp(s, a) == Some(s') && Fenced(s.locks.conn)
    ensures Attended(s')
  {
  }

  lemma LaunchStaysAttended(s: State, a: Answer, s': State)
    requires Inv(s) && Attended(s) && NextOp(s, a) == Some(s') && Emptied(s.locks.conn)
    ensures Attended(s')
  {
  }

  lemma OpStaysAttended(s: State, a: Answer, s': State)
    requires Inv(s) && Attended(s) && NextOp(s, a) == Some(s')
    ensures Attended(s')
  {
    if s.locks.conn.phase.Entered? {
      EnteredStaysAttended(s, a, s');
    } else if Committed(s.locks.conn) {
      CommittedStaysAttended(s, a, s');
    } else if Fenced(s.locks.conn) {
      TeardownStaysAttended(s, a, s');
    } else {
      LaunchStaysAttended(s, a, s');
    }
  }

  lemma StoppedWalkStaysAttended(s: State, a: Answer, s': State)
    requires Inv(s) && Attended(s) && NextWalk(s, a) == Some(s') && Stopped(s.crew.walk.value.pc)
    ensures Attended(s')
  {
  }

  lemma WalkStaysAttended(s: State, a: Answer, s': State)
    requires Inv(s) && Attended(s) && NextWalk(s, a) == Some(s')
    requires !Accepting(s.crew.walk.value.pc) && !s.crew.walk.value.pc.Up? && !Stopped(s.crew.walk.value.pc)
    ensures Attended(s')
  {
  }

  lemma AcceptanceStaysAttended(s: State, a: Answer, s': State)
    requires Inv(s) && Attended(s) && s.crew.walk.Some? && NextAcceptance(s, a) == Some(s')
    ensures Attended(s')
  {
  }

  lemma OthersStayAttended(s: State, step: Step, s': State)
    requires Attended(s) && Next(s, step) == Some(s') && !step.OpStep? && !step.WalkStep?
    ensures Attended(s')
  {
  }

  lemma NextStaysAttended(s: State, step: Step, s': State)
    requires Inv(s) && Attended(s) && Next(s, step) == Some(s')
    ensures Attended(s')
  {
    match step
    case OpStep(a) => OpStaysAttended(s, a, s');
    case WalkStep(a) =>
      if Accepting(s.crew.walk.value.pc) || s.crew.walk.value.pc.Up? {
        AcceptanceStaysAttended(s, a, s');
      } else if Stopped(s.crew.walk.value.pc) {
        StoppedWalkStaysAttended(s, a, s');
      } else {
        WalkStaysAttended(s, a, s');
      }
    case _ => OthersStayAttended(s, step, s');
  }

  predicate AttendedAt(states: seq<State>, k: nat)
    requires k < |states|
  {
    Attended(states[k])
  }

  lemma AttendedGoesOn(states: seq<State>, steps: seq<Step>, k: nat)
    requires IsRun(states, steps) && k < |steps| && AttendedAt(states, k)
    ensures AttendedAt(states, k + 1)
  {
    ReachableInv(states, steps, k);
    StepOnPath(states, steps, k);
    NextStaysAttended(states[k], steps[k], states[k + 1]);
  }

  lemma {:induction false} RunsAreAttended(states: seq<State>, steps: seq<Step>, k: nat)
    requires IsRun(states, steps) && k < |states|
    ensures AttendedAt(states, k)
  {
    if k > 0 {
      RunsAreAttended(states, steps, k - 1);
      AttendedGoesOn(states, steps, k - 1);
    }
  }

  /**
    No walk ends without a word: as long as connecting is published and nobody holds connMu, a walk of the current
    generation is at work that has not been accepted; and reconnecting is published only while a failover holds it.
   */
  lemma ConnectingIsAttended(states: seq<State>, steps: seq<Step>, k: nat)
    requires IsRun(states, steps) && k < |states|
    ensures states[k].tunnel.status == Connecting && !states[k].locks.conn.Op? ==>
              && states[k].crew.walk.Some? && !Published(states[k].crew.walk.value.pc)
              && Current(states[k].clock, states[k].crew.walk.value.gen)
    ensures states[k].tunnel.status == Reconnecting ==>
              states[k].locks.conn.Op? && states[k].locks.conn.kind.Failover?
  {
    RunsAreAttended(states, steps, k);
    ReachableInv(states, steps, k);
  }

  // ----- A dead engine -----

  /** The process watcher reports: it hands over to the kill switch's relaunch, or publishes the error. */
  predicate ReportsAt(states: seq<State>, steps: seq<Step>, gen: nat, m: nat)
    requires m < |steps| && |states| == |steps| + 1
  {
    && steps[m].ProcStep? && states[m].crew.proc.Some?
    && ((states[m].prefs.wanted && steps[m].answer.ok
         && states[m + 1].locks.pending
            == states[m].locks.pending + multiset{Relaunch(gen, states[m].crew.proc.value.node)})
        || states[m + 1].tunnel.status == Error)
  }

  predicate Watches(s: State, gen: nat) {
    s.crew.proc.Some? && s.crew.proc.value.gen == gen
  }

  lemma WatcherReports(s: State, a: Answer, gen: nat, s': State)
    requires Inv(s) && Watches(s, gen) && Current(s.clock, gen) && NextProc(s, a) == Some(s')
    ensures Watches(s', gen) || s'.tunnel.status == Error
            || (s.prefs.wanted && a.ok
                && s'.locks.pending == s.locks.pending + multiset{Relaunch(gen, s.crew.proc.value.node)})
  {
  }

  lemma OthersLetItWatch(s: State, step: Step, gen: nat, s': State)
    requires Inv(s) && Watches(s, gen) && !step.ProcStep? && Next(s, step) == Some(s')
    ensures Watches(s', gen)
  {
    match step
    case OpStep(a) => OpLetsItWatch(s, a, s');
    case WalkStep(a) =>
      if NextWalk(s, a) == NextAcceptance(s, a) {
        assert NextAcceptance(s, a) == Some(s');
      }
    case _ =>
  }

  lemma OpLetsItWatch(s: State, a: Answer, s': State)
    requires NextOp(s, a) == Some(s')
    ensures s'.crew.proc == s.crew.proc
  {
    if s.locks.conn.phase.Entered? {
      assert s' == NextEntered(s, s.locks.conn.kind, a);
    }
  }

  predicate WatchesAt(states: seq<State>, gen: nat, k: nat)
    requires k < |states|
  {
    Watches(states[k], gen)
  }

  lemma WatchGoesOn(states: seq<State>, steps: seq<Step>, gen: nat, k: nat)
    requires IsRun(states, steps) && k < |steps| && WatchesAt(states, gen, k) && states[k].clock.generation == gen
    ensures WatchesAt(states, gen, k + 1) || ReportsAt(states, steps, gen, k)
  {
    ReachableInv(states, steps, k);
    StepOnPath(states, steps, k);
    if steps[k].ProcStep? {
      WatcherReports(states[k], steps[k].answer, gen, states[k + 1]);
    } else {
      OthersLetItWatch(states[k], steps[k], gen, states[k + 1]);
    }
  }

  /**
    A connection is watched until it is over: in every run the process watcher of a generation is still there, or has
    queued the relaunch or published the error, as long as that generation lasts.
   */
  lemma {:induction false} AConnectionIsWatched(states: seq<State>, steps: seq<Step>, gen: nat, j: nat, k: nat)
    requires IsRun(states, steps) && j <= k < |states| && WatchesAt(states, gen, j)
    requires states[k].clock.generation == gen
    ensures WatchesAt(states, gen, k) || exists m :: j <= m < k && ReportsAt(states, steps, gen, m)
  {
    if j < k {
      RunsMoveOn(states, steps, k - 1, k);
      ReachableInv(states, steps, j);
      RunsMoveOn(states, steps, j, k - 1);
      assert Watches(states[j], gen);
      AConnectionIsWatched(states, steps, gen, j, k - 1);
      if WatchesAt(states, gen, k - 1) {
        WatchGoesOn(states, steps, gen, k - 1);
      }
    }
  }

  predicate ProcOnly(steps: seq<Step>) {
    forall i :: 0 <= i < |steps| ==> steps[i].ProcStep?
  }

  function ReportLeft(pc: ProcPc): nat {
    match pc
    case Waiting => 3
    case Exited => 2
    case Locating => 1
    case Reporting => 0
  }

  /** The outcome of the watcher of this generation, in the state before its report and the one after. */
  ghost predicate Reported(s: State, gen: nat, ok: bool, s': State) {
    && s'.crew == s.crew.(proc := None) && s'.clock == s.clock && s'.engine == s.engine
    && if s.prefs.wanted && ok then
         && s'.tunnel == s.tunnel && s'.locks.conn == s.locks.conn && s'.locks.fence == s.locks.fence
         && exists node :: s'.locks.pending == s.locks.pending + multiset{Relaunch(gen, node)}
                           && (s.tunnel.node != "" ==> node == s.tunnel.node)
       else
         s'.tunnel.status == Error && s'.locks == s.locks && (s.tunnel.node != "" ==> s'.tunnel.node == s.tunnel.node)
  }

  lemma WatcherGoesOn(s: State, gen: nat, a: Answer, s': State)
    requires Inv(s) && Watches(s, gen) && Current(s.clock, gen) && s.engine.running == 0
    requires ReportLeft(s.crew.proc.value.pc) > 0 && NextProc(s, a) == Some(s')
    ensures Watches(s', gen) && ReportLeft(s'.crew.proc.value.pc) == ReportLeft(s.crew.proc.value.pc) - 1
    ensures s' == SetProc(s, s'.crew.proc)
    ensures s'.crew.proc.value.pc.Reporting? && s.tunnel.node != "" ==> s'.crew.proc.value.node == s.tunnel.node
  {
  }

  /** A dead engine can always be reported by the watcher alone: the relaunch if wanted and allowed, or the error. */
  lemma {:induction false} DeadEngineIsReported(s: State, gen: nat, a: Answer)
      returns (states: seq<State>, steps: seq<Step>)
    requires Inv(s) && Watches(s, gen) && Current(s.clock, gen) && s.engine.running == 0
    requires s.crew.proc.value.pc.Reporting? && s.tunnel.node != "" ==> s.crew.proc.value.node == s.tunnel.node
    ensures Path(states, steps) && states[0] == s && ProcOnly(steps)
    ensures Reported(s, gen, a.ok, Last(states))
    decreases ReportLeft(s.crew.proc.value.pc)
  {
    assert NextProc(s, a).Some?;
    var s' := NextProc(s, a).value;
    assert Next(s, ProcStep(a)) == Some(s');
    if s.crew.proc.value.pc.Reporting? {
      states, steps := [s, s'], [ProcStep(a)];
      assert Taken(states, steps, 0);
    } else {
      WatcherGoesOn(s, gen, a, s');
      NextKeepsInv(s, ProcStep(a), s');
      var onward, further := DeadEngineIsReported(s', gen, a);
      Prepend(s, ProcStep(a), onward, further);
      states, steps := [s] + onward, [ProcStep(a)] + further;
    }
  }

  // ----- A degraded exit -----

  function Granted(node: string): Answer {
    Answer(true, true, node, map[])
  }

  /** The watchdog of the current generation watches a connected tunnel and a free connMu. */
  predicate WatchdogReady(s: State) {
    && s.crew.health.Some? && s.crew.health.value.pc.Watching? && Current(s.clock, s.crew.health.value.gen)
    && s.tunnel.status == Connected && s.tunnel.node != "" && s.tunnel.live.Some? && s.locks.conn == Free
  }

  predicate HealthOnly(steps: seq<Step>) {
    forall i :: 0 <= i < |steps| ==> steps[i].HealthStep? || steps[i].SwitchStep?
  }

  lemma OneStep(s: State, step: Step, s': State)
    requires Next(s, step) == Some(s')
    ensures Path([s, s'], [step])
  {
    assert Taken([s, s'], [step], 0);
  }

  lemma WatchdogTries(s: State, target: string) returns (s': State)
    requires Inv(s) && WatchdogReady(s)
    ensures var h := s.crew.health.value;
            && s' == SetHealth(s, Some(HealthWatch(h.gen, Trying, h.node, s.tunnel.node, target)))
            && Path([s, SetHealth(s, Some(h.(pc := Degraded, active := s.tunnel.node))), s'],
                    [HealthStep(Granted(target)), HealthStep(Granted(target))])
  {
    var h := s.crew.health.value;
    var mid := SetHealth(s, Some(h.(pc := Degraded, active := s.tunnel.node)));
    assert NextHealth(s, Granted(target)) == Some(mid);
    s' := NextHealth(mid, Granted(target)).value;
    var states, steps := [s, mid, s'], [HealthStep(Granted(target)), HealthStep(Granted(target))];
    assert Taken(states, steps, 0) && Taken(states, steps, 1);
  }

  function SwitchLeft(at: SwitchPhase): nat {
    match at
    case Recheck(_) => 6
    case Renode(_) => 5
    case Resolve => 4
    case Select(_, _) => 3
    case Confirm(_, _) => 2
    case Commit(_) => 1
    case Revert(_, _) => 0
  }

  /** The move to the target is under way, and nothing has changed but the selector. */
  predicate OnTheMove(s: State, target: string) {
    && s.locks.conn.Switching? && s.locks.conn.target == target
    && (s.locks.conn.auto ==>
          s.tunnel.status == Connected && s.crew.health.Some? && Current(s.clock, s.crew.health.value.gen))
    && (!s.locks.conn.auto ==> !s.locks.conn.at.Recheck? && !s.locks.conn.at.Renode?)
    && Steerable(s.tunnel, s.clock.generation, target)
    && var at, tag := s.locks.conn.at, TagOf(s.tunnel.live.value.tagOf, target);
       && (at.Recheck? ==> at.degraded == s.tunnel.node) && (at.Renode? ==> at.degraded == s.tunnel.node)
       && (at.Select? ==> at.tag == tag) && (at.Confirm? ==> at.tag == tag) && (at.Commit? ==> at.tag == tag)
       && (at.Confirm? || at.Commit? ==> s.engine.selected == Some(tag))
       && !at.Revert?
  }

  /** The tunnel has been moved to the target, under the same configuration, and is watched as before. */
  predicate MovedTo(s: State, target: string, s': State) {
    && s'.locks.conn == Free && s'.clock == s.clock && s'.engine.running == s.engine.running
    && s.tunnel.live.Some? && s'.tunnel == Tunnel(Connected, target, s.tunnel.live)
    && s'.engine.selected == Some(TagOf(s.tunnel.live.value.tagOf, target))
    && s'.crew.walk == s.crew.walk && s'.crew.proc == s.crew.proc && s'.crew.pollers == s.crew.pollers
  }

  /** The watchdog of the current generation is back at its watch. */
  predicate WatchesOn(s: State) {
    s.crew.health.Some? && s.crew.health.value.pc.Watching? && Current(s.clock, s.crew.health.value.gen)
  }

  lemma MoveGoesOn(s: State, target: string, s': State)
    requires OnTheMove(s, target) && NextSwitch(s, Granted(target)) == Some(s') && !s.locks.conn.at.Commit?
    ensures OnTheMove(s', target) && SwitchLeft(s'.locks.conn.at) < SwitchLeft(s.locks.conn.at)
    ensures s'.locks.conn.auto == s.locks.conn.auto
    ensures s'.clock == s.clock && s'.crew == s.crew && s'.tunnel == s.tunnel
    ensures s'.engine.running == s.engine.running
  {
  }

  lemma {:induction false} MoveCanEnd(s: State, target: string) returns (states: seq<State>, steps: seq<Step>)
    requires OnTheMove(s, target)
    ensures Path(states, steps) && states[0] == s && HealthOnly(steps) && MovedTo(s, target, Last(states))
    ensures if s.locks.conn.auto then WatchesOn(Last(states)) else Last(states).crew == s.crew
    decreases SwitchLeft(s.locks.conn.at)
  {
    var step := SwitchStep(Granted(target));
    assert NextSwitch(s, Granted(target)).Some?;
    var s' := NextSwitch(s, Granted(target)).value;
    if s.locks.conn.at.Commit? {
      states, steps := [s, s'], [step];
      OneStep(s, step, s');
    } else {
      MoveGoesOn(s, target, s');
      var onward, further := MoveCanEnd(s', target);
      Prepend(s, step, onward, further);
      states, steps := [s] + onward, [step] + further;
    }
  }

  /**
    A degraded exit can be left without a restart: in every reachable state in which the watchdog watches and connMu is
    free, its own steps can move the tunnel to any other server of the running configuration.
   */
  lemma ADegradedExitIsLeft(states: seq<State>, steps: seq<Step>, target: string)
      returns (onward: seq<State>, further: seq<Step>)
    requires IsRun(states, steps) && WatchdogReady(Last(states))
    requires Steerable(Last(states).tunnel, Last(states).clock.generation, target)
    ensures Path(onward, further) && onward[0] == Last(states) && HealthOnly(further)
    ensures MovedTo(Last(states), target, Last(onward)) && WatchesOn(Last(onward))
  {
    var s := Last(states);
    ReachableInv(states, steps, |states| - 1);
    var s' := WatchdogTries(s, target);
    onward := [s, SetHealth(s, Some(s.crew.health.value.(pc := Degraded, active := s.tunnel.node))), s'];
    further := [HealthStep(Granted(target)), HealthStep(Granted(target))];
    assert NextHealth(s', Granted(target)).Some?;
    var taken := NextHealth(s', Granted(target)).value;
    Append(onward, further, HealthStep(Granted(target)), taken);
    onward, further := onward + [taken], further + [HealthStep(Granted(target))];
    var moved, switched := MoveCanEnd(taken, target);
    Join(onward, further, moved, switched);
    onward, further := onward + moved[1..], further + switched;
  }

  /** So can the user's own switch, whether there is a watchdog or not. */
  lemma AUserCanMove(states: seq<State>, steps: seq<Step>, target: string)
      returns (onward: seq<State>, further: seq<Step>)
    requires IsRun(states, steps) && Last(states).locks.conn == Free
    requires Steerable(Last(states).tunnel, Last(states).clock.generation, target)
    ensures |further| > 0 && further[0] == AcquireSwitch(target) && HealthOnly(further[1..])
    ensures Path(onward, further) && onward[0] == Last(states)
    ensures MovedTo(Last(states), target, Last(onward)) && Last(onward).crew == Last(states).crew
  {
    var s := Last(states);
    var taken := To(s, Switching(false, target, Resolve));
    assert Next(s, AcquireSwitch(target)) == NextEnv(s, AcquireSwitch(target));
    onward, further := MoveCanEnd(taken, target);
    Prepend(s, AcquireSwitch(target), onward, further);
    onward, further := [s] + onward, [AcquireSwitch(target)] + further;
  }

  /**
    ... and if no exit is found that carries traffic, a failover is queued for that exit and this generation, whoever
    holds connMu, and nothing else changes.
   */
  lemma ADegradedExitIsReported(states: seq<State>, steps: seq<Step>) returns (onward: seq<State>, further: seq<Step>)
    requires IsRun(states, steps)
    requires var s := Last(states);
             s.crew.health.Some? && s.crew.health.value.pc.Watching? && Current(s.clock, s.crew.health.value.gen)
             && s.tunnel.status == Connected && s.tunnel.node != ""
    ensures Path(onward, further) && onward[0] == Last(states) && HealthOnly(further)
    ensures var s, t := Last(states), Last(onward);
            && t == s.(locks := t.locks, crew := t.crew)
            && t.locks == s.locks.(pending := s.locks.pending + multiset{Failover(s.clock.generation, s.tunnel.node)})
            && t.crew == s.crew.(health := t.crew.health) && t.crew.health.Some? && t.crew.health.value.pc.Watching?
  {
    var s := Last(states);
    ReachableInv(states, steps, |states| - 1);
    var found, scanned := HealthStep(Granted("")), HealthStep(Answer(true, false, "", map[]));
    var s1 := NextHealth(s, found.answer).value;
    var s2 := NextHealth(s1, scanned.answer).value;
    var s3 := NextHealth(s2, found.answer).value;
    onward, further := [s, s1, s2, s3], [found, scanned, found];
    assert Taken(onward, further, 0) && Taken(onward, further, 1) && Taken(onward, further, 2);
  }

  /** A live switch that finds connMu held does not wait for it: the same failover is queued instead. */
  lemma ABusyLockFallsBack(states: seq<State>, steps: seq<Step>) returns (onward: seq<State>, further: seq<Step>)
    requires IsRun(states, steps) && Last(states).locks.conn != Free
    requires var s := Last(states);
             s.crew.health.Some? && s.crew.health.value.pc.Trying? && Current(s.clock, s.crew.health.value.gen)
             && s.tunnel.status == Connected
    ensures Path(onward, further) && onward[0] == Last(states) && HealthOnly(further)
    ensures var s, t := Last(states), Last(onward); var h := s.crew.health.value;
            && t == s.(locks := t.locks, crew := t.crew)
            && t.locks == s.locks.(pending := s.locks.pending + multiset{Failover(h.gen, h.active)})
            && t.crew == s.crew.(health := Some(h.(pc := Watching)))
  {
    var s, step := Last(states), HealthStep(Granted(""));
    var s1 := NextHealth(s, step.answer).value;
    var s2 := NextHealth(s1, step.answer).value;
    onward, further := [s, s1, s2], [step, step];
    assert Taken(onward, further, 0) && Taken(onward, further, 1);
  }

  // ----- The protection of a set-command -----

  predicate SetterAgrees(s: State) {
    s.locks.fence.BySetter? ==> s.locks.fence.on == s.prefs.wanted
  }

  predicate SetterAgreesAt(states: seq<State>, k: nat)
    requires k < |states|
  {
    SetterAgrees(states[k])
  }

  lemma WalkKeepsSetter(s: State, a: Answer, s': State)
    requires SetterAgrees(s) && NextWalk(s, a) == Some(s')
    ensures SetterAgrees(s')
  {
    if NextWalk(s, a) == NextAcceptance(s, a) {
      assert NextAcceptance(s, a) == Some(s');
    }
  }

  lemma OpKeepsSetter(s: State, a: Answer, s': State)
    requires SetterAgrees(s) && NextOp(s, a) == Some(s')
    ensures SetterAgrees(s')
  {
    if s.locks.conn.phase.Entered? {
      assert s' == NextEntered(s, s.locks.conn.kind, a);
    }
  }

  lemma NextKeepsSetter(s: State, step: Step, s': State)
    requires SetterAgrees(s) && Next(s, step) == Some(s')
    ensures SetterAgrees(s')
  {
    match step
    case OpStep(a) => OpKeepsSetter(s, a, s');
    case WalkStep(a) => WalkKeepsSetter(s, a, s');
    case _ =>
  }

  lemma SetterGoesOn(states: seq<State>, steps: seq<Step>, k: nat)
    requires IsRun(states, steps) && k < |steps| && SetterAgreesAt(states, k)
    ensures SetterAgreesAt(states, k + 1)
  {
    StepOnPath(states, steps, k);
    NextKeepsSetter(states[k], steps[k], states[k + 1]);
  }

  lemma {:induction false} RunsKeepSetter(states: seq<State>, steps: seq<Step>, k: nat)
    requires IsRun(states, steps) && k < |states|
    ensures SetterAgreesAt(states, k)
  {
    if k > 0 {
      RunsKeepSetter(states, steps, k - 1);
      SetterGoesOn(states, steps, k - 1);
    }
  }

  /**
    When a set-command for the kill switch succeeds, the protection in place agrees with the preference that is stored
    by then: none is left once it is off, and one that could be prepared is there once it is on; and where the tunnel is
    to be built again for it, a re-apply is pending.
   */
  lemma TheProtectionFollows(states: seq<State>, steps: seq<Step>, k: nat)
    requires IsRun(states, steps) && k < |steps| && steps[k].KillSwitchEnd?
    ensures states[k + 1].prefs.wanted == states[k].prefs.wanted
    ensures steps[k].ok && !states[k].prefs.wanted ==> !states[k + 1].prefs.enforced
    ensures steps[k].ok && states[k].prefs.wanted && steps[k].prepared && !states[k].prefs.legacy ==>
              states[k + 1].prefs.enforced
    ensures !steps[k].ok ==> states[k + 1].prefs == states[k].prefs
    ensures states[k + 1].locks.pending
            == states[k].locks.pending + if steps[k].ok && steps[k].reapply then multiset{Reapply} else multiset{}
    ensures states[k + 1].locks.fence == Open
  {
    RunsKeepSetter(states, steps, k);
    StepOnPath(states, steps, k);
    assert NextEnv(states[k], steps[k]) == Some(states[k + 1]);
  }
}
