/**
  What must have happened before, in every run: no tunnel is published that was not probed, no exit is changed by itself
  that was not looked at again under connMu, no crash is reported but by its own generation's watcher, and a start that
  is refused locally is not tried on other servers (core/control/connect.go, health.go, hotswitch.go).
 */
module LifecycleHistory {
  import opened Wrappers
  import opened Lifecycle
  import opened LifecycleInvariant
  import opened LifecycleSafety

  // ----- A walk's attempt -----

  /** The attempt in hand has carried traffic through its pinned exit. */
  predicate PastProbe(pc: WalkPc) {
    pc.Up? || Accepting(pc)
  }

  predicate PastArming(pc: WalkPc) {
    pc.Rechecking? || pc.Installing? || pc.Publishing? || Published(pc)
  }

  /** Step m is this attempt's, at this point, and answered well. */
  predicate AttemptAt(states: seq<State>, steps: seq<Step>, gen: nat, node: string, pc: WalkPc, m: nat)
    requires m < |steps| && |states| == |steps| + 1
  {
    && steps[m].WalkStep? && steps[m].answer.ok && states[m].crew.walk.Some?
    && var w := states[m].crew.walk.value; w.gen == gen && w.node == node && w.pc == pc
  }

  ghost predicate Attempted(states: seq<State>, steps: seq<Step>, gen: nat, node: string, pc: WalkPc, k: nat)
    requires k <= |steps| && |states| == |steps| + 1
  {
    exists m :: 0 <= m < k && AttemptAt(states, steps, gen, node, pc, m)
  }

  ghost predicate AttemptHistory(states: seq<State>, steps: seq<Step>, k: nat)
    requires k <= |steps| && |states| == |steps| + 1
  {
    states[k].crew.walk.Some? ==>
      var w := states[k].crew.walk.value;
      && (PastProbe(w.pc) ==> Attempted(states, steps, w.gen, w.node, Probing(true), k))
      && (PastArming(w.pc) ==> Attempted(states, steps, w.gen, w.node, Arming, k))
  }

  predicate SameAttempt(v: Walk, w: Walk) {
    v.gen == w.gen && v.node == w.node
  }

  lemma EarlyWalkGetsOn(s: State, a: Answer, s': State)
    requires NextWalk(s, a) == Some(s') && !PastProbe(s.crew.walk.value.pc) && s'.crew.walk.Some?
    ensures var v, w := s.crew.walk.value, s'.crew.walk.value;
            && !PastArming(w.pc)
            && (PastProbe(w.pc) ==> SameAttempt(v, w) && v.pc == Probing(true) && a.ok)
  {
  }

  lemma AcceptanceGetsOn(s: State, a: Answer, s': State)
    requires s.crew.walk.Some? && PastProbe(s.crew.walk.value.pc) && NextAcceptance(s, a) == Some(s')
    requires s'.crew.walk.Some?
    ensures var v, w := s.crew.walk.value, s'.crew.walk.value;
            && SameAttempt(v, w)
            && (PastArming(w.pc) && !PastArming(v.pc) ==> v.pc == Arming && a.ok)
  {
  }

  lemma WalkGetsOn(s: State, a: Answer, s': State)
    requires NextWalk(s, a) == Some(s') && s'.crew.walk.Some?
    ensures var v, w := s.crew.walk.value, s'.crew.walk.value;
            && (PastProbe(w.pc) ==> SameAttempt(v, w) && (PastProbe(v.pc) || (v.pc == Probing(true) && a.ok)))
            && (PastArming(w.pc) ==> SameAttempt(v, w) && (PastArming(v.pc) || (v.pc == Arming && a.ok)))
  {
    if PastProbe(s.crew.walk.value.pc) {
      assert NextWalk(s, a) == NextAcceptance(s, a);
      AcceptanceGetsOn(s, a, s');
    } else {
      EarlyWalkGetsOn(s, a, s');
    }
  }

  /** Nobody but the walk moves it on; connMu's holder may start a new one. */
  lemma OthersLeaveTheWalk(s: State, step: Step, s': State)
    requires !step.WalkStep? && Next(s, step) == Some(s')
    ensures s'.crew.walk == s.crew.walk || (s'.crew.walk.Some? && s'.crew.walk.value.pc.Top?)
  {
    match step
    case OpStep(a) =>
      if s.locks.conn.phase.Entered? {
        assert s' == NextEntered(s, s.locks.conn.kind, a);
      }
    case _ =>
  }

  lemma AttemptsLast(states: seq<State>, steps: seq<Step>, k: nat)
    requires k < |steps| && |states| == |steps| + 1
    ensures forall gen, node, pc :: Attempted(states, steps, gen, node, pc, k) ==>
              Attempted(states, steps, gen, node, pc, k + 1)
    ensures forall gen, node, pc :: AttemptAt(states, steps, gen, node, pc, k) ==>
              Attempted(states, steps, gen, node, pc, k + 1)
  {
  }

  lemma AttemptHistoryGoesOn(states: seq<State>, steps: seq<Step>, k: nat)
    requires Path(states, steps) && k < |steps| && AttemptHistory(states, steps, k)
    ensures AttemptHistory(states, steps, k + 1)
  {
    AttemptsLast(states, steps, k);
    StepOnPath(states, steps, k);
    if states[k + 1].crew.walk.Some? {
      if steps[k].WalkStep? {
        WalkGetsOn(states[k], steps[k].answer, states[k + 1]);
        var v := states[k].crew.walk.value;
        assert v.pc == Probing(true) || v.pc == Arming ==>
                 steps[k].answer.ok ==> AttemptAt(states, steps, v.gen, v.node, v.pc, k);
      } else {
        OthersLeaveTheWalk(states[k], steps[k], states[k + 1]);
      }
    }
  }

  lemma {:induction false} AttemptsHaveAHistory(states: seq<State>, steps: seq<Step>, k: nat)
    requires IsRun(states, steps) && k < |states|
    ensures AttemptHistory(states, steps, k)
  {
    if k > 0 {
      AttemptsHaveAHistory(states, steps, k - 1);
      AttemptHistoryGoesOn(states, steps, k - 1);
    }
  }

  /**
    Nothing is published on trust: when a walk publishes Connected for a node, this same attempt has carried traffic
    with the selector set to that node, and the system proxy has been armed for it.
   */
  lemma APublishedTunnelWasProbed(states: seq<State>, steps: seq<Step>, k: nat)
    requires IsRun(states, steps) && k < |states|
    requires states[k].crew.walk.Some? && states[k].crew.walk.value.pc.Publishing?
    ensures var w := states[k].crew.walk.value;
            && Attempted(states, steps, w.gen, w.node, Probing(true), k)
            && Attempted(states, steps, w.gen, w.node, Arming, k)
  {
    AttemptsHaveAHistory(states, steps, k);
  }

  // ----- A start that is refused locally -----

  /** This generation's walk is on its way out, with no engine. */
  predicate GivingUp(s: State, gen: nat) {
    && s.crew.walk.Some? && s.crew.walk.value.gen == gen && s.engine.running == 0
    && var pc := s.crew.walk.value.pc;
       pc == StartFailed(true) || pc.LocalFailed? || pc.Failing? || (pc.StopAndExit? && !Current(s.clock, gen))
  }

  /** Step m ends the walk, with the error published unless its generation is over. */
  predicate EndsAt(states: seq<State>, steps: seq<Step>, gen: nat, m: nat)
    requires m < |steps| && |states| == |steps| + 1
  {
    && steps[m].WalkStep? && states[m + 1].crew.walk.None?
    && (Current(states[m].clock, gen) ==> states[m + 1].tunnel.status == Error)
  }

  predicate GivingUpAt(states: seq<State>, gen: nat, k: nat)
    requires k < |states|
  {
    GivingUp(states[k], gen)
  }

  lemma GivingUpGoesOn(s: State, step: Step, gen: nat, s': State)
    requires Inv(s) && GivingUp(s, gen) && Next(s, step) == Some(s')
    ensures GivingUp(s', gen)
            || (step.WalkStep? && s'.crew.walk.None? && (Current(s.clock, gen) ==> s'.tunnel.status == Error))
  {
    if step.WalkStep? {
      assert NextWalk(s, step.answer) == Some(s');
    } else {
      OthersLetItGiveUp(s, step, gen, s');
    }
  }

  lemma OthersLetItGiveUp(s: State, step: Step, gen: nat, s': State)
    requires Inv(s) && GivingUp(s, gen) && !step.WalkStep? && Next(s, step) == Some(s')
    ensures GivingUp(s', gen)
  {
    NextMovesOn(s, step);
    match step
    case OpStep(a) =>
      if s.locks.conn.phase.Entered? {
        assert s' == NextEntered(s, s.locks.conn.kind, a);
      }
    case _ =>
  }

  lemma GivingUpGoesOnAt(states: seq<State>, steps: seq<Step>, gen: nat, k: nat)
    requires IsRun(states, steps) && k < |steps| && GivingUpAt(states, gen, k)
    ensures GivingUpAt(states, gen, k + 1) || EndsAt(states, steps, gen, k)
  {
    ReachableInv(states, steps, k);
    StepOnPath(states, steps, k);
    GivingUpGoesOn(states[k], steps[k], gen, states[k + 1]);
  }

  /** Step i starts the engine, which is refused by this machine and not by the server. */
  predicate RefusedLocally(states: seq<State>, steps: seq<Step>, i: nat)
    requires i < |steps| && |states| == |steps| + 1
  {
    && steps[i].WalkStep? && states[i].crew.walk.Some? && states[i].crew.walk.value.pc.Starting?
    && !steps[i].answer.ok && !steps[i].answer.alt && steps[i].answer.node != ""
  }

  /**
    A start that this machine refuses is not tried on another server: from there on the walk is on its way out with no
    engine, or it has ended, with the error published unless its generation was over.
   */
  lemma {:induction false} ALocalRefusalEndsTheWalk(states: seq<State>, steps: seq<Step>, i: nat, k: nat)
    requires IsRun(states, steps) && i < k < |states| && RefusedLocally(states, steps, i)
    ensures var gen := states[i].crew.walk.value.gen;
            GivingUpAt(states, gen, k) || exists m :: i < m < k && EndsAt(states, steps, gen, m)
  {
    var gen := states[i].crew.walk.value.gen;
    if k == i + 1 {
      ReachableInv(states, steps, i);
      StepOnPath(states, steps, i);
    } else {
      ALocalRefusalEndsTheWalk(states, steps, i, k - 1);
      if GivingUpAt(states, gen, k - 1) {
        GivingUpGoesOnAt(states, steps, gen, k - 1);
      }
    }
  }

  // ----- The exit changed by itself -----

  /** Under connMu the watchdog finds its generation connected and the budget not spent. */
  predicate RechecksAt(states: seq<State>, steps: seq<Step>, target: string, degraded: string, m: nat)
    requires m < |steps| && |states| == |steps| + 1
  {
    && steps[m].SwitchStep? && steps[m].answer.ok
    && states[m].locks.conn == Switching(true, target, Recheck(degraded))
    && states[m].tunnel.status == Connected && states[m].crew.health.Some?
    && states[m].crew.health.value.gen == states[m].clock.generation
  }

  /** ... and the tunnel still on the degraded node. */
  predicate RenodesAt(states: seq<State>, steps: seq<Step>, target: string, degraded: string, m: nat)
    requires m < |steps| && |states| == |steps| + 1
  {
    && steps[m].SwitchStep? && states[m].locks.conn == Switching(true, target, Renode(degraded))
    && states[m].tunnel.node == degraded
  }

  predicate SwitchingAt(states: seq<State>, m: nat)
    requires m < |states|
  {
    states[m].locks.conn.Switching?
  }

  /** Since step m, connMu has been held by a switch. */
  ghost predicate SwitchingSince(states: seq<State>, m: nat, k: nat)
    requires k < |states|
  {
    forall j :: m <= j <= k ==> SwitchingAt(states, j)
  }

  ghost predicate Rechecked(states: seq<State>, steps: seq<Step>, target: string, degraded: string, k: nat)
    requires k <= |steps| && |states| == |steps| + 1
  {
    exists m :: 0 <= m < k && RechecksAt(states, steps, target, degraded, m) && SwitchingSince(states, m, k)
  }

  ghost predicate Renoded(states: seq<State>, steps: seq<Step>, target: string, degraded: string, k: nat)
    requires k <= |steps| && |states| == |steps| + 1
  {
    exists m :: 0 <= m < k && RenodesAt(states, steps, target, degraded, m) && SwitchingSince(states, m, k)
  }

  ghost predicate MoveHistory(states: seq<State>, steps: seq<Step>, k: nat)
    requires k <= |steps| && |states| == |steps| + 1
  {
    var conn := states[k].locks.conn;
    conn.Switching? && conn.auto ==>
      && (conn.at.Renode? ==> Rechecked(states, steps, conn.target, conn.at.degraded, k))
      && (!conn.at.Recheck? && !conn.at.Renode? ==>
            exists degraded :: Rechecked(states, steps, conn.target, degraded, k)
                               && Renoded(states, steps, conn.target, degraded, k))
  }

  lemma SwitchGetsOn(s: State, a: Answer, s': State)
    requires NextSwitch(s, a) == Some(s') && s'.locks.conn.Switching?
    ensures s'.locks.conn.auto == s.locks.conn.auto && s'.locks.conn.target == s.locks.conn.target
    ensures !s'.locks.conn.at.Recheck?
    ensures s.locks.conn.at.Recheck? ==>
              && s'.locks.conn.at == Renode(s.locks.conn.at.degraded) && a.ok && s.tunnel.status == Connected
              && s.crew.health.Some? && s.crew.health.value.gen == s.clock.generation
    ensures s.locks.conn.at.Renode? ==> s.tunnel.node == s.locks.conn.at.degraded && !s'.locks.conn.at.Renode?
    ensures !s.locks.conn.at.Recheck? && !s.locks.conn.at.Renode? ==> !s'.locks.conn.at.Renode?
  {
  }

  lemma OthersLeaveTheSwitch(s: State, step: Step, s': State)
    requires !step.SwitchStep? && Next(s, step) == Some(s') && s'.locks.conn.Switching?
    ensures s'.locks.conn == s.locks.conn || !s'.locks.conn.auto || s'.locks.conn.at.Recheck?
  {
    match step
    case OpStep(a) =>
      if s.locks.conn.phase.Entered? {
        assert s' == NextEntered(s, s.locks.conn.kind, a);
      }
    case WalkStep(a) =>
      if NextWalk(s, a) == NextAcceptance(s, a) {
        assert NextAcceptance(s, a) == Some(s');
      }
    case _ =>
  }

  lemma RechecksLast(states: seq<State>, steps: seq<Step>, k: nat)
    requires k < |steps| && |states| == |steps| + 1 && SwitchingAt(states, k + 1)
    ensures forall target, degraded :: Rechecked(states, steps, target, degraded, k) ==>
              Rechecked(states, steps, target, degraded, k + 1)
    ensures forall target, degraded :: Renoded(states, steps, target, degraded, k) ==>
              Renoded(states, steps, target, degraded, k + 1)
    ensures forall target, degraded :: RechecksAt(states, steps, target, degraded, k) ==>
              Rechecked(states, steps, target, degraded, k + 1)
    ensures forall target, degraded :: RenodesAt(states, steps, target, degraded, k) ==>
              Renoded(states, steps, target, degraded, k + 1)
  {
    assert SwitchingAt(states, k) <==> states[k].locks.conn.Switching?;
    forall m: nat | SwitchingSince(states, m, k) && m <= k
      ensures SwitchingSince(states, m, k + 1)
    {
    }
    if SwitchingAt(states, k) {
      assert SwitchingSince(states, k, k + 1);
    }
  }

  lemma MoveHistoryGoesOn(states: seq<State>, steps: seq<Step>, k: nat)
    requires Path(states, steps) && k < |steps| && MoveHistory(states, steps, k)
    ensures MoveHistory(states, steps, k + 1)
  {
    var conn, conn' := states[k].locks.conn, states[k + 1].locks.conn;
    if conn'.Switching? && conn'.auto && !conn'.at.Recheck? {
      assert SwitchingAt(states, k + 1);
      RechecksLast(states, steps, k);
      StepOnPath(states, steps, k);
      if steps[k].SwitchStep? {
        SwitchGetsOn(states[k], steps[k].answer, states[k + 1]);
        if conn.at.Recheck? {
          assert RechecksAt(states, steps, conn.target, conn.at.degraded, k);
        } else if conn.at.Renode? {
          assert RenodesAt(states, steps, conn.target, conn.at.degraded, k);
        }
      } else {
        OthersLeaveTheSwitch(states[k], steps[k], states[k + 1]);
      }
    }
  }

  lemma {:induction false} MovesHaveAHistory(states: seq<State>, steps: seq<Step>, k: nat)
    requires IsRun(states, steps) && k < |states|
    ensures MoveHistory(states, steps, k)
  {
    if k > 0 {
      MovesHaveAHistory(states, steps, k - 1);
      MoveHistoryGoesOn(states, steps, k - 1);
    }
  }

  /**
    The watchdog touches the selector only after it has looked again under connMu, in the same hold: its generation was
    connected and in budget, and the tunnel on the node it found degraded.
   */
  lemma AnAutomaticMoveIsRechecked(states: seq<State>, steps: seq<Step>, k: nat)
    requires IsRun(states, steps) && k < |states|
    requires var conn := states[k].locks.conn; conn.Switching? && conn.auto && (conn.at.Select? || conn.at.Commit?)
    ensures exists degraded :: Rechecked(states, steps, states[k].locks.conn.target, degraded, k)
                               && Renoded(states, steps, states[k].locks.conn.target, degraded, k)
  {
    MovesHaveAHistory(states, steps, k);
  }

  /**
    However an automatic move ends, the watchdog learns of it: it watches on when it was moved or called off, and
    falls back on a reconnect when the engine could not be steered or the new exit carried nothing.
   */
  lemma AnAutomaticMoveTellsTheWatchdog(states: seq<State>, steps: seq<Step>, k: nat)
    requires IsRun(states, steps) && k < |steps| && steps[k].SwitchStep?
    requires states[k].locks.conn.Switching? && states[k + 1].locks.conn == Free
    ensures var conn, s, t := states[k].locks.conn, states[k], states[k + 1];
            && (!conn.auto ==> t.crew == s.crew)
            && (conn.auto ==>
                  && t.crew.health.Some?
                  && t.crew.health.value.pc == (if conn.at.Resolve? || conn.at.Select? || conn.at.Revert? then FailingOver
                                                else Watching)
                  && (conn.at.Commit? ==> t.tunnel == s.tunnel.(status := Connected, node := conn.target))
                  && (!conn.at.Commit? ==> t.tunnel == s.tunnel))
  {
    ReachableInv(states, steps, k);
    StepOnPath(states, steps, k);
    assert NextSwitch(states[k], steps[k].answer) == Some(states[k + 1]);
  }

  // ----- The process watcher -----

  predicate Reporter(pc: ProcPc) {
    pc.Locating? || pc.Reporting?
  }

  /** The watcher of this generation sees the engine's exit, and its generation current. */
  predicate SeesTheExitAt(states: seq<State>, steps: seq<Step>, gen: nat, m: nat)
    requires m < |steps| && |states| == |steps| + 1
  {
    && steps[m].ProcStep? && states[m].crew.proc.Some? && states[m].crew.proc.value.gen == gen
    && states[m].crew.proc.value.pc.Exited? && states[m].clock.generation == gen
  }

  /** The engine was gone when the watcher stopped waiting for it. */
  predicate WaitsInVainAt(states: seq<State>, steps: seq<Step>, gen: nat, m: nat)
    requires m < |steps| && |states| == |steps| + 1
  {
    && steps[m].ProcStep? && states[m].crew.proc.Some? && states[m].crew.proc.value.gen == gen
    && states[m].crew.proc.value.pc.Waiting? && states[m].engine.running == 0
  }

  ghost predicate ProcHistory(states: seq<State>, steps: seq<Step>, k: nat)
    requires k <= |steps| && |states| == |steps| + 1
  {
    states[k].crew.proc.Some? ==>
      var p := states[k].crew.proc.value;
      && (!p.pc.Waiting? ==> exists m :: 0 <= m < k && WaitsInVainAt(states, steps, p.gen, m))
      && (Reporter(p.pc) ==> exists m :: 0 <= m < k && SeesTheExitAt(states, steps, p.gen, m))
  }

  lemma ProcGetsOn(s: State, a: Answer, s': State)
    requires NextProc(s, a) == Some(s') && s'.crew.proc.Some?
    ensures var p, q := s.crew.proc.value, s'.crew.proc.value;
            && p.gen == q.gen && !q.pc.Waiting? && (p.pc.Waiting? ==> s.engine.running == 0 && !Reporter(q.pc))
            && (Reporter(q.pc) ==> Reporter(p.pc) || (p.pc.Exited? && s.clock.generation == p.gen))
  {
  }

  lemma OthersLeaveTheWatcher(s: State, step: Step, s': State)
    requires !step.ProcStep? && Next(s, step) == Some(s')
    ensures s'.crew.proc == s.crew.proc || (s'.crew.proc.Some? && s'.crew.proc.value.pc.Waiting?)
  {
    match step
    case OpStep(a) =>
      if s.locks.conn.phase.Entered? {
        assert s' == NextEntered(s, s.locks.conn.kind, a);
      }
    case WalkStep(a) =>
      if NextWalk(s, a) == NextAcceptance(s, a) {
        assert NextAcceptance(s, a) == Some(s');
      }
    case _ =>
  }

  lemma ProcHistoryGoesOn(states: seq<State>, steps: seq<Step>, k: nat)
    requires Path(states, steps) && k < |steps| && ProcHistory(states, steps, k)
    ensures ProcHistory(states, steps, k + 1)
  {
    StepOnPath(states, steps, k);
    if states[k + 1].crew.proc.Some? {
      if steps[k].ProcStep? {
        ProcGetsOn(states[k], steps[k].answer, states[k + 1]);
        var p := states[k].crew.proc.value;
        assert p.pc.Waiting? ==> WaitsInVainAt(states, steps, p.gen, k);
        assert p.pc.Exited? && states[k].clock.generation == p.gen ==> SeesTheExitAt(states, steps, p.gen, k);
      } else {
        OthersLeaveTheWatcher(states[k], steps[k], states[k + 1]);
      }
    }
  }

  lemma {:induction false} WatchersHaveAHistory(states: seq<State>, steps: seq<Step>, k: nat)
    requires IsRun(states, steps) && k < |states|
    ensures ProcHistory(states, steps, k)
  {
    if k > 0 {
      WatchersHaveAHistory(states, steps, k - 1);
      ProcHistoryGoesOn(states, steps, k - 1);
    }
  }

  /** No crash is reported that did not happen: the reporter has seen the engine gone, and its generation current. */
  lemma AReportedCrashHappened(states: seq<State>, steps: seq<Step>, k: nat)
    requires IsRun(states, steps) && k < |states|
    requires states[k].crew.proc.Some? && states[k].crew.proc.value.pc.Reporting?
    ensures var gen := states[k].crew.proc.value.gen;
            && (exists m :: 0 <= m < k && WaitsInVainAt(states, steps, gen, m))
            && (exists m :: 0 <= m < k && SeesTheExitAt(states, steps, gen, m))
  {
    WatchersHaveAHistory(states, steps, k);
  }

  // ----- The interface watcher -----

  /** An interface watcher that sees its interface gone can stop the engine, by its own two steps. */
  lemma TheInterfaceWatcherCanStop(states: seq<State>, steps: seq<Step>, p: Poller)
      returns (onward: seq<State>, further: seq<Step>)
    requires IsRun(states, steps)
    requires p in Last(states).crew.pollers && !p.stopping && !Over(Last(states).clock, p.gen)
    ensures Path(onward, further) && onward[0] == Last(states)
    ensures forall i :: 0 <= i < |further| ==> further[i].PollerStep? && further[i].poller.gen == p.gen
    ensures var s, t := Last(states), Last(onward);
            t == s.(engine := s.engine.(running := 0), crew := s.crew.(pollers := s.crew.pollers - multiset{p}))
  {
    var s := Last(states);
    var q := p.(stopping := true);
    var mid, t := PollerStops(s, p, q);
    onward, further := [s, mid, t], [PollerStep(p, true), PollerStep(q, false)];
    assert Taken(onward, further, 0) && Taken(onward, further, 1);
  }

  lemma PollerStops(s: State, p: Poller, q: Poller) returns (mid: State, t: State)
    requires p in s.crew.pollers && !p.stopping && !Over(s.clock, p.gen) && q == p.(stopping := true)
    ensures NextPoller(s, p, true) == Some(mid) && NextPoller(mid, q, false) == Some(t)
    ensures t == s.(engine := s.engine.(running := 0), crew := s.crew.(pollers := s.crew.pollers - multiset{p}))
  {
    mid := NextPoller(s, p, true).value;
    t := NextPoller(mid, q, false).value;
    assert s.crew.pollers - multiset{p} + multiset{q} - multiset{q} == s.crew.pollers - multiset{p};
  }
}
