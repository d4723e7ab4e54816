/**
  What a connect that could not be started leaves published (core/control/connect.go, health.go): a re-apply's Error
  over an engine that still runs, and a failover's Connected over none.
 */
module LifecycleRefusal {
  import opened Wrappers
  import opened Lifecycle
  import opened LifecycleInvariant
  import opened LifecycleSafety
  import opened LifecycleMislabel

  // ----- A re-apply's error -----

  /** connMu's holder is a re-apply past its own checks. */
  predicate ReappliesAt(states: seq<State>, i: nat)
    requires i < |states|
  {
    states[i].locks.conn.Op? && states[i].locks.conn.kind == Reapply && !states[i].locks.conn.phase.Entered?
  }

  /** The engine dies, or the interface watcher stops it. */
  predicate EngineEnds(step: Step) {
    step.EngineDies? || (step.PollerStep? && step.poller.stopping)
  }

  predicate EndsAt(steps: seq<Step>, i: nat)
    requires i < |steps|
  {
    EngineEnds(steps[i])
  }

  ghost predicate NoneEnds(steps: seq<Step>, j: nat, k: nat)
    requires j <= k <= |steps|
  {
    forall i :: j <= i < k ==> !EndsAt(steps, i)
  }

  /** No walk that could start or stop an engine. */
  predicate Quiet(walk: Option<Walk>) {
    walk.Some? ==> Published(walk.value.pc)
  }

  lemma OpLeavesTheEngine(s: State, a: Answer, s': State)
    requires NextOp(s, a) == Some(s') && Quiet(s.crew.walk) && Committed(s'.locks.conn)
    ensures s'.engine == s.engine && s'.crew.walk == s.crew.walk
  {
    match s.locks.conn.phase
    case Entered => assert s' == NextEntered(s, s.locks.conn.kind, a);
    case _ =>
  }

  lemma StepLeavesTheEngine(s: State, step: Step, s': State)
    requires s.engine.running <= 1 && Next(s, step) == Some(s') && Quiet(s.crew.walk)
    requires s.locks.conn.Op? && Committed(s'.locks.conn)
    ensures Quiet(s'.crew.walk)
    ensures s'.engine.running > 0 <==> s.engine.running > 0 && !EngineEnds(step)
  {
    match step
    case OpStep(a) => OpLeavesTheEngine(s, a, s');
    case WalkStep(a) => PublishedLeavesTheEngine(s, a, s');
    case _ =>
  }

  lemma PublishedLeavesTheEngine(s: State, a: Answer, s': State)
    requires NextWalk(s, a) == Some(s') && Quiet(s.crew.walk)
    ensures s'.engine == s.engine && Quiet(s'.crew.walk)
  {
    assert NextAcceptance(s, a) == Some(s');
  }

  /** At the re-apply's look at the state no walk is under way. */
  lemma LookLeavesTheEngine(s: State, a: Answer, s': State)
    requires Inv(s) && s.locks.conn == Op(Reapply, Entered) && NextOp(s, a) == Some(s') && s'.locks.conn.Op?
    ensures s'.engine == s.engine && Quiet(s'.crew.walk)
  {
    assert s' == NextEntered(s, Reapply, a);
  }

  lemma CommittedCameFrom(s: State, step: Step, s': State)
    requires Next(s, step) == Some(s') && s.locks.conn.Op? && !s.locks.conn.phase.Entered? && Committed(s'.locks.conn)
    ensures Committed(s.locks.conn)
  {
    match step
    case WalkStep(a) => WalkKeepsConn(s, a, s');
    case _ =>
  }

  lemma WalkKeepsConn(s: State, a: Answer, s': State)
    requires NextWalk(s, a) == Some(s')
    ensures s'.locks.conn == s.locks.conn
  {
    var pc := s.crew.walk.value.pc;
    if Accepting(pc) || pc.Up? {
      assert NextAcceptance(s, a) == Some(s');
    }
  }

  /** While one re-apply holds connMu and has torn nothing down, the engine runs until it dies or is stopped. */
  lemma {:induction false} EngineOutlasts(states: seq<State>, steps: seq<Step>, j: nat, k: nat)
    requires IsRun(states, steps) && j < k < |states|
    requires states[j].locks.conn == Op(Reapply, Entered) && steps[j].OpStep?
    requires forall i :: j < i <= k ==> ReappliesAt(states, i)
    requires Committed(states[k].locks.conn)
    ensures Quiet(states[k].crew.walk)
    ensures states[k].engine.running > 0 <==> states[j].engine.running > 0 && NoneEnds(steps, j, k)
  {
    assert ReappliesAt(states, k);
    OneMoreStep(steps, j, k - 1);
    if k == j + 1 {
      AfterTheLook(states, steps, j);
    } else {
      assert ReappliesAt(states, k - 1);
      WhileItHolds(states, steps, k - 1);
      EngineOutlasts(states, steps, j, k - 1);
    }
  }

  lemma AfterTheLook(states: seq<State>, steps: seq<Step>, j: nat)
    requires IsRun(states, steps) && j < |steps|
    requires states[j].locks.conn == Op(Reapply, Entered) && steps[j].OpStep? && states[j + 1].locks.conn.Op?
    ensures Quiet(states[j + 1].crew.walk) && states[j + 1].engine == states[j].engine
  {
    ReachableInv(states, steps, j);
    StepOnPath(states, steps, j);
    LookLeavesTheEngine(states[j], steps[j].answer, states[j + 1]);
  }

  lemma WhileItHolds(states: seq<State>, steps: seq<Step>, i: nat)
    requires IsRun(states, steps) && i < |steps| && ReappliesAt(states, i) && Committed(states[i + 1].locks.conn)
    ensures Committed(states[i].locks.conn)
    ensures Quiet(states[i].crew.walk) ==>
              && Quiet(states[i + 1].crew.walk)
              && (states[i + 1].engine.running > 0 <==> states[i].engine.running > 0 && !EngineEnds(steps[i]))
  {
    ReachableInv(states, steps, i);
    StepOnPath(states, steps, i);
    CommittedCameFrom(states[i], steps[i], states[i + 1]);
    if Quiet(states[i].crew.walk) {
      StepLeavesTheEngine(states[i], steps[i], states[i + 1]);
    }
  }

  lemma OneMoreStep(steps: seq<Step>, j: nat, k: nat)
    requires j <= k < |steps|
    ensures NoneEnds(steps, j, k + 1) <==> NoneEnds(steps, j, k) && !EngineEnds(steps[k])
  {
    assert EndsAt(steps, k) <==> EngineEnds(steps[k]);
  }

  /**
    A re-apply that is refused publishes Error, and an engine is still running under that Error exactly when the
    refusal came before the re-apply's own teardown and the engine has run since the re-apply took its look.
   */
  lemma ReapplyErrsOverAnEngineIff(states: seq<State>, steps: seq<Step>, j: nat, k: nat)
    requires IsRun(states, steps) && j < k < |steps|
    requires states[j].locks.conn == Op(Reapply, Entered) && steps[j].OpStep?
    requires forall i :: j < i <= k ==> ReappliesAt(states, i)
    requires states[k].locks.conn.Op? && states[k].locks.conn.phase.Refusing? && steps[k].OpStep?
    ensures states[k + 1].tunnel.status == Error && states[k + 1].locks.conn == Free
    ensures states[k + 1].engine.running > 0
            <==> !states[k].locks.conn.phase.torn && states[j].engine.running > 0 && NoneEnds(steps, j, k)
  {
    assert ReappliesAt(states, k);
    StepOnPath(states, steps, k);
    if states[k].locks.conn.phase.torn {
      ReachableInv(states, steps, k);
    } else {
      EngineOutlasts(states, steps, j, k);
    }
  }

  lemma Reapplies() returns (r: Trail)
    ensures Reaches(r, At(Op(Reapply, Begun), multiset{}, Waiting, 1, "x", Connected, "a"))
  {
    r := Publishes();
    var t := At(Free, multiset{}, Waiting, 1, "x", Connected, "a");
    r, t := Extend(r, t, OtherSetting);
    r, t := Extend(r, t, Acquire(Reapply));
    r, t := Extend(r, t, OpStep(Works()));
  }

  /** From the start of the daemon: a setting is changed, its re-apply refused, and the engine runs on under Error. */
  lemma AReapplyErrsOverAnEngine() returns (states: seq<State>, steps: seq<Step>)
    ensures IsRun(states, steps)
    ensures var t := Last(states);
            t.tunnel.status == Error && t.engine.running == 1 && t.locks.conn == Free && t.locks.pending == multiset{}
  {
    var r := Reapplies();
    var t := At(Op(Reapply, Begun), multiset{}, Waiting, 1, "x", Connected, "a");
    r, t := Extend(r, t, OpStep(Fails()));
    r, t := Extend(r, t, OpStep(Works()));
    return r.states, r.steps;
  }

  // ----- A failover's Connected -----

  /** The queued failover at work, with the watchers still there. */
  function FailingOverAt(phase: Phase, status: Status): State {
    At(Op(QUEUED, phase), multiset{}, Waiting, 1, "x", status, "a")
  }

  lemma FailoverBegins() returns (r: Trail)
    ensures Reaches(r, FailingOverAt(Begun, Reconnecting))
  {
    r := Queues();
    var t := At(Free, multiset{QUEUED}, Waiting, 1, "x", Connected, "a");
    r, t := Extend(r, t, Acquire(QUEUED));
    assert t == FailingOverAt(Entered, Connected);
    r, t := Extend(r, t, OpStep(Works()));
    r, t := Extend(r, t, OpStep(Works()));
    r, t := Extend(r, t, OpStep(Works()));
  }

  lemma FailoverIsReady() returns (r: Trail)
    ensures Reaches(r, FailingOverAt(Ready(Some(PLAN)), Reconnecting))
  {
    r := FailoverBegins();
    var t := FailingOverAt(Begun, Reconnecting);
    r, t := Extend(r, t, OpStep(Works()));
    r, t := Extend(r, t, OpStep(Works()));
    r, t := Extend(r, t, OpStep(Works()));
  }

  /** Its teardown: the generation has moved and the engine is stopped. */
  function Draining(crew: Crew): State {
    State(Locks(Op(QUEUED, Phase.Draining(Some(PLAN))), Open, multiset{}), Clock(3, None, {2}), crew,
          Engine(0, Some("x")), Tunnel(Reconnecting, "a", None), PREFS)
  }

  lemma FailoverTearsDown() returns (r: Trail)
    ensures var crew := FailingOverAt(Begun, Reconnecting).crew; Reaches(r, Draining(crew))
  {
    r := FailoverIsReady();
    var t := FailingOverAt(Ready(Some(PLAN)), Reconnecting);
    r, t := Extend(r, t, OpStep(Works()));
    r, t := Extend(r, t, OpStep(Works()));
    r, t := Extend(r, t, OpStep(Works()));
  }

  lemma WatchersLeave() returns (r: Trail)
    ensures Reaches(r, Draining(Crew(None, None, None, POLLERS)))
  {
    r := FailoverTearsDown();
    var t := Draining(FailingOverAt(Begun, Reconnecting).crew);
    r, t := Extend(r, t, ProcStep(Works()));
    r, t := Extend(r, t, HealthStep(Works()));
  }

  lemma PollersLeave() returns (r: Trail)
    ensures Reaches(r, Draining(Crew(None, None, None, multiset{})))
  {
    r := WatchersLeave();
    var p := Poller(2, false);
    var t := Draining(Crew(None, None, None, POLLERS));
    assert POLLERS - multiset{p} == multiset{p, p} && multiset{p, p} - multiset{p} == multiset{p};
    r, t := Extend(r, t, PollerStep(p, false));
    r, t := Extend(r, t, PollerStep(p, false));
    r, t := Extend(r, t, PollerStep(p, false));
  }

  /** The system proxy cannot be cleared, and the failover takes that error for a refusal that left its engine up. */
  lemma ATornFailoverConnectsNothing() returns (states: seq<State>, steps: seq<Step>)
    ensures IsRun(states, steps)
    ensures var t := Last(states);
            && t.tunnel.status == Connected && t.tunnel.node == "a" && t.tunnel.live.None?
            && t.engine.running == 0 && Drainable(t.crew) && t.locks.conn == Free && t.locks.pending == multiset{}
  {
    var r := PollersLeave();
    var t := Draining(Crew(None, None, None, multiset{}));
    r, t := Extend(r, t, OpStep(Works()));
    r, t := Extend(r, t, OpStep(Fails()));
    r, t := Extend(r, t, OpStep(Works()));
    return r.states, r.steps;
  }
}
