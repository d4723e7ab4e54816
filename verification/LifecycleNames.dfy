/**
  Wherever a node is on its way to being published, it is named: the walk's attempt, the watchdog's exits, the
  target of a switch (core/control/connect.go, health.go, hotswitch.go).
 */
module LifecycleNames {
  import opened Wrappers
  import opened Lifecycle
  import opened LifecycleInvariant

  predicate NamedWalk(walk: Option<Walk>) {
    walk.Some? && !walk.value.pc.Top? && !walk.value.pc.Choosing? && !walk.value.pc.StartFailed?
    && !walk.value.pc.LocalFailed? && !walk.value.pc.StopAndExit? && !walk.value.pc.Failing? ==>
      walk.value.node != "" && TagOf(walk.value.plan.tags, walk.value.node) != ""
  }

  predicate NamedHealth(health: Option<HealthWatch>) {
    health.Some? ==> health.value.node != "" && health.value.active != ""
  }

  predicate NamedKind(kind: Kind) {
    kind.Failover? ==> kind.node != ""
  }

  ghost predicate NamedLocks(locks: Locks) {
    && (locks.conn.Op? ==> NamedKind(locks.conn.kind))
    && (locks.conn.Switching? && Steering(locks.conn) ==> locks.conn.target != "")
    && (forall kind :: kind in locks.pending ==> NamedKind(kind))
  }

  predicate NamedTunnel(t: Tunnel) {
    t.status == Connected ==> t.node != ""
  }

  ghost predicate NamesInv(s: State) {
    NamedWalk(s.crew.walk) && NamedHealth(s.crew.health) && NamedLocks(s.locks) && NamedTunnel(s.tunnel)
  }

  lemma EnteredKeepsNames(s: State, a: Answer, s': State)
    requires NamesInv(s) && NextOp(s, a) == Some(s')
    requires s.locks.conn.phase.Entered?
    ensures NamesInv(s')
  {
  }

  lemma CommittedKeepsNames(s: State, a: Answer, s': State)
    requires NamesInv(s) && NextOp(s, a) == Some(s')
    requires Committed(s.locks.conn)
    ensures NamesInv(s')
  {
  }

  lemma TeardownKeepsNames(s: State, a: Answer, s': State)
    requires NamesInv(s) && NextOp(s, a) == Some(s')
    requires !s.locks.conn.phase.Entered? && !Committed(s.locks.conn)
    ensures NamesInv(s')
  {
  }

  lemma SwitchChecksKeepNames(s: State, a: Answer, s': State)
    requires NamesInv(s) && NextSwitch(s, a) == Some(s')
    requires s.locks.conn.at.Recheck? || s.locks.conn.at.Renode? || s.locks.conn.at.Resolve?
    ensures NamesInv(s')
  {
  }

  lemma SwitchMovesKeepNames(s: State, a: Answer, s': State)
    requires NamesInv(s) && NextSwitch(s, a) == Some(s')
    requires Steering(s.locks.conn)
    ensures NamesInv(s')
  {
  }

  lemma GatesKeepNames(s: State, a: Answer, s': State)
    requires NamesInv(s) && NextWalk(s, a) == Some(s')
    requires Accepting(s.crew.walk.value.pc) && !Published(s.crew.walk.value.pc)
    requires s.crew.walk.value.pc.Checking? || s.crew.walk.value.pc.Activating? || s.crew.walk.value.pc.Arming?
    ensures NamesInv(s')
  {
  }

  lemma AcceptanceKeepsNames(s: State, a: Answer, s': State)
    requires NamesInv(s) && NextWalk(s, a) == Some(s')
    requires Accepting(s.crew.walk.value.pc) && !Published(s.crew.walk.value.pc)
    requires !s.crew.walk.value.pc.Checking? && !s.crew.walk.value.pc.Activating? && !s.crew.walk.value.pc.Arming?
    ensures NamesInv(s')
  {
  }

  lemma HandoverKeepsNames(s: State, a: Answer, s': State)
    requires NamesInv(s) && NextWalk(s, a) == Some(s')
    requires Published(s.crew.walk.value.pc)
    ensures NamesInv(s')
  {
  }

  lemma StoppedKeepNames(s: State, a: Answer, s': State)
    requires NamesInv(s) && NextWalk(s, a) == Some(s') && !Accepting(s.crew.walk.value.pc)
    requires Stopped(s.crew.walk.value.pc)
    ensures NamesInv(s')
  {
  }

  lemma RunningKeepNames(s: State, a: Answer, s': State)
    requires NamesInv(s) && NextWalk(s, a) == Some(s') && !Accepting(s.crew.walk.value.pc)
    requires !Stopped(s.crew.walk.value.pc)
    ensures NamesInv(s')
  {
  }

  lemma ProcKeepsNames(s: State, a: Answer, s': State)
    requires NamesInv(s) && NextProc(s, a) == Some(s')
    ensures NamesInv(s')
  {
  }

  lemma HealthKeepsNames(s: State, a: Answer, s': State)
    requires NamesInv(s) && NextHealth(s, a) == Some(s')
    ensures NamesInv(s')
  {
  }

  lemma EnvKeepsNames(s: State, step: Step, s': State)
    requires NamesInv(s) && EnvStep(step) && NextEnv(s, step) == Some(s')
    ensures NamesInv(s')
  {
  }

  lemma NextKeepsNames(s: State, step: Step, s': State)
    requires NamesInv(s) && Next(s, step) == Some(s')
    ensures NamesInv(s')
  {
    match step
    case OpStep(a) =>
      if s.locks.conn.phase.Entered? {
        EnteredKeepsNames(s, a, s');
      } else if Committed(s.locks.conn) {
        CommittedKeepsNames(s, a, s');
      } else {
        TeardownKeepsNames(s, a, s');
      }
    case SwitchStep(a) =>
      if Steering(s.locks.conn) {
        SwitchMovesKeepNames(s, a, s');
      } else {
        SwitchChecksKeepNames(s, a, s');
      }
    case WalkStep(a) =>
      var pc := s.crew.walk.value.pc;
      if Published(pc) {
        HandoverKeepsNames(s, a, s');
      } else if pc.Checking? || pc.Activating? || pc.Arming? {
        GatesKeepNames(s, a, s');
      } else if Accepting(pc) {
        AcceptanceKeepsNames(s, a, s');
      } else if Stopped(pc) {
        StoppedKeepNames(s, a, s');
      } else {
        RunningKeepNames(s, a, s');
      }
    case ProcStep(a) => ProcKeepsNames(s, a, s');
    case HealthStep(a) => HealthKeepsNames(s, a, s');
    case PollerStep(_, _) =>
    case _ => EnvKeepsNames(s, step, s');
  }

  lemma {:induction false} PathKeepsNames(states: seq<State>, steps: seq<Step>, k: nat)
    requires Path(states, steps) && NamesInv(states[0]) && k < |states|
    ensures NamesInv(states[k])
  {
    if k == 0 {
    } else {
      PathKeepsNames(states, steps, k - 1);
      StepOnPath(states, steps, k - 1);
      NextKeepsNames(states[k - 1], steps[k - 1], states[k]);
    }
  }
}
