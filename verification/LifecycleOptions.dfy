/**
  No option change is lost (core/control/connect.go, daemon.go): TLS fragmentation, the tun stack and the
  multihop chain, set at any point of any connection's life.
 */
module LifecycleOptions {
  import opened Wrappers
  import opened Lifecycle
  import opened LifecycleInvariant
  import opened LifecycleNames
  import opened LifecycleSafety

  /** Connected is published, or connMu's holder may publish it again, over the configuration now live. */
  predicate Claimed(status: Status, conn: Holder) {
    || (status == Connected && !Fenced(conn) && !(conn.Op? && conn.phase.Drained?))
    || Steering(conn)
  }

  /** connMu's holder is re-applying the options of this generation. */
  predicate Applying(conn: Holder, generation: nat) {
    conn.Op? && (conn.kind == Reapply || conn.kind == Reconcile(generation)) && (conn.phase.Entered? || Committed(conn))
  }

  /** The live configuration has the desired options, or somebody is about to see that it does, or said it could not. */
  predicate Covered(locks: Locks, generation: nat, walk: Option<Walk>, t: Tunnel, prefs: Prefs) {
    t.live.Some?
    && (|| t.live.value.baked == Bake(prefs.desired, t.live.value.tagOf)
        || prefs.reported
        || Reapply in locks.pending
        || Reconcile(generation) in locks.pending
        || Applying(locks.conn, generation)
        || (walk.Some? && Published(walk.value.pc)))
  }

  predicate OptionsInv(s: State) {
    Claimed(s.tunnel.status, s.locks.conn) && s.tunnel.live.Some? ==>
      Covered(s.locks, s.clock.generation, s.crew.walk, s.tunnel, s.prefs)
  }

  // ----- Every step keeps it -----

  lemma EnteredKeepsOptions(s: State, a: Answer, s': State)
    requires LiveInv(s.tunnel, s.clock.generation, s.locks.conn, s.crew.walk)
    requires NamedTunnel(s.tunnel)
    requires OptionsInv(s) && NextOp(s, a) == Some(s')
    requires s.locks.conn.phase.Entered?
    ensures OptionsInv(s')
  {
  }

  lemma ConfirmedKeepsOptions(s: State, a: Answer, s': State)
    requires LiveInv(s.tunnel, s.clock.generation, s.locks.conn, s.crew.walk)
    requires QueuedInv(s.locks.conn, s.clock.generation)
    requires OptionsInv(s) && NextOp(s, a) == Some(s')
    requires Committed(s.locks.conn) && !s.locks.conn.phase.Ready?
    ensures OptionsInv(s')
  {
  }

  lemma TeardownKeepsOptions(s: State, a: Answer, s': State)
    requires LiveInv(s.tunnel, s.clock.generation, s.locks.conn, s.crew.walk)
    requires OptionsInv(s) && NextOp(s, a) == Some(s')
    requires s.locks.conn.phase.Ready? || (!s.locks.conn.phase.Entered? && !Committed(s.locks.conn))
    ensures OptionsInv(s')
  {
  }

  lemma SwitchChecksKeepOptions(s: State, a: Answer, s': State)
    requires LiveInv(s.tunnel, s.clock.generation, s.locks.conn, s.crew.walk)
    requires OptionsInv(s) && NextSwitch(s, a) == Some(s')
    requires s.locks.conn.at.Recheck? || s.locks.conn.at.Renode? || s.locks.conn.at.Resolve?
    ensures OptionsInv(s')
  {
  }

  lemma SwitchMovesKeepOptions(s: State, a: Answer, s': State)
    requires LiveInv(s.tunnel, s.clock.generation, s.locks.conn, s.crew.walk)
    requires OptionsInv(s) && NextSwitch(s, a) == Some(s')
    requires Steering(s.locks.conn)
    ensures OptionsInv(s')
  {
  }

  lemma WalkKeepsOptions(s: State, a: Answer, s': State)
    requires LiveInv(s.tunnel, s.clock.generation, s.locks.conn, s.crew.walk)
    requires OptionsInv(s) && NextWalk(s, a) == Some(s')
    requires !Inner(s.crew.walk.value.pc)
    ensures OptionsInv(s')
  {
  }

  lemma AcceptanceKeepsOptions(s: State, a: Answer, s': State)
    requires LiveInv(s.tunnel, s.clock.generation, s.locks.conn, s.crew.walk)
    requires GenerationInv(s.clock, s.locks.conn, s.crew)
    requires OptionsInv(s) && NextWalk(s, a) == Some(s')
    requires Inner(s.crew.walk.value.pc) && !Published(s.crew.walk.value.pc)
    ensures OptionsInv(s')
  {
  }

  lemma HandoverKeepsOptions(s: State, a: Answer, s': State)
    requires LiveInv(s.tunnel, s.clock.generation, s.locks.conn, s.crew.walk)
    requires GenerationInv(s.clock, s.locks.conn, s.crew)
    requires OptionsInv(s) && NextWalk(s, a) == Some(s')
    requires Published(s.crew.walk.value.pc)
    ensures OptionsInv(s')
  {
  }

  lemma ProcKeepsOptions(s: State, a: Answer, s': State)
    requires LiveInv(s.tunnel, s.clock.generation, s.locks.conn, s.crew.walk)
    requires OptionsInv(s) && NextProc(s, a) == Some(s')
    ensures OptionsInv(s')
  {
  }

  lemma HealthKeepsOptions(s: State, a: Answer, s': State)
    requires LiveInv(s.tunnel, s.clock.generation, s.locks.conn, s.crew.walk)
    requires OptionsInv(s) && NextHealth(s, a) == Some(s')
    ensures OptionsInv(s')
  {
  }

  lemma AcquireKeepsOptions(s: State, step: Step, s': State)
    requires OptionsInv(s) && (step.Acquire? || step.AcquireSwitch?) && NextEnv(s, step) == Some(s')
    ensures OptionsInv(s')
  {
  }

  lemma SettingsKeepOptions(s: State, step: Step, s': State)
    requires LiveInv(s.tunnel, s.clock.generation, s.locks.conn, s.crew.walk)
    requires OptionsInv(s) && EnvStep(step) && !step.Acquire? && !step.AcquireSwitch? && NextEnv(s, step) == Some(s')
    ensures OptionsInv(s')
  {
  }

  lemma NextKeepsOptions(s: State, step: Step, s': State)
    requires Inv(s) && NamesInv(s) && OptionsInv(s) && Next(s, step) == Some(s')
    ensures OptionsInv(s')
  {
    match step
    case OpStep(a) =>
      var phase := s.locks.conn.phase;
      if phase.Entered? {
        EnteredKeepsOptions(s, a, s');
      } else if Committed(s.locks.conn) && !phase.Ready? {
        ConfirmedKeepsOptions(s, a, s');
      } else {
        TeardownKeepsOptions(s, a, s');
      }
    case SwitchStep(a) =>
      if Steering(s.locks.conn) {
        SwitchMovesKeepOptions(s, a, s');
      } else {
        SwitchChecksKeepOptions(s, a, s');
      }
    case WalkStep(a) =>
      var pc := s.crew.walk.value.pc;
      if Published(pc) {
        HandoverKeepsOptions(s, a, s');
      } else if Inner(pc) {
        AcceptanceKeepsOptions(s, a, s');
      } else {
        WalkKeepsOptions(s, a, s');
      }
    case ProcStep(a) => ProcKeepsOptions(s, a, s');
    case HealthStep(a) => HealthKeepsOptions(s, a, s');
    case PollerStep(_, _) =>
    case Acquire(_) => AcquireKeepsOptions(s, step, s');
    case AcquireSwitch(_) => AcquireKeepsOptions(s, step, s');
    case _ => SettingsKeepOptions(s, step, s');
  }

  lemma {:induction false} PathKeepsOptions(states: seq<State>, steps: seq<Step>, k: nat)
    requires Path(states, steps) && k < |states|
    requires Inv(states[0]) && NamesInv(states[0]) && OptionsInv(states[0])
    ensures OptionsInv(states[k])
  {
    if k == 0 {
    } else {
      PathKeepsOptions(states, steps, k - 1);
      PathKeepsInv(states, steps, k - 1);
      PathKeepsNames(states, steps, k - 1);
      StepOnPath(states, steps, k - 1);
      NextKeepsOptions(states[k - 1], steps[k - 1], states[k]);
    }
  }

  /**
    In every state of every run that publishes Connected and is not being torn down, where the options built into
    the running configuration differ from the desired ones: a set-command still has its re-apply to run, or a
    reconcile of this generation is queued, or one of the two is at work, or the walk has yet to compare, or a failed
    re-apply has been reported since the last change.  Without a torn failover there is a running configuration.
   */
  lemma NoOptionIsLost(states: seq<State>, steps: seq<Step>, k: nat)
    requires IsRun(states, steps) && k < |states|
    requires var t := states[k];
             t.tunnel.status == Connected && !Fenced(t.locks.conn) && !Emptied(t.locks.conn)
    ensures var t := states[k];
            && (NoTornFailover(states, steps, k) ==> t.tunnel.live.Some?)
            && (t.tunnel.live.None? ==> t.engine.running == 0 && Drainable(t.crew))
            && (t.tunnel.live.Some? && t.tunnel.live.value.baked != Bake(t.prefs.desired, t.tunnel.live.value.tagOf) ==>
                  || Reapply in t.locks.pending
                  || Reconcile(t.clock.generation) in t.locks.pending
                  || Applying(t.locks.conn, t.clock.generation)
                  || (t.crew.walk.Some? && Published(t.crew.walk.value.pc))
                  || t.prefs.reported)
  {
    InitialInv(states[0]);
    PathKeepsOptions(states, steps, k);
    PathKeepsInv(states, steps, k);
    if NoTornFailover(states, steps, k) {
      ConnectedMeansLive(states, steps, k);
    }
  }

  lemma InitialInv(s: State)
    requires Initial(s)
    ensures Inv(s) && NamesInv(s) && OptionsInv(s)
  {
  }

  /** With everything queued run and connMu free, a connected tunnel runs the desired options or says it could not. */
  lemma SettledMeansApplied(states: seq<State>, steps: seq<Step>, k: nat)
    requires IsRun(states, steps) && k < |states|
    requires var t := states[k];
             t.tunnel.status == Connected && t.locks.conn == Free && t.locks.pending == multiset{} && t.crew.walk.None?
    ensures var t := states[k];
            && (NoTornFailover(states, steps, k) ==> t.tunnel.live.Some?)
            && (t.tunnel.live.Some? ==>
                  t.tunnel.live.value.baked == Bake(t.prefs.desired, t.tunnel.live.value.tagOf) || t.prefs.reported)
  {
    NoOptionIsLost(states, steps, k);
  }
}
