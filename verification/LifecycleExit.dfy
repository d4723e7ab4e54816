/**
  The exit that is reported is the exit traffic takes (core/control/hotswitch.go, health.go, connect.go): when the
  published node's tag is the selector's last setting, and the two ways it can come not to be.
 */
module LifecycleExit {
  import opened Wrappers
  import opened Lifecycle
  import opened LifecycleInvariant
  import opened LifecycleNames

  /** What a client sees: a settled connection is on the exit it names. */
  predicate ExitAgrees(s: State) {
    s.locks.conn == Free && s.tunnel.status == Connected && s.tunnel.live.Some?
    && s.tunnel.live.value.gen == s.clock.generation ==>
      Agrees(s.tunnel.live.value.tagOf, s.tunnel.node, s.engine.selected)
  }

  // ----- The invariant -----

  predicate Moved(conn: Holder) {
    conn.Switching? && (conn.at.Confirm? || conn.at.Revert? || conn.at.Commit?)
  }

  predicate Pinned(pc: WalkPc) {
    (pc.Probing? && pc.pinned) || pc.Up? || (Accepting(pc) && !Published(pc))
  }

  predicate PinnedInv(walk: Option<Walk>, selected: Option<Tag>) {
    walk.Some? && Pinned(walk.value.pc) ==> Agrees(walk.value.plan.tags, walk.value.node, selected)
  }

  predicate SwitchInv(conn: Holder, t: Tunnel, selected: Option<Tag>) {
    Steering(conn) && conn.Switching? && t.live.Some? ==>
      var tags := t.live.value.tagOf;
      && (Moved(conn) ==> Agrees(tags, conn.target, selected))
      && (!conn.at.Commit? ==>
            && conn.at.tag == TagOf(tags, conn.target) && conn.at.tag != ""
            && (t.status == Connected ==> conn.at.prevTag == TagOf(tags, t.node) && conn.at.prevTag != ""))
  }

  predicate FailoverInv(conn: Holder, t: Tunnel, selected: Option<Tag>) {
    Committed(conn) && conn.kind.Failover? && !conn.phase.Confirmed? && t.live.Some? ==>
      Agrees(t.live.value.tagOf, conn.kind.node, selected)
  }

  predicate PublishedInv(conn: Holder, t: Tunnel, selected: Option<Tag>) {
    t.status == Connected && t.live.Some? && !Moved(conn) ==> Agrees(t.live.value.tagOf, t.node, selected)
  }

  predicate ExitInv(s: State) {
    && PinnedInv(s.crew.walk, s.engine.selected)
    && SwitchInv(s.locks.conn, s.tunnel, s.engine.selected)
    && FailoverInv(s.locks.conn, s.tunnel, s.engine.selected)
    && PublishedInv(s.locks.conn, s.tunnel, s.engine.selected)
  }

  // ----- The two steps that can break it -----

  /** A switch did not hold up, and the call that puts the old exit back fails as well. */
  predicate RevertFails(s: State, step: Step) {
    && step.SwitchStep? && s.locks.conn.Switching? && s.locks.conn.at.Revert? && s.tunnel.status == Connected
    && !step.answer.ok && s.locks.conn.at.tag != s.locks.conn.at.prevTag
  }

  /**
    A failover's second look finds the node it was queued for, though the tunnel its first look found connected no
    longer is: between the two, a watcher has written a crash report (health.go:198).
   */
  predicate ReadsACrashReport(s: State, step: Step) {
    && step.OpStep? && s.locks.conn.Op? && s.locks.conn.phase.Confirmed? && s.locks.conn.kind.Failover?
    && s.tunnel.node == s.locks.conn.kind.node && step.answer.ok && s.tunnel.status != Connected
  }

  /** The crash report names another exit than the engine's: of those steps, the ones that do harm. */
  predicate Mislabels(s: State, step: Step) {
    && ReadsACrashReport(s, step)
    && s.tunnel.live.Some? && !Agrees(s.tunnel.live.value.tagOf, s.tunnel.node, s.engine.selected)
  }

  predicate Clean(s: State, step: Step) {
    !RevertFails(s, step) && !Mislabels(s, step)
  }

  predicate CleanAt(states: seq<State>, steps: seq<Step>, i: nat)
    requires i < |steps| && |states| == |steps| + 1
  {
    Clean(states[i], steps[i])
  }

  /** None of the first k steps loses a revert or mislabels. */
  ghost predicate CleanTo(states: seq<State>, steps: seq<Step>, k: nat)
    requires k <= |steps| && |states| == |steps| + 1
  {
    forall i :: 0 <= i < k ==> CleanAt(states, steps, i)
  }

  // ----- Every clean step keeps it -----

  lemma EnteredKeepsExit(s: State, a: Answer, s': State)
    requires LiveInv(s.tunnel, s.clock.generation, s.locks.conn, s.crew.walk)
    requires ExitInv(s) && NextOp(s, a) == Some(s')
    requires s.locks.conn.phase.Entered?
    ensures ExitInv(s')
  {
  }

  lemma CommittedKeepsExit(s: State, a: Answer, s': State)
    requires LiveInv(s.tunnel, s.clock.generation, s.locks.conn, s.crew.walk)
    requires ExitInv(s) && NextOp(s, a) == Some(s')
    requires Clean(s, OpStep(a))
    requires Committed(s.locks.conn)
    ensures ExitInv(s')
  {
  }

  lemma TeardownKeepsExit(s: State, a: Answer, s': State)
    requires LiveInv(s.tunnel, s.clock.generation, s.locks.conn, s.crew.walk)
    requires ExitInv(s) && NextOp(s, a) == Some(s')
    requires !s.locks.conn.phase.Entered? && !Committed(s.locks.conn)
    ensures ExitInv(s')
  {
  }

  lemma SwitchChecksKeepExit(s: State, a: Answer, s': State)
    requires LiveInv(s.tunnel, s.clock.generation, s.locks.conn, s.crew.walk)
    requires ExitInv(s) && NextSwitch(s, a) == Some(s')
    requires !Moved(s.locks.conn)
    ensures ExitInv(s')
  {
  }

  lemma SwitchMovesKeepExit(s: State, a: Answer, s': State)
    requires LiveInv(s.tunnel, s.clock.generation, s.locks.conn, s.crew.walk)
    requires ExitInv(s) && NextSwitch(s, a) == Some(s')
    requires Clean(s, SwitchStep(a)) && Moved(s.locks.conn)
    ensures ExitInv(s')
  {
  }

  lemma LoopKeepsExit(s: State, a: Answer, s': State)
    requires LiveInv(s.tunnel, s.clock.generation, s.locks.conn, s.crew.walk)
    requires ExitInv(s) && NextWalk(s, a) == Some(s')
    requires Stopped(s.crew.walk.value.pc)
    requires s.crew.walk.value.pc.Top? || s.crew.walk.value.pc.Choosing? || s.crew.walk.value.pc.StrategyTop?
    ensures ExitInv(s')
  {
  }

  lemma FailedKeepsExit(s: State, a: Answer, s': State)
    requires LiveInv(s.tunnel, s.clock.generation, s.locks.conn, s.crew.walk)
    requires ExitInv(s) && NextWalk(s, a) == Some(s')
    requires Stopped(s.crew.walk.value.pc)
    requires !s.crew.walk.value.pc.Top? && !s.crew.walk.value.pc.Choosing? && !s.crew.walk.value.pc.StrategyTop?
    ensures ExitInv(s')
  {
  }

  lemma PinningKeepsExit(s: State, a: Answer, s': State)
    requires LiveInv(s.tunnel, s.clock.generation, s.locks.conn, s.crew.walk)
    requires NamedWalk(s.crew.walk)
    requires ExitInv(s) && NextWalk(s, a) == Some(s')
    requires s.crew.walk.value.pc == Probing(false)
    ensures ExitInv(s')
  {
  }

  lemma StartedKeepsExit(s: State, a: Answer, s': State)
    requires LiveInv(s.tunnel, s.clock.generation, s.locks.conn, s.crew.walk)
    requires ExitInv(s) && NextWalk(s, a) == Some(s')
    requires !Stopped(s.crew.walk.value.pc) && !Pinned(s.crew.walk.value.pc) && !Published(s.crew.walk.value.pc)
    requires s.crew.walk.value.pc != Probing(false)
    ensures ExitInv(s')
  {
  }

  lemma ProbedKeepsExit(s: State, a: Answer, s': State)
    requires LiveInv(s.tunnel, s.clock.generation, s.locks.conn, s.crew.walk)
    requires GenerationInv(s.clock, s.locks.conn, s.crew)
    requires ExitInv(s) && NextWalk(s, a) == Some(s')
    requires Pinned(s.crew.walk.value.pc)
    requires !Inner(s.crew.walk.value.pc)
    ensures ExitInv(s')
  {
  }

  lemma AcceptedKeepsExit(s: State, a: Answer, s': State)
    requires LiveInv(s.tunnel, s.clock.generation, s.locks.conn, s.crew.walk)
    requires GenerationInv(s.clock, s.locks.conn, s.crew)
    requires ExitInv(s) && NextWalk(s, a) == Some(s')
    requires Pinned(s.crew.walk.value.pc)
    requires Inner(s.crew.walk.value.pc)
    ensures ExitInv(s')
  {
  }

  lemma HandoverKeepsExit(s: State, a: Answer, s': State)
    requires LiveInv(s.tunnel, s.clock.generation, s.locks.conn, s.crew.walk)
    requires ExitInv(s) && NextWalk(s, a) == Some(s')
    requires Published(s.crew.walk.value.pc)
    ensures ExitInv(s')
  {
  }

  lemma ProcKeepsExit(s: State, a: Answer, s': State)
    requires ExitInv(s) && NextProc(s, a) == Some(s')
    ensures ExitInv(s')
  {
  }

  lemma HealthKeepsExit(s: State, a: Answer, s': State)
    requires ExitInv(s) && NextHealth(s, a) == Some(s')
    ensures ExitInv(s')
  {
  }

  lemma EnvKeepsExit(s: State, step: Step, s': State)
    requires ExitInv(s) && EnvStep(step) && NextEnv(s, step) == Some(s')
    ensures ExitInv(s')
  {
  }

  lemma NextKeepsExit(s: State, step: Step, s': State)
    requires Inv(s) && NamesInv(s) && ExitInv(s) && Clean(s, step) && Next(s, step) == Some(s')
    ensures ExitInv(s')
  {
    match step
    case OpStep(a) =>
      if s.locks.conn.phase.Entered? {
        EnteredKeepsExit(s, a, s');
      } else if Committed(s.locks.conn) {
        CommittedKeepsExit(s, a, s');
      } else {
        TeardownKeepsExit(s, a, s');
      }
    case SwitchStep(a) =>
      if Moved(s.locks.conn) {
        SwitchMovesKeepExit(s, a, s');
      } else {
        SwitchChecksKeepExit(s, a, s');
      }
    case WalkStep(a) =>
      var pc := s.crew.walk.value.pc;
      if Published(pc) {
        HandoverKeepsExit(s, a, s');
      } else if Inner(pc) {
        AcceptedKeepsExit(s, a, s');
      } else if Pinned(pc) {
        ProbedKeepsExit(s, a, s');
      } else if pc.Top? || pc.Choosing? || pc.StrategyTop? {
        LoopKeepsExit(s, a, s');
      } else if Stopped(pc) {
        FailedKeepsExit(s, a, s');
      } else if pc == Probing(false) {
        PinningKeepsExit(s, a, s');
      } else {
        StartedKeepsExit(s, a, s');
      }
    case ProcStep(a) => ProcKeepsExit(s, a, s');
    case HealthStep(a) => HealthKeepsExit(s, a, s');
    case PollerStep(_, _) =>
    case _ => EnvKeepsExit(s, step, s');
  }

  lemma {:induction false} PathKeepsExit(states: seq<State>, steps: seq<Step>, k: nat)
    requires Path(states, steps) && k < |states| && CleanTo(states, steps, k)
    requires Inv(states[0]) && NamesInv(states[0]) && ExitInv(states[0])
    ensures ExitInv(states[k])
  {
    if k == 0 {
    } else {
      PathKeepsExit(states, steps, k - 1);
      PathKeepsInv(states, steps, k - 1);
      PathKeepsNames(states, steps, k - 1);
      StepOnPath(states, steps, k - 1);
      assert CleanAt(states, steps, k - 1);
      NextKeepsExit(states[k - 1], steps[k - 1], states[k]);
    }
  }

  lemma InitialInv(s: State)
    requires Initial(s)
    ensures Inv(s) && NamesInv(s) && ExitInv(s)
  {
  }

  // ----- The laws -----

  predicate UndisturbedAt(states: seq<State>, steps: seq<Step>, i: nat)
    requires i < |steps| && |states| == |steps| + 1
  {
    !RevertFails(states[i], steps[i]) && !ReadsACrashReport(states[i], steps[i])
  }

  /**
    Exit agreement: in every run in which no revert is lost and no failover's second look sees a tunnel that is no
    longer connected, whenever connMu is free and the tunnel is connected over a live configuration of the current
    generation, the selector's last setting is the tag of the published node.
   */
  lemma UndisturbedRunsAgree(states: seq<State>, steps: seq<Step>, k: nat)
    requires IsRun(states, steps) && k < |states|
    requires forall i :: 0 <= i < k ==> UndisturbedAt(states, steps, i)
    ensures ExitAgrees(states[k])
  {
    forall i: nat | i < k
      ensures CleanAt(states, steps, i)
    {
      assert UndisturbedAt(states, steps, i);
    }
    CleanRunsAgree(states, steps, k);
  }

  /** The refinement: of the second looks at a crash report, only those at one that names another exit can break it. */
  lemma CleanRunsAgree(states: seq<State>, steps: seq<Step>, k: nat)
    requires IsRun(states, steps) && k < |states| && CleanTo(states, steps, k)
    ensures ExitAgrees(states[k])
  {
    InitialInv(states[0]);
    PathKeepsExit(states, steps, k);
  }

  /**
    The refined condition is exact: after a clean run, either of the two steps can end in a settled connection on
    another exit, the one at once, the other as soon as the failover's start is refused.
   */
  lemma UncleanStepsCanDisagree(states: seq<State>, steps: seq<Step>, k: nat)
    returns (onward: seq<State>, further: seq<Step>)
    requires IsRun(states, steps) && k < |steps| && CleanTo(states, steps, k) && !CleanAt(states, steps, k)
    ensures Path(onward, further) && onward[0] == states[k + 1]
    ensures |further| == if steps[k].SwitchStep? then 0 else 3
    ensures !ExitAgrees(Last(onward))
  {
    InitialInv(states[0]);
    PathKeepsExit(states, steps, k);
    PathKeepsInv(states, steps, k);
    StepOnPath(states, steps, k);
    if RevertFails(states[k], steps[k]) {
      LostRevertDisagrees(states[k], steps[k].answer, states[k + 1]);
      onward, further := [states[k + 1]], [];
    } else {
      onward, further := CrashReportDisagrees(states[k], steps[k].answer, states[k + 1]);
    }
  }

  lemma LostRevertDisagrees(s: State, a: Answer, t: State)
    requires Inv(s) && ExitInv(s) && RevertFails(s, SwitchStep(a)) && NextSwitch(s, a) == Some(t)
    ensures !ExitAgrees(t)
  {
  }

  /** The failover publishes its node, is refused, and puts Connected back beside that node. */
  lemma CrashReportDisagrees(s: State, a: Answer, t: State) returns (onward: seq<State>, further: seq<Step>)
    requires Inv(s) && Mislabels(s, OpStep(a)) && NextOp(s, a) == Some(t)
    ensures Path(onward, further) && onward[0] == t && |further| == 3
    ensures !ExitAgrees(Last(onward))
  {
    var kind := s.locks.conn.kind;
    var no := OpStep(Answer(false, false, "", map[]));
    var begun := To(SetState(t, Reconnecting, kind.node), Op(kind, Begun));
    var refusing := To(begun, Op(kind, Refusing(false)));
    var end := Release(SetState(refusing, Connected, kind.node));
    onward, further := [t], [];
    Append(onward, further, no, begun);
    Append([t, begun], [no], no, refusing);
    Append([t, begun, refusing], [no, no], no, end);
    onward, further := [t, begun, refusing, end], [no, no, no];
    assert [t] + [begun] == [t, begun] && [t, begun] + [refusing] == [t, begun, refusing];
    assert [t, begun, refusing] + [end] == onward && [no, no] + [no] == further;
  }
}
