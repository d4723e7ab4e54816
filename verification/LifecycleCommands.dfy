/**
  What one hold of connMu comes to, from the step that takes it to the state in which it is free again, under every
  interleaving with everybody else (core/control/connect.go, handleDisconnect, startConnect and teardown).
 */
module LifecycleCommands {
  import opened Wrappers
  import opened Lifecycle
  import opened LifecycleInvariant
  import opened LifecycleSafety
  import opened LifecycleDrain

  // ----- One hold of connMu -----

  /** In state m of a run, connMu is held. */
  predicate HeldAt(states: seq<State>, m: nat)
    requires m < |states|
  {
    states[m].locks.conn != Free
  }

  /** Step i takes connMu for this purpose, and state k is the first after it in which it is free. */
  ghost predicate OneHold(states: seq<State>, steps: seq<Step>, i: nat, k: nat, kind: Kind) {
    && IsRun(states, steps) && i < k < |states| && steps[i] == Acquire(kind)
    && (forall m :: i < m < k ==> HeldAt(states, m))
    && states[k].locks.conn == Free
  }

  /** A step of connMu's holder, in which what it calls answers so. */
  predicate Answers(s: State, step: Step, ok: bool) {
    step.OpStep? && s.locks.conn.Op? && step.answer.ok == ok
  }

  /** A caller's own check finds that there is nothing to start. */
  predicate TurnsAway(s: State, step: Step) {
    && step.OpStep? && s.locks.conn.Op?
    && var kind, phase, ok := s.locks.conn.kind, s.locks.conn.phase, step.answer.ok;
       if phase.Entered? then
         match kind
         case Connect => false
         case Disconnect(_) => false
         case Reapply => s.tunnel.status != Connected || s.tunnel.node == "" || !ok
         case Failover(gen, _) => gen != s.clock.generation || s.tunnel.status != Connected || !ok
         case _ => kind.gen != s.clock.generation
       else phase.Confirmed? && kind.Failover? && (s.tunnel.node != kind.node || !ok)
  }

  /** startConnect finds no candidate, or cannot prepare the host protection. */
  predicate Declines(s: State, step: Step) {
    && Answers(s, step, false)
    && (s.locks.conn.phase.Begun? || (s.locks.conn.phase.Chosen? && !s.prefs.legacy))
  }

  /** teardown cannot clear the system proxy. */
  predicate CleanupFails(s: State, step: Step) {
    Answers(s, step, false) && s.locks.conn.phase.Drained?
  }

  predicate Objects(s: State, step: Step) {
    TurnsAway(s, step) || Declines(s, step) || CleanupFails(s, step)
  }

  predicate ObjectsAt(states: seq<State>, steps: seq<Step>, m: nat)
    requires m < |steps| && |states| == |steps| + 1
  {
    Objects(states[m], steps[m])
  }

  predicate CleanupFailsAt(states: seq<State>, steps: seq<Step>, m: nat)
    requires m < |steps| && |states| == |steps| + 1
  {
    CleanupFails(states[m], steps[m])
  }

  // ----- Where the holder is -----

  /**
    How far a hold that found this clock has come: the generation moves once at the fence of teardown, and once more
    for the connection started afterwards.
   */
  predicate Course(was: Clock, kind: Kind, s: State) {
    && s.locks.conn.Op? && s.locks.conn.kind == kind
    && match s.locks.conn.phase
       case Ready(plan) => s.clock == was && (plan.None? <==> kind.Disconnect?)
       case Cancelling(plan, _) => s.clock.generation == was.generation + 1 && (plan.None? <==> kind.Disconnect?)
       case Stopping(plan) => s.clock.generation == was.generation + 1 && (plan.None? <==> kind.Disconnect?)
       case Draining(plan) => s.clock.generation == was.generation + 1 && (plan.None? <==> kind.Disconnect?)
       case Drained(plan) => s.clock.generation == was.generation + 1 && (plan.None? <==> kind.Disconnect?)
       case Launching(_) => s.clock.generation == was.generation + 1 && !kind.Disconnect?
       case Announcing(_, gen) => gen == was.generation + 2 && !kind.Disconnect?
       case Spawning(_, gen) =>
         gen == was.generation + 2 && !kind.Disconnect? && s.tunnel.status == Connecting && s.tunnel.node == ""
       case Releasing =>
         && s.clock.generation == was.generation + 1 && kind == Disconnect(true)
         && (s.tunnel.status == Error || s.tunnel.status == Off) && s.tunnel.node == ""
       case Refusing(torn) =>
         && !kind.Disconnect?
         && if torn then s.clock.generation == was.generation + 1 && s.tunnel.status == Error && s.tunnel.node == ""
            else s.clock == was
       case Entered => s.clock == was
       case _ => s.clock == was && !kind.Disconnect?
  }

  /** The holder goes on, but an answer has stood in its way. */
  predicate Resigned(s: State) {
    s.locks.conn.Op? && (s.locks.conn.phase.Refusing? || (s.locks.conn.phase.Releasing? && s.tunnel.status == Error))
  }

  /** Nobody but its holder moves connMu on, or the clock; and once the goroutines are gone, nobody else publishes. */
  lemma OthersKeepTheHold(s: State, step: Step, s': State)
    requires Inv(s) && s.locks.conn.Op? && !step.OpStep? && Next(s, step) == Some(s')
    ensures s'.locks.conn == s.locks.conn && s'.clock == s.clock
    ensures Drainable(s.crew) ==> s'.tunnel == s.tunnel && s'.crew == s.crew
  {
    match step
    case WalkStep(a) => WalkKeepsTheHold(s, a, s');
    case _ =>
  }

  lemma WalkKeepsTheHold(s: State, a: Answer, s': State)
    requires NextWalk(s, a) == Some(s')
    ensures s'.locks.conn == s.locks.conn && s'.clock == s.clock
  {
    if NextWalk(s, a) == NextAcceptance(s, a) {
      assert NextAcceptance(s, a) == Some(s');
    }
  }

  lemma HolderStaysOnCourse(was: Clock, kind: Kind, s: State, a: Answer, s': State)
    requires Inv(s) && Course(was, kind, s) && NextOp(s, a) == Some(s') && s'.locks.conn != Free
    ensures Course(was, kind, s')
  {
    if s.locks.conn.phase.Entered? {
      assert s' == NextEntered(s, kind, a);
    }
  }

  lemma NextStaysOnCourse(was: Clock, kind: Kind, s: State, step: Step, s': State)
    requires Inv(s) && Course(was, kind, s) && Next(s, step) == Some(s') && s'.locks.conn != Free
    ensures Course(was, kind, s')
  {
    if step.OpStep? {
      HolderStaysOnCourse(was, kind, s, step.answer, s');
    } else {
      OthersKeepTheHold(s, step, s');
    }
  }

  lemma HolderObjects(was: Clock, kind: Kind, s: State, a: Answer, s': State)
    requires Inv(s) && Course(was, kind, s) && NextOp(s, a) == Some(s') && s'.locks.conn != Free
    ensures Resigned(s') <==> Resigned(s) || Objects(s, OpStep(a))
  {
    if s.locks.conn.phase.Entered? {
      assert s' == NextEntered(s, kind, a);
    }
  }

  lemma ObjectionsShow(was: Clock, kind: Kind, s: State, step: Step, s': State)
    requires Inv(s) && Course(was, kind, s) && Next(s, step) == Some(s') && s'.locks.conn != Free
    ensures Resigned(s') <==> Resigned(s) || Objects(s, step)
  {
    if step.OpStep? {
      HolderObjects(was, kind, s, step.answer, s');
    } else {
      OthersKeepTheHold(s, step, s');
    }
  }

  // ----- ... along a run -----

  /** Some step of i + 1 .. m stood in the way. */
  ghost predicate ObjectedBy(states: seq<State>, steps: seq<Step>, i: nat, m: nat)
    requires m <= |steps| && |states| == |steps| + 1
  {
    exists j :: i < j < m && ObjectsAt(states, steps, j)
  }

  /** Some step of i + 1 .. m could not clear the system proxy. */
  ghost predicate UnclearedBy(states: seq<State>, steps: seq<Step>, i: nat, m: nat)
    requires m <= |steps| && |states| == |steps| + 1
  {
    exists j :: i < j < m && CleanupFailsAt(states, steps, j)
  }

  predicate OnCourseAt(states: seq<State>, was: Clock, kind: Kind, m: nat)
    requires m < |states|
  {
    Course(was, kind, states[m])
  }

  predicate ResignedAt(states: seq<State>, m: nat)
    requires m < |states|
  {
    Resigned(states[m])
  }

  lemma HoldsBegin(states: seq<State>, steps: seq<Step>, i: nat, k: nat, kind: Kind)
    requires OneHold(states, steps, i, k, kind)
    ensures states[i + 1].locks.conn == Op(kind, Entered) && i + 1 < k
    ensures OnCourseAt(states, states[i].clock, kind, i + 1) && !ResignedAt(states, i + 1)
  {
    StepOnPath(states, steps, i);
    assert NextEnv(states[i], steps[i]) == Some(states[i + 1]);
  }

  lemma HoldsMove(states: seq<State>, steps: seq<Step>, i: nat, k: nat, kind: Kind, m: nat)
    requires OneHold(states, steps, i, k, kind) && i < m < k
    ensures Inv(states[m]) && Next(states[m], steps[m]) == Some(states[m + 1])
    ensures states[m + 1].locks.conn == Free <==> m + 1 == k
  {
    ReachableInv(states, steps, m);
    StepOnPath(states, steps, m);
    assert m + 1 < k ==> HeldAt(states, m + 1);
  }

  lemma CourseGoesOn(states: seq<State>, steps: seq<Step>, i: nat, k: nat, kind: Kind, m: nat)
    requires OneHold(states, steps, i, k, kind) && i < m < k - 1 && OnCourseAt(states, states[i].clock, kind, m)
    ensures OnCourseAt(states, states[i].clock, kind, m + 1)
  {
    HoldsMove(states, steps, i, k, kind, m);
    NextStaysOnCourse(states[i].clock, kind, states[m], steps[m], states[m + 1]);
  }

  lemma {:induction false} HoldsStayOnCourse(states: seq<State>, steps: seq<Step>, i: nat, k: nat, kind: Kind, m: nat)
    requires OneHold(states, steps, i, k, kind) && i < m < k
    ensures OnCourseAt(states, states[i].clock, kind, m)
  {
    if m == i + 1 {
      HoldsBegin(states, steps, i, k, kind);
    } else {
      HoldsStayOnCourse(states, steps, i, k, kind, m - 1);
      CourseGoesOn(states, steps, i, k, kind, m - 1);
    }
  }

  lemma ObjectionShowsAt(states: seq<State>, steps: seq<Step>, i: nat, k: nat, kind: Kind, m: nat)
    requires OneHold(states, steps, i, k, kind) && i < m < k - 1 && OnCourseAt(states, states[i].clock, kind, m)
    ensures ResignedAt(states, m + 1) <==> ResignedAt(states, m) || ObjectsAt(states, steps, m)
  {
    HoldsMove(states, steps, i, k, kind, m);
    ObjectionsShow(states[i].clock, kind, states[m], steps[m], states[m + 1]);
  }

  /** As long as connMu is held, its holder has resigned exactly if something stood in its way. */
  lemma {:induction false} ResignedIff(states: seq<State>, steps: seq<Step>, i: nat, k: nat, kind: Kind, m: nat)
    requires OneHold(states, steps, i, k, kind) && i < m < k
    ensures ResignedAt(states, m) <==> ObjectedBy(states, steps, i, m)
  {
    if m == i + 1 {
      HoldsBegin(states, steps, i, k, kind);
    } else {
      ResignedIff(states, steps, i, k, kind, m - 1);
      HoldsStayOnCourse(states, steps, i, k, kind, m - 1);
      ObjectionShowsAt(states, steps, i, k, kind, m - 1);
    }
  }

  lemma HoldersEndTheirHold(s: State, step: Step, s': State)
    requires Inv(s) && s.locks.conn.Op? && Next(s, step) == Some(s') && s'.locks.conn == Free
    ensures step.OpStep?
  {
    if !step.OpStep? {
      OthersKeepTheHold(s, step, s');
    }
  }

  lemma OpStepOnPath(states: seq<State>, steps: seq<Step>, m: nat)
    requires Path(states, steps) && m < |steps| && steps[m].OpStep?
    ensures NextOp(states[m], steps[m].answer) == Some(states[m + 1])
  {
    StepOnPath(states, steps, m);
  }

  lemma HolderEndsAt(states: seq<State>, steps: seq<Step>, i: nat, k: nat, kind: Kind)
    requires OneHold(states, steps, i, k, kind) && i + 1 < k && states[k - 1].locks.conn.Op?
    ensures steps[k - 1].OpStep?
  {
    HoldsMove(states, steps, i, k, kind, k - 1);
    HoldersEndTheirHold(states[k - 1], steps[k - 1], states[k]);
  }

  /** The last step of a hold is its holder's. */
  lemma TheHoldEnds(states: seq<State>, steps: seq<Step>, i: nat, k: nat, kind: Kind)
    requires OneHold(states, steps, i, k, kind)
    ensures i + 1 < k && OnCourseAt(states, states[i].clock, kind, k - 1) && steps[k - 1].OpStep?
  {
    HoldsBegin(states, steps, i, k, kind);
    HoldsStayOnCourse(states, steps, i, k, kind, k - 1);
    HolderEndsAt(states, steps, i, k, kind);
  }

  lemma LastObjection(states: seq<State>, steps: seq<Step>, i: nat, k: nat, kind: Kind)
    requires OneHold(states, steps, i, k, kind) && i + 1 < k
    ensures ObjectedBy(states, steps, i, k) <==> ResignedAt(states, k - 1) || ObjectsAt(states, steps, k - 1)
  {
    ResignedIff(states, steps, i, k, kind, k - 1);
  }

  // ----- A disconnect -----

  /** No engine, no goroutine, no live configuration, and one generation later. */
  predicate TornDown(s: State, t: State) {
    && t.clock.generation == s.clock.generation + 1
    && t.engine.running == 0 && Drainable(t.crew) && t.tunnel.live.None? && t.tunnel.node == ""
  }

  lemma DisconnectEnds(was: Clock, release: bool, s: State, a: Answer, s': State)
    requires Inv(s) && Course(was, Disconnect(release), s) && NextOp(s, a) == Some(s')
    requires s'.locks.conn == Free
    ensures s'.clock.generation == was.generation + 1
    ensures s'.engine.running == 0 && Drainable(s'.crew) && s'.tunnel.live.None? && s'.tunnel.node == ""
    ensures s'.tunnel.status == if Resigned(s) || Objects(s, OpStep(a)) then Error else Off
    ensures if release then s.locks.conn.phase.Releasing? && s'.prefs.enforced == (s.prefs.enforced && !a.ok)
            else s.locks.conn.phase.Drained? && s'.prefs == s.prefs
  {
  }

  lemma DisconnectsObjectIn(states: seq<State>, steps: seq<Step>, i: nat, k: nat, release: bool, m: nat)
    requires OneHold(states, steps, i, k, Disconnect(release)) && i < m < k
    ensures ObjectsAt(states, steps, m) <==> CleanupFailsAt(states, steps, m)
  {
    HoldsStayOnCourse(states, steps, i, k, Disconnect(release), m);
  }

  /** A disconnect's only objection is the cleanup's. */
  lemma DisconnectsObjectOnlyInCleanup(states: seq<State>, steps: seq<Step>, i: nat, k: nat, release: bool)
    requires OneHold(states, steps, i, k, Disconnect(release))
    ensures ObjectedBy(states, steps, i, k) <==> UnclearedBy(states, steps, i, k)
  {
    forall m: nat | i < m < k
      ensures ObjectsAt(states, steps, m) <==> CleanupFailsAt(states, steps, m)
    {
      DisconnectsObjectIn(states, steps, i, k, release, m);
    }
  }

  /**
    A disconnect disconnects: whatever was connected or on its way, when connMu is free again one generation has
    passed and nothing of it is left.  The published state is off, or an error exactly if the system proxy could not
    be cleared; and if the protection was to be released, the hold ended with that, and took it away if it succeeded.
   */
  lemma ADisconnectDisconnects(states: seq<State>, steps: seq<Step>, i: nat, k: nat, release: bool)
    requires OneHold(states, steps, i, k, Disconnect(release))
    ensures TornDown(states[i], states[k])
    ensures states[k].tunnel.status == Off || states[k].tunnel.status == Error
    ensures states[k].tunnel.status == Error <==> UnclearedBy(states, steps, i, k)
    ensures steps[k - 1].OpStep?
    ensures release && steps[k - 1].answer.ok ==> !states[k].prefs.enforced
    ensures release && !steps[k - 1].answer.ok ==> states[k].prefs == states[k - 1].prefs
    ensures !release ==> states[k].prefs == states[k - 1].prefs
  {
    TheHoldEnds(states, steps, i, k, Disconnect(release));
    ReachableInv(states, steps, k - 1);
    OpStepOnPath(states, steps, k - 1);
    LastObjection(states, steps, i, k, Disconnect(release));
    DisconnectsObjectOnlyInCleanup(states, steps, i, k, release);
    DisconnectEnds(states[i].clock, release, states[k - 1], steps[k - 1].answer, states[k]);
  }

  // ----- An attempt to connect -----

  /** A new generation with its own cancel, and nothing at work but its walk, which has not begun. */
  predicate Launched(s: State, t: State) {
    && t.clock.generation == s.clock.generation + 2 && t.clock.token == Some(t.clock.generation)
    && t.clock.generation !in t.clock.cancelled
    && t.crew.walk.Some?
    && t.crew == Crew(Some(Walk(t.clock.generation, t.crew.walk.value.plan, Top, "", false)), None, None, multiset{})
    && t.engine.running == 0 && t.tunnel == Tunnel(Connecting, "", None)
  }

  /** What each caller makes of the error startConnect gave it. */
  predicate Tells(kind: Kind, t: State, t': State) {
    && t'.clock == t.clock && t'.crew == t.crew && t'.engine == t.engine && t'.tunnel.live == t.tunnel.live
    && (kind.Reapply? ==> t'.tunnel.status == Error && t'.tunnel.node == t.tunnel.node)
    && (kind.Relaunch? ==> t'.tunnel.status == Error && t'.tunnel.node == kind.node)
    && (kind.Failover? ==> t'.tunnel.status == Connected && t'.tunnel.node == kind.node)
    && (kind.Reconcile? ==> t'.prefs.reported)
    && (kind.Connect? || kind.Autoconnect? || kind.Reconcile? ==> t'.tunnel == t.tunnel)
  }

  lemma TurnedAwayEnds(was: Clock, kind: Kind, s: State, a: Answer, s': State)
    requires Inv(s) && Course(was, kind, s) && !kind.Disconnect? && NextOp(s, a) == Some(s')
    requires s'.locks.conn == Free && (s.locks.conn.phase.Entered? || s.locks.conn.phase.Confirmed?)
    ensures s'.clock == was && TurnsAway(s, OpStep(a)) && !CleanupFails(s, OpStep(a))
    ensures s'.tunnel == s.tunnel && s'.crew == s.crew && s'.engine == s.engine
  {
  }

  lemma RefusalEnds(was: Clock, kind: Kind, s: State, a: Answer, s': State)
    requires Inv(s) && Course(was, kind, s) && !kind.Disconnect? && NextOp(s, a) == Some(s')
    requires s'.locks.conn == Free && s.locks.conn.phase.Refusing?
    ensures !Objects(s, OpStep(a)) && Tells(kind, s, s')
    ensures if s.locks.conn.phase.torn
            then s'.clock.generation == was.generation + 1 && s'.engine.running == 0 && Drainable(s'.crew)
                 && s'.tunnel.live.None? && s.tunnel.status == Error
            else s'.clock == was
  {
  }

  lemma LaunchEnds(was: Clock, kind: Kind, s: State, a: Answer, s': State)
    requires Inv(s) && Course(was, kind, s) && !kind.Disconnect? && NextOp(s, a) == Some(s')
    requires s'.locks.conn == Free && !s.locks.conn.phase.Entered? && !s.locks.conn.phase.Confirmed?
    requires !s.locks.conn.phase.Refusing?
    ensures !Resigned(s) && !Objects(s, OpStep(a))
    ensures s'.clock.generation == was.generation + 2 && s'.clock.token == Some(s'.clock.generation)
    ensures s'.clock.generation !in s'.clock.cancelled && s'.crew.walk.Some?
    ensures s'.crew
            == Crew(Some(Walk(s'.clock.generation, s'.crew.walk.value.plan, Top, "", false)), None, None, multiset{})
    ensures s'.engine.running == 0 && s'.tunnel == Tunnel(Connecting, "", None)
  {
  }

  predicate TornAt(states: seq<State>, m: nat)
    requires m < |states|
  {
    states[m].locks.conn.Op? && states[m].locks.conn.phase == Refusing(true)
  }

  lemma FailuresAreTorn(was: Clock, kind: Kind, s: State, step: Step, s': State)
    requires Inv(s) && Course(was, kind, s) && !kind.Disconnect? && Next(s, step) == Some(s')
    requires s'.locks.conn != Free
    ensures s'.locks.conn.Op?
    ensures s'.locks.conn.phase == Refusing(true) <==>
            s.locks.conn.phase == Refusing(true) || CleanupFails(s, step)
  {
    if !step.OpStep? {
      OthersKeepTheHold(s, step, s');
    } else if s.locks.conn.phase.Entered? {
      assert s' == NextEntered(s, kind, step.answer);
    } else {
      assert NextOp(s, step.answer) == Some(s');
    }
  }

  lemma FailureIsTornAt(states: seq<State>, steps: seq<Step>, i: nat, k: nat, kind: Kind, m: nat)
    requires OneHold(states, steps, i, k, kind) && !kind.Disconnect? && i < m < k - 1
    requires OnCourseAt(states, states[i].clock, kind, m)
    ensures TornAt(states, m + 1) <==> TornAt(states, m) || CleanupFailsAt(states, steps, m)
  {
    HoldsMove(states, steps, i, k, kind, m);
    FailuresAreTorn(states[i].clock, kind, states[m], steps[m], states[m + 1]);
  }

  /** A failed cleanup is the one objection that comes after the fence of teardown. */
  lemma {:induction false} TornIff(states: seq<State>, steps: seq<Step>, i: nat, k: nat, kind: Kind, m: nat)
    requires OneHold(states, steps, i, k, kind) && !kind.Disconnect? && i < m < k
    ensures TornAt(states, m) <==> UnclearedBy(states, steps, i, m)
  {
    if m == i + 1 {
      HoldsBegin(states, steps, i, k, kind);
    } else {
      TornIff(states, steps, i, k, kind, m - 1);
      HoldsStayOnCourse(states, steps, i, k, kind, m - 1);
      FailureIsTornAt(states, steps, i, k, kind, m - 1);
    }
  }

  lemma LastFailure(states: seq<State>, steps: seq<Step>, i: nat, k: nat, kind: Kind)
    requires OneHold(states, steps, i, k, kind) && !kind.Disconnect? && i + 1 < k
    ensures UnclearedBy(states, steps, i, k) <==> TornAt(states, k - 1) || CleanupFailsAt(states, steps, k - 1)
  {
    TornIff(states, steps, i, k, kind, k - 1);
  }

  /**
    An attempt to connect starts a walk exactly if nothing stands in its way: neither its caller's checks, nor
    startConnect's own, nor the cleanup of the connection before.  Otherwise, if the cleanup failed, the old
    connection is gone and the caller says what came of it; and if not, the clock is where it was.
   */
  lemma AnAttemptLaunchesIff(states: seq<State>, steps: seq<Step>, i: nat, k: nat, kind: Kind)
    requires OneHold(states, steps, i, k, kind) && !kind.Disconnect?
    ensures Launched(states[i], states[k]) <==> !ObjectedBy(states, steps, i, k)
    ensures UnclearedBy(states, steps, i, k) ==>
              && states[k].clock.generation == states[i].clock.generation + 1
              && states[k].engine.running == 0 && Drainable(states[k].crew) && states[k].tunnel.live.None?
              && Tells(kind, states[k - 1], states[k]) && states[k - 1].tunnel.status == Error
    ensures !Launched(states[i], states[k]) && !UnclearedBy(states, steps, i, k) ==>
              && states[k].clock == states[i].clock
              && (if TurnsAway(states[k - 1], steps[k - 1]) then states[k].tunnel == states[k - 1].tunnel
                  else Tells(kind, states[k - 1], states[k]))
  {
    TheHoldEnds(states, steps, i, k, kind);
    ReachableInv(states, steps, k - 1);
    OpStepOnPath(states, steps, k - 1);
    LastObjection(states, steps, i, k, kind);
    LastFailure(states, steps, i, k, kind);
    var was, s, a, s' := states[i].clock, states[k - 1], steps[k - 1].answer, states[k];
    if s.locks.conn.phase.Entered? || s.locks.conn.phase.Confirmed? {
      TurnedAwayEnds(was, kind, s, a, s');
    } else if s.locks.conn.phase.Refusing? {
      RefusalEnds(was, kind, s, a, s');
    } else {
      LaunchEnds(was, kind, s, a, s');
    }
  }

  // ----- What is started -----

  /** startConnect picks the multihop selection and the profile's tags. */
  predicate ChoosesAt(states: seq<State>, steps: seq<Step>, m: nat, multihop: Multihop, tags: map<string, Tag>)
    requires m < |steps| && |states| == |steps| + 1
  {
    && Answers(states[m], steps[m], true) && states[m].locks.conn.phase.Begun?
    && multihop == states[m].prefs.desired.multihop && tags == steps[m].answer.tags
  }

  /** The host protection is prepared under protectionOp: where it is wanted or in place, it is in place afterwards. */
  predicate PreparesAt(states: seq<State>, steps: seq<Step>, m: nat)
    requires m < |steps| && |states| == |steps| + 1
  {
    && steps[m].OpStep? && states[m].locks.conn.Op? && states[m].locks.conn.phase.Chosen?
    && states[m].locks.fence == Open
    && var was, now := states[m].prefs, states[m + 1].prefs;
       if was.legacy then now == was
       else steps[m].answer.ok && (now.enforced <==> was.wanted || was.enforced)
  }

  /** The options of that moment are read, and the two ends of the chain are translated by the chosen tags. */
  predicate PlansAt(states: seq<State>, steps: seq<Step>, m: nat, multihop: Multihop, plan: Plan)
    requires m < |steps| && |states| == |steps| + 1
  {
    && steps[m].OpStep? && states[m].locks.conn.Op? && states[m].locks.conn.phase.Guarded?
    && var prefs, chain := states[m].prefs, plan.baked.chain;
       && plan.killSwitch == prefs.wanted
       && plan.baked.fragment == prefs.desired.fragment && plan.baked.stack == prefs.desired.stack
       && chain.enabled == multihop.enabled
       && chain.entry == (if multihop.entry in plan.tags then plan.tags[multihop.entry] else "")
       && chain.exit == (if multihop.exit in plan.tags then plan.tags[multihop.exit] else "")
  }

  ghost predicate ChosenBy(
      states: seq<State>, steps: seq<Step>, i: nat, m: nat, multihop: Multihop, tags: map<string, Tag>)
    requires m <= |steps| && |states| == |steps| + 1
  {
    exists j :: i < j < m && ChoosesAt(states, steps, j, multihop, tags)
  }

  ghost predicate PreparedBy(states: seq<State>, steps: seq<Step>, i: nat, m: nat)
    requires m <= |steps| && |states| == |steps| + 1
  {
    exists j :: i < j < m && PreparesAt(states, steps, j)
  }

  /** The plan was made in steps i + 1 .. m. */
  ghost predicate PlannedBy(states: seq<State>, steps: seq<Step>, i: nat, m: nat, plan: Plan)
    requires m <= |steps| && |states| == |steps| + 1
  {
    && PreparedBy(states, steps, i, m)
    && exists j, multihop :: i < j < m && PlansAt(states, steps, j, multihop, plan)
                             && ChosenBy(states, steps, i, m, multihop, plan.tags)
  }

  function PlanOf(conn: Holder): Option<Plan> {
    if !conn.Op? then None
    else
      match conn.phase
      case Ready(plan) => plan
      case Cancelling(plan, _) => plan
      case Stopping(plan) => plan
      case Draining(plan) => plan
      case Drained(plan) => plan
      case Launching(next) => Some(next)
      case Announcing(next, _) => Some(next)
      case Spawning(next, _) => Some(next)
      case _ => None
  }

  ghost predicate PlanHistory(states: seq<State>, steps: seq<Step>, i: nat, m: nat)
    requires m <= |steps| && |states| == |steps| + 1
  {
    var conn := states[m].locks.conn;
    && (conn.Op? && conn.phase.Chosen? ==> ChosenBy(states, steps, i, m, conn.phase.multihop, conn.phase.tags))
    && (conn.Op? && conn.phase.Guarded? ==>
          PreparedBy(states, steps, i, m) && ChosenBy(states, steps, i, m, conn.phase.multihop, conn.phase.tags))
    && (PlanOf(conn).Some? ==> PlannedBy(states, steps, i, m, PlanOf(conn).value))
  }

  lemma PlansAreKept(s: State, a: Answer, s': State)
    requires NextOp(s, a) == Some(s') && s'.locks.conn.Op?
    ensures PlanOf(s'.locks.conn).Some? ==> PlanOf(s'.locks.conn) == PlanOf(s.locks.conn) || s.locks.conn.phase.Guarded?
    ensures s'.locks.conn.phase.Chosen? ==> s.locks.conn.phase.Begun?
    ensures s'.locks.conn.phase.Guarded? ==> s.locks.conn.phase.Chosen?
  {
    if s.locks.conn.phase.Entered? {
      assert s' == NextEntered(s, s.locks.conn.kind, a);
    }
  }

  lemma ChoiceIsMade(states: seq<State>, steps: seq<Step>, m: nat)
    requires Path(states, steps) && m < |steps| && steps[m].OpStep?
    requires states[m].locks.conn.Op? && states[m].locks.conn.phase.Begun?
    requires states[m + 1].locks.conn.Op? && states[m + 1].locks.conn.phase.Chosen?
    ensures var phase := states[m + 1].locks.conn.phase; ChoosesAt(states, steps, m, phase.multihop, phase.tags)
  {
    OpStepOnPath(states, steps, m);
  }

  lemma PreparationIsMade(states: seq<State>, steps: seq<Step>, m: nat)
    requires Path(states, steps) && m < |steps| && steps[m].OpStep?
    requires states[m].locks.conn.Op? && states[m].locks.conn.phase.Chosen?
    requires states[m + 1].locks.conn.Op? && states[m + 1].locks.conn.phase.Guarded?
    ensures PreparesAt(states, steps, m)
    ensures var was, now := states[m].locks.conn.phase, states[m + 1].locks.conn.phase;
            now.multihop == was.multihop && now.tags == was.tags
  {
    OpStepOnPath(states, steps, m);
  }

  lemma PlanIsMade(states: seq<State>, steps: seq<Step>, m: nat)
    requires Path(states, steps) && m < |steps| && steps[m].OpStep?
    requires states[m].locks.conn.Op? && states[m].locks.conn.phase.Guarded? && PlanOf(states[m + 1].locks.conn).Some?
    ensures var was, plan := states[m].locks.conn.phase, PlanOf(states[m + 1].locks.conn).value;
            plan.tags == was.tags && PlansAt(states, steps, m, was.multihop, plan)
  {
    OpStepOnPath(states, steps, m);
  }

  lemma PlansLast(states: seq<State>, steps: seq<Step>, i: nat, m: nat)
    requires m < |steps| && |states| == |steps| + 1
    ensures forall multihop, tags :: ChosenBy(states, steps, i, m, multihop, tags) ==>
              ChosenBy(states, steps, i, m + 1, multihop, tags)
    ensures PreparedBy(states, steps, i, m) ==> PreparedBy(states, steps, i, m + 1)
    ensures forall plan :: PlannedBy(states, steps, i, m, plan) ==> PlannedBy(states, steps, i, m + 1, plan)
  {
  }

  lemma HistoryGoesOn(states: seq<State>, steps: seq<Step>, i: nat, k: nat, kind: Kind, m: nat)
    requires OneHold(states, steps, i, k, kind) && i < m < k - 1 && PlanHistory(states, steps, i, m)
    requires states[m].locks.conn.Op? && states[m + 1].locks.conn.Op?
    ensures PlanHistory(states, steps, i, m + 1)
  {
    PlansLast(states, steps, i, m);
    if steps[m].OpStep? {
      OpStepOnPath(states, steps, m);
      PlansAreKept(states[m], steps[m].answer, states[m + 1]);
      var phase, phase' := states[m].locks.conn.phase, states[m + 1].locks.conn.phase;
      if phase'.Chosen? {
        ChoiceIsMade(states, steps, m);
      } else if phase'.Guarded? {
        PreparationIsMade(states, steps, m);
      } else if phase.Guarded? && PlanOf(states[m + 1].locks.conn).Some? {
        PlanIsMade(states, steps, m);
      }
    } else {
      HoldsMove(states, steps, i, k, kind, m);
      OthersKeepTheHold(states[m], steps[m], states[m + 1]);
    }
  }

  lemma {:induction false} PlansHaveAHistory(states: seq<State>, steps: seq<Step>, i: nat, k: nat, kind: Kind, m: nat)
    requires OneHold(states, steps, i, k, kind) && i < m < k
    ensures states[m].locks.conn.Op? && PlanHistory(states, steps, i, m)
  {
    HoldsStayOnCourse(states, steps, i, k, kind, m);
    if m == i + 1 {
      HoldsBegin(states, steps, i, k, kind);
    } else {
      PlansHaveAHistory(states, steps, i, k, kind, m - 1);
      HistoryGoesOn(states, steps, i, k, kind, m - 1);
    }
  }

  lemma TheWalkIsPlanned(was: Clock, kind: Kind, s: State, a: Answer, s': State)
    requires Inv(s) && Course(was, kind, s) && NextOp(s, a) == Some(s') && s'.locks.conn == Free
    requires s'.clock.generation == was.generation + 2
    ensures s'.crew.walk.Some? && PlanOf(s.locks.conn) == Some(s'.crew.walk.value.plan)
  {
  }

  /**
    The walk that an attempt starts was planned within the same hold: with the options, the kill switch and the tags as
    they stood at its own steps, and only after the host protection had been prepared.
   */
  lemma ALaunchFollowsTheSettings(states: seq<State>, steps: seq<Step>, i: nat, k: nat, kind: Kind)
    requires OneHold(states, steps, i, k, kind) && Launched(states[i], states[k])
    ensures PlannedBy(states, steps, i, k, states[k].crew.walk.value.plan)
  {
    TheHoldEnds(states, steps, i, k, kind);
    PlansHaveAHistory(states, steps, i, k, kind, k - 1);
    PlansLast(states, steps, i, k - 1);
    ReachableInv(states, steps, k - 1);
    OpStepOnPath(states, steps, k - 1);
    TheWalkIsPlanned(states[i].clock, kind, states[k - 1], steps[k - 1].answer, states[k]);
  }
}
