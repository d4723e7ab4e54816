/**
  What every step of the lifecycle keeps (core/control/connect.go): who holds the fence, which generation
  every goroutine belongs to, who owes the engine its Stop, and what is published when.
 */
module LifecycleInvariant {
  import opened Wrappers
  import opened Lifecycle

  // ----- Where the connMu holder and the walk are -----

  /** The generation has moved, and goroutines of the old one may still run. */
  predicate Fenced(conn: Holder) {
    conn.Op? && (conn.phase.Cancelling? || conn.phase.Stopping? || conn.phase.Draining?)
  }

  /** wg.Wait has returned and nothing has been started since. */
  predicate Emptied(conn: Holder) {
    conn.Op? && (conn.phase.Drained? || conn.phase.Launching? || conn.phase.Announcing? || conn.phase.Spawning?
                 || conn.phase.Releasing? || conn.phase == Refusing(true))
  }

  /** An attempt past its caller's checks that has torn nothing down. */
  predicate Committed(conn: Holder) {
    && conn.Op?
    && (|| conn.phase.Confirmed? || conn.phase.Found? || conn.phase.Begun? || conn.phase.Chosen?
        || conn.phase.Guarded? || conn.phase.Ready? || conn.phase == Refusing(false))
  }

  predicate OffCommand(kind: Kind) {
    kind.Reconcile? || kind.Relaunch? || kind.Autoconnect? || kind.Failover?
  }

  /** Holders that may publish Connected again without a new walk. */
  predicate Steering(conn: Holder) {
    || (conn.Switching? && (conn.at.Select? || conn.at.Confirm? || conn.at.Revert? || conn.at.Commit?))
    || (Committed(conn) && conn.kind.Failover?)
  }

  /** Inside recordSuccess, holding protectionOp. */
  predicate Accepting(pc: WalkPc) {
    pc.Checking? || Inner(pc)
  }

  /** ... and past its first look at the generation. */
  predicate Inner(pc: WalkPc) {
    pc.Activating? || pc.Arming? || pc.Rechecking? || pc.Installing? || pc.Publishing? || pc.Handing? || pc.Reconciling?
  }

  predicate Published(pc: WalkPc) {
    pc.Handing? || pc.Reconciling?
  }

  /** Points of a walk at which it has no engine running. */
  predicate Stopped(pc: WalkPc) {
    pc.Top? || pc.Choosing? || pc.StrategyTop? || pc.Starting? || pc.StartFailed? || pc.LocalFailed? || pc.Failing?
    || pc.RefusedStopped?
  }

  function WorkingGen(c: Clock, conn: Holder): int {
    if Fenced(conn) then c.generation - 1 else c.generation
  }

  // ----- The invariant -----

  predicate FenceInv(locks: Locks, walk: Option<Walk>) {
    && (locks.fence == ByWalk <==> walk.Some? && Accepting(walk.value.pc))
    && (locks.fence == ByOp <==> locks.conn.Op? && locks.conn.phase.Cancelling?)
  }

  /** Every goroutine teardown waits for belongs to one generation, and none is left once it has waited. */
  ghost predicate GenerationInv(c: Clock, conn: Holder, crew: Crew) {
    && (crew.walk.Some? ==> crew.walk.value.gen == WorkingGen(c, conn))
    && (crew.proc.Some? ==> crew.proc.value.gen == WorkingGen(c, conn))
    && (crew.health.Some? ==> crew.health.value.gen == WorkingGen(c, conn))
    && (forall p :: p in crew.pollers ==> p.gen == WorkingGen(c, conn))
    && (Emptied(conn) ==> Drainable(crew))
    && (crew.walk.Some? && Inner(crew.walk.value.pc) ==> !Over(c, crew.walk.value.gen))
  }

  /** Until a walk hands over, it is the only one at work. */
  predicate SlotInv(crew: Crew) {
    crew.walk.Some? && !crew.walk.value.pc.Reconciling? ==>
      crew.proc.None? && crew.health.None? && crew.pollers == multiset{}
  }

  /** Never two engines; whoever still runs one once teardown has called Stop is a walk that will stop it. */
  predicate EngineInv(running: nat, conn: Holder, walk: Option<Walk>) {
    && running <= 1
    && (walk.Some? && Stopped(walk.value.pc) ==> running == 0)
    && (conn.Op? && conn.phase.Draining? && walk.None? ==> running == 0)
    && (Emptied(conn) ==> running == 0)
  }

  /** The stored cancel reaches every goroutine, and no context is over before its generation is. */
  ghost predicate TokenInv(c: Clock, conn: Holder, crew: Crew) {
    && (forall g :: g in c.cancelled ==> g < c.generation)
    && (c.token.Some? ==> c.token.value <= c.generation)
    && (conn.Op? && conn.phase.Cancelling? && conn.phase.token.Some? ==> conn.phase.token.value < c.generation)
    && (conn.Op? && (conn.phase.Announcing? || conn.phase.Spawning?) ==>
          c.token == Some(c.generation) && conn.phase.gen == c.generation)
    && (!Drainable(crew) ==>
          if !Fenced(conn) then c.token == Some(c.generation)
          else c.generation > 0
               && if conn.phase.Cancelling? then conn.phase.token == Some(c.generation - 1)
                  else c.generation - 1 in c.cancelled)
  }

  predicate WatchdogInv(conn: Holder, health: Option<HealthWatch>) {
    conn.Switching? && conn.auto <==> health.Some? && health.value.pc.Moving?
  }

  predicate Claims(status: Status) {
    status == Connected || status == Reconnecting
  }

  /** A live configuration is of the current generation, and whoever claims a tunnel has one, or nothing runs at all. */
  predicate LiveInv(t: Tunnel, generation: nat, conn: Holder, walk: Option<Walk>) {
    && (t.live.Some? ==> t.live.value.gen == generation && !Fenced(conn) && !Emptied(conn))
    && (walk.Some? && (walk.value.pc.Publishing? || Published(walk.value.pc)) ==>
          t.live == Some(Live(walk.value.gen, walk.value.plan.tags, walk.value.plan.baked)))
    && (Steering(conn) ==> t.live.Some?)
    && (Claims(t.status) ==>
          t.live.Some? || Fenced(conn) || (conn.Op? && conn.phase.Drained?) || (walk.None? && !Emptied(conn)))
    && (walk.Some? && !Published(walk.value.pc) && !Fenced(conn) ==> !Claims(t.status) && !Steering(conn))
  }

  /** A tunnel is claimed without a live configuration, and not because it is being torn down. */
  predicate Hollow(t: Tunnel, conn: Holder) {
    Claims(t.status) && t.live.None? && !Fenced(conn) && !(conn.Op? && conn.phase.Drained?)
  }

  predicate HollowInv(t: Tunnel, conn: Holder, crew: Crew, running: nat) {
    Hollow(t, conn) ==> Drainable(crew) && running == 0
  }

  /** A failover queued for the current generation leaves a configuration that is still recorded. */
  ghost predicate FailoverQueuedInv(locks: Locks, generation: nat, live: Option<Live>) {
    && (forall kind :: kind in locks.pending && kind.Failover? ==>
          kind.gen <= generation && (kind.gen == generation ==> live.Some?))
    && (locks.conn.Op? && locks.conn.phase.Entered? && locks.conn.kind.Failover? ==>
          locks.conn.kind.gen <= generation && (locks.conn.kind.gen == generation ==> live.Some?))
  }

  /** An off-command attempt past its check runs for the generation it was queued for. */
  predicate QueuedInv(conn: Holder, generation: nat) {
    && (Committed(conn) && OffCommand(conn.kind) ==> conn.kind.gen == generation)
    && (conn.Op? && (conn.phase.Confirmed? || conn.phase.Found?) ==> conn.kind.Failover?)
  }

  /** Once past activation, an acceptance that has to be guarded has verified the tunnel. */
  predicate VerifiedInv(prefs: Prefs, walk: Option<Walk>) {
    walk.Some? && Inner(walk.value.pc) && !walk.value.pc.Activating? && !Published(walk.value.pc) ==>
      Needed(prefs) ==> walk.value.verified
  }

  ghost predicate Inv(s: State) {
    && FenceInv(s.locks, s.crew.walk)
    && GenerationInv(s.clock, s.locks.conn, s.crew)
    && SlotInv(s.crew)
    && EngineInv(s.engine.running, s.locks.conn, s.crew.walk)
    && TokenInv(s.clock, s.locks.conn, s.crew)
    && WatchdogInv(s.locks.conn, s.crew.health)
    && LiveInv(s.tunnel, s.clock.generation, s.locks.conn, s.crew.walk)
    && QueuedInv(s.locks.conn, s.clock.generation)
    && VerifiedInv(s.prefs, s.crew.walk)
    && HollowInv(s.tunnel, s.locks.conn, s.crew, s.engine.running)
    && FailoverQueuedInv(s.locks, s.clock.generation, s.tunnel.live)
  }

  // ----- Every step keeps it -----

  predicate EnvStep(step: Step) {
    step.EngineDies? || step.SetOptions? || step.OtherSetting? || step.KillSwitchBegin?
    || step.KillSwitchEnd? || step.QueueAutoconnect? || step.Acquire? || step.AcquireSwitch?
  }

  lemma SettingsKeepInv(s: State, step: Step, s': State)
    requires Inv(s) && EnvStep(step) && NextEnv(s, step) == Some(s')
    requires step.EngineDies? || step.SetOptions? || step.OtherSetting? || step.QueueAutoconnect?
    ensures Inv(s')
  {
  }

  lemma KillSwitchKeepsInv(s: State, step: Step, s': State)
    requires Inv(s) && EnvStep(step) && NextEnv(s, step) == Some(s')
    requires step.KillSwitchBegin? || step.KillSwitchEnd?
    ensures Inv(s')
  {
  }

  lemma CommandsKeepInv(s: State, step: Step, s': State)
    requires Inv(s) && EnvStep(step) && NextEnv(s, step) == Some(s')
    requires step.AcquireSwitch? || (step.Acquire? && (step.kind.Connect? || step.kind.Disconnect?))
    ensures Inv(s')
  {
  }

  lemma WaitersKeepInv(s: State, step: Step, s': State)
    requires Inv(s) && EnvStep(step) && NextEnv(s, step) == Some(s')
    requires step.Acquire? && !step.kind.Connect? && !step.kind.Disconnect?
    ensures Inv(s')
  {
  }

  lemma StopKeepsInv(s: State)
    requires Inv(s)
    ensures Inv(StopEngine(s))
  {
  }

  lemma ReleaseKeepsInv(s: State)
    requires Inv(s) && s.locks.conn.Op?
    requires s.locks.conn.phase.Entered? || s.locks.conn.phase.Refusing?
    ensures Inv(Release(s))
  {
  }

  lemma ErrorKeepsInv(s: State, node: string)
    requires Inv(s)
    ensures Inv(SetState(s, Error, node))
  {
  }

  lemma RelabelKeepsInv(s: State, node: string)
    requires Inv(s) && Steering(s.locks.conn)
    ensures Inv(SetState(s, Connected, node))
  {
  }

  lemma RefusalKeepsInv(s: State, kind: Kind)
    requires Inv(s) && (kind.Failover? ==> Steering(s.locks.conn))
    ensures Inv(Refusal(s, kind))
  {
    match kind
    case Reapply => ErrorKeepsInv(s, s.tunnel.node);
    case Relaunch(_, node) => ErrorKeepsInv(s, node);
    case Failover(_, node) => RelabelKeepsInv(s, node);
    case _ =>
  }

  lemma RefuseKeepsInv(s: State)
    requires Inv(s) && s.locks.conn.Op? && (s.locks.conn.phase.Begun? || s.locks.conn.phase.Chosen?)
    ensures Inv(Refuse(s, s.locks.conn.kind))
  {
  }

  lemma RefusingKeepsInv(s: State, a: Answer, s': State)
    requires Inv(s) && NextOp(s, a) == Some(s') && s.locks.conn.phase == Refusing(false)
    ensures Inv(s')
  {
    RefusalKeepsInv(s, s.locks.conn.kind);
    ReleaseKeepsInv(Refusal(s, s.locks.conn.kind));
  }

  /** A failover whose teardown failed publishes Connected all the same, over nothing. */
  lemma TornRefusalKeepsInv(s: State, a: Answer, s': State)
    requires Inv(s) && NextOp(s, a) == Some(s') && s.locks.conn.phase == Refusing(true)
    ensures Inv(s')
  {
  }

  lemma EnteredByCommandKeepsInv(s: State, a: Answer, s': State)
    requires Inv(s) && NextOp(s, a) == Some(s')
    requires s.locks.conn.phase.Entered? && (s.locks.conn.kind.Connect? || s.locks.conn.kind.Disconnect?)
    ensures Inv(s')
  {
  }

  lemma EnteredByReapplyKeepsInv(s: State, a: Answer, s': State)
    requires Inv(s) && NextOp(s, a) == Some(s')
    requires s.locks.conn.phase.Entered? && s.locks.conn.kind.Reapply?
    ensures Inv(s')
  {
    ReleaseKeepsInv(s);
    ReleaseKeepsInv(Report(s));
  }

  lemma EnteredOffCommandKeepsInv(s: State, a: Answer, s': State)
    requires Inv(s) && NextOp(s, a) == Some(s')
    requires s.locks.conn.phase.Entered? && OffCommand(s.locks.conn.kind)
    ensures Inv(s')
  {
    ReleaseKeepsInv(s);
  }

  lemma BegunKeepsInv(s: State, a: Answer, s': State)
    requires Inv(s) && NextOp(s, a) == Some(s') && s.locks.conn.phase.Begun?
    ensures Inv(s')
  {
    RefuseKeepsInv(s);
  }

  lemma ChosenKeepsInv(s: State, a: Answer, s': State)
    requires Inv(s) && NextOp(s, a) == Some(s') && s.locks.conn.phase.Chosen?
    ensures Inv(s')
  {
    RefuseKeepsInv(s);
  }

  lemma GuardedKeepsInv(s: State, a: Answer, s': State)
    requires Inv(s) && NextOp(s, a) == Some(s')
    requires s.locks.conn.phase.Confirmed? || s.locks.conn.phase.Found? || s.locks.conn.phase.Guarded?
    ensures Inv(s')
  {
  }

  lemma FenceKeepsInv(s: State, a: Answer, s': State)
    requires Inv(s) && NextOp(s, a) == Some(s')
    requires s.locks.conn.phase.Ready?
    ensures Inv(s')
  {
  }

  lemma StoppingKeepsInv(s: State, a: Answer, s': State)
    requires Inv(s) && NextOp(s, a) == Some(s')
    requires s.locks.conn.phase.Cancelling? || s.locks.conn.phase.Stopping?
    ensures Inv(s')
  {
  }

  lemma DrainKeepsInv(s: State, a: Answer, s': State)
    requires Inv(s) && NextOp(s, a) == Some(s')
    requires s.locks.conn.phase.Draining?
    ensures Inv(s')
  {
  }

  lemma CleanupFailedKeepsInv(s: State)
    requires Inv(s) && s.locks.conn.Op? && s.locks.conn.phase.Drained?
    ensures Inv(CleanupFailed(s, s.locks.conn.kind, s.locks.conn.phase.plan))
  {
  }

  lemma DrainedKeepsInv(s: State, a: Answer, s': State)
    requires Inv(s) && NextOp(s, a) == Some(s')
    requires s.locks.conn.phase.Drained?
    ensures Inv(s')
  {
    CleanupFailedKeepsInv(s);
  }

  lemma LaunchKeepsInv(s: State, a: Answer, s': State)
    requires Inv(s) && NextOp(s, a) == Some(s')
    requires s.locks.conn.phase.Launching? || s.locks.conn.phase.Announcing?
    ensures Inv(s')
  {
  }

  lemma SpawnKeepsInv(s: State, a: Answer, s': State)
    requires Inv(s) && NextOp(s, a) == Some(s')
    requires s.locks.conn.phase.Spawning? || s.locks.conn.phase.Releasing?
    ensures Inv(s')
  {
  }

  lemma OpKeepsInv(s: State, a: Answer, s': State)
    requires Inv(s) && NextOp(s, a) == Some(s')
    ensures Inv(s')
  {
    match s.locks.conn.phase
    case Entered =>
      match s.locks.conn.kind {
        case Connect => EnteredByCommandKeepsInv(s, a, s');
        case Disconnect(_) => EnteredByCommandKeepsInv(s, a, s');
        case Reapply => EnteredByReapplyKeepsInv(s, a, s');
        case _ => EnteredOffCommandKeepsInv(s, a, s');
      }
    case Begun => BegunKeepsInv(s, a, s');
    case Chosen(_, _) => ChosenKeepsInv(s, a, s');
    case Ready(_) => FenceKeepsInv(s, a, s');
    case Cancelling(_, _) => StoppingKeepsInv(s, a, s');
    case Stopping(_) => StoppingKeepsInv(s, a, s');
    case Draining(_) => DrainKeepsInv(s, a, s');
    case Drained(_) => DrainedKeepsInv(s, a, s');
    case Launching(_) => LaunchKeepsInv(s, a, s');
    case Announcing(_, _) => LaunchKeepsInv(s, a, s');
    case Spawning(_, _) => SpawnKeepsInv(s, a, s');
    case Releasing => SpawnKeepsInv(s, a, s');
    case Refusing(torn) => if torn { TornRefusalKeepsInv(s, a, s'); } else { RefusingKeepsInv(s, a, s'); }
    case _ => GuardedKeepsInv(s, a, s');
  }

  lemma EndSwitchKeepsInv(s: State, pc: HealthPc)
    requires Inv(s) && s.locks.conn.Switching? && !pc.Moving?
    ensures Inv(EndSwitch(s, pc))
  {
  }

  lemma SwitchLooksKeepInv(s: State, at: SwitchPhase)
    requires Inv(s) && s.locks.conn.Switching? && (at.Renode? || at.Resolve?)
    ensures Inv(To(s, Switching(s.locks.conn.auto, s.locks.conn.target, at)))
  {
  }

  lemma SwitchChecksKeepInv(s: State, a: Answer, s': State)
    requires Inv(s) && NextSwitch(s, a) == Some(s')
    requires s.locks.conn.at.Recheck? || s.locks.conn.at.Renode?
    ensures Inv(s')
  {
    EndSwitchKeepsInv(s, Watching);
    SwitchLooksKeepInv(s, if s.locks.conn.at.Recheck? then Renode(s.locks.conn.at.degraded) else Resolve);
  }

  lemma SwitchResolvesKeepInv(s: State, a: Answer, s': State)
    requires Inv(s) && NextSwitch(s, a) == Some(s')
    requires s.locks.conn.at.Resolve?
    ensures Inv(s')
  {
    EndSwitchKeepsInv(s, Watching);
    EndSwitchKeepsInv(s, FailingOver);
  }

  lemma SwitchMovesKeepInv(s: State, a: Answer, s': State)
    requires Inv(s) && NextSwitch(s, a) == Some(s')
    requires s.locks.conn.at.Select? || s.locks.conn.at.Confirm?
    ensures Inv(s')
  {
  }

  lemma SwitchEndsKeepInv(s: State, a: Answer, s': State)
    requires Inv(s) && NextSwitch(s, a) == Some(s')
    requires s.locks.conn.at.Revert? || s.locks.conn.at.Commit?
    ensures Inv(s')
  {
  }

  lemma SwitchKeepsInv(s: State, a: Answer, s': State)
    requires Inv(s) && NextSwitch(s, a) == Some(s')
    ensures Inv(s')
  {
    match s.locks.conn.at
    case Recheck(_) => SwitchChecksKeepInv(s, a, s');
    case Resolve => SwitchResolvesKeepInv(s, a, s');
    case Renode(_) => SwitchChecksKeepInv(s, a, s');
    case Select(_, _) => SwitchMovesKeepInv(s, a, s');
    case Confirm(_, _) => SwitchMovesKeepInv(s, a, s');
    case _ => SwitchEndsKeepInv(s, a, s');
  }

  lemma RefuseAcceptanceKeepsInv(s: State)
    requires Inv(s) && s.crew.walk.Some?
    requires var pc := s.crew.walk.value.pc; pc.Checking? || pc.Activating? || pc.Arming? || pc.Rechecking?
    ensures Inv(RefuseAcceptance(s))
  {
  }

  lemma WalkLooksKeepInv(s: State, a: Answer, s': State)
    requires Inv(s) && NextWalk(s, a) == Some(s')
    requires s.crew.walk.value.pc.Top? || s.crew.walk.value.pc.StrategyTop?
    ensures Inv(s')
  {
  }

  lemma WalkChoosesKeepInv(s: State, a: Answer, s': State)
    requires Inv(s) && NextWalk(s, a) == Some(s')
    requires s.crew.walk.value.pc.Choosing?
    ensures Inv(s')
  {
  }

  lemma WalkStartsKeepInv(s: State, a: Answer, s': State)
    requires Inv(s) && NextWalk(s, a) == Some(s')
    requires s.crew.walk.value.pc.Starting?
    ensures Inv(s')
  {
  }

  lemma WalkFailsKeepInv(s: State, a: Answer, s': State)
    requires Inv(s) && NextWalk(s, a) == Some(s')
    requires s.crew.walk.value.pc.StartFailed? || s.crew.walk.value.pc.LocalFailed?
    ensures Inv(s')
  {
  }

  lemma WalkPinsKeepInv(s: State, a: Answer, s': State)
    requires Inv(s) && NextWalk(s, a) == Some(s')
    requires s.crew.walk.value.pc.Probing? && !s.crew.walk.value.pc.pinned
    ensures Inv(s')
  {
  }

  lemma WalkProbesKeepInv(s: State, a: Answer, s': State)
    requires Inv(s) && NextWalk(s, a) == Some(s')
    requires s.crew.walk.value.pc.Probing? && s.crew.walk.value.pc.pinned
    ensures Inv(s')
  {
  }

  lemma WalkDownKeepInv(s: State, a: Answer, s': State)
    requires Inv(s) && NextWalk(s, a) == Some(s')
    requires s.crew.walk.value.pc.Down?
    ensures Inv(s')
  {
  }

  lemma WalkStopsKeepInv(s: State, a: Answer, s': State)
    requires Inv(s) && NextWalk(s, a) == Some(s')
    requires s.crew.walk.value.pc.StopAndNext? || s.crew.walk.value.pc.StopAndExit?
    ensures Inv(s')
  {
  }

  lemma WalkReportsKeepInv(s: State, a: Answer, s': State)
    requires Inv(s) && NextWalk(s, a) == Some(s')
    requires s.crew.walk.value.pc.Failing? || s.crew.walk.value.pc.Refused?
    ensures Inv(s')
  {
  }

  lemma WalkRefusedKeepInv(s: State, a: Answer, s': State)
    requires Inv(s) && NextWalk(s, a) == Some(s')
    requires s.crew.walk.value.pc.RefusedStopped?
    ensures Inv(s')
  {
  }

  lemma AcceptanceBeginsKeepInv(s: State, a: Answer, s': State)
    requires Inv(s) && NextWalk(s, a) == Some(s')
    requires s.crew.walk.value.pc.Up?
    ensures Inv(s')
  {
  }

  lemma AcceptanceChecksKeepInv(s: State, a: Answer, s': State)
    requires Inv(s) && NextWalk(s, a) == Some(s')
    requires s.crew.walk.value.pc.Checking?
    ensures Inv(s')
  {
    RefuseAcceptanceKeepsInv(s);
  }

  lemma AcceptanceActivatesKeepInv(s: State, a: Answer, s': State)
    requires Inv(s) && NextWalk(s, a) == Some(s')
    requires s.crew.walk.value.pc.Activating?
    ensures Inv(s')
  {
    RefuseAcceptanceKeepsInv(s);
  }

  lemma AcceptanceArmsKeepInv(s: State, a: Answer, s': State)
    requires Inv(s) && NextWalk(s, a) == Some(s')
    requires s.crew.walk.value.pc.Arming?
    ensures Inv(s')
  {
    RefuseAcceptanceKeepsInv(s);
  }

  lemma AcceptanceInstallsKeepInv(s: State, a: Answer, s': State)
    requires Inv(s) && NextWalk(s, a) == Some(s')
    requires s.crew.walk.value.pc.Rechecking? || s.crew.walk.value.pc.Installing?
    ensures Inv(s')
  {
  }

  lemma AcceptancePublishesKeepsInv(s: State, a: Answer, s': State)
    requires Inv(s) && NextWalk(s, a) == Some(s')
    requires s.crew.walk.value.pc.Publishing?
    ensures Inv(s')
  {
  }

  lemma AcceptanceHandsKeepsInv(s: State, a: Answer, s': State)
    requires Inv(s) && NextWalk(s, a) == Some(s')
    requires s.crew.walk.value.pc.Handing?
    ensures Inv(s')
  {
  }

  lemma AcceptanceReconcilesKeepInv(s: State, a: Answer, s': State)
    requires Inv(s) && NextWalk(s, a) == Some(s')
    requires s.crew.walk.value.pc.Reconciling?
    ensures Inv(s')
  {
  }

  lemma WalkKeepsInv(s: State, a: Answer, s': State)
    requires Inv(s) && NextWalk(s, a) == Some(s')
    ensures Inv(s')
  {
    match s.crew.walk.value.pc
    case Top => WalkLooksKeepInv(s, a, s');
    case StrategyTop => WalkLooksKeepInv(s, a, s');
    case Choosing => WalkChoosesKeepInv(s, a, s');
    case Starting => WalkStartsKeepInv(s, a, s');
    case StartFailed(_) => WalkFailsKeepInv(s, a, s');
    case LocalFailed => WalkFailsKeepInv(s, a, s');
    case Probing(pinned) => if pinned { WalkProbesKeepInv(s, a, s'); } else { WalkPinsKeepInv(s, a, s'); }
    case Down => WalkDownKeepInv(s, a, s');
    case StopAndNext => WalkStopsKeepInv(s, a, s');
    case StopAndExit => WalkStopsKeepInv(s, a, s');
    case Failing => WalkReportsKeepInv(s, a, s');
    case Refused => WalkReportsKeepInv(s, a, s');
    case RefusedStopped => WalkRefusedKeepInv(s, a, s');
    case Up => AcceptanceBeginsKeepInv(s, a, s');
    case Checking => AcceptanceChecksKeepInv(s, a, s');
    case Activating => AcceptanceActivatesKeepInv(s, a, s');
    case Arming => AcceptanceArmsKeepInv(s, a, s');
    case Rechecking => AcceptanceInstallsKeepInv(s, a, s');
    case Installing => AcceptanceInstallsKeepInv(s, a, s');
    case Publishing => AcceptancePublishesKeepsInv(s, a, s');
    case Handing => AcceptanceHandsKeepsInv(s, a, s');
    case Reconciling => AcceptanceReconcilesKeepInv(s, a, s');
  }

  lemma ProcWatchesKeepInv(s: State, a: Answer, s': State)
    requires Inv(s) && NextProc(s, a) == Some(s')
    requires s.crew.proc.value.pc.Waiting? || s.crew.proc.value.pc.Exited?
    ensures Inv(s')
  {
  }

  lemma ProcReportsKeepInv(s: State, a: Answer, s': State)
    requires Inv(s) && NextProc(s, a) == Some(s')
    requires s.crew.proc.value.pc.Locating? || s.crew.proc.value.pc.Reporting?
    ensures Inv(s')
  {
  }

  lemma HealthWatchesKeepInv(s: State, a: Answer, s': State)
    requires Inv(s) && NextHealth(s, a) == Some(s')
    requires s.crew.health.value.pc.Watching? || s.crew.health.value.pc.Degraded? || s.crew.health.value.pc.Moving?
    ensures Inv(s')
  {
  }

  lemma HealthMovesKeepInv(s: State, a: Answer, s': State)
    requires Inv(s) && NextHealth(s, a) == Some(s')
    requires s.crew.health.value.pc.Trying? || s.crew.health.value.pc.FailingOver?
    ensures Inv(s')
  {
  }

  lemma PollersKeepInv(s: State, pollers: multiset<Poller>)
    requires Inv(s) && forall p :: p in pollers ==> p.gen == WorkingGen(s.clock, s.locks.conn)
    requires pollers != multiset{} ==> s.crew.pollers != multiset{}
    ensures Inv(SetPollers(s, pollers))
  {
  }

  lemma PollerKeepsInv(s: State, p: Poller, stop: bool, s': State)
    requires Inv(s) && NextPoller(s, p, stop) == Some(s')
    ensures Inv(s')
  {
    if p.stopping {
      StopKeepsInv(s);
      PollersKeepInv(StopEngine(s), s.crew.pollers - multiset{p});
    } else if Over(s.clock, p.gen) {
      PollersKeepInv(s, s.crew.pollers - multiset{p});
    } else {
      PollersKeepInv(s, s.crew.pollers - multiset{p} + multiset{p.(stopping := true)});
    }
  }

  lemma EnvKeepsInv(s: State, step: Step, s': State)
    requires Inv(s) && EnvStep(step) && NextEnv(s, step) == Some(s')
    ensures Inv(s')
  {
    match step
    case KillSwitchBegin(_) => KillSwitchKeepsInv(s, step, s');
    case KillSwitchEnd(_, _, _) => KillSwitchKeepsInv(s, step, s');
    case AcquireSwitch(_) => CommandsKeepInv(s, step, s');
    case Acquire(kind) =>
      if kind.Connect? || kind.Disconnect? { CommandsKeepInv(s, step, s'); } else { WaitersKeepInv(s, step, s'); }
    case _ => SettingsKeepInv(s, step, s');
  }

  lemma NextKeepsInv(s: State, step: Step, s': State)
    requires Inv(s) && Next(s, step) == Some(s')
    ensures Inv(s')
  {
    match step
    case OpStep(a) => OpKeepsInv(s, a, s');
    case SwitchStep(a) => SwitchKeepsInv(s, a, s');
    case WalkStep(a) => WalkKeepsInv(s, a, s');
    case ProcStep(a) =>
      var pc := s.crew.proc.value.pc;
      if pc.Waiting? || pc.Exited? { ProcWatchesKeepInv(s, a, s'); } else { ProcReportsKeepInv(s, a, s'); }
    case HealthStep(a) =>
      var pc := s.crew.health.value.pc;
      if pc.Trying? || pc.FailingOver? { HealthMovesKeepInv(s, a, s'); } else { HealthWatchesKeepInv(s, a, s'); }
    case PollerStep(p, stop) => PollerKeepsInv(s, p, stop, s');
    case _ => EnvKeepsInv(s, step, s');
  }

  lemma {:induction false} PathKeepsInv(states: seq<State>, steps: seq<Step>, k: nat)
    requires Path(states, steps) && Inv(states[0]) && k < |states|
    ensures Inv(states[k])
  {
    if k == 0 {
    } else {
      PathKeepsInv(states, steps, k - 1);
      StepOnPath(states, steps, k - 1);
      NextKeepsInv(states[k - 1], steps[k - 1], states[k]);
    }
  }
}
