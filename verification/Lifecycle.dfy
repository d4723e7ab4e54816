/**
  The connection lifecycle as a system of atomic steps (core/control/connect.go, with health.go,
  hotswitch.go, protection.go, tunwatch.go and the set-commands of daemon.go).

  One step is what a goroutine does between two points where another may run: one critical section
  under `mu`, one call into the engine, or one acquisition of `connMu` or `protectionOp`.  A step that
  is not enabled (a held lock, an unfinished wait) has no successor.  What a call returns is an input of
  the step, so a run with every possible answer and every interleaving is a sequence of steps.
 */
module Lifecycle {
  import opened Wrappers

  type Tag = string

  // ----- Options -----

  datatype Multihop = Multihop(enabled: bool, entry: string, exit: string)

  /** The options a set-command applies to a live tunnel, and the connecting window reconciles. */
  datatype Options = Options(fragment: bool, stack: string, multihop: Multihop)

  /** A multihop selection resolved to the outbound tags of one profile. */
  datatype Chain = Chain(enabled: bool, entry: Tag, exit: Tag)

  /** The same options as built into one engine configuration. */
  datatype Baked = Baked(fragment: bool, stack: string, chain: Chain)

  function TagOf(tags: map<string, Tag>, id: string): Tag {
    if id in tags then tags[id] else ""
  }

  /** The engine's selector was last set to this node's tag. */
  predicate Agrees(tags: map<string, Tag>, node: string, selected: Option<Tag>) {
    TagOf(tags, node) != "" && selected == Some(TagOf(tags, node))
  }

  function ResolveMultihop(m: Multihop, tags: map<string, Tag>): Chain {
    Chain(m.enabled, TagOf(tags, m.entry), TagOf(tags, m.exit))
  }

  function Bake(o: Options, tags: map<string, Tag>): Baked {
    Baked(o.fragment, o.stack, ResolveMultihop(o.multihop, tags))
  }

  /** What one connect fixes before its teardown: the options, the kill switch and the profile's tags. */
  datatype Plan = Plan(baked: Baked, killSwitch: bool, tags: map<string, Tag>)

  // ----- Who holds connMu -----

  /** Why connMu is wanted; `gen` is the generation an off-command attempt was queued for. */
  datatype Kind =
    | Connect                             // a connect command
    | Disconnect(release: bool)           // disconnect, profile removal, shutdown; release: drop the protection
    | Reapply                             // a set-command's re-apply
    | Reconcile(gen: nat)                 // options that changed while connecting
    | Relaunch(gen: nat, node: string)    // the kill switch restarts a dead tunnel
    | Autoconnect(gen: nat)
    | Failover(gen: nat, node: string)    // the watchdog leaves a degraded node

  datatype Phase =
    | Entered
    | Confirmed                           // failover: the recovery check passed, the node is next
    | Found                               // failover: and the node is still the one it was queued for
    | Begun                               // startConnect entered
    | Chosen(multihop: Multihop, tags: map<string, Tag>)
    | Guarded(multihop: Multihop, tags: map<string, Tag>)
    | Ready(plan: Option<Plan>)           // about to tear down; None: nothing starts afterwards
    | Cancelling(plan: Option<Plan>, token: Option<nat>)   // fenced: the generation has moved
    | Stopping(plan: Option<Plan>)
    | Draining(plan: Option<Plan>)        // in wg.Wait
    | Drained(plan: Option<Plan>)         // wg.Wait has returned
    | Launching(next: Plan)
    | Announcing(next: Plan, gen: nat)
    | Spawning(next: Plan, gen: nat)
    | Releasing                           // a disconnect about to release the host protection
    | Refusing(torn: bool)                // startConnect returned an error; torn: from its own teardown

  datatype SwitchPhase =
    | Recheck(degraded: string)           // automatic: policy again, now under connMu
    | Renode(degraded: string)            // automatic: still on the degraded node?
    | Resolve
    | Select(tag: Tag, prevTag: Tag)
    | Confirm(tag: Tag, prevTag: Tag)
    | Revert(tag: Tag, prevTag: Tag)
    | Commit(tag: Tag)

  datatype Holder =
    | Free
    | Op(kind: Kind, phase: Phase)
    | Switching(auto: bool, target: string, at: SwitchPhase)

  /** Who holds protectionOp. */
  datatype Fence = Open | ByWalk | ByOp | BySetter(on: bool)

  // ----- The goroutines teardown waits for -----

  datatype WalkPc =
    | Top                                 // candidate loop: superseded?
    | Choosing
    | StrategyTop                         // strategy loop: superseded?
    | Starting
    | StartFailed(local: bool)
    | LocalFailed
    | Probing(pinned: bool)               // pinned: the selector has been set to this attempt's exit
    | Down
    | StopAndNext
    | StopAndExit
    | Failing                             // about to report an error and end
    | Up                                  // traffic flows; waiting for protectionOp to be accepted
    | Checking
    | Activating
    | Arming
    | Rechecking
    | Installing
    | Publishing
    | Handing                             // about to start the watchers
    | Reconciling
    | Refused                             // acceptance refused, protectionOp released
    | RefusedStopped

  /** node: the attempt in hand; verified: this acceptance has verified the tunnel. */
  datatype Walk = Walk(gen: nat, plan: Plan, pc: WalkPc, node: string, verified: bool)

  datatype ProcPc = Waiting | Exited | Locating | Reporting
  datatype ProcWatch = ProcWatch(gen: nat, pc: ProcPc, node: string)

  datatype HealthPc =
    | Watching
    | Degraded
    | Trying
    | Moving                              // holds connMu for a live switch
    | FailingOver

  /** node: the exit the connection came up on; active: the one found degraded; target: the one to move to. */
  datatype HealthWatch = HealthWatch(gen: nat, pc: HealthPc, node: string, active: string, target: string)

  /** The traffic poller, the bypass check and the interface watcher; only the last may stop the engine. */
  datatype Poller = Poller(gen: nat, stopping: bool)

  // ----- The state -----

  datatype Status = Off | Connecting | Connected | Reconnecting | Error

  /** The running configuration as recorded at acceptance, with the options built into it. */
  datatype Live = Live(gen: nat, tagOf: map<string, Tag>, baked: Baked)

  datatype Locks = Locks(
    conn: Holder,
    fence: Fence,
    pending: multiset<Kind>               // goroutines and commands waiting for connMu
  )

  datatype Clock = Clock(
    generation: nat,
    token: Option<nat>,                   // the generation whose context the stored cancel ends
    cancelled: set<nat>                   // generations whose context has been cancelled
  )

  /** What the wait group counts. */
  datatype Crew =
    Crew(walk: Option<Walk>, proc: Option<ProcWatch>, health: Option<HealthWatch>, pollers: multiset<Poller>)

  datatype Engine = Engine(
    running: nat,                         // engine processes
    selected: Option<Tag>                 // what the running engine's selector was last set to
  )

  datatype Tunnel = Tunnel(status: Status, node: string, live: Option<Live>)

  datatype Prefs = Prefs(
    legacy: bool,                         // no host protection on this platform
    desired: Options,
    reported: bool,                       // since the last option change or teardown, a failed re-apply was reported
    wanted: bool,                         // the kill switch preference
    enforced: bool                        // the host policy is in place
  )

  datatype State = State(locks: Locks, clock: Clock, crew: Crew, engine: Engine, tunnel: Tunnel, prefs: Prefs)

  function Start(desired: Options, wanted: bool, enforced: bool, legacy: bool): State {
    State(Locks(Free, Open, multiset{}), Clock(0, None, {}), Crew(None, None, None, multiset{}), Engine(0, None),
          Tunnel(Off, "", None), Prefs(legacy, desired, false, wanted, enforced))
  }

  /** What a step's calls answer. */
  datatype Answer = Answer(ok: bool, alt: bool, node: string, tags: map<string, Tag>)

  datatype Step =
    | EngineDies
    | SetOptions(options: Options)
    | OtherSetting                        // a set-command whose option the reconcile does not compare
    | KillSwitchBegin(on: bool)
    | KillSwitchEnd(ok: bool, prepared: bool, reapply: bool)
    | QueueAutoconnect
    | Acquire(kind: Kind)
    | AcquireSwitch(target: string)
    | OpStep(answer: Answer)
    | SwitchStep(answer: Answer)
    | WalkStep(answer: Answer)
    | ProcStep(answer: Answer)
    | HealthStep(answer: Answer)
    | PollerStep(poller: Poller, stop: bool)

  predicate Current(c: Clock, gen: nat) {
    c.generation == gen
  }

  /** A goroutine of this generation reads its context or the generation and finds it over. */
  predicate Over(c: Clock, gen: nat) {
    gen in c.cancelled || !Current(c, gen)
  }

  /** The policy gate of automatic recovery; the budget itself is an input. */
  predicate Recoverable(s: State, gen: nat, budget: bool) {
    budget && Current(s.clock, gen) && s.tunnel.status == Connected
  }

  predicate Needed(p: Prefs) {
    !p.legacy && (p.wanted || p.enforced)
  }

  // ----- Small updates -----

  function To(s: State, conn: Holder): State {
    s.(locks := s.locks.(conn := conn))
  }

  function SetFence(s: State, fence: Fence): State {
    s.(locks := s.locks.(fence := fence))
  }

  /** One more goroutine or command waits for connMu. */
  function Await(s: State, kind: Kind): State {
    s.(locks := s.locks.(pending := s.locks.pending + multiset{kind}))
  }

  function SetState(s: State, status: Status, node: string): State {
    s.(tunnel := s.tunnel.(status := status, node := node))
  }

  function StopEngine(s: State): State {
    s.(engine := s.engine.(running := 0))
  }

  function SetSelected(s: State, tag: Tag): State {
    s.(engine := s.engine.(selected := Some(tag)))
  }

  function SetEnforced(s: State, enforced: bool): State {
    s.(prefs := s.prefs.(enforced := enforced))
  }

  function Report(s: State): State {
    s.(prefs := s.prefs.(reported := true))
  }

  function SetWalk(s: State, walk: Option<Walk>): State {
    s.(crew := s.crew.(walk := walk))
  }

  function ToPc(s: State, pc: WalkPc): State {
    if s.crew.walk.None? then s else SetWalk(s, Some(s.crew.walk.value.(pc := pc)))
  }

  function SetProc(s: State, proc: Option<ProcWatch>): State {
    s.(crew := s.crew.(proc := proc))
  }

  function SetHealth(s: State, health: Option<HealthWatch>): State {
    s.(crew := s.crew.(health := health))
  }

  function SetPollers(s: State, pollers: multiset<Poller>): State {
    s.(crew := s.crew.(pollers := pollers))
  }

  // ----- Commands and the environment -----

  function NextEnv(s: State, step: Step): Option<State>
    requires step.EngineDies? || step.SetOptions? || step.OtherSetting? || step.KillSwitchBegin?
             || step.KillSwitchEnd? || step.QueueAutoconnect? || step.Acquire? || step.AcquireSwitch?
  {
    match step
    case EngineDies =>
      if s.engine.running == 0 then None
      else Some(s.(engine := s.engine.(running := s.engine.running - 1)))
    case SetOptions(o) =>
      if o == s.prefs.desired then Some(s)
      else Some(Await(s.(prefs := s.prefs.(desired := o, reported := false)), Reapply))
    case OtherSetting => Some(Await(s, Reapply))
    case KillSwitchBegin(on) =>
      if s.locks.fence != Open then None else Some(SetFence(s.(prefs := s.prefs.(wanted := on)), BySetter(on)))
    case KillSwitchEnd(ok, prepared, reapply) =>
      if !s.locks.fence.BySetter? then None
      else
        // OFF releases the policy, ON may prepare it; a failure leaves it as it was and skips the re-apply.
        var was := s.prefs.enforced;
        var enforced := if !ok then was else if s.locks.fence.on then was || (prepared && !s.prefs.legacy) else false;
        var s' := SetFence(SetEnforced(s, enforced), Open);
        Some(if ok && reapply then Await(s', Reapply) else s')
    case QueueAutoconnect => Some(Await(s, Autoconnect(s.clock.generation)))
    case Acquire(kind) =>
      if s.locks.conn != Free then None
      else if kind.Connect? || kind.Disconnect? then Some(To(s, Op(kind, Entered)))
      else if kind !in s.locks.pending then None
      else Some(s.(locks := s.locks.(conn := Op(kind, Entered), pending := s.locks.pending - multiset{kind})))
    case AcquireSwitch(target) =>
      if s.locks.conn != Free then None else Some(To(s, Switching(false, target, Resolve)))
  }

  // ----- startConnect, teardown and their callers -----

  function Release(s: State): State {
    To(s, Free)
  }

  /** The fence of teardown: whatever belongs to the generation so far is over. */
  function Bump(s: State): State {
    s.(clock := s.clock.(generation := s.clock.generation + 1, token := None), tunnel := s.tunnel.(live := None),
       prefs := s.prefs.(reported := false))
  }

  /** startConnect returned an error: what each caller does about it. */
  function Refusal(s: State, kind: Kind): State {
    match kind
    case Reapply => SetState(s, Error, s.tunnel.node)
    case Relaunch(_, node) => SetState(s, Error, node)
    case Reconcile(_) => Report(s)
    case Failover(_, node) => SetState(s, Connected, node)
    case _ => s
  }

  function Refuse(s: State, kind: Kind): State {
    To(s, Op(kind, Refusing(false)))
  }

  /** The checks a caller makes under connMu before it starts anything. */
  function NextEntered(s: State, kind: Kind, a: Answer): State {
    match kind
    case Connect => To(s, Op(kind, Begun))
    case Disconnect(_) => To(s, Op(kind, Ready(None)))
    case Reapply =>
      if s.tunnel.status != Connected || s.tunnel.node == "" then Release(s)
      else if !a.ok then Release(Report(s))      // the profile is no longer stored
      else To(s, Op(kind, Begun))
    case Failover(gen, _) =>
      if Recoverable(s, gen, a.ok) then To(s, Op(kind, Confirmed)) else Release(s)
    case _ =>
      if Current(s.clock, kind.gen) then To(s, Op(kind, Begun)) else Release(s)
  }

  /** teardown could not clear the system proxy: it publishes that, and returns it as its error. */
  function CleanupFailed(s: State, kind: Kind, plan: Option<Plan>): State {
    var s' := SetState(s, Error, "");
    if plan.Some? then To(s', Op(kind, Refusing(true)))
    else if kind == Disconnect(true) then To(s', Op(kind, Releasing))
    else Release(s')
  }

  predicate Drainable(c: Crew) {
    c.walk.None? && c.proc.None? && c.health.None? && c.pollers == multiset{}
  }

  function NextOp(s: State, a: Answer): Option<State> {
    if !s.locks.conn.Op? then None
    else
      var kind := s.locks.conn.kind;
      match s.locks.conn.phase
      case Entered => Some(NextEntered(s, kind, a))
      case Confirmed =>
        // a.ok: the profile is still stored
        if kind.Failover? && s.tunnel.node == kind.node && a.ok then Some(To(s, Op(kind, Found)))
        else Some(Release(s))
      case Found =>
        if kind.Failover? then Some(To(SetState(s, Reconnecting, kind.node), Op(kind, Begun))) else None
      case Begun =>
        if a.ok then Some(To(s, Op(kind, Chosen(s.prefs.desired.multihop, a.tags)))) else Some(Refuse(s, kind))
      case Chosen(multihop, tags) =>
        if s.locks.fence != Open then None
        else if s.prefs.legacy then Some(To(s, Op(kind, Guarded(multihop, tags))))
        else if !a.ok then Some(Refuse(s, kind))
        else Some(To(SetEnforced(s, s.prefs.wanted || s.prefs.enforced), Op(kind, Guarded(multihop, tags))))
      case Guarded(multihop, tags) =>
        var plan := Plan(Bake(s.prefs.desired.(multihop := multihop), tags), s.prefs.wanted, tags);
        Some(To(s, Op(kind, Ready(Some(plan)))))
      case Ready(plan) =>
        if s.locks.fence != Open then None
        else Some(To(SetFence(Bump(s), ByOp), Op(kind, Cancelling(plan, s.clock.token))))
      case Cancelling(plan, token) =>
        var cancelled := s.clock.cancelled + if token.Some? then {token.value} else {};
        Some(To(SetFence(s.(clock := s.clock.(cancelled := cancelled)), Open), Op(kind, Stopping(plan))))
      case Stopping(plan) => Some(To(StopEngine(s), Op(kind, Draining(plan))))
      case Draining(plan) => if Drainable(s.crew) then Some(To(s, Op(kind, Drained(plan)))) else None
      case Drained(plan) =>
        // a.ok: the system proxy is clear
        if !a.ok then Some(CleanupFailed(s, kind, plan))
        else if plan.Some? then Some(To(SetState(s, Connecting, ""), Op(kind, Launching(plan.value))))
        else if kind == Disconnect(true) then Some(To(SetState(s, Off, ""), Op(kind, Releasing)))
        else Some(Release(SetState(s, Off, "")))
      case Launching(plan) =>
        var gen := s.clock.generation + 1;
        Some(To(s.(clock := s.clock.(generation := gen, token := Some(gen))), Op(kind, Announcing(plan, gen))))
      case Announcing(plan, gen) => Some(To(SetState(s, Connecting, ""), Op(kind, Spawning(plan, gen))))
      case Spawning(plan, gen) => Some(Release(SetWalk(s, Some(Walk(gen, plan, Top, "", false)))))
      case Releasing =>
        if s.locks.fence != Open then None
        else Some(Release(SetEnforced(s, s.prefs.enforced && !a.ok)))
      case Refusing(_) => Some(Release(Refusal(s, kind)))
  }

  // ----- A live switch, under connMu -----

  /** The switch is over; an automatic one hands the watchdog its verdict. */
  function EndSwitch(s: State, pc: HealthPc): State {
    var health := s.crew.health;
    var auto := s.locks.conn.Switching? && s.locks.conn.auto;
    var told := if auto && health.Some? then Some(health.value.(pc := pc)) else health;
    To(SetHealth(s, told), Free)
  }

  /** Fall through to a reconnect. */
  function AbandonSwitch(s: State): State {
    var health := s.crew.health;
    EndSwitch(s, if health.Some? && health.value.pc.Moving? then FailingOver else Watching)
  }

  /** The running engine can be moved to the target: liveSwitchTarget. */
  predicate Steerable(t: Tunnel, generation: nat, target: string) {
    && t.status == Connected && t.live.Some? && t.live.value.gen == generation
    && target != "" && target != t.node && TagOf(t.live.value.tagOf, target) != ""
  }

  function NextSwitch(s: State, a: Answer): Option<State> {
    if !s.locks.conn.Switching? then None
    else
      var auto, target := s.locks.conn.auto, s.locks.conn.target;
      match s.locks.conn.at
      case Recheck(degraded) =>
        if s.crew.health.Some? && Recoverable(s, s.crew.health.value.gen, a.ok)
        then Some(To(s, Switching(auto, target, Renode(degraded))))
        else Some(EndSwitch(s, Watching))
      case Renode(degraded) =>
        if s.tunnel.node == degraded then Some(To(s, Switching(auto, target, Resolve)))
        else Some(EndSwitch(s, Watching))
      case Resolve =>
        // a.ok: the request names the running profile and the target is a member of the selector
        if a.ok && Steerable(s.tunnel, s.clock.generation, target) then
          var tags := s.tunnel.live.value.tagOf;
          Some(To(s, Switching(auto, target, Select(TagOf(tags, target), TagOf(tags, s.tunnel.node)))))
        else Some(AbandonSwitch(s))
      case Select(tag, prevTag) =>
        if a.ok then Some(To(SetSelected(s, tag), Switching(auto, target, Confirm(tag, prevTag))))
        else Some(AbandonSwitch(s))
      case Confirm(tag, prevTag) =>
        Some(To(s, Switching(auto, target, if a.ok then Commit(tag) else Revert(tag, prevTag))))
      case Revert(_, prevTag) =>
        Some(AbandonSwitch(if prevTag != "" && a.ok then SetSelected(s, prevTag) else s))
      case Commit(_) => Some(EndSwitch(SetState(s, Connected, target), Watching))
  }

  // ----- The fallback walk -----

  /** recordSuccess returns an error: protectionOp is released first. */
  function RefuseAcceptance(s: State): State {
    ToPc(SetFence(s, Open), Refused)
  }

  function NextAcceptance(s: State, a: Answer): Option<State>
    requires s.crew.walk.Some?
  {
    var w := s.crew.walk.value;
    match w.pc
    case Up => if s.locks.fence != Open then None else Some(ToPc(SetFence(s, ByWalk), Checking))
    case Checking => Some(if Over(s.clock, w.gen) then RefuseAcceptance(s) else ToPc(s, Activating))
    case Activating =>
      if s.prefs.legacy then Some(SetWalk(s, Some(w.(pc := Arming, verified := false))))
      else if !a.ok then Some(RefuseAcceptance(s))
      else if Needed(s.prefs) then Some(SetWalk(SetEnforced(s, true), Some(w.(pc := Arming, verified := true))))
      else Some(SetWalk(s, Some(w.(pc := Arming, verified := false))))
    case Arming => Some(if a.ok then ToPc(s, Rechecking) else RefuseAcceptance(s))
    case Rechecking => Some(if Over(s.clock, w.gen) then RefuseAcceptance(s) else ToPc(s, Installing))
    case Installing =>
      var live := if Current(s.clock, w.gen) then Some(Live(w.gen, w.plan.tags, w.plan.baked)) else s.tunnel.live;
      Some(ToPc(s.(tunnel := s.tunnel.(live := live)), Publishing))
    case Publishing => Some(ToPc(SetState(s, Connected, w.node), Handing))
    case Handing =>
      var poller := Poller(w.gen, false);
      var s' := SetProc(s, Some(ProcWatch(w.gen, Waiting, w.node)));
      var s'' := SetHealth(s', Some(HealthWatch(w.gen, Watching, w.node, w.node, "")));
      Some(ToPc(SetPollers(s'', s.crew.pollers + multiset{poller, poller, poller}), Reconciling))
    case Reconciling =>
      var settled := w.plan.killSwitch == s.prefs.wanted && w.plan.baked == Bake(s.prefs.desired, w.plan.tags);
      var s' := SetWalk(SetFence(s, Open), None);
      if settled then Some(s')
      else if !a.ok then Some(Report(s'))        // the profile is no longer stored
      else Some(Await(s', Reconcile(w.gen)))
    case _ => None
  }

  function NextWalk(s: State, a: Answer): Option<State> {
    if s.crew.walk.None? then None
    else
      var w := s.crew.walk.value;
      match w.pc
      case Top => Some(ToPc(s, if Over(s.clock, w.gen) then StopAndExit else Choosing))
      case Choosing =>
        if a.ok then
          // every candidate has an identifier and a tag of its own
          if a.node == "" || TagOf(w.plan.tags, a.node) == "" then None
          else Some(SetWalk(s, Some(w.(pc := StrategyTop, node := a.node))))
        else Some(if Current(s.clock, w.gen) then ToPc(s, Failing) else SetWalk(s, None))
      case StrategyTop => Some(ToPc(s, if Over(s.clock, w.gen) then StopAndExit else Starting))
      case Starting =>
        if a.ok then Some(ToPc(s.(engine := Engine(s.engine.running + 1, None)), Probing(false)))
        else Some(ToPc(s, if a.alt then Top else StartFailed(a.node != "")))    // alt: the config would not build
      case StartFailed(local) =>
        Some(ToPc(s, if !Current(s.clock, w.gen) then StopAndExit else if local then LocalFailed else Top))
      case LocalFailed => Some(ToPc(StopEngine(s), Failing))
      case Probing(pinned) =>
        if !pinned && a.ok then Some(ToPc(SetSelected(s, TagOf(w.plan.tags, w.node)), Probing(true)))
        else if pinned && a.ok && Current(s.clock, w.gen) then Some(ToPc(s, Up))
        else Some(ToPc(s, Down))
      case Down => Some(ToPc(s, if Current(s.clock, w.gen) then StopAndNext else StopAndExit))
      case StopAndNext => Some(ToPc(StopEngine(s), if a.ok then StrategyTop else Top))
      case StopAndExit => Some(SetWalk(StopEngine(s), None))
      case Failing => Some(SetWalk(SetState(s, Error, ""), None))
      case Refused => Some(ToPc(StopEngine(s), RefusedStopped))
      case RefusedStopped => Some(if Current(s.clock, w.gen) then ToPc(s, Failing) else SetWalk(s, None))
      case _ => NextAcceptance(s, a)
  }

  // ----- The watchers -----

  function NextProc(s: State, a: Answer): Option<State> {
    if s.crew.proc.None? then None
    else
      var p := s.crew.proc.value;
      match p.pc
      case Waiting =>
        if p.gen in s.clock.cancelled && (a.ok || s.engine.running > 0) then Some(SetProc(s, None))
        else if s.engine.running == 0 then Some(SetProc(s, Some(p.(pc := Exited))))
        else None
      case Exited => Some(SetProc(s, if Current(s.clock, p.gen) then Some(p.(pc := Locating)) else None))
      case Locating =>
        Some(SetProc(s, Some(p.(pc := Reporting, node := if s.tunnel.node != "" then s.tunnel.node else p.node))))
      case Reporting =>
        // a.ok: the budget is not spent and the profile is still stored
        if s.prefs.wanted && a.ok then Some(Await(SetProc(s, None), Relaunch(p.gen, p.node)))
        else Some(SetState(SetProc(s, None), Error, p.node))
  }

  function NextHealth(s: State, a: Answer): Option<State> {
    if s.crew.health.None? then None
    else
      var h := s.crew.health.value;
      match h.pc
      case Watching =>
        if Over(s.clock, h.gen) then Some(SetHealth(s, None))
        else if a.ok then
          Some(SetHealth(s, Some(h.(pc := Degraded, active := if s.tunnel.node != "" then s.tunnel.node else h.node))))
        else None
      case Degraded =>
        // a.alt: the scan found an exit that carries traffic
        var steerable := s.tunnel.live.Some? && s.tunnel.live.value.gen == h.gen;
        var pc := if !Recoverable(s, h.gen, a.ok) then Watching else if steerable && a.alt then Trying else FailingOver;
        Some(SetHealth(s, Some(h.(pc := pc, target := a.node))))
      case Trying =>
        // TryLock
        if s.locks.conn == Free
        then Some(To(SetHealth(s, Some(h.(pc := Moving))), Switching(true, h.target, Recheck(h.active))))
        else Some(SetHealth(s, Some(h.(pc := FailingOver))))
      case Moving => None
      case FailingOver =>
        // a.alt: no multihop chain, the profile is stored and has another node
        var s' := SetHealth(s, Some(h.(pc := Watching)));
        Some(if Recoverable(s, h.gen, a.ok) && a.alt then Await(s', Failover(h.gen, h.active)) else s')
  }

  function NextPoller(s: State, p: Poller, stop: bool): Option<State> {
    if p !in s.crew.pollers then None
    else if p.stopping then Some(SetPollers(StopEngine(s), s.crew.pollers - multiset{p}))
    else if Over(s.clock, p.gen) then Some(SetPollers(s, s.crew.pollers - multiset{p}))
    else if stop then Some(SetPollers(s, s.crew.pollers - multiset{p} + multiset{p.(stopping := true)}))
    else None
  }

  // ----- Runs -----

  function Next(s: State, step: Step): Option<State> {
    match step
    case OpStep(a) => NextOp(s, a)
    case SwitchStep(a) => NextSwitch(s, a)
    case WalkStep(a) => NextWalk(s, a)
    case ProcStep(a) => NextProc(s, a)
    case HealthStep(a) => NextHealth(s, a)
    case PollerStep(p, stop) => NextPoller(s, p, stop)
    case _ => NextEnv(s, step)
  }

  /** Step i of a run leads from state i to state i + 1. */
  predicate Taken(states: seq<State>, steps: seq<Step>, i: nat)
    requires i < |steps| && |states| == |steps| + 1
  {
    Next(states[i], steps[i]) == Some(states[i + 1])
  }

  /** The states passed through by a sequence of steps, each of them enabled. */
  ghost predicate Path(states: seq<State>, steps: seq<Step>) {
    |states| == |steps| + 1 && forall i :: 0 <= i < |steps| ==> Taken(states, steps, i)
  }

  lemma StepOnPath(states: seq<State>, steps: seq<Step>, i: nat)
    requires Path(states, steps) && i < |steps|
    ensures Next(states[i], steps[i]) == Some(states[i + 1])
  {
    assert Taken(states, steps, i);
  }

  /** A start of the daemon: nothing runs, and nobody holds or waits for a lock. */
  predicate Initial(s: State) {
    s == Start(s.prefs.desired, s.prefs.wanted, s.prefs.enforced, s.prefs.legacy)
  }

  /** A run of the daemon: any interleaving, with any answer of every call. */
  ghost predicate IsRun(states: seq<State>, steps: seq<Step>) {
    Path(states, steps) && Initial(states[0])
  }

  function Last(states: seq<State>): State
    requires states != []
  {
    states[|states| - 1]
  }

  lemma Append(states: seq<State>, steps: seq<Step>, step: Step, s: State)
    requires Path(states, steps) && Next(Last(states), step) == Some(s)
    ensures Path(states + [s], steps + [step]) && Last(states + [s]) == s
  {
    var states', steps' := states + [s], steps + [step];
    forall i: nat | i < |steps'|
      ensures Taken(states', steps', i)
    {
      if i < |steps| {
        assert Taken(states, steps, i);
      }
    }
  }

  lemma Prepend(s: State, step: Step, states: seq<State>, steps: seq<Step>)
    requires Path(states, steps) && Next(s, step) == Some(states[0])
    ensures Path([s] + states, [step] + steps) && Last([s] + states) == Last(states)
  {
    var states', steps' := [s] + states, [step] + steps;
    forall i: nat | i < |steps'|
      ensures Taken(states', steps', i)
    {
      if i > 0 {
        assert Taken(states, steps, i - 1);
      }
    }
  }

  /** One path after another. */
  lemma {:induction false} Join(a: seq<State>, first: seq<Step>, b: seq<State>, second: seq<Step>)
    requires Path(a, first) && Path(b, second) && Last(a) == b[0]
    ensures Path(a + b[1..], first + second) && Last(a + b[1..]) == Last(b)
  {
    var states, steps := a + b[1..], first + second;
    forall i: nat | i < |steps|
      ensures Taken(states, steps, i)
    {
      if i < |first| {
        assert Taken(a, first, i);
      } else {
        assert Taken(b, second, i - |first|);
      }
    }
  }
}
