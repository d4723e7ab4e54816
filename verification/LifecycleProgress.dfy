/**
  Every hold of connMu can be brought to its end, and from every reachable state a connection can come up
  (core/control/connect.go, handleConnect, handleDisconnect, runFallback and recordSuccess).
 */
module LifecycleProgress {
  import opened Wrappers
  import opened Lifecycle
  import opened LifecycleInvariant
  import opened LifecycleSafety
  import opened LifecycleDrain
  import opened LifecycleCommands

  // ----- The end of a hold -----

  function PhaseLeft(phase: Phase): nat {
    match phase
    case Entered => 14
    case Confirmed => 13
    case Found => 12
    case Begun => 11
    case Chosen(_, _) => 10
    case Guarded(_, _) => 9
    case Ready(_) => 8
    case Cancelling(_, _) => 7
    case Stopping(_) => 6
    case Draining(_) => 5
    case Drained(_) => 4
    case Launching(_) => 3
    case Announcing(_, _) => 2
    case _ => 1
  }

  function Willing(tags: map<string, Tag>): Answer {
    Answer(true, true, "", tags)
  }

  /** The holder's calls succeed, and the profile has these tags. */
  predicate AllWilling(steps: seq<Step>, tags: map<string, Tag>) {
    forall i :: 0 <= i < |steps| && steps[i].OpStep? ==> steps[i].answer == Willing(tags)
  }

  lemma HolderGoesOn(s: State, a: Answer, s': State)
    requires Inv(s) && NextOp(s, a) == Some(s') && a.ok
    ensures s'.locks.conn == Free || (s'.locks.conn.Op? && PhaseLeft(s'.locks.conn.phase) < PhaseLeft(s.locks.conn.phase))
  {
    if s.locks.conn.phase.Entered? {
      assert s' == NextEntered(s, s.locks.conn.kind, a);
    }
  }

  /** What the holder's next step waits for comes true. */
  lemma HolderIsFreed(s: State, a: Answer) returns (states: seq<State>, steps: seq<Step>)
    requires Inv(s) && s.locks.conn.Op?
    ensures Path(states, steps) && states[0] == s && OthersOnly(steps)
    ensures Inv(Last(states)) && Last(states).locks.conn == s.locks.conn && NextOp(Last(states), a).Some?
  {
    var phase := s.locks.conn.phase;
    if phase.Draining? {
      states, steps := DrainCanEnd(s);
    } else if phase.Chosen? || phase.Ready? || phase.Releasing? {
      states, steps := FenceOpens(s);
    } else {
      states, steps := [s], [];
    }
    HolderIsEnabled(Last(states), a);
  }

  lemma HolderIsEnabled(s: State, a: Answer)
    requires Inv(s) && s.locks.conn.Op?
    requires s.locks.conn.phase.Draining? ==> Drainable(s.crew)
    requires s.locks.conn.phase.Chosen? || s.locks.conn.phase.Ready? || s.locks.conn.phase.Releasing? ==>
               s.locks.fence == Open
    ensures NextOp(s, a).Some?
  {
  }

  lemma {:induction false} HoldCanEndFrom(s: State, tags: map<string, Tag>)
      returns (states: seq<State>, steps: seq<Step>)
    requires Inv(s) && s.locks.conn.Op?
    ensures Path(states, steps) && states[0] == s && NoCommands(steps) && AllWilling(steps, tags)
    ensures Last(states).locks.conn == Free
    decreases PhaseLeft(s.locks.conn.phase)
  {
    states, steps := HolderIsFreed(s, Willing(tags));
    var mid := Last(states);
    var s' := NextOp(mid, Willing(tags)).value;
    HolderGoesOn(mid, Willing(tags), s');
    OpKeepsInv(mid, Willing(tags), s');
    Append(states, steps, OpStep(Willing(tags)), s');
    states, steps := states + [s'], steps + [OpStep(Willing(tags))];
    if s'.locks.conn != Free {
      var onward, further := HoldCanEndFrom(s', tags);
      Join(states, steps, onward, further);
      states, steps := states + onward[1..], steps + further;
    }
  }

  /** A path is cut off at the first state in which connMu is free. */
  lemma {:induction false} UntilFree(states: seq<State>, steps: seq<Step>) returns (k: nat)
    requires Path(states, steps) && Last(states).locks.conn == Free
    ensures k < |states| && states[k].locks.conn == Free && forall m :: 0 <= m < k ==> HeldAt(states, m)
    ensures Path(states[..k + 1], steps[..k])
  {
    k := 0;
    while states[k].locks.conn != Free
      invariant k < |states|
      invariant forall m :: 0 <= m < k ==> HeldAt(states, m)
      decreases |states| - k
    {
      k := k + 1;
    }
    CutAt(states, steps, k);
  }

  lemma CutAt(states: seq<State>, steps: seq<Step>, k: nat)
    requires Path(states, steps) && k < |states|
    ensures Path(states[..k + 1], steps[..k])
  {
    var states', steps' := states[..k + 1], steps[..k];
    forall i: nat | i < k
      ensures Taken(states', steps', i)
    {
      assert Taken(states, steps, i);
    }
  }

  /**
    From every reachable state in which connMu is held by a command or an attempt, wherever it is and whoever else is
    at work, the hold can end without any further command.
   */
  lemma EveryHoldCanEnd(states: seq<State>, steps: seq<Step>, tags: map<string, Tag>)
      returns (onward: seq<State>, further: seq<Step>)
    requires IsRun(states, steps) && Last(states).locks.conn.Op?
    ensures Path(onward, further) && onward[0] == Last(states) && NoCommands(further) && AllWilling(further, tags)
    ensures Last(onward).locks.conn == Free && forall m :: 0 <= m < |further| ==> HeldAt(onward, m)
  {
    ReachableInv(states, steps, |states| - 1);
    onward, further := HoldCanEndFrom(Last(states), tags);
    var k := UntilFree(onward, further);
    ghost var whole := onward;
    onward, further := onward[..k + 1], further[..k];
    forall m: nat | m < k
      ensures HeldAt(onward, m)
    {
      assert HeldAt(whole, m);
    }
  }

  /** From every reachable state in which connMu is free, a command or anybody waiting can take it, and end the hold. */
  lemma ACommandCanEnd(states: seq<State>, steps: seq<Step>, kind: Kind, tags: map<string, Tag>)
      returns (states': seq<State>, steps': seq<Step>)
    requires IsRun(states, steps) && Last(states).locks.conn == Free
    requires kind.Connect? || kind.Disconnect? || kind in Last(states).locks.pending
    ensures states <= states' && steps <= steps' && OneHold(states', steps', |steps|, |steps'|, kind)
    ensures NoCommands(steps'[|steps| + 1..]) && AllWilling(steps'[|steps| + 1..], tags)
  {
    var s' := NextEnv(Last(states), Acquire(kind)).value;
    assert Next(Last(states), Acquire(kind)) == NextEnv(Last(states), Acquire(kind));
    Append(states, steps, Acquire(kind), s');
    var taken, asked := states + [s'], steps + [Acquire(kind)];
    var onward, further := EveryHoldCanEnd(taken, asked, tags);
    Join(taken, asked, onward, further);
    states', steps' := taken + onward[1..], asked + further;
    forall m: nat | |steps| < m < |steps'|
      ensures HeldAt(states', m)
    {
      assert HeldAt(onward, m - |asked|);
    }
    assert steps'[|steps| + 1..] == further;
  }

  lemma WillingHolds(states: seq<State>, steps: seq<Step>, i: nat, k: nat)
    requires |states| == |steps| + 1 && i < k <= |steps| && NoCommands(steps[i + 1..])
    ensures !UnclearedBy(states, steps, i, k)
    ensures steps[k - 1].OpStep? && i + 1 < k ==> steps[k - 1].answer.ok
    ensures forall m :: i < m < k && ObjectsAt(states, steps, m) ==>
              states[m].locks.conn.Op? && TurnsAway(states[m], steps[m])
  {
    forall m: nat | i < m < k
      ensures steps[m].OpStep? ==> steps[m].answer.ok
    {
      assert steps[m] == steps[i + 1..][m - (i + 1)];
    }
  }

  /**
    A disconnect can always be carried out: from every reachable state in which connMu is free, it can take it, and
    come back with nothing left, the published state off and, if asked to, the protection released.
   */
  lemma ADisconnectCanComplete(states: seq<State>, steps: seq<Step>, release: bool)
      returns (states': seq<State>, steps': seq<Step>)
    requires IsRun(states, steps) && Last(states).locks.conn == Free
    ensures states <= states' && steps <= steps' && OneHold(states', steps', |steps|, |steps'|, Disconnect(release))
    ensures NoCommands(steps'[|steps| + 1..])
    ensures TornDown(Last(states), Last(states')) && Last(states').tunnel.status == Off
    ensures release ==> !Last(states').prefs.enforced
  {
    states', steps' := ACommandCanEnd(states, steps, Disconnect(release), map[]);
    ADisconnectDisconnects(states', steps', |steps|, |steps'|, release);
    WillingHolds(states', steps', |steps|, |steps'|);
    assert states'[|steps|] == Last(states);
    HoldsBegin(states', steps', |steps|, |steps'|, Disconnect(release));
  }

  /** An attempt that no check of its own turns away: a connect, or one queued for this generation. */
  predicate Timely(kind: Kind, generation: nat) {
    kind.Connect? || ((kind.Reconcile? || kind.Relaunch? || kind.Autoconnect?) && kind.gen == generation)
  }

  lemma TimelyAttemptsMeetNoObjection(states: seq<State>, steps: seq<Step>, i: nat, k: nat, kind: Kind)
    requires OneHold(states, steps, i, k, kind) && NoCommands(steps[i + 1..])
    requires Timely(kind, states[i].clock.generation)
    ensures !ObjectedBy(states, steps, i, k)
  {
    WillingHolds(states, steps, i, k);
    forall m: nat | i < m < k
      ensures !ObjectsAt(states, steps, m)
    {
      TimelyIsNotTurnedAway(states, steps, i, k, kind, m);
    }
  }

  lemma TimelyIsNotTurnedAway(states: seq<State>, steps: seq<Step>, i: nat, k: nat, kind: Kind, m: nat)
    requires OneHold(states, steps, i, k, kind) && i < m < k && Timely(kind, states[i].clock.generation)
    ensures !TurnsAway(states[m], steps[m])
  {
    HoldsStayOnCourse(states, steps, i, k, kind, m);
  }

  /**
    A connect can always be carried out, and so can whatever was queued for this generation: it replaces whatever there
    was by a walk of its own.
   */
  lemma AnAttemptCanLaunch(states: seq<State>, steps: seq<Step>, kind: Kind, tags: map<string, Tag>)
      returns (states': seq<State>, steps': seq<Step>)
    requires IsRun(states, steps) && Last(states).locks.conn == Free
    requires Timely(kind, Last(states).clock.generation) && (kind.Connect? || kind in Last(states).locks.pending)
    ensures states <= states' && steps <= steps' && OneHold(states', steps', |steps|, |steps'|, kind)
    ensures NoCommands(steps'[|steps| + 1..])
    ensures Launched(Last(states), Last(states')) && Last(states').crew.walk.value.plan.tags == tags
  {
    states', steps' := ACommandCanEnd(states, steps, kind, tags);
    assert states'[|steps|] == Last(states);
    TimelyAttemptsMeetNoObjection(states', steps', |steps|, |steps'|, kind);
    AnAttemptLaunchesIff(states', steps', |steps|, |steps'|, kind);
    ALaunchFollowsTheSettings(states', steps', |steps|, |steps'|, kind);
    TheTagsAreTheAnswers(states', steps', |steps|, |steps'|, Last(states').crew.walk.value.plan, tags);
  }

  /** An autoconnect that is queued while connMu is free can launch. */
  lemma AnAutoconnectCanLaunch(states: seq<State>, steps: seq<Step>, tags: map<string, Tag>)
      returns (states': seq<State>, steps': seq<Step>)
    requires IsRun(states, steps) && Last(states).locks.conn == Free
    ensures states <= states' && steps + [QueueAutoconnect] <= steps' && IsRun(states', steps')
    ensures |steps'| > |steps| + 2 && steps'[|steps| + 1].Acquire? && NoCommands(steps'[|steps| + 2..])
    ensures Launched(Last(states), Last(states')) && Last(states').crew.walk.value.plan.tags == tags
  {
    var s := Last(states);
    var queued := NextEnv(s, QueueAutoconnect).value;
    assert Next(s, QueueAutoconnect) == NextEnv(s, QueueAutoconnect);
    Append(states, steps, QueueAutoconnect, queued);
    states', steps' := AnAttemptCanLaunch(states + [queued], steps + [QueueAutoconnect],
                                          Autoconnect(s.clock.generation), tags);
    HoldsBegin(states', steps', |steps| + 1, |steps'|, Autoconnect(s.clock.generation));
  }

  lemma TheTagsAreTheAnswers(
      states: seq<State>, steps: seq<Step>, i: nat, k: nat, plan: Plan, tags: map<string, Tag>)
    requires |states| == |steps| + 1 && i < k <= |steps| && PlannedBy(states, steps, i, k, plan)
    requires AllWilling(steps[i + 1..], tags)
    ensures plan.tags == tags
  {
    var q, multihop :| i < q < k && PlansAt(states, steps, q, multihop, plan)
                       && ChosenBy(states, steps, i, k, multihop, plan.tags);
    var j :| i < j < k && ChoosesAt(states, steps, j, multihop, plan.tags);
    assert steps[j] == steps[i + 1..][j - (i + 1)];
  }

  // ----- A walk that meets no resistance -----

  function UpRank(pc: WalkPc): nat {
    match pc
    case Top => 15
    case Choosing => 14
    case StrategyTop => 13
    case Starting => 12
    case Probing(pinned) => if pinned then 10 else 11
    case Up => 9
    case Checking => 8
    case Activating => 7
    case Arming => 6
    case Rechecking => 5
    case Installing => 4
    case Publishing => 3
    case Handing => 2
    case Reconciling => 1
    case _ => 0
  }

  /** A walk on its way to accept this node. */
  predicate OnTheWay(s: State, plan: Plan, node: string) {
    && s.crew.walk.Some?
    && var w := s.crew.walk.value; var rank := UpRank(w.pc);
    && rank > 0 && w.plan == plan && Current(s.clock, w.gen)
    && (rank <= 13 ==> w.node == node)
    && (9 <= rank ==> s.locks.fence == Open)
    && (rank <= 11 ==> s.engine.running == 1)
    && (rank <= 10 ==> s.engine.selected == Some(TagOf(plan.tags, node)))
    && (rank <= 6 && Needed(s.prefs) ==> s.prefs.enforced)
    && (rank <= 2 ==> s.tunnel.status == Connected && s.tunnel.node == node)
    && (rank == 1 ==> AllWatch(s, w.gen, node))
  }

  /** The process watcher, the watchdog and the three pollers of this connection are at work. */
  predicate AllWatch(s: State, gen: nat, node: string) {
    var poller := Poller(gen, false);
    && s.crew.proc == Some(ProcWatch(gen, Waiting, node))
    && s.crew.health == Some(HealthWatch(gen, Watching, node, node, ""))
    && s.crew.pollers == multiset{poller, poller, poller}
  }

  /** Traffic flows through this node, it is published, recorded, watched and, where that is wanted, guarded. */
  predicate IsUp(s: State, gen: nat, plan: Plan, node: string) {
    && s.crew.walk.None? && AllWatch(s, gen, node)
    && s.clock.generation == gen && s.locks.fence == Open
    && s.engine == Engine(1, Some(TagOf(plan.tags, node)))
    && s.tunnel == Tunnel(Connected, node, Some(Live(gen, plan.tags, plan.baked)))
    && (Needed(s.prefs) ==> s.prefs.enforced)
  }

  function Fine(node: string): Answer {
    Answer(true, true, node, map[])
  }

  lemma EarlyWalkGoesOn(s: State, plan: Plan, node: string, s': State)
    requires Inv(s) && OnTheWay(s, plan, node) && node != "" && TagOf(plan.tags, node) != ""
    requires UpRank(s.crew.walk.value.pc) > 9 && s' == NextWalk(s, Fine(node)).value && NextWalk(s, Fine(node)).Some?
    ensures OnTheWay(s', plan, node) && UpRank(s'.crew.walk.value.pc) < UpRank(s.crew.walk.value.pc)
    ensures s'.locks.conn == s.locks.conn && s'.clock == s.clock
  {
  }

  lemma ChecksGoOn(s: State, plan: Plan, node: string, s': State)
    requires Inv(s) && OnTheWay(s, plan, node) && NextAcceptance(s, Fine(node)) == Some(s')
    requires 4 < UpRank(s.crew.walk.value.pc) <= 9
    ensures OnTheWay(s', plan, node) && UpRank(s'.crew.walk.value.pc) < UpRank(s.crew.walk.value.pc)
    ensures s'.locks.conn == s.locks.conn && s'.clock == s.clock
  {
  }

  lemma PublicationGoesOn(s: State, plan: Plan, node: string, s': State)
    requires Inv(s) && OnTheWay(s, plan, node) && NextAcceptance(s, Fine(node)) == Some(s')
    requires 2 < UpRank(s.crew.walk.value.pc) <= 4
    ensures OnTheWay(s', plan, node) && UpRank(s'.crew.walk.value.pc) < UpRank(s.crew.walk.value.pc)
    ensures s'.locks.conn == s.locks.conn && s'.clock == s.clock
  {
  }

  lemma HandoverGoesOn(s: State, plan: Plan, node: string, s': State)
    requires Inv(s) && OnTheWay(s, plan, node) && NextAcceptance(s, Fine(node)) == Some(s')
    requires s.crew.walk.value.pc.Handing?
    ensures OnTheWay(s', plan, node) && UpRank(s'.crew.walk.value.pc) < UpRank(s.crew.walk.value.pc)
    ensures s'.locks.conn == s.locks.conn && s'.clock == s.clock
  {
  }

  lemma AcceptanceEnds(s: State, plan: Plan, node: string, s': State)
    requires Inv(s) && OnTheWay(s, plan, node) && NextAcceptance(s, Fine(node)) == Some(s')
    requires s.crew.walk.value.pc.Reconciling?
    ensures IsUp(s', s.clock.generation, plan, node) && s'.locks.conn == s.locks.conn && s'.clock == s.clock
  {
  }

  lemma WalkIsEnabled(s: State, plan: Plan, node: string)
    requires Inv(s) && OnTheWay(s, plan, node) && node != "" && TagOf(plan.tags, node) != ""
    ensures NextWalk(s, Fine(node)).Some?
    ensures UpRank(s.crew.walk.value.pc) <= 9 ==> NextWalk(s, Fine(node)) == NextAcceptance(s, Fine(node))
  {
  }

  predicate WalkOnly(steps: seq<Step>) {
    forall i :: 0 <= i < |steps| ==> steps[i].WalkStep?
  }

  lemma {:induction false} WalkCanComeUp(s: State, plan: Plan, node: string)
      returns (states: seq<State>, steps: seq<Step>)
    requires Inv(s) && OnTheWay(s, plan, node) && node != "" && TagOf(plan.tags, node) != ""
    ensures Path(states, steps) && states[0] == s && WalkOnly(steps)
    ensures IsUp(Last(states), s.clock.generation, plan, node) && Last(states).locks.conn == s.locks.conn
    decreases UpRank(s.crew.walk.value.pc)
  {
    WalkIsEnabled(s, plan, node);
    var rank := UpRank(s.crew.walk.value.pc);
    var s' := NextWalk(s, Fine(node)).value;
    assert Next(s, WalkStep(Fine(node))) == Some(s');
    NextKeepsInv(s, WalkStep(Fine(node)), s');
    if rank == 1 {
      AcceptanceEnds(s, plan, node, s');
      states, steps := [s, s'], [WalkStep(Fine(node))];
      assert Taken(states, steps, 0);
    } else {
      if rank > 9 {
        EarlyWalkGoesOn(s, plan, node, s');
      } else if rank > 4 {
        ChecksGoOn(s, plan, node, s');
      } else if rank > 2 {
        PublicationGoesOn(s, plan, node, s');
      } else {
        HandoverGoesOn(s, plan, node, s');
      }
      var onward, further := WalkCanComeUp(s', plan, node);
      Prepend(s, WalkStep(Fine(node)), onward, further);
      states, steps := [s] + onward, [WalkStep(Fine(node))] + further;
    }
  }

  /**
    Every walk that has just been started can bring up any node it has a tag for, by its own steps alone: in every
    reachable state in which its generation is current and protectionOp is free.
   */
  lemma AWalkCanConnect(states: seq<State>, steps: seq<Step>, node: string)
      returns (onward: seq<State>, further: seq<Step>)
    requires IsRun(states, steps)
    requires var s := Last(states);
             && s.crew.walk.Some? && s.crew.walk.value.pc.Top? && Current(s.clock, s.crew.walk.value.gen)
             && s.locks.fence == Open && node != "" && TagOf(s.crew.walk.value.plan.tags, node) != ""
    ensures Path(onward, further) && onward[0] == Last(states) && WalkOnly(further)
    ensures var s, t := Last(states), Last(onward);
            IsUp(t, s.clock.generation, s.crew.walk.value.plan, node) && t.locks.conn == s.locks.conn
  {
    ReachableInv(states, steps, |states| - 1);
    onward, further := WalkCanComeUp(Last(states), Last(states).crew.walk.value.plan, node);
  }

  /** With no acceptance and no teardown at work, only a set-command can be holding protectionOp, and it can let go. */
  lemma FenceIsLetGo(s: State) returns (states: seq<State>, steps: seq<Step>)
    requires Inv(s) && s.locks.conn == Free && s.crew.walk.Some? && s.crew.walk.value.pc.Top?
    ensures Path(states, steps) && states[0] == s && OthersOnly(steps)
    ensures var t := Last(states);
            t.locks.fence == Open && t.locks.conn == Free && t.clock == s.clock && t.crew == s.crew
  {
    states, steps := [s], [];
    if s.locks.fence != Open {
      assert s.locks.fence.BySetter?;
      var step := KillSwitchEnd(true, false, false);
      assert Next(s, step) == NextEnv(s, step);
      states, steps := [s, NextEnv(s, step).value], [step];
      assert Taken(states, steps, 0);
    }
  }

  /**
    From every reachable state in which connMu is free, whatever is connected, on its way or in ruins, a connect can
    bring up any node of any profile: it is up two generations later, with nothing of what was there before.
   */
  lemma AConnectCanComeUp(states: seq<State>, steps: seq<Step>, tags: map<string, Tag>, node: string)
      returns (states': seq<State>, asked: seq<Step>, plan: Plan)
    requires IsRun(states, steps) && Last(states).locks.conn == Free && node != "" && TagOf(tags, node) != ""
    ensures IsRun(states', steps + [Acquire(Connect)] + asked) && states <= states' && NoCommands(asked)
    ensures plan.tags == tags && IsUp(Last(states'), Last(states).clock.generation + 2, plan, node)
    ensures Last(states').locks.conn == Free
  {
    var launched, steps' := AnAttemptCanLaunch(states, steps, Connect, tags);
    ReachableInv(launched, steps', |launched| - 1);
    var let, go := FenceIsLetGo(Last(launched));
    Join(launched, steps', let, go);
    var ready, steps'' := launched + let[1..], steps' + go;
    var up, walked := AWalkCanConnect(ready, steps'', node);
    Join(ready, steps'', up, walked);
    plan := Last(launched).crew.walk.value.plan;
    states', asked := ready + up[1..], steps'[|steps| + 1..] + go + walked;
    assert steps'' + walked == steps + [Acquire(Connect)] + asked;
  }
}
