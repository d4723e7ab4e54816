/**
  Two runs that end connected under the wrong name.  In one a switch does not hold up and the call that puts the
  old exit back fails (core/control/hotswitch.go:173-184).  In the other a crash report is written between a
  queued failover's two looks at the state, and the failover's start is then refused (core/control/health.go:196-212).
 */
module LifecycleMislabel {
  import opened Wrappers
  import opened Lifecycle
  import opened LifecycleInvariant
  import opened LifecycleExit

  const TAGS: map<string, Tag> := map["a" := "x", "b" := "y"]
  const OPTIONS := Options(false, "", Multihop(false, "", ""))
  const PLAN := Plan(Bake(OPTIONS, TAGS), false, TAGS)
  const POLLERS := multiset{Poller(2, false), Poller(2, false), Poller(2, false)}
  const QUEUED := Failover(2, "a")

  function Works(): Answer { Answer(true, false, "a", TAGS) }
  function Fails(): Answer { Answer(false, false, "", TAGS) }

  const PREFS := Prefs(true, OPTIONS, false, false, false)

  /** The start of the daemon. */
  function Opening(): State {
    Start(OPTIONS, false, false, true)
  }

  /** A connect under way, before its walk. */
  function Preparing(conn: Holder, gen: nat, token: Option<nat>, status: Status): State {
    State(Locks(conn, Open, multiset{}), Clock(gen, token, {}), Crew(None, None, None, multiset{}), Engine(0, None),
          Tunnel(status, "", None), PREFS)
  }

  function Walking(fence: Fence, pc: WalkPc, node: string, engine: Engine, live: Option<Live>): State {
    State(Locks(Free, fence, multiset{}), Clock(2, Some(2), {}),
          Crew(Some(Walk(2, PLAN, pc, node, false)), None, None, multiset{}),
          engine, Tunnel(Connecting, "", live), PREFS)
  }

  const LIVE := Live(2, TAGS, PLAN.baked)

  /** Connected, with its watchers. */
  function At(conn: Holder, pending: multiset<Kind>, pc: ProcPc, running: nat, exit: Tag, status: Status,
              node: string): State {
    State(Locks(conn, Open, pending), Clock(2, Some(2), {}),
          Crew(None, Some(ProcWatch(2, pc, "a")), Some(HealthWatch(2, Watching, "a", "a", "")), POLLERS),
          Engine(running, Some(exit)), Tunnel(status, node, Some(LIVE)), PREFS)
  }

  /** The walk has handed over to the watchers. */
  function HandedOver(walk: Option<Walk>, fence: Fence): State {
    var t := At(Free, multiset{}, Waiting, 1, "x", Connected, "a");
    t.(crew := t.crew.(walk := walk), locks := t.locks.(fence := fence))
  }

  /** A run from the start of the daemon that is now at s. */
  datatype Trail = Trail(states: seq<State>, steps: seq<Step>)

  ghost predicate Reaches(r: Trail, s: State) {
    IsRun(r.states, r.steps) && Last(r.states) == s
  }

  lemma Extend(r: Trail, s: State, step: Step) returns (r': Trail, s': State)
    requires Reaches(r, s) && Next(s, step).Some?
    ensures Some(s') == Next(s, step) && Reaches(r', s')
  {
    s' := Next(s, step).value;
    Append(r.states, r.steps, step, s');
    r' := Trail(r.states + [s'], r.steps + [step]);
  }

  /** A connect command takes connMu and reads the multihop choice. */
  lemma Connects() returns (r: Trail)
    ensures Reaches(r, Preparing(Op(Connect, Guarded(OPTIONS.multihop, TAGS)), 0, None, Off))
  {
    var t := Opening();
    r := Trail([t], []);
    r, t := Extend(r, t, Acquire(Connect));
    r, t := Extend(r, t, OpStep(Works()));
    r, t := Extend(r, t, OpStep(Works()));
    r, t := Extend(r, t, OpStep(Works()));
  }

  /** It reads the other options, fences and stops what there is. */
  lemma Fences() returns (r: Trail)
    ensures Reaches(r, Preparing(Op(Connect, Draining(Some(PLAN))), 1, None, Off))
  {
    r := Connects();
    var t := Last(r.states);
    r, t := Extend(r, t, OpStep(Works()));
    r, t := Extend(r, t, OpStep(Works()));
    r, t := Extend(r, t, OpStep(Works()));
    r, t := Extend(r, t, OpStep(Works()));
  }

  /** Nothing is left to wait for. */
  lemma Drains() returns (r: Trail)
    ensures Reaches(r, Preparing(Op(Connect, Launching(PLAN)), 1, None, Connecting))
  {
    r := Fences();
    var t := Last(r.states);
    r, t := Extend(r, t, OpStep(Works()));
    r, t := Extend(r, t, OpStep(Works()));
  }

  /** A new generation, with its own cancel. */
  lemma Renews() returns (r: Trail)
    ensures Reaches(r, Preparing(Op(Connect, Announcing(PLAN, 2)), 2, Some(2), Connecting))
  {
    r := Drains();
    var t := Last(r.states);
    r, t := Extend(r, t, OpStep(Works()));
  }

  /** Connecting is published. */
  lemma Announces() returns (r: Trail)
    ensures Reaches(r, Preparing(Op(Connect, Spawning(PLAN, 2)), 2, Some(2), Connecting))
  {
    r := Renews();
    var t := Last(r.states);
    r, t := Extend(r, t, OpStep(Works()));
  }

  /** The walk is launched. */
  lemma Launches() returns (r: Trail)
    ensures Reaches(r, Walking(Open, Top, "", Engine(0, None), None))
  {
    r := Announces();
    var t := Last(r.states);
    r, t := Extend(r, t, OpStep(Works()));
  }

  /** The walk starts an engine for a. */
  lemma Starts() returns (r: Trail)
    ensures Reaches(r, Walking(Open, Probing(false), "a", Engine(1, None), None))
  {
    r := Launches();
    var t := Last(r.states);
    r, t := Extend(r, t, WalkStep(Works()));
    r, t := Extend(r, t, WalkStep(Works()));
    r, t := Extend(r, t, WalkStep(Works()));
    r, t := Extend(r, t, WalkStep(Works()));
  }

  /** Traffic flows through a. */
  lemma Pins() returns (r: Trail)
    ensures Reaches(r, Walking(Open, Up, "a", Engine(1, Some("x")), None))
  {
    r := Starts();
    var t := Last(r.states);
    r, t := Extend(r, t, WalkStep(Works()));
    r, t := Extend(r, t, WalkStep(Works()));
  }

  /** The acceptance begins. */
  lemma Probes() returns (r: Trail)
    ensures Reaches(r, Walking(ByWalk, Activating, "a", Engine(1, Some("x")), None))
  {
    r := Pins();
    var t := Last(r.states);
    r, t := Extend(r, t, WalkStep(Works()));
    r, t := Extend(r, t, WalkStep(Works()));
  }

  /** Every gate passes. */
  lemma Passes() returns (r: Trail)
    ensures Reaches(r, Walking(ByWalk, Rechecking, "a", Engine(1, Some("x")), None))
  {
    r := Probes();
    var t := Last(r.states);
    r, t := Extend(r, t, WalkStep(Works()));
    r, t := Extend(r, t, WalkStep(Works()));
  }

  /** The walk at a point of its acceptance, with a's exit pinned. */
  function Passing(pc: WalkPc, live: Option<Live>): State {
    Walking(ByWalk, pc, "a", Engine(1, Some("x")), live)
  }

  lemma Recording()
    ensures NextAcceptance(Passing(Rechecking, None), Works()) == Some(Passing(Installing, None))
    ensures NextAcceptance(Passing(Installing, None), Works()) == Some(Passing(Publishing, Some(LIVE)))
  {
  }

  lemma HandingOver(walk: Walk)
    requires walk == Walk(2, PLAN, Publishing, "a", false)
    ensures NextAcceptance(Passing(Publishing, Some(LIVE)), Works())
            == Some(SetWalk(SetState(Passing(Publishing, Some(LIVE)), Connected, "a"), Some(walk.(pc := Handing))))
    ensures NextAcceptance(SetWalk(SetState(Passing(Publishing, Some(LIVE)), Connected, "a"),
                                   Some(walk.(pc := Handing))), Works())
            == Some(HandedOver(Some(walk.(pc := Reconciling)), ByWalk))
  {
    assert multiset{} + POLLERS == POLLERS;
  }

  lemma Comparing(walk: Walk)
    requires walk == Walk(2, PLAN, Reconciling, "a", false)
    ensures NextAcceptance(HandedOver(Some(walk), ByWalk), Works())
            == Some(At(Free, multiset{}, Waiting, 1, "x", Connected, "a"))
  {
  }

  lemma ExtendAcceptance(r: Trail, s: State, s': State) returns (r': Trail)
    requires Reaches(r, s) && s.crew.walk.Some? && Inner(s.crew.walk.value.pc)
    requires NextAcceptance(s, Works()) == Some(s')
    ensures Reaches(r', s')
  {
    var last: State;
    r', last := Extend(r, s, WalkStep(Works()));
  }

  /** Connected on a: the configuration is recorded, the state published, the watchers started. */
  lemma Publishes() returns (r: Trail)
    ensures Reaches(r, At(Free, multiset{}, Waiting, 1, "x", Connected, "a"))
  {
    var walk := Walk(2, PLAN, Publishing, "a", false);
    var shown := SetWalk(SetState(Passing(Publishing, Some(LIVE)), Connected, "a"), Some(walk.(pc := Handing)));
    var handed := HandedOver(Some(walk.(pc := Reconciling)), ByWalk);
    Recording();
    HandingOver(walk);
    Comparing(walk.(pc := Reconciling));
    r := Passes();
    r := ExtendAcceptance(r, Passing(Rechecking, None), Passing(Installing, None));
    r := ExtendAcceptance(r, Passing(Installing, None), Passing(Publishing, Some(LIVE)));
    r := ExtendAcceptance(r, Passing(Publishing, Some(LIVE)), shown);
    r := ExtendAcceptance(r, shown, handed);
    r := ExtendAcceptance(r, handed, At(Free, multiset{}, Waiting, 1, "x", Connected, "a"));
  }

  /** The user asks for b, and b is a member of the selector. */
  lemma Resolves() returns (r: Trail)
    ensures Reaches(r, Moving(Select("y", "x"), "x"))
  {
    r := Publishes();
    var t := At(Free, multiset{}, Waiting, 1, "x", Connected, "a");
    r, t := Extend(r, t, AcquireSwitch("b"));
    r, t := Extend(r, t, SwitchStep(Works()));
  }

  /** The selector is moved to b, and no probe comes back. */
  lemma Misses() returns (r: Trail)
    ensures Reaches(r, Moving(Revert("y", "x"), "y"))
  {
    r := Resolves();
    var t := Moving(Select("y", "x"), "x");
    r, t := Extend(r, t, SwitchStep(Works()));
    r, t := Extend(r, t, SwitchStep(Fails()));
  }

  /** A switch to b under way. */
  function Moving(at: SwitchPhase, exit: Tag): State {
    At(Switching(false, "b", at), multiset{}, Waiting, 1, exit, Connected, "a")
  }

  /** The call to move the selector back fails: connected on a by name, on b by the selector. */
  lemma ALostRevertMislabels() returns (states: seq<State>, steps: seq<Step>)
    ensures IsRun(states, steps) && !ExitAgrees(Last(states))
    ensures var t := Last(states);
            t.tunnel.status == Connected && t.tunnel.node == "a" && t.engine.selected == Some("y")
  {
    var r := Misses();
    var t := Moving(Revert("y", "x"), "y");
    r, t := Extend(r, t, SwitchStep(Fails()));
    return r.states, r.steps;
  }

  /** Connected on a, with the watchdog at work. */
  function Watched(pc: HealthPc): State {
    var t := At(Free, multiset{}, Waiting, 1, "x", Connected, "a");
    t.(crew := t.crew.(health := Some(HealthWatch(2, pc, "a", "a", ""))))
  }

  /** The watchdog finds a degraded. */
  lemma Degrades() returns (r: Trail)
    ensures Reaches(r, Watched(FailingOver))
  {
    r := Publishes();
    var t := Last(r.states);
    r, t := Extend(r, t, HealthStep(Answer(true, false, "", TAGS)));
    assert t == Watched(Degraded);
    r, t := Extend(r, t, HealthStep(Answer(true, false, "", TAGS)));
  }

  /** It queues a failover. */
  lemma Queues() returns (r: Trail)
    ensures Reaches(r, At(Free, multiset{QUEUED}, Waiting, 1, "x", Connected, "a"))
  {
    r := Degrades();
    var t := Watched(FailingOver);
    r, t := Extend(r, t, HealthStep(Answer(true, true, "", TAGS)));
  }

  /** The failover under way, after the watcher has gone. */
  function LookingAt(node: string, status: Status, phase: Phase): State {
    SetProc(At(Op(QUEUED, phase), multiset{}, Reporting, 0, "y", status, node), None)
  }

  /** The user moves to b; the new exit carries traffic. */
  lemma Moves() returns (r: Trail)
    ensures Reaches(r, At(Switching(false, "b", Commit("y")), multiset{QUEUED}, Waiting, 1, "y", Connected, "a"))
  {
    r := Queues();
    var t := Last(r.states);
    r, t := Extend(r, t, AcquireSwitch("b"));
    r, t := Extend(r, t, SwitchStep(Works()));
    r, t := Extend(r, t, SwitchStep(Works()));
    r, t := Extend(r, t, SwitchStep(Works()));
  }

  /** The engine dies, and its watcher reads the node the state still shows. */
  lemma Dies() returns (r: Trail)
    ensures Reaches(r, At(Switching(false, "b", Commit("y")), multiset{QUEUED}, Reporting, 0, "y", Connected, "a"))
  {
    r := Moves();
    var t := Last(r.states);
    r, t := Extend(r, t, EngineDies);
    r, t := Extend(r, t, ProcStep(Fails()));
    r, t := Extend(r, t, ProcStep(Works()));
    r, t := Extend(r, t, ProcStep(Works()));
  }

  /** The move to b is published; the failover queued for a takes connMu and finds a connected tunnel. */
  lemma Looks() returns (r: Trail)
    ensures Reaches(r, At(Op(QUEUED, Confirmed), multiset{}, Reporting, 0, "y", Connected, "b"))
  {
    r := Dies();
    var t := Last(r.states);
    r, t := Extend(r, t, SwitchStep(Works()));
    r, t := Extend(r, t, Acquire(QUEUED));
    r, t := Extend(r, t, OpStep(Works()));
  }

  /** The watcher's report puts a back into the state. */
  lemma Reports() returns (r: Trail)
    ensures Reaches(r, LookingAt("a", Error, Confirmed))
  {
    r := Looks();
    var t := Last(r.states);
    r, t := Extend(r, t, ProcStep(Fails()));
  }

  /** The failover's second look finds a. */
  lemma LooksAgain() returns (r: Trail)
    ensures Reaches(r, LookingAt("a", Error, Found))
  {
    r := Reports();
    var t := LookingAt("a", Error, Confirmed);
    r, t := Extend(r, t, OpStep(Works()));
  }

  /** It publishes that it is leaving a. */
  lemma Leaves() returns (r: Trail)
    ensures Reaches(r, LookingAt("a", Reconnecting, Begun))
  {
    r := LooksAgain();
    var t := LookingAt("a", Error, Found);
    r, t := Extend(r, t, OpStep(Works()));
  }

  /** Its refused start publishes a: connected on a by name, on b by the selector. */
  lemma ACrashReportMislabels() returns (states: seq<State>, steps: seq<Step>)
    ensures IsRun(states, steps) && !ExitAgrees(Last(states))
    ensures var t := Last(states);
            t.tunnel.status == Connected && t.tunnel.node == "a" && t.engine.selected == Some("y")
  {
    var r := Leaves();
    var t := LookingAt("a", Reconnecting, Begun);
    r, t := Extend(r, t, OpStep(Fails()));
    r, t := Extend(r, t, OpStep(Works()));
    return r.states, r.steps;
  }
}
