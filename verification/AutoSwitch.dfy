/**
  The hysteresis of automatic exit changes (core/control/hotswitch.go and health.go): a pruned list
  of recent moves has to restrain the watchdog as the full history would.  Live switches and failover
  reconnects share the budget; each checks it under the connection lock and records its move there.
 */
module AutoSwitch {
  import opened Wrappers

  /** Durations and instants in one unit; the clock never goes back. */
  datatype Config = Config(cooldown: int, window: nat, maxSwitches: int)

  // ----- The budget -----

  /** The moves inside the window at `now`, in order. */
  function Recent(moves: seq<int>, now: int, window: nat): (recent: seq<int>)
    ensures |recent| <= |moves|
  {
    if moves == [] then []
    else
      var last := moves[|moves| - 1];
      Recent(moves[..|moves| - 1], now, window) + if now - last < window then [last] else []
  }

  /** The gate's decision, over a list of moves inside the window. */
  predicate Decide(c: Config, recent: seq<int>, now: int) {
    && !(|recent| > 0 && now - recent[|recent| - 1] < c.cooldown)
    && |recent| < c.maxSwitches
  }

  class AutoSwitchBudget {
    const config: Config
    var autoSwitches: seq<int>
    var degradedAt: map<string, int>

    constructor (config: Config)
      ensures this.config == config && autoSwitches == [] && degradedAt == map[]
    {
      this.config, autoSwitches, degradedAt := config, [], map[];
    }

    /** current: the generation, profile, state and setting the watchdog acts on still hold. */
    method AllowAutoRecovery(now: int, degraded: string, current: bool) returns (ok: bool)
      modifies this
      ensures autoSwitches == Recent(old(autoSwitches), now, config.window)
      ensures degradedAt == if degraded != "" then old(degradedAt)[degraded := now] else old(degradedAt)
      ensures ok <==> current && Decide(config, Recent(old(autoSwitches), now, config.window), now)
    {
      if degraded != "" {
        degradedAt := degradedAt[degraded := now];
      }
      var recent: seq<int> := [];
      for i := 0 to |autoSwitches|
        invariant autoSwitches == old(autoSwitches)
        invariant degradedAt == if degraded != "" then old(degradedAt)[degraded := now] else old(degradedAt)
        invariant recent == Recent(autoSwitches[..i], now, config.window)
      {
        assert autoSwitches[..i + 1][..i] == autoSwitches[..i];
        if now - autoSwitches[i] < config.window {
          recent := recent + [autoSwitches[i]];
        }
      }
      assert autoSwitches[..|autoSwitches|] == autoSwitches;
      autoSwitches := recent;
      var spent := |recent|;
      var sinceLast := 0;
      if spent > 0 {
        sinceLast := now - recent[spent - 1];
      }
      if !current {
        return false;
      }
      if spent > 0 && sinceLast < config.cooldown {
        return false;
      }
      if spent >= config.maxSwitches {
        return false;
      }
      return true;
    }

    method RecordAutoSwitch(now: int)
      modifies this`autoSwitches
      ensures autoSwitches == old(autoSwitches) + [now]
    {
      autoSwitches := autoSwitches + [now];
    }
  }

  // ----- Whole runs -----

  /**
    The pruned list beside the full history, the clock, and the instant at which the holder of the
    connection lock was last let through.
   */
  datatype State = State(pruned: seq<int>, history: seq<int>, now: int, allowedAt: Option<int>)

  datatype Step =
    | Tick(d: nat)
    | Check        // a look at the budget without the lock, by the watchdog before it scans
    | Claim        // the check under the lock, by a live switch or by a queued failover
    | Record       // the holder moved the exit, or starts its reconnect
    | GiveUp       // the holder releases the lock without a move

  function Start(now: int): State {
    State([], [], now, None)
  }

  function Pruned(c: Config, s: State): State {
    s.(pruned := Recent(s.pruned, s.now, c.window))
  }

  function Next(c: Config, s: State, step: Step): State {
    match step
    case Tick(d) => s.(now := s.now + d)
    case Check => Pruned(c, s)
    case Claim =>
      if s.allowedAt.Some? then s
      else
        var s' := Pruned(c, s);
        if Decide(c, s'.pruned, s.now) then s'.(allowedAt := Some(s.now)) else s'
    case Record =>
      if s.allowedAt.None? then s
      else s.(pruned := s.pruned + [s.now], history := s.history + [s.now], allowedAt := None)
    case GiveUp => s.(allowedAt := None)
  }

  function Run(c: Config, s: State, steps: seq<Step>): State {
    if steps == [] then s else Next(c, Run(c, s, steps[..|steps| - 1]), steps[|steps| - 1])
  }

  // ----- What the full history says -----

  predicate Sorted(moves: seq<int>) {
    forall i, j :: 0 <= i < j < |moves| ==> moves[i] <= moves[j]
  }

  predicate NotAfter(moves: seq<int>, now: int) {
    forall i :: 0 <= i < |moves| ==> moves[i] <= now
  }

  /** Let through by the whole history: rested since the last move ever, and few moves in the window. */
  predicate DecideByHistory(c: Config, history: seq<int>, now: int) {
    && (history == [] || now - history[|history| - 1] >= c.cooldown)
    && |Recent(history, now, c.window)| < c.maxSwitches
  }

  /** The list is the history without moves that have left the window for good. */
  predicate PrunesHistory(c: Config, s: State, k: nat) {
    && k <= |s.history| && s.pruned == s.history[k..]
    && (forall i :: 0 <= i < k ==> s.now - s.history[i] >= c.window)
  }

  ghost predicate Inv(c: Config, s: State) {
    && Sorted(s.history)
    && NotAfter(s.history, s.now)
    && (exists k :: PrunesHistory(c, s, k))
    && WindowKept(c, s.history)
    && (s.allowedAt.Some? ==>
          s.allowedAt.value <= s.now && Decide(c, Recent(s.history, s.allowedAt.value, c.window), s.allowedAt.value)
          && NotAfter(s.history, s.allowedAt.value))
  }

  /** Any maxSwitches + 1 consecutive moves span at least the window. */
  ghost predicate WindowKept(c: Config, history: seq<int>) {
    forall i, j :: 0 <= i < j < |history| && j - i == c.maxSwitches ==> history[j] - history[i] >= c.window
  }

  /** Consecutive moves are at least the cooldown apart. */
  ghost predicate CooldownKept(c: Config, history: seq<int>) {
    forall i, j :: 0 <= i < j < |history| && j == i + 1 ==> history[j] - history[i] >= c.cooldown
  }

  // ----- Filtering -----

  lemma {:induction false} RecentConcat(a: seq<int>, b: seq<int>, now: int, window: nat)
    ensures Recent(a + b, now, window) == Recent(a, now, window) + Recent(b, now, window)
  {
    if b == [] {
      assert a + b == a;
    } else {
      assert (a + b)[..|a + b| - 1] == a + b[..|b| - 1];
      RecentConcat(a, b[..|b| - 1], now, window);
    }
  }

  lemma {:induction false} AllPast(moves: seq<int>, now: int, window: nat)
    requires forall i :: 0 <= i < |moves| ==> now - moves[i] >= window
    ensures Recent(moves, now, window) == []
  {
    if moves == [] {
    } else {
      AllPast(moves[..|moves| - 1], now, window);
    }
  }

  lemma {:induction false} AllRecent(moves: seq<int>, now: int, window: nat)
    requires forall i :: 0 <= i < |moves| ==> now - moves[i] < window
    ensures Recent(moves, now, window) == moves
  {
    if moves == [] {
    } else {
      AllRecent(moves[..|moves| - 1], now, window);
    }
  }

  /** Where the window begins in a sorted history: everything before is past, everything after recent. */
  lemma {:induction false} RecentIsASuffix(history: seq<int>, now: int, window: nat) returns (k: nat)
    requires Sorted(history)
    ensures k <= |history| && Recent(history, now, window) == history[k..]
    ensures forall i :: 0 <= i < k ==> now - history[i] >= window
    ensures forall i :: k <= i < |history| ==> now - history[i] < window
  {
    k := |history|;
    while k > 0 && now - history[k - 1] < window
      invariant k <= |history|
      invariant forall i :: k <= i < |history| ==> now - history[i] < window
    {
      k := k - 1;
    }
    RecentSplit(history, k, now, window);
  }

  lemma RecentSplit(history: seq<int>, k: nat, now: int, window: nat)
    requires k <= |history|
    requires forall i :: 0 <= i < k ==> now - history[i] >= window
    requires forall i :: k <= i < |history| ==> now - history[i] < window
    ensures Recent(history, now, window) == history[k..]
  {
    AllPast(history[..k], now, window);
    AllRecent(history[k..], now, window);
    RecentConcat(history[..k], history[k..], now, window);
    assert history == history[..k] + history[k..];
  }

  /** Pruning forgets nothing the window could still see. */
  lemma PrunedSeesTheWindow(c: Config, s: State, k: nat)
    requires PrunesHistory(c, s, k)
    ensures Recent(s.pruned, s.now, c.window) == Recent(s.history, s.now, c.window)
  {
    AllPast(s.history[..k], s.now, c.window);
    RecentConcat(s.history[..k], s.history[k..], s.now, c.window);
    assert s.history == s.history[..k] + s.history[k..];
  }

  // ----- Every step keeps the invariant -----

  lemma PruningKeepsInv(c: Config, s: State)
    requires Inv(c, s)
    ensures Inv(c, Pruned(c, s)) && Pruned(c, s).pruned == Recent(s.history, s.now, c.window)
  {
    var k :| PrunesHistory(c, s, k);
    PrunedSeesTheWindow(c, s, k);
    var j := RecentIsASuffix(s.history, s.now, c.window);
    assert PrunesHistory(c, Pruned(c, s), j);
  }

  /** A move let through at `at` and made later keeps the window law. */
  lemma RecordKeepsWindow(c: Config, history: seq<int>, at: int, now: int)
    requires Sorted(history) && WindowKept(c, history) && at <= now
    requires |Recent(history, at, c.window)| < c.maxSwitches
    ensures WindowKept(c, history + [now])
  {
    var h := history + [now];
    var k := RecentIsASuffix(history, at, c.window);
    forall i, j | 0 <= i < j < |h| && j - i == c.maxSwitches
      ensures h[j] - h[i] >= c.window
    {
      if j == |history| {
        assert i < k;
        assert h[i] == history[i];
      }
    }
  }

  lemma RecordKeepsPruned(c: Config, s: State, k: nat)
    requires PrunesHistory(c, s, k) && s.allowedAt.Some?
    ensures PrunesHistory(c, Next(c, s, Record), k)
  {
    assert (s.history + [s.now])[k..] == s.history[k..] + [s.now];
  }

  lemma RecordKeepsOrder(history: seq<int>, now: int)
    requires Sorted(history) && NotAfter(history, now)
    ensures Sorted(history + [now]) && NotAfter(history + [now], now)
  {
  }

  lemma RecordKeepsInv(c: Config, s: State)
    requires Inv(c, s) && s.allowedAt.Some?
    ensures Inv(c, Next(c, s, Record))
  {
    RecordKeepsOrder(s.history, s.now);
    var k :| PrunesHistory(c, s, k);
    RecordKeepsPruned(c, s, k);
    RecordKeepsWindow(c, s.history, s.allowedAt.value, s.now);
  }

  lemma TickKeepsInv(c: Config, s: State, d: nat)
    requires Inv(c, s)
    ensures Inv(c, Next(c, s, Tick(d)))
  {
    var k :| PrunesHistory(c, s, k);
    assert PrunesHistory(c, Next(c, s, Tick(d)), k);
  }

  lemma ClaimKeepsInv(c: Config, s: State)
    requires Inv(c, s) && s.allowedAt.None?
    ensures Inv(c, Next(c, s, Claim))
  {
    PruningKeepsInv(c, s);
    var s' := Pruned(c, s);
    var k :| PrunesHistory(c, s', k);
    assert PrunesHistory(c, s'.(allowedAt := Some(s.now)), k);
  }

  lemma NextKeepsInv(c: Config, s: State, step: Step)
    requires Inv(c, s)
    ensures Inv(c, Next(c, s, step))
  {
    match step
    case Tick(d) => TickKeepsInv(c, s, d);
    case Check => PruningKeepsInv(c, s);
    case Claim => if s.allowedAt.None? { ClaimKeepsInv(c, s); }
    case Record => if s.allowedAt.Some? { RecordKeepsInv(c, s); }
    case GiveUp =>
      var k :| PrunesHistory(c, s, k);
      assert PrunesHistory(c, s.(allowedAt := None), k);
  }

  lemma {:induction false} RunKeepsInv(c: Config, now: int, steps: seq<Step>)
    ensures Inv(c, Run(c, Start(now), steps))
  {
    if steps == [] {
      assert PrunesHistory(c, Start(now), 0);
    } else {
      RunKeepsInv(c, now, steps[..|steps| - 1]);
      NextKeepsInv(c, Run(c, Start(now), steps[..|steps| - 1]), steps[|steps| - 1]);
    }
  }

  // ----- The laws -----

  /** With a cooldown no longer than the window, the pruned list decides as the full history does. */
  lemma PruningDecidesAsHistory(c: Config, now: int, steps: seq<Step>)
    requires c.cooldown <= c.window
    ensures var s := Run(c, Start(now), steps);
            Decide(c, Recent(s.pruned, s.now, c.window), s.now) <==> DecideByHistory(c, s.history, s.now)
  {
    RunKeepsInv(c, now, steps);
    var s := Run(c, Start(now), steps);
    HistoryDecides(c, s.history, s.now);
    var k :| PrunesHistory(c, s, k);
    PrunedSeesTheWindow(c, s, k);
  }

  lemma HistoryDecides(c: Config, history: seq<int>, now: int)
    requires Sorted(history)
    ensures DecideByHistory(c, history, now) ==> Decide(c, Recent(history, now, c.window), now)
    ensures c.cooldown <= c.window && Decide(c, Recent(history, now, c.window), now)
            ==> DecideByHistory(c, history, now)
  {
    var k := RecentIsASuffix(history, now, c.window);
  }

  /** How many moves lie in the window, read off the one that is maxSwitches back. */
  lemma FewAreRecent(c: Config, history: seq<int>, now: int)
    requires Sorted(history)
    ensures |Recent(history, now, c.window)| < c.maxSwitches
            <==> c.maxSwitches > 0
                 && (|history| < c.maxSwitches || now - history[|history| - c.maxSwitches] >= c.window)
  {
    var k := RecentIsASuffix(history, now, c.window);
  }

  lemma LastOfTheRecent(c: Config, history: seq<int>, now: int)
    requires Sorted(history)
    ensures var recent := Recent(history, now, c.window);
            (recent != [] && now - recent[|recent| - 1] < c.cooldown)
            <==> history != [] && now - history[|history| - 1] < c.window && now - history[|history| - 1] < c.cooldown
  {
    var k := RecentIsASuffix(history, now, c.window);
  }

  /**
    The last move of all is a cooldown ago, or out of the window, and so is out of the window the move maxSwitches
    before, if there is one.
   */
  predicate MovesAllow(c: Config, h: seq<int>, now: int) {
    && c.maxSwitches > 0
    && (h == [] || now - h[|h| - 1] >= c.cooldown || now - h[|h| - 1] >= c.window)
    && (|h| < c.maxSwitches || now - h[|h| - c.maxSwitches] >= c.window)
  }

  lemma DecidedByTheMoves(c: Config, h: seq<int>, now: int)
    requires Sorted(h)
    ensures Decide(c, Recent(h, now, c.window), now) <==> MovesAllow(c, h, now)
  {
    FewAreRecent(c, h, now);
    LastOfTheRecent(c, h, now);
  }

  lemma ClaimDecides(c: Config, s: State)
    requires Inv(c, s) && s.allowedAt.None?
    ensures Next(c, s, Claim).allowedAt == Some(s.now) <==> MovesAllow(c, s.history, s.now)
  {
    PruningKeepsInv(c, s);
    DecidedByTheMoves(c, s.history, s.now);
  }

  /** In every run, whoever asks for the budget under the lock gets it exactly if the moves of that run allow it. */
  lemma {:induction false} TheBudgetIsGivenIff(c: Config, now: int, steps: seq<Step>)
    requires Run(c, Start(now), steps).allowedAt.None?
    ensures var s := Run(c, Start(now), steps);
            Next(c, s, Claim).allowedAt == Some(s.now) <==> MovesAllow(c, s.history, s.now)
  {
    RunKeepsInv(c, now, steps);
    ClaimDecides(c, Run(c, Start(now), steps));
  }

  /** In every run, any maxSwitches + 1 consecutive automatic moves span at least the window. */
  lemma EveryRunKeepsTheWindow(c: Config, now: int, steps: seq<Step>)
    ensures WindowKept(c, Run(c, Start(now), steps).history)
  {
    RunKeepsInv(c, now, steps);
  }

  lemma RecordKeepsCooldown(c: Config, history: seq<int>, at: int, now: int)
    requires CooldownKept(c, history) && at <= now
    requires DecideByHistory(c, history, at)
    ensures CooldownKept(c, history + [now])
  {
  }

  lemma {:induction false} RunKeepsCooldown(c: Config, now: int, steps: seq<Step>)
    requires c.cooldown <= c.window || c.maxSwitches <= 0
    ensures CooldownKept(c, Run(c, Start(now), steps).history)
  {
    if steps == [] {
    } else {
      var front, last := steps[..|steps| - 1], steps[|steps| - 1];
      RunKeepsCooldown(c, now, front);
      RunKeepsInv(c, now, front);
      var s := Run(c, Start(now), front);
      if last == Record && s.allowedAt.Some? {
        HistoryDecides(c, s.history, s.allowedAt.value);
        RecordKeepsCooldown(c, s.history, s.allowedAt.value, s.now);
      }
    }
  }

  /**
    Consecutive automatic moves stay a cooldown apart in every run exactly when the cooldown fits in the
    window (or no move is ever allowed): a longer cooldown is forgotten when the pruning drops its move.
   */
  lemma CooldownIsKeptIff(c: Config, now: int)
    ensures (forall steps :: CooldownKept(c, Run(c, Start(now), steps).history))
            <==> (c.cooldown <= c.window || c.maxSwitches <= 0)
  {
    if c.cooldown <= c.window || c.maxSwitches <= 0 {
      forall steps
        ensures CooldownKept(c, Run(c, Start(now), steps).history)
      {
        RunKeepsCooldown(c, now, steps);
      }
    } else {
      var steps := [] + [Claim] + [Record] + [Tick(c.window)] + [Claim] + [Record];
      ForgottenCooldown(c, now, steps);
    }
  }

  lemma RunOn(c: Config, s: State, steps: seq<Step>, step: Step)
    ensures Run(c, s, steps + [step]) == Next(c, Run(c, s, steps), step)
  {
    assert (steps + [step])[..|steps|] == steps;
  }

  lemma ForgottenCooldown(c: Config, now: int, steps: seq<Step>)
    requires c.cooldown > c.window && c.maxSwitches > 0
    requires steps == [] + [Claim] + [Record] + [Tick(c.window)] + [Claim] + [Record]
    ensures Run(c, Start(now), steps).history == [now, now + c.window]
    ensures !CooldownKept(c, Run(c, Start(now), steps).history)
  {
    var s0, later := Start(now), now + c.window;
    RunOn(c, s0, [], Claim);
    assert Next(c, s0, Claim) == State([], [], now, Some(now));
    RunOn(c, s0, [] + [Claim], Record);
    RunOn(c, s0, [] + [Claim] + [Record], Tick(c.window));
    var s3 := State([now], [now], later, None);
    assert Run(c, s0, [] + [Claim] + [Record] + [Tick(c.window)]) == s3;
    RunOn(c, s0, [] + [Claim] + [Record] + [Tick(c.window)], Claim);
    AllPast([now], later, c.window);
    assert Next(c, s3, Claim) == State([], [now], later, Some(later));
    RunOn(c, s0, [] + [Claim] + [Record] + [Tick(c.window)] + [Claim], Record);
    var h := Run(c, s0, steps).history;
    assert h == [now, later] && h[1] - h[0] < c.cooldown;
  }
}
