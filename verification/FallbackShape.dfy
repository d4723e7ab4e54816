/**
  What every fallback walk publishes and starts (core/control/connect.go), whatever world it meets.
 */
module FallbackShape {
  import opened FallbackWalk

  // ----- The shape of a snapshot -----

  /** Blocked items, then one in flight or up, then items waiting. */
  predicate At(items: seq<Item>, b: nat, status: Status) {
    && b < |items| && items[b].status == status
    && (forall j :: 0 <= j < b ==> items[j].status == Blocked)
    && (forall j :: b < j < |items| ==> items[j].status == Waiting)
  }

  /** Blocked items, then items waiting. */
  predicate Between(items: seq<Item>, b: nat) {
    && b <= |items|
    && (forall j :: 0 <= j < b ==> items[j].status == Blocked)
    && (forall j :: b <= j < |items| ==> items[j].status == Waiting)
  }

  ghost predicate Shaped(items: seq<Item>) {
    exists b: nat :: Between(items, b) || At(items, b, Status.Trying) || At(items, b, OK)
  }

  ghost predicate ExactlyOneOK(items: seq<Item>) {
    exists b: nat :: b < |items| && items[b].status == OK
                     && forall j :: 0 <= j < |items| && j != b ==> items[j].status != OK
  }

  ghost predicate GoodSnapshot(items: seq<Item>, outcome: Outcome) {
    && Shaped(items)
    && (outcome == Success <==> ExactlyOneOK(items))
    && (outcome == Exhausted ==> Between(items, |items|))
  }

  ghost predicate AllGood(log: seq<Event>) {
    forall p :: 0 <= p < |log| && log[p].Published? ==> GoodSnapshot(log[p].items, log[p].outcome)
  }

  predicate Distinct(order: seq<string>) {
    forall i, j :: 0 <= i < j < |order| ==> order[i] != order[j]
  }

  /** Candidate i is filed under its own index: no later candidate has its identifier. */
  predicate FilesItself(order: seq<string>, i: nat)
    requires i < |order|
  {
    IndexOf(order, order[i]) == i
  }

  lemma DistinctFilesItself(order: seq<string>, i: nat)
    requires Distinct(order) && i < |order|
    ensures FilesItself(order, i)
  {
  }

  lemma BetweenIsGood(items: seq<Item>, b: nat, outcome: Outcome)
    requires Between(items, b) && outcome != Success && (outcome == Exhausted ==> b == |items|)
    ensures GoodSnapshot(items, outcome)
  {
  }

  lemma TryingIsGood(items: seq<Item>, b: nat)
    requires At(items, b, Status.Trying)
    ensures GoodSnapshot(items, Pending)
  {
  }

  lemma OKIsGood(items: seq<Item>, b: nat)
    requires At(items, b, OK)
    ensures GoodSnapshot(items, Success)
  {
  }

  // ----- The shape of a walk -----

  lemma AllGoodGrows(log: seq<Event>, e: Event)
    requires AllGood(log)
    requires e.Published? ==> GoodSnapshot(e.items, e.outcome)
    ensures AllGood(log + [e])
  {
  }

  lemma TurnKeepsShape(w: World, log: seq<Event>, items: seq<Item>, i: nat, k: nat, censored: bool)
    requires i < |items| && k < STRATEGIES
    requires At(items, i, Status.Trying) && AllGood(log)
    ensures var t := TryStrategy(w, log, items, i, i, k, censored);
            match t
            case Ends(end) => AllGood(end.log) && (end.outcome == NodeFailed ==> At(end.items, i, Status.Trying))
            case Escalates(shown, marked) => AllGood(shown) && At(marked, i, Status.Trying)
  {
    var started := log + [Started(i, k)];
    AllGoodGrows(log, Started(i, k));
    match w.tries(i, k)
    case Down(tcp, stalled) =>
      var verdict := Classified(i, k, ClassifyFailure(tcp, stalled));
      var marked := MarkEscalating(items, i, k + 1);
      AllGoodGrows(started, verdict);
      TryingIsGood(marked, i);
      AllGoodGrows(started + [verdict], Published(marked, Pending));
    case Up =>
      OKIsGood(MarkSucceeded(items, i, k), i);
      AllGoodGrows(started, Published(MarkSucceeded(items, i, k), Success));
    case _ =>
      var marked := MarkBlocked(items, i, LocalSetupFailed);
      BetweenIsGood(marked, i + 1, Pending);
      AllGoodGrows(started, Published(marked, Pending));
      AllGoodGrows(started + [Published(marked, Pending)], Event.Failed);
  }

  lemma {:induction false} CascadeKeepsShape(w: World, log: seq<Event>, items: seq<Item>,
                                             i: nat, k: nat, censored: bool)
    requires i < |items| && k < STRATEGIES
    requires At(items, i, Status.Trying) && AllGood(log)
    ensures var end := Cascade(w, log, items, i, i, k, censored);
            AllGood(end.log) && (end.outcome == NodeFailed ==> At(end.items, i, Status.Trying))
    decreases STRATEGIES - k
  {
    TurnKeepsShape(w, log, items, i, k, censored);
    match TryStrategy(w, log, items, i, i, k, censored)
    case Ends(_) =>
    case Escalates(shown, marked) => CascadeKeepsShape(w, shown, marked, i, k + 1, true);
  }

  lemma CandidateKeepsShape(w: World, order: seq<string>, log: seq<Event>, items: seq<Item>, i: nat)
    requires |items| == |order| && i < |order| && FilesItself(order, i)
    requires Between(items, i) && AllGood(log)
    ensures var end := Candidate(w, order, log, items, i);
            AllGood(end.log) && (end.outcome == NodeFailed ==> Between(end.items, i + 1))
  {
    var trying := Mark(items, i, Status.Trying);
    TryingIsGood(trying, i);
    var shown := log + [Published(trying, Pending)];
    CascadeKeepsShape(w, shown, trying, i, 0, false);
    var end := Cascade(w, shown, trying, i, i, 0, false);
    if end.outcome == NodeFailed {
      BetweenIsGood(MarkBlocked(end.items, i, end.reason), i + 1, Pending);
    }
  }

  lemma {:induction false} WalkKeepsShape(w: World, order: seq<string>, log: seq<Event>, items: seq<Item>, i: nat)
    requires |items| == |order| && i <= |order| && Distinct(order)
    requires Between(items, i) && AllGood(log)
    ensures AllGood(Walk(w, order, log, items, i))
    decreases |order| - i
  {
    if i == |order| {
      BetweenIsGood(items, i, Exhausted);
    } else {
      DistinctFilesItself(order, i);
      CandidateKeepsShape(w, order, log, items, i);
      var end := Candidate(w, order, log, items, i);
      if end.outcome == NodeFailed {
        WalkKeepsShape(w, order, end.log, end.items, i + 1);
      }
    }
  }

  // ----- Duplicated identifiers -----

  lemma {:induction false} CascadeExtends(w: World, log: seq<Event>, items: seq<Item>,
                                          i: nat, j: nat, k: nat, censored: bool)
    requires j < |items| && k < STRATEGIES
    ensures log <= Cascade(w, log, items, i, j, k, censored).log
    decreases STRATEGIES - k
  {
    match TryStrategy(w, log, items, i, j, k, censored)
    case Ends(_) =>
    case Escalates(shown, marked) => CascadeExtends(w, shown, marked, i, j, k + 1, true);
  }

  lemma CandidateExtends(w: World, order: seq<string>, log: seq<Event>, items: seq<Item>, i: nat)
    requires |items| == |order| && i < |order|
    ensures log + [Published(Mark(items, IndexOf(order, order[i]), Status.Trying), Pending)]
            <= Candidate(w, order, log, items, i).log
  {
    var j := IndexOf(order, order[i]);
    var trying := Mark(items, j, Status.Trying);
    CascadeExtends(w, log + [Published(trying, Pending)], trying, i, j, 0, false);
  }

  lemma {:induction false} WalkExtends(w: World, order: seq<string>, log: seq<Event>, items: seq<Item>, i: nat)
    requires |items| == |order| && i <= |order|
    ensures log <= Walk(w, order, log, items, i)
    decreases |order| - i
  {
    if i == |order| {
    } else {
      CandidateExtends(w, order, log, items, i);
      var end := Candidate(w, order, log, items, i);
      WalkExtends(w, order, end.log, end.items, i + 1);
    }
  }

  /** A world in which nothing can be rendered and nobody interferes. */
  function NothingBuilds(): World {
    World(_ => false, false, (_, _) => BuildFails)
  }

  /** Marking a later duplicate in flight leaves a waiting item before it. */
  lemma DuplicateIsMisshapen(order: seq<string>, items: seq<Item>, i: nat)
    requires |items| == |order| && i < |order| && !FilesItself(order, i) && Between(items, i)
    ensures !Shaped(Mark(items, IndexOf(order, order[i]), Status.Trying))
  {
    var j := IndexOf(order, order[i]);
    var marked := Mark(items, j, Status.Trying);
    assert i < j;
    assert marked[i].status == Waiting && marked[j].status == Status.Trying;
  }

  lemma DuplicateShows(order: seq<string>, log: seq<Event>, items: seq<Item>, i: nat)
    requires |items| == |order| && i < |order| && Between(items, i) && !FilesItself(order, i)
    ensures !AllGood(Walk(NothingBuilds(), order, log, items, i))
  {
    var w := NothingBuilds();
    var end := Candidate(w, order, log, items, i);
    var shown := Published(Mark(items, IndexOf(order, order[i]), Status.Trying), Pending);
    DuplicateIsMisshapen(order, items, i);
    CandidateExtends(w, order, log, items, i);
    WalkExtends(w, order, end.log, end.items, i + 1);
    assert (log + [shown])[|log|] == shown;
    assert end.log[|log|] == shown;
    assert Walk(w, order, log, items, i)[|log|] == shown;
  }

  lemma {:induction false} DuplicateBreaksTheShape(order: seq<string>, log: seq<Event>, items: seq<Item>,
                                                   i: nat, bad: nat)
    requires |items| == |order| && i <= bad < |order| && Between(items, i) && AllGood(log)
    requires !FilesItself(order, bad) && forall l :: i <= l < bad ==> FilesItself(order, l)
    ensures !AllGood(Walk(NothingBuilds(), order, log, items, i))
    decreases bad - i
  {
    if i < bad {
      var end := Candidate(NothingBuilds(), order, log, items, i);
      CandidateKeepsShape(NothingBuilds(), order, log, items, i);
      DuplicateBreaksTheShape(order, end.log, end.items, i + 1, bad);
    } else {
      DuplicateShows(order, log, items, i);
    }
  }

  lemma FirstDuplicate(order: seq<string>) returns (bad: nat)
    requires !Distinct(order)
    ensures bad < |order| && !FilesItself(order, bad) && forall l :: 0 <= l < bad ==> FilesItself(order, l)
  {
    var i, j :| 0 <= i < j < |order| && order[i] == order[j];
    assert !FilesItself(order, i);
    bad := 0;
    while FilesItself(order, bad)
      invariant bad <= i && forall l :: 0 <= l < bad ==> FilesItself(order, l)
      decreases i - bad
    {
      bad := bad + 1;
    }
  }

  /**
    Every snapshot of every walk reads blocked*, at most one trying or ok, waiting*, with "ok" as outcome iff
    exactly one item is ok, and only blocked items once exhausted: exactly when no identifier repeats.
   */
  lemma SnapshotsAreShapedIff(order: seq<string>)
    ensures (forall w: World :: AllGood(WholeWalk(w, order))) <==> Distinct(order)
  {
    BetweenIsGood(Opening(order), 0, Pending);
    if Distinct(order) {
      forall w: World
        ensures AllGood(WholeWalk(w, order))
      {
        WalkKeepsShape(w, order, [Published(Opening(order), Pending)], Opening(order), 0);
      }
    } else {
      var bad := FirstDuplicate(order);
      DuplicateBreaksTheShape(order, [Published(Opening(order), Pending)], Opening(order), 0, bad);
      assert !AllGood(WholeWalk(NothingBuilds(), order));
    }
  }

  // ----- Which strategies are started -----

  /** The interference fingerprint: the entry accepts, the handshake stalls. */
  predicate Interfered(w: World, i: nat, k: nat) {
    w.tries(i, k) == Down(Connected, true)
  }

  /** An engine start of node i under strategy k comes after k strategies that each met the fingerprint. */
  ghost predicate Earned(w: World, log: seq<Event>) {
    forall p :: 0 <= p < |log| && log[p].Started? ==>
      log[p].strategy < STRATEGIES && EarnedUpTo(w, log[..p], log[p].node, log[p].strategy)
  }

  /** The first k strategies of node i each met the fingerprint, and the log says so. */
  ghost predicate EarnedUpTo(w: World, log: seq<Event>, i: nat, k: nat) {
    forall j :: 0 <= j < k ==> Interfered(w, i, j) && Classified(i, j, Censored) in log
  }

  lemma EarnedUpToGrows(w: World, log: seq<Event>, e: Event, i: nat, k: nat)
    requires EarnedUpTo(w, log, i, k)
    ensures EarnedUpTo(w, log + [e], i, k)
  {
  }

  lemma EarnedGrows(w: World, log: seq<Event>, e: Event)
    requires Earned(w, log)
    requires e.Started? ==> e.strategy < STRATEGIES && EarnedUpTo(w, log, e.node, e.strategy)
    ensures Earned(w, log + [e])
  {
    var l := log + [e];
    forall p | 0 <= p < |l| && l[p].Started?
      ensures l[p].strategy < STRATEGIES && EarnedUpTo(w, l[..p], l[p].node, l[p].strategy)
    {
      assert p < |log| ==> l[..p] == log[..p];
      assert p == |log| ==> l[..p] == log;
    }
  }

  lemma TurnEarns(w: World, log: seq<Event>, items: seq<Item>, i: nat, j: nat, k: nat, censored: bool)
    requires j < |items| && k < STRATEGIES && Earned(w, log)
    requires EarnedUpTo(w, log, i, k)
    ensures match TryStrategy(w, log, items, i, j, k, censored)
            case Ends(end) => Earned(w, end.log)
            case Escalates(shown, _) => Earned(w, shown) && EarnedUpTo(w, shown, i, k + 1)
  {
    var started := log + [Started(i, k)];
    EarnedGrows(w, log, Started(i, k));
    EarnedUpToGrows(w, log, Started(i, k), i, k);
    match w.tries(i, k)
    case Down(tcp, stalled) =>
      var verdict := Classified(i, k, ClassifyFailure(tcp, stalled));
      EarnedGrows(w, started, verdict);
      EarnedUpToGrows(w, started, verdict, i, k);
      var marked := Published(MarkEscalating(items, j, k + 1), Pending);
      EarnedGrows(w, started + [verdict], marked);
      EarnedUpToGrows(w, started + [verdict], marked, i, k);
      assert (started + [verdict] + [marked])[|started|] == verdict;
    case Up =>
      EarnedGrows(w, started, Published(MarkSucceeded(items, j, k), Success));
    case _ =>
      var marked := Published(MarkBlocked(items, j, LocalSetupFailed), Pending);
      EarnedGrows(w, started, marked);
      EarnedGrows(w, started + [marked], Event.Failed);
  }

  lemma {:induction false} CascadeEarns(w: World, log: seq<Event>, items: seq<Item>,
                                        i: nat, j: nat, k: nat, censored: bool)
    requires j < |items| && k < STRATEGIES && Earned(w, log) && EarnedUpTo(w, log, i, k)
    ensures Earned(w, Cascade(w, log, items, i, j, k, censored).log)
    decreases STRATEGIES - k
  {
    TurnEarns(w, log, items, i, j, k, censored);
    match TryStrategy(w, log, items, i, j, k, censored)
    case Ends(_) =>
    case Escalates(shown, marked) => CascadeEarns(w, shown, marked, i, j, k + 1, true);
  }

  lemma {:induction false} WalkEarns(w: World, order: seq<string>, log: seq<Event>, items: seq<Item>, i: nat)
    requires |items| == |order| && i <= |order| && Earned(w, log)
    ensures Earned(w, Walk(w, order, log, items, i))
    decreases |order| - i
  {
    if i == |order| {
      EarnedGrows(w, log, Published(items, Exhausted));
      EarnedGrows(w, log + [Published(items, Exhausted)], Event.Failed);
    } else {
      var j := IndexOf(order, order[i]);
      var trying := Mark(items, j, Status.Trying);
      EarnedGrows(w, log, Published(trying, Pending));
      var shown := log + [Published(trying, Pending)];
      CascadeEarns(w, shown, trying, i, j, 0, false);
      var tried := Cascade(w, shown, trying, i, j, 0, false);
      EarnedGrows(w, tried.log, Published(MarkBlocked(tried.items, j, tried.reason), Pending));
      var end := Candidate(w, order, log, items, i);
      WalkEarns(w, order, end.log, end.items, i + 1);
    }
  }

  /** In every walk, strategy k is started on a node only after strategies 0 to k-1 each looked interfered with. */
  lemma StrategiesAreEarned(w: World, order: seq<string>)
    ensures Earned(w, WholeWalk(w, order))
  {
    WalkEarns(w, order, [Published(Opening(order), Pending)], Opening(order), 0);
  }

  // ----- How often the engine is started -----

  /** The positions of a log at which the engine is started. */
  function StartedAt(log: seq<Event>): set<nat> {
    set p: nat | p < |log| && log[p].Started?
  }

  function Starts(log: seq<Event>): nat {
    |StartedAt(log)|
  }

  lemma StartsGrow(log: seq<Event>, e: Event)
    ensures Starts(log + [e]) == Starts(log) + if e.Started? then 1 else 0
  {
    assert StartedAt(log + [e]) == StartedAt(log) + if e.Started? then {|log|} else {};
  }

  lemma TurnStarts(w: World, log: seq<Event>, items: seq<Item>, i: nat, j: nat, k: nat, censored: bool)
    requires j < |items| && k < STRATEGIES
    ensures match TryStrategy(w, log, items, i, j, k, censored)
            case Ends(end) => Starts(end.log) <= Starts(log) + 1
            case Escalates(shown, _) => Starts(shown) == Starts(log) + 1
  {
    var started := log + [Started(i, k)];
    StartsGrow(log, Started(i, k));
    match w.tries(i, k)
    case Down(tcp, stalled) =>
      var verdict := Classified(i, k, ClassifyFailure(tcp, stalled));
      StartsGrow(started, verdict);
      StartsGrow(started + [verdict], Published(MarkEscalating(items, j, k + 1), Pending));
    case Up =>
      StartsGrow(started, Published(MarkSucceeded(items, j, k), Success));
    case _ =>
      var marked := Published(MarkBlocked(items, j, LocalSetupFailed), Pending);
      StartsGrow(started, marked);
      StartsGrow(started + [marked], Event.Failed);
  }

  lemma {:induction false} CascadeStarts(w: World, log: seq<Event>, items: seq<Item>,
                                         i: nat, j: nat, k: nat, censored: bool)
    requires j < |items| && k < STRATEGIES
    ensures Starts(Cascade(w, log, items, i, j, k, censored).log) <= Starts(log) + STRATEGIES - k
    decreases STRATEGIES - k
  {
    TurnStarts(w, log, items, i, j, k, censored);
    match TryStrategy(w, log, items, i, j, k, censored)
    case Ends(_) =>
    case Escalates(shown, marked) => CascadeStarts(w, shown, marked, i, j, k + 1, true);
  }

  lemma {:induction false} WalkStarts(w: World, order: seq<string>, log: seq<Event>, items: seq<Item>, i: nat)
    requires |items| == |order| && i <= |order|
    ensures Starts(Walk(w, order, log, items, i)) <= Starts(log) + STRATEGIES * (|order| - i)
    decreases |order| - i
  {
    if i == |order| {
      StartsGrow(log, Published(items, Exhausted));
      StartsGrow(log + [Published(items, Exhausted)], Event.Failed);
    } else {
      var j := IndexOf(order, order[i]);
      var trying := Mark(items, j, Status.Trying);
      StartsGrow(log, Published(trying, Pending));
      var shown := log + [Published(trying, Pending)];
      CascadeStarts(w, shown, trying, i, j, 0, false);
      var tried := Cascade(w, shown, trying, i, j, 0, false);
      StartsGrow(tried.log, Published(MarkBlocked(tried.items, j, tried.reason), Pending));
      var end := Candidate(w, order, log, items, i);
      WalkStarts(w, order, end.log, end.items, i + 1);
    }
  }

  /** Every walk ends after at most one engine start per candidate and strategy. */
  lemma StartsAreBounded(w: World, order: seq<string>)
    ensures Starts(WholeWalk(w, order)) <= STRATEGIES * |order|
  {
    WalkStarts(w, order, [Published(Opening(order), Pending)], Opening(order), 0);
    StartsGrow([], Published(Opening(order), Pending));
    assert [Published(Opening(order), Pending)] == [] + [Published(Opening(order), Pending)];
  }

  // ----- Which node comes up -----

  /** The strategy on which node i is decided: the first without the fingerprint, or the last. */
  function DecidedAt(w: World, i: nat, k: nat): (d: nat)
    requires k < STRATEGIES
    ensures k <= d < STRATEGIES
    ensures forall j :: k <= j < d ==> Interfered(w, i, j)
    ensures Interfered(w, i, d) ==> d == STRATEGIES - 1
    decreases STRATEGIES - k
  {
    if Interfered(w, i, k) && k + 1 < STRATEGIES then DecidedAt(w, i, k + 1) else k
  }

  predicate ComesUp(w: World, i: nat) {
    w.tries(i, DecidedAt(w, i, 0)).Up?
  }

  /** The walk moves on past node i. */
  predicate MovesOn(w: World, i: nat) {
    var t := w.tries(i, DecidedAt(w, i, 0));
    t.BuildFails? || t == StartFails(false) || t.Down?
  }

  lemma {:induction false} CascadeIsDecided(w: World, log: seq<Event>, items: seq<Item>,
                                            i: nat, j: nat, k: nat, censored: bool)
    requires j < |items| && k < STRATEGIES
    ensures var outcome := Cascade(w, log, items, i, j, k, censored).outcome;
            var t := w.tries(i, DecidedAt(w, i, k));
            && (outcome == NodeConnected <==> t.Up?)
            && (outcome == NodeFailed <==> t.BuildFails? || t == StartFails(false) || t.Down?)
    decreases STRATEGIES - k
  {
    assert Interfered(w, i, k) && k + 1 < STRATEGIES <==> TryStrategy(w, log, items, i, j, k, censored).Escalates?;
    match TryStrategy(w, log, items, i, j, k, censored)
    case Ends(_) =>
    case Escalates(shown, marked) => CascadeIsDecided(w, shown, marked, i, j, k + 1, true);
  }

  /** Node n comes up after every candidate from i on before it was passed over, and nobody superseded the walk. */
  predicate Wins(w: World, i: nat, n: nat) {
    && i <= n && ComesUp(w, n)
    && (forall j :: i <= j < n ==> MovesOn(w, j))
    && (forall j :: i <= j <= n ==> !w.gone(j))
  }

  ghost predicate Announces(log: seq<Event>) {
    exists p :: 0 <= p < |log| && log[p].Published? && log[p].outcome == Success
  }

  lemma AnnouncesGrows(log: seq<Event>, e: Event)
    ensures Announces(log + [e]) <==> Announces(log) || (e.Published? && e.outcome == Success)
  {
    var l := log + [e];
    if Announces(log) {
      var p :| 0 <= p < |log| && log[p].Published? && log[p].outcome == Success;
      assert l[p] == log[p];
    }
    assert l[|log|] == e;
  }

  lemma TurnAnnounces(w: World, log: seq<Event>, items: seq<Item>, i: nat, j: nat, k: nat, censored: bool)
    requires j < |items| && k < STRATEGIES && !Announces(log)
    ensures match TryStrategy(w, log, items, i, j, k, censored)
            case Ends(end) => Announces(end.log) <==> end.outcome == NodeConnected
            case Escalates(shown, _) => !Announces(shown)
  {
    var started := log + [Started(i, k)];
    AnnouncesGrows(log, Started(i, k));
    match w.tries(i, k)
    case Down(tcp, stalled) =>
      var verdict := Classified(i, k, ClassifyFailure(tcp, stalled));
      AnnouncesGrows(started, verdict);
      AnnouncesGrows(started + [verdict], Published(MarkEscalating(items, j, k + 1), Pending));
    case Up =>
      AnnouncesGrows(started, Published(MarkSucceeded(items, j, k), Success));
    case _ =>
      var marked := Published(MarkBlocked(items, j, LocalSetupFailed), Pending);
      AnnouncesGrows(started, marked);
      AnnouncesGrows(started + [marked], Event.Failed);
  }

  lemma {:induction false} CascadeAnnounces(w: World, log: seq<Event>, items: seq<Item>,
                                            i: nat, j: nat, k: nat, censored: bool)
    requires j < |items| && k < STRATEGIES && !Announces(log)
    ensures var end := Cascade(w, log, items, i, j, k, censored);
            Announces(end.log) <==> end.outcome == NodeConnected
    decreases STRATEGIES - k
  {
    TurnAnnounces(w, log, items, i, j, k, censored);
    match TryStrategy(w, log, items, i, j, k, censored)
    case Ends(_) =>
    case Escalates(shown, marked) => CascadeAnnounces(w, shown, marked, i, j, k + 1, true);
  }

  lemma CandidateAnnounces(w: World, order: seq<string>, log: seq<Event>, items: seq<Item>, i: nat)
    requires |items| == |order| && i < |order| && !Announces(log)
    ensures var end := Candidate(w, order, log, items, i);
            && (Announces(end.log) <==> ComesUp(w, i))
            && (end.outcome == NodeFailed <==> MovesOn(w, i))
  {
    var j := IndexOf(order, order[i]);
    var trying := Mark(items, j, Status.Trying);
    AnnouncesGrows(log, Published(trying, Pending));
    var shown := log + [Published(trying, Pending)];
    CascadeAnnounces(w, shown, trying, i, j, 0, false);
    CascadeIsDecided(w, shown, trying, i, j, 0, false);
    var tried := Cascade(w, shown, trying, i, j, 0, false);
    AnnouncesGrows(tried.log, Published(MarkBlocked(tried.items, j, tried.reason), Pending));
  }

  lemma {:induction false} WalkAnnounces(w: World, order: seq<string>, log: seq<Event>, items: seq<Item>, i: nat)
    requires |items| == |order| && i <= |order| && !Announces(log)
    ensures Announces(Walk(w, order, log, items, i)) <==> SomeoneWins(w, i, |order|)
    decreases |order| - i
  {
    if w.gone(i) {
      assert Walk(w, order, log, items, i) == log;
    } else if i == |order| {
      AnnouncesGrows(log, Published(items, Exhausted));
      AnnouncesGrows(log + [Published(items, Exhausted)], Event.Failed);
    } else {
      CandidateAnnounces(w, order, log, items, i);
      var end := Candidate(w, order, log, items, i);
      if end.outcome == NodeFailed {
        WalkAnnounces(w, order, end.log, end.items, i + 1);
        WinsFromNext(w, i, |order|);
      } else {
        NobodyElseWins(w, i, |order|);
      }
    }
  }

  ghost predicate SomeoneWins(w: World, i: nat, count: nat) {
    exists n: nat :: n < count && Wins(w, i, n)
  }

  lemma WinsFromNext(w: World, i: nat, count: nat)
    requires MovesOn(w, i)
    ensures SomeoneWins(w, i, count) <==> !w.gone(i) && SomeoneWins(w, i + 1, count)
  {
    if SomeoneWins(w, i, count) {
      var n: nat :| n < count && Wins(w, i, n);
      assert Wins(w, i + 1, n);
    }
    if !w.gone(i) && SomeoneWins(w, i + 1, count) {
      var n: nat :| n < count && Wins(w, i + 1, n);
      assert Wins(w, i, n);
    }
  }

  lemma NobodyElseWins(w: World, i: nat, count: nat)
    requires i < count && !MovesOn(w, i)
    ensures SomeoneWins(w, i, count) <==> !w.gone(i) && ComesUp(w, i)
  {
    assert Wins(w, i, i) <==> !w.gone(i) && ComesUp(w, i);
  }

  /** A walk announces success exactly when some candidate comes up and everything before it was passed over. */
  lemma WalkConnectsIff(w: World, order: seq<string>)
    ensures Announces(WholeWalk(w, order)) <==> SomeoneWins(w, 0, |order|)
  {
    AnnouncesGrows([], Published(Opening(order), Pending));
    assert [Published(Opening(order), Pending)] == [] + [Published(Opening(order), Pending)];
    WalkAnnounces(w, order, [Published(Opening(order), Pending)], Opening(order), 0);
  }
}
