/**
  How every fallback walk ends (core/control/connect.go): which walks report that all candidates failed, when the
  error state is published, what the last snapshot says of each candidate, and which engines were started.
  All of it is told by the world and the order alone.
 */
module FallbackEnding {
  import opened FallbackWalk
  import opened FallbackShape
  import opened Wrappers

  // ----- How far a walk comes -----

  /** Every candidate before n was passed over, and nobody had superseded the walk by then. */
  predicate Reached(w: World, n: nat) {
    (forall j :: 0 <= j < n ==> MovesOn(w, j)) && (forall j :: 0 <= j <= n ==> !w.gone(j))
  }

  /** No candidate is left, and nobody supersedes the walk before it says so. */
  predicate Exhausts(w: World, order: seq<string>) {
    Reached(w, |order|) && !w.goneLate
  }

  /** The machine itself refuses to set the tunnel up, whichever node it is for. */
  predicate LocallyRefused(w: World, i: nat) {
    var t := w.tries(i, DecidedAt(w, i, 0));
    t == StartFails(true) || t == GateFails(true)
  }

  ghost predicate SomeoneIsRefused(w: World, count: nat) {
    exists n: nat :: n < count && Reached(w, n) && LocallyRefused(w, n)
  }

  /** The snapshot says that the walk is exhausted, and every item the tracker can mark is blocked. */
  predicate SaysExhausted(order: seq<string>, e: Event) {
    && e.Published? && e.outcome == Exhausted && |e.items| == |order|
    && forall j :: 0 <= j < |order| && FilesItself(order, j) ==> e.items[j].status == Blocked
  }

  predicate EndsExhausted(order: seq<string>, log: seq<Event>) {
    |log| >= 2 && SaysExhausted(order, log[|log| - 2]) && log[|log| - 1] == Event.Failed
  }

  ghost predicate ClaimsExhaustion(log: seq<Event>) {
    exists p :: 0 <= p < |log| && log[p].Published? && log[p].outcome == Exhausted
  }

  // ----- What a log holds -----

  ghost predicate Holds(log: seq<Event>, x: Event) {
    exists p :: 0 <= p < |log| && log[p] == x
  }

  lemma OneMoreEvent(log: seq<Event>, e: Event, x: Event)
    ensures ClaimsExhaustion(log + [e]) <==> ClaimsExhaustion(log) || (e.Published? && e.outcome == Exhausted)
    ensures Holds(log + [e], x) <==> Holds(log, x) || x == e
  {
    var l := log + [e];
    if ClaimsExhaustion(log) {
      var p :| 0 <= p < |log| && log[p].Published? && log[p].outcome == Exhausted;
      assert l[p] == log[p];
    }
    if Holds(log, x) {
      var p :| 0 <= p < |log| && log[p] == x;
      assert l[p] == x;
    }
    assert l[|log|] == e;
  }

  /** The engine starts that node i calls for from strategy k on, and no others. */
  predicate StartsFrom(w: World, i: nat, k: nat, e: Event)
    requires k < STRATEGIES
  {
    && e.Started? && e.node == i && k <= e.strategy <= DecidedAt(w, i, k)
    && !w.tries(i, e.strategy).GoneBefore? && !w.tries(i, e.strategy).BuildFails?
  }

  lemma TurnLogs(w: World, log: seq<Event>, items: seq<Item>, i: nat, j: nat, k: nat, censored: bool, e: Event)
    requires j < |items| && k < STRATEGIES && (e.Started? || e.Failed?)
    ensures var starts := e == Started(i, k) && !w.tries(i, k).GoneBefore? && !w.tries(i, k).BuildFails?;
            var refused := e.Failed? && (w.tries(i, k) == StartFails(true) || w.tries(i, k) == GateFails(true));
            match TryStrategy(w, log, items, i, j, k, censored)
            case Ends(end) => (Holds(end.log, e) <==> Holds(log, e) || starts || refused)
                              && (ClaimsExhaustion(end.log) <==> ClaimsExhaustion(log))
            case Escalates(shown, _) => (Holds(shown, e) <==> Holds(log, e) || starts) && !refused
                                        && (ClaimsExhaustion(shown) <==> ClaimsExhaustion(log))
  {
    var started := log + [Started(i, k)];
    OneMoreEvent(log, Started(i, k), e);
    match w.tries(i, k)
    case Down(tcp, stalled) =>
      var verdict := Classified(i, k, ClassifyFailure(tcp, stalled));
      OneMoreEvent(started, verdict, e);
      OneMoreEvent(started + [verdict], Published(MarkEscalating(items, j, k + 1), Pending), e);
    case Up =>
      OneMoreEvent(started, Published(MarkSucceeded(items, j, k), Success), e);
    case _ =>
      var marked := Published(MarkBlocked(items, j, LocalSetupFailed), Pending);
      OneMoreEvent(started, marked, e);
      OneMoreEvent(started + [marked], Event.Failed, e);
  }

  lemma {:induction false} CascadeLogs(w: World, log: seq<Event>, items: seq<Item>, i: nat, j: nat, k: nat,
                                       censored: bool, e: Event)
    requires j < |items| && k < STRATEGIES && (e.Started? || e.Failed?)
    ensures var end := Cascade(w, log, items, i, j, k, censored);
            var t := w.tries(i, DecidedAt(w, i, k));
            && (Holds(end.log, e) <==>
                  Holds(log, e) || StartsFrom(w, i, k, e)
                  || (e.Failed? && (t == StartFails(true) || t == GateFails(true))))
            && (ClaimsExhaustion(end.log) <==> ClaimsExhaustion(log))
    decreases STRATEGIES - k
  {
    TurnLogs(w, log, items, i, j, k, censored, e);
    assert Interfered(w, i, k) && k + 1 < STRATEGIES <==> TryStrategy(w, log, items, i, j, k, censored).Escalates?;
    match TryStrategy(w, log, items, i, j, k, censored)
    case Ends(_) =>
    case Escalates(shown, marked) => CascadeLogs(w, shown, marked, i, j, k + 1, true, e);
  }

  /** Candidate i puts this start or failure into the log. */
  predicate Adds(w: World, i: nat, e: Event) {
    StartsFrom(w, i, 0, e) || (e.Failed? && LocallyRefused(w, i))
  }

  lemma CandidateLogs(w: World, order: seq<string>, log: seq<Event>, items: seq<Item>, i: nat, e: Event)
    requires |items| == |order| && i < |order| && (e.Started? || e.Failed?)
    ensures var end := Candidate(w, order, log, items, i);
            && (Holds(end.log, e) <==> Holds(log, e) || Adds(w, i, e))
            && (ClaimsExhaustion(end.log) <==> ClaimsExhaustion(log))
            && (end.outcome == NodeFailed <==> MovesOn(w, i))
  {
    var j := IndexOf(order, order[i]);
    var trying := Mark(items, j, Status.Trying);
    OneMoreEvent(log, Published(trying, Pending), e);
    var shown := log + [Published(trying, Pending)];
    CascadeLogs(w, shown, trying, i, j, 0, false, e);
    CascadeIsDecided(w, shown, trying, i, j, 0, false);
    var tried := Cascade(w, shown, trying, i, j, 0, false);
    OneMoreEvent(tried.log, Published(MarkBlocked(tried.items, j, tried.reason), Pending), e);
  }

  // ----- What the last snapshot says -----

  /** The items of the last snapshot of a log. */
  function Shown(log: seq<Event>): seq<Item> {
    if log == [] then []
    else if log[|log| - 1].Published? then log[|log| - 1].items
    else Shown(log[..|log| - 1])
  }

  lemma ShownGrows(log: seq<Event>, e: Event)
    ensures Shown(log + [e]) == if e.Published? then e.items else Shown(log)
  {
    assert (log + [e])[..|log|] == log;
  }

  /** The walk ends at candidate i without a word: superseded, or refused while superseded. */
  predicate Abandoned(w: World, i: nat) {
    !ComesUp(w, i) && !MovesOn(w, i) && !LocallyRefused(w, i)
  }

  /**
    What becomes of candidate i once it has been tried: up, blocked, or left in flight; under the last strategy it
    was escalated to, if any; censored when it was escalated and is not up, unless the machine itself refused.
   */
  function Verdict(w: World, i: nat, id: string): Item {
    var d := DecidedAt(w, i, 0);
    Item(id,
         if ComesUp(w, i) then OK else if Abandoned(w, i) then Status.Trying else Blocked,
         if d == 0 then None else Some(d),
         if ComesUp(w, i) then NoReason
         else if LocallyRefused(w, i) then LocalSetupFailed
         else if d > 0 then LooksCensored
         else NoReason)
  }

  /** The candidate a walk ends at, or the number of candidates. */
  function StopsAt(w: World, i: nat, count: nat): (n: nat)
    requires i <= count
    ensures i <= n <= count
    decreases count - i
  {
    if i == count || w.gone(i) || !MovesOn(w, i) then i else StopsAt(w, i + 1, count)
  }

  lemma {:induction false} StopsThere(w: World, i: nat, count: nat)
    requires i <= count
    ensures var n := StopsAt(w, i, count);
            && (forall j :: i <= j < n ==> MovesOn(w, j) && !w.gone(j))
            && (n < count ==> w.gone(n) || !MovesOn(w, n))
    decreases count - i
  {
    if i < count && !w.gone(i) && MovesOn(w, i) {
      StopsThere(w, i + 1, count);
    }
  }

  /** Every candidate up to where the walk ended has its verdict; the others wait. */
  function Expected(w: World, order: seq<string>): seq<Item> {
    var n := StopsAt(w, 0, |order|);
    seq(|order|, j requires 0 <= j < |order| =>
      if j < n || (j == n && !w.gone(n)) then Verdict(w, j, order[j]) else Item(order[j], Waiting, None, NoReason))
  }

  /** The item of a node under strategy k. */
  function UnderWay(id: string, k: nat): Item {
    Item(id, Status.Trying, if k == 0 then None else Some(k), if k == 0 then NoReason else LooksCensored)
  }

  /** The item of node i when its strategies are over, before a failed node is marked blocked. */
  function Tried(w: World, i: nat, id: string): Item {
    if MovesOn(w, i) then UnderWay(id, DecidedAt(w, i, 0)) else Verdict(w, i, id)
  }

  /** A node is decided under strategy k, or it was interfered with there and another strategy is left. */
  lemma DecidedHere(w: World, i: nat, k: nat)
    requires k < STRATEGIES && DecidedAt(w, i, 0) >= k
    ensures DecidedAt(w, i, 0) > k <==> Interfered(w, i, k) && k + 1 < STRATEGIES
  {
  }

  lemma EscalationShows(w: World, log: seq<Event>, items: seq<Item>, i: nat, id: string, k: nat)
    requires i < |items| && k + 1 < STRATEGIES && items[i] == UnderWay(id, k) && Interfered(w, i, k)
    ensures var t := TryStrategy(w, log, items, i, i, k, k > 0);
            t.Escalates? && t.items == items[i := UnderWay(id, k + 1)] && Shown(t.log) == t.items
  {
    var verdict := log + [Started(i, k)] + [Classified(i, k, Censored)];
    ShownGrows(verdict, Published(MarkEscalating(items, i, k + 1), Pending));
  }

  lemma FailureShows(w: World, log: seq<Event>, items: seq<Item>, i: nat, id: string, k: nat)
    requires i < |items| && k < STRATEGIES && items[i] == UnderWay(id, k) && Shown(log) == items
    requires DecidedAt(w, i, 0) == k && MovesOn(w, i)
    ensures var t := TryStrategy(w, log, items, i, i, k, k > 0);
            && t.Ends? && t.end.outcome == NodeFailed && t.end.items == items && Shown(t.end.log) == items
            && (t.end.reason != NoReason ==> t.end.reason == LooksCensored && k > 0)
  {
    var started := log + [Started(i, k)];
    ShownGrows(log, Started(i, k));
    if w.tries(i, k).Down? {
      ShownGrows(started, Classified(i, k, ClassifyFailure(w.tries(i, k).tcp, w.tries(i, k).stalled)));
    }
  }

  lemma SuccessShows(w: World, log: seq<Event>, items: seq<Item>, i: nat, id: string, k: nat)
    requires i < |items| && k < STRATEGIES && items[i] == UnderWay(id, k)
    requires DecidedAt(w, i, 0) == k && ComesUp(w, i)
    ensures var t := TryStrategy(w, log, items, i, i, k, k > 0);
            && t.Ends? && t.end.outcome == NodeConnected
            && t.end.items == items[i := Verdict(w, i, id)] && Shown(t.end.log) == t.end.items
  {
    ShownGrows(log + [Started(i, k)], Published(MarkSucceeded(items, i, k), Success));
  }

  lemma RefusalShows(w: World, log: seq<Event>, items: seq<Item>, i: nat, id: string, k: nat)
    requires i < |items| && k < STRATEGIES && items[i] == UnderWay(id, k)
    requires DecidedAt(w, i, 0) == k && LocallyRefused(w, i)
    ensures var t := TryStrategy(w, log, items, i, i, k, k > 0);
            && t.Ends? && t.end.outcome == NodeLocalFailure
            && t.end.items == items[i := Verdict(w, i, id)] && Shown(t.end.log) == t.end.items
  {
    var started := log + [Started(i, k)];
    var marked := Published(MarkBlocked(items, i, LocalSetupFailed), Pending);
    ShownGrows(started, marked);
    ShownGrows(started + [marked], Event.Failed);
  }

  lemma AbandonmentShows(w: World, log: seq<Event>, items: seq<Item>, i: nat, id: string, k: nat)
    requires i < |items| && k < STRATEGIES && items[i] == UnderWay(id, k) && Shown(log) == items
    requires DecidedAt(w, i, 0) == k && Abandoned(w, i)
    ensures var t := TryStrategy(w, log, items, i, i, k, k > 0);
            && t.Ends? && t.end.outcome != NodeFailed
            && t.end.items == items[i := Verdict(w, i, id)] && Shown(t.end.log) == t.end.items
  {
    ShownGrows(log, Started(i, k));
    assert items[i := Verdict(w, i, id)] == items;
  }

  lemma {:induction false} CascadeShows(w: World, log: seq<Event>, items: seq<Item>, i: nat, id: string, k: nat)
    requires i < |items| && k < STRATEGIES && items[i] == UnderWay(id, k) && Shown(log) == items
    requires DecidedAt(w, i, 0) >= k
    ensures var end := Cascade(w, log, items, i, i, k, k > 0);
            && end.items == items[i := Tried(w, i, id)] && Shown(end.log) == end.items
            && (end.outcome == NodeFailed <==> MovesOn(w, i))
            && (end.outcome == NodeFailed && end.reason != NoReason ==>
                  end.reason == LooksCensored && DecidedAt(w, i, 0) > 0)
    decreases STRATEGIES - k
  {
    DecidedHere(w, i, k);
    if DecidedAt(w, i, 0) > k {
      EscalationShows(w, log, items, i, id, k);
      var t := TryStrategy(w, log, items, i, i, k, k > 0);
      CascadeShows(w, t.log, t.items, i, id, k + 1);
      assert t.items[i := Tried(w, i, id)] == items[i := Tried(w, i, id)];
    } else if MovesOn(w, i) {
      FailureShows(w, log, items, i, id, k);
      assert items[i := Tried(w, i, id)] == items;
    } else if ComesUp(w, i) {
      SuccessShows(w, log, items, i, id, k);
    } else if LocallyRefused(w, i) {
      RefusalShows(w, log, items, i, id, k);
    } else {
      AbandonmentShows(w, log, items, i, id, k);
    }
  }

  lemma CandidateShows(w: World, order: seq<string>, log: seq<Event>, items: seq<Item>, i: nat)
    requires |items| == |order| && i < |order| && FilesItself(order, i)
    requires items[i] == Item(order[i], Waiting, None, NoReason) && Shown(log) == items
    ensures var end := Candidate(w, order, log, items, i);
            && end.items == items[i := Verdict(w, i, order[i])] && Shown(end.log) == end.items
            && (end.outcome == NodeFailed <==> MovesOn(w, i))
  {
    var trying := Mark(items, i, Status.Trying);
    ShownGrows(log, Published(trying, Pending));
    var shown := log + [Published(trying, Pending)];
    assert trying[i] == UnderWay(order[i], 0);
    CascadeShows(w, shown, trying, i, order[i], 0);
    var tried := Cascade(w, shown, trying, i, i, 0, false);
    if tried.outcome == NodeFailed {
      var blocked := MarkBlocked(tried.items, i, tried.reason);
      ShownGrows(tried.log, Published(blocked, Pending));
      assert blocked == items[i := Verdict(w, i, order[i])];
    }
  }

  /** The items with i candidates behind. */
  function Passed(w: World, order: seq<string>, i: nat): seq<Item>
    requires i <= |order|
  {
    seq(|order|, j requires 0 <= j < |order| =>
      if j < i then Verdict(w, j, order[j]) else Item(order[j], Waiting, None, NoReason))
  }

  lemma {:induction false} WalkShows(w: World, order: seq<string>, log: seq<Event>, i: nat)
    requires i <= |order| && Distinct(order) && Shown(log) == Passed(w, order, i)
    requires StopsAt(w, 0, |order|) == StopsAt(w, i, |order|)
    ensures Shown(Walk(w, order, log, Passed(w, order, i), i)) == Expected(w, order)
    decreases |order| - i
  {
    var items := Passed(w, order, i);
    if w.gone(i) {
      assert items == Expected(w, order);
    } else if i == |order| {
      ShownGrows(log, Published(items, Exhausted));
      ShownGrows(log + [Published(items, Exhausted)], Event.Failed);
      assert items == Expected(w, order);
    } else {
      DistinctFilesItself(order, i);
      CandidateShows(w, order, log, items, i);
      var end := Candidate(w, order, log, items, i);
      assert end.items == Passed(w, order, i + 1);
      if MovesOn(w, i) {
        WalkShows(w, order, end.log, i + 1);
      } else {
        assert end.items == Expected(w, order);
      }
    }
  }

  /**
    With no identifier repeated, the last snapshot of every walk shows each candidate it came to with its verdict -
    status, strategy and reason - and the others waiting.
   */
  lemma TheLastSnapshotTells(w: World, order: seq<string>)
    requires Distinct(order)
    ensures Shown(WholeWalk(w, order)) == Expected(w, order)
  {
    assert Passed(w, order, 0) == Opening(order);
    ShownGrows([], Published(Opening(order), Pending));
    assert [Published(Opening(order), Pending)] == [] + [Published(Opening(order), Pending)];
    WalkShows(w, order, [Published(Opening(order), Pending)], 0);
  }

  // ----- Which walks end how -----

  /** Some candidate the walk comes to, from i on, puts it there. */
  predicate AddsFrom(w: World, i: nat, count: nat, e: Event)
    requires i <= count
    decreases count - i
  {
    i < count && !w.gone(i) && (Adds(w, i, e) || (MovesOn(w, i) && AddsFrom(w, i + 1, count, e)))
  }

  /** The walk comes to its end with no candidate left. */
  predicate RunsOut(w: World, i: nat, count: nat)
    requires i <= count
    decreases count - i
  {
    !w.gone(i) && if i == count then !w.goneLate else MovesOn(w, i) && RunsOut(w, i + 1, count)
  }

  /** Items that candidates before i have left blocked, where the tracker can mark them. */
  predicate BlockedBefore(order: seq<string>, items: seq<Item>, i: nat) {
    |items| == |order| && forall j :: 0 <= j < i && j < |order| && FilesItself(order, j) ==> items[j].status == Blocked
  }

  lemma {:induction false} CascadeTouchesOne(w: World, log: seq<Event>, items: seq<Item>, i: nat, j: nat, k: nat,
                                             censored: bool)
    requires j < |items| && k < STRATEGIES
    ensures var end := Cascade(w, log, items, i, j, k, censored);
            forall l :: 0 <= l < |items| && l != j ==> end.items[l] == items[l]
    decreases STRATEGIES - k
  {
    match TryStrategy(w, log, items, i, j, k, censored)
    case Ends(_) =>
    case Escalates(shown, marked) => CascadeTouchesOne(w, shown, marked, i, j, k + 1, true);
  }

  /** A candidate passed over is blocked, and those before it stay so. */
  lemma CandidateBlocks(w: World, order: seq<string>, log: seq<Event>, items: seq<Item>, i: nat)
    requires i < |order| && BlockedBefore(order, items, i)
    ensures var end := Candidate(w, order, log, items, i);
            end.outcome == NodeFailed ==> BlockedBefore(order, end.items, i + 1)
  {
    var j := IndexOf(order, order[i]);
    var trying := Mark(items, j, Status.Trying);
    CascadeTouchesOne(w, log + [Published(trying, Pending)], trying, i, j, 0, false);
  }

  lemma EndingExhausted(order: seq<string>, log: seq<Event>, items: seq<Item>)
    requires BlockedBefore(order, items, |order|)
    ensures EndsExhausted(order, log + [Published(items, Exhausted)] + [Event.Failed])
  {
    var l := log + [Published(items, Exhausted)] + [Event.Failed];
    assert l[|l| - 2] == Published(items, Exhausted);
  }

  /** What the walk adds once no candidate is left. */
  function Closing(w: World, items: seq<Item>): seq<Event> {
    if w.gone(|items|) || w.goneLate then [] else [Published(items, Exhausted), Event.Failed]
  }

  lemma WalkOut(w: World, order: seq<string>, log: seq<Event>, items: seq<Item>)
    requires |items| == |order|
    ensures Walk(w, order, log, items, |order|) == log + Closing(w, items)
  {
    assert log + [] == log;
  }

  lemma ClosingHolds(w: World, log: seq<Event>, items: seq<Item>, x: Event)
    requires x.Started? || x.Failed?
    ensures var closes := !w.gone(|items|) && !w.goneLate;
            && (Holds(log + Closing(w, items), x) <==> Holds(log, x) || (closes && x.Failed?))
            && (ClaimsExhaustion(log + Closing(w, items)) <==> ClaimsExhaustion(log) || closes)
  {
    if !w.gone(|items|) && !w.goneLate {
      OneMoreEvent(log, Published(items, Exhausted), x);
      OneMoreEvent(log + [Published(items, Exhausted)], Event.Failed, x);
      assert log + Closing(w, items) == log + [Published(items, Exhausted)] + [Event.Failed];
    } else {
      assert log + [] == log;
    }
  }

  lemma {:induction false} WalkClaims(w: World, order: seq<string>, log: seq<Event>, items: seq<Item>, i: nat)
    requires |items| == |order| && i <= |order| && !ClaimsExhaustion(log)
    ensures ClaimsExhaustion(Walk(w, order, log, items, i)) <==> RunsOut(w, i, |order|)
    decreases |order| - i
  {
    if i == |order| {
      WalkOut(w, order, log, items);
      ClosingHolds(w, log, items, Event.Failed);
    } else if !w.gone(i) {
      CandidateLogs(w, order, log, items, i, Event.Failed);
      var end := Candidate(w, order, log, items, i);
      if end.outcome == NodeFailed {
        WalkClaims(w, order, end.log, end.items, i + 1);
      }
    }
  }

  /** A walk that runs out leaves every item it can mark blocked, and closes with them. */
  lemma {:induction false} WalkCloses(w: World, order: seq<string>, log: seq<Event>, items: seq<Item>, i: nat)
    returns (before: seq<Event>, left: seq<Item>)
    requires i <= |order| && BlockedBefore(order, items, i) && RunsOut(w, i, |order|)
    ensures Walk(w, order, log, items, i) == before + [Published(left, Exhausted)] + [Event.Failed]
    ensures BlockedBefore(order, left, |order|)
    decreases |order| - i
  {
    if i == |order| {
      WalkOut(w, order, log, items);
      return log, items;
    }
    CandidateLogs(w, order, log, items, i, Event.Failed);
    CandidateBlocks(w, order, log, items, i);
    var end := Candidate(w, order, log, items, i);
    before, left := WalkCloses(w, order, end.log, end.items, i + 1);
  }

  lemma {:induction false} WalkHolds(w: World, order: seq<string>, log: seq<Event>, items: seq<Item>, i: nat, e: Event)
    requires |items| == |order| && i <= |order| && (e.Started? || e.Failed?)
    ensures Holds(Walk(w, order, log, items, i), e)
            <==> Holds(log, e) || AddsFrom(w, i, |order|, e) || (e.Failed? && RunsOut(w, i, |order|))
    decreases |order| - i
  {
    if i == |order| {
      WalkOut(w, order, log, items);
      ClosingHolds(w, log, items, e);
    } else if !w.gone(i) {
      CandidateLogs(w, order, log, items, i, e);
      var end := Candidate(w, order, log, items, i);
      if end.outcome == NodeFailed {
        WalkHolds(w, order, end.log, end.items, i + 1, e);
      }
    }
  }

  lemma {:induction false} RunsOutIff(w: World, i: nat, count: nat)
    requires i <= count
    ensures RunsOut(w, i, count) <==>
            (forall j :: i <= j < count ==> MovesOn(w, j)) && (forall j :: i <= j <= count ==> !w.gone(j)) && !w.goneLate
    decreases count - i
  {
    if i < count {
      RunsOutIff(w, i + 1, count);
    }
  }

  /** The walk from candidate i on comes to candidate n. */
  predicate ReachedFrom(w: World, i: nat, n: nat) {
    i <= n && (forall j :: i <= j < n ==> MovesOn(w, j)) && (forall j :: i <= j <= n ==> !w.gone(j))
  }

  ghost predicate AddedFrom(w: World, i: nat, count: nat, e: Event) {
    exists n: nat :: n < count && ReachedFrom(w, i, n) && Adds(w, n, e)
  }

  lemma {:induction false} AddsFromIff(w: World, i: nat, count: nat, e: Event)
    requires i <= count
    ensures AddsFrom(w, i, count, e) <==> AddedFrom(w, i, count, e)
    decreases count - i
  {
    if i < count {
      AddsFromIff(w, i + 1, count, e);
      if AddedFrom(w, i, count, e) {
        var n: nat :| n < count && ReachedFrom(w, i, n) && Adds(w, n, e);
        assert n > i ==> ReachedFrom(w, i + 1, n);
      }
      if !w.gone(i) && MovesOn(w, i) && AddedFrom(w, i + 1, count, e) {
        var n: nat :| n < count && ReachedFrom(w, i + 1, n) && Adds(w, n, e);
        assert ReachedFrom(w, i, n);
      }
      assert !w.gone(i) ==> ReachedFrom(w, i, i);
    }
  }

  lemma TheWholeWalkHolds(w: World, order: seq<string>, e: Event)
    requires e.Started? || e.Failed?
    ensures Holds(WholeWalk(w, order), e)
            <==> (exists n: nat :: n < |order| && Reached(w, n) && Adds(w, n, e)) || (e.Failed? && Exhausts(w, order))
  {
    var opening := Published(Opening(order), Pending);
    assert !Holds([opening], e);
    WalkHolds(w, order, [opening], Opening(order), 0, e);
    AddsFromIff(w, 0, |order|, e);
    RunsOutIff(w, 0, |order|);
    forall n: nat
      ensures ReachedFrom(w, 0, n) <==> Reached(w, n)
    {
    }
  }

  lemma TheWholeWalkClaims(w: World, order: seq<string>)
    ensures Exhausts(w, order) ==> EndsExhausted(order, WholeWalk(w, order))
    ensures ClaimsExhaustion(WholeWalk(w, order)) <==> Exhausts(w, order)
  {
    var opening := Published(Opening(order), Pending);
    assert !ClaimsExhaustion([opening]);
    WalkClaims(w, order, [opening], Opening(order), 0);
    RunsOutIff(w, 0, |order|);
    if Exhausts(w, order) {
      var before, left := WalkCloses(w, order, [opening], Opening(order), 0);
      EndingExhausted(order, before, left);
    }
  }

  /**
    A walk's log ends with the exhausted snapshot, every item the tracker can mark blocked, and then the error state,
    exactly when every candidate is passed over and nobody supersedes the walk up to its end.  No other walk
    publishes an exhausted snapshot at all, and the error state is published only there or after a local refusal.
   */
  lemma WalkIsExhaustedIff(w: World, order: seq<string>)
    ensures EndsExhausted(order, WholeWalk(w, order)) <==> Exhausts(w, order)
    ensures ClaimsExhaustion(WholeWalk(w, order)) <==> Exhausts(w, order)
    ensures Holds(WholeWalk(w, order), Event.Failed) <==> Exhausts(w, order) || SomeoneIsRefused(w, |order|)
  {
    TheWholeWalkHolds(w, order, Event.Failed);
    TheWholeWalkClaims(w, order);
    var log := WholeWalk(w, order);
    if EndsExhausted(order, log) {
      assert log[|log| - 2].Published? && log[|log| - 2].outcome == Exhausted;
    }
    forall n: nat
      ensures Adds(w, n, Event.Failed) <==> LocallyRefused(w, n)
    {
    }
  }

  /**
    The engine is started for candidate i under strategy k exactly when the walk comes to i, every strategy before k
    met the interference fingerprint there, and the try is neither superseded beforehand nor impossible to build.
   */
  lemma StartedIff(w: World, order: seq<string>, i: nat, k: nat)
    ensures Holds(WholeWalk(w, order), Started(i, k))
            <==> && i < |order| && Reached(w, i) && k < 4
                 && (forall l :: 0 <= l < k ==> Interfered(w, i, l))
                 && !w.tries(i, k).GoneBefore? && !w.tries(i, k).BuildFails?
  {
    TheWholeWalkHolds(w, order, Started(i, k));
    if k < STRATEGIES {
      DecidedIff(w, i, k);
    }
  }

  lemma DecidedIff(w: World, i: nat, k: nat)
    requires k < STRATEGIES
    ensures k <= DecidedAt(w, i, 0) <==> forall l :: 0 <= l < k ==> Interfered(w, i, l)
  {
  }

  // ----- What is logged of a failure -----

  /** What a direct dial tells of a node that carried no traffic. */
  predicate Tells(t: Try, verdict: FailureClass) {
    && t.Down?
    && match verdict
       case Dead => t.tcp.Refused? || t.tcp.Unreachable?
       case Censored => t.tcp.Connected? && t.stalled
       case Unknown => (t.tcp.Connected? && !t.stalled) || t.tcp.TimedOut? || t.tcp.Indeterminate?
  }

  ghost predicate Observed(w: World, log: seq<Event>) {
    forall p :: 0 <= p < |log| && log[p].Classified? ==>
      log[p].strategy < 3 && Tells(w.tries(log[p].node, log[p].strategy), log[p].verdict)
  }

  lemma ObservedGrows(w: World, log: seq<Event>, e: Event)
    requires Observed(w, log)
    requires e.Classified? ==> e.strategy < 3 && Tells(w.tries(e.node, e.strategy), e.verdict)
    ensures Observed(w, log + [e])
  {
  }

  lemma TurnObserves(w: World, log: seq<Event>, items: seq<Item>, i: nat, j: nat, k: nat, censored: bool)
    requires j < |items| && k < STRATEGIES && Observed(w, log)
    ensures match TryStrategy(w, log, items, i, j, k, censored)
            case Ends(end) => Observed(w, end.log)
            case Escalates(shown, _) => Observed(w, shown)
  {
    var started := log + [Started(i, k)];
    ObservedGrows(w, log, Started(i, k));
    match w.tries(i, k)
    case Down(tcp, stalled) =>
      if k < STRATEGIES - 1 {
        var verdict := Classified(i, k, ClassifyFailure(tcp, stalled));
        ObservedGrows(w, started, verdict);
        ObservedGrows(w, started + [verdict], Published(MarkEscalating(items, j, k + 1), Pending));
      }
    case Up =>
      ObservedGrows(w, started, Published(MarkSucceeded(items, j, k), Success));
    case _ =>
      var marked := Published(MarkBlocked(items, j, LocalSetupFailed), Pending);
      ObservedGrows(w, started, marked);
      ObservedGrows(w, started + [marked], Event.Failed);
  }

  lemma {:induction false} CascadeObserves(w: World, log: seq<Event>, items: seq<Item>,
                                           i: nat, j: nat, k: nat, censored: bool)
    requires j < |items| && k < STRATEGIES && Observed(w, log)
    ensures Observed(w, Cascade(w, log, items, i, j, k, censored).log)
    decreases STRATEGIES - k
  {
    TurnObserves(w, log, items, i, j, k, censored);
    match TryStrategy(w, log, items, i, j, k, censored)
    case Ends(_) =>
    case Escalates(shown, marked) => CascadeObserves(w, shown, marked, i, j, k + 1, true);
  }

  lemma {:induction false} WalkObserves(w: World, order: seq<string>, log: seq<Event>, items: seq<Item>, i: nat)
    requires |items| == |order| && i <= |order| && Observed(w, log)
    ensures Observed(w, Walk(w, order, log, items, i))
    decreases |order| - i
  {
    if i == |order| {
      ObservedGrows(w, log, Published(items, Exhausted));
      ObservedGrows(w, log + [Published(items, Exhausted)], Event.Failed);
    } else {
      var j := IndexOf(order, order[i]);
      var trying := Mark(items, j, Status.Trying);
      ObservedGrows(w, log, Published(trying, Pending));
      var shown := log + [Published(trying, Pending)];
      CascadeObserves(w, shown, trying, i, j, 0, false);
      var tried := Cascade(w, shown, trying, i, j, 0, false);
      ObservedGrows(w, tried.log, Published(MarkBlocked(tried.items, j, tried.reason), Pending));
      var end := Candidate(w, order, log, items, i);
      WalkObserves(w, order, end.log, end.items, i + 1);
    }
  }

  /**
    Every verdict that is logged is what the direct dial told: dead if it was refused or unreachable, censored if it
    connected and the tunnel stalled, unknown otherwise; the last strategy has none, for nothing is left to try.
   */
  lemma VerdictsAreObserved(w: World, order: seq<string>)
    ensures Observed(w, WholeWalk(w, order))
  {
    WalkObserves(w, order, [Published(Opening(order), Pending)], Opening(order), 0);
  }
}
