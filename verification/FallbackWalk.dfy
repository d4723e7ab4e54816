/**
  One connect's walk over its candidates (core/control/connect.go): each node is tried across the
  transport strategies, and every change of an item publishes a snapshot of the whole list.  What the
  engine, the probes and the other threads do to the walk is a `World`, arbitrary in every lemma.
 */
module FallbackWalk {
  import opened Wrappers

  // ----- The classifier (core/fallback/classify.go) -----

  datatype TCPResult = Indeterminate | Connected | Refused | TimedOut | Unreachable
  datatype FailureClass = Unknown | Dead | Censored

  function ClassifyFailure(tcp: TCPResult, stalled: bool): FailureClass {
    match tcp
    case Refused | Unreachable => Dead
    case Connected => if stalled then Censored else Unknown
    case TimedOut => Unknown
    case Indeterminate => Unknown
  }

  // ----- What a walk meets -----

  /** What happens to one try of a node under one strategy. */
  datatype Try =
    | GoneBefore                                  // superseded at the top of the strategy loop
    | BuildFails
    | GoneAtStart                                 // the engine would not start, and the walk is superseded
    | StartFails(local: bool)                     // ... and it is current; local: the machine's own refusal
    | GoneInProbe                                 // the probe ended without traffic, superseded
    | Down(tcp: TCPResult, stalled: bool)         // ... current: what the direct dial then observes
    | GateFails(current: bool)                    // traffic flowed but acceptance was refused
    | Up

  /**
    gone(i): superseded at the top of the candidate loop with i candidates behind; goneLate: superseded by the
    second look, once no candidate is left; tries(i, k): the try of candidate i under strategy k.
   */
  datatype World = World(gone: nat -> bool, goneLate: bool, tries: (nat, nat) -> Try)

  // ----- Items and events -----

  /** The transport strategies, in order: default, firefox-fp, alt-sni, tls-fragment. */
  const STRATEGIES := 4

  datatype Status = Waiting | Trying | Blocked | OK
  datatype Reason = NoReason | LooksCensored | LocalSetupFailed

  /** strategy: the non-default strategy the item names, if any. */
  datatype Item = Item(node: string, status: Status, strategy: Option<nat>, reason: Reason)
  datatype Outcome = Pending | Success | Exhausted

  datatype Event =
    | Published(items: seq<Item>, outcome: Outcome)
    | Started(node: nat, strategy: nat)           // the engine was told to start: candidate and strategy index
    | Classified(node: nat, strategy: nat, verdict: FailureClass)
    | Failed                                      // the walk put the daemon in the error state

  /** The index an identifier is filed under: building the map leaves its last occurrence. */
  function IndexOf(order: seq<string>, id: string): (i: nat)
    requires id in order
    ensures i < |order| && order[i] == id && forall j :: i < j < |order| ==> order[j] != id
  {
    if order[|order| - 1] == id then |order| - 1 else IndexOf(order[..|order| - 1], id)
  }

  function Opening(order: seq<string>): (items: seq<Item>)
    ensures |items| == |order|
  {
    seq(|order|, i requires 0 <= i < |order| => Item(order[i], Waiting, None, NoReason))
  }

  /** Every identifier of the order is filed under its last occurrence. */
  ghost predicate Files(order: seq<string>, byNodeID: map<string, nat>) {
    && (forall id :: id in byNodeID <==> id in order)
    && (forall id :: id in order ==> byNodeID[id] == IndexOf(order, id))
  }

  // ----- Marking the item at index j -----

  function Mark(items: seq<Item>, j: nat, status: Status): (r: seq<Item>)
    requires j < |items|
  {
    items[j := items[j].(status := status)]
  }

  function MarkEscalating(items: seq<Item>, j: nat, strategy: nat): (r: seq<Item>)
    requires j < |items|
  {
    items[j := items[j].(status := Status.Trying, strategy := Some(strategy), reason := LooksCensored)]
  }

  function MarkBlocked(items: seq<Item>, j: nat, reason: Reason): (r: seq<Item>)
    requires j < |items|
  {
    items[j := items[j].(status := Blocked, reason := if reason != NoReason then reason else items[j].reason)]
  }

  function MarkSucceeded(items: seq<Item>, j: nat, strategy: nat): (r: seq<Item>)
    requires j < |items|
  {
    items[j := items[j].(status := OK, reason := NoReason,
                         strategy := if strategy != 0 then Some(strategy) else items[j].strategy)]
  }

  // ----- The walk as a function -----

  datatype NodeOutcome = NodeConnected | NodeSuperseded | NodeFailed | NodeLocalFailure

  /** What trying one node leaves: the whole log so far, the items, the outcome and the reason for a block. */
  datatype NodeEnd = NodeEnd(log: seq<Event>, items: seq<Item>, outcome: NodeOutcome, reason: Reason)

  function Refusal(log: seq<Event>, items: seq<Item>, j: nat): (end: NodeEnd)
    requires j < |items|
    ensures |end.items| == |items|
  {
    var marked := MarkBlocked(items, j, LocalSetupFailed);
    NodeEnd(log + [Published(marked, Pending)] + [Event.Failed], marked, NodeLocalFailure, NoReason)
  }

  function GiveUp(log: seq<Event>, items: seq<Item>, censored: bool): NodeEnd {
    NodeEnd(log, items, NodeFailed, if censored then LooksCensored else NoReason)
  }

  datatype Turn = Ends(end: NodeEnd) | Escalates(log: seq<Event>, items: seq<Item>)

  /** Node i, filed under index j, under strategy k; censored: an earlier strategy met the interference fingerprint. */
  function TryStrategy(w: World, log: seq<Event>, items: seq<Item>, i: nat, j: nat, k: nat, censored: bool): (t: Turn)
    requires j < |items| && k < STRATEGIES
    ensures if t.Ends? then |t.end.items| == |items| else |t.items| == |items| && k + 1 < STRATEGIES
  {
    var started := log + [Started(i, k)];
    match w.tries(i, k)
    case GoneBefore => Ends(NodeEnd(log, items, NodeSuperseded, NoReason))
    case BuildFails => Ends(NodeEnd(log, items, NodeFailed, NoReason))
    case GoneAtStart => Ends(NodeEnd(started, items, NodeSuperseded, NoReason))
    case StartFails(local) =>
      Ends(if local then Refusal(started, items, j) else NodeEnd(started, items, NodeFailed, NoReason))
    case GoneInProbe => Ends(NodeEnd(started, items, NodeSuperseded, NoReason))
    case GateFails(current) =>
      Ends(if current then Refusal(started, items, j) else NodeEnd(started, items, NodeLocalFailure, NoReason))
    case Up =>
      var marked := MarkSucceeded(items, j, k);
      Ends(NodeEnd(started + [Published(marked, Success)], marked, NodeConnected, NoReason))
    case Down(tcp, stalled) =>
      if k == STRATEGIES - 1 then Ends(GiveUp(started, items, censored))
      else
        var verdict := ClassifyFailure(tcp, stalled);
        var classified := started + [Classified(i, k, verdict)];
        if verdict != Censored then Ends(GiveUp(classified, items, censored))
        else
          var marked := MarkEscalating(items, j, k + 1);
          Escalates(classified + [Published(marked, Pending)], marked)
  }

  /** The node across its strategies, from strategy k on. */
  function Cascade(w: World, log: seq<Event>, items: seq<Item>, i: nat, j: nat, k: nat, censored: bool): (end: NodeEnd)
    requires j < |items| && k < STRATEGIES
    ensures |end.items| == |items|
    decreases STRATEGIES - k
  {
    match TryStrategy(w, log, items, i, j, k, censored)
    case Ends(end) => end
    case Escalates(shown, marked) => Cascade(w, shown, marked, i, j, k + 1, true)
  }

  /** One turn of the candidate loop: mark the node, try it, and mark it blocked when it did not come up. */
  function Candidate(w: World, order: seq<string>, log: seq<Event>, items: seq<Item>, i: nat): (end: NodeEnd)
    requires |items| == |order| && i < |order|
    ensures |end.items| == |items|
  {
    var j := IndexOf(order, order[i]);
    var trying := Mark(items, j, Status.Trying);
    var end := Cascade(w, log + [Published(trying, Pending)], trying, i, j, 0, false);
    if end.outcome != NodeFailed then end
    else
      var blocked := MarkBlocked(end.items, j, end.reason);
      end.(log := end.log + [Published(blocked, Pending)], items := blocked)
  }

  /** The walk from candidate i on. */
  function Walk(w: World, order: seq<string>, log: seq<Event>, items: seq<Item>, i: nat): seq<Event>
    requires |items| == |order| && i <= |order|
    decreases |order| - i
  {
    if w.gone(i) then log
    else if i == |order| then if w.goneLate then log else log + [Published(items, Exhausted)] + [Event.Failed]
    else
      var end := Candidate(w, order, log, items, i);
      if end.outcome != NodeFailed then end.log else Walk(w, order, end.log, end.items, i + 1)
  }

  function WholeWalk(w: World, order: seq<string>): seq<Event> {
    Walk(w, order, [Published(Opening(order), Pending)], Opening(order), 0)
  }

  // ----- The walk as the daemon runs it -----

  /** The tracker of one walk: its items are changed in place, each snapshot is a copy. */
  class AttemptTracker {
    const order: seq<string>
    const items: array<Item>
    const byNodeID: map<string, nat>
    var log: seq<Event>

    ghost predicate Valid()
      reads this
    {
      items.Length == |order| && Files(order, byNodeID)
    }

    constructor (order: seq<string>)
      ensures Valid() && this.order == order && fresh(items)
      ensures items[..] == Opening(order) && log == []
    {
      this.order := order;
      log := [];
      var filed: map<string, nat> := map[];
      var list := new Item[|order|];
      for i := 0 to |order|
        invariant list[..i] == Opening(order)[..i]
        invariant Files(order[..i], filed)
      {
        list[i] := Item(order[i], Waiting, None, NoReason);
        assert order[..i + 1][..i] == order[..i];
        filed := filed[order[i] := i];
      }
      items, byNodeID := list, filed;
      assert list[..] == list[..|order|] && order[..|order|] == order;
      assert Opening(order)[..|order|] == Opening(order);
    }

    method Publish(outcome: Outcome)
      modifies this
      ensures log == old(log) + [Published(items[..], outcome)]
    {
      log := log + [Published(items[..], outcome)];
    }

    method Trying(i: nat)
      requires Valid() && i < |order|
      modifies this, items
      ensures Valid() && items[..] == Mark(old(items[..]), IndexOf(order, order[i]), Status.Trying)
      ensures log == old(log) + [Published(items[..], Pending)]
    {
      if order[i] in byNodeID {
        var j := byNodeID[order[i]];
        items[j] := items[j].(status := Status.Trying);
      }
      Publish(Pending);
    }

    method Escalating(i: nat, strategy: nat)
      requires Valid() && i < |order| && strategy < STRATEGIES
      modifies this, items
      ensures Valid() && items[..] == MarkEscalating(old(items[..]), IndexOf(order, order[i]), strategy)
      ensures log == old(log) + [Published(items[..], Pending)]
    {
      if order[i] in byNodeID {
        var j := byNodeID[order[i]];
        items[j] := items[j].(status := Status.Trying, strategy := Some(strategy), reason := LooksCensored);
      }
      Publish(Pending);
    }

    method BlockedWithReason(i: nat, reason: Reason)
      requires Valid() && i < |order|
      modifies this, items
      ensures Valid() && items[..] == MarkBlocked(old(items[..]), IndexOf(order, order[i]), reason)
      ensures log == old(log) + [Published(items[..], Pending)]
    {
      if order[i] in byNodeID {
        var j := byNodeID[order[i]];
        items[j] := items[j].(status := Blocked);
        if reason != NoReason {
          items[j] := items[j].(reason := reason);
        }
      }
      Publish(Pending);
    }

    method Succeeded(i: nat, strategy: nat)
      requires Valid() && i < |order| && strategy < STRATEGIES
      modifies this, items
      ensures Valid() && items[..] == MarkSucceeded(old(items[..]), IndexOf(order, order[i]), strategy)
      ensures log == old(log) + [Published(items[..], Success)]
    {
      if order[i] in byNodeID {
        var j := byNodeID[order[i]];
        items[j] := items[j].(status := OK, reason := NoReason);
        if strategy != 0 {
          items[j] := items[j].(strategy := Some(strategy));
        }
      }
      Publish(Success);
    }

    method Note(e: Event)
      modifies this
      ensures log == old(log) + [e]
    {
      log := log + [e];
    }
  }

  /** One turn of the strategy loop; over: the node is decided. */
  method TryOnce(w: World, t: AttemptTracker, i: nat, k: nat, censored: bool)
    returns (over: bool, outcome: NodeOutcome, reason: Reason)
    requires t.Valid() && i < |t.order| && k < STRATEGIES
    modifies t, t.items
    ensures t.Valid()
    ensures match TryStrategy(w, old(t.log), old(t.items[..]), i, IndexOf(t.order, t.order[i]), k, censored)
            case Ends(end) => over && NodeEnd(t.log, t.items[..], outcome, reason) == end
            case Escalates(log, items) => !over && t.log == log && t.items[..] == items
  {
    over, outcome, reason := true, NodeFailed, NoReason;
    var happens := w.tries(i, k);
    if happens.GoneBefore? {
      return true, NodeSuperseded, NoReason;
    }
    if happens.BuildFails? {
      return;
    }
    t.Note(Started(i, k));
    if happens.GoneAtStart? {
      return true, NodeSuperseded, NoReason;
    }
    if happens.StartFails? {
      if happens.local {
        t.BlockedWithReason(i, LocalSetupFailed);
        t.Note(Event.Failed);
        return true, NodeLocalFailure, NoReason;
      }
      return;
    }
    if happens.Up? {
      t.Succeeded(i, k);
      return true, NodeConnected, NoReason;
    }
    if happens.GateFails? {
      if happens.current {
        t.BlockedWithReason(i, LocalSetupFailed);
        t.Note(Event.Failed);
      }
      return true, NodeLocalFailure, NoReason;
    }
    if happens.GoneInProbe? {
      return true, NodeSuperseded, NoReason;
    }
    if k < STRATEGIES - 1 {
      var verdict := ClassifyFailure(happens.tcp, happens.stalled);
      t.Note(Classified(i, k, verdict));
      if verdict == Censored {
        t.Escalating(i, k + 1);
        return false, NodeFailed, NoReason;
      }
    }
    reason := if censored then LooksCensored else NoReason;
  }

  method AttemptNode(w: World, t: AttemptTracker, i: nat) returns (outcome: NodeOutcome, reason: Reason)
    requires t.Valid() && i < |t.order|
    modifies t, t.items
    ensures t.Valid()
    ensures NodeEnd(t.log, t.items[..], outcome, reason)
            == Cascade(w, old(t.log), old(t.items[..]), i, IndexOf(t.order, t.order[i]), 0, false)
  {
    var censored, k, over := false, 0, false;
    outcome, reason := NodeFailed, NoReason;
    ghost var j := IndexOf(t.order, t.order[i]);
    ghost var end := Cascade(w, t.log, t.items[..], i, j, 0, false);
    while !over
      invariant t.Valid() && (!over ==> k < STRATEGIES)
      invariant if over then NodeEnd(t.log, t.items[..], outcome, reason) == end
                else Cascade(w, t.log, t.items[..], i, j, k, censored) == end
      decreases !over, STRATEGIES - k
    {
      over, outcome, reason := TryOnce(w, t, i, k, censored);
      if !over {
        censored, k := true, k + 1;
      }
    }
  }

  method TryCandidate(w: World, t: AttemptTracker, i: nat) returns (outcome: NodeOutcome)
    requires t.Valid() && i < |t.order|
    modifies t, t.items
    ensures t.Valid()
    ensures var end := Candidate(w, t.order, old(t.log), old(t.items[..]), i);
            t.log == end.log && t.items[..] == end.items && outcome == end.outcome
  {
    var reason;
    t.Trying(i);
    outcome, reason := AttemptNode(w, t, i);
    if outcome == NodeFailed {
      t.BlockedWithReason(i, reason);
    }
  }

  method RunFallback(w: World, order: seq<string>) returns (log: seq<Event>)
    ensures log == WholeWalk(w, order)
  {
    var t := new AttemptTracker(order);
    t.Publish(Pending);
    assert t.log == [Published(Opening(order), Pending)];
    var cursor := 0;
    while true
      invariant fresh(t) && fresh(t.items) && t.Valid() && t.order == order && cursor <= |order|
      invariant Walk(w, order, t.log, t.items[..], cursor) == WholeWalk(w, order)
      decreases |order| - cursor
    {
      if w.gone(cursor) {
        return t.log;
      }
      if cursor >= |order| {
        if !w.goneLate {
          t.Publish(Exhausted);
          t.Note(Event.Failed);
        }
        return t.log;
      }
      var outcome := TryCandidate(w, t, cursor);
      if outcome != NodeFailed {
        return t.log;
      }
      cursor := cursor + 1;
    }
  }
}
