/**
  The crash-loop budget of the kill switch (core/control/connect.go): how often a tunnel whose process
  keeps dying is restarted.  The counter is read and written in one critical section per event, so any
  interleaving of deaths and commands is a sequence of these events.
 */
module RelaunchBudget {

  const MAX_RELAUNCHES := 5

  /** Where a connect command leaves: only one that gets past every refusal before the reset resets the counter. */
  datatype ConnectPath = MissingProfile | UnknownProfile | NoServers | SwitchedLive | TunConflict | Proceeds

  datatype Event =
    | Connect(path: ConnectPath)
    | Disconnect
      // The process died unexpectedly after `uptime`; armed: the kill switch is on; stored: the profile still is.
    | Death(armed: bool, uptime: int, stored: bool)

  /** The counter after a death, and whether a relaunch was scheduled. */
  function AfterDeath(resetAfter: int, relaunches: int, armed: bool, uptime: int, stored: bool): (int, bool) {
    var spent := if armed && uptime >= resetAfter then 0 else relaunches;
    var left := if armed && spent < MAX_RELAUNCHES then spent + 1 else spent;
    (left, armed && spent < MAX_RELAUNCHES && stored)
  }

  class KillSwitchBudget {
    const relaunchResetAfter: int
    var relaunches: int

    constructor (relaunchResetAfter: int)
      ensures this.relaunchResetAfter == relaunchResetAfter && relaunches == 0
    {
      this.relaunchResetAfter, relaunches := relaunchResetAfter, 0;
    }

    method HandleConnect(path: ConnectPath)
      modifies this
      ensures relaunches == if path.Proceeds? then 0 else old(relaunches)
    {
      if path != Proceeds {
        return;
      }
      relaunches := 0;
    }

    method HandleDisconnect()
      modifies this
      ensures relaunches == 0
    {
      relaunches := 0;
    }

    method KillSwitchRelaunch(armed: bool, uptime: int, stored: bool) returns (scheduled: bool)
      modifies this
      ensures (relaunches, scheduled) == AfterDeath(relaunchResetAfter, old(relaunches), armed, uptime, stored)
    {
      if armed && uptime >= relaunchResetAfter {
        relaunches := 0;
      }
      var spent := relaunches;
      if armed && spent < MAX_RELAUNCHES {
        relaunches := relaunches + 1;
      }
      if !armed {
        return false;
      }
      if spent >= MAX_RELAUNCHES {
        return false;
      }
      if !stored {
        return false;
      }
      return true;
    }
  }

  // ----- Whole runs -----

  function Counter(resetAfter: int, relaunches: int, e: Event): int {
    match e
    case Connect(path) => if path.Proceeds? then 0 else relaunches
    case Disconnect => 0
    case Death(armed, uptime, stored) => AfterDeath(resetAfter, relaunches, armed, uptime, stored).0
  }

  function Schedules(resetAfter: int, relaunches: int, e: Event): bool {
    e.Death? && AfterDeath(resetAfter, relaunches, e.armed, e.uptime, e.stored).1
  }

  /** The counter after a run of events, oldest first, from a given counter. */
  function RunCounter(resetAfter: int, from: int, events: seq<Event>): int {
    if events == [] then from
    else Counter(resetAfter, RunCounter(resetAfter, from, events[..|events| - 1]), events[|events| - 1])
  }

  /** How many relaunches a run schedules. */
  function Scheduled(resetAfter: int, from: int, events: seq<Event>): nat {
    if events == [] then 0
    else
      var front, last := events[..|events| - 1], events[|events| - 1];
      Scheduled(resetAfter, from, front)
      + if Schedules(resetAfter, RunCounter(resetAfter, from, front), last) then 1 else 0
  }

  /** An explicit command that counts, or a death after a healthy stretch under the kill switch. */
  predicate Refunds(resetAfter: int, e: Event) {
    match e
    case Connect(path) => path.Proceeds?
    case Disconnect => true
    case Death(armed, uptime, _) => armed && uptime >= resetAfter
  }

  function RefundCount(resetAfter: int, events: seq<Event>): nat {
    if events == [] then 0
    else RefundCount(resetAfter, events[..|events| - 1]) + if Refunds(resetAfter, events[|events| - 1]) then 1 else 0
  }

  /** By history alone: the armed deaths since the last refund, a refunding death included. */
  function DeathsSinceRefund(resetAfter: int, events: seq<Event>): nat {
    if events == [] then 0
    else
      var front, last := events[..|events| - 1], events[|events| - 1];
      (if Refunds(resetAfter, last) then 0 else DeathsSinceRefund(resetAfter, front))
      + if last.Death? && last.armed then 1 else 0
  }

  // ----- The laws -----

  /** The counter is the number of deaths since the last refund, capped. */
  lemma {:induction false} CounterIsTheHistory(resetAfter: int, events: seq<Event>)
    ensures RunCounter(resetAfter, 0, events)
            == if DeathsSinceRefund(resetAfter, events) <= MAX_RELAUNCHES then DeathsSinceRefund(resetAfter, events)
               else MAX_RELAUNCHES
  {
    if events == [] {
    } else {
      CounterIsTheHistory(resetAfter, events[..|events| - 1]);
    }
  }

  /**
    A death is relaunched exactly when the kill switch is armed, the profile is still stored, and it is
    among the first MAX_RELAUNCHES armed deaths since the last refund.
   */
  lemma RelaunchedIff(resetAfter: int, events: seq<Event>, death: Event)
    requires death.Death?
    ensures Schedules(resetAfter, RunCounter(resetAfter, 0, events), death)
            <==> death.armed && death.stored && DeathsSinceRefund(resetAfter, events + [death]) <= MAX_RELAUNCHES
  {
    CounterIsTheHistory(resetAfter, events);
    assert (events + [death])[..|events|] == events;
  }

  lemma {:induction false} BudgetFrom(resetAfter: int, from: int, events: seq<Event>)
    requires 0 <= from <= MAX_RELAUNCHES
    ensures 0 <= RunCounter(resetAfter, from, events) <= MAX_RELAUNCHES
    ensures Scheduled(resetAfter, from, events) + from
            <= MAX_RELAUNCHES * RefundCount(resetAfter, events) + RunCounter(resetAfter, from, events)
  {
    if events == [] {
    } else {
      BudgetFrom(resetAfter, from, events[..|events| - 1]);
    }
  }

  /**
    From any moment of any run, the relaunches scheduled afterwards stay within one budget for that
    moment and one more for every refund since.
   */
  lemma RelaunchesAreBounded(resetAfter: int, before: seq<Event>, after: seq<Event>)
    ensures Scheduled(resetAfter, RunCounter(resetAfter, 0, before), after)
            <= MAX_RELAUNCHES * (1 + RefundCount(resetAfter, after))
  {
    BudgetFrom(resetAfter, 0, before);
    BudgetFrom(resetAfter, RunCounter(resetAfter, 0, before), after);
  }

  /** A disconnect and a full burst of quick deaths, n times over. */
  function Worst(resetAfter: int, n: nat): seq<Event> {
    var quick := Death(true, resetAfter - 1, true);
    var burst := [quick, quick, quick, quick, quick];
    if n == 0 then burst else Worst(resetAfter, n - 1) + [Disconnect] + burst
  }

  /** A quick death within the budget spends one unit and is relaunched. */
  lemma QuickDeath(resetAfter: int, events: seq<Event>, quick: Event)
    requires quick == Death(true, resetAfter - 1, true)
    requires RunCounter(resetAfter, 0, events) < MAX_RELAUNCHES
    ensures RunCounter(resetAfter, 0, events + [quick]) == RunCounter(resetAfter, 0, events) + 1
    ensures Scheduled(resetAfter, 0, events + [quick]) == Scheduled(resetAfter, 0, events) + 1
    ensures RefundCount(resetAfter, events + [quick]) == RefundCount(resetAfter, events)
  {
    assert (events + [quick])[..|events|] == events;
  }

  lemma BurstSpendsTheBudget(resetAfter: int, events: seq<Event>, quick: Event)
    requires quick == Death(true, resetAfter - 1, true)
    requires RunCounter(resetAfter, 0, events) == 0
    ensures var all := events + [quick, quick, quick, quick, quick];
            && Scheduled(resetAfter, 0, all) == Scheduled(resetAfter, 0, events) + MAX_RELAUNCHES
            && RefundCount(resetAfter, all) == RefundCount(resetAfter, events)
  {
    QuickDeath(resetAfter, events, quick);
    QuickDeath(resetAfter, events + [quick], quick);
    QuickDeath(resetAfter, events + [quick] + [quick], quick);
    QuickDeath(resetAfter, events + [quick] + [quick] + [quick], quick);
    QuickDeath(resetAfter, events + [quick] + [quick] + [quick] + [quick], quick);
    assert events + [quick, quick, quick, quick, quick] == events + [quick] + [quick] + [quick] + [quick] + [quick];
  }

  /** The bound is attained for every number of refunds: it cannot be lowered. */
  lemma {:induction false} TheBoundIsTight(resetAfter: int, n: nat)
    ensures RefundCount(resetAfter, Worst(resetAfter, n)) == n
    ensures Scheduled(resetAfter, 0, Worst(resetAfter, n)) == MAX_RELAUNCHES * (1 + n)
  {
    if n == 0 {
      var quick := Death(true, resetAfter - 1, true);
      BurstSpendsTheBudget(resetAfter, [], quick);
      assert Worst(resetAfter, 0) == [] + [quick, quick, quick, quick, quick];
    } else {
      TheBoundIsTight(resetAfter, n - 1);
      var before := Worst(resetAfter, n - 1);
      assert (before + [Disconnect])[..|before|] == before;
      BurstSpendsTheBudget(resetAfter, before + [Disconnect], Death(true, resetAfter - 1, true));
    }
  }
}
